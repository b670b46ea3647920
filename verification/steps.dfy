/** Durable steps: `step(name, fn)` of `steps.py` over the `steps` table of `store.py`. */
module Steps {
  import opened Models

  // --- values and their JSON form ---------------------------------------

  /** What a step function may return. `Foreign` is anything JSON has no form for. */
  datatype Value = Null | Num(n: int) | Str(s: string) | Array(items: seq<Value>) | Tuple(parts: seq<Value>) | Foreign

  /** The JSON a payload holds. */
  datatype Json = JNull | JNum(n: int) | JStr(s: string) | JArray(items: seq<Json>)

  /** `json.loads`. */
  function Loads(j: Json): Value {
    match j
    case JNull => Null
    case JNum(n) => Num(n)
    case JStr(s) => Str(s)
    case JArray(items) => Array(LoadsAll(items))
  }

  function LoadsAll(items: seq<Json>): seq<Value> {
    if items == [] then [] else [Loads(items[0])] + LoadsAll(items[1..])
  }

  /** `json.dumps`; None is its TypeError. */
  function Dumps(v: Value): Option<Json> {
    match v
    case Null => Some(JNull)
    case Num(n) => Some(JNum(n))
    case Str(s) => Some(JStr(s))
    case Array(items) => Wrap(DumpsAll(items))
    case Tuple(parts) => Wrap(DumpsAll(parts))
    case Foreign => None
  }

  function DumpsAll(items: seq<Value>): Option<seq<Json>> {
    if items == [] then Some([])
    else
      var first, rest := Dumps(items[0]), DumpsAll(items[1..]);
      if first.Some? && rest.Some? then Some([first.value] + rest.value) else None
  }

  function Wrap(items: Option<seq<Json>>): Option<Json> {
    if items.Some? then Some(JArray(items.value)) else None
  }

  /** A value that went through JSON once goes through it unchanged ever after. */
  lemma {:induction false} DumpsOfLoads(j: Json)
    ensures Dumps(Loads(j)) == Some(j)
    decreases j
  {
    if j.JArray? {
      DumpsAllOfLoadsAll(j.items);
    }
  }

  lemma {:induction false} DumpsAllOfLoadsAll(items: seq<Json>)
    ensures DumpsAll(LoadsAll(items)) == Some(items)
    decreases items
  {
    if items != [] {
      DumpsOfLoads(items[0]);
      DumpsAllOfLoadsAll(items[1..]);
      assert LoadsAll(items)[0] == Loads(items[0]) && LoadsAll(items)[1..] == LoadsAll(items[1..]);
      assert [items[0]] + items[1..] == items;
    }
  }

  /** The value with every tuple in it as a list. */
  function Listed(v: Value): Value {
    match v
    case Array(items) => Array(ListedAll(items))
    case Tuple(parts) => Array(ListedAll(parts))
    case _ => v
  }

  function ListedAll(items: seq<Value>): seq<Value> {
    if items == [] then [] else [Listed(items[0])] + ListedAll(items[1..])
  }

  /** Is there a JSON form for all of the value? */
  predicate HasForm(v: Value) {
    match v
    case Foreign => false
    case Array(items) => AllHaveForm(items)
    case Tuple(parts) => AllHaveForm(parts)
    case _ => true
  }

  predicate AllHaveForm(items: seq<Value>) {
    items == [] || (HasForm(items[0]) && AllHaveForm(items[1..]))
  }

  /** A value goes through JSON exactly if all of it has a form there, and then only its
      tuples come back changed, as lists. */
  lemma {:induction false} LoadsOfDumps(v: Value)
    ensures Dumps(v).Some? <==> HasForm(v)
    ensures HasForm(v) ==> Loads(Dumps(v).value) == Listed(v)
    decreases v
  {
    if v.Array? {
      LoadsAllOfDumpsAll(v.items);
    } else if v.Tuple? {
      LoadsAllOfDumpsAll(v.parts);
    }
  }

  lemma {:induction false} LoadsAllOfDumpsAll(items: seq<Value>)
    ensures DumpsAll(items).Some? <==> AllHaveForm(items)
    ensures AllHaveForm(items) ==> LoadsAll(DumpsAll(items).value) == ListedAll(items)
    decreases items
  {
    if items != [] {
      LoadsOfDumps(items[0]);
      LoadsAllOfDumpsAll(items[1..]);
    }
  }

  // --- one call ---------------------------------------------------------

  /** What happens when the function of a step is called. */
  datatype Answer = Returns(value: Value) | Throws

  datatype StepError = OutsideARun | FunctionRaised | NotSerialisable

  /** The steps recorded for one fire. */
  type Table = map<string, Json>

  /** The end of a call whose function was called: the record, if there is none yet, and
      what the caller gets, which is its own answer as JSON. */
  datatype Commit = Commit(table: Table, answer: Value)

  function Committed(t: Table, name: string, a: Answer): Result<Commit, StepError> {
    match a
    case Throws => Err(FunctionRaised)
    case Returns(v) =>
      var payload := Dumps(v);
      if payload.None? then Err(NotSerialisable)
      else Ok(Commit(if name in t then t else t[name := payload.value], Loads(payload.value)))
  }

  /** What a call that is not interrupted, and that no other attempt overlaps, adds to
      the table, or why it raises. The answer matters only when the name has no record. */
  function Recorded(t: Table, name: string, a: Answer): Result<Table, StepError> {
    if name in t then Ok(t)
    else
      match a
      case Throws => Err(FunctionRaised)
      case Returns(v) =>
        var payload := Dumps(v);
        if payload.Some? then Ok(t[name := payload.value]) else Err(NotSerialisable)
  }

  /** The environment the daemon gives a run. */
  datatype Env = Env(job: string, fire: Option<int>)

  datatype StepKey = StepKey(job: string, fire: int, name: string)

  class Checkpoints {
    var steps: map<StepKey, Json>

    constructor ()
      ensures steps == map[]
    {
      steps := map[];
    }

    /** The part of the table that belongs to one fire. */
    ghost function Of(job: string, fire: int): Table
      reads this
    {
      map k | k in steps && k.job == job && k.fire == fire :: k.name := steps[k]
    }

    method GetStep(job: string, fire: int, name: string) returns (hit: Option<Value>)
      ensures var t := Of(job, fire); hit == if name in t then Some(Loads(t[name])) else None
    {
      var k := StepKey(job, fire, name);
      assert k in steps <==> name in Of(job, fire);
      hit := if k in steps then Some(Loads(steps[k])) else None;
    }

    /** INSERT … ON CONFLICT DO NOTHING. */
    method RecordStep(job: string, fire: int, name: string, payload: Json)
      modifies this
      ensures Of(job, fire) == if name in old(Of(job, fire)) then old(Of(job, fire)) else old(Of(job, fire))[name := payload]
      ensures forall j, f :: j != job || f != fire ==> Of(j, f) == old(Of(j, f))
    {
      var k := StepKey(job, fire, name);
      assert k in steps <==> name in Of(job, fire);
      if k !in steps {
        steps := steps[k := payload];
      }
    }

    /** The second half of `step`: the function was called, its answer is recorded unless
        another attempt has recorded one meanwhile, and returned. */
    method CommitStep(job: string, fire: int, name: string, fn: Answer) returns (r: Result<Value, StepError>)
      modifies this
      ensures match Committed(old(Of(job, fire)), name, fn)
        case Ok(c) => Of(job, fire) == c.table && r == Ok(c.answer)
        case Err(e) => Of(job, fire) == old(Of(job, fire)) && r == Err(e)
      ensures forall j, f :: j != job || f != fire ==> Of(j, f) == old(Of(j, f))
    {
      match fn
      case Throws =>
        r := Err(FunctionRaised);
      case Returns(v) =>
        var payload := Dumps(v);
        if payload.None? {
          r := Err(NotSerialisable);
        } else {
          RecordStep(job, fire, name, payload.value);
          r := Ok(Loads(payload.value));
        }
    }

    /** `step`, with no other attempt of the fire in between. `fn` is what the function
        does if it is called; `called` says whether it was. */
    method Step(env: Env, name: string, fn: Answer) returns (r: Result<Value, StepError>, called: bool)
      modifies this
      ensures env.job == "" || env.fire.None? ==> r == Err(OutsideARun) && !called && steps == old(steps)
      ensures env.job != "" && env.fire.Some? ==> Stepped(old(Of(env.job, env.fire.value)), Of(env.job, env.fire.value), name, fn, r, called)
      ensures forall j, f :: j != env.job || Some(f) != env.fire ==> Of(j, f) == old(Of(j, f))
    {
      if env.job == "" || env.fire.None? {
        return Err(OutsideARun), false;
      }
      var hit := GetStep(env.job, env.fire.value, name);
      if hit.Some? {
        return Ok(hit.value), false;
      }
      called := true;
      r := CommitStep(env.job, env.fire.value, name, fn);
    }
  }

  /** What one call of `step` does to the steps of its fire: the function is called
      exactly when the name has no record, and the caller gets what the record says,
      whether it was made now or before. */
  ghost predicate Stepped(before: Table, after: Table, name: string, fn: Answer, r: Result<Value, StepError>, called: bool) {
    && called == (name !in before)
    && match Recorded(before, name, fn)
       case Ok(t) => after == t && r == Ok(Loads(t[name]))
       case Err(e) => after == before && r == Err(e)
  }

  // --- the life of a fire -----------------------------------------------

  /** A job body: a deterministic program of `step` calls. Given the answers so far, the
      name of the next step; None is the end. */
  type Program = seq<Value> -> Option<string>

  /** What can happen to a fire whose attempts follow one another. `Restart` begins the next attempt, ending the one that
      was under way between two calls, if any. `Advance` is one undisturbed call of
      `step`. `Cut` ends the attempt after the function of its next step was called and
      before the answer was recorded. */
  datatype Event = Restart | Advance(fn: Answer) | Cut

  /** A call whose answer is on record. */
  datatype Kept = Kept(name: string, value: Value)

  /** The recorded steps; every call of a step function so far, and which of those calls
      were kept or lost; whether an attempt is under way, and the answers the newest
      attempt has been given. */
  datatype Life = Life(
    table: Table,
    calls: seq<string>,
    kept: seq<Kept>,
    lost: seq<string>,
    running: bool,
    given: seq<Value>)

  const BORN := Life(map[], [], [], [], false, [])

  function Happen(body: Program, l: Life, e: Event): Life {
    if e.Restart? then l.(running := true, given := [])
    else if !l.running || body(l.given).None? then l
    else
      var name := body(l.given).value;
      if e.Cut? then
        if name in l.table then l.(running := false) else Lose(l, name)
      else
        match Recorded(l.table, name, e.fn)
        case Err(_) => Lose(l, name)
        case Ok(t) =>
          var given := l.given + [Loads(t[name])];
          if name in l.table then l.(given := given)
          else l.(table := t, calls := l.calls + [name], kept := l.kept + [Kept(name, e.fn.value)], given := given)
  }

  function Lose(l: Life, name: string): Life {
    l.(calls := l.calls + [name], lost := l.lost + [name], running := false)
  }

  function LifeOf(body: Program, events: seq<Event>): Life {
    if events == [] then BORN
    else Happen(body, LifeOf(body, events[..|events| - 1]), events[|events| - 1])
  }

  /** One attempt from start to wherever it got, with no interruption. */
  predicate Uninterrupted(events: seq<Event>) {
    events != [] && events[0] == Restart && forall i :: 1 <= i < |events| ==> events[i].Advance?
  }

  predicate Finished(body: Program, l: Life) {
    l.running && body(l.given).None?
  }

  /** How often a name occurs. */
  function Times(names: seq<string>, name: string): nat {
    if names == [] then 0
    else Times(names[..|names| - 1], name) + if names[|names| - 1] == name then 1 else 0
  }

  lemma {:induction false} TimesMeansIn(names: seq<string>, name: string)
    ensures Times(names, name) > 0 <==> name in names
  {
    if names != [] {
      TimesMeansIn(names[..|names| - 1], name);
      assert names == names[..|names| - 1] + [names[|names| - 1]];
    }
  }

  /** The answers the records give to the body, in the order it asks for them. */
  ghost predicate Follows(body: Program, t: Table, given: seq<Value>) {
    forall i :: 0 <= i < |given| ==> Answered(body, t, given[..i], given[i])
  }

  predicate Answered(body: Program, t: Table, given: seq<Value>, v: Value) {
    body(given).Some? && body(given).value in t && v == Loads(t[body(given).value])
  }

  lemma FollowsOn(body: Program, t: Table, given: seq<Value>, v: Value)
    requires Follows(body, t, given) && Answered(body, t, given, v)
    ensures Follows(body, t, given + [v])
  {
    var more := given + [v];
    forall i | 0 <= i < |more|
      ensures Answered(body, t, more[..i], more[i])
    {
      assert more[..i] == given[..i];
    }
  }

  lemma TimesMore(names: seq<string>, x: string, name: string)
    ensures Times(names + [x], name) == Times(names, name) + if x == name then 1 else 0
  {
    assert (names + [x])[..|names|] == names;
  }

  /** A call of the function of step `x` was kept or lost, or there was none. */
  predicate KeptOrLost(l: Life, m: Life, x: string) {
    || (m.calls == l.calls && m.lost == l.lost && m.table == l.table)
    || (x !in l.table && m.calls == l.calls + [x] && m.lost == l.lost && m.table.Keys == l.table.Keys + {x})
    || (m.calls == l.calls + [x] && m.lost == l.lost + [x] && m.table == l.table)
  }

  /** A step function is called at most once per event, and then its answer is either
      recorded or lost. */
  lemma CallIsKeptOrLost(body: Program, l: Life, e: Event) returns (x: string)
    ensures KeptOrLost(l, Happen(body, l, e), x)
  {
    x := if body(l.given).Some? then body(l.given).value else "";
  }

  predicate Balanced(l: Life, name: string) {
    Times(l.calls, name) == (if name in l.table then 1 else 0) + Times(l.lost, name)
  }

  lemma BalanceOn(l: Life, m: Life, x: string, name: string)
    requires Balanced(l, name) && KeptOrLost(l, m, x)
    ensures Balanced(m, name)
  {
    TimesMore(l.calls, x, name);
    TimesMore(l.lost, x, name);
    assert name in m.table <==> name in m.table.Keys;
  }

  /** How often the function of a step was called: once for its record, if there is one,
      and once for every call whose answer was lost. */
  lemma {:induction false} CallsOfAStep(body: Program, events: seq<Event>, name: string)
    ensures var l := LifeOf(body, events);
      Times(l.calls, name) == (if name in l.table then 1 else 0) + Times(l.lost, name)
  {
    if events != [] {
      CallsOfAStep(body, events[..|events| - 1], name);
      var l := LifeOf(body, events[..|events| - 1]);
      var x := CallIsKeptOrLost(body, l, events[|events| - 1]);
      BalanceOn(l, LifeOf(body, events), x, name);
    }
  }

  /** In every life there is an uninterrupted run, whose functions answer what the kept
      calls answered, that has the same records and has been at least as far. */
  lemma {:induction false} Shadow(body: Program, events: seq<Event>) returns (whole: seq<Event>)
    ensures Uninterrupted(whole)
    ensures ShadowedBy(body, LifeOf(body, events), LifeOf(body, whole))
  {
    if events == [] {
      whole := [Restart];
    } else {
      var before := Shadow(body, events[..|events| - 1]);
      whole := ShadowStep(body, LifeOf(body, events[..|events| - 1]), before, events[|events| - 1]);
    }
  }

  ghost predicate ShadowedBy(body: Program, l: Life, z: Life) {
    && z.running && z.table == l.table && z.kept == l.kept && z.lost == []
    && l.given <= z.given
    && Follows(body, z.table, z.given)
    && (forall n :: n in l.lost ==> n in l.table || body(z.given) == Some(n))
  }

  lemma ShadowStep(body: Program, l: Life, before: seq<Event>, e: Event) returns (whole: seq<Event>)
    requires Uninterrupted(before) && ShadowedBy(body, l, LifeOf(body, before))
    ensures Uninterrupted(whole) && ShadowedBy(body, Happen(body, l, e), LifeOf(body, whole))
  {
    var m, z := Happen(body, l, e), LifeOf(body, before);
    if |l.given| < |z.given| {
      assert l.given == z.given[..|l.given|];
      assert Answered(body, z.table, l.given, z.given[|l.given|]);
      whole := before;
    } else {
      assert l.given == z.given;
      whole := before;
      if |m.given| > |l.given| {
        whole := before + [e];
        assert whole[..|whole| - 1] == before;
        FurtherOn(body, l, e);
      }
    }
  }

  lemma FurtherOn(body: Program, l: Life, e: Event)
    requires Follows(body, l.table, l.given) && |Happen(body, l, e).given| > |l.given|
    ensures Follows(body, Happen(body, l, e).table, Happen(body, l, e).given)
  {
    var m := Happen(body, l, e);
    forall i | 0 <= i < |l.given|
      ensures Answered(body, m.table, l.given[..i], l.given[i])
    {
      assert Answered(body, l.table, l.given[..i], l.given[i]);
    }
    FollowsOn(body, m.table, l.given, m.given[|l.given|]);
  }

  /** A job body that runs to its end after any number of attempts has been given what
      one uninterrupted run would have given it, had the step functions answered what
      their kept calls answered; and it leaves the same records. */
  lemma SameAsUninterrupted(body: Program, events: seq<Event>) returns (whole: seq<Event>)
    requires Finished(body, LifeOf(body, events))
    ensures Uninterrupted(whole) && Finished(body, LifeOf(body, whole))
    ensures var l, z := LifeOf(body, events), LifeOf(body, whole);
      && z.given == l.given && z.table == l.table && z.kept == l.kept
      && z.lost == []
  {
    whole := Shadow(body, events);
    var l, z := LifeOf(body, events), LifeOf(body, whole);
    assert |l.given| < |z.given| ==> Answered(body, z.table, z.given[..|l.given|], z.given[|l.given|]);
    assert z.given[..|l.given|] == l.given;
    assert z.given == l.given;
  }

  /** When the body has run to its end, each function it called was called exactly once
      if and only if no attempt was cut short inside a call, and no call raised or
      answered something JSON has no form for. */
  lemma ExactlyOnceIff(body: Program, events: seq<Event>)
    requires Finished(body, LifeOf(body, events))
    ensures var l := LifeOf(body, events);
      (forall name :: name in l.calls ==> Times(l.calls, name) == 1) <==> l.lost == []
  {
    var l := LifeOf(body, events);
    if l.lost == [] {
      forall name | name in l.calls
        ensures Times(l.calls, name) == 1
      {
        CallsOfAStep(body, events, name);
        TimesMeansIn(l.calls, name);
      }
    } else {
      var name := l.lost[0];
      LostIsCalledAgain(body, events, name);
      CallsOfAStep(body, events, name);
      TimesMeansIn(l.lost, name);
      TimesMeansIn(l.calls, name);
    }
  }

  /** A body cannot end without a record for a step whose answer was once lost. */
  lemma LostIsCalledAgain(body: Program, events: seq<Event>, name: string)
    requires Finished(body, LifeOf(body, events)) && name in LifeOf(body, events).lost
    ensures name in LifeOf(body, events).table
  {
    var whole := Shadow(body, events);
    var l, z := LifeOf(body, events), LifeOf(body, whole);
    assert |l.given| < |z.given| ==> Answered(body, z.table, z.given[..|l.given|], z.given[|l.given|]);
    assert z.given[..|l.given|] == l.given;
    assert z.given == l.given;
  }

  /** A life in which nothing was lost: interruptions between calls only. */
  predicate Undisturbed(events: seq<Event>) {
    forall e :: e in events ==> !e.Cut? && (e.Advance? ==> e.fn.Returns? && Dumps(e.fn.value).Some?)
  }

  lemma {:induction false} UndisturbedLosesNothing(body: Program, events: seq<Event>)
    requires Undisturbed(events)
    ensures LifeOf(body, events).lost == []
  {
    if events != [] {
      UndisturbedLosesNothing(body, events[..|events| - 1]);
      assert events[|events| - 1] in events;
    }
  }

  /** Interrupted between calls any number of times, a body ends as one uninterrupted run
      does, and calls each step function once. */
  lemma EachStepOnce(body: Program, events: seq<Event>) returns (whole: seq<Event>)
    requires Undisturbed(events) && Finished(body, LifeOf(body, events))
    ensures Uninterrupted(whole) && Finished(body, LifeOf(body, whole))
    ensures LifeOf(body, whole).given == LifeOf(body, events).given
    ensures LifeOf(body, whole).kept == LifeOf(body, events).kept
    ensures forall name :: name in LifeOf(body, events).calls ==> Times(LifeOf(body, events).calls, name) == 1
  {
    UndisturbedLosesNothing(body, events);
    ExactlyOnceIff(body, events);
    whole := SameAsUninterrupted(body, events);
  }
}
