/** Durable steps when attempts of one fire overlap. A process that recovery gave up may
    run beside its retry (see Orphans), so a call of `step` is two moves here: look, which
    calls the function if the name has no record, and commit, which records the answer
    and returns it. */
module Overlaps {
  import opened Models
  import opened Steps

  /** A live attempt: the answers it was given, and the step it is inside of. */
  datatype Attempt = Attempt(given: seq<Value>, inside: Option<string>)

  datatype Move =
    | Start(who: nat)              // a further attempt begins
    | Look(who: nat)               // `get_step`, and the call if there is no record
    | Finish(who: nat, fn: Answer) // the function answered: `json.dumps`, `record_step`
    | End(who: nat)                // the attempt ends, wherever it is

  /** The records; every call of a step function so far, and those whose answer was lost;
      the answers given, and those kept as records; the calls that began while another
      attempt was inside a call of the same step; the commits that found another payload
      on record; and the live attempts. */
  datatype Scene = Scene(
    table: Table,
    calls: seq<string>,
    lost: seq<string>,
    answers: seq<Kept>,
    kept: seq<Kept>,
    clashes: seq<string>,
    conflicts: seq<string>,
    live: map<nat, Attempt>)

  const EMPTY := Scene(map[], [], [], [], [], [], [], map[])

  predicate Inside(s: Scene, who: nat, name: string) {
    who in s.live && s.live[who].inside == Some(name)
  }

  predicate Busy(s: Scene, name: string) {
    exists who :: who in s.live && s.live[who].inside == Some(name)
  }

  predicate Enabled(body: Program, s: Scene, m: Move) {
    match m
    case Start(w) => w !in s.live
    case Look(w) => w in s.live && s.live[w].inside.None? && body(s.live[w].given).Some?
    case Finish(w, _) => w in s.live && s.live[w].inside.Some?
    case End(w) => w in s.live
  }

  function Give(s: Scene, who: nat, name: string, v: Value): Scene
    requires who in s.live
  {
    s.(answers := s.answers + [Kept(name, v)], live := s.live[who := Attempt(s.live[who].given + [v], None)])
  }

  /** An attempt that ends inside a call takes the answer with it. */
  function Leave(s: Scene, who: nat): Scene
    requires who in s.live
  {
    var inside := s.live[who].inside;
    s.(live := s.live - {who}, lost := if inside.Some? then s.lost + [inside.value] else s.lost)
  }

  function Apply(body: Program, s: Scene, m: Move): Scene
    requires Enabled(body, s, m)
  {
    match m
    case Start(w) => s.(live := s.live[w := Attempt([], None)])
    case Look(w) =>
      var name := body(s.live[w].given).value;
      if name in s.table then Give(s, w, name, Loads(s.table[name]))
      else
        s.(calls := s.calls + [name],
           clashes := if Busy(s, name) then s.clashes + [name] else s.clashes,
           live := s.live[w := s.live[w].(inside := Some(name))])
    case Finish(w, fn) =>
      var name := s.live[w].inside.value;
      (match Committed(s.table, name, fn)
       case Err(_) => Leave(s, w)
       case Ok(c) =>
         Give(s, w, name, c.answer).(
           table := c.table,
           kept := if name in s.table then s.kept else s.kept + [Kept(name, fn.value)],
           conflicts := if c.table[name] != Dumps(fn.value).value then s.conflicts + [name] else s.conflicts))
    case End(w) => Leave(s, w)
  }

  /** An interleaving of the attempts' moves, and the scenes passed. */
  ghost predicate IsPlay(body: Program, moves: seq<Move>, scenes: seq<Scene>) {
    && |scenes| == |moves| + 1 && scenes[0] == EMPTY
    && forall i :: 0 <= i < |moves| ==> Enabled(body, scenes[i], moves[i]) && scenes[i + 1] == Apply(body, scenes[i], moves[i])
  }

  /** Some live attempt has run its body to the end. */
  predicate Done(body: Program, s: Scene, who: nat) {
    who in s.live && s.live[who].inside.None? && body(s.live[who].given).None?
  }

  // --- what the answers are worth -------------------------------------------------------

  ghost predicate OnRecord(t: Table, k: Kept) {
    k.name in t && k.value == Loads(t[k.name])
  }

  /** Every answer an attempt was given is the recorded one. */
  ghost predicate Honest(s: Scene) {
    forall k :: k in s.answers ==> OnRecord(s.table, k)
  }

  lemma LoadsTellsApart(a: Json, b: Json)
    ensures Loads(a) == Loads(b) ==> a == b
  {
    DumpsOfLoads(a);
    DumpsOfLoads(b);
  }

  lemma RecordsStay(body: Program, s: Scene, m: Move)
    requires Enabled(body, s, m)
    ensures Extends(s.table, Apply(body, s, m).table)
  {
  }

  predicate Extends(t: Table, u: Table) {
    forall n :: n in t ==> n in u && u[n] == t[n]
  }

  /** Which answer a move gives, and whether it is the one on record. */
  lemma AnswerOf(body: Program, s: Scene, m: Move) returns (k: Kept)
    requires Enabled(body, s, m)
    ensures var t := Apply(body, s, m);
      || (t.answers == s.answers && t.conflicts == s.conflicts)
      || (t.answers == s.answers + [k] && k.name in t.table
          && (OnRecord(t.table, k) <==> t.conflicts == s.conflicts)
          && (t.conflicts == s.conflicts || t.conflicts == s.conflicts + [k.name]))
  {
    var t := Apply(body, s, m);
    k := if |t.answers| > |s.answers| then t.answers[|s.answers|] else Kept("", Null);
    if m.Finish? && Committed(s.table, s.live[m.who].inside.value, m.fn).Ok? {
      LoadsTellsApart(t.table[k.name], Dumps(m.fn.value).value);
    }
  }

  /** Every answer given is the record's if and only if no commit found its name recorded
      with another payload. */
  lemma {:induction false} HonestIff(body: Program, moves: seq<Move>, scenes: seq<Scene>, i: nat)
    requires IsPlay(body, moves, scenes) && i <= |moves|
    ensures forall k :: k in scenes[i].answers ==> k.name in scenes[i].table
    ensures Honest(scenes[i]) <==> scenes[i].conflicts == []
  {
    if i > 0 {
      var s, t := scenes[i - 1], scenes[i];
      HonestIff(body, moves, scenes, i - 1);
      RecordsStay(body, s, moves[i - 1]);
      var k := AnswerOf(body, s, moves[i - 1]);
      if t.answers == s.answers + [k] {
        assert forall x :: x in t.answers <==> x in s.answers || x == k;
      }
    }
  }

  // --- how often a function is called ---------------------------------------------------

  /** As long as no call overlapped another of the same step: whoever is inside a call
      is alone in it, and the step has no record. */
  ghost predicate Alone(s: Scene) {
    && (forall w, n :: Inside(s, w, n) ==> n !in s.table)
    && (forall v, w, n :: Inside(s, v, n) && Inside(s, w, n) ==> v == w)
  }

  lemma AloneKept(body: Program, s: Scene, m: Move)
    requires Enabled(body, s, m) && Alone(s) && Apply(body, s, m).clashes == s.clashes
    ensures Alone(Apply(body, s, m)) && Apply(body, s, m).conflicts == s.conflicts
  {
    var t := Apply(body, s, m);
    assert forall w, n :: Inside(t, w, n) && !(m.Look? && w == m.who) ==> Inside(s, w, n);
    assert m.Finish? ==> Inside(s, m.who, s.live[m.who].inside.value);
  }

  /** Calls of one step: recorded, lost, or under way. */
  ghost predicate Accounted(s: Scene, n: string) {
    Times(s.calls, n) == (if n in s.table then 1 else 0) + Times(s.lost, n) + if Busy(s, n) then 1 else 0
  }

  lemma BusyAfter(body: Program, s: Scene, m: Move, n: string)
    requires Enabled(body, s, m) && Alone(s)
    ensures var t := Apply(body, s, m);
      Busy(t, n) <==>
        || (m.Look? && body(s.live[m.who].given) == Some(n) && n !in s.table)
        || (Busy(s, n) && !((m.Finish? || m.End?) && s.live[m.who].inside == Some(n)))
  {
    var t := Apply(body, s, m);
    if Busy(s, n) && !((m.Finish? || m.End?) && s.live[m.who].inside == Some(n)) {
      var w :| w in s.live && s.live[w].inside == Some(n);
      assert w in t.live && t.live[w].inside == Some(n);
    }
    if m.Look? && body(s.live[m.who].given) == Some(n) && n !in s.table {
      assert m.who in t.live && t.live[m.who].inside == Some(n);
    }
    if Busy(t, n) && (m.Finish? || m.End?) && s.live[m.who].inside == Some(n) {
      var w :| w in t.live && t.live[w].inside == Some(n);
      assert Inside(s, w, n) && Inside(s, m.who, n);
    }
  }

  lemma AccountedByLook(body: Program, s: Scene, who: nat, n: string)
    requires Enabled(body, s, Look(who)) && Alone(s) && Accounted(s, n) && Apply(body, s, Look(who)).clashes == s.clashes
    ensures Accounted(Apply(body, s, Look(who)), n)
  {
    BusyAfter(body, s, Look(who), n);
    TimesMore(s.calls, body(s.live[who].given).value, n);
  }

  lemma AccountedByLeave(s: Scene, t: Scene, x: string, n: string)
    requires Accounted(s, n) && t.calls == s.calls && t.table == s.table && t.lost == s.lost + [x]
    requires Busy(s, x) && (Busy(t, n) <==> Busy(s, n) && n != x)
    ensures Accounted(t, n)
  {
    TimesMore(s.lost, x, n);
  }

  lemma AccountedByRecord(s: Scene, t: Scene, x: string, n: string)
    requires Accounted(s, n) && t.calls == s.calls && t.lost == s.lost
    requires x !in s.table && (forall y :: y in t.table <==> y in s.table || y == x)
    requires Busy(s, x) && (Busy(t, n) <==> Busy(s, n) && n != x)
    ensures Accounted(t, n)
  {
  }

  lemma AccountedByEnd(body: Program, s: Scene, m: Move, n: string)
    requires Enabled(body, s, m) && Alone(s) && Accounted(s, n) && (m.Finish? || m.End?)
    ensures Accounted(Apply(body, s, m), n)
  {
    var t := Apply(body, s, m);
    BusyAfter(body, s, m, n);
    if s.live[m.who].inside.Some? {
      var x := s.live[m.who].inside.value;
      assert Inside(s, m.who, x) && Busy(s, x);
      if t.lost == s.lost {
        AccountedByRecord(s, t, x, n);
      } else {
        AccountedByLeave(s, t, x, n);
      }
    }
  }

  lemma AccountedOn(body: Program, s: Scene, m: Move, n: string)
    requires Enabled(body, s, m) && Alone(s) && Accounted(s, n) && Apply(body, s, m).clashes == s.clashes
    ensures Accounted(Apply(body, s, m), n)
  {
    if m.Look? {
      AccountedByLook(body, s, m.who, n);
    } else if m.Start? {
      BusyAfter(body, s, m, n);
    } else {
      AccountedByEnd(body, s, m, n);
    }
  }

  /** Without an overlap of calls every call is accounted for. */
  lemma {:induction false} CallsAreAccounted(body: Program, moves: seq<Move>, scenes: seq<Scene>, i: nat, n: string)
    requires IsPlay(body, moves, scenes) && i <= |moves| && scenes[i].clashes == []
    ensures Alone(scenes[i]) && scenes[i].conflicts == [] && Accounted(scenes[i], n)
  {
    if i > 0 {
      var s := scenes[i - 1];
      assert scenes[i] == Apply(body, s, moves[i - 1]);
      CallsAreAccounted(body, moves, scenes, i - 1, n);
      AloneKept(body, s, moves[i - 1]);
      AccountedOn(body, s, moves[i - 1], n);
    }
  }

  /** A call that began beside another of the same step is at least the second. */
  ghost predicate ClashOk(s: Scene, n: string) {
    && (Busy(s, n) ==> Times(s.calls, n) >= 1)
    && (n in s.clashes ==> Times(s.calls, n) >= 2)
  }

  lemma ClashOn(body: Program, s: Scene, m: Move, n: string)
    requires Enabled(body, s, m) && ClashOk(s, n)
    ensures ClashOk(Apply(body, s, m), n)
  {
    var t := Apply(body, s, m);
    if m.Look? {
      TimesMore(s.calls, body(s.live[m.who].given).value, n);
    }
    if Busy(t, n) && !(m.Look? && body(s.live[m.who].given) == Some(n) && n !in s.table) {
      var w :| w in t.live && t.live[w].inside == Some(n);
      assert w in s.live && s.live[w].inside == Some(n);
    }
  }

  lemma {:induction false} ClashesAreCounted(body: Program, moves: seq<Move>, scenes: seq<Scene>, i: nat, n: string)
    requires IsPlay(body, moves, scenes) && i <= |moves|
    ensures ClashOk(scenes[i], n)
  {
    if i > 0 {
      ClashesAreCounted(body, moves, scenes, i - 1, n);
      ClashOn(body, scenes[i - 1], moves[i - 1], n);
    }
  }

  // --- one uninterrupted run ------------------------------------------------------------

  /** An uninterrupted run with the same records that has been as far as any attempt. */
  ghost predicate Shadows(body: Program, s: Scene, z: Life) {
    && z.running && z.table == s.table && z.kept == s.kept && z.lost == [] && Follows(body, z.table, z.given)
    && (forall w :: w in s.live ==> s.live[w].given <= z.given)
    && (forall w, n :: Inside(s, w, n) ==> body(s.live[w].given) == Some(n))
    && (forall n :: n in s.lost ==> n in s.table || body(z.given) == Some(n))
  }

  /** An attempt that asks for an unrecorded step is as far as the run. */
  lemma AtTheFront(body: Program, s: Scene, z: Life, who: nat)
    requires Shadows(body, s, z) && who in s.live
    ensures |s.live[who].given| < |z.given| ==>
      Answered(body, z.table, s.live[who].given, z.given[|s.live[who].given|])
    ensures body(s.live[who].given).Some? && body(s.live[who].given).value !in s.table ==> s.live[who].given == z.given
  {
    var given := s.live[who].given;
    if |given| < |z.given| {
      assert z.given[..|given|] == given;
      assert Answered(body, z.table, z.given[..|given|], z.given[|given|]);
    }
  }

  /** A move that neither records nor gives an answer. */
  lemma ShadowIdle(body: Program, s: Scene, z: Life, m: Move)
    requires Enabled(body, s, m) && Shadows(body, s, z)
    requires Apply(body, s, m).answers == s.answers
    ensures Shadows(body, Apply(body, s, m), z)
  {
    var t := Apply(body, s, m);
    if !m.Start? {
      AtTheFront(body, s, z, m.who);
      assert s.live[m.who].inside.Some? ==> Inside(s, m.who, s.live[m.who].inside.value);
    }
    assert forall w, n :: Inside(t, w, n) && !(m.Look? && w == m.who) ==> Inside(s, w, n);
  }

  /** What a move without a conflict gives is the record. */
  lemma GivesTheRecord(body: Program, s: Scene, m: Move)
    requires Enabled(body, s, m) && Apply(body, s, m).answers != s.answers && Apply(body, s, m).conflicts == s.conflicts
    requires m.Finish? ==> body(s.live[m.who].given) == s.live[m.who].inside
    ensures var t := Apply(body, s, m);
      var given := s.live[m.who].given;
      && body(given).Some? && body(given).value in t.table
      && t.live == s.live[m.who := Attempt(given + [Loads(t.table[body(given).value])], None)]
      && t.lost == s.lost
  {
  }

  /** A move that gives an answer to an attempt the run is ahead of. */
  lemma ShadowBehind(body: Program, s: Scene, z: Life, m: Move)
    requires Enabled(body, s, m) && Shadows(body, s, z)
    requires Apply(body, s, m).answers != s.answers && Apply(body, s, m).conflicts == s.conflicts
    requires |s.live[m.who].given| < |z.given|
    ensures Shadows(body, Apply(body, s, m), z)
  {
    var t := Apply(body, s, m);
    var given := s.live[m.who].given;
    AtTheFront(body, s, z, m.who);
    assert m.Finish? ==> Inside(s, m.who, s.live[m.who].inside.value);
    GivesTheRecord(body, s, m);
    assert z.given[..|given|] == given && z.given[..|given| + 1] == given + [z.given[|given|]];
    assert forall w, n :: Inside(t, w, n) ==> Inside(s, w, n);
  }

  /** The same step of the run. */
  function EventOf(m: Move): Event {
    Advance(if m.Finish? then m.fn else Throws)
  }

  /** The run takes the step of an attempt that is as far as it. */
  lemma RunAdvances(body: Program, s: Scene, z: Life, m: Move)
    requires Enabled(body, s, m) && z.running && z.table == s.table && z.kept == s.kept && z.lost == []
    requires Apply(body, s, m).answers != s.answers && Apply(body, s, m).conflicts == s.conflicts
    requires s.live[m.who].given == z.given && (m.Finish? ==> body(z.given) == s.live[m.who].inside)
    ensures var t, y := Apply(body, s, m), Happen(body, z, EventOf(m));
      && y.running && y.table == t.table && y.kept == t.kept && y.lost == []
      && body(z.given).Some? && body(z.given).value in t.table
      && y.given == z.given + [Loads(t.table[body(z.given).value])]
  {
  }

  lemma ShadowFront(body: Program, s: Scene, z: Life, m: Move)
    requires Enabled(body, s, m) && Shadows(body, s, z)
    requires Apply(body, s, m).answers != s.answers && Apply(body, s, m).conflicts == s.conflicts
    requires |s.live[m.who].given| >= |z.given|
    ensures Shadows(body, Apply(body, s, m), Happen(body, z, EventOf(m)))
  {
    var t, y := Apply(body, s, m), Happen(body, z, EventOf(m));
    assert s.live[m.who].given == z.given;
    assert m.Finish? ==> Inside(s, m.who, s.live[m.who].inside.value);
    GivesTheRecord(body, s, m);
    RunAdvances(body, s, z, m);
    FurtherOn(body, z, EventOf(m));
    assert forall w, n :: Inside(t, w, n) ==> Inside(s, w, n);
  }

  lemma LifeSnoc(body: Program, events: seq<Event>, e: Event)
    ensures LifeOf(body, events + [e]) == Happen(body, LifeOf(body, events), e)
  {
    assert (events + [e])[..|events|] == events;
  }

  lemma ShadowOn(body: Program, s: Scene, before: seq<Event>, m: Move) returns (whole: seq<Event>)
    requires Enabled(body, s, m) && Uninterrupted(before) && Shadows(body, s, LifeOf(body, before))
    requires Apply(body, s, m).conflicts == s.conflicts
    ensures Uninterrupted(whole) && Shadows(body, Apply(body, s, m), LifeOf(body, whole))
  {
    var z := LifeOf(body, before);
    if Apply(body, s, m).answers == s.answers {
      ShadowIdle(body, s, z, m);
      whole := before;
    } else if |s.live[m.who].given| < |z.given| {
      ShadowBehind(body, s, z, m);
      whole := before;
    } else {
      ShadowFront(body, s, z, m);
      LifeSnoc(body, before, EventOf(m));
      whole := before + [EventOf(m)];
    }
  }

  lemma ConflictsOnlyGrow(body: Program, s: Scene, m: Move)
    requires Enabled(body, s, m)
    ensures s.conflicts <= Apply(body, s, m).conflicts && s.clashes <= Apply(body, s, m).clashes
  {
  }

  /** Over any interleaving without a conflict there is one uninterrupted run with the
      same records that has been as far as every attempt. */
  lemma {:induction false} ShadowOfPlay(body: Program, moves: seq<Move>, scenes: seq<Scene>, i: nat) returns (whole: seq<Event>)
    requires IsPlay(body, moves, scenes) && i <= |moves| && scenes[i].conflicts == []
    ensures Uninterrupted(whole) && Shadows(body, scenes[i], LifeOf(body, whole))
  {
    if i == 0 {
      whole := [Restart];
      assert whole[..0] == [];
      assert LifeOf(body, whole) == Happen(body, LifeOf(body, []), Restart);
    } else {
      assert scenes[i] == Apply(body, scenes[i - 1], moves[i - 1]);
      ConflictsOnlyGrow(body, scenes[i - 1], moves[i - 1]);
      var before := ShadowOfPlay(body, moves, scenes, i - 1);
      whole := ShadowOn(body, scenes[i - 1], before, moves[i - 1]);
    }
  }

  // --- the results ----------------------------------------------------------------------

  /** However attempts overlap: without a conflict an attempt that has run its body to
      the end was given what one uninterrupted run with the same kept answers gives it,
      and no lost answer is missing from the records. */
  lemma DoneAsUninterrupted(body: Program, moves: seq<Move>, scenes: seq<Scene>, i: nat, who: nat) returns (whole: seq<Event>)
    requires IsPlay(body, moves, scenes) && i <= |moves| && scenes[i].conflicts == [] && Done(body, scenes[i], who)
    ensures Uninterrupted(whole) && Finished(body, LifeOf(body, whole))
    ensures var s, z := scenes[i], LifeOf(body, whole);
      z.given == s.live[who].given && z.table == s.table && z.kept == s.kept
    ensures forall n :: n in scenes[i].lost ==> n in scenes[i].table
  {
    whole := ShadowOfPlay(body, moves, scenes, i);
    var s, z := scenes[i], LifeOf(body, whole);
    AtTheFront(body, s, z, who);
    assert s.live[who].given == z.given;
  }

  lemma RecordedIsFree(s: Scene, n: string)
    requires Alone(s) && n in s.table
    ensures !Busy(s, n)
  {
    forall w | w in s.live
      ensures s.live[w].inside != Some(n)
    {
      assert !Inside(s, w, n);
    }
  }

  lemma OnceWithoutClash(body: Program, moves: seq<Move>, scenes: seq<Scene>, i: nat, n: string)
    requires IsPlay(body, moves, scenes) && i <= |moves| && scenes[i].clashes == [] && scenes[i].lost == []
    requires n in scenes[i].calls
    ensures Times(scenes[i].calls, n) == 1
  {
    CallsAreAccounted(body, moves, scenes, i, n);
    TimesMeansIn(scenes[i].calls, n);
    if n in scenes[i].table {
      RecordedIsFree(scenes[i], n);
    }
  }

  /** Once some attempt has run the body to its end: each function called was called
      exactly once if and only if no answer was lost and no call of a step began while
      another attempt was inside a call of it. */
  lemma OnceIff(body: Program, moves: seq<Move>, scenes: seq<Scene>, i: nat, who: nat)
    requires IsPlay(body, moves, scenes) && i <= |moves| && Done(body, scenes[i], who)
    ensures var s := scenes[i];
      (forall n :: n in s.calls ==> Times(s.calls, n) == 1) <==> s.lost == [] && s.clashes == []
  {
    var s := scenes[i];
    if s.clashes != [] {
      var n := s.clashes[0];
      ClashesAreCounted(body, moves, scenes, i, n);
      TimesMeansIn(s.calls, n);
    } else if s.lost != [] {
      var n := s.lost[0];
      CallsAreAccounted(body, moves, scenes, i, n);
      var whole := DoneAsUninterrupted(body, moves, scenes, i, who);
      TimesMeansIn(s.lost, n);
      TimesMeansIn(s.calls, n);
    } else {
      forall n | n in s.calls
        ensures Times(s.calls, n) == 1
      {
        OnceWithoutClash(body, moves, scenes, i, n);
      }
    }
  }

  // --- two attempts at once -------------------------------------------------------------

  /** A body of one step. */
  function Fetch(given: seq<Value>): Option<string> {
    if given == [] then Some("fetch") else None
  }

  const BOTH := [Start(1), Start(2), Look(1), Look(2), Finish(1, Returns(Num(1))), Finish(2, Returns(Num(2)))]

  const FRESH := Attempt([], None)
  const CALLING := Attempt([], Some("fetch"))
  const STARTED := EMPTY.(live := map[1 := FRESH, 2 := FRESH])
  const ONE_INSIDE := STARTED.(calls := ["fetch"], live := map[1 := CALLING, 2 := FRESH])
  const BOTH_INSIDE := STARTED.(calls := ["fetch", "fetch"], clashes := ["fetch"], live := map[1 := CALLING, 2 := CALLING])
  const ONE_DONE := BOTH_INSIDE.(
    table := map["fetch" := JNum(1)], answers := [Kept("fetch", Num(1))], kept := [Kept("fetch", Num(1))],
    live := map[1 := Attempt([Num(1)], None), 2 := CALLING])
  const BOTH_DONE := ONE_DONE.(
    answers := [Kept("fetch", Num(1)), Kept("fetch", Num(2))], conflicts := ["fetch"],
    live := map[1 := Attempt([Num(1)], None), 2 := Attempt([Num(2)], None)])

  lemma BothLook()
    ensures Enabled(Fetch, STARTED, Look(1)) && Apply(Fetch, STARTED, Look(1)) == ONE_INSIDE
    ensures Enabled(Fetch, ONE_INSIDE, Look(2)) && Apply(Fetch, ONE_INSIDE, Look(2)) == BOTH_INSIDE
  {
    assert ONE_INSIDE.live[1].inside == Some("fetch") && Busy(ONE_INSIDE, "fetch");
  }

  lemma FirstCommits()
    ensures Enabled(Fetch, BOTH_INSIDE, BOTH[4]) && Apply(Fetch, BOTH_INSIDE, BOTH[4]) == ONE_DONE
  {
    var t := Apply(Fetch, BOTH_INSIDE, Finish(1, Returns(Num(1))));
    assert t.live[1].given == [Num(1)];
    assert t.table == ONE_DONE.table && t.live == ONE_DONE.live && t.answers == ONE_DONE.answers;
  }

  lemma SecondCommits()
    ensures Enabled(Fetch, ONE_DONE, BOTH[5]) && Apply(Fetch, ONE_DONE, BOTH[5]) == BOTH_DONE
  {
    var t := Apply(Fetch, ONE_DONE, Finish(2, Returns(Num(2))));
    assert t.live[2].given == [Num(2)];
    assert t.live == BOTH_DONE.live && t.answers == BOTH_DONE.answers;
  }

  /** An orphan and its retry look before either records: the function is called twice,
      no answer is lost, and the second caller goes on with an answer that is not the
      record's. */
  lemma TwoAttemptsCallTwice() returns (scenes: seq<Scene>)
    ensures IsPlay(Fetch, BOTH, scenes)
    ensures var s := scenes[6];
      && s.calls == ["fetch", "fetch"] && s.lost == [] && s.clashes == ["fetch"] && s.conflicts == ["fetch"]
      && Done(Fetch, s, 1) && Done(Fetch, s, 2)
      && s.table == map["fetch" := JNum(1)] && s.live[2].given == [Num(2)]
  {
    BothLook();
    FirstCommits();
    SecondCommits();
    scenes := [EMPTY, EMPTY.(live := map[1 := FRESH]), STARTED, ONE_INSIDE, BOTH_INSIDE, ONE_DONE, BOTH_DONE];
  }
}
