/**
 * A run of shared reads (src/stream_share.rs, `joined`) in which a departure falls
 * behind its read and is behind the next one it joins: the one it picked goes on
 * past its place before it joins it.
 */
module BehindAgain {
  import opened Wrappers
  import opened StreamShare

  const TWO_CHUNKS := Stored([[0], [1]], 2)

  lemma {:induction false} Onward(steps: seq<Step>, s: State, step: Step, t: State) returns (steps': seq<Step>)
    requires Run(Initial(TWO_CHUNKS), steps) == Some(s) && Next(s, step) == Some(t)
    ensures steps' == steps + [step] && Run(Initial(TWO_CHUNKS), steps') == Some(t)
  {
    steps' := steps + [step];
    assert steps'[..|steps|] == steps;
  }

  /** A read one departure took nothing from yet; its first chunk read, and taken; and the second, the first let go of. */
  function Untouched(id: nat, number: nat): OneRead {
    OneRead(id, 0, 0, 0, [], false, false, map[number := 0])
  }

  function OneStep(id: nat, number: nat): OneRead {
    OneRead(id, 1, 1, 0, [[0]], false, false, map[number := 0])
  }

  function Taken(id: nat, number: nat): OneRead {
    OneRead(id, 1, 1, 0, [[0]], false, false, map[number := 1])
  }

  function GoneOn(id: nat, number: nat): OneRead {
    OneRead(id, 2, 2, 1, [[1]], false, false, map[number := 1])
  }

  function Ahead(id: nat, number: nat): OneRead {
    OneRead(id, 2, 2, 1, [[1]], false, false, map[number := 2])
  }

  /** A departure before its first take, in it, after it, its chunk given, in its second, and after that. */
  function Starts(id: nat): Lent {
    Lent(id, 0, 0, [], 0, [], false)
  }

  function Starting(id: nat): Lent {
    Lent(id, 0, 0, [], 0, [], true)
  }

  function Held(id: nat): Lent {
    Lent(id, 1, 1, [0], 0, [], false)
  }

  function Given(id: nat): Lent {
    Lent(id, 1, 1, [0], 1, [0], false)
  }

  function WentOn(id: nat): Lent {
    Lent(id, 1, 1, [0], 1, [0], true)
  }

  function TookOn(id: nat): Lent {
    Lent(id, 2, 2, [1], 0, [0], false)
  }

  /** The state with departure `number` as `lent` on the read at `at`, that read as `read`. */
  function Holding(s: State, number: nat, at: nat, read: OneRead, lent: Lent): State
    requires at < |s.list|
  {
    s.(list := s.list[at := read], lents := s.lents[number := lent])
  }

  lemma {:induction false} IndexStays(list: seq<OneRead>, at: nat, read: OneRead)
    requires Index(list, read.id) == at < |list|
    ensures Index(list[at := read], read.id) == at
  {
    assert list[at := read][at].id == read.id;
    assert forall k :: 0 <= k < at ==> list[at := read][k] == list[k];
  }

  lemma {:induction false} LooksOn(
      s: State, number: nat, at: nat, lent: Lent, read: OneRead, after: OneRead, saw: Saw, lent': Lent)
    requires Index(s.list, read.id) == at < |s.list| && lent.read == read.id == after.id && lent.taking
    requires Looked(s.stored, read, number, lent.place, true) == (after, saw) && lent' == Took(lent, saw)
    ensures Next(Holding(s, number, at, read, lent), Look(number, true)) == Some(Holding(s, number, at, after, lent'))
  {
    hide Looked;
    IndexStays(s.list, at, read);
    assert s.list[at := read][at := after] == s.list[at := after];
    assert s.lents[number := lent][number := lent'] == s.lents[number := lent'];
  }

  lemma {:induction false} GivesAll(s: State, number: nat, at: nat, read: OneRead, lent: Lent, lent': Lent)
    requires at < |s.list| && lent.given == 0 < |lent.held| && lent' == Gave(lent, |lent.held|)
    ensures Next(Holding(s, number, at, read, lent), Give(number, |lent.held|)) == Some(Holding(s, number, at, read, lent'))
  {
    assert s.lents[number := lent][number := lent'] == s.lents[number := lent'];
  }

  /** A departure no read draws begins its take on the read it has. */
  lemma {:induction false} BeginsOn(s: State, number: nat, at: nat, read: OneRead, lent: Lent, busy: set<nat>)
    requires s.joining.None? && at < |s.list| && !lent.taking && lent.given == |lent.held|
    requires MovedTo(s.list[at := read], lent.read, number, lent.place, busy) == None
    ensures Next(Holding(s, number, at, read, lent), Move(number, busy))
         == Some(Holding(s, number, at, read, lent.(taking := true)))
  {
    hide MovedTo;
    var after := lent.(taking := true);
    assert s.lents[number := lent][number := after] == s.lents[number := after];
  }

  /** A departure takes its first chunk, gives it and begins its next take, where no other read draws it. */
  lemma {:induction false} TakesFirst(steps: seq<Step>, s: State, number: nat, at: nat, id: nat, busy: set<nat>) returns (steps': seq<Step>)
    requires Run(Initial(TWO_CHUNKS), steps) == Some(s) && s.stored == TWO_CHUNKS && s.joining.None?
    requires number in s.lents && s.lents[number] == Starts(id)
    requires Index(s.list, id) == at < |s.list| && s.list[at] == Untouched(id, number)
    requires MovedTo(s.list, id, number, 0, {}) == None
    requires MovedTo(s.list[at := Taken(id, number)], id, number, 1, busy) == None
    ensures steps <= steps'
    ensures Run(Initial(TWO_CHUNKS), steps') == Some(Holding(s, number, at, Taken(id, number), WentOn(id)))
  {
    hide MovedTo, Run;
    var none, first, taken := Untouched(id, number), OneStep(id, number), Taken(id, number);
    ChunkByChunk(id, number);
    assert s.list[at := none] == s.list && s.lents[number := Starts(id)] == s.lents;
    BeginsOn(s, number, at, none, Starts(id), {});
    LooksOn(s, number, at, Starting(id), none, first, ReadOn, Starting(id));
    LooksOn(s, number, at, Starting(id), first, taken, SawChunk([0]), Held(id));
    GivesAll(s, number, at, taken, Held(id), Given(id));
    BeginsOn(s, number, at, taken, Given(id), busy);
    assert Holding(s, number, at, none, Starts(id)) == s;
    hide Next, Looked, Holding;
    steps' := Onward(steps, s, Move(number, {}), Holding(s, number, at, none, Starting(id)));
    steps' := Onward(steps', Holding(s, number, at, none, Starting(id)), Look(number, true),
                     Holding(s, number, at, first, Starting(id)));
    steps' := Onward(steps', Holding(s, number, at, first, Starting(id)), Look(number, true), Holding(s, number, at, taken, Held(id)));
    steps' := Onward(steps', Holding(s, number, at, taken, Held(id)), Give(number, 1), Holding(s, number, at, taken, Given(id)));
    steps' := Onward(steps', Holding(s, number, at, taken, Given(id)), Move(number, busy), Holding(s, number, at, taken, WentOn(id)));
  }

  /** In its second take, alone on its read, it takes the next chunk: the first is let go of. */
  lemma {:induction false} GoesPast(steps: seq<Step>, s: State, number: nat, at: nat, id: nat) returns (steps': seq<Step>)
    requires Run(Initial(TWO_CHUNKS), steps) == Some(s) && s.stored == TWO_CHUNKS
    requires number in s.lents && s.lents[number] == WentOn(id)
    requires Index(s.list, id) == at < |s.list| && s.list[at] == Taken(id, number)
    ensures steps <= steps'
    ensures Run(Initial(TWO_CHUNKS), steps') == Some(Holding(s, number, at, Ahead(id, number), TookOn(id)))
  {
    hide Run;
    var taken, on, ahead := Taken(id, number), GoneOn(id, number), Ahead(id, number);
    ChunkByChunk(id, number);
    LooksOn(s, number, at, WentOn(id), taken, on, ReadOn, WentOn(id));
    LooksOn(s, number, at, WentOn(id), on, ahead, SawChunk([1]), TookOn(id));
    assert s.list[at := taken] == s.list && s.lents[number := WentOn(id)] == s.lents;
    assert Holding(s, number, at, taken, WentOn(id)) == s;
    hide Next, Looked, Holding;
    steps' := Onward(steps, s, Look(number, true), Holding(s, number, at, on, WentOn(id)));
    steps' := Onward(steps', Holding(s, number, at, on, WentOn(id)), Look(number, true), Holding(s, number, at, ahead, TookOn(id)));
  }

  lemma {:induction false} ChunkByChunk(id: nat, number: nat)
    ensures Looked(TWO_CHUNKS, Untouched(id, number), number, 0, true) == (OneStep(id, number), ReadOn)
    ensures Looked(TWO_CHUNKS, OneStep(id, number), number, 0, true) == (Taken(id, number), SawChunk([0]))
    ensures Looked(TWO_CHUNKS, Taken(id, number), number, 1, true) == (GoneOn(id, number), ReadOn)
    ensures Looked(TWO_CHUNKS, GoneOn(id, number), number, 1, true) == (Ahead(id, number), SawChunk([1]))
    ensures Took(Starting(id), SawChunk([0])) == Held(id) && Took(WentOn(id), SawChunk([1])) == TookOn(id)
    ensures Gave(Held(id), 1) == Given(id)
  {
    var one, two: seq<Chunk> := Untouched(id, number).window + [TWO_CHUNKS.chunks[0]], [[0], [1]];
    assert one == [[0]] && Taken(id, number).window + [TWO_CHUNKS.chunks[1]] == two && two[1..] == [[1]];
    assert map[number := 0][number := 1] == map[number := 1] && map[number := 1][number := 2] == map[number := 2];
  }

  /** Departure 0 is ahead, and departure 1 joined its read with the first chunk let go of. */
  const BEHIND_ONCE := State(
    TWO_CHUNKS, [Ahead(0, 0).(readers := map[0 := 2, 1 := 0])], 2, 2, map[0 := TookOn(0), 1 := Starts(0)], None)

  /** Departure 1 takes; and departure 2 opened a read from the Stream's start. */
  const OPENED_ANEW := State(
    TWO_CHUNKS, BEHIND_ONCE.list + [Untouched(2, 2)], 3, 3, map[0 := TookOn(0), 1 := Starting(0), 2 := Starts(2)], None)

  /** Departure 1 left its read, and picked that one. */
  const PICKED_ANEW := State(
    TWO_CHUNKS, [Ahead(0, 0), Taken(2, 2)], 3, 3, map[0 := TookOn(0), 2 := WentOn(2)],
    Some(Joining(1, Starting(0), [Seen(1, false), Seen(1, true)])))

  lemma {:induction false} FirstOpened() returns (steps: seq<Step>, s: State)
    ensures Run(Initial(TWO_CHUNKS), steps) == Some(s)
    ensures s == State(TWO_CHUNKS, [Untouched(0, 0)], 1, 1, map[0 := Starts(0)], None)
  {
    steps, s := [], Initial(TWO_CHUNKS);
    assert Run(s, steps) == Some(s);
    hide Run;
    var opening := s.(numbered := 1, joining := Some(Joining(0, Starts(0), [])));
    steps := Onward(steps, s, Open, opening);
    s := State(TWO_CHUNKS, [Untouched(0, 0)], 1, 1, map[0 := Starts(0)], None);
    OpensOne([], 0, 0);
    assert [] + [Untouched(0, 0)] == [Untouched(0, 0)] && opening.lents[0 := Starts(0)] == map[0 := Starts(0)];
    steps := Onward(steps, opening, JoinRead, s);
  }

  lemma {:induction false} OpensOne(list: seq<OneRead>, id: nat, number: nat)
    ensures Joined(list, id, |list|, number, 0, 0) == (list + [Untouched(id, number)], id)
  {
    assert Opened(id, 0, 0).readers[number := 0] == map[number := 0];
  }

  lemma {:induction false} BehindOnce() returns (steps: seq<Step>)
    ensures Run(Initial(TWO_CHUNKS), steps) == Some(BEHIND_ONCE)
  {
    var first;
    steps, first := FirstOpened();
    hide Run;
    steps := TakesFirst(steps, first, 0, 0, 0, {});
    var s := Holding(first, 0, 0, Taken(0, 0), WentOn(0));
    assert s.list == [Taken(0, 0)] && s.lents == map[0 := WentOn(0)];
    var opening := s.(numbered := 2, joining := Some(Joining(1, Starts(0), [])));
    var picked := opening.(joining := Some(Joining(1, Starts(0), [Seen(1, true)])));
    OpensNext(s, opening);
    Alone();
    ConsidersNext(opening, picked, Seen(1, true));
    steps := Onward(steps, s, Open, opening);
    steps := Onward(steps, opening, Consider, picked);
    steps := GoesPast(steps, picked, 0, 0, 0);
    var past := Holding(picked, 0, 0, Ahead(0, 0), TookOn(0));
    assert past.list == [Ahead(0, 0)] && past.lents == map[0 := TookOn(0)];
    JoinsPicked(past, 0, BEHIND_ONCE);
    steps := Onward(steps, past, JoinRead, BEHIND_ONCE);
  }

  lemma {:induction false} Alone()
    ensures |Taken(0, 0).readers| == |Taken(2, 2).readers| == |Ahead(0, 0).readers| == |Untouched(2, 2).readers| == 1
    ensures |BEHIND_ONCE.list[0].readers| == 2
  {
    assert Taken(0, 0).readers.Keys == {0} && Ahead(0, 0).readers.Keys == {0};
    assert Taken(2, 2).readers.Keys == {2} && Untouched(2, 2).readers.Keys == {2};
    assert BEHIND_ONCE.list[0].readers.Keys == {0, 1};
  }

  lemma {:induction false} OpensNext(s: State, t: State)
    requires s.joining.None?
    requires t == s.(numbered := s.numbered + 1, joining := Some(Joining(s.numbered, Starts(0), [])))
    ensures Next(s, Open) == Some(t)
  {
  }

  lemma {:induction false} ConsidersNext(s: State, t: State, seen: Seen)
    requires s.joining.Some? && |s.joining.value.seen| < |s.list|
    requires var read := s.list[|s.joining.value.seen|];
      seen == Seen(|read.readers|, Reaches(read, s.joining.value.lent.place))
    requires t.joining.Some? && t.joining.value.seen == s.joining.value.seen + [seen]
    requires t == s.(joining := Some(s.joining.value.(seen := t.joining.value.seen)))
    ensures Next(s, Consider) == Some(t)
  {
  }

  lemma {:induction false} JoinsPicked(s: State, best: nat, t: State)
    requires s.joining.Some? && |s.joining.value.seen| == |s.list| && Pick(s.joining.value.seen) == best < |s.list|
    requires var j := s.joining.value;
      && t.list == s.list[best := Join(s.list[best], j.number, j.lent.place)]
      && t.lents == s.lents[j.number := j.lent.(read := s.list[best].id)]
      && t == s.(list := t.list, lents := t.lents, minted := s.minted + 1, joining := None)
    ensures Next(s, JoinRead) == Some(t)
  {
  }

  lemma {:induction false} OpenedAnew() returns (steps: seq<Step>)
    ensures Run(Initial(TWO_CHUNKS), steps) == Some(OPENED_ANEW)
  {
    steps := BehindOnce();
    hide Run;
    var s := BEHIND_ONCE.(lents := map[0 := TookOn(0), 1 := Starting(0)]);
    BeginsOn(BEHIND_ONCE, 1, 0, BEHIND_ONCE.list[0], Starts(0), {});
    assert Holding(BEHIND_ONCE, 1, 0, BEHIND_ONCE.list[0], Starts(0)) == BEHIND_ONCE;
    assert Holding(BEHIND_ONCE, 1, 0, BEHIND_ONCE.list[0], Starting(0)) == s;
    steps := Onward(steps, BEHIND_ONCE, Move(1, {}), s);
    var opening := s.(numbered := 3, joining := Some(Joining(2, Starts(0), [])));
    var looked := opening.(joining := Some(Joining(2, Starts(0), [Seen(2, false)])));
    OpensNext(s, opening);
    Alone();
    ConsidersNext(opening, looked, Seen(2, false));
    OpensOne(s.list, 2, 2);
    steps := Onward(steps, s, Open, opening);
    steps := Onward(steps, opening, Consider, looked);
    assert looked.lents[2 := Starts(2)] == OPENED_ANEW.lents;
    steps := Onward(steps, looked, JoinRead, OPENED_ANEW);
  }

  /** Neither its own read nor the one its place is behind draws departure 2; nor that one while another takes from it. */
  lemma {:induction false} NoneDraws()
    ensures Index(OPENED_ANEW.list, 2) == 1
    ensures MovedTo(OPENED_ANEW.list, 2, 2, 0, {}) == None
    ensures MovedTo(OPENED_ANEW.list[1 := Taken(2, 2)], 2, 2, 1, {0}) == None
  {
    var list, list' := OPENED_ANEW.list, OPENED_ANEW.list[1 := Taken(2, 2)];
    assert Index(list, 2) == 1 && Index(list', 2) == 1;
    assert !Draws(list, 1, 0, {}, 0) && !Draws(list, 1, 0, {}, 1);
    assert !Draws(list', 1, 1, {0}, 0) && !Draws(list', 1, 1, {0}, 1);
    assert Drawn(list, 1, 0, {}, 0) == 2 && Drawn(list', 1, 1, {0}, 0) == 2;
  }

  lemma {:induction false} PickedAnew() returns (steps: seq<Step>)
    ensures Run(Initial(TWO_CHUNKS), steps) == Some(PICKED_ANEW) && FallBehind(1) in steps
  {
    steps := OpenedAnew();
    hide Run;
    NoneDraws();
    steps := TakesFirst(steps, OPENED_ANEW, 2, 1, 2, {0});
    var s := Holding(OPENED_ANEW, 2, 1, Taken(2, 2), WentOn(2));
    var left := PICKED_ANEW.(joining := Some(Joining(1, Starting(0), [])));
    var past := PICKED_ANEW.(joining := Some(Joining(1, Starting(0), [Seen(1, false)])));
    LeavesBehind(s, left);
    Alone();
    ConsidersNext(left, past, Seen(1, false));
    ConsidersNext(past, PICKED_ANEW, Seen(1, true));
    steps := Onward(steps, s, FallBehind(1), left);
    steps := Onward(steps, left, Consider, past);
    steps := Onward(steps, past, Consider, PICKED_ANEW);
  }

  lemma {:induction false} LeavesBehind(s: State, t: State)
    requires s == Holding(OPENED_ANEW, 2, 1, Taken(2, 2), WentOn(2))
    requires t == PICKED_ANEW.(joining := Some(Joining(1, Starting(0), [])))
    ensures Next(s, FallBehind(1)) == Some(t)
  {
    assert Index(s.list, 0) == 0 && s.lents[1] == Starting(0);
    assert s.list[0].readers - {1} == map[0 := 2] && 0 in map[0 := 2];
    assert s.list[0 := Ahead(0, 0)] == t.list && s.lents - {1} == t.lents;
    assert Leave(s.list, 0, 1) == t.list;
  }

  /**
   * A departure fallen behind its read may be behind the next one too: the read it
   * picks goes on past its place, by a take begun before, before it joins it.
   */
  lemma {:induction false} MayBeBehindAgain() returns (steps: seq<Step>, s: State)
    ensures Run(Initial(TWO_CHUNKS), steps) == Some(s)
    ensures FallBehind(1) in steps && Sees(s, 1, true) == Some(SawBehind)
  {
    steps := PickedAnew();
    hide Run;
    steps := GoesPast(steps, PICKED_ANEW, 2, 1, 2);
    var past := Holding(PICKED_ANEW, 2, 1, Ahead(2, 2), TookOn(2));
    var joined := Join(Ahead(2, 2), 1, 0);
    s := State(TWO_CHUNKS, [Ahead(0, 0), joined], 4, 3, map[0 := TookOn(0), 2 := TookOn(2), 1 := Starting(2)], None);
    assert past.list == [Ahead(0, 0), Ahead(2, 2)] && past.list[1 := joined] == s.list;
    assert past.lents[1 := Starting(2)] == s.lents;
    PickedSecond();
    JoinsPicked(past, 1, s);
    steps := Onward(steps, past, JoinRead, s);
    BehindSeen(s, 1, 1, true);
  }

  lemma {:induction false} PickedSecond()
    ensures Pick([Seen(1, false), Seen(1, true)]) == 1
  {
    assert [Seen(1, false), Seen(1, true)][..1] == [Seen(1, false)];
  }
}
