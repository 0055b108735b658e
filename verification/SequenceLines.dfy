/**
 * A line of members in queues (src/sequence.rs): each takes all its places in one
 * write, holds them until it leaves, and goes on once it heads every queue it is in.
 */
module SequenceLines {
  import opened Wrappers
  import Q = Sequence

  datatype Block = Block(start: nat, queues: seq<nat>)

  /** Every place taken in the order written, those let go of, and which member took which. */
  datatype Line = Line(taken: seq<Q.Place>, gone: set<nat>, blocks: map<nat, Block>, live: set<nat>)

  const Empty: Line := Line([], {}, map[], {})

  function Places(queues: seq<nat>, member: nat): seq<Q.Place> {
    seq(|queues|, i requires 0 <= i < |queues| => Q.Place(queues[i], member))
  }

  function Enter(line: Line, member: nat, queues: seq<nat>): Line {
    Line(line.taken + Places(queues, member), line.gone,
         line.blocks[member := Block(|line.taken|, queues)], line.live + {member})
  }

  /** Where `member`'s places are. */
  function PlacesOf(line: Line, member: nat): set<nat> {
    set i: nat | i < |line.taken| && line.taken[i].member == member
  }

  function Leave(line: Line, member: nat): Line
    requires member in line.blocks
  {
    line.(gone := line.gone + PlacesOf(line, member), live := line.live - {member})
  }

  /** Whether `member` heads every queue it took a place in. */
  predicate HeadsAll(line: Line, member: nat)
    requires member in line.blocks
  {
    forall q :: q in line.blocks[member].queues ==> Q.Answers(Q.PageOf(line.taken, line.gone, q, false), member)
  }

  ghost predicate LineOk(line: Line) {
    && line.live <= line.blocks.Keys
    && (forall m :: m in line.blocks ==> BlockOk(line, m))
    && (forall i :: 0 <= i < |line.taken| ==> OwnerOk(line, i))
  }

  ghost predicate BlockOk(line: Line, m: nat)
    requires m in line.blocks
  {
    var block := line.blocks[m];
    && block.start + |block.queues| <= |line.taken|
    && forall k :: 0 <= k < |block.queues| ==> line.taken[block.start + k] == Q.Place(block.queues[k], m)
  }

  ghost predicate OwnerOk(line: Line, i: nat)
    requires i < |line.taken|
  {
    var m := line.taken[i].member;
    && m in line.blocks && line.blocks[m].start <= i < line.blocks[m].start + |line.blocks[m].queues|
    && (i in line.gone <==> m !in line.live)
  }

  lemma {:induction false} EnterKeeps(line: Line, member: nat, queues: seq<nat>)
    requires LineOk(line) && member !in line.blocks
    requires forall i :: i in line.gone ==> i < |line.taken|
    ensures LineOk(Enter(line, member, queues))
  {
    var t := Enter(line, member, queues);
    forall m | m in t.blocks
      ensures BlockOk(t, m)
    {
      if m != member {
        assert BlockOk(line, m);
      }
    }
    forall i | 0 <= i < |t.taken|
      ensures OwnerOk(t, i)
    {
      if i < |line.taken| {
        assert OwnerOk(line, i);
      }
    }
  }

  lemma {:induction false} LeaveKeeps(line: Line, member: nat)
    requires LineOk(line) && member in line.blocks
    ensures LineOk(Leave(line, member))
  {
    var t := Leave(line, member);
    forall m | m in t.blocks
      ensures BlockOk(t, m)
    {
      assert BlockOk(line, m);
    }
    forall i | 0 <= i < |t.taken|
      ensures OwnerOk(t, i)
    {
      assert OwnerOk(line, i);
    }
  }

  /** A live member heads all its queues exactly where nothing is held in them from before its own write. */
  ghost predicate NothingBefore(line: Line, m: nat)
    requires LineOk(line) && m in line.blocks
  {
    forall i :: 0 <= i < line.blocks[m].start && i < |line.taken| && line.taken[i].queue in line.blocks[m].queues ==> i in line.gone
  }

  lemma {:induction false} HeadsIs(line: Line, m: nat)
    requires LineOk(line) && m in line.live
    ensures HeadsAll(line, m) <==> NothingBefore(line, m)
  {
    var block := line.blocks[m];
    assert BlockOk(line, m);
    forall k | 0 <= k < |block.queues|
      ensures Q.Answers(Q.PageOf(line.taken, line.gone, block.queues[k], false), m) <==>
        forall i :: 0 <= i < block.start && line.taken[i].queue == block.queues[k] ==> i in line.gone
    {
      HeadsOne(line, m, k);
    }
    if HeadsAll(line, m) {
      forall i | 0 <= i < block.start && line.taken[i].queue in block.queues
        ensures i in line.gone
      {
        var k :| 0 <= k < |block.queues| && block.queues[k] == line.taken[i].queue;
        assert Q.Answers(Q.PageOf(line.taken, line.gone, block.queues[k], false), m);
      }
    }
  }

  lemma {:induction false} HeadsOne(line: Line, m: nat, k: nat)
    requires LineOk(line) && m in line.live && k < |line.blocks[m].queues|
    ensures var block := line.blocks[m];
      block.start <= |line.taken| &&
      (Q.Answers(Q.PageOf(line.taken, line.gone, block.queues[k], false), m) <==>
       forall i :: 0 <= i < block.start && line.taken[i].queue == block.queues[k] ==> i in line.gone)
  {
    var block := line.blocks[m];
    assert BlockOk(line, m);
    var held := Q.Held(line.taken, line.gone, block.queues[k]);
    Q.HeldIs(line.taken, line.gone, block.queues[k]);
    var at := block.start + k;
    assert OwnerOk(line, at);
    assert at in held && held[0] in held;
    assert OwnerOk(line, held[0]);
    if held[0] >= block.start {
      assert held[0] <= at;
      assert line.taken[held[0]] == Q.Place(block.queues[held[0] - block.start], m);
    }
  }

  /** A member as early as any heads every queue it is in. */
  lemma {:induction false} EarlyHeads(line: Line, m: nat)
    requires LineOk(line) && m in line.live
    requires forall n :: n in line.live ==> line.blocks[m].start <= line.blocks[n].start
    ensures HeadsAll(line, m)
  {
    forall i | 0 <= i < line.blocks[m].start && i < |line.taken| && line.taken[i].queue in line.blocks[m].queues
      ensures i in line.gone
    {
      assert OwnerOk(line, i);
    }
    HeadsIs(line, m);
  }

  /** Of the members still in line, the one that wrote first heads every queue it is in. */
  lemma {:induction false} EarliestHeads(line: Line) returns (m: nat)
    requires LineOk(line) && line.live != {}
    ensures m in line.live && HeadsAll(line, m)
  {
    m := Earliest(line, line.live);
    EarlyHeads(line, m);
  }

  lemma {:induction false} Earliest(line: Line, among: set<nat>) returns (m: nat)
    requires among != {} && among <= line.blocks.Keys
    ensures m in among && forall n :: n in among ==> line.blocks[m].start <= line.blocks[n].start
    decreases |among|
  {
    var one :| one in among;
    m := one;
    if among != {one} {
      assert among - {one} != {};
      var least := Earliest(line, among - {one});
      m := if line.blocks[least].start < line.blocks[one].start then least else one;
    }
  }

  /** A member that heads goes on heading until it leaves, whoever enters or leaves meanwhile. */
  lemma {:induction false} HeadsOnThroughEnter(line: Line, m: nat, member: nat, queues: seq<nat>)
    requires LineOk(line) && m in line.live && HeadsAll(line, m) && member !in line.blocks
    requires LineOk(Enter(line, member, queues))
    ensures HeadsAll(Enter(line, member, queues), m)
  {
    HeadsIs(line, m);
    HeadsIs(Enter(line, member, queues), m);
    assert BlockOk(line, m);
  }

  lemma {:induction false} HeadsOnThroughLeave(line: Line, m: nat, member: nat)
    requires LineOk(line) && m in line.live && HeadsAll(line, m) && member in line.blocks && member != m
    requires LineOk(Leave(line, member))
    ensures HeadsAll(Leave(line, member), m)
  {
    HeadsIs(line, m);
    HeadsIs(Leave(line, member), m);
  }

  ghost predicate Numbered(line: Line, n: nat) {
    (forall m :: m in line.blocks ==> m < n) && (forall i :: i in line.gone ==> i < |line.taken|)
  }

  /** What a line keeps while members enter it. */
  ghost predicate Lengthens(line: Line, after: Line) {
    && line.taken <= after.taken && line.gone == after.gone && line.live <= after.live
    && (forall m :: m in line.blocks ==> m in after.blocks && after.blocks[m] == line.blocks[m])
    && (forall m :: m in after.blocks && m !in line.blocks ==> after.blocks[m].start >= |line.taken| && m in after.live)
    && (forall m :: m in after.live ==> m in line.live || m !in line.blocks)
  }

  lemma {:induction false} EnterLengthens(line: Line, member: nat, queues: seq<nat>)
    requires member !in line.blocks
    ensures Lengthens(line, Enter(line, member, queues))
  {
  }

  lemma {:induction false} LengthensOn(line: Line, after: Line, later: Line)
    requires Lengthens(line, after) && Lengthens(after, later)
    ensures Lengthens(line, later)
  {
  }

  lemma {:induction false} StaysLong(line: Line)
    ensures Lengthens(line, line)
  {
  }

  lemma {:induction false} LiveOnes(line: Line)
    requires LineOk(line)
    ensures line.live <= line.blocks.Keys
  {
  }

  /** Every member's places end within the line. */
  lemma {:induction false} WithinLine(line: Line, m: nat)
    requires LineOk(line) && m in line.blocks
    ensures line.blocks[m].start + |line.blocks[m].queues| <= |line.taken|
  {
    assert BlockOk(line, m);
  }

  lemma {:induction false} BehindOne(line: Line, j: nat, k: nat, queue: nat)
    requires LineOk(line) && j in line.live && k in line.live && line.blocks[j].start < line.blocks[k].start
    requires queue in line.blocks[j].queues && queue in line.blocks[k].queues
    ensures !HeadsAll(line, k)
  {
    assert BlockOk(line, j) && BlockOk(line, k);
    var i :| 0 <= i < |line.blocks[j].queues| && line.blocks[j].queues[i] == queue;
    var at := line.blocks[j].start + i;
    assert line.taken[at] == Q.Place(queue, j);
    assert OwnerOk(line, at);
    if at >= line.blocks[k].start {
      Apart(line, j, k, at);
    }
    HeadsIs(line, k);
  }

  /** The places of two members are apart. */
  lemma {:induction false} Apart(line: Line, j: nat, k: nat, at: nat)
    requires LineOk(line) && j in line.blocks && k in line.blocks && j != k && line.blocks[j].start < line.blocks[k].start
    requires line.blocks[k].queues != [] && at < |line.taken| && line.taken[at].member == j
    ensures at < line.blocks[k].start
  {
    assert OwnerOk(line, at);
    var first := line.blocks[k].start;
    if first < line.blocks[j].start + |line.blocks[j].queues| {
      InBlock(line, j, first);
      InBlock(line, k, first);
      assert false;
    }
  }

  lemma {:induction false} InBlock(line: Line, m: nat, at: nat)
    requires LineOk(line) && m in line.blocks && line.blocks[m].start <= at < line.blocks[m].start + |line.blocks[m].queues|
    ensures at < |line.taken| && line.taken[at].member == m
  {
    assert BlockOk(line, m);
    var x := at - line.blocks[m].start;
    assert line.taken[line.blocks[m].start + x] == Q.Place(line.blocks[m].queues[x], m);
  }
}
