/**
 * When a receive is acknowledged, and what a crash leaves (src/message_path.rs,
 * src/ledger.rs, src/ledger/publication.rs, src/departure.rs): many receive cycles
 * write their Streams' chunks unsynced, each publishes in one write, hands its
 * Messages on before that is durable, and is acknowledged only once it is.
 */
module MessagePath {
  import opened Wrappers

  // ---- A cycle's outcome ----

  datatype Arrived = Routed(journeys: nat) | Unroutable | Refused | Failed

  datatype ReceiveCycle = CycleCompleted | CycleRefused | CycleFailed

  /** `Carried::cycle`. */
  function CycleOf(arrived: Arrived): ReceiveCycle {
    match arrived
    case Routed(_) => CycleCompleted
    case Unroutable => CycleCompleted
    case Refused => CycleRefused
    case Failed => CycleFailed
  }

  // ---- The Ledger, and what is in memory ----

  /**
   * What the Ledger is given, in order: a Stream's chunk; a Publication, of a Stream
   * of so many chunks, with its Journeys or, where there is none, its Dead Message
   * Queue entry; and a claim a scan takes on a Journey.
   */
  datatype Entry =
    | Chunk(cycle: nat, index: nat)
    | Publication(cycle: nat, chunks: nat, journeys: nat, dead: bool)
    | ClaimTaken(cycle: nat, journey: nat)

  /** A cycle under way: writing its Stream, or its Publication asked for and where it is in the Ledger. */
  datatype Phase = Writing(written: nat, chunks: nat) | Published(at: nat, journeys: nat)

  /** `acked` is where the Publication of each cycle acknowledged is; `seen` every Journey a far end was sent. */
  datatype State = State(
    log: seq<Entry>,
    synced: nat,
    cycles: map<nat, Phase>,
    minted: nat,
    acked: map<nat, nat>,
    seen: set<(nat, nat)>)

  const Initial: State := State([], 0, map[], 0, map[], {})

  datatype Step =
    | Receive(chunks: nat)
    | WriteChunk(cycle: nat)
    | GiveUp(cycle: nat)
    | Publish(cycle: nat, arrived: Arrived, answered: bool)
    | Sync(to: nat)
    | Acknowledge(cycle: nat)
    | SendHanded(cycle: nat, journey: nat)
    | TakeClaim(at: nat, journey: nat)
    | SendScanned(claimed: nat)
    | Crash(kept: nat)

  predicate IsPublished(s: State, cycle: nat) {
    cycle in s.cycles && s.cycles[cycle].Published?
  }

  function Next(s: State, step: Step): Option<State> {
    match step
    case Receive(chunks) =>
      if chunks == 0 then None
      else Some(s.(cycles := s.cycles[s.minted := Writing(0, chunks)], minted := s.minted + 1))
    case WriteChunk(c) =>
      if c !in s.cycles || !s.cycles[c].Writing? || s.cycles[c].written >= s.cycles[c].chunks then None
      else Some(s.(log := s.log + [Chunk(c, s.cycles[c].written)],
                   cycles := s.cycles[c := Writing(s.cycles[c].written + 1, s.cycles[c].chunks)]))
    case GiveUp(c) => Some(s.(cycles := s.cycles - {c}))
    case Publish(c, arrived, answered) =>
      if c !in s.cycles || !s.cycles[c].Writing? || s.cycles[c].written < s.cycles[c].chunks then None
      else if !(arrived.Unroutable? || (arrived.Routed? && arrived.journeys > 0)) then None
      else
        var journeys := if arrived.Routed? then arrived.journeys else 0;
        Some(s.(log := s.log + [Publication(c, s.cycles[c].chunks, journeys, journeys == 0)],
                cycles := if answered then s.cycles[c := Published(|s.log|, journeys)] else s.cycles - {c}))
    case Sync(to) => if s.synced <= to <= |s.log| then Some(s.(synced := to)) else None
    case Acknowledge(c) =>
      if !IsPublished(s, c) || s.cycles[c].at >= s.synced then None
      else Some(s.(acked := s.acked[c := s.cycles[c].at], cycles := s.cycles - {c}))
    case SendHanded(c, j) =>
      if !IsPublished(s, c) || j >= s.cycles[c].journeys || s.cycles[c].at >= s.synced then None
      else Some(s.(seen := s.seen + {(c, j)}))
    case TakeClaim(at, j) =>
      if at >= |s.log| || !s.log[at].Publication? || j >= s.log[at].journeys then None
      else Some(s.(log := s.log + [ClaimTaken(s.log[at].cycle, j)]))
    case SendScanned(claimed) =>
      if claimed >= s.synced || claimed >= |s.log| || !s.log[claimed].ClaimTaken? then None
      else Some(s.(seen := s.seen + {(s.log[claimed].cycle, s.log[claimed].journey)}))
    case Crash(kept) =>
      if s.synced <= kept <= |s.log| then Some(s.(log := s.log[..kept], synced := kept, cycles := map[])) else None
  }

  function Run(s: State, steps: seq<Step>): Option<State> {
    if steps == [] then Some(s)
    else match Run(s, steps[..|steps| - 1])
      case None => None
      case Some(t) => Next(t, steps[|steps| - 1])
  }

  // ---- What every reachable state keeps ----

  /** The first `written` chunks of a cycle's Stream are in the Ledger before `at`. */
  ghost predicate ChunksBefore(log: seq<Entry>, at: nat, cycle: nat, written: nat)
    requires at <= |log|
  {
    forall k: nat :: k < written ==> Chunk(cycle, k) in log[..at]
  }

  /** What is in the Ledger has behind it what it needs. */
  ghost predicate EntryOk(log: seq<Entry>, at: nat)
    requires at < |log|
  {
    match log[at]
    case Chunk(_, _) => true
    case Publication(c, chunks, journeys, dead) =>
      ChunksBefore(log, at, c, chunks) && (dead <==> journeys == 0)
    case ClaimTaken(c, j) =>
      exists p: nat :: p < at && log[p].Publication? && log[p].cycle == c && j < log[p].journeys
  }

  ghost predicate LogOk(log: seq<Entry>) {
    && (forall at :: 0 <= at < |log| ==> EntryOk(log, at))
    && (forall i, k :: 0 <= i < k < |log| && log[i].Publication? && log[k].Publication? ==> log[i].cycle != log[k].cycle)
  }

  /** The cycle's Publication is there, with this many Journeys. */
  predicate PublishedAt(log: seq<Entry>, at: nat, cycle: nat) {
    at < |log| && log[at].Publication? && log[at].cycle == cycle
  }

  ghost predicate CyclesOk(s: State) {
    && (forall c :: c in s.cycles && s.cycles[c].Writing? ==>
          && ChunksBefore(s.log, |s.log|, c, s.cycles[c].written)
          && (forall i :: 0 <= i < |s.log| && s.log[i].Publication? ==> s.log[i].cycle != c))
    && (forall c :: c in s.cycles && s.cycles[c].Published? ==>
          PublishedAt(s.log, s.cycles[c].at, c) && s.log[s.cycles[c].at].journeys == s.cycles[c].journeys)
  }

  ghost predicate NumbersOk(s: State) {
    && s.synced <= |s.log|
    && (forall c :: c in s.cycles ==> c < s.minted)
    && (forall i :: 0 <= i < |s.log| ==> s.log[i].cycle < s.minted)
  }

  ghost predicate AckedOk(s: State) {
    forall c :: c in s.acked ==> s.acked[c] < s.synced && PublishedAt(s.log, s.acked[c], c)
  }

  ghost predicate SeenOk(s: State) {
    forall c, j :: (c, j) in s.seen ==>
      exists p: nat :: p < s.synced && PublishedAt(s.log, p, c) && j < s.log[p].journeys
  }

  ghost predicate Inv(s: State) {
    LogOk(s.log) && NumbersOk(s) && CyclesOk(s) && AckedOk(s) && SeenOk(s)
  }

  /** The Ledger grown by one entry that has what it needs. */
  lemma {:induction false} Grown(log: seq<Entry>, entry: Entry)
    requires LogOk(log)
    requires EntryOk(log + [entry], |log|)
    requires entry.Publication? ==> forall i :: 0 <= i < |log| && log[i].Publication? ==> log[i].cycle != entry.cycle
    ensures LogOk(log + [entry])
  {
    var more := log + [entry];
    forall at | 0 <= at < |more|
      ensures EntryOk(more, at)
    {
      if at < |log| {
        assert EntryOk(log, at);
        assert more[..at] == log[..at] && more[at] == log[at];
        if more[at].ClaimTaken? {
          var p: nat :| p < at && log[p].Publication? && log[p].cycle == log[at].cycle && log[at].journey < log[p].journeys;
          assert more[p] == log[p];
        }
      }
    }
  }

  lemma {:induction false} Shrunk(log: seq<Entry>, kept: nat)
    requires LogOk(log) && kept <= |log|
    ensures LogOk(log[..kept])
  {
    var less := log[..kept];
    forall at | 0 <= at < kept
      ensures EntryOk(less, at)
    {
      assert EntryOk(log, at);
      assert less[..at] == log[..at];
      if less[at].ClaimTaken? {
        var p: nat :| p < at && log[p].Publication? && log[p].cycle == log[at].cycle && log[at].journey < log[p].journeys;
        assert less[p] == log[p];
      }
    }
  }

  /** What is acknowledged and seen stands while what is synced does. */
  lemma {:induction false} SyncedStands(s: State, t: State)
    requires AckedOk(s) && SeenOk(s) && s.synced <= |s.log| && s.synced <= t.synced <= |t.log|
    requires s.log[..s.synced] == t.log[..s.synced]
    requires t.acked == s.acked && t.seen == s.seen
    ensures AckedOk(t) && SeenOk(t)
  {
    forall c | c in t.acked
      ensures t.acked[c] < t.synced && PublishedAt(t.log, t.acked[c], c)
    {
      assert t.log[..s.synced][t.acked[c]] == s.log[..s.synced][t.acked[c]];
    }
    forall c, j | (c, j) in t.seen
      ensures exists p: nat :: p < t.synced && PublishedAt(t.log, p, c) && j < t.log[p].journeys
    {
      var p: nat :| p < s.synced && PublishedAt(s.log, p, c) && j < s.log[p].journeys;
      assert t.log[..s.synced][p] == s.log[..s.synced][p];
      assert PublishedAt(t.log, p, c);
    }
  }

  lemma {:induction false} WriteChunkKeeps(s: State, c: nat, t: State)
    requires Inv(s) && Next(s, WriteChunk(c)) == Some(t)
    ensures Inv(t)
  {
    Grown(s.log, Chunk(c, s.cycles[c].written));
    GrownCycles(s, t.log, c);
    assert t.log[..s.synced] == s.log[..s.synced];
    OneMoreChunk(s.log, c, s.cycles[c].written);
    hide LogOk, AckedOk, SeenOk, ChunksBefore, EntryOk;
    SyncedStands(s, t);
  }

  lemma {:induction false} OneMoreChunk(log: seq<Entry>, c: nat, written: nat)
    requires ChunksBefore(log, |log|, c, written)
    ensures var more := log + [Chunk(c, written)]; ChunksBefore(more, |more|, c, written + 1)
  {
    var more := log + [Chunk(c, written)];
    assert more[..|more|] == log[..|log|] + [Chunk(c, written)];
  }

  /** Every other cycle under way still has what it had. */
  lemma {:induction false} GrownCycles(s: State, log: seq<Entry>, c: nat)
    requires CyclesOk(s) && |log| == |s.log| + 1 && log[..|s.log|] == s.log
    requires log[|s.log|].Publication? ==> log[|s.log|].cycle == c
    ensures forall d :: d in s.cycles && s.cycles[d].Writing? ==> ChunksBefore(log, |log|, d, s.cycles[d].written)
    ensures forall d :: d in s.cycles && s.cycles[d].Writing? && (d != c || !log[|s.log|].Publication?) ==>
      forall i :: 0 <= i < |log| && log[i].Publication? ==> log[i].cycle != d
    ensures forall d :: d in s.cycles && s.cycles[d].Published? ==>
      PublishedAt(log, s.cycles[d].at, d) && log[s.cycles[d].at].journeys == s.cycles[d].journeys
  {
    assert log == s.log + [log[|s.log|]];
    forall d, k: nat | d in s.cycles && s.cycles[d].Writing? && k < s.cycles[d].written
      ensures Chunk(d, k) in log[..|log|]
    {
      assert ChunksBefore(s.log, |s.log|, d, s.cycles[d].written);
      assert Chunk(d, k) in s.log[..|s.log|];
      assert log[..|log|] == s.log[..|s.log|] + [log[|s.log|]];
    }
    forall d | d in s.cycles && s.cycles[d].Published?
      ensures PublishedAt(log, s.cycles[d].at, d) && log[s.cycles[d].at].journeys == s.cycles[d].journeys
    {
      assert log[s.cycles[d].at] == s.log[s.cycles[d].at];
    }
  }

  lemma {:induction false} PublishKeeps(s: State, c: nat, arrived: Arrived, answered: bool, t: State)
    requires Inv(s) && Next(s, Publish(c, arrived, answered)) == Some(t)
    ensures Inv(t)
  {
    var entry := t.log[|s.log|];
    assert (s.log + [entry])[..|s.log|] == s.log[..|s.log|];
    Grown(s.log, entry);
    GrownCycles(s, t.log, c);
    assert t.log[..s.synced] == s.log[..s.synced];
    hide LogOk, AckedOk, SeenOk;
    SyncedStands(s, t);
  }

  lemma {:induction false} ClaimKeeps(s: State, at: nat, j: nat, t: State)
    requires Inv(s) && Next(s, TakeClaim(at, j)) == Some(t)
    ensures Inv(t)
  {
    var entry := ClaimTaken(s.log[at].cycle, j);
    assert (s.log + [entry])[at] == s.log[at];
    Grown(s.log, entry);
    GrownCycles(s, t.log, s.minted);
    assert t.log[..s.synced] == s.log[..s.synced];
    hide LogOk, AckedOk, SeenOk;
    SyncedStands(s, t);
  }

  lemma {:induction false} CrashKeeps(s: State, kept: nat, t: State)
    requires Inv(s) && Next(s, Crash(kept)) == Some(t)
    ensures Inv(t)
  {
    Shrunk(s.log, kept);
    assert t.log[..s.synced] == s.log[..s.synced];
    hide LogOk;
    SyncedStands(s, t);
  }

  lemma {:induction false} SendKeeps(s: State, c: nat, j: nat, p: nat, t: State)
    requires Inv(s) && t == s.(seen := s.seen + {(c, j)})
    requires p < s.synced && PublishedAt(s.log, p, c) && j < s.log[p].journeys
    ensures Inv(t)
  {
    hide LogOk, ChunksBefore;
    forall d, k | (d, k) in t.seen
      ensures exists q: nat :: q < t.synced && PublishedAt(t.log, q, d) && k < t.log[q].journeys
    {
      if (d, k) == (c, j) {
        assert PublishedAt(t.log, p, d) && k < t.log[p].journeys;
      } else {
        assert (d, k) in s.seen;
      }
    }
  }

  lemma {:induction false} NextKeepsInv(s: State, step: Step, t: State)
    requires Inv(s) && Next(s, step) == Some(t)
    ensures Inv(t)
  {
    match step
    case WriteChunk(c) => WriteChunkKeeps(s, c, t);
    case Publish(c, arrived, answered) => PublishKeeps(s, c, arrived, answered, t);
    case TakeClaim(at, j) => ClaimKeeps(s, at, j, t);
    case Crash(kept) => CrashKeeps(s, kept, t);
    case SendHanded(c, j) => SendKeeps(s, c, j, s.cycles[c].at, t);
    case SendScanned(claimed) =>
      assert EntryOk(s.log, claimed);
      var p: nat :| p < claimed && s.log[p].Publication? && s.log[p].cycle == s.log[claimed].cycle
        && s.log[claimed].journey < s.log[p].journeys;
      SendKeeps(s, s.log[claimed].cycle, s.log[claimed].journey, p, t);
    case Receive(chunks) => ReceiveKeeps(s, chunks, t);
    case _ => OthersKeep(s, step, t);
  }

  lemma {:induction false} ReceiveKeeps(s: State, chunks: nat, t: State)
    requires Inv(s) && Next(s, Receive(chunks)) == Some(t)
    ensures Inv(t)
  {
    hide LogOk, EntryOk;
  }

  lemma {:induction false} OthersKeep(s: State, step: Step, t: State)
    requires Inv(s) && Next(s, step) == Some(t)
    requires step.GiveUp? || step.Sync? || step.Acknowledge?
    ensures Inv(t)
  {
    hide LogOk, EntryOk;
  }

  lemma {:induction false} RunKeepsInv(steps: seq<Step>, s: State)
    requires Run(Initial, steps) == Some(s)
    ensures Inv(s)
  {
    hide Next;
    if steps != [] {
      var before := Run(Initial, steps[..|steps| - 1]).value;
      RunKeepsInv(steps[..|steps| - 1], before);
      NextKeepsInv(before, steps[|steps| - 1], s);
    }
  }

  /**
   * Nothing acknowledged is lost: at every point of every run, and whatever a crash
   * then leaves, a cycle acknowledged has its Publication in the Ledger, its Stream's
   * every chunk before it, and its Journeys or its Dead Message Queue entry.
   */
  lemma {:induction false} AcknowledgedIsKept(steps: seq<Step>, s: State, kept: nat, t: State, cycle: nat)
    requires Run(Initial, steps) == Some(s) && Next(s, Crash(kept)) == Some(t) && cycle in s.acked
    ensures var at := s.acked[cycle];
      && PublishedAt(t.log, at, cycle)
      && (t.log[at].dead <==> t.log[at].journeys == 0)
      && forall k: nat :: k < t.log[at].chunks ==> Chunk(cycle, k) in t.log
  {
    RunKeepsInv(steps, s);
    NextKeepsInv(s, Crash(kept), t);
    SurvivingIsWhole(t, s.acked[cycle]);
  }

  lemma {:induction false} SurvivingIsWhole(s: State, at: nat)
    requires Inv(s) && at < |s.log| && s.log[at].Publication?
    ensures forall k: nat :: k < s.log[at].chunks ==> Chunk(s.log[at].cycle, k) in s.log
    ensures s.log[at].dead <==> s.log[at].journeys == 0
  {
    assert EntryOk(s.log, at);
    forall k: nat | k < s.log[at].chunks
      ensures Chunk(s.log[at].cycle, k) in s.log
    {
      assert Chunk(s.log[at].cycle, k) in s.log[..at];
    }
  }

  /** Every Message a crash leaves has its whole Stream, acknowledged or not. */
  lemma {:induction false} EverySurvivorIsWhole(steps: seq<Step>, s: State, kept: nat, t: State, at: nat)
    requires Run(Initial, steps) == Some(s) && Next(s, Crash(kept)) == Some(t)
    requires at < |t.log| && t.log[at].Publication?
    ensures forall k: nat :: k < t.log[at].chunks ==> Chunk(t.log[at].cycle, k) in t.log
  {
    RunKeepsInv(steps, s);
    NextKeepsInv(s, Crash(kept), t);
    SurvivingIsWhole(t, at);
  }

  /**
   * A far end saw nothing that a crash takes back: whatever was sent, handed on
   * before its sync or taken up by a scan, its Publication survives every crash.
   */
  lemma {:induction false} SeenIsDurable(steps: seq<Step>, s: State, kept: nat, t: State, cycle: nat, journey: nat)
    requires Run(Initial, steps) == Some(s) && Next(s, Crash(kept)) == Some(t) && (cycle, journey) in s.seen
    ensures exists at: nat :: PublishedAt(t.log, at, cycle) && journey < t.log[at].journeys
  {
    RunKeepsInv(steps, s);
    NextKeepsInv(s, Crash(kept), t);
    var p: nat :| p < t.synced && PublishedAt(t.log, p, cycle) && journey < t.log[p].journeys;
  }

  /** A Stream is published once: no two Publications are of one cycle. */
  lemma {:induction false} PublishedOnce(steps: seq<Step>, s: State, i: nat, k: nat)
    requires Run(Initial, steps) == Some(s) && i < k < |s.log|
    requires s.log[i].Publication? && s.log[k].Publication?
    ensures s.log[i].cycle != s.log[k].cycle
  {
    RunKeepsInv(steps, s);
  }

  // ---- A cycle carried ----

  lemma {:induction false} RunsOn(s: State, steps: seq<Step>, step: Step)
    requires Run(s, steps).Some?
    ensures Run(s, steps + [step]) == Next(Run(s, steps).value, step)
  {
    assert (steps + [step])[..|steps|] == steps;
  }

  function Chunks(cycle: nat, n: nat): seq<Entry> {
    seq(n, k requires 0 <= k < n => Chunk(cycle, k))
  }

  predicate Publishes(arrived: Arrived) {
    arrived.Unroutable? || (arrived.Routed? && arrived.journeys > 0)
  }

  /** The Ledger as one cycle changes it, nothing else going on beside it. */
  class Node {
    var state: State
    /** Every step taken since the node began. */
    ghost var steps: seq<Step>

    ghost predicate Valid()
      reads this
    {
      Run(Initial, steps) == Some(state)
    }

    constructor ()
      ensures Valid() && state == Initial
    {
      state, steps := Initial, [];
    }

    method Do(step: Step)
      requires Valid() && Next(state, step).Some?
      modifies this
      ensures Valid() && Some(state) == Next(old(state), step)
    {
      RunsOn(Initial, steps, step);
      state := Next(state, step).value;
      steps := steps + [step];
    }

    /**
     * `carry`: one receive cycle. It ends Completed exactly where its Publication was
     * taken and kept, and then its chunks and its Publication are in the Ledger, in
     * that order and synced; ended any other way it acknowledges nothing.
     */
    method Carry(chunks: nat, atTheDoor: bool, arrived: Arrived, taken: bool, kept: bool) returns (cycle: ReceiveCycle)
      requires Valid() && chunks > 0
      modifies this
      ensures Valid()
      ensures cycle.CycleCompleted? <==> !atTheDoor && Publishes(arrived) && taken && kept
      ensures cycle.CycleRefused? <==> atTheDoor || arrived.Refused?
      ensures cycle.CycleCompleted? ==>
        && state.acked == old(state.acked)[old(state.minted) := old(|state.log|) + chunks]
        && |state.log| == old(|state.log|) + chunks + 1 && state.synced == |state.log|
        && state.log[..old(|state.log|) + chunks] == old(state.log) + Chunks(old(state.minted), chunks)
        && PublishedAt(state.log, old(|state.log|) + chunks, old(state.minted))
        && (state.log[old(|state.log|) + chunks].dead <==> arrived.Unroutable?)
      ensures !cycle.CycleCompleted? ==> state.acked == old(state.acked)
      ensures atTheDoor ==> state == old(state)
    {
      hide LogOk, CyclesOk, AckedOk, SeenOk, Run;
      if atTheDoor {
        return CycleRefused;
      }
      RunKeepsInv(steps, state);
      var c := state.minted;
      WriteAll(c, chunks);
      if !Publishes(arrived) {
        Do(GiveUp(c));
        return if arrived.Refused? then CycleRefused else CycleFailed;
      }
      Do(Publish(c, arrived, taken));
      if !taken {
        return CycleFailed;
      }
      if !kept {
        Do(GiveUp(c));
        return CycleFailed;
      }
      RunKeepsInv(steps, state);
      Do(Sync(|state.log|));
      Do(Acknowledge(c));
      cycle := CycleOf(arrived);
    }

    /** A Stream received, every chunk of it written. */
    method WriteAll(c: nat, chunks: nat)
      requires Valid() && chunks > 0 && c == state.minted
      modifies this
      ensures Valid()
      ensures c in state.cycles && state.cycles[c] == Writing(chunks, chunks)
      ensures state.log == old(state.log) + Chunks(c, chunks)
      ensures state.acked == old(state.acked) && state.synced == old(state.synced)
    {
      Do(Receive(chunks));
      var written := 0;
      while written < chunks
        invariant written <= chunks && Valid()
        invariant c in state.cycles && state.cycles[c] == Writing(written, chunks)
        invariant state.log == old(state.log) + Chunks(c, written)
        invariant state.acked == old(state.acked) && state.synced == old(state.synced)
      {
        assert Chunks(c, written + 1) == Chunks(c, written) + [Chunk(c, written)];
        Do(WriteChunk(c));
        written := written + 1;
      }
    }
  }
}
