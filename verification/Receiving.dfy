/**
 * The receive engine (src/receiving.rs, src/receiving/turn.rs): every Receive
 * Location's loop, its pool of threads and the turn its ordered arrivals tell
 * their far ends in, with the node's two budgets beside them — the places of
 * the arrivals carried, and the bytes those carries hold.
 */
module Receiving {
  import opened Wrappers
  import opened Sums
  import Budgets
  import Pools

  /**
   * Where an arrival stands: given to the pool, on a thread and waiting for bytes,
   * carried under them, its bytes let go and waiting for its turn, its far end told
   * and its turn passed, its telling sent to the loop, and its place let go.
   */
  datatype Phase = Queued | Started | Carrying | Carried | Acknowledged | Told | Done

  /** Where a Location's loop stands, and the node's places it holds itself. */
  datatype Loop =
    | Idle
    | Asking(places: nat)
    /** `left` of what a receive handed over are still to be given to the pool. */
    | Handing(left: nat, places: nat)
    /** Resting after a receive that handed over nothing: its places are let go only after it. */
    | Resting(places: nat)
    | Ended

  datatype Location = Location(
    ordered: bool,
    pool: Pools.State,
    /** Every arrival handed over, by the order it came in. */
    arrivals: seq<Phase>,
    /** The next to tell, where they tell in order. */
    turn: nat,
    loop: Loop,
    /** What the loop counts as not yet told. */
    count: nat,
    /** Told and sent to the loop, in the order they were, and not taken off the channel yet. */
    channel: seq<nat>,
    /** Kept of the run: every arrival given to `each`, in order. */
    each: seq<nat>)

  datatype Mosts = Mosts(carries: nat, bytes: nat, charge: nat)

  datatype Held = Held(carries: nat, bytes: nat)

  datatype Step =
    | Ask
    | Receive(arrived: nat)
    | Stop
    | Hand
    | Handed
    | Rested
    | Settle
    | Threads(pool: Pools.Step)
    | TakeBytes(arrival: nat)
    | LetBytes(arrival: nat)
    | Acknowledge(arrival: nat)
    | Send(arrival: nat)
    | LetPlace(arrival: nat)

  /** How many may still be untold when the transport is asked again. */
  function Busy(l: Location): nat {
    if l.ordered then 0 else Max(l.pool.most, 1) - 1
  }

  /** Whether a hold of `charge` finds room where `held` of `most` is held. */
  predicate Room(most: nat, held: nat, charge: nat) {
    Budgets.Fits(Budgets.State(most, held, []), charge)
  }

  /** One section of one Location; None where it waits. */
  function Next(m: Mosts, h: Held, l: Location, step: Step): Option<(Location, Held)> {
    match step
    case Ask =>
      if !l.loop.Idle? || l.count > Busy(l) || h.carries >= m.carries then None else
      var room := l.pool.most - Min(l.count, l.pool.most);
      var places := Min(Max(1, Min(room, m.carries)), m.carries - h.carries);
      Some((l.(loop := Asking(places)), h.(carries := h.carries + places)))
    case Receive(arrived) =>
      if !l.loop.Asking? || arrived > l.loop.places then None
      else if arrived == 0 then Some((l.(loop := Resting(l.loop.places)), h))
      else Some((l.(loop := Handing(arrived, l.loop.places), count := l.count + arrived, turn := |l.arrivals|), h))
    case Stop =>
      if l.loop.Idle? then Some((l.(loop := Ended), h))
      else if l.loop.Asking? && l.loop.places <= h.carries then
        Some((l.(loop := Ended), h.(carries := h.carries - l.loop.places)))
      else None
    case Hand =>
      if !l.loop.Handing? || l.loop.left == 0 || l.loop.places == 0 then None else
      match Pools.Next(l.pool, Pools.Run(|l.arrivals|)) {
        case None => None
        case Some(pool) =>
          Some((l.(pool := pool, arrivals := l.arrivals + [Queued],
                   loop := Handing(l.loop.left - 1, l.loop.places - 1)), h))
      }
    case Handed =>
      if !l.loop.Handing? || l.loop.left > 0 || l.loop.places > h.carries then None
      else Some((l.(loop := Idle), h.(carries := h.carries - l.loop.places)))
    case Rested =>
      if !l.loop.Resting? || l.loop.places > h.carries then None
      else Some((l.(loop := Idle), h.(carries := h.carries - l.loop.places)))
    case Settle =>
      if !(l.loop.Idle? || l.loop.Ended?) || l.channel == [] || l.count == 0 then None
      else Some((l.(channel := l.channel[1..], count := l.count - 1, each := l.each + [l.channel[0]]), h))
    case Threads(step) =>
      if step.Run? || step.Close? || step.Finish? then None else
      match Pools.Next(l.pool, step) {
        case None => None
        case Some(pool) =>
          if |pool.started| > |l.pool.started| && pool.started[|l.pool.started|] < |l.arrivals|
          then Some((l.(pool := pool, arrivals := l.arrivals[pool.started[|l.pool.started|] := Started]), h))
          else Some((l.(pool := pool), h))
      }
    case TakeBytes(i) =>
      if !Is(l, i, Started) || !Room(m.bytes, h.bytes, m.charge) then None
      else Some((l.(arrivals := l.arrivals[i := Carrying]), h.(bytes := h.bytes + m.charge)))
    case LetBytes(i) =>
      if !Is(l, i, Carrying) || h.bytes < m.charge then None
      else Some((l.(arrivals := l.arrivals[i := Carried]), h.(bytes := h.bytes - m.charge)))
    case Acknowledge(i) =>
      if !Is(l, i, Carried) || (l.ordered && l.turn != i) then None
      else Some((l.(arrivals := l.arrivals[i := Acknowledged], turn := if l.ordered then i + 1 else l.turn), h))
    case Send(i) =>
      if !Is(l, i, Acknowledged) then None
      else Some((l.(arrivals := l.arrivals[i := Told], channel := l.channel + [i]), h))
    case LetPlace(i) =>
      if !Is(l, i, Told) || h.carries == 0 then None else
      match Pools.Next(l.pool, Pools.Finish(i))
      case None => None
      case Some(pool) =>
        Some((l.(arrivals := l.arrivals[i := Done], pool := pool), h.(carries := h.carries - 1)))
  }

  predicate Is(l: Location, arrival: nat, phase: Phase) {
    arrival < |l.arrivals| && l.arrivals[arrival] == phase
  }

  // ---- What is counted of the arrivals ----

  /** What an arrival of each phase weighs. */
  datatype Weights = Weights(
    queued: nat, started: nat, carrying: nat, carried: nat, acknowledged: nat, told: nat, done: nat)

  function Weight(w: Weights, phase: Phase): nat {
    match phase
    case Queued => w.queued
    case Started => w.started
    case Carrying => w.carrying
    case Carried => w.carried
    case Acknowledged => w.acknowledged
    case Told => w.told
    case Done => w.done
  }

  function Weigh(w: Weights, arrivals: seq<Phase>): nat {
    if arrivals == [] then 0 else Weigh(w, arrivals[..|arrivals| - 1]) + Weight(w, arrivals[|arrivals| - 1])
  }

  lemma {:induction false} WeighAppend(w: Weights, arrivals: seq<Phase>, phase: Phase)
    ensures Weigh(w, arrivals + [phase]) == Weigh(w, arrivals) + Weight(w, phase)
  {
    assert (arrivals + [phase])[..|arrivals|] == arrivals;
  }

  lemma {:induction false} WeighUpdate(w: Weights, arrivals: seq<Phase>, i: nat, phase: Phase)
    requires i < |arrivals|
    ensures Weigh(w, arrivals[i := phase]) + Weight(w, arrivals[i]) == Weigh(w, arrivals) + Weight(w, phase)
    ensures Weigh(w, arrivals) >= Weight(w, arrivals[i])
    decreases |arrivals|
  {
    var n := |arrivals| - 1;
    if i == n {
      assert arrivals[i := phase][..n] == arrivals[..n];
    } else {
      assert arrivals[i := phase][..n] == arrivals[..n][i := phase];
      WeighUpdate(w, arrivals[..n], i, phase);
    }
  }

  /** Where none weighs anything, all weigh nothing; and where all weigh nothing, none does. */
  lemma {:induction false} WeighNothing(w: Weights, arrivals: seq<Phase>)
    ensures Weigh(w, arrivals) == 0 <==> forall i :: 0 <= i < |arrivals| ==> Weight(w, arrivals[i]) == 0
    decreases |arrivals|
  {
    if arrivals != [] {
      var rest := arrivals[..|arrivals| - 1];
      WeighNothing(w, rest);
      assert forall i :: 0 <= i < |rest| ==> rest[i] == arrivals[i];
      assert arrivals[|arrivals| - 1] == arrivals[|rest|];
    }
  }

  const UNTOLD := Weights(1, 1, 1, 1, 1, 0, 0)
  const PLACED := Weights(1, 1, 1, 1, 1, 1, 0)
  const RANKED := Weights(6, 5, 4, 3, 2, 1, 0)

  function BytesOf(charge: nat): Weights {
    Weights(0, 0, charge, 0, 0, 0, 0)
  }

  function LoopPlaces(loop: Loop): nat {
    if loop.Asking? || loop.Handing? || loop.Resting? then loop.places else 0
  }

  function LoopLeft(loop: Loop): nat {
    if loop.Handing? then loop.left else 0
  }

  /** The node's places a Location and its arrivals hold. */
  function Places(l: Location): nat {
    LoopPlaces(l.loop) + Weigh(PLACED, l.arrivals)
  }

  function Bytes(m: Mosts, l: Location): nat {
    Weigh(BytesOf(m.charge), l.arrivals)
  }

  /** What was handed over and whose telling is not sent to the loop. */
  function Untold(l: Location): nat {
    LoopLeft(l.loop) + Weigh(UNTOLD, l.arrivals)
  }

  // ---- What every Location keeps ----

  predicate Active(phase: Phase) {
    !phase.Queued? && !phase.Done?
  }

  /** Its far end was told, whether or not the loop was. */
  predicate IsTold(phase: Phase) {
    phase.Acknowledged? || IsSent(phase)
  }

  predicate IsSent(phase: Phase) {
    phase.Told? || phase.Done?
  }

  /** The pool holds exactly the arrivals, in the order they came, and runs exactly the active ones. */
  ghost predicate PoolAgrees(l: Location) {
    && Pools.Inv(l.pool) && !l.pool.lock.closed
    && |l.pool.submitted| == |l.arrivals|
    && (forall i :: 0 <= i < |l.arrivals| ==> l.pool.submitted[i] == i)
    && (forall i :: 0 <= i < |l.arrivals| ==> (l.arrivals[i].Queued? <==> |l.pool.started| <= i))
    && (forall i :: 0 <= i < |l.arrivals| && Active(l.arrivals[i]) ==> i in l.pool.running)
    && (forall i: nat :: i in l.pool.running ==>
          i < |l.arrivals| && Active(l.arrivals[i]) && l.pool.running[i] == 1)
  }

  /** Ordered arrivals are told one after another, as they came. */
  ghost predicate InTurn(l: Location) {
    l.ordered ==>
      && l.turn <= |l.arrivals|
      && (forall i :: 0 <= i < |l.arrivals| ==> (IsTold(l.arrivals[i]) <==> i < l.turn))
  }

  /** What was sent to the loop, in order: given to `each`, or on the channel still. */
  function Sent(l: Location): seq<nat> {
    l.each + l.channel
  }

  /** Exactly the arrivals sent to the loop are, each once. */
  ghost predicate SentOnce(l: Location) {
    && (forall i :: i in Sent(l) <==> 0 <= i < |l.arrivals| && IsSent(l.arrivals[i]))
    && (forall i, k :: 0 <= i < k < |Sent(l)| ==> Sent(l)[i] != Sent(l)[k])
  }

  ghost predicate LoopExact(l: Location) {
    && l.count == Untold(l) + |l.channel|
    && l.count <= l.pool.most
    && (l.loop.Asking? ==> 1 <= l.loop.places <= l.pool.most - l.count && l.count <= Busy(l))
    && (l.loop.Handing? ==> l.loop.left <= l.loop.places)
  }

  ghost predicate LocationInv(l: Location) {
    PoolAgrees(l) && InTurn(l) && LoopExact(l) && SentOnce(l)
  }

  /** A step keeps a Location's counts, and the budgets change by exactly what its holdings do. */
  ghost predicate Accounts(m: Mosts, h: Held, l: Location, h': Held, l': Location) {
    && h'.carries + Places(l) == h.carries + Places(l')
    && h'.bytes + Bytes(m, l) == h.bytes + Bytes(m, l')
    && (h.carries <= m.carries ==> h'.carries <= m.carries)
    && (h.bytes <= m.bytes && m.charge <= m.bytes ==> h'.bytes <= m.bytes)
  }

  lemma {:induction false} LoopStepKeeps(m: Mosts, h: Held, l: Location, step: Step, l': Location, h': Held)
    requires LocationInv(l) && Next(m, h, l, step) == Some((l', h'))
    requires step.Ask? || step.Receive? || step.Stop? || step.Handed? || step.Rested? || step.Settle?
    ensures LocationInv(l') && Accounts(m, h, l, h', l') && l'.pool.most == l.pool.most
  {
    hide SentOnce, PoolAgrees, InTurn, LoopExact, Accounts;
    PoolStays(l, l');
    LoopStepTurns(m, h, l, step, l', h');
    LoopStepAccounts(m, h, l, step, l', h');
    if step.Settle? {
      assert l.channel == [l.channel[0]] + l.channel[1..];
      assert Sent(l') == Sent(l);
    }
    SentStays(l, l');
  }

  lemma {:induction false} LoopStepTurns(m: Mosts, h: Held, l: Location, step: Step, l': Location, h': Held)
    requires LocationInv(l) && Next(m, h, l, step) == Some((l', h'))
    requires step.Ask? || step.Receive? || step.Stop? || step.Handed? || step.Rested? || step.Settle?
    ensures InTurn(l')
  {
    hide SentOnce, PoolAgrees;
    if step.Receive? && l.ordered {
      NothingUntold(l);
    }
  }

  lemma {:induction false} LoopStepAccounts(m: Mosts, h: Held, l: Location, step: Step, l': Location, h': Held)
    requires LoopExact(l) && l.pool.most >= 1 && Next(m, h, l, step) == Some((l', h'))
    requires step.Ask? || step.Receive? || step.Stop? || step.Handed? || step.Rested? || step.Settle?
    ensures LoopExact(l') && Accounts(m, h, l, h', l')
  {
  }

  lemma {:induction false} PoolStays(l: Location, l': Location)
    requires PoolAgrees(l) && l'.pool == l.pool && l'.arrivals == l.arrivals
    ensures PoolAgrees(l') && l.pool.most >= 1
  {
  }

  lemma {:induction false} SentStays(l: Location, l': Location)
    requires SentOnce(l) && Sent(l') == Sent(l) && |l'.arrivals| == |l.arrivals|
    requires forall i :: 0 <= i < |l.arrivals| ==> (IsSent(l'.arrivals[i]) <==> IsSent(l.arrivals[i]))
    ensures SentOnce(l')
  {
  }

  /** Where an ordered Location's loop counts nothing, its turn is past every arrival. */
  lemma {:induction false} NothingUntold(l: Location)
    requires LocationInv(l) && l.ordered && Untold(l) == 0
    ensures l.turn == |l.arrivals|
  {
    WeighNothing(UNTOLD, l.arrivals);
    assert forall i :: 0 <= i < |l.arrivals| ==> Weight(UNTOLD, l.arrivals[i]) == 0;
    assert forall i :: 0 <= i < |l.arrivals| ==> IsTold(l.arrivals[i]);
  }

  /** One arrival of a Location in another phase: what each count of it becomes. */
  lemma {:induction false} Reweighed(m: Mosts, l: Location, l': Location, i: nat, phase: Phase)
    requires i < |l.arrivals| && l'.arrivals == l.arrivals[i := phase]
    ensures Weigh(UNTOLD, l'.arrivals) + Weight(UNTOLD, l.arrivals[i]) == Weigh(UNTOLD, l.arrivals) + Weight(UNTOLD, phase)
    ensures Weigh(PLACED, l'.arrivals) + Weight(PLACED, l.arrivals[i]) == Weigh(PLACED, l.arrivals) + Weight(PLACED, phase)
    ensures Bytes(m, l') + Weight(BytesOf(m.charge), l.arrivals[i]) == Bytes(m, l) + Weight(BytesOf(m.charge), phase)
  {
    WeighUpdate(UNTOLD, l.arrivals, i, phase);
    WeighUpdate(PLACED, l.arrivals, i, phase);
    WeighUpdate(BytesOf(m.charge), l.arrivals, i, phase);
  }

  lemma {:induction false} HandKeeps(m: Mosts, h: Held, l: Location, l': Location, h': Held)
    requires LocationInv(l) && Next(m, h, l, Hand) == Some((l', h'))
    ensures LocationInv(l') && Accounts(m, h, l, h', l') && l'.pool.most == l.pool.most
  {
    hide SentOnce, PoolAgrees, InTurn, LoopExact, Accounts, Pools.Next;
    HandAgrees(l, l');
    HandAccounts(m, h, l, l', h');
    SentGrown(l, l');
  }

  lemma {:induction false} HandAgrees(l: Location, l': Location)
    requires PoolAgrees(l) && InTurn(l) && Pools.Next(l.pool, Pools.Run(|l.arrivals|)) == Some(l'.pool)
    requires l'.arrivals == l.arrivals + [Queued] && l'.ordered == l.ordered && l'.turn == l.turn
    ensures PoolAgrees(l') && InTurn(l') && l'.pool.most == l.pool.most
  {
    Pools.NextKeepsInv(l.pool, Pools.Run(|l.arrivals|), l'.pool);
    assert |l.pool.started| <= |l.arrivals|;
  }

  lemma {:induction false} HandAccounts(m: Mosts, h: Held, l: Location, l': Location, h': Held)
    requires LoopExact(l) && Next(m, h, l, Hand) == Some((l', h'))
    ensures l'.pool.most == l.pool.most ==> LoopExact(l') && Accounts(m, h, l, h', l')
  {
    hide Pools.Next;
    WeighAppend(UNTOLD, l.arrivals, Queued);
    WeighAppend(PLACED, l.arrivals, Queued);
    WeighAppend(BytesOf(m.charge), l.arrivals, Queued);
  }

  lemma {:induction false} SentGrown(l: Location, l': Location)
    requires SentOnce(l) && Sent(l') == Sent(l) && l'.arrivals == l.arrivals + [Queued]
    ensures SentOnce(l')
  {
  }

  lemma {:induction false} ThreadsKeep(m: Mosts, h: Held, l: Location, step: Pools.Step, l': Location, h': Held)
    requires LocationInv(l) && Next(m, h, l, Threads(step)) == Some((l', h'))
    ensures LocationInv(l') && Accounts(m, h, l, h', l') && l'.pool.most == l.pool.most
  {
    hide InTurn, Pools.Inv, Pools.Next, SentOnce, LoopExact, Accounts;
    PoolStepStarts(l.pool, step, l'.pool);
    Pools.NextKeepsInv(l.pool, step, l'.pool);
    SentStays(l, l');
    if l'.pool.started != l.pool.started {
      StartingAgrees(l, l');
    } else {
      StayingAgrees(l, l');
    }
    ThreadsAccount(m, h, l, l', h');
  }

  lemma {:induction false} ThreadsAccount(m: Mosts, h: Held, l: Location, l': Location, h': Held)
    requires LoopExact(l) && h' == h && l'.pool.most == l.pool.most
    requires l'.count == l.count && l'.channel == l.channel && l'.loop == l.loop && l'.ordered == l.ordered
    requires || l'.arrivals == l.arrivals
             || exists i :: 0 <= i < |l.arrivals| && l.arrivals[i].Queued? && l'.arrivals == l.arrivals[i := Started]
    ensures LoopExact(l') && Accounts(m, h, l, h', l')
  {
    if l'.arrivals != l.arrivals {
      var i :| 0 <= i < |l.arrivals| && l.arrivals[i].Queued? && l'.arrivals == l.arrivals[i := Started];
      Reweighed(m, l, l', i, Started);
    }
  }

  lemma {:induction false} StayingAgrees(l: Location, l': Location)
    requires PoolAgrees(l) && InTurn(l)
    requires Pools.Inv(l'.pool) && !l'.pool.lock.closed && l'.pool.submitted == l.pool.submitted
    requires l'.pool.started == l.pool.started && l'.pool.running == l.pool.running
    requires l'.arrivals == l.arrivals && l'.ordered == l.ordered && l'.turn == l.turn
    ensures PoolAgrees(l') && InTurn(l')
  {
  }

  lemma {:induction false} StartingAgrees(l: Location, l': Location)
    requires PoolAgrees(l) && InTurn(l) && |l.pool.started| < |l.arrivals|
    requires Pools.Inv(l'.pool) && !l'.pool.lock.closed && l'.pool.submitted == l.pool.submitted
    requires l'.pool.started == l.pool.started + [|l.pool.started|]
    requires l'.pool.running == l.pool.running + multiset{|l.pool.started|}
    requires l'.arrivals == l.arrivals[|l.pool.started| := Started] && l'.ordered == l.ordered && l'.turn == l.turn
    ensures PoolAgrees(l') && InTurn(l')
  {
  }

  /** A thread's step starts nothing, or the piece given first of those not yet started. */
  lemma {:induction false} PoolStepStarts(p: Pools.State, step: Pools.Step, q: Pools.State)
    requires Pools.Inv(p) && Pools.Next(p, step) == Some(q)
    requires !step.Run? && !step.Close? && !step.Finish?
    ensures q.submitted == p.submitted && q.lock.closed == p.lock.closed && q.most == p.most
    ensures || (q.started == p.started && q.running == p.running)
            || (|p.started| < |p.submitted| && q.started == p.started + [p.submitted[|p.started|]]
                && q.running == p.running + multiset{p.submitted[|p.started|]})
  {
    if p.lock.queued != [] {
      assert p.submitted[|p.started|] == p.lock.queued[0];
    }
  }

  lemma {:induction false} ArrivalStepKeeps(m: Mosts, h: Held, l: Location, step: Step, l': Location, h': Held)
    requires LocationInv(l) && Next(m, h, l, step) == Some((l', h'))
    requires step.TakeBytes? || step.LetBytes? || step.Acknowledge? || step.Send?
    ensures LocationInv(l') && Accounts(m, h, l, h', l') && l'.pool.most == l.pool.most
  {
    hide PoolAgrees, InTurn, SentOnce, LoopExact, Accounts, Next;
    ArrivalStepAgrees(m, h, l, step, l', h');
    ArrivalStepSends(m, h, l, step, l', h');
    ArrivalStepAccounts(m, h, l, step, l', h');
  }

  lemma {:induction false} ArrivalStepAccounts(m: Mosts, h: Held, l: Location, step: Step, l': Location, h': Held)
    requires LoopExact(l) && Next(m, h, l, step) == Some((l', h'))
    requires step.TakeBytes? || step.LetBytes? || step.Acknowledge? || step.Send?
    ensures LoopExact(l') && Accounts(m, h, l, h', l') && l'.pool.most == l.pool.most
  {
    Reweighed(m, l, l', step.arrival, l'.arrivals[step.arrival]);
  }

  lemma {:induction false} ArrivalStepSends(m: Mosts, h: Held, l: Location, step: Step, l': Location, h': Held)
    requires SentOnce(l) && Next(m, h, l, step) == Some((l', h'))
    requires step.TakeBytes? || step.LetBytes? || step.Acknowledge? || step.Send?
    ensures SentOnce(l')
  {
    if step.Send? {
      assert Sent(l') == Sent(l) + [step.arrival];
      assert step.arrival !in Sent(l);
    } else {
      SentStays(l, l');
    }
  }

  lemma {:induction false} ArrivalStepAgrees(m: Mosts, h: Held, l: Location, step: Step, l': Location, h': Held)
    requires PoolAgrees(l) && InTurn(l) && Next(m, h, l, step) == Some((l', h'))
    requires step.TakeBytes? || step.LetBytes? || step.Acknowledge? || step.Send?
    ensures PoolAgrees(l') && InTurn(l')
  {
    var i := step.arrival;
    assert Active(l.arrivals[i]) && Active(l'.arrivals[i]);
  }

  lemma {:induction false} LetPlaceKeeps(m: Mosts, h: Held, l: Location, i: nat, l': Location, h': Held)
    requires LocationInv(l) && Next(m, h, l, LetPlace(i)) == Some((l', h'))
    ensures LocationInv(l') && Accounts(m, h, l, h', l') && l'.pool.most == l.pool.most
  {
    hide SentOnce, PoolAgrees, InTurn, LoopExact, Accounts, Pools.Next;
    FinishingAgrees(l, i, l');
    PlaceAccounts(m, h, l, i, l', h');
    SentStays(l, l');
  }

  lemma {:induction false} PlaceAccounts(m: Mosts, h: Held, l: Location, i: nat, l': Location, h': Held)
    requires LoopExact(l) && Next(m, h, l, LetPlace(i)) == Some((l', h'))
    ensures l'.pool.most == l.pool.most ==> LoopExact(l') && Accounts(m, h, l, h', l')
  {
    hide Pools.Next;
    Reweighed(m, l, l', i, Done);
  }

  lemma {:induction false} FinishingAgrees(l: Location, i: nat, l': Location)
    requires PoolAgrees(l) && InTurn(l) && Is(l, i, Told)
    requires Pools.Next(l.pool, Pools.Finish(i)) == Some(l'.pool)
    requires l'.arrivals == l.arrivals[i := Done] && l'.ordered == l.ordered && l'.turn == l.turn
    ensures PoolAgrees(l') && InTurn(l') && l'.pool.most == l.pool.most
  {
    Pools.NextKeepsInv(l.pool, Pools.Finish(i), l'.pool);
    assert i in l.pool.running && l.pool.running[i] == 1;
    assert i !in l'.pool.running;
  }

  lemma {:induction false} NextKeeps(m: Mosts, h: Held, l: Location, step: Step, l': Location, h': Held)
    requires LocationInv(l) && Next(m, h, l, step) == Some((l', h'))
    ensures LocationInv(l') && Accounts(m, h, l, h', l') && l'.pool.most == l.pool.most
  {
    match step
    case Hand => HandKeeps(m, h, l, l', h');
    case Threads(pool) => ThreadsKeep(m, h, l, pool, l', h');
    case TakeBytes(_) => ArrivalStepKeeps(m, h, l, step, l', h');
    case LetBytes(_) => ArrivalStepKeeps(m, h, l, step, l', h');
    case Acknowledge(_) => ArrivalStepKeeps(m, h, l, step, l', h');
    case Send(_) => ArrivalStepKeeps(m, h, l, step, l', h');
    case LetPlace(i) => LetPlaceKeeps(m, h, l, i, l', h');
    case _ => LoopStepKeeps(m, h, l, step, l', h');
  }

  // ---- The node: every Location over the same two budgets ----

  datatype Node = Node(held: Held, locations: seq<Location>)

  /** A Location's limits: whether its transport's arrivals are ordered, and its pool's most. */
  datatype Limits = Limits(ordered: bool, most: nat)

  function Begun(limits: Limits): Location {
    Location(limits.ordered, Pools.Initial(limits.most), [], 0, Idle, 0, [], [])
  }

  function Initial(limits: seq<Limits>): Node {
    Node(Held(0, 0), seq(|limits|, i requires 0 <= i < |limits| => Begun(limits[i])))
  }

  /** The budgets as a node makes them: each one at least, and a carry's charge no more than them all. */
  function MostsOf(carries: nat, bytes: nat, charge: nat): Mosts {
    Mosts(Max(carries, 1), Max(bytes, 1), Min(charge, Max(bytes, 1)))
  }

  function NextAt(m: Mosts, n: Node, at: nat, step: Step): Option<Node> {
    if at >= |n.locations| then None else
    match Next(m, n.held, n.locations[at], step)
    case None => None
    case Some((location, held)) => Some(Node(held, n.locations[at := location]))
  }

  function Run(m: Mosts, n: Node, steps: seq<(nat, Step)>): Option<Node> {
    if steps == [] then Some(n)
    else match Run(m, n, steps[..|steps| - 1])
      case None => None
      case Some(before) => NextAt(m, before, steps[|steps| - 1].0, steps[|steps| - 1].1)
  }

  function AllPlaces(locations: seq<Location>): seq<nat> {
    seq(|locations|, i requires 0 <= i < |locations| => Places(locations[i]))
  }

  function AllBytes(m: Mosts, locations: seq<Location>): seq<nat> {
    seq(|locations|, i requires 0 <= i < |locations| => Bytes(m, locations[i]))
  }

  function AllUntold(locations: seq<Location>): seq<nat> {
    seq(|locations|, i requires 0 <= i < |locations| => Untold(locations[i]))
  }

  ghost predicate NodeInv(m: Mosts, n: Node) {
    && (forall i :: 0 <= i < |n.locations| ==> LocationInv(n.locations[i]))
    && n.held.carries == Sum(AllPlaces(n.locations)) <= m.carries
    && n.held.bytes == Sum(AllBytes(m, n.locations)) <= m.bytes
    && m.charge <= m.bytes
  }

  lemma {:induction false} NextAtKeeps(m: Mosts, n: Node, at: nat, step: Step, n': Node)
    requires NodeInv(m, n) && NextAt(m, n, at, step) == Some(n')
    ensures NodeInv(m, n') && |n'.locations| == |n.locations|
  {
    hide LocationInv, Next, Places, Bytes;
    var l, l' := n.locations[at], n'.locations[at];
    NextKeeps(m, n.held, l, step, l', n'.held);
    assert AllPlaces(n'.locations) == AllPlaces(n.locations)[at := Places(l')];
    assert AllBytes(m, n'.locations) == AllBytes(m, n.locations)[at := Bytes(m, l')];
    SumUpdate(AllPlaces(n.locations), at, Places(l'));
    SumUpdate(AllBytes(m, n.locations), at, Bytes(m, l'));
  }

  lemma {:induction false} InitialInv(m: Mosts, limits: seq<Limits>)
    requires m.charge <= m.bytes
    ensures NodeInv(m, Initial(limits))
  {
    var n := Initial(limits);
    forall i | 0 <= i < |limits|
      ensures LocationInv(n.locations[i]) && Places(n.locations[i]) == 0 && Bytes(m, n.locations[i]) == 0
    {
      BegunInv(m, limits[i]);
    }
    assert AllPlaces(n.locations) == seq(|limits|, _ => 0);
    assert AllBytes(m, n.locations) == seq(|limits|, _ => 0);
    Budgets.SumOfNothing(|limits|);
  }

  lemma {:induction false} BegunInv(m: Mosts, limits: Limits)
    ensures LocationInv(Begun(limits)) && Places(Begun(limits)) == 0 && Bytes(m, Begun(limits)) == 0
  {
    var l := Begun(limits);
    assert Pools.Inv(l.pool);
    assert PoolAgrees(l);
  }

  lemma {:induction false} RunKeeps(m: Mosts, limits: seq<Limits>, steps: seq<(nat, Step)>, n: Node)
    requires m.charge <= m.bytes && Run(m, Initial(limits), steps) == Some(n)
    ensures NodeInv(m, n) && |n.locations| == |limits|
  {
    if steps == [] {
      InitialInv(m, limits);
    } else {
      var before := Run(m, Initial(limits), steps[..|steps| - 1]).value;
      RunKeeps(m, limits, steps[..|steps| - 1], before);
      NextAtKeeps(m, before, steps[|steps| - 1].0, steps[|steps| - 1].1, n);
    }
  }

  /**
   * The receive loop is exact in every reachable state: what a Location has untold
   * is what its loop counts less what is on its channel, never above its pool's most;
   * a receive is asked for one arrival at least and for no more than the pool has
   * room for; and an ordered transport is asked only with nothing untold.
   */
  lemma {:induction false} LoopIsExact(
      carries: nat, bytes: nat, charge: nat, limits: seq<Limits>, steps: seq<(nat, Step)>, n: Node, at: nat)
    requires Run(MostsOf(carries, bytes, charge), Initial(limits), steps) == Some(n) && at < |n.locations|
    ensures var l := n.locations[at];
      && l.count == Untold(l) + |l.channel| <= l.pool.most
      && (l.loop.Asking? ==> 1 <= l.loop.places <= l.pool.most - l.count)
      && (l.loop.Asking? && l.ordered ==> Untold(l) == 0 && forall i :: 0 <= i < |l.arrivals| ==> IsTold(l.arrivals[i]))
  {
    RunKeeps(MostsOf(carries, bytes, charge), limits, steps, n);
    var l := n.locations[at];
    if l.loop.Asking? && l.ordered {
      NothingUntold(l);
    }
  }

  /** Across every Location, what is untold never exceeds the carry budget, nor the bytes carried under the byte budget. */
  lemma {:induction false} NodeIsBounded(
      carries: nat, bytes: nat, charge: nat, limits: seq<Limits>, steps: seq<(nat, Step)>, n: Node)
    requires Run(MostsOf(carries, bytes, charge), Initial(limits), steps) == Some(n)
    ensures Sum(AllUntold(n.locations)) <= Max(carries, 1)
    ensures Sum(AllBytes(MostsOf(carries, bytes, charge), n.locations)) <= Max(bytes, 1)
  {
    var m := MostsOf(carries, bytes, charge);
    RunKeeps(m, limits, steps, n);
    UntoldWithinPlaces(n.locations);
  }

  lemma {:induction false} UntoldWithinPlaces(locations: seq<Location>)
    requires forall i :: 0 <= i < |locations| ==> LocationInv(locations[i])
    ensures Sum(AllUntold(locations)) <= Sum(AllPlaces(locations))
  {
    forall i | 0 <= i < |locations| ensures AllUntold(locations)[i] <= AllPlaces(locations)[i] {
      UntoldIsPlacedAt(locations[i]);
    }
    SumAtMost(AllUntold(locations), AllPlaces(locations));
  }

  lemma {:induction false} UntoldIsPlacedAt(l: Location)
    requires LocationInv(l)
    ensures Untold(l) <= Places(l)
  {
    UntoldIsPlaced(l.arrivals);
  }

  lemma {:induction false} UntoldIsPlaced(arrivals: seq<Phase>)
    ensures Weigh(UNTOLD, arrivals) <= Weigh(PLACED, arrivals)
    decreases |arrivals|
  {
    if arrivals != [] {
      UntoldIsPlaced(arrivals[..|arrivals| - 1]);
    }
  }

  lemma {:induction false} SumAtMost(a: seq<nat>, b: seq<nat>)
    requires |a| == |b| && forall i :: 0 <= i < |a| ==> a[i] <= b[i]
    ensures Sum(a) <= Sum(b)
  {
    if a != [] {
      SumAtMost(a[1..], b[1..]);
    }
  }

  // ---- The order far ends are told in, and the order the loop hears of it ----

  /**
   * On an ordered transport far ends are told in the order their arrivals came,
   * one receive after another: the one that may be told next has exactly those
   * before it told.
   */
  lemma {:induction false} ToldInOrder(
      carries: nat, bytes: nat, charge: nat, limits: seq<Limits>, steps: seq<(nat, Step)>, n: Node, at: nat, i: nat)
    requires Run(MostsOf(carries, bytes, charge), Initial(limits), steps) == Some(n)
    requires NextAt(MostsOf(carries, bytes, charge), n, at, Acknowledge(i)).Some? && n.locations[at].ordered
    ensures var l := n.locations[at];
      forall k :: 0 <= k < |l.arrivals| ==> (IsTold(l.arrivals[k]) <==> k < i)
  {
    hide Next, MostsOf, PoolAgrees, InTurn, LoopExact, SentOnce;
    ChargeFits(carries, bytes, charge);
    RunKeeps(MostsOf(carries, bytes, charge), limits, steps, n);
    TurnIsExact(MostsOf(carries, bytes, charge), n, at, i);
  }

  lemma {:induction false} TurnIsExact(m: Mosts, n: Node, at: nat, i: nat)
    requires at < |n.locations| && InTurn(n.locations[at]) && n.locations[at].ordered
    requires NextAt(m, n, at, Acknowledge(i)).Some?
    ensures var l := n.locations[at];
      forall k :: 0 <= k < |l.arrivals| ==> (IsTold(l.arrivals[k]) <==> k < i)
  {
  }

  /** What the loop hears of is what came, in the order it came. */
  ghost predicate InOrder(l: Location) {
    forall k :: 0 <= k < |Sent(l)| ==> Sent(l)[k] == k
  }

  /** A telling sent while an arrival before it was told, and its telling not sent. */
  predicate Overtakes(l: Location, step: Step) {
    step.Send? && exists k :: 0 <= k < Min(step.arrival, |l.arrivals|) && l.arrivals[k].Acknowledged?
  }

  lemma {:induction false} OrderKeptExactly(m: Mosts, h: Held, l: Location, step: Step, l': Location, h': Held)
    requires LocationInv(l) && l.ordered && Next(m, h, l, step) == Some((l', h'))
    ensures l'.ordered && (InOrder(l') <==> InOrder(l) && !Overtakes(l, step))
  {
    if step.Send? {
      SendKeepsOrderExactly(l, step.arrival, l');
    } else {
      hide LocationInv;
      SendingStays(m, h, l, step, l', h');
    }
  }

  lemma {:induction false} SendingStays(m: Mosts, h: Held, l: Location, step: Step, l': Location, h': Held)
    requires Next(m, h, l, step) == Some((l', h')) && !step.Send?
    ensures l'.ordered == l.ordered && Sent(l') == Sent(l)
  {
    hide Pools.Next;
    if step.Settle? {
      assert l.channel == [l.channel[0]] + l.channel[1..];
    }
  }

  lemma {:induction false} SendKeepsOrderExactly(l: Location, i: nat, l': Location)
    requires InTurn(l) && SentOnce(l) && l.ordered && Is(l, i, Acknowledged)
    requires l'.each == l.each && l'.channel == l.channel + [i]
    ensures InOrder(l') <==> InOrder(l) && !Overtakes(l, Send(i))
  {
    var sent := |Sent(l)|;
    assert Sent(l') == Sent(l) + [i];
    if InOrder(l') {
      assert forall k :: 0 <= k < sent ==> Sent(l)[k] == Sent(l')[k];
      assert i == Sent(l')[sent] == sent;
      forall k | 0 <= k < i ensures !l.arrivals[k].Acknowledged? {
        assert Sent(l)[k] == k;
      }
    } else if InOrder(l) {
      assert forall k :: 0 <= k < sent ==> Sent(l')[k] == Sent(l)[k];
      forall k | 0 <= k < sent ensures k in Sent(l) {
        assert Sent(l)[k] == k;
      }
      assert i != sent && i !in Sent(l);
      assert sent !in Sent(l);
      assert l.arrivals[sent].Acknowledged?;
    }
  }

  /** Whether some step of a run sent a telling of the Location ahead of one told before it. */
  ghost predicate Overtaken(m: Mosts, limits: seq<Limits>, steps: seq<(nat, Step)>, at: nat) {
    exists k :: 0 <= k < |steps| && OvertakenAt(m, limits, steps, at, k)
  }

  predicate OvertakenAt(m: Mosts, limits: seq<Limits>, steps: seq<(nat, Step)>, at: nat, k: nat)
    requires k < |steps|
  {
    && steps[k].0 == at
    && var n := Run(m, Initial(limits), steps[..k]);
      n.Some? && at < |n.value.locations| && Overtakes(n.value.locations[at], steps[k].1)
  }

  /**
   * The loop of an ordered Location is given its arrivals in the order they came
   * exactly where no telling was ever sent while one told before it was not sent
   * yet: the turn passes with the telling, the sending follows outside it.
   */
  lemma {:induction false} GivenInOrderExactly(
      carries: nat, bytes: nat, charge: nat, limits: seq<Limits>, steps: seq<(nat, Step)>, n: Node, at: nat)
    requires Run(MostsOf(carries, bytes, charge), Initial(limits), steps) == Some(n)
    requires at < |n.locations| && n.locations[at].ordered
    ensures InOrder(n.locations[at]) <==> !Overtaken(MostsOf(carries, bytes, charge), limits, steps, at)
  {
    var m := MostsOf(carries, bytes, charge);
    hide Next, LocationInv, InOrder, Overtakes, Overtaken, MostsOf, NextAt;
    if steps == [] {
      BegunInOrder(m, limits, at);
    } else {
      var past, where, step := steps[..|steps| - 1], steps[|steps| - 1].0, steps[|steps| - 1].1;
      var before := Run(m, Initial(limits), past).value;
      ChargeFits(carries, bytes, charge);
      RunKeeps(m, limits, past, before);
      OrderedStays(m, before, where, step, n, at);
      GivenInOrderExactly(carries, bytes, charge, limits, past, before, at);
      OvertakenGrows(m, limits, steps, before, at);
    }
  }

  lemma {:induction false} ChargeFits(carries: nat, bytes: nat, charge: nat)
    ensures MostsOf(carries, bytes, charge).charge <= MostsOf(carries, bytes, charge).bytes
  {
  }

  lemma {:induction false} BegunInOrder(m: Mosts, limits: seq<Limits>, at: nat)
    requires at < |limits|
    ensures InOrder(Initial(limits).locations[at]) && !Overtaken(m, limits, [], at)
  {
  }

  lemma {:induction false} OvertakenGrows(m: Mosts, limits: seq<Limits>, steps: seq<(nat, Step)>, before: Node, at: nat)
    requires steps != [] && Run(m, Initial(limits), steps[..|steps| - 1]) == Some(before) && at < |before.locations|
    ensures Overtaken(m, limits, steps, at)
        <==> || Overtaken(m, limits, steps[..|steps| - 1], at)
             || (steps[|steps| - 1].0 == at && Overtakes(before.locations[at], steps[|steps| - 1].1))
  {
    hide Overtakes, Run;
    var past := steps[..|steps| - 1];
    forall k | 0 <= k < |past|
      ensures OvertakenAt(m, limits, past, at, k) <==> OvertakenAt(m, limits, steps, at, k)
    {
      assert past[..k] == steps[..k];
    }
    assert OvertakenAt(m, limits, steps, at, |past|)
      <==> steps[|past|].0 == at && Overtakes(before.locations[at], steps[|past|].1);
  }

  lemma {:induction false} OrderedStays(m: Mosts, n: Node, where: nat, step: Step, n': Node, at: nat)
    requires NodeInv(m, n) && NextAt(m, n, where, step) == Some(n') && at < |n'.locations| && n'.locations[at].ordered
    ensures at < |n.locations| && n.locations[at].ordered
    ensures InOrder(n'.locations[at])
        <==> InOrder(n.locations[at]) && !(where == at && Overtakes(n.locations[at], step))
  {
    hide LocationInv, Next, Places, Bytes, InOrder, Overtakes;
    if where == at {
      OrderedKept(m, n.held, n.locations[at], step, n'.locations[at], n'.held);
      OrderKeptExactly(m, n.held, n.locations[at], step, n'.locations[at], n'.held);
    }
  }

  lemma {:induction false} OrderedKept(m: Mosts, h: Held, l: Location, step: Step, l': Location, h': Held)
    requires Next(m, h, l, step) == Some((l', h'))
    ensures l'.ordered == l.ordered
  {
  }

  /**
   * An ordered Location in order so far may go out of order with the next step
   * exactly where two of its arrivals are told and their tellings not sent.
   */
  lemma {:induction false} MayGoOutOfOrderExactly(
      carries: nat, bytes: nat, charge: nat, limits: seq<Limits>, steps: seq<(nat, Step)>, n: Node, at: nat)
    requires Run(MostsOf(carries, bytes, charge), Initial(limits), steps) == Some(n)
    requires at < |n.locations| && n.locations[at].ordered && InOrder(n.locations[at])
    ensures (exists step :: GoesOutOfOrder(MostsOf(carries, bytes, charge), n, at, step))
        <==> exists i, k :: 0 <= k < i < |n.locations[at].arrivals|
               && n.locations[at].arrivals[k].Acknowledged? && n.locations[at].arrivals[i].Acknowledged?
  {
    RunKeeps(MostsOf(carries, bytes, charge), limits, steps, n);
    OutOfOrderExactly(MostsOf(carries, bytes, charge), n, at);
  }

  lemma {:induction false} OutOfOrderExactly(m: Mosts, n: Node, at: nat)
    requires NodeInv(m, n) && at < |n.locations| && n.locations[at].ordered && InOrder(n.locations[at])
    ensures (exists step :: GoesOutOfOrder(m, n, at, step))
        <==> exists i, k :: 0 <= k < i < |n.locations[at].arrivals|
               && n.locations[at].arrivals[k].Acknowledged? && n.locations[at].arrivals[i].Acknowledged?
  {
    hide LocationInv, InOrder, Next, Places, Bytes;
    var l := n.locations[at];
    if step :| GoesOutOfOrder(m, n, at, step) {
      var n' := NextAt(m, n, at, step).value;
      OrderKeptExactly(m, n.held, l, step, n'.locations[at], n'.held);
      SendIsOf(m, n.held, l, step);
    }
    if i, k :| 0 <= k < i < |l.arrivals| && l.arrivals[k].Acknowledged? && l.arrivals[i].Acknowledged? {
      MaySend(m, n.held, l, i);
      var n' := NextAt(m, n, at, Send(i)).value;
      OrderKeptExactly(m, n.held, l, Send(i), n'.locations[at], n'.held);
      assert Overtakes(l, Send(i));
      assert GoesOutOfOrder(m, n, at, Send(i));
    }
  }

  lemma {:induction false} SendIsOf(m: Mosts, h: Held, l: Location, step: Step)
    requires Next(m, h, l, step).Some?
    ensures step.Send? ==> Is(l, step.arrival, Acknowledged)
  {
  }

  lemma {:induction false} MaySend(m: Mosts, h: Held, l: Location, i: nat)
    requires Is(l, i, Acknowledged)
    ensures Next(m, h, l, Send(i)).Some?
  {
  }

  ghost predicate GoesOutOfOrder(m: Mosts, n: Node, at: nat, step: Step) {
    at < |n.locations|
    && var n' := NextAt(m, n, at, step);
      n'.Some? && !InOrder(n'.value.locations[at])
  }

  lemma {:induction false} RunsOn(m: Mosts, limits: seq<Limits>, steps: seq<(nat, Step)>, n: Node, next: (nat, Step), n': Node)
    requires Run(m, Initial(limits), steps) == Some(n) && NextAt(m, n, next.0, next.1) == Some(n')
    ensures Run(m, Initial(limits), steps + [next]) == Some(n')
  {
    assert (steps + [next])[..|steps|] == steps;
  }

  const TWO_AT_ONCE := [Limits(true, 2)]

  const TWO_CARRIES := Mosts(2, 2, 1)

  /** Reached: the one Location of an ordered transport, by `steps`. */
  predicate Reaches(steps: seq<(nat, Step)>, h: Held, l: Location) {
    Run(TWO_CARRIES, Initial(TWO_AT_ONCE), steps) == Some(Node(h, [l]))
  }

  lemma {:induction false} Onward(steps: seq<(nat, Step)>, h: Held, l: Location, step: Step)
    returns (h': Held, l': Location, steps': seq<(nat, Step)>)
    requires Reaches(steps, h, l) && Next(TWO_CARRIES, h, l, step).Some?
    ensures Next(TWO_CARRIES, h, l, step) == Some((l', h')) && Reaches(steps', h', l')
  {
    hide Next;
    var next := Next(TWO_CARRIES, h, l, step).value;
    l', h' := next.0, next.1;
    steps' := steps + [(0, step)];
    assert [l][0 := l'] == [l'];
    RunsOn(TWO_CARRIES, TWO_AT_ONCE, steps, Node(h, [l]), (0, step), Node(h', [l']));
  }

  const TWO_RECEIVED := Location(
    true, Pools.State(2, Pools.Locked([], 1, 0, false), 0, 1, multiset{}, 0, 0, 0, false, [], []), [], 0, Handing(2, 2), 2, [], [])

  const ONE_HANDED := Location(
    true, Pools.State(2, Pools.Locked([0], 2, 0, false), 0, 2, multiset{}, 0, 0, 0, false, [0], []), [Queued], 0, Handing(1, 1), 2, [], [])

  /** Both arrivals of one ordered receive handed over, and both threads of its Location at the queue. */
  const TWO_HANDED := ONE_HANDED.(
    pool := Pools.State(2, Pools.Locked([0, 1], 2, 0, false), 0, 2, multiset{}, 0, 0, 0, false, [0, 1], []),
    arrivals := [Queued, Queued], loop := Handing(0, 0))

  /** Each on a thread of its own. */
  const TWO_STARTED := TWO_HANDED.(
    pool := Pools.State(2, Pools.Locked([], 2, 0, false), 0, 0, multiset{0, 1}, 0, 0, 0, false, [0, 1], [0, 1]),
    arrivals := [Started, Started])

  lemma {:induction false} TwoAreReceived() returns (steps: seq<(nat, Step)>)
    ensures Reaches(steps, Held(2, 0), TWO_RECEIVED)
  {
    var l, h := Begun(TWO_AT_ONCE[0]), Held(0, 0);
    steps := [];
    assert Reaches(steps, h, l) by {
      assert Initial(TWO_AT_ONCE).locations == [l];
    }
    hide Reaches;
    h, l, steps := Onward(steps, h, l, Threads(Pools.Spawned));
    h, l, steps := Onward(steps, h, l, Ask);
    h, l, steps := Onward(steps, h, l, Receive(2));
    assert l == TWO_RECEIVED;
  }

  lemma {:induction false} OneIsHanded() returns (steps: seq<(nat, Step)>)
    ensures Reaches(steps, Held(2, 0), ONE_HANDED)
  {
    hide Reaches;
    steps := TwoAreReceived();
    var l, h := TWO_RECEIVED, Held(2, 0);
    h, l, steps := Onward(steps, h, l, Hand);
    h, l, steps := Onward(steps, h, l, Threads(Pools.Notify));
    h, l, steps := Onward(steps, h, l, Threads(Pools.Spawned));
    assert l == ONE_HANDED;
  }

  lemma {:induction false} TwoAreHanded() returns (steps: seq<(nat, Step)>)
    ensures Reaches(steps, Held(2, 0), TWO_HANDED)
  {
    hide Reaches;
    steps := OneIsHanded();
    var l, h := ONE_HANDED, Held(2, 0);
    h, l, steps := Onward(steps, h, l, Hand);
    h, l, steps := Onward(steps, h, l, Threads(Pools.Notify));
    assert l == TWO_HANDED;
  }

  lemma {:induction false} ThreadsStart(p: Pools.State)
    requires p.awake > 0 && p.lock.threads > 0 && p.lock.queued != []
    ensures Pools.Next(p, Pools.EnterAwake) == Some(
      p.(awake := p.awake - 1, lock := p.lock.(queued := p.lock.queued[1..]),
         running := p.running + multiset{p.lock.queued[0]}, started := p.started + [p.lock.queued[0]]))
  {
  }

  lemma {:induction false} TwoStart() returns (steps: seq<(nat, Step)>)
    ensures Reaches(steps, Held(2, 0), TWO_STARTED)
  {
    hide Reaches, Pools.Next;
    steps := TwoAreHanded();
    var l, h := TWO_HANDED, Held(2, 0);
    ThreadsStart(l.pool);
    h, l, steps := Onward(steps, h, l, Threads(Pools.EnterAwake));
    ThreadsStart(l.pool);
    h, l, steps := Onward(steps, h, l, Threads(Pools.EnterAwake));
    assert l == TWO_STARTED;
  }

  lemma {:induction false} CarriedThrough(steps: seq<(nat, Step)>, h: Held, l: Location, i: nat) returns (steps': seq<(nat, Step)>)
    requires Reaches(steps, h, l) && Is(l, i, Started) && h.bytes == 0
    ensures Reaches(steps', h, l.(arrivals := l.arrivals[i := Carried]))
  {
    hide Reaches;
    var h', l', steps1 := Onward(steps, h, l, TakeBytes(i));
    h', l', steps' := Onward(steps1, h', l', LetBytes(i));
    assert l'.arrivals == l.arrivals[i := Carried];
  }

  lemma {:induction false} SecondSentFirst(steps: seq<(nat, Step)>, h: Held, l: Location)
    returns (steps': seq<(nat, Step)>, l': Location)
    requires Reaches(steps, h, l) && l.ordered && l.arrivals == [Carried, Carried] && l.turn == 0 && l.channel == []
    ensures Reaches(steps', h, l') && l'.ordered && l'.turn == 2 && l'.channel == [1, 0]
    ensures l'.count == l.count && l'.each == l.each && l'.loop == l.loop && l'.pool == l.pool && |l'.arrivals| == 2
  {
    hide Reaches;
    var h';
    h', l', steps' := Onward(steps, h, l, Acknowledge(0));
    h', l', steps' := Onward(steps', h', l', Acknowledge(1));
    h', l', steps' := Onward(steps', h', l', Send(1));
    h', l', steps' := Onward(steps', h', l', Send(0));
  }

  /**
   * The loop of an ordered Location may be given a later arrival first: two of one
   * receive are told in order, and the second's telling is sent before the first's,
   * every thread started and told of its work by then.
   */
  lemma {:induction false} ALaterArrivalIsGivenFirst() returns (steps: seq<(nat, Step)>, h: Held, l: Location)
    ensures Reaches(steps, h, l) && l.ordered && |l.arrivals| == l.turn == 2 && l.each == [1, 0]
    ensures l.pool.notices == l.pool.spawning == 0
  {
    hide Reaches;
    h, l := Held(2, 0), TWO_STARTED;
    steps := TwoStart();
    steps := CarriedThrough(steps, h, l, 0);
    l := l.(arrivals := l.arrivals[0 := Carried]);
    steps := CarriedThrough(steps, h, l, 1);
    l := l.(arrivals := l.arrivals[1 := Carried]);
    steps, l := SecondSentFirst(steps, h, l);
    h, l, steps := Onward(steps, h, l, Handed);
    h, l, steps := Onward(steps, h, l, Settle);
    h, l, steps := Onward(steps, h, l, Settle);
  }

  // ---- What an Ask waits for ----

  function AllLoopPlaces(locations: seq<Location>): seq<nat> {
    seq(|locations|, i requires 0 <= i < |locations| => LoopPlaces(locations[i].loop))
  }

  function AllPlaced(locations: seq<Location>): seq<nat> {
    seq(|locations|, i requires 0 <= i < |locations| => Weigh(PLACED, locations[i].arrivals))
  }

  /**
   * A loop that may ask waits exactly where the loops' own places and the
   * arrivals' together are every place there is: with every arrival's place let
   * go, exactly where the loops asking, handing over and resting hold them all.
   */
  lemma {:induction false} AskWaitsExactly(
      carries: nat, bytes: nat, charge: nat, limits: seq<Limits>, steps: seq<(nat, Step)>, n: Node, at: nat)
    requires Run(MostsOf(carries, bytes, charge), Initial(limits), steps) == Some(n)
    requires at < |n.locations| && n.locations[at].loop.Idle? && n.locations[at].count <= Busy(n.locations[at])
    ensures NextAt(MostsOf(carries, bytes, charge), n, at, Ask).None?
        <==> Sum(AllLoopPlaces(n.locations)) + Sum(AllPlaced(n.locations)) == Max(carries, 1)
    ensures (forall l, i :: 0 <= l < |n.locations| && 0 <= i < |n.locations[l].arrivals| ==> n.locations[l].arrivals[i].Done?)
        ==> Sum(AllPlaced(n.locations)) == 0
  {
    hide LocationInv, Places, Bytes;
    RunKeeps(MostsOf(carries, bytes, charge), limits, steps, n);
    PlacesAreLoopsAndArrivals(n.locations);
    AskMay(MostsOf(carries, bytes, charge), n.held, n.locations[at]);
    if forall l, i :: 0 <= l < |n.locations| && 0 <= i < |n.locations[l].arrivals| ==> n.locations[l].arrivals[i].Done? {
      forall l | 0 <= l < |n.locations| ensures Weigh(PLACED, n.locations[l].arrivals) == 0 {
        WeighNothing(PLACED, n.locations[l].arrivals);
      }
      assert AllPlaced(n.locations) == seq(|n.locations|, _ => 0);
      Budgets.SumOfNothing(|n.locations|);
    }
  }

  lemma {:induction false} AskMay(m: Mosts, h: Held, l: Location)
    requires l.loop.Idle? && l.count <= Busy(l)
    ensures Next(m, h, l, Ask).None? <==> h.carries >= m.carries
  {
  }

  lemma {:induction false} PlacesAreLoopsAndArrivals(locations: seq<Location>)
    ensures Sum(AllPlaces(locations)) == Sum(AllLoopPlaces(locations)) + Sum(AllPlaced(locations))
  {
    if locations != [] {
      PlacesAreLoopsAndArrivals(locations[1..]);
      assert AllPlaces(locations)[1..] == AllPlaces(locations[1..]);
      assert AllLoopPlaces(locations)[1..] == AllLoopPlaces(locations[1..]);
      assert AllPlaced(locations)[1..] == AllPlaced(locations[1..]);
    }
  }

  /**
   * A Location whose receive found nothing keeps its places while it rests: on a
   * node of one place another Location waits to ask, with nothing arrived at all.
   */
  lemma {:induction false} ARestHoldsBackAnother() returns (steps: seq<(nat, Step)>, n: Node)
    ensures Run(MostsOf(1, 1, 1), Initial([Limits(false, 1), Limits(false, 1)]), steps) == Some(n)
    ensures |n.locations| == 2 && Sum(AllUntold(n.locations)) == 0 && n.locations[0].loop == Resting(1)
    ensures n.locations[1].loop.Idle? && NextAt(MostsOf(1, 1, 1), n, 1, Ask).None?
  {
    var m, limits := MostsOf(1, 1, 1), [Limits(false, 1), Limits(false, 1)];
    var n0 := Initial(limits);
    assert Run(m, n0, []) == Some(n0);
    var n1 := NextAt(m, n0, 0, Ask).value;
    RunsOn(m, limits, [], n0, (0, Ask), n1);
    n := NextAt(m, n1, 0, Receive(0)).value;
    steps := [] + [(0, Ask)] + [(0, Receive(0))];
    RunsOn(m, limits, [(0, Ask)], n1, (0, Receive(0)), n);
    assert [] + [(0, Ask)] == [(0, Ask)];
    assert AllUntold(n.locations) == seq(2, _ => 0);
    Budgets.SumOfNothing(2);
  }

  // ---- Every arrival is told ----

  /** A step an arrival takes towards being told and let go of: neither the transport's nor the loop's. */
  predicate IsArrivalStep(step: Step) {
    || step.Hand? || step.TakeBytes? || step.LetBytes? || step.Acknowledge? || step.Send? || step.LetPlace?
    || (step.Threads? && Pools.IsProgress(step.pool))
  }

  /** What a Location's arrivals have left to do. */
  function Rank(l: Location): nat {
    14 * LoopLeft(l.loop) + Pools.Left(l.pool) + Weigh(RANKED, l.arrivals)
  }

  function Ranks(locations: seq<Location>): seq<nat> {
    seq(|locations|, i requires 0 <= i < |locations| => Rank(locations[i]))
  }

  lemma {:induction false} ArrivalStepRanksLower(m: Mosts, h: Held, l: Location, step: Step, l': Location, h': Held)
    requires LocationInv(l) && Next(m, h, l, step) == Some((l', h')) && IsArrivalStep(step)
    ensures Rank(l') < Rank(l)
  {
    match step
    case Hand => HandRanksLower(m, h, l, l', h');
    case Threads(pool) => ThreadRanksLower(m, h, l, pool, l', h');
    case LetPlace(i) =>
      WeighUpdate(RANKED, l.arrivals, i, Done);
      Pools.ProgressTakesFromLeft(l.pool, Pools.Finish(i), l'.pool);
    case _ => PhaseRanksLower(m, h, l, step, l', h');
  }

  lemma {:induction false} HandRanksLower(m: Mosts, h: Held, l: Location, l': Location, h': Held)
    requires Next(m, h, l, Hand) == Some((l', h'))
    ensures Rank(l') < Rank(l)
  {
    WeighAppend(RANKED, l.arrivals, Queued);
    assert Pools.Left(l'.pool) <= Pools.Left(l.pool) + 7;
  }

  lemma {:induction false} ThreadRanksLower(m: Mosts, h: Held, l: Location, step: Pools.Step, l': Location, h': Held)
    requires PoolAgrees(l) && Next(m, h, l, Threads(step)) == Some((l', h')) && Pools.IsProgress(step)
    ensures Rank(l') < Rank(l)
  {
    hide Pools.Inv, Pools.Next, Pools.Left;
    Pools.ProgressTakesFromLeft(l.pool, step, l'.pool);
    PoolStepStarts(l.pool, step, l'.pool);
    if l'.pool.started != l.pool.started {
      WeighUpdate(RANKED, l.arrivals, |l.pool.started|, Started);
    }
  }

  lemma {:induction false} PhaseRanksLower(m: Mosts, h: Held, l: Location, step: Step, l': Location, h': Held)
    requires Next(m, h, l, step) == Some((l', h'))
    requires step.TakeBytes? || step.LetBytes? || step.Acknowledge? || step.Send?
    ensures Rank(l') < Rank(l)
  {
    WeighUpdate(RANKED, l.arrivals, step.arrival, l'.arrivals[step.arrival]);
  }

  /** A Location with something untold and none of it held up by bytes has a step to take. */
  lemma {:induction false} LocationGoesOn(m: Mosts, h: Held, l: Location) returns (step: Step)
    requires LocationInv(l) && Untold(l) > 0 && Places(l) <= h.carries
    requires forall i :: 0 <= i < |l.arrivals| ==> !l.arrivals[i].Started? && !l.arrivals[i].Carrying?
    ensures IsArrivalStep(step) && Next(m, h, l, step).Some?
  {
    if LoopLeft(l.loop) > 0 {
      step := Hand;
    } else {
      hide InTurn, PoolAgrees, SentOnce, Next, IsArrivalStep;
      WeighNothing(UNTOLD, l.arrivals);
      var i: nat :| i < |l.arrivals| && Weight(UNTOLD, l.arrivals[i]) > 0;
      if l.arrivals[i].Queued? {
        step := QueuedGoesOn(m, h, l, i);
      } else {
        step := ActiveGoesOn(m, h, l, i);
      }
    }
  }

  /** An arrival on a thread, carried and told or not, lets one go on. */
  lemma {:induction false} ActiveGoesOn(m: Mosts, h: Held, l: Location, i: nat) returns (step: Step)
    requires LocationInv(l) && Places(l) <= h.carries && i < |l.arrivals| && Active(l.arrivals[i])
    requires forall k :: 0 <= k < |l.arrivals| ==> !l.arrivals[k].Started? && !l.arrivals[k].Carrying?
    ensures IsArrivalStep(step) && Next(m, h, l, step).Some?
  {
    hide InTurn, SentOnce;
    if l.arrivals[i].Told? {
      step := LetPlace(i);
      WeighUpdate(PLACED, l.arrivals, i, Done);
    } else if l.arrivals[i].Acknowledged? {
      step := Send(i);
    } else {
      step := TellerGoesOn(m, h, l, i);
    }
  }

  /** An arrival the pool has not started lets the pool go on, or one it runs. */
  lemma {:induction false} QueuedGoesOn(m: Mosts, h: Held, l: Location, i: nat) returns (step: Step)
    requires LocationInv(l) && Places(l) <= h.carries && Is(l, i, Queued)
    requires forall k :: 0 <= k < |l.arrivals| ==> !l.arrivals[k].Started? && !l.arrivals[k].Carrying?
    ensures IsArrivalStep(step) && Next(m, h, l, step).Some?
  {
    hide InTurn, SentOnce;
    var thread := PoolGoesOn(l, i);
    if thread.Finish? {
      step := ActiveGoesOn(m, h, l, thread.work);
    } else {
      step := Threads(thread);
    }
  }

  lemma {:induction false} PoolGoesOn(l: Location, i: nat) returns (thread: Pools.Step)
    requires PoolAgrees(l) && Is(l, i, Queued)
    ensures Pools.IsProgress(thread) && Pools.Next(l.pool, thread).Some?
    ensures thread.Finish? ==> thread.work < |l.arrivals| && Active(l.arrivals[thread.work])
  {
    assert |l.pool.lock.queued| > 0;
    thread := Pools.NeverStranded(l.pool);
  }

  /** Of ordered arrivals carried and waiting to tell, the one whose turn it is can: it was started first. */
  lemma {:induction false} TellerGoesOn(m: Mosts, h: Held, l: Location, i: nat) returns (step: Step)
    requires LocationInv(l) && Is(l, i, Carried)
    requires forall k :: 0 <= k < |l.arrivals| ==> !l.arrivals[k].Started? && !l.arrivals[k].Carrying?
    ensures IsArrivalStep(step) && Next(m, h, l, step).Some?
  {
    if l.ordered {
      assert l.turn <= i < |l.pool.started|;
      assert !IsTold(l.arrivals[l.turn]) && !l.arrivals[l.turn].Queued?;
      step := Acknowledge(l.turn);
    } else {
      step := Acknowledge(i);
    }
  }

  /**
   * The receive engine never deadlocks: whatever the Locations, their pools and
   * their budgets, in every reachable state with an arrival not told some arrival
   * has a step to take.
   */
  lemma {:induction false} NeverDeadlocks(
      carries: nat, bytes: nat, charge: nat, limits: seq<Limits>, steps: seq<(nat, Step)>, n: Node)
    returns (at: nat, step: Step)
    requires Run(MostsOf(carries, bytes, charge), Initial(limits), steps) == Some(n)
    requires Sum(AllUntold(n.locations)) > 0
    ensures IsArrivalStep(step) && NextAt(MostsOf(carries, bytes, charge), n, at, step).Some?
  {
    var m := MostsOf(carries, bytes, charge);
    RunKeeps(m, limits, steps, n);
    at, step := GoesOn(m, n);
  }

  lemma {:induction false} GoesOn(m: Mosts, n: Node) returns (at: nat, step: Step)
    requires NodeInv(m, n) && Sum(AllUntold(n.locations)) > 0
    ensures IsArrivalStep(step) && NextAt(m, n, at, step).Some?
  {
    hide LocationInv, Next, Untold, Places, Bytes;
    if l, i :| 0 <= l < |n.locations| && 0 <= i < |n.locations[l].arrivals| && n.locations[l].arrivals[i].Carrying? {
      at, step := l, LetBytes(i);
      SumElement(AllBytes(m, n.locations), l);
      CarryingGoesOn(m, n.held, n.locations[l], i);
    } else {
      NothingCarried(m, n);
      if l, i :| 0 <= l < |n.locations| && 0 <= i < |n.locations[l].arrivals| && n.locations[l].arrivals[i].Started? {
        at, step := l, TakeBytes(i);
        StartedGoesOn(m, n.held, n.locations[l], i);
      } else {
        at := SumPositive(AllUntold(n.locations));
        SumElement(AllPlaces(n.locations), at);
        step := LocationGoesOn(m, n.held, n.locations[at]);
      }
    }
  }

  lemma {:induction false} CarryingGoesOn(m: Mosts, h: Held, l: Location, i: nat)
    requires Is(l, i, Carrying) && Bytes(m, l) <= h.bytes
    ensures Next(m, h, l, LetBytes(i)).Some?
  {
    WeighUpdate(BytesOf(m.charge), l.arrivals, i, Carried);
  }

  lemma {:induction false} StartedGoesOn(m: Mosts, h: Held, l: Location, i: nat)
    requires Is(l, i, Started) && h.bytes == 0
    ensures Next(m, h, l, TakeBytes(i)).Some?
  {
  }

  lemma {:induction false} NothingCarried(m: Mosts, n: Node)
    requires NodeInv(m, n)
    requires forall l, i :: 0 <= l < |n.locations| && 0 <= i < |n.locations[l].arrivals| ==> !n.locations[l].arrivals[i].Carrying?
    ensures n.held.bytes == 0
  {
    forall l | 0 <= l < |n.locations| ensures Bytes(m, n.locations[l]) == 0 {
      WeighNothing(BytesOf(m.charge), n.locations[l].arrivals);
    }
    assert AllBytes(m, n.locations) == seq(|n.locations|, _ => 0);
    Budgets.SumOfNothing(|n.locations|);
  }

  lemma {:induction false} SumPositive(s: seq<nat>) returns (i: nat)
    requires Sum(s) > 0
    ensures i < |s| && s[i] > 0
  {
    if s[0] > 0 {
      i := 0;
    } else {
      var rest := SumPositive(s[1..]);
      i := rest + 1;
    }
  }

  /** No arrival anywhere has a step to take. */
  ghost predicate Settled(m: Mosts, n: Node) {
    forall at: nat, step :: IsArrivalStep(step) ==> NextAt(m, n, at, step).None?
  }

  /**
   * Every arrival is told: from any reachable state the arrivals take at most
   * so many steps, whatever their order, and where none can take another, each
   * that was handed over has been told.
   */
  lemma {:induction false} EveryArrivalIsTold(
      carries: nat, bytes: nat, charge: nat, limits: seq<Limits>, reached: seq<(nat, Step)>, n: Node,
      steps: seq<(nat, Step)>, n': Node)
    requires Run(MostsOf(carries, bytes, charge), Initial(limits), reached) == Some(n)
    requires Run(MostsOf(carries, bytes, charge), n, steps) == Some(n')
    requires forall k :: 0 <= k < |steps| ==> IsArrivalStep(steps[k].1)
    ensures |steps| + Sum(Ranks(n'.locations)) <= Sum(Ranks(n.locations))
    ensures Settled(MostsOf(carries, bytes, charge), n') ==> Sum(AllUntold(n'.locations)) == 0
  {
    RunKeeps(MostsOf(carries, bytes, charge), limits, reached, n);
    ArrivalsDrain(MostsOf(carries, bytes, charge), n, steps, n');
  }

  lemma {:induction false} ArrivalsDrain(m: Mosts, n: Node, steps: seq<(nat, Step)>, n': Node)
    requires NodeInv(m, n) && Run(m, n, steps) == Some(n')
    requires forall k :: 0 <= k < |steps| ==> IsArrivalStep(steps[k].1)
    ensures NodeInv(m, n') && |steps| + Sum(Ranks(n'.locations)) <= Sum(Ranks(n.locations))
    ensures Settled(m, n') ==> Sum(AllUntold(n'.locations)) == 0
  {
    if steps != [] {
      var (at, step) := steps[|steps| - 1];
      var before := Run(m, n, steps[..|steps| - 1]).value;
      ArrivalsDrain(m, n, steps[..|steps| - 1], before);
      ArrivalStepTakes(m, before, at, step, n');
    }
    if Sum(AllUntold(n'.locations)) > 0 {
      var at, step := GoesOn(m, n');
      assert !Settled(m, n');
    }
  }

  lemma {:induction false} ArrivalStepTakes(m: Mosts, n: Node, at: nat, step: Step, n': Node)
    requires NodeInv(m, n) && NextAt(m, n, at, step) == Some(n') && IsArrivalStep(step)
    ensures NodeInv(m, n') && Sum(Ranks(n'.locations)) < Sum(Ranks(n.locations))
  {
    hide NodeInv, LocationInv, Next, Rank;
    ArrivalStepAt(m, n, at, step, n');
    assert Ranks(n'.locations) == Ranks(n.locations)[at := Rank(n'.locations[at])];
    SumUpdate(Ranks(n.locations), at, Rank(n'.locations[at]));
  }

  lemma {:induction false} ArrivalStepAt(m: Mosts, n: Node, at: nat, step: Step, n': Node)
    requires NodeInv(m, n) && NextAt(m, n, at, step) == Some(n') && IsArrivalStep(step)
    ensures NodeInv(m, n') && |n'.locations| == |n.locations| && at < |n.locations|
    ensures n'.locations == n.locations[at := n'.locations[at]] && Rank(n'.locations[at]) < Rank(n.locations[at])
  {
    hide LocationInv, Next, Rank, Places, Bytes;
    NextAtKeeps(m, n, at, step, n');
    ArrivalStepRanksLower(m, n.held, n.locations[at], step, n'.locations[at], n'.held);
  }
}
