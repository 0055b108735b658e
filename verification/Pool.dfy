/**
 * The dynamic, bounded pool of threads (src/pool.rs). What its lock guards is
 * changed in whole sections; between them a thread is being started, awake,
 * running a piece, asleep on the wake, or woken and not yet back at the lock.
 * Threads are alike, so each place is a count of them.
 */
module Pools {
  import opened Wrappers
  import opened Sums

  /** A piece of work, known by a name of its own. */
  type Work = nat

  /** What the pool's lock guards. */
  datatype Locked = Locked(queued: seq<Work>, threads: nat, waiting: nat, closed: bool)

  /** How a thread comes to the lock: from outside, or out of its wait. */
  datatype Coming = Fresh | OutOfWait(timedOut: bool)

  /** How it leaves it again. */
  datatype Going = Takes(work: Work) | Sleeps | Ends

  /** `run`'s section: the piece queued, and whether a thread is started for it. */
  function Pushed(l: Locked, most: nat, work: Work): (Locked, bool) {
    var queued := l.queued + [work];
    var start := |queued| > l.waiting && l.threads < most;
    (l.(queued := queued, threads := if start then l.threads + 1 else l.threads), start)
  }

  /** One section of `serve`: from taking the lock until it runs a piece, waits or ends. */
  function Served(l: Locked, coming: Coming): (Locked, Going)
    requires l.threads > 0 && (coming.OutOfWait? ==> l.waiting > 0)
  {
    var l := if coming.OutOfWait? then l.(waiting := l.waiting - 1) else l;
    if coming.OutOfWait? && coming.timedOut && l.queued == [] && l.threads > 1 then
      (l.(threads := l.threads - 1), Ends)
    else if l.queued != [] then
      (l.(queued := l.queued[1..]), Takes(l.queued[0]))
    else if l.closed then
      (l.(threads := l.threads - 1), Ends)
    else
      (l.(waiting := l.waiting + 1), Sleeps)
  }

  datatype State = State(
    most: nat,
    lock: Locked,
    spawning: nat,
    awake: nat,
    running: multiset<Work>,
    asleep: nat,
    woken: nat,
    /** Wakes of one thread owed by a `run` that has let go of the lock. */
    notices: nat,
    /** The wake of every thread the drop owes. */
    broadcast: bool,
    submitted: seq<Work>,
    started: seq<Work>)

  datatype Step =
    | Run(work: Work)
    | Close
    | Notify
    | Broadcast
    | Spawned
    | EnterAwake
    | EnterWoken(timedOut: bool)
    /** A wait that ran out, or ended of itself. */
    | EnterAsleep(timedOut: bool)
    | Finish(work: Work)

  function Initial(most: nat): State {
    State(Max(most, 1), Locked([], 1, 0, false), 1, 0, multiset{}, 0, 0, 0, false, [], [])
  }

  function Next(s: State, step: Step): Option<State> {
    match step
    case Run(work) =>
      if s.lock.closed then None else
      var (lock, start) := Pushed(s.lock, s.most, work);
      Some(s.(lock := lock, spawning := if start then s.spawning + 1 else s.spawning,
              notices := s.notices + 1, submitted := s.submitted + [work]))
    case Close =>
      if s.lock.closed then None
      else Some(s.(lock := s.lock.(closed := true), broadcast := true))
    case Notify =>
      if s.notices == 0 then None
      else if s.asleep == 0 then Some(s.(notices := s.notices - 1))
      else Some(s.(notices := s.notices - 1, asleep := s.asleep - 1, woken := s.woken + 1))
    case Broadcast =>
      if !s.broadcast then None
      else Some(s.(broadcast := false, asleep := 0, woken := s.woken + s.asleep))
    case Spawned =>
      if s.spawning == 0 then None else Some(s.(spawning := s.spawning - 1, awake := s.awake + 1))
    case EnterAwake =>
      if s.awake == 0 then None else Entered(s.(awake := s.awake - 1), Fresh)
    case EnterWoken(timedOut) =>
      if s.woken == 0 then None else Entered(s.(woken := s.woken - 1), OutOfWait(timedOut))
    case EnterAsleep(timedOut) =>
      if s.asleep == 0 then None else Entered(s.(asleep := s.asleep - 1), OutOfWait(timedOut))
    case Finish(work) =>
      if work !in s.running then None
      else Some(s.(running := s.running - multiset{work}, awake := s.awake + 1))
  }

  function Entered(s: State, coming: Coming): Option<State> {
    if s.lock.threads == 0 || (coming.OutOfWait? && s.lock.waiting == 0) then None else
    var (lock, going) := Served(s.lock, coming);
    Some(match going
         case Takes(work) => s.(lock := lock, running := s.running + multiset{work}, started := s.started + [work])
         case Sleeps => s.(lock := lock, asleep := s.asleep + 1)
         case Ends => s.(lock := lock))
  }

  function RunOf(s: State, steps: seq<Step>): Option<State> {
    if steps == [] then Some(s)
    else match RunOf(s, steps[..|steps| - 1])
      case None => None
      case Some(t) => Next(t, steps[|steps| - 1])
  }

  ghost predicate Counted(s: State) {
    && s.lock.threads == s.spawning + s.awake + |s.running| + s.asleep + s.woken
    && s.lock.waiting == s.asleep + s.woken
    && 1 <= s.most && s.lock.threads <= s.most
    && (!s.lock.closed ==> 1 <= s.lock.threads)
    && (s.lock.threads == 0 ==> s.lock.queued == [])
    && (s.broadcast ==> s.lock.closed)
    && (s.lock.closed && !s.broadcast ==> s.asleep == 0)
  }

  /** Work waits on no thread that could be there: every piece has a thread coming for it, or the pool is at its most. */
  ghost predicate Manned(s: State) {
    |s.lock.queued| <= s.lock.waiting + s.awake + s.spawning || s.lock.threads == s.most
  }

  /** While any thread sleeps, every piece queued has a wake or a thread on its way. */
  ghost predicate Supplied(s: State) {
    s.asleep > 0 ==> |s.lock.queued| <= s.notices + s.woken + s.awake + s.spawning
  }

  ghost predicate Inv(s: State) {
    Counted(s) && Manned(s) && Supplied(s) && s.submitted == s.started + s.lock.queued
  }

  lemma {:induction false} NextKeepsInv(s: State, step: Step, t: State)
    requires Inv(s) && Next(s, step) == Some(t)
    ensures Inv(t) && t.most == s.most
  {
    hide Inv, Entered;
    match step
    case EnterAwake => EnteringKeepsInv(s, s.(awake := s.awake - 1), Fresh, t);
    case EnterWoken(timedOut) => EnteringKeepsInv(s, s.(woken := s.woken - 1), OutOfWait(timedOut), t);
    case EnterAsleep(timedOut) => EnteringKeepsInv(s, s.(asleep := s.asleep - 1), OutOfWait(timedOut), t);
    case Run(work) => PushingKeepsInv(s, work, t);
    case _ => WakingKeepsInv(s, step, t);
  }

  lemma {:induction false} WakingKeepsInv(s: State, step: Step, t: State)
    requires Inv(s) && Next(s, step) == Some(t)
    requires step.Close? || step.Notify? || step.Broadcast? || step.Spawned? || step.Finish?
    ensures Inv(t) && t.most == s.most
  {
  }

  lemma {:induction false} PushingKeepsInv(s: State, work: Work, t: State)
    requires Inv(s) && Next(s, Run(work)) == Some(t)
    ensures Inv(t) && t.most == s.most
  {
    assert t.lock.queued == s.lock.queued + [work];
    assert t.submitted == t.started + t.lock.queued;
  }

  /** A thread at the lock, `at` being `s` but for the place the thread left to come there. */
  lemma {:induction false} EnteringKeepsInv(s: State, at: State, coming: Coming, t: State)
    requires Inv(s) && Entered(at, coming) == Some(t)
    requires || (coming == Fresh && s.awake > 0 && at == s.(awake := s.awake - 1))
             || (coming.OutOfWait? && s.woken > 0 && at == s.(woken := s.woken - 1))
             || (coming.OutOfWait? && s.asleep > 0 && at == s.(asleep := s.asleep - 1))
    ensures Inv(t) && t.most == s.most
  {
    hide Counted, Manned, Supplied;
    CountsKept(s, at, coming, t);
    SupplyKept(s, at, coming, t);
    OrderKept(s, at, coming, t);
  }

  lemma {:induction false} OrderKept(s: State, at: State, coming: Coming, t: State)
    requires s.submitted == s.started + s.lock.queued && Entered(at, coming) == Some(t)
    requires at.submitted == s.submitted && at.started == s.started && at.lock == s.lock
    ensures t.submitted == t.started + t.lock.queued && t.most == at.most
  {
    if s.lock.queued != [] {
      assert s.lock.queued == [s.lock.queued[0]] + s.lock.queued[1..];
    }
  }

  lemma {:induction false} SupplyKept(s: State, at: State, coming: Coming, t: State)
    requires Counted(s) && Manned(s) && Supplied(s) && Entered(at, coming) == Some(t)
    requires || (coming == Fresh && s.awake > 0 && at == s.(awake := s.awake - 1))
             || (coming.OutOfWait? && s.woken > 0 && at == s.(woken := s.woken - 1))
             || (coming.OutOfWait? && s.asleep > 0 && at == s.(asleep := s.asleep - 1))
    ensures Manned(t) && Supplied(t)
  {
    if s.lock.queued != [] {
      assert |s.lock.queued[1..]| == |s.lock.queued| - 1;
    }
  }

  lemma {:induction false} CountsKept(s: State, at: State, coming: Coming, t: State)
    requires Counted(s) && Entered(at, coming) == Some(t)
    requires || (coming == Fresh && s.awake > 0 && at == s.(awake := s.awake - 1))
             || (coming.OutOfWait? && s.woken > 0 && at == s.(woken := s.woken - 1))
             || (coming.OutOfWait? && s.asleep > 0 && at == s.(asleep := s.asleep - 1))
    ensures Counted(t)
  {
    if s.lock.queued != [] {
      assert |t.running| == |s.running| + 1;
    } else {
      assert t.running == s.running;
    }
  }

  /** In every reachable state of a pool: its counts, its bounds, the supply of wakes and the order of its pieces. */
  lemma {:induction false} EveryRunKeepsInv(most: nat, steps: seq<Step>, s: State)
    requires RunOf(Initial(most), steps) == Some(s)
    ensures Inv(s) && s.most == Max(most, 1)
  {
    if steps != [] {
      var before := RunOf(Initial(most), steps[..|steps| - 1]).value;
      EveryRunKeepsInv(most, steps[..|steps| - 1], before);
      NextKeepsInv(before, steps[|steps| - 1], s);
    }
  }

  /** Pieces start in the order they were given, each once, none skipped. */
  lemma {:induction false} StartsInOrder(most: nat, steps: seq<Step>, s: State)
    requires RunOf(Initial(most), steps) == Some(s)
    ensures s.started <= s.submitted && s.submitted[|s.started|..] == s.lock.queued
    ensures s.lock.threads == 0 ==> s.started == s.submitted
    ensures !s.lock.closed ==> 1 <= s.lock.threads <= Max(most, 1)
  {
    EveryRunKeepsInv(most, steps, s);
  }

  /** A step the pool takes by itself on its way to the work queued. */
  predicate IsProgress(step: Step) {
    step.Notify? || step.Spawned? || step.EnterAwake? || step.EnterWoken? || step.Finish?
  }

  /** What the pool has left to do by itself: each of its own steps takes from it. */
  function Left(s: State): nat {
    3 * |s.lock.queued| + 2 * s.spawning + s.awake + 2 * |s.running| + s.woken + 2 * s.notices
    + if s.lock.closed then 2 * s.asleep + (if s.broadcast then 1 else 0) else 0
  }

  /** Work queued is never stranded: some thread is on its way to it, and every step of one brings it nearer. */
  lemma {:induction false} NeverStranded(s: State) returns (step: Step)
    requires Inv(s) && s.lock.queued != []
    ensures IsProgress(step) && Next(s, step).Some?
  {
    if s.spawning > 0 {
      step := Spawned;
    } else if s.awake > 0 {
      step := EnterAwake;
    } else if s.woken > 0 {
      step := EnterWoken(false);
    } else if |s.running| > 0 {
      var work :| work in s.running;
      step := Finish(work);
    } else {
      assert s.asleep > 0;
      step := Notify;
    }
  }

  lemma {:induction false} ProgressTakesFromLeft(s: State, step: Step, t: State)
    requires Next(s, step) == Some(t)
    requires IsProgress(step) || (s.lock.closed && !step.Run?)
    ensures Left(t) < Left(s)
  {
    if step.EnterAwake? {
      EnteringTakesFromLeft(s.(awake := s.awake - 1), Fresh, t);
    } else if step.EnterWoken? {
      EnteringTakesFromLeft(s.(woken := s.woken - 1), OutOfWait(step.timedOut), t);
    } else if step.EnterAsleep? {
      EnteringTakesFromLeft(s.(asleep := s.asleep - 1), OutOfWait(step.timedOut), t);
    } else {
      BetweenTakesFromLeft(s, step, t);
    }
  }

  lemma {:induction false} BetweenTakesFromLeft(s: State, step: Step, t: State)
    requires Next(s, step) == Some(t)
    requires step.Notify? || step.Spawned? || step.Finish? || (step.Broadcast? && s.lock.closed)
    ensures Left(t) < Left(s)
  {
    if step.Finish? {
      assert |t.running| + 1 == |s.running|;
    }
  }

  /** Beside the thread itself, coming to the lock adds nothing to what is left. */
  lemma {:induction false} EnteringTakesFromLeft(at: State, coming: Coming, t: State)
    requires Entered(at, coming) == Some(t)
    ensures Left(t) <= Left(at)
  {
  }

  /** No thread of the pool has a step to take. */
  ghost predicate Stuck(s: State) {
    forall step :: Next(s, step).None?
  }

  /**
   * A dropped pool ends: its threads take at most `Left` more steps whatever their
   * order, and where none can be taken every thread has ended with every piece started.
   */
  lemma {:induction false} DroppedPoolDrains(s: State, steps: seq<Step>, t: State)
    requires Inv(s) && s.lock.closed && RunOf(s, steps) == Some(t)
    ensures Inv(t) && t.lock.closed && t.submitted == s.submitted
    ensures |steps| + Left(t) <= Left(s)
    ensures Stuck(t) ==> t.lock.threads == 0 && t.started == t.submitted
  {
    if steps != [] {
      var before := RunOf(s, steps[..|steps| - 1]).value;
      DroppedPoolDrains(s, steps[..|steps| - 1], before);
      ClosedStep(before, steps[|steps| - 1], t);
    }
    if t.lock.threads > 0 {
      var step := ClosedGoesOn(t);
      assert !Stuck(t);
    }
  }

  lemma {:induction false} ClosedStep(s: State, step: Step, t: State)
    requires Inv(s) && s.lock.closed && Next(s, step) == Some(t)
    ensures Inv(t) && t.lock.closed && t.submitted == s.submitted && Left(t) < Left(s)
  {
    NextKeepsInv(s, step, t);
    ProgressTakesFromLeft(s, step, t);
  }

  lemma {:induction false} ClosedGoesOn(s: State) returns (step: Step)
    requires Inv(s) && s.lock.closed && s.lock.threads > 0
    ensures Next(s, step).Some?
  {
    if s.broadcast {
      step := Broadcast;
    } else if s.spawning > 0 {
      step := Spawned;
    } else if s.awake > 0 {
      step := EnterAwake;
    } else if s.woken > 0 {
      step := EnterWoken(false);
    } else {
      var work :| work in s.running;
      step := Finish(work);
    }
  }

  /** The pool as its lock guards it. */
  class Pool {
    const most: nat
    var queued: seq<Work>
    var threads: nat
    var waiting: nat
    var closed: bool

    function View(): Locked
      reads this
    {
      Locked(queued, threads, waiting, closed)
    }

    constructor (most: nat)
      ensures View() == Initial(most).lock && this.most == Initial(most).most
    {
      this.most := Max(most, 1);
      queued, threads, waiting, closed := [], 1, 0, false;
    }

    /** `work` queued at the end, `start` whether a thread is started for it. */
    method Run(work: Work) returns (start: bool)
      modifies this`queued, this`threads
      ensures (View(), start) == Pushed(old(View()), most, work)
    {
      queued := queued + [work];
      start := |queued| > waiting && threads < most;
      if start {
        threads := threads + 1;
      }
    }

    /** A thread at the lock until it runs a piece, waits, or ends and is counted out. */
    method Serve(coming: Coming) returns (going: Going)
      requires threads > 0 && (coming.OutOfWait? ==> waiting > 0)
      modifies this`queued, this`threads, this`waiting
      ensures (View(), going) == Served(old(View()), coming)
    {
      if coming.OutOfWait? {
        waiting := waiting - 1;
        if coming.timedOut && queued == [] && threads > 1 {
          threads := threads - 1;
          return Ends;
        }
      }
      if queued != [] {
        going := Takes(queued[0]);
        queued := queued[1..];
      } else if closed {
        threads := threads - 1;
        going := Ends;
      } else {
        waiting := waiting + 1;
        going := Sleeps;
      }
    }

    /** The pool dropped: no more work, and every thread is to be woken. */
    method Close()
      modifies this`closed
      ensures View() == old(View()).(closed := true)
    {
      closed := true;
    }
  }
}
