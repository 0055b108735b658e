/**
 * What a paused Subscription holds, and how it is picked up once resumed
 * (src/pickup.rs, src/pickup/holding.rs, src/pickup/released.rs, src/pickup/replay.rs, src/held_work.rs):
 * each held Message is moved, oldest first, from the Subscription's queue in the
 * Ledger to its Send Port's, in one hand-on under a claim, whatever fails, comes
 * late or starts again on the way.
 */
module HeldWork {
  import opened Wrappers
  import opened Sums

  /** How many are read at a time (`MOST`). */
  const MOST: nat := 64

  /** A page of the queue read, not taken yet: from where, of how many ever given it, what it holds in order, and whether that was all. */
  datatype Page = Page(from: nat, numbered: nat, items: seq<nat>, ended: bool)

  /** How a move asked for went. `kept` is a claim whose release was lost, live until it lapses. */
  datatype Outcome =
    | Refused
    | NotRead(kept: bool)
    | Unreadable(kept: bool)
    | Moved
    | MovedUnanswered
    | NotMoved(kept: bool)
    | Flying

  /**
   * One Subscription. In the Ledger: how many Messages its queue was ever given, each
   * by its number; those in it still; those moved on, in the order they were; the
   * live claims; the hand-ons on their way under one, each with what it may pass; and
   * whether the Subscription is paused. In memory: the same standing as the node has
   * it; where it is in reading the queue; the Messages it read and has not settled;
   * those it passed over as unreadable since it last read them; how many are held, as
   * it counts them; and the Publications decided to hold, and those written and not
   * counted. Kept of a run, beside what the node has: the Messages moved before they
   * were counted, each taken off for another that was; and those counted and moved
   * whose move took nothing off.
   */
  datatype State = State(
    numbered: nat,
    here: set<nat>,
    moved: seq<nat>,
    claims: set<nat>,
    flying: map<nat, set<nat>>,
    standing: bool,
    paused: bool,
    cursor: nat,
    pending: bool,
    stalled: bool,
    batch: seq<nat>,
    asked: Option<nat>,
    page: Option<Page>,
    passed: set<nat>,
    held: nat,
    toHold: nat,
    uncounted: set<nat>,
    early: set<nat>,
    stale: set<nat>)

  const Initial: State :=
    State(0, {}, [], {}, map[], false, false, 0, false, false, [], None, None, {}, 0, 0, {}, {}, {})

  datatype Step =
    | DecideHold
    | Direct
    | WriteHold
    | WriteRefused
    | Count(number: nat)
    | Act(pause: bool, written: bool, answered: bool)
    | Restart
    | Ask
    | Read
    | Take
    | PickUp(outcome: Outcome)
    | Land(number: nat)
    | Lapse(number: nat)
    | ClaimedElsewhere(number: nat)

  /** Those of `here` from `from` on and below `n`, oldest first. */
  function Oldest(here: set<nat>, from: nat, n: nat): seq<nat> {
    if n <= from then [] else Oldest(here, from, n - 1) + if n - 1 in here then [n - 1] else []
  }

  /** Whether what a Publication matches departs at once. */
  predicate DepartsAtOnce(s: State) {
    !s.paused && s.held == 0
  }

  /** The Message's place let go of in one queue and taken in the other; one moved already keeps its place there. */
  function MovedOn(s: State, number: nat): State {
    if number !in s.here then s else
    s.(here := s.here - {number}, moved := s.moved + [number],
       stale := if number in s.uncounted then s.stale else s.stale + {number})
  }

  /** `moved`: one less held, where any is counted. */
  function TakenOff(s: State, number: nat): State {
    if s.held == 0 then s else
    s.(held := s.held - 1, stale := s.stale - {number},
       early := if number in s.uncounted then s.early + {number} else s.early)
  }

  /** `published`: what a Publication held counted, and a running Subscription woken. */
  function CountedNow(s: State, number: nat): State {
    s.(uncounted := s.uncounted - {number}, held := s.held + 1, pending := s.pending || !s.paused,
       early := s.early - {number},
       stale := if number in s.here || number in s.early then s.stale else s.stale + {number})
  }

  /** `again`: read again from its place. */
  function Again(s: State, number: nat): State {
    s.(cursor := Min(s.cursor, number), pending := true, stalled := true)
  }

  function Before(here: set<nat>, number: nat): set<nat> {
    set j | j in here && j < number
  }

  function Claimed(s: State, number: nat, kept: bool): State {
    if kept then s.(claims := s.claims + {number}) else s
  }

  /** `pick_up`, and what the loop does with its answer. */
  function PickedUp(s: State, number: nat, outcome: Outcome): State {
    match outcome
    case Refused => Again(s, number)
    case NotRead(kept) => Again(Claimed(s, number, kept), number)
    case Unreadable(kept) => Claimed(s, number, kept).(passed := s.passed + {number})
    case Moved => TakenOff(MovedOn(s, number), number)
    case MovedUnanswered => Again(MovedOn(s, number), number)
    case NotMoved(kept) => Again(Claimed(s, number, kept), number)
    case Flying => Again(Claimed(s, number, true).(flying := s.flying[number := Before(s.here, number)]), number)
  }

  function Acted(s: State, pause: bool, written: bool, answered: bool): State {
    if s.paused == pause || !written then s
    else if !answered then s.(standing := pause)
    else if pause then s.(standing := true, paused := true)
    else s.(standing := false, paused := false, cursor := 0, pending := true)
  }

  function Restarted(s: State): State {
    s.(paused := s.standing, cursor := 0, pending := s.here != {}, stalled := false, batch := [], asked := None,
       page := None, passed := {}, held := |s.here|, toHold := 0, uncounted := {}, early := {}, stale := {})
  }

  function Numbers(items: seq<nat>): set<nat> {
    set i | i in items
  }

  function ReadFrom(s: State, from: nat): Page {
    var all := Oldest(s.here, from, s.numbered);
    Page(from, s.numbered, all[..Min(MOST, |all|)], |all| < MOST)
  }

  function Taken(s: State, page: Page): State {
    var t := s.(page := None);
    if s.paused || s.cursor != page.from then t
    else t.(batch := page.items, stalled := false, passed := s.passed - Numbers(page.items),
            cursor := if page.items == [] then s.cursor else page.items[|page.items| - 1] + 1,
            pending := s.pending && !page.ended)
  }

  function Next(s: State, step: Step): Option<State> {
    match step
    // A Publication's Message where its Subscription holds its Messages; a Replay's whatever its standing.
    case DecideHold => Some(s.(toHold := s.toHold + 1))
    case Direct => if DepartsAtOnce(s) then Some(s) else None
    case WriteHold =>
      if s.toHold == 0 then None
      else Some(s.(toHold := s.toHold - 1, numbered := s.numbered + 1, here := s.here + {s.numbered},
                   uncounted := s.uncounted + {s.numbered}))
    case WriteRefused => if s.toHold == 0 then None else Some(s.(toHold := s.toHold - 1))
    case Count(number) => if number !in s.uncounted then None else Some(CountedNow(s, number))
    case Act(pause, written, answered) => Some(Acted(s, pause, written, answered))
    case Restart => Some(Restarted(s))
    case Ask =>
      if s.batch != [] || s.asked.Some? || s.page.Some? || s.paused || !s.pending then None
      else Some(s.(asked := Some(s.cursor)))
    case Read => if s.asked.None? then None else Some(s.(asked := None, page := Some(ReadFrom(s, s.asked.value))))
    case Take => if s.page.None? then None else Some(Taken(s, s.page.value))
    case PickUp(outcome) =>
      if s.batch == [] then None else
      var number := s.batch[0];
      var t := s.(batch := s.batch[1..]);
      if s.stalled then Some(Again(t, number))
      else if number in s.claims && !outcome.Refused? then None
      else Some(PickedUp(t, number, outcome))
    case Land(number) =>
      if number !in s.flying then None
      else Some(MovedOn(s.(flying := s.flying - {number}, claims := s.claims - {number}), number))
    case Lapse(number) => Some(s.(claims := s.claims - {number}, flying := s.flying - {number}))
    case ClaimedElsewhere(number) => Some(s.(claims := s.claims + {number}))
  }

  function Run(s: State, steps: seq<Step>): Option<State> {
    if steps == [] then Some(s)
    else match Run(s, steps[..|steps| - 1])
      case None => None
      case Some(t) => Next(t, steps[|steps| - 1])
  }

  // ---- What every reachable state keeps ----

  /** Every Message held is in one queue or the other, and moved once. */
  ghost predicate OneQueue(numbered: nat, here: set<nat>, moved: seq<nat>) {
    && (forall j :: j in here ==> j < numbered && j !in moved)
    && (forall j :: j in moved ==> j < numbered)
    && (forall j: nat :: j < numbered ==> j in here || j in moved)
    && (forall i, k :: 0 <= i < k < |moved| ==> moved[i] != moved[k])
  }

  ghost predicate Ascending(items: seq<nat>, numbered: nat) {
    && (forall i :: 0 <= i < |items| ==> items[i] < numbered)
    && (forall i, k :: 0 <= i < k < |items| ==> items[i] < items[k])
  }

  /** Everything still in the queue before `at` is among `items`, or was passed over. */
  ghost predicate Seen(here: set<nat>, at: nat, items: seq<nat>, passed: set<nat>) {
    forall j :: j in here && j < at ==> j in items || j in passed
  }

  /** A page read is the queue's own from where it was read: nothing in it up to its last was left out. */
  ghost predicate PageOk(page: Page, here: set<nat>, numbered: nat) {
    && page.from <= page.numbered <= numbered && Ascending(page.items, page.numbered)
    && (page.ended ==> forall j :: j in here && page.from <= j < page.numbered ==> j in page.items)
    && (forall i :: 0 <= i < |page.items| ==> page.from <= page.items[i])
    && (page.items != [] ==> forall j :: j in here && page.from <= j <= page.items[|page.items| - 1] ==> j in page.items)
  }

  ghost predicate Reading(s: State) {
    && s.cursor <= s.numbered
    && Ascending(s.batch, s.numbered)
    && Seen(s.here, s.cursor, s.batch, s.passed)
    && (!s.stalled && s.batch != [] ==> Seen(s.here, s.batch[|s.batch| - 1], s.batch, s.passed))
    && (s.asked.Some? ==> s.pending && s.batch == [] && s.page.None? && s.asked.value <= s.numbered)
    && (s.page.Some? ==> s.pending && s.batch == [] && PageOk(s.page.value, s.here, s.numbered))
  }

  ghost predicate FlyingOk(here: set<nat>, flying: map<nat, set<nat>>, numbered: nat) {
    forall i :: i in flying ==> i < numbered && forall j :: j in here && j < i ==> j in flying[i]
  }

  /** What the count of those held rests on. */
  datatype Tally = Tally(numbered: nat, here: set<nat>, uncounted: set<nat>, early: set<nat>, stale: set<nat>, held: nat)

  function TallyOf(s: State): Tally {
    Tally(s.numbered, s.here, s.uncounted, s.early, s.stale, s.held)
  }

  /** What is held as the node counts it: those here and counted, but for those taken off early and those never taken off. */
  ghost predicate Tallied(s: Tally) {
    && s.held + |s.early| == |s.here - s.uncounted| + |s.stale|
    && (forall j :: j in s.early ==> j in s.uncounted && j !in s.here)
    && (forall j :: j in s.stale ==> j !in s.uncounted && j !in s.here && j < s.numbered)
    && (forall j :: j in s.uncounted ==> j < s.numbered)
  }

  /** One read and not settled has something to be taken off still, or is not counted yet. */
  predicate Owed(s: Tally, number: nat) {
    number in s.here || number in s.stale || (number in s.uncounted && number !in s.early)
  }

  ghost predicate AllOwed(s: Tally, batch: seq<nat>, page: Option<Page>) {
    && (forall j :: j in batch ==> Owed(s, j))
    && (page.Some? ==> forall j :: j in page.value.items ==> Owed(s, j))
  }

  ghost predicate Counted(s: State) {
    Tallied(TallyOf(s)) && AllOwed(TallyOf(s), s.batch, s.page)
  }

  lemma {:induction false} OneLess(a: set<nat>, x: nat)
    ensures |a - {x}| + (if x in a then 1 else 0) == |a|
    ensures |a + {x}| == |a| + if x in a then 0 else 1
  {
    if x in a {
      assert a == (a - {x}) + {x} && a + {x} == a;
    } else {
      assert a - {x} == a;
    }
  }

  /** One moved: it is owed the taking off it was, stale where it was counted. */
  function MovedTally(t: Tally, number: nat): Tally {
    if number !in t.here then t else
    t.(here := t.here - {number}, stale := if number in t.uncounted then t.stale else t.stale + {number})
  }

  function TakenOffTally(t: Tally, number: nat): Tally {
    if t.held == 0 then t else
    t.(held := t.held - 1, stale := t.stale - {number},
       early := if number in t.uncounted then t.early + {number} else t.early)
  }

  function CountedTally(t: Tally, number: nat): Tally {
    t.(uncounted := t.uncounted - {number}, held := t.held + 1, early := t.early - {number},
       stale := if number in t.here || number in t.early then t.stale else t.stale + {number})
  }

  lemma {:induction false} MovedTallied(t: Tally, number: nat)
    requires Tallied(t) && number < t.numbered
    ensures Tallied(MovedTally(t, number))
    ensures forall j :: Owed(t, j) ==> Owed(MovedTally(t, number), j)
  {
    if number in t.here {
      OneLess(t.here - t.uncounted, number);
      OneLess(t.stale, number);
      assert t.here - {number} - t.uncounted == t.here - t.uncounted - {number};
    }
  }

  lemma {:induction false} TakenOffTallied(t: Tally, number: nat)
    requires Tallied(t) && Owed(t, number) && number !in t.here
    ensures Tallied(TakenOffTally(t, number))
    ensures forall j :: j != number && Owed(t, j) ==> Owed(TakenOffTally(t, number), j)
  {
    OneLess(t.stale, number);
    OneLess(t.early, number);
  }

  lemma {:induction false} CountedTallied(t: Tally, number: nat)
    requires Tallied(t) && number in t.uncounted
    ensures Tallied(CountedTally(t, number))
    ensures forall j :: Owed(t, j) ==> Owed(CountedTally(t, number), j)
  {
    var left := t.uncounted - {number};
    OneLess(t.here - t.uncounted, number);
    OneLess(t.stale, number);
    OneLess(t.early, number);
    if number in t.here {
      assert t.here - left == (t.here - t.uncounted) + {number};
    } else {
      assert t.here - left == t.here - t.uncounted;
    }
  }

  ghost predicate Inv(s: State) {
    && OneQueue(s.numbered, s.here, s.moved)
    && Reading(s)
    && FlyingOk(s.here, s.flying, s.numbered)
    && Counted(s)
  }

  lemma {:induction false} OldestIs(here: set<nat>, from: nat, n: nat)
    ensures var all := Oldest(here, from, n);
      && Ascending(all, n)
      && (forall j :: j in all <==> j in here && from <= j < n)
  {
    if n > from {
      OldestIs(here, from, n - 1);
      var before := Oldest(here, from, n - 1);
      assert forall i :: 0 <= i < |before| ==> before[i] in before;
    }
  }

  lemma {:induction false} ReadKeeps(s: State)
    requires Inv(s) && Next(s, Read).Some?
    ensures Inv(Next(s, Read).value)
  {
    ReadOwed(s);
    ReadReads(s);
    hide OneQueue, FlyingOk, Reading, Counted;
  }

  lemma {:induction false} ReadReads(s: State)
    requires Reading(s) && Next(s, Read).Some?
    ensures Reading(Next(s, Read).value)
  {
    PageIsOk(s, s.asked.value);
    hide Ascending, Oldest, PageOk, ReadFrom;
  }

  lemma {:induction false} ReadOwed(s: State)
    requires Counted(s) && Reading(s) && Next(s, Read).Some?
    ensures Counted(Next(s, Read).value)
  {
    PageIsOk(s, s.asked.value);
    hide Ascending, Oldest, PageOk, ReadFrom, Tallied;
  }

  lemma {:induction false} PageIsOk(s: State, from: nat)
    requires from <= s.numbered
    ensures PageOk(ReadFrom(s, from), s.here, s.numbered)
    ensures forall j :: j in ReadFrom(s, from).items ==> j in s.here
  {
    var all := Oldest(s.here, from, s.numbered);
    OldestIs(s.here, from, s.numbered);
    FirstOf(all, s.here, from, s.numbered, Min(MOST, |all|));
    if |all| < MOST {
      assert all[..Min(MOST, |all|)] == all;
    }
  }

  lemma {:induction false} FirstOf(all: seq<nat>, here: set<nat>, from: nat, numbered: nat, n: nat)
    requires Ascending(all, numbered) && n <= |all| && forall j :: j in all <==> j in here && from <= j < numbered
    ensures Ascending(all[..n], numbered) && forall i :: 0 <= i < n ==> from <= all[i]
    ensures n > 0 ==> forall j :: j in here && from <= j <= all[n - 1] ==> j in all[..n]
  {
    assert forall i :: 0 <= i < n ==> all[i] in all;
    if n > 0 {
      forall j | j in here && from <= j <= all[n - 1]
        ensures j in all[..n]
      {
        var k :| 0 <= k < |all| && all[k] == j;
        assert all[..n][k] == j;
      }
    }
  }

  lemma {:induction false} TakeKeeps(s: State, page: Page)
    requires Inv(s) && s.page == Some(page)
    ensures Inv(Taken(s, page))
  {
    TakenReading(s, page);
    TakenOwed(s, page);
    hide OneQueue, FlyingOk, Reading, Counted;
  }

  lemma {:induction false} TakenOwed(s: State, page: Page)
    requires Counted(s) && Reading(s) && s.page == Some(page)
    ensures Counted(Taken(s, page))
  {
    hide Tallied;
  }

  lemma {:induction false} TakenReading(s: State, page: Page)
    requires Reading(s) && s.page == Some(page)
    ensures Reading(Taken(s, page))
  {
    var t := Taken(s, page);
    if !(s.paused || s.cursor != page.from) && page.items != [] {
      forall j | j in t.here && j < t.cursor
        ensures j in t.batch || j in t.passed
      {
        if j < page.from {
          assert j in s.passed;
        }
      }
    }
  }

  lemma {:induction false} MovedKeeps(s: State, number: nat)
    requires OneQueue(s.numbered, s.here, s.moved) && number < s.numbered
    ensures OneQueue(s.numbered, MovedOn(s, number).here, MovedOn(s, number).moved)
  {
    if number in s.here {
      assert forall j :: j in s.moved + [number] <==> j in s.moved || j == number;
    }
  }

  /** Fewer in the queue: what was read of it, and what may be passed, stand. */
  lemma {:induction false} FewerHere(s: State, here: set<nat>, flying: map<nat, set<nat>>)
    requires Reading(s) && FlyingOk(s.here, s.flying, s.numbered) && here <= s.here
    requires flying.Keys <= s.flying.Keys && forall i :: i in flying ==> flying[i] == s.flying[i]
    ensures Reading(s.(here := here)) && FlyingOk(here, flying, s.numbered)
  {
  }

  lemma {:induction false} LandKeeps(s: State, number: nat)
    requires Inv(s) && number in s.flying
    ensures Inv(Next(s, Land(number)).value)
  {
    hide OneQueue, Reading, Counted, FlyingOk, Next, MovedOn;
    FlyingIsNumbered(s, number);
    LandGoes(s, number);
    var t := Next(s, Land(number)).value;
    LandIs(s, number, t);
    LandOwed(s, number, t);
    MovedKeeps(s, number);
    NoneMore(s, number);
    FewerHere(s, MovedOn(s, number).here, s.flying - {number});
    ReadingSame(s.(here := MovedOn(s, number).here), t);
  }

  lemma {:induction false} FlyingIsNumbered(s: State, number: nat)
    requires FlyingOk(s.here, s.flying, s.numbered) && number in s.flying
    ensures number < s.numbered
  {
  }

  lemma {:induction false} LandGoes(s: State, number: nat)
    requires number in s.flying
    ensures Next(s, Land(number)).Some?
  {
  }

  lemma {:induction false} NoneMore(s: State, number: nat)
    ensures MovedOn(s, number).here <= s.here
  {
  }

  lemma {:induction false} LandIs(s: State, number: nat, t: State)
    requires Next(s, Land(number)) == Some(t)
    ensures t.numbered == s.numbered && t.here == MovedOn(s, number).here && t.moved == MovedOn(s, number).moved
    ensures t.flying == s.flying - {number} && t.batch == s.batch && t.asked == s.asked && t.page == s.page
    ensures t.cursor == s.cursor && t.passed == s.passed && t.stalled == s.stalled && t.pending == s.pending
    ensures TallyOf(t) == MovedTally(TallyOf(s), number)
  {
  }

  lemma {:induction false} LandOwed(s: State, number: nat, t: State)
    requires Counted(s) && number < s.numbered && Next(s, Land(number)) == Some(t)
    ensures Counted(t)
  {
    LandIs(s, number, t);
    MovedTallied(TallyOf(s), number);
    hide Tallied, Owed, Next, MovedTally;
  }

  /** Reading is of the queue and of what is read of it alone. */
  lemma {:induction false} ReadingSame(s: State, t: State)
    requires Reading(s)
    requires t.here == s.here && t.numbered == s.numbered && t.cursor == s.cursor && t.batch == s.batch
    requires t.asked == s.asked && t.page == s.page && t.passed == s.passed && t.stalled == s.stalled
    requires s.pending ==> t.pending
    ensures Reading(t)
  {
  }

  /** The first of the batch is settled: moved, passed over, or to be read again with all after it. */
  lemma {:induction false} SettledReading(s: State, t: State)
    requires Reading(s) && s.batch != [] && t.batch == s.batch[1..]
    requires t.numbered == s.numbered && t.asked == s.asked && t.page == s.page && t.here <= s.here && s.passed <= t.passed
    requires s.stalled ==> t.stalled && t.cursor == Min(s.cursor, s.batch[0])
    requires !s.stalled ==>
      || (t.stalled && t.cursor == Min(s.cursor, s.batch[0]))
      || (!t.stalled && t.cursor == s.cursor && (s.batch[0] !in t.here || s.batch[0] in t.passed))
    ensures Reading(t)
  {
    var first := s.batch[0];
    assert forall j :: j in s.batch <==> j == first || j in t.batch;
    if !t.stalled && t.batch != [] {
      assert t.batch[|t.batch| - 1] == s.batch[|s.batch| - 1];
    }
  }

  lemma {:induction false} PickUpKeeps(s: State, outcome: Outcome)
    requires Inv(s) && Next(s, PickUp(outcome)).Some?
    ensures Inv(Next(s, PickUp(outcome)).value)
  {
    var t := Next(s, PickUp(outcome)).value;
    PickUpMoves(s, outcome);
    PickUpFlies(s, outcome);
    PickUpReads(s, outcome);
    hide OneQueue, FlyingOk, Reading;
    assert OneQueue(t.numbered, t.here, t.moved);
  }

  lemma {:induction false} PickUpMoves(s: State, outcome: Outcome)
    requires OneQueue(s.numbered, s.here, s.moved) && Counted(s) && Reading(s) && Next(s, PickUp(outcome)).Some?
    ensures var t := Next(s, PickUp(outcome)).value; OneQueue(t.numbered, t.here, t.moved) && Counted(t)
  {
    var number, t := s.batch[0], Next(s, PickUp(outcome)).value;
    FirstIsNumbered(s);
    FirstIsAlone(s);
    MovedKeeps(s, number);
    PickUpIs(s, outcome, t);
    PickUpTallies(TallyOf(s), number);
    hide OneQueue, Tallied, Reading, Owed, Next, MovedTally, TakenOffTally;
  }

  lemma {:induction false} PickUpIs(s: State, outcome: Outcome, t: State)
    requires s.batch != [] && Next(s, PickUp(outcome)) == Some(t)
    ensures t.numbered == s.numbered && t.batch == s.batch[1..] && t.page == s.page
    ensures var moved := MovedTally(TallyOf(s), s.batch[0]);
      if s.stalled || !(outcome.Moved? || outcome.MovedUnanswered?)
      then t.here == s.here && t.moved == s.moved && TallyOf(t) == TallyOf(s)
      else && t.here == MovedOn(s, s.batch[0]).here && t.moved == MovedOn(s, s.batch[0]).moved
           && TallyOf(t) == if outcome.Moved? then TakenOffTally(moved, s.batch[0]) else moved
  {
    hide Oldest, Before, PickedUp;
    var popped := s.(batch := s.batch[1..]);
    PickedUpIs(popped, s.batch[0], outcome);
  }

  lemma {:induction false} PickedUpIs(s: State, number: nat, outcome: Outcome)
    ensures var (t, moved) := (PickedUp(s, number, outcome), MovedTally(TallyOf(s), number));
      && t.numbered == s.numbered && t.batch == s.batch && t.page == s.page
      && if !(outcome.Moved? || outcome.MovedUnanswered?)
         then t.here == s.here && t.moved == s.moved && TallyOf(t) == TallyOf(s)
         else && t.here == MovedOn(s, number).here && t.moved == MovedOn(s, number).moved
              && TallyOf(t) == if outcome.Moved? then TakenOffTally(moved, number) else moved
  {
    MovedOnIs(s, number);
    TakenOffIs(MovedOn(s, number), number);
    hide Before, MovedOn, TakenOff, MovedTally, TakenOffTally;
    match outcome
    case Moved =>
    case MovedUnanswered =>
    case Refused =>
    case NotRead(_) =>
    case Unreadable(_) =>
    case NotMoved(_) =>
    case Flying =>
  }

  lemma {:induction false} MovedOnIs(s: State, number: nat)
    ensures var t := MovedOn(s, number);
      && t.numbered == s.numbered && t.batch == s.batch && t.page == s.page && TallyOf(t) == MovedTally(TallyOf(s), number)
  {
  }

  lemma {:induction false} TakenOffIs(s: State, number: nat)
    ensures var t := TakenOff(s, number);
      && t.numbered == s.numbered && t.here == s.here && t.moved == s.moved && t.batch == s.batch && t.page == s.page
      && t.flying == s.flying && TallyOf(t) == TakenOffTally(TallyOf(s), number)
  {
  }

  /** A move answered or not keeps the tally; and those read beside it are owed what they were. */
  lemma {:induction false} PickUpTallies(t: Tally, number: nat)
    requires Tallied(t) && Owed(t, number) && number < t.numbered
    ensures var moved := MovedTally(t, number);
      && Tallied(moved) && Tallied(TakenOffTally(moved, number))
      && forall j :: j != number && Owed(t, j) ==> Owed(moved, j) && Owed(TakenOffTally(moved, number), j)
  {
    MovedTallied(t, number);
    assert number !in MovedTally(t, number).here;
    hide Tallied, TakenOffTally;
    TakenOffTallied(MovedTally(t, number), number);
  }

  /** What is read holds each Message once. */
  lemma {:induction false} FirstIsAlone(s: State)
    requires Reading(s) && s.batch != []
    ensures s.page.None? && forall j :: j in s.batch[1..] ==> j in s.batch && j != s.batch[0]
  {
  }

  lemma {:induction false} FirstIsNumbered(s: State)
    requires Reading(s) && s.batch != []
    ensures s.batch[0] < s.numbered
  {
  }

  lemma {:induction false} PickUpReads(s: State, outcome: Outcome)
    requires Reading(s) && Next(s, PickUp(outcome)).Some?
    ensures Reading(Next(s, PickUp(outcome)).value)
  {
    hide Reading, TallyOf, Owed, Before, Oldest;
    SettledReading(s, Next(s, PickUp(outcome)).value);
  }

  lemma {:induction false} PickUpFlies(s: State, outcome: Outcome)
    requires FlyingOk(s.here, s.flying, s.numbered) && Reading(s) && Next(s, PickUp(outcome)).Some?
    ensures var t := Next(s, PickUp(outcome)).value; FlyingOk(t.here, t.flying, t.numbered)
  {
    hide Oldest, TakenOff;
    FirstIsNumbered(s);
    hide Reading;
    TakenOffIs(MovedOn(s.(batch := s.batch[1..]), s.batch[0]), s.batch[0]);
  }

  lemma {:induction false} WriteKeeps(s: State)
    requires Inv(s) && s.toHold > 0
    ensures Inv(Next(s, WriteHold).value)
  {
    hide OneQueue, FlyingOk, Reading;
    var t := Next(s, WriteHold).value;
    WrittenQueues(s);
    WrittenReading(s, t);
    WrittenTallied(s, t);
  }

  lemma {:induction false} WrittenTallied(s: State, t: State)
    requires Counted(s) && OneQueue(s.numbered, s.here, s.moved) && Next(s, WriteHold) == Some(t)
    ensures Counted(t)
  {
    assert t.here - t.uncounted == s.here - s.uncounted;
  }

  lemma {:induction false} WrittenQueues(s: State)
    requires OneQueue(s.numbered, s.here, s.moved) && FlyingOk(s.here, s.flying, s.numbered)
    ensures OneQueue(s.numbered + 1, s.here + {s.numbered}, s.moved)
    ensures FlyingOk(s.here + {s.numbered}, s.flying, s.numbered + 1)
  {
  }

  lemma {:induction false} WrittenReading(s: State, t: State)
    requires Reading(s) && Next(s, WriteHold) == Some(t)
    ensures Reading(t)
  {
    if s.page.Some? {
      assert PageOk(s.page.value, s.here, s.numbered);
    }
  }

  lemma {:induction false} OthersKeep(s: State, step: Step, t: State)
    requires Inv(s) && Next(s, step) == Some(t)
    requires step.DecideHold? || step.Direct? || step.WriteRefused? || step.Count? || step.Act? || step.Restart?
      || step.Lapse? || step.ClaimedElsewhere? || step.Ask?
    ensures Inv(t)
  {
    OthersTallied(s, step, t);
    OthersRead(s, step, t);
    if step.Lapse? {
      FewerHere(s, s.here, t.flying);
    }
    hide OneQueue, Reading, Counted, FlyingOk;
    OthersStay(s, step, t);
  }

  lemma {:induction false} OthersStay(s: State, step: Step, t: State)
    requires Next(s, step) == Some(t)
    requires step.DecideHold? || step.Direct? || step.WriteRefused? || step.Count? || step.Act? || step.Restart?
      || step.Lapse? || step.ClaimedElsewhere? || step.Ask?
    ensures t.numbered == s.numbered && t.here == s.here && t.moved == s.moved
    ensures !step.Lapse? ==> t.flying == s.flying
  {
  }

  lemma {:induction false} OthersTallied(s: State, step: Step, t: State)
    requires Counted(s) && Next(s, step) == Some(t)
    requires step.DecideHold? || step.Direct? || step.WriteRefused? || step.Count? || step.Act? || step.Restart?
      || step.Lapse? || step.ClaimedElsewhere? || step.Ask?
    ensures Counted(t)
  {
    hide Tallied, Owed;
    if step.Count? {
      CountedTallied(TallyOf(s), step.number);
      assert TallyOf(t) == CountedTally(TallyOf(s), step.number);
    } else if step.Restart? {
      RestartTallied(s);
    } else {
      assert TallyOf(t) == TallyOf(s);
    }
  }

  lemma {:induction false} OthersRead(s: State, step: Step, t: State)
    requires Reading(s) && Next(s, step) == Some(t)
    requires step.DecideHold? || step.Direct? || step.WriteRefused? || step.Count? || step.Act? || step.Restart?
      || step.Lapse? || step.ClaimedElsewhere? || step.Ask?
    ensures Reading(t)
  {
    hide PageOk;
    assert step.Act? || step.Restart? ==> forall j :: j in s.here ==> j >= 0;
  }

  lemma {:induction false} RestartTallied(s: State)
    ensures Tallied(TallyOf(Restarted(s)))
  {
    assert s.here - {} == s.here;
  }

  lemma {:induction false} NextKeepsInv(s: State, step: Step, t: State)
    requires Inv(s) && Next(s, step) == Some(t)
    ensures Inv(t)
  {
    hide Inv;
    match step
    case WriteHold => WriteKeeps(s);
    case Read => ReadKeeps(s);
    case Take => TakeKeeps(s, s.page.value);
    case PickUp(outcome) => PickUpKeeps(s, outcome);
    case Land(number) => LandKeeps(s, number);
    case _ => OthersKeep(s, step, t);
  }

  lemma {:induction false} RunKeepsInv(steps: seq<Step>, s: State)
    requires Run(Initial, steps) == Some(s)
    ensures Inv(s)
  {
    hide Next;
    if steps != [] {
      var before := Run(Initial, steps[..|steps| - 1]).value;
      RunKeepsInv(steps[..|steps| - 1], before);
      NextKeepsInv(before, steps[|steps| - 1], s);
    }
  }

  /**
   * Nothing held is lost or doubled: across publications, pauses, resumes, restarts
   * and answers failed, lost or late, each Message held is in exactly one of the two
   * queues, and moved at most once.
   */
  lemma {:induction false} EachInOneQueue(steps: seq<Step>, s: State, number: nat)
    requires Run(Initial, steps) == Some(s) && number < s.numbered
    ensures number in s.here <==> number !in s.moved
    ensures forall i, k :: 0 <= i < k < |s.moved| ==> s.moved[i] != s.moved[k]
  {
    RunKeepsInv(steps, s);
  }

  /** Nothing is reordered: a Message moved, or its move asked for, has none before it in the queue but those passed over as unreadable. */
  lemma {:induction false} NoneMovesAhead(steps: seq<Step>, s: State, outcome: Outcome, t: State, earlier: nat)
    requires Run(Initial, steps) == Some(s) && Next(s, PickUp(outcome)) == Some(t)
    requires t.moved != s.moved || t.flying != s.flying
    requires earlier in s.here && earlier < s.batch[0]
    ensures earlier in s.passed
  {
    hide OneQueue, FlyingOk, Reading, Counted, Next;
    RunKeepsInv(steps, s);
    MovesOnlyUnstalled(s, outcome, t);
    BeforeTheFirst(s, earlier);
  }

  lemma {:induction false} BeforeTheFirst(s: State, earlier: nat)
    requires Reading(s) && !s.stalled && s.batch != []
    requires earlier in s.here && earlier < s.batch[0]
    ensures earlier in s.passed
  {
    assert s.batch[0] <= s.batch[|s.batch| - 1];
    assert Seen(s.here, s.batch[|s.batch| - 1], s.batch, s.passed);
  }

  lemma {:induction false} MovesOnlyUnstalled(s: State, outcome: Outcome, t: State)
    requires Next(s, PickUp(outcome)) == Some(t) && (t.moved != s.moved || t.flying != s.flying)
    ensures !s.stalled && s.batch != []
  {
  }

  /** One whose move lands late has none before it but those passed over when it was asked for. */
  lemma {:induction false} NoneLandsAhead(steps: seq<Step>, s: State, number: nat, earlier: nat)
    requires Run(Initial, steps) == Some(s) && number in s.flying
    requires earlier in s.here && earlier < number
    ensures earlier in s.flying[number]
  {
    RunKeepsInv(steps, s);
  }

  /**
   * A Subscription lets what it matches depart at once exactly where it runs and as
   * many were taken off before they were counted as are here and counted, or counted
   * and never taken off.
   */
  lemma {:induction false} DepartsAtOnceExactly(steps: seq<Step>, s: State)
    requires Run(Initial, steps) == Some(s)
    ensures Next(s, Direct).Some? <==> !s.paused && |s.here - s.uncounted| + |s.stale| == |s.early|
  {
    RunKeepsInv(steps, s);
  }

  /**
   * What departs at once overtakes only what is written and not counted yet exactly
   * where as many were taken off early as were never taken off: in particular where
   * every move was answered and none before its Message was counted.
   */
  lemma {:induction false} OvertakesOnlyTheUncounted(steps: seq<Step>, s: State)
    requires Run(Initial, steps) == Some(s) && Next(s, Direct).Some?
    ensures s.here <= s.uncounted <==> |s.early| == |s.stale|
    ensures |s.stale| <= |s.early| <= |s.uncounted|
    ensures s.uncounted == {} ==> s.here == {}
  {
    RunKeepsInv(steps, s);
    assert s.held == 0;
    hide Next, Run, Inv;
    OvertakesOnly(TallyOf(s));
  }

  lemma {:induction false} OvertakesOnly(t: Tally)
    requires Tallied(t) && t.held == 0
    ensures t.here <= t.uncounted <==> |t.early| == |t.stale|
    ensures |t.stale| <= |t.early| <= |t.uncounted|
    ensures t.uncounted == {} ==> t.here == {}
  {
    if t.here - t.uncounted == {} {
      forall j | j in t.here ensures j in t.uncounted {
        assert j !in t.here - t.uncounted;
      }
    }
    assert t.uncounted == {} ==> t.here - t.uncounted == t.here;
    NoMore(t.early, t.uncounted);
  }

  lemma {:induction false} NoMore(a: set<nat>, b: set<nat>)
    requires a <= b
    ensures |a| <= |b|
  {
    assert b == a + (b - a);
  }

  /**
   * The count is of what the queue holds and was counted exactly where as many were
   * taken off early as were never taken off; and of all the queue holds, those not
   * counted beside it, exactly where none is stale and each moved uncounted was taken
   * off.
   */
  lemma {:induction false} TheCountIsExact(steps: seq<Step>, s: State)
    requires Run(Initial, steps) == Some(s)
    ensures s.held + |s.here * s.uncounted| == |s.here| <==> |s.early| == |s.stale|
    ensures s.held + |s.uncounted| == |s.here| <==> s.stale == {} && s.uncounted - s.here == s.early
  {
    RunKeepsInv(steps, s);
    hide Run, Inv;
    CountIs(TallyOf(s));
  }

  lemma {:induction false} CountIs(t: Tally)
    requires Tallied(t)
    ensures t.held + |t.here * t.uncounted| == |t.here| <==> |t.early| == |t.stale|
    ensures t.held + |t.uncounted| == |t.here| <==> t.stale == {} && t.uncounted - t.here == t.early
  {
    var gone := t.uncounted - t.here;
    Parts(t.here, t.uncounted);
    Parts(t.uncounted, t.here);
    Parts(gone, t.early);
    assert t.here * t.uncounted == t.uncounted * t.here && gone * t.early == t.early;
    NoneIs(gone - t.early);
    NoneIs(t.stale);
    assert t.early <= gone;
    assert gone == t.early <==> gone - t.early == {} by {
      assert gone == (gone - t.early) + t.early;
    }
  }

  lemma {:induction false} Parts(a: set<nat>, b: set<nat>)
    ensures |a| == |a - b| + |a * b|
  {
    assert a == (a - b) + a * b;
  }

  lemma {:induction false} NoneIs(a: set<nat>)
    ensures |a| == 0 <==> a == {}
  {
  }

  lemma {:induction false} Onward(steps: seq<Step>, s: State, step: Step, t: State) returns (steps': seq<Step>)
    requires Run(Initial, steps) == Some(s) && Next(s, step) == Some(t)
    ensures steps' == steps + [step] && Run(Initial, steps') == Some(t)
  {
    steps' := steps + [step];
    assert steps'[..|steps|] == steps;
  }

  /** Paused, so many held and written, none counted yet. */
  function Written(n: nat): State {
    Initial.(standing := true, paused := true, numbered := n, here := All(n), uncounted := All(n))
  }

  function All(n: nat): set<nat> {
    if n == 0 then {} else All(n - 1) + {n - 1}
  }

  /** Resumed: to be read from its start. */
  function Resumed(s: State): State {
    s.(standing := false, paused := false, cursor := 0, pending := true)
  }

  lemma {:induction false} HoldsWritten(n: nat) returns (steps: seq<Step>)
    ensures Run(Initial, steps) == Some(Written(n))
  {
    if n == 0 {
      PausedFirst();
      steps := Onward([], Initial, Act(true, true, true), Written(0));
    } else {
      steps := HoldsWritten(n - 1);
      var deciding := Written(n - 1).(toHold := 1);
      OneWritten(n - 1);
      hide Next;
      steps := Onward(steps, Written(n - 1), DecideHold, deciding);
      steps := Onward(steps, deciding, WriteHold, Written(n));
    }
  }

  lemma {:induction false} PausedFirst()
    ensures Run(Initial, []) == Some(Initial) && Next(Initial, Act(true, true, true)) == Some(Written(0))
  {
  }

  lemma {:induction false} OneWritten(n: nat)
    ensures Next(Written(n), DecideHold) == Some(Written(n).(toHold := 1))
    ensures Next(Written(n).(toHold := 1), WriteHold) == Some(Written(n + 1))
  {
  }

  lemma {:induction false} Resumes(s: State)
    requires s.paused
    ensures Next(s, Act(false, true, true)) == Some(Resumed(s))
  {
  }

  lemma {:induction false} Counts(s: State, number: nat)
    requires number in s.uncounted
    ensures Next(s, Count(number)) == Some(CountedNow(s, number))
  {
  }

  /** A Message held while paused, its Subscription resumed before its Publication is counted, is overtaken by the next. */
  lemma {:induction false} AnUncountedHoldIsOvertaken() returns (steps: seq<Step>, s: State)
    ensures Run(Initial, steps) == Some(s) && Next(s, Direct).Some? && 0 in s.here && s.uncounted == {0}
  {
    steps := HoldsWritten(1);
    s := Resumed(Written(1));
    Resumes(Written(1));
    assert All(1) == {0};
    steps := Onward(steps, Written(1), Act(false, true, true), s);
  }

  /** The first of what a resumed Subscription holds moved, and answered. */
  lemma {:induction false} FirstMoves(steps: seq<Step>, s: State, items: seq<nat>) returns (steps': seq<Step>)
    requires Run(Initial, steps) == Some(s)
    requires s.cursor == 0 && s.pending && !s.paused && !s.stalled && s.claims == {} && s.passed == {}
    requires s.batch == [] && s.asked.None? && s.page.None?
    requires 0 < |items| < MOST && items == Oldest(s.here, 0, s.numbered)
    ensures Run(Initial, steps') == Some(PickedUp(Read64(s, items), items[0], Moved))
  {
    var asking := s.(asked := Some(0));
    var page := Page(0, s.numbered, items, true);
    var reading := s.(page := Some(page));
    var took := Read64(s, items).(batch := items);
    assert items[..|items|] == items && s.passed - Numbers(items) == {};
    PageTaken(s, items, asking, reading, took);
    hide Run, Oldest, Next;
    steps' := Onward(steps, s, Ask, asking);
    steps' := Onward(steps', asking, Read, reading);
    steps' := Onward(steps', reading, Take, took);
    steps' := Onward(steps', took, PickUp(Moved), PickedUp(Read64(s, items), items[0], Moved));
  }

  lemma {:induction false} PageTaken(s: State, items: seq<nat>, asking: State, reading: State, took: State)
    requires s.cursor == 0 && s.pending && !s.paused && !s.stalled && s.claims == {}
    requires s.batch == [] && s.asked.None? && s.page.None? && s.passed - Numbers(items) == s.passed
    requires 0 < |items| < MOST && items == Oldest(s.here, 0, s.numbered) && items[..|items|] == items
    requires asking == s.(asked := Some(0))
    requires reading == s.(page := Some(Page(0, s.numbered, items, true)))
    requires took == Read64(s, items).(batch := items)
    ensures Next(s, Ask) == Some(asking) && Next(asking, Read) == Some(reading) && Next(reading, Take) == Some(took)
    ensures Next(took, PickUp(Moved)) == Some(PickedUp(Read64(s, items), items[0], Moved))
  {
    hide Oldest, PickedUp;
    assert Read64(s, items) == took.(batch := took.batch[1..]);
  }

  /** What was read taken, its first on its way. */
  function Read64(s: State, items: seq<nat>): State
    requires items != []
  {
    s.(batch := items[1..], cursor := items[|items| - 1] + 1, pending := false)
  }

  /**
   * A counted hold is overtaken too: one written before it moved before it was
   * counted, and took off the count the one that was counted had there.
   */
  lemma {:induction false} ACountedHoldIsOvertaken() returns (steps: seq<Step>, s: State)
    ensures Run(Initial, steps) == Some(s) && Next(s, Direct).Some?
    ensures s.here == {1} && s.uncounted == {0} && s.early == {0}
  {
    steps := HoldsWritten(2);
    var held := CountedNow(Written(2), 1);
    assert All(1) == {0} && All(2) == {0, 1};
    Counts(Written(2), 1);
    Resumes(held);
    hide Next;
    steps := Onward(steps, Written(2), Count(1), held);
    steps := Onward(steps, held, Act(false, true, true), Resumed(held));
    assert held.here == {0, 1} && held.uncounted == {0} && held.held == 1 && held.early == {};
    TwoOldest();
    steps := FirstMoves(steps, Resumed(held), [0, 1]);
    s := PickedUp(Read64(Resumed(held), [0, 1]), 0, Moved);
    assert s.here == {1} && s.early == {0} && s.held == 0;
  }

  lemma {:induction false} TwoOldest()
    ensures Oldest({0, 1}, 0, 2) == [0, 1] && Oldest({0}, 0, 1) == [0]
  {
    assert Oldest({0, 1}, 0, 0) == [] && Oldest({0}, 0, 0) == [];
    assert Oldest({0, 1}, 0, 1) == [0];
  }

  /** A Subscription may hold what it matches with nothing in its queue: its last hold moved before it was counted. */
  lemma {:induction false} AnEmptyQueueHolds() returns (steps: seq<Step>, s: State)
    ensures Run(Initial, steps) == Some(s) && !s.paused && s.here == {} && s.uncounted == {}
    ensures s.held == 1 && s.stale == {0} && Next(s, Direct).None?
  {
    steps := HoldsWritten(1);
    var resumed := Resumed(Written(1));
    assert All(1) == {0};
    Resumes(Written(1));
    steps := Onward(steps, Written(1), Act(false, true, true), resumed);
    TwoOldest();
    steps := FirstMoves(steps, resumed, [0]);
    var moved := PickedUp(Read64(resumed, [0]), 0, Moved);
    assert moved.here == {} && moved.held == 0 && moved.early == {} && moved.stale == {};
    s := CountedNow(moved, 0);
    Counts(moved, 0);
    hide Next;
    steps := Onward(steps, moved, Count(0), s);
    assert s.uncounted == {} && s.stale == {0};
  }

  // ---- Nothing waits unnoticed ----

  /** A Message counted is in the queue ahead of where it is read, with no reading of it to come. */
  predicate Unnoticed(s: State) {
    && !s.paused && !s.pending && s.asked.None? && s.page.None?
    && exists j :: j in s.here && j >= s.cursor && j !in s.uncounted
  }

  /** Whether a page read to the end of the queue is taken with another written to it and counted since it was read. */
  predicate TakenShort(s: State) {
    && s.page.Some? && s.page.value.ended && !s.paused && s.cursor == s.page.value.from
    && exists j :: j in s.here && s.page.value.numbered <= j && j !in s.uncounted
  }

  ghost predicate NoneTakenShort(s: State, steps: seq<Step>)
    requires Run(s, steps).Some?
  {
    steps == [] ||
    (&& NoneTakenShort(s, steps[..|steps| - 1])
     && !(steps[|steps| - 1].Take? && TakenShort(Run(s, steps[..|steps| - 1]).value)))
  }

  /** What is ahead and counted is noticed: it is to be read, or is being read. */
  ghost predicate Noticed(s: State) {
    forall j :: j in s.here && j >= s.cursor && j !in s.uncounted ==> s.paused || s.pending
  }

  lemma {:induction false} NextKeepsNoticed(s: State, step: Step, t: State)
    requires Inv(s) && Noticed(s) && Next(s, step) == Some(t) && !(step.Take? && TakenShort(s))
    ensures Noticed(t)
  {
    hide OneQueue, FlyingOk;
    forall j | j in t.here && j >= t.cursor && j !in t.uncounted
      ensures t.paused || t.pending
    {
      match step
      case Take => TakeNotices(s, s.page.value, j);
      case Restart => assert s.here != {};
      case _ => StepNotices(s, step, t, j);
    }
  }

  lemma {:induction false} TakeNotices(s: State, page: Page, j: nat)
    requires Noticed(s) && s.page == Some(page) && !TakenShort(s) && Reading(s)
    requires j in s.here && j >= Taken(s, page).cursor && j !in s.uncounted
    ensures s.paused || Taken(s, page).pending
  {
    if !s.paused && s.cursor == page.from && page.ended {
      LeftByPage(s, page, j);
    }
  }

  /** What a page read to the end leaves ahead was written since it was read. */
  lemma {:induction false} LeftByPage(s: State, page: Page, j: nat)
    requires Reading(s) && s.page == Some(page) && page.ended && !s.paused && s.cursor == page.from
    requires j in s.here
    ensures j >= Taken(s, page).cursor <==> j >= page.numbered
  {
    if j < page.numbered {
      if j >= page.from {
        assert j in page.items;
      }
      assert page.items != [] ==> page.items[|page.items| - 1] >= page.from;
    }
  }

  lemma {:induction false} StepNotices(s: State, step: Step, t: State, j: nat)
    requires Noticed(s) && Next(s, step) == Some(t) && !step.Take? && !step.Restart?
    requires j in t.here && j >= t.cursor && j !in t.uncounted
    ensures t.paused || t.pending
  {
    hide Oldest;
    match step
    case PickUp(outcome) => PickUpNotices(s, outcome, t, j);
    case Land(number) => assert j in s.here;
    case _ =>
  }

  lemma {:induction false} PickUpNotices(s: State, outcome: Outcome, t: State, j: nat)
    requires Noticed(s) && Next(s, PickUp(outcome)) == Some(t)
    requires j in t.here && j >= t.cursor && j !in t.uncounted
    ensures t.paused || t.pending
  {
    assert j in s.here;
  }

  /**
   * Nothing held and counted waits unnoticed, as long as no page read to the end is
   * taken once more was written and counted: while the Subscription runs, what is in
   * its queue ahead of where it is read is being read, or is to be.
   */
  lemma {:induction false} NothingWaitsUnnoticed(steps: seq<Step>, s: State)
    requires Run(Initial, steps) == Some(s) && NoneTakenShort(Initial, steps)
    ensures !Unnoticed(s)
  {
    NoticedThrough(steps, s);
  }

  lemma {:induction false} NoticedThrough(steps: seq<Step>, s: State)
    requires Run(Initial, steps) == Some(s) && NoneTakenShort(Initial, steps)
    ensures Noticed(s)
  {
    hide Next, Noticed;
    if steps == [] {
      InitiallyNoticed();
    } else {
      var before := Run(Initial, steps[..|steps| - 1]).value;
      NoticedThrough(steps[..|steps| - 1], before);
      RunKeepsInv(steps[..|steps| - 1], before);
      NextKeepsNoticed(before, steps[|steps| - 1], s);
    }
  }

  lemma {:induction false} InitiallyNoticed()
    ensures Noticed(Initial)
  {
  }

  /**
   * A page taken leaves a counted Message unnoticed exactly where it was read to the
   * end of the queue and another was written to it and counted since it was read.
   */
  lemma {:induction false} TakenShortExactly(steps: seq<Step>, s: State, t: State)
    requires Run(Initial, steps) == Some(s) && Next(s, Take) == Some(t)
    requires !s.paused && s.cursor == s.page.value.from
    ensures Unnoticed(t)
        <==> s.page.value.ended && exists j :: s.page.value.numbered <= j < s.numbered && j in s.here && j !in s.uncounted
  {
    RunKeepsInv(steps, s);
    TakenLeaves(s, s.page.value, t);
  }

  lemma {:induction false} TakenLeaves(s: State, page: Page, t: State)
    requires Reading(s) && OneQueue(s.numbered, s.here, s.moved) && s.page == Some(page) && t == Taken(s, page)
    requires !s.paused && s.cursor == page.from
    ensures Unnoticed(t) <==> page.ended && exists j :: page.numbered <= j < s.numbered && j in s.here && j !in s.uncounted
  {
    if page.ended {
      forall j | j in s.here
        ensures j >= t.cursor <==> j >= page.numbered
      {
        LeftByPage(s, page, j);
      }
    }
  }

  /** Such a run: the queue is read empty, a Message is written to it and counted, and the page is taken after. */
  lemma {:induction false} AHoldMayWaitUnnoticed() returns (steps: seq<Step>, s: State, t: State)
    ensures Run(Initial, steps) == Some(s) && Next(s, Take) == Some(t) && Unnoticed(t)
  {
    var holding := Written(0).(toHold := 1);
    var resumed := Resumed(holding);
    var asking := resumed.(asked := Some(0));
    var reading := resumed.(page := Some(Page(0, 0, [], true)));
    var written := reading.(toHold := 0, numbered := 1, here := {0}, uncounted := {0});
    s := CountedNow(written, 0);
    t := Taken(s, Page(0, 0, [], true));
    assert All(0) == {} && {} + {0} == {0} && Oldest({}, 0, 0) == [];
    OneWritten(0);
    Resumes(holding);
    EmptyRead(resumed, asking, reading, written);
    Counts(written, 0);
    assert Unnoticed(t) by {
      assert 0 in t.here && 0 >= t.cursor && 0 !in t.uncounted;
    }
    assert Next(s, Take) == Some(t);
    hide Next, Unnoticed;
    steps := HoldsWritten(0);
    steps := Onward(steps, Written(0), DecideHold, holding);
    steps := Onward(steps, holding, Act(false, true, true), resumed);
    steps := Onward(steps, resumed, Ask, asking);
    steps := Onward(steps, asking, Read, reading);
    steps := Onward(steps, reading, WriteHold, written);
    steps := Onward(steps, written, Count(0), s);
  }

  lemma {:induction false} EmptyRead(resumed: State, asking: State, reading: State, written: State)
    requires resumed == Resumed(Written(0).(toHold := 1)) && asking == resumed.(asked := Some(0))
    requires reading == resumed.(page := Some(Page(0, 0, [], true)))
    requires written == reading.(toHold := 0, numbered := 1, here := {0}, uncounted := {0})
    ensures Next(resumed, Ask) == Some(asking) && Next(asking, Read) == Some(reading)
    ensures Next(reading, WriteHold) == Some(written)
  {
    assert All(0) == {} && {} + {0} == {0} && Oldest({}, 0, 0) == [];
  }

  // ---- One batch over every Subscription ----

  datatype Released = Released(subscription: nat, number: nat)

  /** Whether an earlier one of its Subscription in the batch fails where it is picked up: the first such is. */
  ghost predicate StalledAt(batch: seq<Released>, fails: nat -> bool, k: nat)
    requires k < |batch|
  {
    exists j: nat :: j < k && batch[j].subscription == batch[k].subscription && fails(j)
  }

  /**
   * `pick_up_released`, a batch of it: a Message is picked up unless one of its
   * Subscription before it in the batch failed; that one, and every later one of its
   * Subscription, is read again, and no other Subscription waits for it.
   */
  method PickUpReleased(batch: seq<Released>, fails: nat -> bool) returns (picked: set<nat>, again: set<nat>)
    ensures forall k :: k in picked <==> 0 <= k < |batch| && !StalledAt(batch, fails, k)
    ensures forall k :: k in again <==> 0 <= k < |batch| && (StalledAt(batch, fails, k) || fails(k))
  {
    var stalled: set<nat> := {};
    picked, again := {}, {};
    var n := 0;
    while n < |batch|
      invariant n <= |batch|
      invariant forall k :: k in picked <==> 0 <= k < n && !StalledAt(batch, fails, k)
      invariant forall k :: k in again <==> 0 <= k < n && (StalledAt(batch, fails, k) || fails(k))
      invariant forall sub :: sub in stalled <==> exists j: nat :: j < n && batch[j].subscription == sub && fails(j)
    {
      if batch[n].subscription in stalled {
        assert StalledAt(batch, fails, n);
        again := again + {n};
      } else {
        assert !StalledAt(batch, fails, n);
        picked := picked + {n};
        if fails(n) {
          again := again + {n};
          stalled := stalled + {batch[n].subscription};
        }
      }
      n := n + 1;
    }
  }
}
