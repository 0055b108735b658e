/**
 * Admission to the Send pool (src/send_step.rs, src/send_step/admission.rs,
 * src/send_step/scan.rs, src/held_work.rs): a Message is claimed and taken into
 * memory only under a place the pool has room for, whoever brings it: a
 * Publication, a scan of its queue, or a resumed Subscription's move.
 */
module SendStep {
  import opened Wrappers
  import opened Sums

  // ---- What a Publication lines up ----

  /** One Message a Publication opens: its Journey, the queue it joins, and whether this node sends it, out of sequence. */
  datatype Departing = Departing(journey: nat, queue: nat, sentHere: bool)

  datatype Hold = Hold(queue: nat, journey: nat)

  datatype Claimed = Claimed(journey: nat, queue: nat, token: nat)

  /** What a Publication writes: every Message's place in its queue, and the claims on those admitted. */
  datatype LinedUp = LinedUp(holds: seq<Hold>, claimed: seq<Claimed>, admitted: nat)

  const Nothing: LinedUp := LinedUp([], [], 0)

  function SentHere(departing: seq<Departing>): seq<Departing> {
    if departing == [] then [] else
    var last := departing[|departing| - 1];
    SentHere(departing[..|departing| - 1]) + if last.sentHere then [last] else []
  }

  function Holds(departing: seq<Departing>): seq<Hold> {
    seq(|departing|, i requires 0 <= i < |departing| => Hold(departing[i].queue, departing[i].journey))
  }

  /** The first `places` of the Messages sent here, each claimed under a token of its own. */
  function Claims(departing: seq<Departing>, places: nat, token: nat): seq<Claimed> {
    var here := SentHere(departing);
    seq(Min(places, |here|), i requires 0 <= i < Min(places, |here|) => Claimed(here[i].journey, here[i].queue, token + i))
  }

  function LinedUpOf(departing: seq<Departing>, places: nat, token: nat): LinedUp {
    LinedUp(Holds(departing), Claims(departing, places, token), places)
  }

  /** The claims Xmip Storage's answer says this node holds. */
  function Confirmed(claimed: seq<Claimed>, held: set<nat>): seq<Claimed> {
    if claimed == [] then [] else
    var last := claimed[|claimed| - 1];
    Confirmed(claimed[..|claimed| - 1], held) + if last.token in held then [last] else []
  }

  lemma {:induction false} ConfirmedIsFewer(claimed: seq<Claimed>, held: set<nat>)
    ensures |Confirmed(claimed, held)| <= |claimed|
    ensures forall one :: one in Confirmed(claimed, held) <==> one in claimed && one.token in held
  {
    if claimed != [] {
      ConfirmedIsFewer(claimed[..|claimed| - 1], held);
      assert claimed == claimed[..|claimed| - 1] + [claimed[|claimed| - 1]];
    }
  }

  // ---- What the step keeps under its lock ----

  datatype State = State(
    most: nat,
    owned: set<nat>,
    admitted: nat,
    taking: set<nat>,
    handed: seq<nat>,
    starved: seq<nat>,
    asked: seq<nat>)

  function Initial(most: nat): State {
    State(most, {}, 0, {}, [], [], [])
  }

  function Room(s: State): nat {
    SaturatingSub(Max(s.most, 1), |s.owned| + s.admitted)
  }

  function Asked(asked: seq<nat>, queue: nat): seq<nat> {
    if queue in asked then asked else asked + [queue]
  }

  function AllAsked(asked: seq<nat>, queues: seq<nat>): seq<nat> {
    if queues == [] then asked else Asked(AllAsked(asked, queues[..|queues| - 1]), queues[|queues| - 1])
  }

  /** `freed`: every queue left for want of a place asked for again. */
  function Freed(s: State): State {
    s.(asked := AllAsked(s.asked, s.starved), starved := [])
  }

  function Admitted(s: State, wanted: nat): State {
    s.(admitted := s.admitted + Min(wanted, Room(s)))
  }

  function Withdrawn(s: State, places: nat): State {
    if places == 0 then s else Freed(s.(admitted := SaturatingSub(s.admitted, places)))
  }

  function Owning(s: State, journey: nat): State {
    s.(admitted := SaturatingSub(s.admitted, 1), taking := s.taking - {journey}, owned := s.owned + {journey})
  }

  function Untaken(s: State, journey: nat): State {
    Freed(if journey in s.taking then s.(taking := s.taking - {journey}, admitted := SaturatingSub(s.admitted, 1)) else s)
  }

  /** `settle`, `lost`: a Message's send over, whatever it ended as. */
  function Let(s: State, journey: nat): State {
    Freed(s.(owned := s.owned - {journey}))
  }

  /** The Messages of `claimed` whose Journeys are among `journeys` owned and handed on, in order. */
  function Handing(s: State, claimed: seq<Claimed>, journeys: set<nat>): State {
    if claimed == [] then s else
    var before := Handing(s, claimed[..|claimed| - 1], journeys);
    var journey := claimed[|claimed| - 1].journey;
    if journey !in journeys then before
    else before.(owned := before.owned + {journey}, handed := before.handed + [journey])
  }

  /** The queue of every Message queued and not owned here asked for. */
  function AskedFor(s: State, holds: seq<Hold>): State {
    if holds == [] then s else
    var before := AskedFor(s, holds[..|holds| - 1]);
    var last := holds[|holds| - 1];
    if last.journey in before.owned then before else before.(asked := Asked(before.asked, last.queue))
  }

  function HandedIn(s: State, lined: LinedUp, journeys: set<nat>): State {
    AskedFor(Handing(s.(admitted := SaturatingSub(s.admitted, lined.admitted)), lined.claimed, journeys), lined.holds)
  }

  // ---- What line_up and handed promise ----

  lemma {:induction false} SentHereIs(departing: seq<Departing>)
    ensures forall one :: one in SentHere(departing) <==> one in departing && one.sentHere
    ensures |SentHere(departing)| <= |departing|
  {
    if departing != [] {
      SentHereIs(departing[..|departing| - 1]);
      assert departing == departing[..|departing| - 1] + [departing[|departing| - 1]];
    }
  }

  /**
   * Every Message of a Publication is queued, in its order; those claimed are sent
   * from here, each in its own queue and under a token of its own, and none sent
   * here is left unclaimed while one opened after it is claimed.
   */
  lemma {:induction false} LinedUpIs(departing: seq<Departing>, places: nat, token: nat)
    ensures var lined := LinedUpOf(departing, places, token);
      && |lined.holds| == |departing| && |lined.claimed| == Min(places, |SentHere(departing)|)
      && (forall i :: 0 <= i < |departing| ==> lined.holds[i] == Hold(departing[i].queue, departing[i].journey))
      && (forall one :: one in lined.claimed ==> Departing(one.journey, one.queue, true) in departing)
      && (forall i, j :: 0 <= i < j < |lined.claimed| ==> lined.claimed[i].token != lined.claimed[j].token)
      && (forall i, j :: 0 <= i < j < |SentHere(departing)| && j < |lined.claimed| ==>
            lined.claimed[i].journey == SentHere(departing)[i].journey && lined.claimed[j].journey == SentHere(departing)[j].journey)
  {
    var here := SentHere(departing);
    SentHereIs(departing);
    forall one | one in LinedUpOf(departing, places, token).claimed
      ensures Departing(one.journey, one.queue, true) in departing
    {
      var i :| 0 <= i < Min(places, |here|) && one == Claimed(here[i].journey, here[i].queue, token + i);
      assert here[i] in here;
    }
  }

  lemma {:induction false} HandingOwns(s: State, claimed: seq<Claimed>, journeys: set<nat>)
    ensures var t := Handing(s, claimed, journeys);
      && t == s.(owned := t.owned, handed := t.handed)
      && (forall j :: j in t.owned <==> j in s.owned || (j in journeys && exists one :: one in claimed && one.journey == j))
      && |t.owned| <= |s.owned| + |claimed| && |t.handed| <= |s.handed| + |claimed|
  {
    if claimed != [] {
      var rest, last := claimed[..|claimed| - 1], claimed[|claimed| - 1];
      HandingOwns(s, rest, journeys);
      assert claimed == rest + [last];
      assert last in claimed;
      assert forall one :: one in rest ==> one in claimed;
      assert forall one :: one in claimed ==> one in rest || one == last;
    }
  }

  lemma {:induction false} AskedForAll(s: State, holds: seq<Hold>)
    ensures var t := AskedFor(s, holds);
      && t == s.(asked := t.asked)
      && (forall q :: q in s.asked ==> q in t.asked)
      && (forall hold :: hold in holds ==> hold.journey in t.owned || hold.queue in t.asked)
  {
    if holds != [] {
      AskedForAll(s, holds[..|holds| - 1]);
      assert holds == holds[..|holds| - 1] + [holds[|holds| - 1]];
    }
  }

  /** Every Message queued is owned here once it is handed in, or its queue is asked for. */
  lemma {:induction false} HandedIsOwnedOrAsked(s: State, lined: LinedUp, journeys: set<nat>)
    ensures var t := HandedIn(s, lined, journeys);
      && (forall hold :: hold in lined.holds ==> hold.journey in t.owned || hold.queue in t.asked)
      && (forall one :: one in lined.claimed && one.journey in journeys ==> one.journey in t.owned)
      && |t.owned| <= |s.owned| + |lined.claimed| && t.admitted == SaturatingSub(s.admitted, lined.admitted)
      && t == s.(owned := t.owned, handed := t.handed, asked := t.asked, admitted := t.admitted)
  {
    var begun := s.(admitted := SaturatingSub(s.admitted, lined.admitted));
    HandingOwns(begun, lined.claimed, journeys);
    AskedForAll(Handing(begun, lined.claimed, journeys), lined.holds);
  }

  // ---- Whole runs ----

  /** Where the node's one dispatching stands in the queue it reads. */
  datatype Scanning =
    | Off
    /** A Message found, neither owned nor being taken when it was looked for. */
    | Knew(journey: nat, queue: nat)
    /** A place admitted for it, and not yet marked as being taken. */
    | Got(journey: nat, queue: nat)
    /** No room was found for the queue, and it is not noted yet. */
    | Full(queue: nat)

  /** The step, and what is between its sections: what was begun under a place and has not let go of it. */
  datatype Node = Node(
    step: State,
    /** The Publications lined up and not handed in yet. */
    lined: seq<LinedUp>,
    /** The moves with a place of their own. */
    moving: nat,
    scanning: Scanning,
    /** What scans found, each to be claimed on a thread. */
    tasks: multiset<nat>,
    /** Kept of the run, beside what the node has: the queues noted for want of a place and not read since. */
    owed: set<nat>)

  datatype Step =
    | LineUp(departing: seq<Departing>, token: nat)
    | Confirm(at: nat, held: set<nat>)
    | Refused(at: nat)
    | HandIn(at: nat, journeys: set<nat>)
    | StartMove
    | GiveBack
    | HandMoved(journey: nat)
    | ScanKnows(journey: nat, queue: nat)
    | ScanAdmits
    | ScanTakes
    | FindsFull(queue: nat)
    | Starve
    | TakeUp(journey: nat)
    | Untake(journey: nat)
    | Ask(queue: nat)
    | Settle(journey: nat)
    /** What was asked for taken to be read, or every queue where a scan of them all is due. */
    | Drain(all: bool)

  function Wanted(departing: seq<Departing>): nat {
    |SentHere(departing)|
  }

  /** The claims of a Publication not this node's after all. */
  function Gone(lined: LinedUp, held: set<nat>): nat {
    SaturatingSub(|lined.claimed|, |Confirmed(lined.claimed, held)|)
  }

  function Next(n: Node, step: Step): Option<Node> {
    var s := n.step;
    match step
    case LineUp(departing, token) =>
      var places := Min(Wanted(departing), Room(s));
      Some(n.(step := Admitted(s, Wanted(departing)), lined := n.lined + [LinedUpOf(departing, places, token)]))
    case Confirm(at, held) =>
      if at >= |n.lined| then None else
      var lined := n.lined[at];
      var gone := Gone(lined, held);
      var kept := lined.(claimed := Confirmed(lined.claimed, held), admitted := SaturatingSub(lined.admitted, gone));
      Some(n.(step := Withdrawn(s, gone), lined := n.lined[at := kept]))
    case Refused(at) =>
      if at >= |n.lined| then None
      else Some(n.(step := Withdrawn(s, n.lined[at].admitted), lined := n.lined[at := Nothing]))
    case HandIn(at, journeys) =>
      if at >= |n.lined| then None
      else Some(n.(step := HandedIn(s, n.lined[at], journeys), lined := n.lined[at := Nothing]))
    case StartMove => if Room(s) == 0 then None else Some(n.(step := Admitted(s, 1), moving := n.moving + 1))
    case GiveBack => if n.moving == 0 then None else Some(n.(step := Withdrawn(s, 1), moving := n.moving - 1))
    case HandMoved(journey) =>
      if n.moving == 0 then None
      else Some(n.(step := Owning(s, journey).(handed := s.handed + [journey]), moving := n.moving - 1))
    case ScanKnows(journey, queue) =>
      if !n.scanning.Off? || journey in s.owned || journey in s.taking then None
      else Some(n.(scanning := Knew(journey, queue)))
    case ScanAdmits =>
      if !n.scanning.Knew? then None
      else if Room(s) == 0 then Some(n.(scanning := Full(n.scanning.queue)))
      else Some(n.(step := Admitted(s, 1), scanning := Got(n.scanning.journey, n.scanning.queue)))
    case ScanTakes =>
      if !n.scanning.Got? then None else
      var journey := n.scanning.journey;
      Some(n.(step := s.(taking := s.taking + {journey}), tasks := n.tasks + multiset{journey}, scanning := Off))
    case FindsFull(queue) =>
      if !n.scanning.Off? || Room(s) > 0 then None else Some(n.(scanning := Full(queue)))
    case Starve =>
      if !n.scanning.Full? then None else
      var queue := n.scanning.queue;
      Some(n.(step := s.(starved := Asked(s.starved, queue)), owed := n.owed + {queue}, scanning := Off))
    case TakeUp(journey) =>
      if journey !in n.tasks then None
      else Some(n.(step := Owning(s, journey), tasks := n.tasks - multiset{journey}))
    case Untake(journey) =>
      if journey !in n.tasks then None
      else Some(n.(step := Untaken(s, journey), tasks := n.tasks - multiset{journey}))
    case Ask(queue) => Some(n.(step := s.(asked := Asked(s.asked, queue))))
    case Settle(journey) => Some(n.(step := Let(s, journey)))
    case Drain(all) =>
      if !n.scanning.Off? then None else
      Some(n.(step := s.(handed := [], asked := []), owed := if all then {} else set q | q in n.owed && q !in s.asked))
  }

  function Run(n: Node, steps: seq<Step>): Option<Node> {
    if steps == [] then Some(n)
    else match Run(n, steps[..|steps| - 1])
      case None => None
      case Some(before) => Next(before, steps[|steps| - 1])
  }

  function Begun(most: nat): Node {
    Node(Initial(most), [], 0, Off, multiset{}, {})
  }

  /** What may happen to a Message a scan is taking that a move hands on meanwhile. */
  datatype Event =
    /** Its hand-on takes it for the scan's own, and marks it as taken no longer. */
    | Orphaned
    /** The scan's claim is refused, and finds nothing of its own to give back. */
    | Leaked
    /** The scan's claim is granted all the same. */
    | TakenLate

  predicate Happens(n: Node, step: Step, event: Event) {
    match event
    case Orphaned => step.HandMoved? && step.journey in n.step.taking
    case Leaked => step.Untake? && step.journey !in n.step.taking
    case TakenLate => step.TakeUp? && step.journey !in n.step.taking
  }

  function Once(n: Node, step: Step, event: Event): nat {
    if Happens(n, step, event) then 1 else 0
  }

  /** How many steps of a run were such. */
  function Times(most: nat, steps: seq<Step>, event: Event): nat {
    if steps == [] then 0 else
    var past := steps[..|steps| - 1];
    var before := Run(Begun(most), past);
    Times(most, past, event) + if before.Some? then Once(before.value, steps[|steps| - 1], event) else 0
  }

  function Places(lined: seq<LinedUp>): seq<nat> {
    seq(|lined|, i requires 0 <= i < |lined| => lined[i].admitted)
  }

  /** The places of what is under way. */
  function UnderWay(n: Node): nat {
    Sum(Places(n.lined)) + n.moving + |n.tasks| + if n.scanning.Got? then 1 else 0
  }

  ghost predicate Inv(n: Node) {
    && UnderWay(n) <= n.step.admitted
    && |n.step.owned| + n.step.admitted <= Max(n.step.most, 1)
    && (forall i :: 0 <= i < |n.lined| ==> |n.lined[i].claimed| == n.lined[i].admitted)
    && Marked(n) && Noted(n)
  }

  /** What is marked as being taken has a task, and what a scan looks at is not marked yet. */
  ghost predicate Marked(n: Node) {
    && (forall j :: j in n.step.taking ==> j in n.tasks)
    && (n.scanning.Knew? || n.scanning.Got? ==> n.scanning.journey !in n.step.taking)
  }

  /** A queue owed a reading is noted still, or asked for. */
  ghost predicate Noted(n: Node) {
    forall q :: q in n.owed ==> q in n.step.starved || q in n.step.asked
  }

  /** What a step makes of the places: they change as what is under way does, but for one that leaks. */
  ghost predicate Conserves(n: Node, step: Step, t: Node) {
    && t.step.most == n.step.most
    && t.step.admitted + UnderWay(n) == n.step.admitted + UnderWay(t) + Once(n, step, Leaked)
    && |t.step.owned| + t.step.admitted <= Max(t.step.most, 1)
    && (forall i :: 0 <= i < |t.lined| ==> |t.lined[i].claimed| == t.lined[i].admitted)
  }

  lemma {:induction false} SlotChanged(lined: seq<LinedUp>, at: nat, one: LinedUp)
    requires at < |lined|
    ensures Sum(Places(lined[at := one])) + lined[at].admitted == Sum(Places(lined)) + one.admitted
    ensures lined[at].admitted <= Sum(Places(lined))
  {
    assert Places(lined[at := one]) == Places(lined)[at := one.admitted];
    SumUpdate(Places(lined), at, one.admitted);
    SumElement(Places(lined), at);
  }

  lemma {:induction false} NextConserves(n: Node, step: Step, t: Node)
    requires Inv(n) && Next(n, step) == Some(t)
    ensures Conserves(n, step, t)
  {
    hide Marked, Noted;
    match step
    case LineUp(departing, token) => LineUpConserves(n, departing, token, t);
    case Confirm(at, held) => ConfirmConserves(n, at, held, t);
    case Refused(at) => SlotChanged(n.lined, at, Nothing);
    case HandIn(at, journeys) => HandInConserves(n, at, journeys, t);
    case _ => OthersConserve(n, step, t);
  }

  lemma {:induction false} LineUpConserves(n: Node, departing: seq<Departing>, token: nat, t: Node)
    requires Inv(n) && Next(n, LineUp(departing, token)) == Some(t)
    ensures Conserves(n, LineUp(departing, token), t)
  {
    hide Marked, Noted;
    var places := Min(Wanted(departing), Room(n.step));
    assert Places(t.lined) == Places(n.lined) + [places];
    SumAppend(Places(n.lined), [places]);
    SumOfOne(places);
  }

  lemma {:induction false} ConfirmConserves(n: Node, at: nat, held: set<nat>, t: Node)
    requires Inv(n) && Next(n, Confirm(at, held)) == Some(t)
    ensures Conserves(n, Confirm(at, held), t)
  {
    hide Marked, Noted;
    ConfirmedIsFewer(n.lined[at].claimed, held);
    SlotChanged(n.lined, at, t.lined[at]);
  }

  lemma {:induction false} HandInConserves(n: Node, at: nat, journeys: set<nat>, t: Node)
    requires Inv(n) && Next(n, HandIn(at, journeys)) == Some(t)
    ensures Conserves(n, HandIn(at, journeys), t)
  {
    hide HandedIn, Marked, Noted;
    SlotChanged(n.lined, at, Nothing);
    HandedIsOwnedOrAsked(n.step, n.lined[at], journeys);
  }

  lemma {:induction false} OthersConserve(n: Node, step: Step, t: Node)
    requires Inv(n) && Next(n, step) == Some(t)
    requires !step.LineUp? && !step.Confirm? && !step.Refused? && !step.HandIn?
    ensures Conserves(n, step, t)
  {
    hide Noted, Marked, Next, Conserves;
    match step
    case HandMoved(journey) => OwningConserves(n, step, t);
    case TakeUp(journey) => OwningConserves(n, step, t);
    case Untake(_) => UntakeConserves(n, step, t);
    case _ => UnmarkedConserve(n, step, t);
  }

  lemma {:induction false} OwningConserves(n: Node, step: Step, t: Node)
    requires Inv(n) && Next(n, step) == Some(t) && (step.HandMoved? || step.TakeUp?)
    ensures Conserves(n, step, t)
  {
    hide Noted, Marked, HandedIn, LinedUpOf, Confirmed, AllAsked, Sum, Places, Withdrawn, Untaken;
    OneMore(n.step.owned, step.journey);
  }

  lemma {:induction false} UntakeConserves(n: Node, step: Step, t: Node)
    requires Inv(n) && Next(n, step) == Some(t) && step.Untake?
    ensures Conserves(n, step, t)
  {
    hide Noted, Marked, HandedIn, LinedUpOf, Confirmed, AllAsked, Sum, Places, Withdrawn, Owning;
  }

  lemma {:induction false} UnmarkedConserve(n: Node, step: Step, t: Node)
    requires Inv(n) && Next(n, step) == Some(t)
    requires !step.LineUp? && !step.Confirm? && !step.Refused? && !step.HandIn?
    requires !step.HandMoved? && !step.TakeUp? && !step.Untake?
    ensures Conserves(n, step, t)
  {
    hide Noted, Marked, HandedIn, LinedUpOf, Confirmed, Asked, AllAsked, Sum, Places, Owning, Untaken;
    if step.Settle? {
      OneFewer(n.step.owned, step.journey);
    }
  }

  lemma {:induction false} OneMore(owned: set<nat>, journey: nat)
    ensures |owned + {journey}| == |owned| + if journey in owned then 0 else 1
  {
    if journey in owned {
      assert owned + {journey} == owned;
    }
  }

  lemma {:induction false} OneFewer(owned: set<nat>, journey: nat)
    ensures |owned - {journey}| + (if journey in owned then 1 else 0) == |owned|
  {
    if journey in owned {
      assert owned == (owned - {journey}) + {journey};
    } else {
      assert owned - {journey} == owned;
    }
  }

  lemma {:induction false} MarkedStays(n: Node, step: Step, t: Node)
    requires Marked(n) && Next(n, step) == Some(t)
    ensures Marked(t)
  {
    match step
    case HandIn(at, journeys) =>
      hide HandedIn;
      HandedIsOwnedOrAsked(n.step, n.lined[at], journeys);
    case HandMoved(_) => FewerMarked(n, step, t);
    case TakeUp(_) => FewerMarked(n, step, t);
    case Untake(_) => FewerMarked(n, step, t);
    case ScanTakes => OneMarked(n, t);
    case _ => MarksStay(n, step, t);
  }

  lemma {:induction false} MarksStay(n: Node, step: Step, t: Node)
    requires Next(n, step) == Some(t)
    requires !step.HandMoved? && !step.TakeUp? && !step.Untake? && !step.HandIn? && !step.ScanTakes?
    ensures t.step.taking == n.step.taking && t.tasks == n.tasks
    ensures Marked(n) ==> Marked(t)
  {
    hide LinedUpOf, Confirmed, AllAsked, Room;
  }

  lemma {:induction false} FewerMarked(n: Node, step: Step, t: Node)
    requires Marked(n) && Next(n, step) == Some(t) && (step.HandMoved? || step.TakeUp? || step.Untake?)
    ensures Marked(t)
  {
    hide HandedIn, LinedUpOf, Confirmed, AllAsked, Withdrawn;
  }

  lemma {:induction false} OneMarked(n: Node, t: Node)
    requires Marked(n) && Next(n, ScanTakes) == Some(t)
    ensures Marked(t)
  {
  }

  lemma {:induction false} NotedStays(n: Node, step: Step, t: Node)
    requires Noted(n) && Next(n, step) == Some(t)
    ensures Noted(t)
  {
    hide HandedIn, LinedUpOf, Confirmed, Room;
    AllAskedFor(n.step.asked, n.step.starved);
    if step.HandIn? {
      HandedIsOwnedOrAsked(n.step, n.lined[step.at], step.journeys);
      HandedInAsks(n.step, n.lined[step.at], step.journeys);
    }
  }

  lemma {:induction false} NextKeepsInv(n: Node, step: Step, t: Node)
    requires Inv(n) && Next(n, step) == Some(t)
    ensures Inv(t) && Conserves(n, step, t)
  {
    hide Next, Marked, Noted;
    NextConserves(n, step, t);
    MarkedStays(n, step, t);
    NotedStays(n, step, t);
  }

  lemma {:induction false} RunKeepsInv(most: nat, steps: seq<Step>, n: Node)
    requires Run(Begun(most), steps) == Some(n)
    ensures Inv(n) && n.step.most == most && n.step.admitted == UnderWay(n) + Times(most, steps, Leaked)
  {
    hide Next, Marked, Noted, Once, UnderWay;
    if steps == [] {
      BegunInv(most);
    } else {
      var before := Run(Begun(most), steps[..|steps| - 1]).value;
      RunKeepsInv(most, steps[..|steps| - 1], before);
      NextKeepsInv(before, steps[|steps| - 1], n);
    }
  }

  lemma {:induction false} BegunInv(most: nat)
    ensures Inv(Begun(most)) && UnderWay(Begun(most)) == 0
  {
  }

  /**
   * Over every run of Publications, scans, moves and sends ending, the places
   * admitted are those of what is under way and one for each leak; and what the
   * node owns and has admitted never exceeds the pool's most, so no subtraction
   * of places ever saturates.
   */
  lemma {:induction false} PlacesAreConserved(most: nat, steps: seq<Step>, n: Node)
    requires Run(Begun(most), steps) == Some(n)
    ensures n.step.admitted == UnderWay(n) + Times(most, steps, Leaked)
    ensures |n.step.owned| + n.step.admitted <= Max(most, 1)
    ensures forall i :: 0 <= i < |n.lined| ==> |n.lined[i].claimed| == n.lined[i].admitted <= n.step.admitted
  {
    RunKeepsInv(most, steps, n);
    forall i | 0 <= i < |n.lined|
      ensures n.lined[i].admitted <= n.step.admitted
    {
      SlotChanged(n.lined, i, Nothing);
    }
  }

  /**
   * Every Message marked by a scan whose mark a move took for its own is being
   * claimed still, was taken up late, or leaked the place the scan had for it.
   */
  lemma {:induction false} OrphansLeakOrAreTaken(most: nat, steps: seq<Step>, n: Node)
    requires Run(Begun(most), steps) == Some(n)
    ensures |n.step.taking| + Times(most, steps, Orphaned)
         == |n.tasks| + Times(most, steps, Leaked) + Times(most, steps, TakenLate)
    ensures n.tasks == multiset{} ==> n.step.taking == {}
  {
    RunKeepsInv(most, steps, n);
    if steps != [] {
      hide Next, Once;
      var before := Run(Begun(most), steps[..|steps| - 1]).value;
      RunKeepsInv(most, steps[..|steps| - 1], before);
      OrphansLeakOrAreTaken(most, steps[..|steps| - 1], before);
      MarksChange(before, steps[|steps| - 1], n);
    }
  }

  lemma {:induction false} MarksChange(n: Node, step: Step, t: Node)
    requires Inv(n) && Next(n, step) == Some(t)
    ensures |t.step.taking| + |n.tasks| + Once(n, step, Orphaned)
         == |n.step.taking| + |t.tasks| + Once(n, step, Leaked) + Once(n, step, TakenLate)
  {
    hide Noted, UnderWay, HandedIn, LinedUpOf, Confirmed, AllAsked, Room;
    match step
    case HandMoved(journey) => OneFewer(n.step.taking, journey);
    case TakeUp(journey) => OneFewer(n.step.taking, journey);
    case Untake(journey) => OneFewer(n.step.taking, journey);
    case HandIn(at, journeys) => HandedIsOwnedOrAsked(n.step, n.lined[at], journeys);
    case ScanTakes => OneMore(n.step.taking, n.scanning.journey);
    case _ => MarksStay(n, step, t);
  }

  /** Nothing is on its way and nothing owned. */
  ghost predicate AtRest(n: Node) {
    && n.moving == 0 && n.tasks == multiset{} && n.step.owned == {} && !n.scanning.Got?
    && forall i :: 0 <= i < |n.lined| ==> n.lined[i].admitted == 0
  }

  /**
   * At rest every place is free again but those leaked: all of them exactly where
   * every Message a move took over from a scan was claimed by the scan all the same.
   */
  lemma {:induction false} NoPlaceLeaksExactly(most: nat, steps: seq<Step>, n: Node)
    requires Run(Begun(most), steps) == Some(n) && AtRest(n)
    ensures Room(n.step) == Max(most, 1) - Times(most, steps, Leaked)
    ensures Room(n.step) == Max(most, 1) <==> Times(most, steps, Orphaned) == Times(most, steps, TakenLate)
  {
    RunKeepsInv(most, steps, n);
    OrphansLeakOrAreTaken(most, steps, n);
    SumOfNone(n.lined);
  }

  lemma {:induction false} SumOfNone(lined: seq<LinedUp>)
    requires forall i :: 0 <= i < |lined| ==> lined[i].admitted == 0
    ensures Sum(Places(lined)) == 0
  {
    if lined != [] {
      assert Places(lined)[1..] == Places(lined[1..]);
      SumOfNone(lined[1..]);
    }
  }

  /** A node that leaked every place it has room for none from then on, whatever ends. */
  lemma {:induction false} EveryPlaceLeakedIsForGood(most: nat, steps: seq<Step>, n: Node, k: nat)
    requires Run(Begun(most), steps) == Some(n) && k <= |steps|
    requires Times(most, steps[..k], Leaked) >= Max(most, 1)
    ensures Room(n.step) == 0
  {
    RunKeepsInv(most, steps, n);
    LeaksStay(most, steps, k);
  }

  lemma {:induction false} LeaksStay(most: nat, steps: seq<Step>, k: nat)
    requires k <= |steps|
    ensures Times(most, steps[..k], Leaked) <= Times(most, steps, Leaked)
    decreases |steps|
  {
    if k == |steps| {
      assert steps[..k] == steps;
    } else {
      LeaksStay(most, steps[..|steps| - 1], k);
      assert steps[..|steps| - 1][..k] == steps[..k];
    }
  }

  lemma {:induction false} Onward(most: nat, steps: seq<Step>, n: Node, step: Step, t: Node) returns (steps': seq<Step>)
    requires Run(Begun(most), steps) == Some(n) && Next(n, step) == Some(t)
    ensures steps' == steps + [step] && Run(Begun(most), steps') == Some(t)
    ensures Times(most, steps', Leaked) == Times(most, steps, Leaked) + Once(n, step, Leaked)
  {
    steps' := steps + [step];
    assert steps'[..|steps|] == steps;
  }

  /** A move's Message, found by a scan before the move hands it on. */
  const FOUND := Node(State(2, {}, 2, {1}, [], [], []), [], 1, Off, multiset{1}, {})

  lemma {:induction false} AMoveIsScanned() returns (steps: seq<Step>)
    ensures Run(Begun(2), steps) == Some(FOUND) && Times(2, steps, Leaked) == 0
  {
    var begun := Begun(2);
    var moving := begun.(step := begun.step.(admitted := 1), moving := 1);
    var knew := moving.(scanning := Knew(1, 7));
    var got := knew.(step := begun.step.(admitted := 2), scanning := Got(1, 7));
    MoveStarts(begun);
    ScanGoesOn(moving, 1, 7);
    ScanAdmitsOne(knew);
    ScanMarks(got);
    hide Next;
    steps := [];
    steps := Onward(2, steps, begun, StartMove, moving);
    steps := Onward(2, steps, moving, ScanKnows(1, 7), knew);
    steps := Onward(2, steps, knew, ScanAdmits, got);
    assert begun.step.taking + {1} == {1} && begun.tasks + multiset{1} == multiset{1};
    steps := Onward(2, steps, got, ScanTakes, FOUND);
  }

  lemma {:induction false} MoveStarts(n: Node)
    requires Room(n.step) > 0
    ensures Next(n, StartMove) == Some(n.(step := n.step.(admitted := n.step.admitted + 1), moving := n.moving + 1))
    ensures !Happens(n, StartMove, Leaked)
  {
  }

  lemma {:induction false} ScanGoesOn(n: Node, journey: nat, queue: nat)
    requires n.scanning.Off? && journey !in n.step.owned && journey !in n.step.taking
    ensures Next(n, ScanKnows(journey, queue)) == Some(n.(scanning := Knew(journey, queue)))
  {
  }

  lemma {:induction false} ScanAdmitsOne(n: Node)
    requires n.scanning.Knew? && Room(n.step) > 0
    ensures Next(n, ScanAdmits)
         == Some(n.(step := n.step.(admitted := n.step.admitted + 1), scanning := Got(n.scanning.journey, n.scanning.queue)))
  {
  }

  lemma {:induction false} ScanMarks(n: Node)
    requires n.scanning.Got?
    ensures Next(n, ScanTakes)
         == Some(n.(step := n.step.(taking := n.step.taking + {n.scanning.journey}),
                    tasks := n.tasks + multiset{n.scanning.journey}, scanning := Off))
  {
  }

  /**
   * A place leaks: a move puts a Message in its Port's queue, a scan finds it there
   * before the move hands it on, the hand-on takes the scan's mark for its own, and
   * the scan's refused claim finds nothing to give back.
   */
  lemma {:induction false} APlaceLeaks() returns (steps: seq<Step>, n: Node)
    ensures Run(Begun(2), steps) == Some(n) && AtRest(n)
    ensures Times(2, steps, Leaked) == 1 && Room(n.step) == 1
  {
    var handed := FOUND.(step := State(2, {1}, 1, {}, [1], [], []), moving := 0);
    var untaken := handed.(tasks := multiset{});
    n := untaken.(step := State(2, {}, 1, {}, [1], [], []));
    HandedThenRefused(FOUND, 1);
    SendEnds(untaken, 1);
    assert FOUND.step.owned + {1} == {1} && FOUND.step.taking - {1} == {} && FOUND.step.handed + [1] == [1];
    assert FOUND.tasks - multiset{1} == multiset{} && untaken.step.owned - {1} == {};
    hide Next, Run, Times, Sum;
    assert AtRest(n);
    steps := AMoveIsScanned();
    steps := Onward(2, steps, FOUND, HandMoved(1), handed);
    steps := Onward(2, steps, handed, Untake(1), untaken);
    steps := Onward(2, steps, untaken, Settle(1), n);
  }

  /** A Message a scan marked handed on by a move, and then the scan's claim on it refused. */
  lemma {:induction false} HandedThenRefused(n: Node, journey: nat)
    requires n.moving > 0 && journey in n.step.taking && journey in n.tasks && n.step.admitted > 0 && n.step.starved == []
    ensures var s, once := n.step, multiset{journey};
      var handed := n.(moving := n.moving - 1,
        step := s.(admitted := s.admitted - 1, taking := s.taking - {journey}, owned := s.owned + {journey},
                   handed := s.handed + [journey]));
      && Next(n, HandMoved(journey)) == Some(handed)
      && Next(handed, Untake(journey)) == Some(handed.(tasks := n.tasks - once))
  {
  }

  lemma {:induction false} SendEnds(n: Node, journey: nat)
    requires n.step.starved == []
    ensures Next(n, Settle(journey)) == Some(n.(step := n.step.(owned := n.step.owned - {journey})))
  {
  }

  // ---- The queues left for want of a place ----

  /** The steps that call `freed`: a place given back, a task untaken, a send over. */
  predicate Frees(n: Node, step: Step) {
    match step
    case Confirm(at, held) => at < |n.lined| && Gone(n.lined[at], held) > 0
    case Refused(at) => at < |n.lined| && n.lined[at].admitted > 0
    case GiveBack => true
    case Untake(_) => true
    case Settle(_) => true
    case _ => false
  }

  /** A place freed asks again for every queue left for want of one. */
  lemma {:induction false} FreedAsksAgain(n: Node, step: Step, t: Node, queue: nat)
    requires Next(n, step) == Some(t) && Frees(n, step) && queue in n.step.starved
    ensures queue in t.step.asked && t.step.starved == []
  {
    AllAskedFor(n.step.asked, n.step.starved);
  }

  lemma {:induction false} AllAskedFor(asked: seq<nat>, queues: seq<nat>)
    ensures forall q :: q in AllAsked(asked, queues) <==> q in asked || q in queues
  {
    if queues != [] {
      AllAskedFor(asked, queues[..|queues| - 1]);
      assert queues == queues[..|queues| - 1] + [queues[|queues| - 1]];
    }
  }

  /** Noted for want of a place and not read since, with room and not asked for: it waits for no reason. */
  predicate Forgotten(n: Node, queue: nat) {
    queue in n.owed && queue !in n.step.asked && Room(n.step) > 0
  }

  /** Whether handing in a Publication asks for the queue. */
  ghost predicate Asks(n: Node, at: nat, journeys: set<nat>, queue: nat)
    requires at < |n.lined|
  {
    queue in HandedIn(n.step, n.lined[at], journeys).asked
  }

  /** How many Messages a Publication handed in makes owned that were not. */
  function NewlyOwned(n: Node, at: nat, journeys: set<nat>): nat
    requires at < |n.lined|
  {
    SaturatingSub(|HandedIn(n.step, n.lined[at], journeys).owned|, |n.step.owned|)
  }

  /**
   * A step a queue comes to wait at for no reason: it is noted where a place freed
   * since none was found for it; or a place comes free under it by a step that
   * does not ask for what was left, one that takes less than it had admitted.
   */
  ghost predicate Overlooks(n: Node, step: Step, queue: nat) {
    && queue !in n.step.asked
    && match step
       case Starve => n.scanning == Full(queue) && Room(n.step) > 0
       case HandIn(at, journeys) =>
         && queue in n.owed && Room(n.step) == 0 && at < |n.lined|
         && NewlyOwned(n, at, journeys) < n.lined[at].admitted && !Asks(n, at, journeys, queue)
       case HandMoved(journey) => queue in n.owed && Room(n.step) == 0 && journey in n.step.owned
       case TakeUp(journey) => queue in n.owed && Room(n.step) == 0 && journey in n.step.owned
       case _ => false
  }

  /** A step that ends such a wait: one that asks for the queue or reads it, or that takes the last place. */
  ghost predicate Mends(n: Node, step: Step, queue: nat) {
    match step
    case LineUp(departing, _) => Wanted(departing) >= Room(n.step)
    case HandIn(at, journeys) => at < |n.lined| && Asks(n, at, journeys, queue)
    case StartMove => Room(n.step) == 1
    case ScanAdmits => Room(n.step) == 1
    case Ask(asked) => asked == queue
    case Drain(all) => all
    case _ => Frees(n, step)
  }

  /** Exactly the steps that overlook a queue and those that mend it decide whether it is forgotten. */
  lemma {:induction false} ForgottenStepByStep(n: Node, step: Step, t: Node, queue: nat)
    requires Inv(n) && Next(n, step) == Some(t)
    ensures Forgotten(t, queue) <==> Overlooks(n, step, queue) || (Forgotten(n, queue) && !Mends(n, step, queue))
  {
    hide Marked;
    match step
    case HandIn(at, journeys) => HandInForgets(n, at, journeys, t, queue);
    case HandMoved(journey) => OneMore(n.step.owned, journey);
    case TakeUp(journey) => OneMore(n.step.owned, journey);
    case _ =>
      if Frees(n, step) {
        FreedRemembers(n, step, t, queue);
      } else {
        UnfreedForgets(n, step, t, queue);
      }
  }

  lemma {:induction false} FreedRemembers(n: Node, step: Step, t: Node, queue: nat)
    requires Noted(n) && Next(n, step) == Some(t) && Frees(n, step)
    ensures !Forgotten(t, queue)
  {
    AllAskedFor(n.step.asked, n.step.starved);
  }

  lemma {:induction false} UnfreedForgets(n: Node, step: Step, t: Node, queue: nat)
    requires Next(n, step) == Some(t) && !Frees(n, step)
    requires !step.HandIn? && !step.HandMoved? && !step.TakeUp?
    ensures Forgotten(t, queue) <==> Overlooks(n, step, queue) || (Forgotten(n, queue) && !Mends(n, step, queue))
  {
  }

  lemma {:induction false} HandInForgets(n: Node, at: nat, journeys: set<nat>, t: Node, queue: nat)
    requires Inv(n) && Next(n, HandIn(at, journeys)) == Some(t)
    ensures Forgotten(t, queue)
        <==> || Overlooks(n, HandIn(at, journeys), queue)
             || (Forgotten(n, queue) && !Mends(n, HandIn(at, journeys), queue))
  {
    hide HandedIn, Marked, Noted;
    HandedIsOwnedOrAsked(n.step, n.lined[at], journeys);
    HandedInAsks(n.step, n.lined[at], journeys);
    SlotChanged(n.lined, at, Nothing);
  }

  lemma {:induction false} HandedInAsks(s: State, lined: LinedUp, journeys: set<nat>)
    ensures forall q :: q in s.asked ==> q in HandedIn(s, lined, journeys).asked
    ensures s.owned <= HandedIn(s, lined, journeys).owned
    ensures |HandedIn(s, lined, journeys).owned| >= |s.owned|
  {
    var begun := s.(admitted := SaturatingSub(s.admitted, lined.admitted));
    var handing := Handing(begun, lined.claimed, journeys);
    HandingOwns(begun, lined.claimed, journeys);
    AskedForAll(handing, lined.holds);
    assert handing.owned == s.owned + (handing.owned - s.owned);
  }

  /** Whether some step of a run overlooked the queue and none since mended it. */
  ghost predicate Overlooked(most: nat, steps: seq<Step>, queue: nat) {
    exists k :: 0 <= k < |steps| && OverlookedAt(most, steps, k, queue)
             && forall j :: k < j < |steps| ==> !MendedAt(most, steps, j, queue)
  }

  ghost predicate OverlookedAt(most: nat, steps: seq<Step>, k: nat, queue: nat)
    requires k < |steps|
  {
    var n := Run(Begun(most), steps[..k]);
    n.Some? && Overlooks(n.value, steps[k], queue)
  }

  ghost predicate MendedAt(most: nat, steps: seq<Step>, k: nat, queue: nat)
    requires k < |steps|
  {
    var n := Run(Begun(most), steps[..k]);
    n.Some? && Mends(n.value, steps[k], queue)
  }

  /**
   * Over every run a queue noted for want of a place waits with room and not asked
   * for exactly where a step overlooked it and no step since mended it.
   */
  lemma {:induction false} ForgottenExactly(most: nat, steps: seq<Step>, n: Node, queue: nat)
    requires Run(Begun(most), steps) == Some(n)
    ensures Forgotten(n, queue) <==> Overlooked(most, steps, queue)
  {
    hide Next, Inv, Forgotten, Overlooks, Mends, Overlooked;
    if steps == [] {
      NothingOverlooked(most, queue);
    } else {
      var past, last := steps[..|steps| - 1], steps[|steps| - 1];
      var before := Run(Begun(most), past).value;
      RunKeepsInv(most, past, before);
      ForgottenExactly(most, past, before, queue);
      ForgottenStepByStep(before, last, n, queue);
      OverlookedGrows(most, steps, before, queue);
    }
  }

  lemma {:induction false} NothingOverlooked(most: nat, queue: nat)
    ensures !Forgotten(Begun(most), queue) && !Overlooked(most, [], queue)
  {
  }

  lemma {:induction false} OverlookedGrows(most: nat, steps: seq<Step>, before: Node, queue: nat)
    requires steps != [] && Run(Begun(most), steps[..|steps| - 1]) == Some(before)
    ensures Overlooked(most, steps, queue)
        <==> || Overlooks(before, steps[|steps| - 1], queue)
             || (Overlooked(most, steps[..|steps| - 1], queue) && !Mends(before, steps[|steps| - 1], queue))
  {
    hide Run, Overlooks, Mends;
    var past := steps[..|steps| - 1];
    forall k | 0 <= k < |past|
      ensures OverlookedAt(most, past, k, queue) <==> OverlookedAt(most, steps, k, queue)
      ensures MendedAt(most, past, k, queue) <==> MendedAt(most, steps, k, queue)
    {
      assert past[..k] == steps[..k];
    }
    assert OverlookedAt(most, steps, |past|, queue) <==> Overlooks(before, steps[|past|], queue);
    assert MendedAt(most, steps, |past|, queue) <==> Mends(before, steps[|past|], queue);
  }

  /**
   * A note may come too late: a scan found no room, the last send ended and asked
   * for what had been noted, and only then is the queue noted.
   */
  lemma {:induction false} ANoteMayComeTooLate(queue: nat) returns (steps: seq<Step>, n: Node)
    ensures Run(Begun(1), steps) == Some(n) && AtRest(n) && Forgotten(n, queue)
  {
    var begun := Begun(1);
    var moving := begun.(step := begun.step.(admitted := 1), moving := 1);
    var sending := begun.(step := begun.step.(owned := {1}, handed := [1]));
    var full := sending.(scanning := Full(queue));
    var over := full.(step := begun.step.(handed := [1]));
    n := over.(scanning := Off, step := over.step.(starved := [queue]), owed := {queue});
    MoveStarts(begun);
    MoveHandsOn(moving, 1);
    assert begun.step.owned + {1} == {1} && begun.step.handed + [1] == [1] && sending.step.owned - {1} == {};
    NoneIsFound(sending, full, queue);
    SendEnds(full, 1);
    NotedThen(over, queue, n);
    hide Next, Times;
    assert AtRest(n) && Forgotten(n, queue);
    steps := [];
    assert Run(begun, steps) == Some(begun);
    hide Run;
    steps := Onward(1, steps, begun, StartMove, moving);
    steps := Onward(1, steps, moving, HandMoved(1), sending);
    steps := Onward(1, steps, sending, FindsFull(queue), full);
    steps := Onward(1, steps, full, Settle(1), over);
    steps := Onward(1, steps, over, Starve, n);
  }

  lemma {:induction false} MoveHandsOn(n: Node, journey: nat)
    requires n.moving > 0 && n.step.taking == {} && n.step.admitted > 0
    ensures Next(n, HandMoved(journey)) == Some(n.(moving := n.moving - 1,
      step := n.step.(admitted := n.step.admitted - 1, owned := n.step.owned + {journey}, handed := n.step.handed + [journey])))
  {
    assert n.step.taking - {journey} == {};
  }

  lemma {:induction false} NoneIsFound(n: Node, t: Node, queue: nat)
    requires n.scanning.Off? && Room(n.step) == 0 && t == n.(scanning := Full(queue))
    ensures Next(n, FindsFull(queue)) == Some(t)
  {
  }

  lemma {:induction false} NotedThen(n: Node, queue: nat, t: Node)
    requires n.scanning == Full(queue) && n.step.starved == [] && n.owed == {}
    requires t == n.(scanning := Off, step := n.step.(starved := [queue]), owed := {queue})
    ensures Next(n, Starve) == Some(t)
  {
    assert n.owed + {queue} == {queue} && n.step.starved + [queue] == [queue];
  }

  // ---- The step changed in place ----

  /** What Xmip Storage has for a Message claimed to be moved. */
  datatype Found = Waiting | Ended | Unreadable | NotAnswered

  datatype Answer = Yes | No | Failed

  /** How a move ended: done; passed over; or to be read again, with all after it. */
  datatype Moved = Done | Passed | Again

  class Admission {
    const most: nat
    var owned: set<nat>
    var admitted: nat
    var taking: set<nat>
    var handed: seq<nat>
    var starved: seq<nat>
    var asked: seq<nat>

    ghost function View(): State
      reads this
    {
      State(most, owned, admitted, taking, handed, starved, asked)
    }

    constructor (most: nat)
      ensures View() == Initial(most)
    {
      this.most := most;
      owned, admitted, taking, handed, starved, asked := {}, 0, {}, [], [], [];
    }

    method Admit(wanted: nat) returns (places: nat)
      modifies this`admitted
      ensures places == Min(wanted, Room(old(View()))) && View() == Admitted(old(View()), wanted)
    {
      places := Min(wanted, SaturatingSub(Max(most, 1), |owned| + admitted));
      admitted := admitted + places;
    }

    method Free()
      modifies this`asked, this`starved
      ensures View() == Freed(old(View()))
    {
      var i := 0;
      while i < |starved|
        invariant i <= |starved| && starved == old(starved)
        invariant asked == AllAsked(old(asked), starved[..i])
      {
        assert starved[..i + 1][..i] == starved[..i];
        asked := Asked(asked, starved[i]);
        i := i + 1;
      }
      assert starved[..i] == starved;
      starved := [];
    }

    method Withdraw(places: nat)
      modifies this`admitted, this`asked, this`starved
      ensures View() == Withdrawn(old(View()), places)
    {
      if places != 0 {
        admitted := SaturatingSub(admitted, places);
        Free();
      }
    }

    /**
     * `line_up`: every Message queued in its order, and of those sent here the first
     * the pool admits claimed, no more and no others.
     */
    method LineUp(departing: seq<Departing>, token: nat) returns (lined: LinedUp)
      modifies this`admitted
      ensures View() == Admitted(old(View()), Wanted(departing))
      ensures lined == LinedUpOf(departing, Min(Wanted(departing), Room(old(View()))), token)
    {
      var admitted := Admit(|SentHere(departing)|);
      var places, i := admitted, 0;
      var holds, claimed := [], [];
      while i < |departing|
        invariant i <= |departing|
        invariant holds == Holds(departing[..i])
        invariant claimed == Claims(departing[..i], admitted, token)
        invariant places + |claimed| == admitted
      {
        var one := departing[i];
        assert departing[..i + 1][..i] == departing[..i];
        holds := holds + [Hold(one.queue, one.journey)];
        if places > 0 && one.sentHere {
          places := places - 1;
          claimed := claimed + [Claimed(one.journey, one.queue, token + |claimed|)];
        }
        i := i + 1;
      }
      assert departing[..i] == departing;
      lined := LinedUp(holds, claimed, admitted);
    }

    /** `handed`: what a Publication lined up, once it is written. */
    method HandIn(lined: LinedUp, journeys: set<nat>)
      modifies this`admitted, this`owned, this`handed, this`asked
      ensures View() == HandedIn(old(View()), lined, journeys)
    {
      admitted := SaturatingSub(admitted, lined.admitted);
      ghost var begun := View();
      var i := 0;
      while i < |lined.claimed|
        invariant i <= |lined.claimed| && View() == Handing(begun, lined.claimed[..i], journeys)
      {
        assert lined.claimed[..i + 1][..i] == lined.claimed[..i];
        var journey := lined.claimed[i].journey;
        if journey in journeys {
          owned := owned + {journey};
          handed := handed + [journey];
        }
        i := i + 1;
      }
      assert lined.claimed[..i] == lined.claimed;
      ghost var owning := View();
      i := 0;
      while i < |lined.holds|
        invariant i <= |lined.holds| && View() == AskedFor(owning, lined.holds[..i])
      {
        assert lined.holds[..i + 1][..i] == lined.holds[..i];
        if lined.holds[i].journey !in owned {
          asked := Asked(asked, lined.holds[i].queue);
        }
        i := i + 1;
      }
      assert lined.holds[..i] == lined.holds;
    }

    /** `hand`: a Message owned under the place admitted for it, and handed to the pool. */
    method Hand(journey: nat)
      modifies this`admitted, this`taking, this`owned, this`handed
      ensures View() == Owning(old(View()), journey).(handed := old(handed) + [journey])
    {
      admitted := SaturatingSub(admitted, 1);
      taking := taking - {journey};
      owned := owned + {journey};
      handed := handed + [journey];
    }

    /**
     * `pick_up`: a held Message moved to its Send Port's queue. Whatever Xmip Storage
     * answers, a place taken for it is handed on with it or given back; and a Message
     * moved is owned here, or its queue asked for.
     */
    method PickUp(journey: nat, queue: nat, sentHere: bool, claim: Answer, found: Found, handOn: Answer) returns (moved: Moved)
      modifies this
      ensures admitted == old(admitted)
      ensures taking == if moved.Done? && sentHere && Room(old(View())) > 0 then old(taking) - {journey} else old(taking)
      ensures moved.Done? <==> claim.Yes? && found.Waiting? && handOn.Yes?
      ensures moved.Passed? <==> claim.Yes? && (found.Ended? || found.Unreadable?)
      ensures moved.Done? && sentHere && Room(old(View())) > 0 ==>
        owned == old(owned) + {journey} && handed == old(handed) + [journey]
      ensures moved.Done? && !(sentHere && Room(old(View())) > 0) ==>
        owned == old(owned) && handed == old(handed) && queue in asked
      ensures !moved.Done? ==> owned == old(owned) && handed == old(handed)
    {
      if !claim.Yes? || found.NotAnswered? {
        return Again;
      }
      if !found.Waiting? {
        return Passed;
      }
      var places := 0;
      if sentHere {
        places := Admit(1);
      }
      if !handOn.Yes? {
        Withdraw(places);
        return Again;
      }
      if places == 1 {
        Hand(journey);
      } else {
        asked := Asked(asked, queue);
      }
      moved := Done;
    }
  }
}
