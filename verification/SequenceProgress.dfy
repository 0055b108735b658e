/**
 * Whether waiting in sequences is circular (src/sequence.rs, `received`, `places`,
 * `stream_heads`; src/sequence/group.rs; src/sequence/late.rs, `heading`, `take_late`;
 * src/ledger/publication.rs, src/work_step/acts.rs): a Stream takes all its
 * end-to-end places in one write and lets them go at its end. A Message takes its
 * places once its Stream heads its own: its delivery's in its Send Port Group's
 * sequence first, and those at its destination in another write, once its delivery
 * heads that; or all of them in the write that opens it.
 */
module SequenceProgress {
  import opened Wrappers
  import opened SequenceLines

  // ---- Streams, and the Messages born of them ----

  /**
   * What one Subscription opens: the queue of its Send Port Group's sequence, where it
   * leads through one that has one, and the queues each Message takes its places in.
   */
  datatype Routed = Routed(group: Option<nat>, members: seq<seq<nat>>)

  /** What one Publication delivers through a Group: the queue its place is in, and the Stream its Messages were born of. */
  datatype Delivery = Delivery(queue: nat, stream: nat)

  /**
   * The Streams in their end-to-end sequences, the deliveries in their Groups' and the
   * Messages at their destinations; the Messages that wait for their places there, and
   * the queues each is to take them in; which of them know their delivery's place; and
   * which Stream and which delivery each is of.
   */
  datatype State = State(
    through: Line,
    groups: Line,
    bound: Line,
    waiting: map<nat, seq<nat>>,
    told: set<nat>,
    streamOf: map<nat, nat>,
    deliveryOf: map<nat, nat>,
    deliveries: map<nat, Delivery>,
    streams: nat,
    minted: nat,
    delivered: nat)

  const Initial: State := State(Empty, Empty, Empty, map[], {}, map[], map[], map[], 0, 0, 0)

  datatype Step =
    | Receive(queues: seq<nat>, routed: seq<Routed>)
    | TakeGroup(journey: nat)
    | TakeLate(journey: nat)
    | End(journey: nat, born: seq<Routed>)

  function Unended(s: State): set<nat> {
    s.waiting.Keys + s.bound.live
  }

  /** The Journeys of a Stream that have not ended, which Xmip Storage counts. */
  function Of(s: State, stream: nat): set<nat> {
    set j | j in Unended(s) && j in s.streamOf && s.streamOf[j] == stream
  }

  /** The members of a delivery that have not ended, which it counts too. */
  function Members(s: State, delivery: nat): set<nat> {
    set j | j in Unended(s) && j in s.deliveryOf && s.deliveryOf[j] == delivery
  }

  /** Its delivery's place in its Group's sequence taken, and the Message told it. */
  function Told(s: State, journey: nat): State {
    if journey !in s.deliveryOf || s.deliveryOf[journey] !in s.deliveries then s else
    var d := s.deliveryOf[journey];
    s.(told := s.told + {journey},
       groups := if d in s.groups.blocks then s.groups else Enter(s.groups, d, [s.deliveries[d].queue]))
  }

  function Born(s: State, stream: nat, delivery: Option<nat>): State {
    s.(streamOf := s.streamOf[s.minted := stream],
       deliveryOf := if delivery.Some? then s.deliveryOf[s.minted := delivery.value] else s.deliveryOf,
       minted := s.minted + 1)
  }

  /** A Journey opened, its places taken at once where `placed`. */
  function OpenOne(s: State, stream: nat, delivery: Option<nat>, queues: seq<nat>, placed: bool): State {
    var one := Born(s, stream, delivery);
    if placed then Told(one, s.minted).(bound := Enter(s.bound, s.minted, queues))
    else one.(waiting := s.waiting[s.minted := queues])
  }

  function OpenMembers(s: State, stream: nat, delivery: Option<nat>, members: seq<seq<nat>>, placed: bool): State {
    if members == [] then s
    else OpenOne(OpenMembers(s, stream, delivery, members[..|members| - 1], placed), stream, delivery, members[|members| - 1], placed)
  }

  function Delivering(s: State, stream: nat, group: Option<nat>): State {
    if group.None? then s
    else s.(deliveries := s.deliveries[s.delivered := Delivery(group.value, stream)], delivered := s.delivered + 1)
  }

  function DeliveryOf(s: State, group: Option<nat>): Option<nat> {
    if group.None? then None else Some(s.delivered)
  }

  function OpenRouted(s: State, stream: nat, r: Routed, placed: bool): State {
    OpenMembers(Delivering(s, stream, r.group), stream, DeliveryOf(s, r.group), r.members, placed)
  }

  function OpenAll(s: State, stream: nat, routed: seq<Routed>, placed: bool): State {
    if routed == [] then s
    else OpenRouted(OpenAll(s, stream, routed[..|routed| - 1], placed), stream, routed[|routed| - 1], placed)
  }

  predicate StreamHeads(s: State, journey: nat) {
    && journey in s.streamOf && s.streamOf[journey] in s.through.blocks
    && HeadsAll(s.through, s.streamOf[journey])
  }

  /** Whether its delivery heads its Group's sequence, where it is a member of one and was told its place. */
  predicate GroupHeads(s: State, journey: nat) {
    journey in s.deliveryOf ==>
      journey in s.told && s.deliveryOf[journey] in s.groups.blocks && HeadsAll(s.groups, s.deliveryOf[journey])
  }

  /** The Message's delivery gone from its Group's sequence, once none of its members has still to end. */
  function DeliveryEnded(s: State, journey: nat): State {
    if journey !in s.deliveryOf || s.deliveryOf[journey] !in s.groups.blocks || Members(s, s.deliveryOf[journey]) != {} then s
    else s.(groups := Leave(s.groups, s.deliveryOf[journey]))
  }

  /** The Stream gone from its sequences, once none of its Journeys has still to end. */
  function Ended(s: State, stream: nat): State
    requires stream in s.through.blocks
  {
    if Of(s, stream) == {} then s.(through := Leave(s.through, stream)) else s
  }

  /** Whether any Journey is opened. */
  predicate Opens(routed: seq<Routed>) {
    exists i :: 0 <= i < |routed| && routed[i].members != []
  }

  function Next(s: State, step: Step): Option<State> {
    match step
    case Receive(queues, routed) =>
      if !Opens(routed) then None else
      var received := s.(through := Enter(s.through, s.streams, queues), streams := s.streams + 1);
      Some(OpenAll(received, s.streams, routed, queues == []))
    case TakeGroup(j) =>
      if j !in s.waiting || j !in s.deliveryOf || j in s.told || !StreamHeads(s, j) then None
      else Some(Told(s, j))
    case TakeLate(j) =>
      if j !in s.waiting || !StreamHeads(s, j) || !GroupHeads(s, j) then None
      else Some(s.(waiting := s.waiting - {j}, bound := Enter(s.bound, j, s.waiting[j])))
    case End(j, born) =>
      if j !in s.bound.live || j !in s.bound.blocks || !StreamHeads(s, j) || !GroupHeads(s, j) || !HeadsAll(s.bound, j) then None
      else
        var after := DeliveryEnded(OpenAll(s.(bound := Leave(s.bound, j)), s.streamOf[j], born, true), j);
        if s.streamOf[j] !in after.through.blocks then None else Some(Ended(after, s.streamOf[j]))
  }

  function Run(s: State, steps: seq<Step>): Option<State> {
    if steps == [] then Some(s)
    else match Run(s, steps[..|steps| - 1])
      case None => None
      case Some(t) => Next(t, steps[|steps| - 1])
  }

  // ---- What every reachable state keeps ----

  ghost predicate LinesOk(through: Line, groups: Line, bound: Line, streams: nat, delivered: nat, minted: nat) {
    && LineOk(through) && Numbered(through, streams)
    && LineOk(groups) && Numbered(groups, delivered)
    && LineOk(bound) && Numbered(bound, minted)
  }

  ghost predicate IdsOk(
      streamOf: map<nat, nat>, waiting: set<nat>, bound: map<nat, Block>, deliveryOf: map<nat, nat>,
      deliveries: map<nat, Delivery>, minted: nat, delivered: nat) {
    && (forall j: nat :: j in streamOf <==> j < minted)
    && (forall j :: j in waiting ==> j < minted && j !in bound)
    && (forall j :: j in deliveryOf ==> j < minted)
    && (forall d :: d in deliveries ==> d < delivered)
  }

  /** The Messages of one delivery are of one Stream, and a delivery takes one place. */
  ghost predicate DeliveriesOk(
      streamOf: map<nat, nat>, deliveryOf: map<nat, nat>, deliveries: map<nat, Delivery>, blocks: map<nat, Block>) {
    && (forall j :: j in deliveryOf && j in streamOf ==>
          deliveryOf[j] in deliveries && deliveries[deliveryOf[j]].stream == streamOf[j])
    && (forall d :: d in blocks ==> d in deliveries && blocks[d].queues == [deliveries[d].queue])
  }

  ghost predicate UnendedOk(unended: set<nat>, streamOf: map<nat, nat>, live: set<nat>) {
    forall j :: j in unended && j in streamOf ==> streamOf[j] in live
  }

  /** What has its places has its Stream at the head of its sequences. */
  ghost predicate BoundHead(bound: set<nat>, streamOf: map<nat, nat>, through: Line) {
    forall j :: j in bound && j in streamOf && streamOf[j] in through.blocks ==> HeadsAll(through, streamOf[j])
  }

  ghost predicate GroupsHead(groups: set<nat>, deliveries: map<nat, Delivery>, through: Line) {
    forall d :: d in groups && d in deliveries ==>
      var n := deliveries[d].stream; n in through.live && (n in through.blocks ==> HeadsAll(through, n))
  }

  /** What knows its delivery's place has one, and what is at its destination knows it. */
  ghost predicate ToldOk(
      told: set<nat>, unended: set<nat>, bound: set<nat>, deliveryOf: map<nat, nat>, groups: Line) {
    && (forall j :: j in told ==> j in deliveryOf && deliveryOf[j] in groups.blocks)
    && (forall j :: j in unended && j in deliveryOf && deliveryOf[j] in groups.blocks ==> deliveryOf[j] in groups.live)
    && (forall j :: j in bound && j in deliveryOf ==> j in told)
  }

  /** All an opening keeps, whether or not every Stream has a Journey yet. */
  ghost predicate Base(s: State) {
    && LinesOk(s.through, s.groups, s.bound, s.streams, s.delivered, s.minted)
    && IdsOk(s.streamOf, s.waiting.Keys, s.bound.blocks, s.deliveryOf, s.deliveries, s.minted, s.delivered)
    && DeliveriesOk(s.streamOf, s.deliveryOf, s.deliveries, s.groups.blocks)
    && UnendedOk(Unended(s), s.streamOf, s.through.live)
    && BoundHead(s.bound.live, s.streamOf, s.through)
    && GroupsHead(s.groups.live, s.deliveries, s.through)
    && ToldOk(s.told, Unended(s), s.bound.live, s.deliveryOf, s.groups)
  }

  ghost predicate Inv(s: State) {
    && Base(s)
    && (forall n :: n in s.through.live ==> Of(s, n) != {})
    && (forall d :: d in s.groups.live ==> Members(s, d) != {})
  }

  /** What an opening leaves as it was, and what of it is new. */
  ghost predicate Extends(s: State, t: State) {
    && t.through == s.through && s.told <= t.told && s.minted <= t.minted && s.delivered <= t.delivered
    && Lengthens(s.groups, t.groups) && Lengthens(s.bound, t.bound)
    && (forall j :: j in s.waiting ==> j in t.waiting && t.waiting[j] == s.waiting[j])
    && (forall j :: j in s.streamOf ==> j in t.streamOf && t.streamOf[j] == s.streamOf[j])
    && (forall j :: j in s.deliveryOf ==> j in t.deliveryOf && t.deliveryOf[j] == s.deliveryOf[j])
    && (forall j :: j in t.deliveryOf && j !in s.deliveryOf ==> j >= s.minted)
    && (forall d :: d in s.deliveries ==> d in t.deliveries && t.deliveries[d] == s.deliveries[d])
  }

  lemma {:induction false} ExtendsOn(s: State, t: State, u: State)
    requires Extends(s, t) && Extends(t, u)
    ensures Extends(s, u)
  {
    LengthensOn(s.groups, t.groups, u.groups);
    LengthensOn(s.bound, t.bound, u.bound);
    hide Lengthens;
  }

  /** What is opened of a Stream while its Messages are. */
  ghost predicate Opened(s: State, t: State, stream: nat, placed: bool) {
    && Extends(s, t)
    && (forall j :: j in Unended(t) && j !in Unended(s) ==> j >= s.minted && j in t.streamOf && t.streamOf[j] == stream)
    && (forall d :: d in t.groups.live && d !in s.groups.live ==> Members(t, d) != {})
    && (placed ==> t.waiting == s.waiting)
  }

  lemma {:induction false} OpenedOn(s: State, t: State, u: State, stream: nat, placed: bool)
    requires Base(s) && Opened(s, t, stream, placed) && Opened(t, u, stream, placed)
    ensures Opened(s, u, stream, placed)
  {
    hide Base;
    ExtendsOn(s, t, u);
    MembersStay(t, u);
  }

  lemma {:induction false} MembersStay(s: State, t: State)
    requires Extends(s, t)
    ensures Unended(s) <= Unended(t)
    ensures forall d :: Members(s, d) <= Members(t, d)
    ensures forall n :: Of(s, n) <= Of(t, n)
  {
  }

  /** Whether one more Journey of a Stream may be opened as a member of the delivery. */
  ghost predicate MayOpen(s: State, stream: nat, delivery: Option<nat>, placed: bool) {
    && stream in s.through.live && stream in s.through.blocks && (placed ==> HeadsAll(s.through, stream))
    && (delivery.Some? ==>
          var d := delivery.value;
          d in s.deliveries && s.deliveries[d].stream == stream && (d in s.groups.blocks ==> d in s.groups.live))
  }

  lemma {:induction false} BornKeeps(s: State, stream: nat, delivery: Option<nat>)
    requires Base(s) && MayOpen(s, stream, delivery, false)
    ensures Base(Born(s, stream, delivery))
    ensures Unended(Born(s, stream, delivery)) == Unended(s) && s.minted !in Unended(s)
  {
    hide LinesOk, IdsOk, DeliveriesOk, UnendedOk, BoundHead, GroupsHead, ToldOk;
    BornIds(s, stream, delivery);
    BornHeads(s, stream);
    BornTold(s, delivery);
  }

  lemma {:induction false} BornIds(s: State, stream: nat, delivery: Option<nat>)
    requires LinesOk(s.through, s.groups, s.bound, s.streams, s.delivered, s.minted)
    requires IdsOk(s.streamOf, s.waiting.Keys, s.bound.blocks, s.deliveryOf, s.deliveries, s.minted, s.delivered)
    requires DeliveriesOk(s.streamOf, s.deliveryOf, s.deliveries, s.groups.blocks)
    requires delivery.Some? ==> delivery.value in s.deliveries && s.deliveries[delivery.value].stream == stream
    ensures s.minted !in Unended(s) && s.minted !in s.bound.blocks && s.minted !in s.deliveryOf
    ensures LinesOk(s.through, s.groups, s.bound, s.streams, s.delivered, s.minted + 1)
    ensures var t := Born(s, stream, delivery);
      && IdsOk(t.streamOf, s.waiting.Keys, s.bound.blocks, t.deliveryOf, s.deliveries, s.minted + 1, s.delivered)
      && DeliveriesOk(t.streamOf, t.deliveryOf, s.deliveries, s.groups.blocks)
  {
    hide OwnerOk, BlockOk, Lengthens;
  }

  lemma {:induction false} BornHeads(s: State, stream: nat)
    requires s.minted !in Unended(s)
    requires UnendedOk(Unended(s), s.streamOf, s.through.live) && BoundHead(s.bound.live, s.streamOf, s.through)
    ensures var streamOf := s.streamOf[s.minted := stream];
      UnendedOk(Unended(s), streamOf, s.through.live) && BoundHead(s.bound.live, streamOf, s.through)
  {
    hide HeadsAll;
  }

  lemma {:induction false} BornTold(s: State, delivery: Option<nat>)
    requires ToldOk(s.told, Unended(s), s.bound.live, s.deliveryOf, s.groups)
    requires s.minted !in Unended(s) && s.minted !in s.deliveryOf
    ensures delivery.Some? ==> ToldOk(s.told, Unended(s), s.bound.live, s.deliveryOf[s.minted := delivery.value], s.groups)
  {
  }

  /** A Message told its delivery's place, its Stream heading its own. */
  lemma {:induction false} ToldKeeps(s: State, j: nat)
    requires Base(s) && j in s.deliveryOf && j in s.streamOf
    requires s.streamOf[j] in s.through.live && s.streamOf[j] in s.through.blocks && HeadsAll(s.through, s.streamOf[j])
    requires s.deliveryOf[j] in s.groups.blocks ==> s.deliveryOf[j] in s.groups.live
    ensures Base(Told(s, j)) && Unended(Told(s, j)) == Unended(s) && Lengthens(s.groups, Told(s, j).groups)
    ensures j in Told(s, j).told && s.deliveryOf[j] in Told(s, j).groups.live
    ensures Told(s, j).groups.live == s.groups.live + {s.deliveryOf[j]}
  {
    hide LinesOk, IdsOk, DeliveriesOk, UnendedOk, BoundHead, GroupsHead, ToldOk, LineOk, HeadsAll, Lengthens;
    var d := s.deliveryOf[j];
    ItsDelivery(s, j);
    if d !in s.groups.blocks {
      GroupEntered(s, d);
      GroupTold(s, j);
    } else {
      assert s.groups.live + {d} == s.groups.live;
      StaysLong(s.groups);
      assert ToldOk(s.told + {j}, Unended(s), s.bound.live, s.deliveryOf, s.groups) by {
        MoreTold(s, j);
      }
    }
  }

  lemma {:induction false} ItsDelivery(s: State, j: nat)
    requires DeliveriesOk(s.streamOf, s.deliveryOf, s.deliveries, s.groups.blocks) && j in s.deliveryOf && j in s.streamOf
    ensures s.deliveryOf[j] in s.deliveries && s.deliveries[s.deliveryOf[j]].stream == s.streamOf[j]
  {
  }

  lemma {:induction false} MoreTold(s: State, j: nat)
    requires ToldOk(s.told, Unended(s), s.bound.live, s.deliveryOf, s.groups)
    requires j in s.deliveryOf && s.deliveryOf[j] in s.groups.blocks
    ensures ToldOk(s.told + {j}, Unended(s), s.bound.live, s.deliveryOf, s.groups)
  {
  }

  lemma {:induction false} GroupEntered(s: State, d: nat)
    requires LinesOk(s.through, s.groups, s.bound, s.streams, s.delivered, s.minted)
    requires IdsOk(s.streamOf, s.waiting.Keys, s.bound.blocks, s.deliveryOf, s.deliveries, s.minted, s.delivered)
    requires DeliveriesOk(s.streamOf, s.deliveryOf, s.deliveries, s.groups.blocks)
    requires GroupsHead(s.groups.live, s.deliveries, s.through)
    requires d in s.deliveries && d !in s.groups.blocks
    requires var n := s.deliveries[d].stream; n in s.through.live && n in s.through.blocks && HeadsAll(s.through, n)
    ensures var groups := Enter(s.groups, d, [s.deliveries[d].queue]);
      && LinesOk(s.through, groups, s.bound, s.streams, s.delivered, s.minted)
      && DeliveriesOk(s.streamOf, s.deliveryOf, s.deliveries, groups.blocks)
      && GroupsHead(groups.live, s.deliveries, s.through) && Lengthens(s.groups, groups)
  {
    EnterKeeps(s.groups, d, [s.deliveries[d].queue]);
    EnterLengthens(s.groups, d, [s.deliveries[d].queue]);
    hide LineOk, HeadsAll, Lengthens;
  }

  lemma {:induction false} GroupTold(s: State, j: nat)
    requires ToldOk(s.told, Unended(s), s.bound.live, s.deliveryOf, s.groups)
    requires j in s.deliveryOf && s.deliveryOf[j] !in s.groups.blocks
    ensures forall queues :: ToldOk(s.told + {j}, Unended(s), s.bound.live, s.deliveryOf, Enter(s.groups, s.deliveryOf[j], queues))
  {
  }

  /** A Message entered at its destination, its Stream heading and its delivery's place known. */
  lemma {:induction false} BoundKeeps(s: State, j: nat, queues: seq<nat>)
    requires Base(s) && j in s.streamOf && j !in s.bound.blocks && j !in s.waiting
    requires s.streamOf[j] in s.through.live && s.streamOf[j] in s.through.blocks && HeadsAll(s.through, s.streamOf[j])
    requires j in s.deliveryOf ==> j in s.told && s.deliveryOf[j] in s.groups.live
    ensures var t := s.(bound := Enter(s.bound, j, queues));
      Base(t) && Unended(t) == Unended(s) + {j} && Lengthens(s.bound, t.bound)
  {
    hide LinesOk, IdsOk, DeliveriesOk, UnendedOk, BoundHead, GroupsHead, ToldOk, LineOk, HeadsAll, Lengthens;
    BoundEntered(s, j, queues);
    BoundHeadsToo(s, j);
    var t := s.(bound := Enter(s.bound, j, queues));
    assert Unended(t) == Unended(s) + {j};
  }

  lemma {:induction false} BoundEntered(s: State, j: nat, queues: seq<nat>)
    requires LinesOk(s.through, s.groups, s.bound, s.streams, s.delivered, s.minted)
    requires IdsOk(s.streamOf, s.waiting.Keys, s.bound.blocks, s.deliveryOf, s.deliveries, s.minted, s.delivered)
    requires j in s.streamOf && j !in s.bound.blocks && j !in s.waiting
    ensures var bound := Enter(s.bound, j, queues);
      && LinesOk(s.through, s.groups, bound, s.streams, s.delivered, s.minted)
      && IdsOk(s.streamOf, s.waiting.Keys, bound.blocks, s.deliveryOf, s.deliveries, s.minted, s.delivered)
      && Lengthens(s.bound, bound)
  {
    EnterKeeps(s.bound, j, queues);
    EnterLengthens(s.bound, j, queues);
    hide LineOk, Lengthens;
  }

  lemma {:induction false} BoundHeadsToo(s: State, j: nat)
    requires UnendedOk(Unended(s), s.streamOf, s.through.live) && BoundHead(s.bound.live, s.streamOf, s.through)
    requires ToldOk(s.told, Unended(s), s.bound.live, s.deliveryOf, s.groups)
    requires j in s.streamOf && s.streamOf[j] in s.through.live && s.streamOf[j] in s.through.blocks && HeadsAll(s.through, s.streamOf[j])
    requires j in s.deliveryOf ==> j in s.told && s.deliveryOf[j] in s.groups.live
    ensures UnendedOk(Unended(s) + {j}, s.streamOf, s.through.live) && BoundHead(s.bound.live + {j}, s.streamOf, s.through)
    ensures ToldOk(s.told, Unended(s) + {j}, s.bound.live + {j}, s.deliveryOf, s.groups)
  {
    hide HeadsAll;
  }

  lemma {:induction false} WaitingKeeps(s: State, j: nat, queues: seq<nat>)
    requires Base(s) && j in s.streamOf && j !in s.bound.blocks && s.streamOf[j] in s.through.live
    requires j in s.deliveryOf && s.deliveryOf[j] in s.groups.blocks ==> s.deliveryOf[j] in s.groups.live
    ensures var t := s.(waiting := s.waiting[j := queues]); Base(t) && Unended(t) == Unended(s) + {j}
  {
    hide LinesOk, DeliveriesOk, BoundHead, GroupsHead, HeadsAll;
    var t := s.(waiting := s.waiting[j := queues]);
    assert Unended(t) == Unended(s) + {j};
  }

  lemma {:induction false} OpenOneKeeps(s: State, stream: nat, delivery: Option<nat>, queues: seq<nat>, placed: bool)
    requires Base(s) && MayOpen(s, stream, delivery, placed)
    ensures var t := OpenOne(s, stream, delivery, queues, placed);
      Base(t) && Unended(t) == Unended(s) + {s.minted} && t.minted == s.minted + 1
    ensures OpenedLike(s, OpenOne(s, stream, delivery, queues, placed), delivery, placed)
  {
    hide Base, HeadsAll, Lengthens;
    BornKeeps(s, stream, delivery);
    BornNew(s, stream, delivery);
    var one, t := Born(s, stream, delivery), OpenOne(s, stream, delivery, queues, placed);
    if placed {
      if delivery.Some? {
        ToldKeeps(one, s.minted);
      } else {
        StaysLong(s.groups);
      }
      BoundKeeps(Told(one, s.minted), s.minted, queues);
      assert t == Told(one, s.minted).(bound := Enter(s.bound, s.minted, queues));
    } else {
      WaitingKeeps(one, s.minted, queues);
      StaysLong(s.groups);
      StaysLong(s.bound);
    }
  }

  /** What opening one Journey as a member of `delivery` changes of the lines. */
  ghost predicate OpenedLike(s: State, t: State, delivery: Option<nat>, placed: bool) {
    && Lengthens(s.groups, t.groups) && Lengthens(s.bound, t.bound)
    && t.groups.live == s.groups.live + (if placed && delivery.Some? then {delivery.value} else {})
    && t.bound.live == s.bound.live + (if placed then {s.minted} else {})
    && t.told == s.told + (if placed && delivery.Some? then {s.minted} else {})
    && t.waiting.Keys == s.waiting.Keys + (if placed then {} else {s.minted})
    && t.through == s.through && t.deliveries == s.deliveries && t.delivered == s.delivered
  }

  lemma {:induction false} BornNew(s: State, stream: nat, delivery: Option<nat>)
    requires Base(s) && MayOpen(s, stream, delivery, false)
    ensures var t := Born(s, stream, delivery);
      && s.minted in t.streamOf && t.streamOf[s.minted] == stream && s.minted !in s.bound.blocks && s.minted !in s.waiting
      && (s.minted in t.deliveryOf <==> delivery.Some?) && (delivery.Some? ==> t.deliveryOf[s.minted] == delivery.value)
  {
    hide LineOk, HeadsAll, DeliveriesOk, BoundHead, GroupsHead, ToldOk;
  }

  lemma {:induction false} OneIsOpened(s: State, stream: nat, delivery: Option<nat>, queues: seq<nat>, placed: bool)
    requires Base(s) && MayOpen(s, stream, delivery, placed)
    ensures var t := OpenOne(s, stream, delivery, queues, placed);
      Base(t) && Opened(s, t, stream, placed) && MayOpen(t, stream, delivery, placed) && s.minted in Of(t, stream)
  {
    hide Base, HeadsAll, Lengthens, Told;
    OpenOneKeeps(s, stream, delivery, queues, placed);
    BornNew(s, stream, delivery);
    BornBefore(s, stream, delivery);
    var one, t := Born(s, stream, delivery), OpenOne(s, stream, delivery, queues, placed);
    SameIds(one, s.minted, queues, placed, t);
    hide OpenOne, Born;
    assert Unended(t) == Unended(s) + {s.minted};
    assert s.minted in Unended(t);
    OneExtends(s, t, delivery, placed, stream);
    StillMayOpen(s, t, stream, delivery, placed);
  }

  lemma {:induction false} SameIds(one: State, j: nat, queues: seq<nat>, placed: bool, t: State)
    requires t == if placed then Told(one, j).(bound := Enter(one.bound, j, queues)) else one.(waiting := one.waiting[j := queues])
    ensures t.streamOf == one.streamOf && t.deliveryOf == one.deliveryOf && t.deliveries == one.deliveries && t.minted == one.minted
    ensures placed ==> t.waiting == one.waiting
    ensures forall k :: k in one.waiting && k != j ==> k in t.waiting && t.waiting[k] == one.waiting[k]
  {
  }

  lemma {:induction false} OneExtends(s: State, t: State, delivery: Option<nat>, placed: bool, stream: nat)
    requires OpenedLike(s, t, delivery, placed) && Unended(t) == Unended(s) + {s.minted} && t.minted == s.minted + 1
    requires s.minted in t.streamOf && t.streamOf[s.minted] == stream && s.minted !in s.waiting
    requires s.minted in t.deliveryOf <==> delivery.Some?
    requires delivery.Some? ==> t.deliveryOf[s.minted] == delivery.value
    requires placed ==> t.waiting == s.waiting
    requires forall j :: j in s.waiting && j != s.minted ==> j in t.waiting && t.waiting[j] == s.waiting[j]
    requires forall j :: j in s.streamOf ==> j in t.streamOf && t.streamOf[j] == s.streamOf[j]
    requires forall j :: j in s.deliveryOf ==> j in t.deliveryOf && t.deliveryOf[j] == s.deliveryOf[j]
    requires forall j :: j in t.deliveryOf && j !in s.deliveryOf ==> j == s.minted
    ensures Opened(s, t, stream, placed)
  {
    hide Lengthens;
    forall d | d in t.groups.live && d !in s.groups.live
      ensures Members(t, d) != {}
    {
      assert s.minted in Members(t, d);
    }
    hide Members;
  }

  lemma {:induction false} StillMayOpen(s: State, t: State, stream: nat, delivery: Option<nat>, placed: bool)
    requires MayOpen(s, stream, delivery, placed) && OpenedLike(s, t, delivery, placed)
    ensures MayOpen(t, stream, delivery, placed)
  {
    hide HeadsAll;
  }

  lemma {:induction false} BornBefore(s: State, stream: nat, delivery: Option<nat>)
    requires Base(s)
    ensures var t := Born(s, stream, delivery);
      && (forall j :: j in s.streamOf ==> j in t.streamOf && t.streamOf[j] == s.streamOf[j])
      && (forall j :: j in s.deliveryOf ==> j in t.deliveryOf && t.deliveryOf[j] == s.deliveryOf[j])
      && (forall j :: j in t.deliveryOf && j !in s.deliveryOf ==> j == s.minted)
  {
    hide LinesOk, DeliveriesOk, UnendedOk, BoundHead, GroupsHead, ToldOk;
  }

  lemma {:induction false} MembersOpened(s: State, stream: nat, delivery: Option<nat>, members: seq<seq<nat>>, placed: bool)
    requires Base(s) && MayOpen(s, stream, delivery, placed)
    ensures var t := OpenMembers(s, stream, delivery, members, placed);
      && Base(t) && Opened(s, t, stream, placed) && MayOpen(t, stream, delivery, placed)
      && (members != [] ==> Of(t, stream) != {})
  {
    hide Base, MayOpen, OpenOne, Opened;
    if members == [] {
      NoneOpened(s, stream, placed);
    } else {
      var n := |members| - 1;
      var before := OpenMembers(s, stream, delivery, members[..n], placed);
      MembersOpened(s, stream, delivery, members[..n], placed);
      OneIsOpened(before, stream, delivery, members[n], placed);
      OpenedOn(s, before, OpenOne(before, stream, delivery, members[n], placed), stream, placed);
    }
  }

  lemma {:induction false} NoneOpened(s: State, stream: nat, placed: bool)
    ensures Opened(s, s, stream, placed)
  {
    StaysLong(s.groups);
    StaysLong(s.bound);
    hide Lengthens;
  }

  lemma {:induction false} DeliveringKeeps(s: State, stream: nat, group: Option<nat>, placed: bool)
    requires Base(s) && MayOpen(s, stream, None, placed)
    ensures var t := Delivering(s, stream, group);
      Base(t) && Opened(s, t, stream, placed) && MayOpen(t, stream, DeliveryOf(s, group), placed)
  {
    hide LineOk, HeadsAll, UnendedOk, BoundHead, ToldOk, Lengthens;
    StaysLong(s.groups);
    StaysLong(s.bound);
    var t := Delivering(s, stream, group);
    assert Unended(t) == Unended(s);
    assert s.delivered !in s.deliveries && s.delivered !in s.groups.blocks;
    assert GroupsHead(t.groups.live, t.deliveries, t.through) by {
      LiveOnes(s.groups);
    }
  }

  lemma {:induction false} RoutedOpened(s: State, stream: nat, r: Routed, placed: bool)
    requires Base(s) && MayOpen(s, stream, None, placed)
    ensures var t := OpenRouted(s, stream, r, placed);
      && Base(t) && Opened(s, t, stream, placed) && MayOpen(t, stream, None, placed)
      && (r.members != [] ==> Of(t, stream) != {})
  {
    hide Base, Opened, OpenMembers, Delivering, HeadsAll;
    var delivering := Delivering(s, stream, r.group);
    DeliveringKeeps(s, stream, r.group, placed);
    MembersOpened(delivering, stream, DeliveryOf(s, r.group), r.members, placed);
    OpenedOn(s, delivering, OpenRouted(s, stream, r, placed), stream, placed);
  }

  lemma {:induction false} AllOpened(s: State, stream: nat, routed: seq<Routed>, placed: bool)
    requires Base(s) && MayOpen(s, stream, None, placed)
    ensures var t := OpenAll(s, stream, routed, placed);
      && Base(t) && Opened(s, t, stream, placed) && MayOpen(t, stream, None, placed)
      && (Opens(routed) ==> Of(t, stream) != {})
  {
    hide Base, MayOpen, OpenRouted, Opened;
    if routed == [] {
      NoneOpened(s, stream, placed);
    } else {
      var n := |routed| - 1;
      var before, t := OpenAll(s, stream, routed[..n], placed), OpenAll(s, stream, routed, placed);
      AllOpened(s, stream, routed[..n], placed);
      RoutedOpened(before, stream, routed[n], placed);
      OpenedOn(s, before, t, stream, placed);
      OpenedMore(before, t, stream, placed);
      if Opens(routed) && routed[n].members == [] {
        var i :| 0 <= i < |routed| && routed[i].members != [];
        assert routed[..n][i].members != [];
      }
    }
  }

  lemma {:induction false} OpenedMore(s: State, t: State, stream: nat, placed: bool)
    requires Opened(s, t, stream, placed)
    ensures Unended(s) <= Unended(t) && t.through == s.through
    ensures forall d :: Members(s, d) <= Members(t, d)
    ensures forall n :: Of(s, n) <= Of(t, n)
    ensures forall d :: d in t.groups.live && d !in s.groups.live ==> Members(t, d) != {}
  {
    MembersStay(s, t);
  }

  /** Each delivery in its Group's sequence has a member still to end. */
  ghost predicate EachHasMembers(s: State) {
    forall d :: d in s.groups.live ==> Members(s, d) != {}
  }

  /** Each Stream in its sequences has a Journey still to end, but this one. */
  ghost predicate EachHasJourneys(s: State, but: set<nat>) {
    forall n :: n in s.through.live && n !in but ==> Of(s, n) != {}
  }

  lemma {:induction false} OpenedHas(s: State, t: State, stream: nat, placed: bool)
    requires Opened(s, t, stream, placed) && EachHasMembers(s) && EachHasJourneys(s, {stream})
    ensures EachHasMembers(t) && EachHasJourneys(t, {stream})
  {
    OpenedMore(s, t, stream, placed);
    hide Opened;
  }

  lemma {:induction false} ReceiveKeeps(s: State, queues: seq<nat>, routed: seq<Routed>)
    requires Inv(s) && Opens(routed)
    ensures Inv(Next(s, Receive(queues, routed)).value)
  {
    hide Base, Opened, OpenAll, HeadsAll, Opens;
    var received := s.(through := Enter(s.through, s.streams, queues), streams := s.streams + 1);
    ReceivedKeeps(s, queues);
    AllOpened(received, s.streams, routed, queues == []);
    assert EachHasMembers(received) && EachHasJourneys(received, {s.streams});
    OpenedHas(received, OpenAll(received, s.streams, routed, queues == []), s.streams, queues == []);
  }

  /** A Stream received: those that headed before go on heading; alone in no sequence it heads them all. */
  lemma {:induction false} ReceivedKeeps(s: State, queues: seq<nat>)
    requires Base(s)
    ensures var received := s.(through := Enter(s.through, s.streams, queues), streams := s.streams + 1);
      && Base(received) && MayOpen(received, s.streams, None, queues == [])
      && Unended(received) == Unended(s) && received.through.live == s.through.live + {s.streams}
      && (forall d :: Members(received, d) == Members(s, d)) && (forall n :: Of(received, n) == Of(s, n))
  {
    hide IdsOk, DeliveriesOk, ToldOk;
    EnterKeeps(s.through, s.streams, queues);
    var through := Enter(s.through, s.streams, queues);
    forall n | n in s.through.live && HeadsAll(s.through, n)
      ensures HeadsAll(through, n)
    {
      HeadsOnThroughEnter(s.through, n, s.streams, queues);
    }
    hide LineOk, HeadsAll;
    assert queues == [] ==> HeadsAll(through, s.streams) by {
      NoQueuesHeads(through, s.streams);
    }
  }

  lemma {:induction false} NoQueuesHeads(line: Line, member: nat)
    requires member in line.blocks
    ensures line.blocks[member].queues == [] ==> HeadsAll(line, member)
  {
  }

  lemma {:induction false} TakeGroupKeeps(s: State, j: nat)
    requires Inv(s) && Next(s, TakeGroup(j)).Some?
    ensures Inv(Told(s, j))
  {
    hide HeadsAll, Lengthens;
    Placed(s, j);
    ToldKeeps(s, j);
    hide Base;
    var t := Told(s, j);
    assert t.waiting == s.waiting && t.bound == s.bound && t.through == s.through
      && t.streamOf == s.streamOf && t.deliveryOf == s.deliveryOf;
    assert forall d :: Members(t, d) == Members(s, d);
    assert forall n :: Of(t, n) == Of(s, n);
    assert j in Members(s, s.deliveryOf[j]);
  }

  /** What a waiting Message has of its Stream and its delivery. */
  lemma {:induction false} Placed(s: State, j: nat)
    requires Base(s) && j in Unended(s)
    ensures j in s.streamOf && s.streamOf[j] in s.through.live && s.streamOf[j] in s.through.blocks
    ensures j in s.waiting ==> j !in s.bound.blocks
    ensures j in s.deliveryOf && s.deliveryOf[j] in s.groups.blocks ==> s.deliveryOf[j] in s.groups.live
    ensures j in s.told ==> j in s.deliveryOf && s.deliveryOf[j] in s.groups.live
    ensures j in s.bound.live ==> HeadsAll(s.through, s.streamOf[j]) && (j in s.deliveryOf ==> j in s.told)
  {
    hide HeadsAll, DeliveriesOk, GroupsHead;
  }

  lemma {:induction false} TakeLateKeeps(s: State, j: nat)
    requires Inv(s) && Next(s, TakeLate(j)).Some?
    ensures Inv(Next(s, TakeLate(j)).value)
  {
    hide HeadsAll, Lengthens;
    Placed(s, j);
    FewerWaiting(s, j);
    var left := s.(waiting := s.waiting - {j});
    BoundKeeps(left, j, s.waiting[j]);
    hide Base;
    var t := Next(s, TakeLate(j)).value;
    assert t == left.(bound := Enter(s.bound, j, s.waiting[j]));
    assert Unended(t) == Unended(s);
    assert forall d :: Members(t, d) == Members(s, d);
    assert forall n :: Of(t, n) == Of(s, n);
  }

  lemma {:induction false} FewerWaiting(s: State, j: nat)
    requires Base(s) && j !in s.bound.blocks
    ensures var left := s.(waiting := s.waiting - {j}); Base(left) && Unended(left) == Unended(s) - {j}
  {
    hide HeadsAll, DeliveriesOk, BoundHead, GroupsHead;
    LiveOnes(s.bound);
  }

  lemma {:induction false} LeftKeeps(s: State, j: nat)
    requires Base(s) && j in s.bound.live
    ensures var left := s.(bound := Leave(s.bound, j)); Base(left) && Unended(left) == Unended(s) - {j}
  {
    hide HeadsAll, DeliveriesOk, GroupsHead;
    LeaveKeeps(s.bound, j);
    assert j !in s.waiting;
  }

  lemma {:induction false} DeliveryEndedKeeps(s: State, j: nat)
    requires Base(s) && forall d :: d in s.groups.live && (j !in s.deliveryOf || d != s.deliveryOf[j]) ==> Members(s, d) != {}
    ensures var t := DeliveryEnded(s, j);
      Base(t) && EachHasMembers(t) && t.through == s.through && Unended(t) == Unended(s) && t.streamOf == s.streamOf
  {
    hide HeadsAll, IdsOk, UnendedOk, BoundHead;
    LiveOnes(s.groups);
    if j in s.deliveryOf && s.deliveryOf[j] in s.groups.blocks && Members(s, s.deliveryOf[j]) == {} {
      var d := s.deliveryOf[j];
      var t := DeliveryEnded(s, j);
      LeaveKeeps(s.groups, d);
      hide LineOk;
      assert forall k :: k in Unended(s) && k in s.deliveryOf && s.deliveryOf[k] == d ==> k in Members(s, d);
      assert forall e :: Members(t, e) == Members(s, e);
    }
  }

  lemma {:induction false} EndedKeeps(s: State, stream: nat)
    requires Base(s) && EachHasMembers(s) && EachHasJourneys(s, {stream})
    requires stream in s.through.live && stream in s.through.blocks
    ensures Inv(Ended(s, stream))
  {
    if Of(s, stream) == {} {
      var t := Ended(s, stream);
      StreamLeaves(s, stream);
      assert Unended(t) == Unended(s);
      hide Base;
      assert forall d :: Members(t, d) == Members(s, d);
      assert forall n :: Of(t, n) == Of(s, n);
    }
  }

  lemma {:induction false} StreamLeaves(s: State, stream: nat)
    requires Base(s) && EachHasMembers(s) && stream in s.through.live && stream in s.through.blocks && Of(s, stream) == {}
    ensures Base(s.(through := Leave(s.through, stream)))
  {
    hide IdsOk, ToldOk;
    LeaveKeeps(s.through, stream);
    var through := Leave(s.through, stream);
    assert forall j :: j in Unended(s) && j in s.streamOf && s.streamOf[j] == stream ==> j in Of(s, stream);
    forall n | n in s.through.live && n != stream && HeadsAll(s.through, n)
      ensures HeadsAll(through, n)
    {
      HeadsOnThroughLeave(s.through, n, stream);
    }
    OtherStreams(s, stream);
    hide LineOk, HeadsAll;
    assert Unended(s.(through := through)) == Unended(s);
  }

  /** With no Journey of the Stream to end, none at its destination and no delivery is of it. */
  lemma {:induction false} OtherStreams(s: State, stream: nat)
    requires Base(s) && EachHasMembers(s) && Of(s, stream) == {}
    ensures forall j :: j in s.bound.live && j in s.streamOf ==> s.streamOf[j] != stream
    ensures forall d :: d in s.groups.live && d in s.deliveries ==> s.deliveries[d].stream != stream
  {
    hide LineOk, HeadsAll, BoundHead, GroupsHead, ToldOk, UnendedOk;
    forall d | d in s.groups.live && d in s.deliveries
      ensures s.deliveries[d].stream != stream
    {
      var j :| j in Members(s, d);
      assert j in s.streamOf && j !in Of(s, stream);
    }
    forall j | j in s.bound.live && j in s.streamOf
      ensures s.streamOf[j] != stream
    {
      assert j in Unended(s) && j !in Of(s, stream);
    }
  }

  lemma {:induction false} EndKeeps(s: State, j: nat, born: seq<Routed>)
    requires Inv(s) && Next(s, End(j, born)).Some?
    ensures Inv(Next(s, End(j, born)).value)
  {
    hide Base, Opened, OpenAll, HeadsAll;
    Placed(s, j);
    LeftKeeps(s, j);
    var left, stream := s.(bound := Leave(s.bound, j)), s.streamOf[j];
    AllOpened(left, stream, born, true);
    var after := OpenAll(left, stream, born, true);
    OpenedMore(left, after, stream, true);
    LeftHas(s, j, left);
    KeptIds(left, after, stream, true);
    DeliveryEndedKeeps(after, j);
    EndedKeeps(DeliveryEnded(after, j), stream);
  }

  /** Only its own Stream and delivery have one less to end where `j` has left. */
  lemma {:induction false} LeftHas(s: State, j: nat, left: State)
    requires Inv(s) && j in s.streamOf && left == s.(bound := left.bound) && Unended(left) == Unended(s) - {j}
    ensures EachHasJourneys(left, {s.streamOf[j]})
    ensures forall d :: d in s.groups.live && (j !in s.deliveryOf || d != s.deliveryOf[j]) ==> Members(left, d) != {}
  {
    hide Base;
    forall n | n in s.through.live && n != s.streamOf[j]
      ensures Of(left, n) != {}
    {
      var k :| k in Of(s, n);
      assert k in Of(left, n);
    }
    forall d | d in s.groups.live && (j !in s.deliveryOf || d != s.deliveryOf[j])
      ensures Members(left, d) != {}
    {
      var k :| k in Members(s, d);
      assert k in Members(left, d);
    }
  }

  lemma {:induction false} KeptIds(s: State, t: State, stream: nat, placed: bool)
    requires Opened(s, t, stream, placed)
    ensures forall j :: j in s.deliveryOf ==> j in t.deliveryOf && t.deliveryOf[j] == s.deliveryOf[j]
    ensures forall j :: j in t.deliveryOf && j !in s.deliveryOf ==> j >= s.minted
    ensures s.groups.live <= t.groups.live
    ensures forall d :: d in s.deliveries ==> d in t.deliveries && t.deliveries[d] == s.deliveries[d]
  {
    hide Members;
  }

  lemma {:induction false} NextKeepsInv(s: State, step: Step, t: State)
    requires Inv(s) && Next(s, step) == Some(t)
    ensures Inv(t)
  {
    hide Inv;
    match step
    case Receive(queues, routed) => ReceiveKeeps(s, queues, routed);
    case TakeGroup(j) => TakeGroupKeeps(s, j);
    case TakeLate(j) => TakeLateKeeps(s, j);
    case End(j, born) => EndKeeps(s, j, born);
  }

  lemma {:induction false} RunKeepsInv(steps: seq<Step>, s: State)
    requires Run(Initial, steps) == Some(s)
    ensures Inv(s)
  {
    hide Inv, Next;
    if steps == [] {
      InitialInv();
    } else {
      var before := Run(Initial, steps[..|steps| - 1]).value;
      RunKeepsInv(steps[..|steps| - 1], before);
      NextKeepsInv(before, steps[|steps| - 1], s);
    }
  }

  lemma {:induction false} InitialInv()
    ensures Inv(Initial)
  {
  }

  /** In every reachable state with a live Stream, at least one heads every sequence it is in. */
  lemma {:induction false} SomeStreamHeads(steps: seq<Step>, s: State)
    requires Run(Initial, steps) == Some(s) && s.through.live != {}
    ensures exists stream :: stream in s.through.live && stream in s.through.blocks && HeadsAll(s.through, stream)
  {
    RunKeepsInv(steps, s);
    var stream := EarliestHeads(s.through);
  }

  lemma {:induction false} NotBoth(s: State, k: nat)
    requires Base(s) && k in s.waiting
    ensures k !in s.bound.live
  {
    hide HeadsAll, DeliveriesOk, UnendedOk, BoundHead, GroupsHead, ToldOk;
    LiveOnes(s.bound);
  }
}
