/**
 * Progress with Send Port Groups' sequences (src/sequence.rs, `places`; src/sequence/late.rs,
 * `heading`; src/send_step/pass.rs, `heads`): a Message opened to wait takes its places
 * at its destination once its delivery heads its Group's sequence; one opened to go on
 * takes them with its delivery's, whoever waits there before it.
 */
module GroupProgress {
  import opened Wrappers
  import opened SequenceLines
  import opened SequenceProgress
  import Q = Sequence

  /** Whether delivery `e` is before `d` in their Group's sequence, both still in it. */
  predicate Before(s: State, e: nat, d: nat) {
    && e in s.groups.live && d in s.groups.live && e in s.groups.blocks && d in s.groups.blocks
    && s.groups.blocks[e].queues == s.groups.blocks[d].queues && s.groups.blocks[e].start < s.groups.blocks[d].start
  }

  /** A delivery heads its Group's sequence exactly where none is before it. */
  lemma {:induction false} HeadsUnlessBefore(s: State, d: nat)
    requires Base(s) && d in s.groups.live
    ensures d in s.groups.blocks
    ensures HeadsAll(s.groups, d) <==> forall e :: !Before(s, e, d)
  {
    hide IdsOk, UnendedOk, BoundHead, GroupsHead, ToldOk, HeadsAll;
    HeadsIs(s.groups, d);
    var q := s.deliveries[d].queue;
    if i: nat :| i < s.groups.blocks[d].start && i < |s.groups.taken| && s.groups.taken[i].queue == q && i !in s.groups.gone {
      assert OwnerOk(s.groups, i);
      var e := s.groups.taken[i].member;
      assert BlockOk(s.groups, e);
      assert Before(s, e, d);
    }
    forall e | Before(s, e, d)
      ensures !NothingBefore(s.groups, d)
    {
      var block := s.groups.blocks[e];
      assert BlockOk(s.groups, e) && block.queues[0] == q;
      assert s.groups.taken[block.start + 0] == Q.Place(block.queues[0], e);
      assert OwnerOk(s.groups, block.start);
    }
  }

  /** Whether Message `k` is at its destination no later than Message `j`. */
  predicate NoLater(s: State, k: nat, j: nat) {
    k in s.bound.live && k in s.bound.blocks && j in s.bound.blocks && s.bound.blocks[k].start <= s.bound.blocks[j].start
  }

  /** Whether Message `j`, at its destination, is of a delivery after that of `k` in their Group's sequence. */
  predicate Follows(s: State, j: nat, k: nat) {
    && j in s.bound.live && j in s.deliveryOf && k in Unended(s) && k in s.deliveryOf
    && Before(s, s.deliveryOf[k], s.deliveryOf[j])
  }

  /** Where a Message of a delivery is at its destination, every Message of a delivery before it in their Group came no later. */
  ghost predicate Aligned(s: State) {
    forall j, k :: Follows(s, j, k) ==> NoLater(s, k, j)
  }

  /** Whether some delivery in the queue of a Group's sequence has a Message waiting for its places. */
  ghost predicate Waits(s: State, queue: nat) {
    exists k :: k in s.waiting && k in s.deliveryOf && InQueue(s, s.deliveryOf[k], queue)
  }

  predicate InQueue(s: State, d: nat, queue: nat) {
    d in s.groups.live && d in s.groups.blocks && s.groups.blocks[d].queues == [queue]
  }

  /** Whether one of those opened goes through a Group in whose sequence a Message waits for its places. */
  ghost predicate AnyOvertakes(s: State, routed: seq<Routed>) {
    exists i :: 0 <= i < |routed| && routed[i].members != [] && routed[i].group.Some? && Waits(s, routed[i].group.value)
  }

  /** Whether the step takes places at once past such a Message's. */
  ghost predicate Overtakes(s: State, step: Step) {
    match step
    case Receive(queues, routed) => queues == [] && AnyOvertakes(s, routed)
    case End(j, born) => AnyOvertakes(s, born)
    case _ => false
  }

  /** Whether members of the delivery may take their places at once: it is the last in its Group's sequence, and none waits before it. */
  ghost predicate MayPlace(s: State, delivery: Option<nat>) {
    delivery.Some? ==>
      var d := delivery.value;
      && d in s.deliveries && !Waits(s, s.deliveries[d].queue)
      && (forall k :: k in s.waiting && k in s.deliveryOf ==> s.deliveryOf[k] != d)
      && (d in s.groups.blocks ==> forall e :: e in s.groups.blocks ==> s.groups.blocks[e].start <= s.groups.blocks[d].start)
  }

  ghost predicate PlacedOne(s: State, t: State, delivery: Option<nat>) {
    && t.bound.live == s.bound.live + {s.minted} && t.deliveries == s.deliveries && t.waiting == s.waiting
    && t.groups.live == s.groups.live + (if delivery.Some? then {delivery.value} else {})
    && s.minted !in s.bound.blocks && s.minted !in s.waiting
    && (s.minted in t.deliveryOf <==> delivery.Some?) && (delivery.Some? ==> t.deliveryOf[s.minted] == delivery.value)
    && (forall j :: j in t.deliveryOf && j != s.minted ==> j in s.deliveryOf)
  }

  /** What one opened at once changes, for Messages and deliveries. */
  lemma {:induction false} OnePlaced(s: State, stream: nat, delivery: Option<nat>, queues: seq<nat>)
    requires Base(s) && MayOpen(s, stream, delivery, true)
    ensures var t := OpenOne(s, stream, delivery, queues, true);
      Opened(s, t, stream, true) && Base(t) && MayOpen(t, stream, delivery, true) && PlacedOne(s, t, delivery)
  {
    hide Base, HeadsAll, Lengthens, MayOpen;
    OneIsOpened(s, stream, delivery, queues, true);
    OpenOneKeeps(s, stream, delivery, queues, true);
    BornBefore(s, stream, delivery);
    assert MayOpen(s, stream, delivery, false) by { MayWait(s, stream, delivery); }
    BornNew(s, stream, delivery);
  }

  lemma {:induction false} MayWait(s: State, stream: nat, delivery: Option<nat>)
    requires MayOpen(s, stream, delivery, true)
    ensures MayOpen(s, stream, delivery, false)
  {
    hide HeadsAll;
  }

  /** Deliveries, one before the other once one more was opened at once, were so before, or the later is the one opened. */
  lemma {:induction false} WereBefore(s: State, t: State, delivery: Option<nat>, e: nat, d: nat)
    requires LineOk(s.groups) && Lengthens(s.groups, t.groups) && LineOk(t.groups)
    requires forall e :: e in s.groups.blocks ==> |s.groups.blocks[e].queues| > 0
    requires t.groups.live == s.groups.live + (if delivery.Some? then {delivery.value} else {})
    requires delivery.Some? ==> var d := delivery.value;
      && (d in s.groups.blocks ==> d in s.groups.live)
      && (d in s.groups.blocks ==> forall e :: e in s.groups.blocks ==> s.groups.blocks[e].start <= s.groups.blocks[d].start)
    requires Before(t, e, d)
    ensures Before(s, e, d) || (delivery == Some(d) && d !in s.groups.blocks && e in s.groups.live && e in s.groups.blocks)
    ensures delivery != Some(e)
  {
    if e in s.groups.blocks {
      WithinLine(s.groups, e);
    }
    if d in s.groups.blocks {
      WithinLine(s.groups, d);
    }
    hide LineOk;
  }

  lemma {:induction false} OneAligned(s: State, stream: nat, delivery: Option<nat>, queues: seq<nat>)
    requires Base(s) && MayOpen(s, stream, delivery, true) && MayPlace(s, delivery) && Aligned(s)
    ensures Aligned(OpenOne(s, stream, delivery, queues, true))
  {
    var t := OpenOne(s, stream, delivery, queues, true);
    OnePlaced(s, stream, delivery, queues);
    forall j, k | Follows(t, j, k)
      ensures NoLater(t, k, j)
    {
      OneFollows(s, t, stream, delivery, j, k);
    }
  }

  lemma {:induction false} OneFollows(s: State, t: State, stream: nat, delivery: Option<nat>, j: nat, k: nat)
    requires Base(s) && Base(t) && MayPlace(s, delivery) && Aligned(s) && MayOpen(s, stream, delivery, true)
    requires Opened(s, t, stream, true) && PlacedOne(s, t, delivery) && Follows(t, j, k)
    ensures NoLater(t, k, j)
  {
    hide IdsOk, UnendedOk, BoundHead, GroupsHead, HeadsAll, Members, ToldOk, Aligned, Lengthens, BlockOk, OwnerOk, Before;
    var e, d := t.deliveryOf[k], t.deliveryOf[j];
    SomeQueue(s);
    WereBefore(s, t, delivery, e, d);
    hide Base, MayOpen;
    assert k != s.minted;
    if j == s.minted {
      InGroupBefore(s, e, d);
      NoneOfItsGroup(s, t, e, d, k);
      JustEnteredLast(s, t, k);
    } else {
      NotNew(s, t, delivery, j, d);
      WereInOrder(s, t, j, k);
    }
  }

  lemma {:induction false} SomeQueue(s: State)
    requires Base(s)
    ensures forall e :: e in s.groups.blocks ==> |s.groups.blocks[e].queues| > 0
  {
    hide LinesOk, IdsOk, UnendedOk, BoundHead, GroupsHead, ToldOk;
  }

  lemma {:induction false} InGroupBefore(s: State, e: nat, d: nat)
    ensures Before(s, e, d) ==> e in s.groups.live && d in s.groups.live
  {
  }

  lemma {:induction false} JustEnteredLast(s: State, t: State, k: nat)
    requires Base(s) && Base(t) && Lengthens(s.bound, t.bound) && s.minted !in s.bound.blocks
    requires t.bound.live == s.bound.live + {s.minted}
    ensures k in s.bound.live ==> NoLater(t, k, s.minted)
  {
    hide LineOk, IdsOk, DeliveriesOk, UnendedOk, BoundHead, GroupsHead, ToldOk;
    JustEntered(s, t, k);
  }

  /** A Message at its destination before is of a delivery in its Group's sequence before. */
  lemma {:induction false} NotNew(s: State, t: State, delivery: Option<nat>, j: nat, d: nat)
    requires Base(s) && j in s.bound.live && j in s.deliveryOf && s.deliveryOf[j] == d
    ensures d in s.groups.blocks
  {
    hide LineOk, IdsOk, DeliveriesOk, UnendedOk, BoundHead, GroupsHead, HeadsAll;
  }

  /** No Message of a delivery before the one opened at once waits for its places. */
  lemma {:induction false} NoneOfItsGroup(s: State, t: State, e: nat, d: nat, k: nat)
    requires Base(s) && Base(t) && MayPlace(s, Some(d)) && t.deliveries == s.deliveries && Lengthens(s.groups, t.groups)
    requires k in s.deliveryOf && s.deliveryOf[k] == e && Before(t, e, d) && e in s.groups.live
    ensures k !in s.waiting
  {
    hide LineOk, IdsOk, UnendedOk, BoundHead, GroupsHead, ToldOk, HeadsAll;
    LiveOnes(s.groups);
    var q := s.deliveries[d].queue;
    assert t.groups.blocks[d].queues == [q];
    assert InQueue(s, e, q);
    assert !Waits(s, q);
  }

  lemma {:induction false} WereInOrder(s: State, t: State, j: nat, k: nat)
    requires Aligned(s) && Follows(s, j, k) && Lengthens(s.bound, t.bound)
    ensures NoLater(t, k, j)
  {
    assert NoLater(s, k, j);
  }

  /** A Message that took its places before is no later than the one just entered. */
  lemma {:induction false} JustEntered(s: State, t: State, k: nat)
    requires LineOk(s.bound) && Lengthens(s.bound, t.bound) && LineOk(t.bound)
    requires s.minted !in s.bound.blocks && t.bound.live == s.bound.live + {s.minted}
    ensures k in s.bound.live ==> NoLater(t, k, s.minted)
  {
    if k in s.bound.live {
      WithinLine(s.bound, k);
    }
    LiveOnes(t.bound);
    hide LineOk;
  }

  /** Where a Message waits in a Group's sequence after, one did before. */
  ghost predicate WaitsNoMore(s: State, t: State) {
    forall q :: Waits(t, q) ==> Waits(s, q)
  }

  lemma {:induction false} WasInQueue(s: State, t: State, d: nat, q: nat)
    requires Base(s) && Lengthens(s.groups, t.groups) && InQueue(t, d, q) && d in s.groups.live
    ensures InQueue(s, d, q)
  {
    LiveOnes(s.groups);
  }

  lemma {:induction false} LastStays(s: State, t: State, delivery: Option<nat>)
    requires Base(s) && Base(t) && MayPlace(s, delivery) && Lengthens(s.groups, t.groups)
    requires t.groups.live == s.groups.live + (if delivery.Some? then {delivery.value} else {})
    ensures delivery.Some? ==> var d := delivery.value;
      d in t.groups.blocks ==> forall e :: e in t.groups.blocks ==> t.groups.blocks[e].start <= t.groups.blocks[d].start
  {
  }

  lemma {:induction false} OneWaitsNoMore(s: State, stream: nat, delivery: Option<nat>, queues: seq<nat>)
    requires Base(s) && MayOpen(s, stream, delivery, true) && MayPlace(s, delivery)
    ensures var t := OpenOne(s, stream, delivery, queues, true);
      WaitsNoMore(s, t) && MayPlace(t, delivery)
  {
    hide Base, HeadsAll, Lengthens, Waits, Members;
    var t := OpenOne(s, stream, delivery, queues, true);
    OnePlaced(s, stream, delivery, queues);
    hide OpenOne, MayOpen;
    forall q | Waits(t, q)
      ensures Waits(s, q)
    {
      WaitedBefore(s, t, stream, delivery, q);
    }
    LastStays(s, t, delivery);
    assert forall k :: k in t.waiting && k in t.deliveryOf ==> k in s.deliveryOf && s.deliveryOf[k] == t.deliveryOf[k];
  }

  lemma {:induction false} WaitedBefore(s: State, t: State, stream: nat, delivery: Option<nat>, q: nat)
    requires Base(s) && MayPlace(s, delivery) && Opened(s, t, stream, true) && PlacedOne(s, t, delivery) && Waits(t, q)
    ensures Waits(s, q)
  {
    hide Base, HeadsAll, Lengthens, Members, InQueue;
    var k :| k in t.waiting && k in t.deliveryOf && InQueue(t, t.deliveryOf[k], q);
    assert k in s.waiting && k != s.minted && k in s.deliveryOf && s.deliveryOf[k] == t.deliveryOf[k];
    assert t.deliveryOf[k] in t.groups.live by { IsLive(t, t.deliveryOf[k], q); }
    assert s.deliveryOf[k] in s.groups.live;
    WasInQueue(s, t, s.deliveryOf[k], q);
  }

  lemma {:induction false} IsLive(s: State, d: nat, q: nat)
    requires InQueue(s, d, q)
    ensures d in s.groups.live
  {
  }

  lemma {:induction false} MembersAligned(s: State, stream: nat, delivery: Option<nat>, members: seq<seq<nat>>)
    requires Base(s) && MayOpen(s, stream, delivery, true) && MayPlace(s, delivery) && Aligned(s)
    ensures var t := OpenMembers(s, stream, delivery, members, true);
      Aligned(t) && WaitsNoMore(s, t) && MayPlace(t, delivery)
  {
    hide Base, MayOpen, OpenOne, Aligned, MayPlace, Waits, Opened;
    if members != [] {
      var n := |members| - 1;
      var before := OpenMembers(s, stream, delivery, members[..n], true);
      MembersOpened(s, stream, delivery, members[..n], true);
      MembersAligned(s, stream, delivery, members[..n]);
      OneAligned(before, stream, delivery, members[n]);
      OneWaitsNoMore(before, stream, delivery, members[n]);
    }
  }

  lemma {:induction false} DeliveringAligned(s: State, stream: nat, group: Option<nat>)
    requires Base(s) && Aligned(s) && (group.Some? ==> !Waits(s, group.value))
    ensures var t := Delivering(s, stream, group);
      Aligned(t) && WaitsNoMore(s, t) && MayPlace(t, DeliveryOf(s, group))
  {
    hide LineOk, HeadsAll, UnendedOk, BoundHead, GroupsHead, ToldOk;
    var t := Delivering(s, stream, group);
    assert Unended(t) == Unended(s);
    forall j, k | Follows(t, j, k)
      ensures NoLater(t, k, j)
    {
      assert Follows(s, j, k);
    }
    forall q | Waits(t, q)
      ensures Waits(s, q)
    {
      var k :| k in t.waiting && k in t.deliveryOf && InQueue(t, t.deliveryOf[k], q);
      assert InQueue(s, s.deliveryOf[k], q);
    }
    assert forall k :: k in s.deliveryOf && k in s.streamOf ==> s.deliveryOf[k] != s.delivered;
    if group.Some? {
      assert t.deliveries[s.delivered].queue == group.value;
    }
  }

  lemma {:induction false} RoutedAligned(s: State, stream: nat, r: Routed)
    requires Base(s) && MayOpen(s, stream, None, true) && Aligned(s)
    requires r.group.Some? && r.members != [] ==> !Waits(s, r.group.value)
    ensures Aligned(OpenRouted(s, stream, r, true)) && WaitsNoMore(s, OpenRouted(s, stream, r, true))
  {
    hide Base, MayOpen, OpenMembers, Aligned, MayPlace, Waits, Opened, Delivering;
    DeliveringKeeps(s, stream, r.group, true);
    var t := Delivering(s, stream, r.group);
    if r.members == [] {
      NothingDelivered(s, stream, r);
    } else {
      DeliveringAligned(s, stream, r.group);
      MembersAligned(t, stream, DeliveryOf(s, r.group), r.members);
    }
  }

  lemma {:induction false} NothingDelivered(s: State, stream: nat, r: Routed)
    requires Base(s) && Aligned(s) && r.members == []
    ensures Aligned(OpenRouted(s, stream, r, true)) && WaitsNoMore(s, OpenRouted(s, stream, r, true))
  {
    var t := OpenRouted(s, stream, r, true);
    hide Base;
    assert t == Delivering(s, stream, r.group);
    assert Unended(t) == Unended(s);
    forall j, k | Follows(t, j, k)
      ensures NoLater(t, k, j)
    {
      assert Follows(s, j, k);
    }
    forall q | Waits(t, q)
      ensures Waits(s, q)
    {
      var k :| k in t.waiting && k in t.deliveryOf && InQueue(t, t.deliveryOf[k], q);
      assert InQueue(s, s.deliveryOf[k], q);
    }
  }

  lemma {:induction false} AllAligned(s: State, stream: nat, routed: seq<Routed>)
    requires Base(s) && MayOpen(s, stream, None, true) && Aligned(s) && !AnyOvertakes(s, routed)
    ensures Aligned(OpenAll(s, stream, routed, true)) && WaitsNoMore(s, OpenAll(s, stream, routed, true))
  {
    hide Base, MayOpen, OpenRouted, Aligned, Waits, Opened;
    if routed != [] {
      var n := |routed| - 1;
      var before := OpenAll(s, stream, routed[..n], true);
      forall i | 0 <= i < n && routed[..n][i].members != [] && routed[..n][i].group.Some?
        ensures !Waits(s, routed[..n][i].group.value)
      {
        assert routed[..n][i] == routed[i];
      }
      AllOpened(s, stream, routed[..n], true);
      AllAligned(s, stream, routed[..n]);
      RoutedAligned(before, stream, routed[n]);
    }
  }

  // ---- A step keeps them aligned exactly where it overtakes none ----

  /** A Message at its destination, of a delivery after that of one waiting still. */
  ghost predicate Crossed(s: State) {
    exists j, k :: Follows(s, j, k) && k in s.waiting
  }

  lemma {:induction false} CrossedIsNot(s: State)
    requires Base(s) && Crossed(s)
    ensures !Aligned(s)
  {
    hide LineOk, HeadsAll, DeliveriesOk, UnendedOk, BoundHead, GroupsHead, ToldOk;
    LiveOnes(s.bound);
    var j, k :| Follows(s, j, k) && k in s.waiting;
    assert !NoLater(s, k, j);
  }

  lemma {:induction false} StaysCrossed(s: State, t: State, stream: nat)
    requires Base(s) && Crossed(s) && Opened(s, t, stream, true)
    ensures Crossed(t)
  {
    hide HeadsAll;
    MembersStay(s, t);
    var j, k :| Follows(s, j, k) && k in s.waiting;
    assert Follows(t, j, k) && k in t.waiting;
  }

  /** Members opened at once, one waiting in their Group's sequence: a Message at its destination is of a delivery after that one's. */
  lemma {:induction false} RoutedCrosses(s: State, stream: nat, r: Routed)
    requires Base(s) && MayOpen(s, stream, None, true) && r.members != [] && r.group.Some? && Waits(s, r.group.value)
    ensures Crossed(OpenRouted(s, stream, r, true))
  {
    hide Base, MayOpen, Opened, OpenOne, HeadsAll, Lengthens;
    var k :| k in s.waiting && k in s.deliveryOf && InQueue(s, s.deliveryOf[k], r.group.value);
    var delivering, n := Delivering(s, stream, r.group), |r.members| - 1;
    DeliveringKeeps(s, stream, r.group, true);
    MembersOpened(delivering, stream, Some(s.delivered), r.members[..n], true);
    var before := OpenMembers(delivering, stream, Some(s.delivered), r.members[..n], true);
    var t := OpenRouted(s, stream, r, true);
    KeptIds(delivering, before, stream, true);
    OnePlaced(before, stream, Some(s.delivered), r.members[n]);
    assert t == OpenOne(before, stream, Some(s.delivered), r.members[n], true);
    OpenedOn(s, delivering, before, stream, true);
    OpenedOn(s, before, t, stream, true);
    Crosses(s, t, stream, r.group.value, before.minted, k);
  }

  lemma {:induction false} Crosses(s: State, t: State, stream: nat, queue: nat, j: nat, k: nat)
    requires Base(s) && Base(t) && Opened(s, t, stream, true)
    requires k in s.waiting && k in s.deliveryOf && InQueue(s, s.deliveryOf[k], queue)
    requires j in t.bound.live && j in t.deliveryOf && t.deliveryOf[j] == s.delivered && s.delivered in t.groups.live
    requires s.delivered in t.deliveries && t.deliveries[s.delivered].queue == queue
    ensures Crossed(t)
  {
    hide HeadsAll, UnendedOk, BoundHead, GroupsHead, ToldOk;
    MembersStay(s, t);
    LiveOnes(t.groups);
    assert s.delivered !in s.groups.blocks;
    WithinLine(s.groups, s.deliveryOf[k]);
    hide LineOk;
    assert Before(t, t.deliveryOf[k], t.deliveryOf[j]);
    assert Follows(t, j, k);
  }

  lemma {:induction false} AllCross(s: State, stream: nat, routed: seq<Routed>)
    requires Base(s) && MayOpen(s, stream, None, true) && AnyOvertakes(s, routed)
    ensures Crossed(OpenAll(s, stream, routed, true))
  {
    hide Base, MayOpen, OpenRouted, Waits, Opened, Crossed;
    var n := |routed| - 1;
    var before := OpenAll(s, stream, routed[..n], true);
    AllOpened(s, stream, routed[..n], true);
    var i :| 0 <= i < |routed| && routed[i].members != [] && routed[i].group.Some? && Waits(s, routed[i].group.value);
    if i == n {
      StillWaits(s, before, stream, routed[n].group.value);
      RoutedCrosses(before, stream, routed[n]);
    } else {
      assert routed[..n][i] == routed[i];
      AllCross(s, stream, routed[..n]);
      RoutedOpened(before, stream, routed[n], true);
      StaysCrossed(before, OpenAll(s, stream, routed, true), stream);
    }
  }

  lemma {:induction false} StillWaits(s: State, t: State, stream: nat, queue: nat)
    requires Opened(s, t, stream, true) && Waits(s, queue)
    ensures Waits(t, queue)
  {
    var k :| k in s.waiting && k in s.deliveryOf && InQueue(s, s.deliveryOf[k], queue);
    assert InQueue(t, t.deliveryOf[k], queue);
  }

  lemma {:induction false} ReceiveAligned(s: State, queues: seq<nat>, routed: seq<Routed>, t: State)
    requires Inv(s) && Aligned(s) && Next(s, Receive(queues, routed)) == Some(t)
    ensures Aligned(t) <==> !Overtakes(s, Receive(queues, routed))
  {
    hide Base, HeadsAll, OpenAll, Waits, Opens;
    var received := s.(through := Enter(s.through, s.streams, queues), streams := s.streams + 1);
    ReceivedKeeps(s, queues);
    SameAligned(s, received);
    if queues == [] {
      OpenedAtOnce(received, s.streams, routed);
      SameOvertakes(s, received, routed);
    } else {
      AllLate(received, s.streams, routed);
      AllOpened(received, s.streams, routed, false);
      LateAligned(received, t, s.streams);
    }
  }

  /** Opened at once, they are aligned still exactly where none overtakes. */
  lemma {:induction false} OpenedAtOnce(s: State, stream: nat, routed: seq<Routed>)
    requires Base(s) && MayOpen(s, stream, None, true) && Aligned(s)
    ensures var t := OpenAll(s, stream, routed, true);
      if AnyOvertakes(s, routed) then Crossed(t) && !Aligned(t) else Aligned(t)
  {
    hide Base, MayOpen, OpenAll, Aligned, AnyOvertakes, Crossed, Opened;
    AllOpened(s, stream, routed, true);
    if AnyOvertakes(s, routed) {
      AllCross(s, stream, routed);
      CrossedIsNot(OpenAll(s, stream, routed, true));
    } else {
      AllAligned(s, stream, routed);
    }
  }

  lemma {:induction false} SameAligned(s: State, t: State)
    requires t == s.(through := t.through, streams := t.streams)
    ensures Aligned(t) <==> Aligned(s)
    ensures Crossed(t) <==> Crossed(s)
  {
    assert Unended(t) == Unended(s);
    assert forall j, k :: Follows(t, j, k) <==> Follows(s, j, k);
    assert forall j, k :: NoLater(t, j, k) <==> NoLater(s, j, k);
  }

  lemma {:induction false} SameOvertakes(s: State, t: State, routed: seq<Routed>)
    requires t == s.(through := t.through, streams := t.streams) || t == s.(bound := t.bound)
    ensures AnyOvertakes(t, routed) <==> AnyOvertakes(s, routed)
  {
    forall q
      ensures Waits(t, q) <==> Waits(s, q)
    {
      assert forall d :: InQueue(t, d, q) <==> InQueue(s, d, q);
    }
    hide Waits;
  }

  /** Opened to wait for their places, Journeys change no line, and are members of new deliveries alone. */
  ghost predicate OnlyWait(s: State, t: State, from: nat) {
    && t.groups == s.groups && t.bound == s.bound && s.delivered <= t.delivered
    && forall k :: k in t.deliveryOf && k !in s.deliveryOf ==> t.deliveryOf[k] >= from
  }

  lemma {:induction false} MembersLate(s: State, stream: nat, delivery: Option<nat>, members: seq<seq<nat>>, from: nat)
    requires Base(s) && MayOpen(s, stream, delivery, false) && (delivery.Some? ==> delivery.value >= from)
    ensures OnlyWait(s, OpenMembers(s, stream, delivery, members, false), from)
  {
    hide Base, MayOpen, HeadsAll, Opened;
    if members != [] {
      var n := |members| - 1;
      var before := OpenMembers(s, stream, delivery, members[..n], false);
      MembersOpened(s, stream, delivery, members[..n], false);
      MembersLate(s, stream, delivery, members[..n], from);
      OneLate(before, stream, delivery, members[n], from);
      LateOn(s, before, OpenMembers(s, stream, delivery, members, false), from);
    }
  }

  lemma {:induction false} OneLate(s: State, stream: nat, delivery: Option<nat>, queues: seq<nat>, from: nat)
    requires Base(s) && (delivery.Some? ==> delivery.value >= from)
    ensures OnlyWait(s, OpenOne(s, stream, delivery, queues, false), from)
    ensures forall k :: k in s.deliveryOf ==> var t := OpenOne(s, stream, delivery, queues, false);
      k in t.deliveryOf && t.deliveryOf[k] == s.deliveryOf[k]
  {
    hide Base;
    BornBefore(s, stream, delivery);
  }

  lemma {:induction false} LateOn(s: State, t: State, u: State, from: nat)
    requires OnlyWait(s, t, from) && OnlyWait(t, u, from)
    requires forall k :: k in t.deliveryOf && k in u.deliveryOf ==> u.deliveryOf[k] == t.deliveryOf[k]
    ensures OnlyWait(s, u, from)
  {
  }

  lemma {:induction false} AllLate(s: State, stream: nat, routed: seq<Routed>)
    requires Base(s) && MayOpen(s, stream, None, false)
    ensures OnlyWait(s, OpenAll(s, stream, routed, false), s.delivered)
  {
    hide Base, MayOpen, HeadsAll, Opened, OpenMembers, OnlyWait;
    if routed == [] {
      NoneLate(s);
    } else {
      var n := |routed| - 1;
      var before, t := OpenAll(s, stream, routed[..n], false), OpenAll(s, stream, routed, false);
      AllOpened(s, stream, routed[..n], false);
      AllLate(s, stream, routed[..n]);
      RoutedLate(before, stream, routed[n], s.delivered, s);
      RoutedOpened(before, stream, routed[n], false);
      KeptIds(before, t, stream, false);
      LateOn(s, before, t, s.delivered);
    }
  }

  lemma {:induction false} NoneLate(s: State)
    ensures OnlyWait(s, s, s.delivered)
  {
  }

  lemma {:induction false} RoutedLate(s: State, stream: nat, r: Routed, from: nat, start: State)
    requires Base(s) && MayOpen(s, stream, None, false) && OnlyWait(start, s, from) && from == start.delivered
    ensures OnlyWait(s, OpenRouted(s, stream, r, false), from)
  {
    hide Base, MayOpen, HeadsAll, Opened, OpenMembers;
    var delivering := Delivering(s, stream, r.group);
    DeliveringKeeps(s, stream, r.group, false);
    MembersLate(delivering, stream, DeliveryOf(s, r.group), r.members, from);
  }

  lemma {:induction false} LateAligned(s: State, t: State, stream: nat)
    requires Base(s) && Base(t) && Aligned(s) && Opened(s, t, stream, false) && OnlyWait(s, t, s.delivered)
    ensures Aligned(t)
  {
    hide LineOk, HeadsAll, UnendedOk, BoundHead, GroupsHead, ToldOk, Lengthens;
    forall j: nat, k: nat | Follows(t, j, k)
      ensures NoLater(t, k, j)
    {
      assert t.deliveryOf[k] < s.delivered && t.deliveryOf[j] < s.delivered;
      assert k in s.deliveryOf && j in s.deliveryOf && k < s.minted;
      assert Follows(s, j, k);
    }
  }

  lemma {:induction false} TakeGroupAligned(s: State, j: nat)
    requires Inv(s) && Aligned(s) && Next(s, TakeGroup(j)).Some?
    ensures Aligned(Told(s, j))
  {
    hide HeadsAll, IdsOk, UnendedOk, BoundHead, GroupsHead;
    var t, d := Told(s, j), s.deliveryOf[j];
    assert d in s.deliveries;
    assert Unended(t) == Unended(s);
    forall i: nat, k: nat | Follows(t, i, k)
      ensures NoLater(t, k, i)
    {
      if d !in s.groups.blocks {
        EnterLengthens(s.groups, d, [s.deliveries[d].queue]);
        assert s.deliveryOf[i] in s.groups.blocks;
        WithinLine(s.groups, s.deliveryOf[i]);
      }
      assert Follows(s, i, k);
    }
  }

  lemma {:induction false} TakeLateAligned(s: State, j: nat, t: State)
    requires Inv(s) && Aligned(s) && Next(s, TakeLate(j)) == Some(t)
    ensures Aligned(t)
  {
    Placed(s, j);
    if j in s.deliveryOf {
      HeadsUnlessBefore(s, s.deliveryOf[j]);
    }
    hide Inv, HeadsAll;
    assert Unended(t) == Unended(s);
    var entered := Enter(s.bound, j, s.waiting[j]);
    EnterLengthens(s.bound, j, s.waiting[j]);
    assert t == s.(waiting := s.waiting - {j}, bound := entered);
    hide Next, StreamHeads, GroupHeads;
    forall i: nat, k: nat | Follows(t, i, k)
      ensures NoLater(t, k, i)
    {
      assert Before(s, s.deliveryOf[k], s.deliveryOf[i]);
      WereInOrder(s, t, i, k);
    }
  }

  lemma {:induction false} EndAligned(s: State, j: nat, born: seq<Routed>, t: State)
    requires Inv(s) && Aligned(s) && Next(s, End(j, born)) == Some(t)
    ensures Aligned(t) <==> !Overtakes(s, End(j, born))
  {
    hide Base, Opened, OpenAll, HeadsAll, Waits, Crossed, Aligned;
    Placed(s, j);
    LeftKeeps(s, j);
    var left, stream := s.(bound := Leave(s.bound, j)), s.streamOf[j];
    LeftAligned(s, j);
    AllOpened(left, stream, born, true);
    OpenedAtOnce(left, stream, born);
    SameOvertakes(s, left, born);
    var after := OpenAll(left, stream, born, true);
    OpenedMore(left, after, stream, true);
    LeftHas(s, j, left);
    KeptIds(left, after, stream, true);
    DeliveryEndedKeeps(after, j);
    var ended := DeliveryEnded(after, j);
    DeliveryEndedAligned(after, j);
    SameAligned(ended, t);
    if AnyOvertakes(s, born) {
      CrossedIsNot(ended);
    }
  }

  lemma {:induction false} LeftAligned(s: State, j: nat)
    requires Base(s) && Aligned(s) && j in s.bound.live
    ensures Aligned(s.(bound := Leave(s.bound, j)))
  {
    var left := s.(bound := Leave(s.bound, j));
    LeftKeeps(s, j);
    hide Base;
    forall i: nat, k: nat | Follows(left, i, k)
      ensures NoLater(left, k, i)
    {
      assert k in Unended(s) && k != j;
      assert Follows(s, i, k);
      assert NoLater(s, k, i);
    }
  }

  /** A delivery without members leaves nothing crossed that was not, and all crossed that was. */
  lemma {:induction false} DeliveryEndedAligned(s: State, j: nat)
    ensures Aligned(s) ==> Aligned(DeliveryEnded(s, j))
    ensures Crossed(s) ==> Crossed(DeliveryEnded(s, j))
  {
    var t := DeliveryEnded(s, j);
    assert Unended(t) == Unended(s);
    assert forall i: nat, k: nat :: Follows(t, i, k) ==> Follows(s, i, k);
    assert forall i: nat, k: nat :: NoLater(t, i, k) <==> NoLater(s, i, k);
    if Crossed(s) {
      var i, k :| Follows(s, i, k) && k in s.waiting;
      assert i in Members(s, s.deliveryOf[i]) && k in Members(s, s.deliveryOf[k]);
      assert Follows(t, i, k);
    }
  }

  /**
   * Stepwise: with every Message at its destination after those of the deliveries
   * before its own, a step keeps them so exactly where it takes no places at once, by
   * a Group, past a Message waiting there for its own.
   */
  lemma {:induction false} AlignedStepByStep(s: State, step: Step, t: State)
    requires Inv(s) && Aligned(s) && Next(s, step) == Some(t)
    ensures Aligned(t) <==> !Overtakes(s, step)
  {
    hide Inv, Aligned;
    match step
    case Receive(queues, routed) => ReceiveAligned(s, queues, routed, t);
    case TakeGroup(j) => TakeGroupAligned(s, j);
    case TakeLate(j) => TakeLateAligned(s, j, t);
    case End(j, born) => EndAligned(s, j, born, t);
  }

  ghost predicate OvertakesAt(steps: seq<Step>, k: nat)
    requires k < |steps|
  {
    var s := Run(Initial, steps[..k]);
    s.Some? && Overtakes(s.value, steps[k])
  }

  ghost predicate AlignedAt(steps: seq<Step>, k: nat)
    requires k <= |steps|
  {
    var s := Run(Initial, steps[..k]);
    s.Some? && Aligned(s.value)
  }

  /** No step of the run took places at once past a Message waiting for its own. */
  ghost predicate NoneOvertook(steps: seq<Step>) {
    forall k :: 0 <= k < |steps| ==> !OvertakesAt(steps, k)
  }

  /** At every state of a run they are in order exactly where no step of it took places at once past one waiting. */
  lemma {:induction false} AlignedExactly(steps: seq<Step>, s: State)
    requires Run(Initial, steps) == Some(s)
    ensures NoneOvertook(steps) <==> forall k :: 0 <= k <= |steps| ==> AlignedAt(steps, k)
  {
    hide Next, Inv, Overtakes, Aligned;
    assert steps[..|steps|] == steps;
    if steps == [] {
      InitialAligned();
    } else {
      var n, past := |steps| - 1, steps[..|steps| - 1];
      var before := Run(Initial, past).value;
      RunKeepsInv(past, before);
      AlignedExactly(past, before);
      assert forall k :: 0 <= k <= n ==> past[..k] == steps[..k];
      assert forall k :: 0 <= k < n ==> (OvertakesAt(past, k) <==> OvertakesAt(steps, k));
      assert forall k :: 0 <= k <= n ==> (AlignedAt(past, k) <==> AlignedAt(steps, k));
      assert OvertakesAt(steps, n) <==> Overtakes(before, steps[n]);
      assert AlignedAt(steps, n) <==> Aligned(before);
      assert AlignedAt(steps, |steps|) <==> Aligned(s);
      if Aligned(before) {
        AlignedStepByStep(before, steps[n], s);
      }
    }
  }

  lemma {:induction false} InitialAligned()
    ensures Aligned(Initial)
  {
  }

  // ---- Whether some Message goes on ----

  /** A step that takes a Message on: places of its own or its delivery's taken, or it done at the point it heads. */
  predicate Onward(step: Step) {
    step.TakeGroup? || step.TakeLate? || (step.End? && step.born == [])
  }

  /**
   * Waiting is not circular over the three levels of sequences: after a run no step of
   * which took places at once past a Message waiting for its own in their Group's
   * sequence, with a Message still to end, some Message can go on.
   */
  lemma {:induction false} SomeMessageGoesOn(steps: seq<Step>, s: State)
    requires Run(Initial, steps) == Some(s) && NoneOvertook(steps) && Unended(s) != {}
    ensures exists step :: Onward(step) && Next(s, step).Some?
  {
    hide Inv, Aligned, Next, NoneOvertook;
    RunKeepsInv(steps, s);
    AlignedExactly(steps, s);
    assert steps[..|steps|] == steps && AlignedAt(steps, |steps|);
    var step := GoesOn(s);
  }

  lemma {:induction false} GoesOn(s: State) returns (step: Step)
    requires Inv(s) && Aligned(s) && Unended(s) != {}
    ensures Onward(step) && Next(s, step).Some?
  {
    hide LineOk, HeadsAll, Aligned, IdsOk, DeliveriesOk, UnendedOk, BoundHead, GroupsHead, ToldOk;
    if s.bound.live != {} {
      var j := FirstGoesOn(s);
      step := End(j, []);
    } else if s.groups.live != {} {
      var d := EarliestHeads(s.groups);
      var j :| j in Members(s, d);
      InItsGroup(s, j);
      step := if j in s.told then TakeLate(j) else TakeGroup(j);
    } else {
      var any :| any in Unended(s);
      Placed(s, any);
      var stream := EarliestHeads(s.through);
      var j :| j in Of(s, stream);
      Placed(s, j);
      step := if j in s.deliveryOf then TakeGroup(j) else TakeLate(j);
    }
  }

  /** A member of a delivery in its Group's sequence has its Stream at the head of its own. */
  lemma {:induction false} InItsGroup(s: State, j: nat)
    requires Base(s) && j in Unended(s) && j in s.deliveryOf && s.deliveryOf[j] in s.groups.live
    ensures StreamHeads(s, j) && s.deliveryOf[j] in s.groups.blocks
  {
    hide HeadsAll;
    LiveOnes(s.groups);
    LiveOnes(s.through);
    hide LineOk;
  }

  /** Of those at their destinations, one there as early as any is at the head of all it waits for. */
  lemma {:induction false} FirstGoesOn(s: State) returns (j: nat)
    requires Inv(s) && Aligned(s) && s.bound.live != {}
    ensures Next(s, End(j, [])).Some?
  {
    hide HeadsAll, DeliveriesOk, UnendedOk, BoundHead, GroupsHead, IdsOk, ToldOk;
    LiveOnes(s.bound);
    j := Earliest(s.bound, s.bound.live);
    Placed(s, j);
    if j in s.deliveryOf && !HeadsAll(s.groups, s.deliveryOf[j]) {
      var e := FirstBefore(s, s.deliveryOf[j]);
      HeadsUnlessBefore(s, e);
      var k :| k in Members(s, e);
      assert Follows(s, j, k) && NoLater(s, k, j);
      j := k;
      Placed(s, j);
    }
    EarlyHeads(s.bound, j);
    hide LineOk, Aligned;
    EndsNow(s, j);
  }

  /** Of the deliveries before one in their Group's sequence, the first. */
  lemma {:induction false} FirstBefore(s: State, d: nat) returns (e: nat)
    requires Base(s) && d in s.groups.live && !HeadsAll(s.groups, d)
    ensures Before(s, e, d) && forall f :: !Before(s, f, e)
  {
    hide IdsOk, DeliveriesOk, UnendedOk, BoundHead, GroupsHead, ToldOk, HeadsAll;
    HeadsUnlessBefore(s, d);
    LiveOnes(s.groups);
    hide LineOk;
    var before := set f | f in s.groups.live && Before(s, f, d);
    var any :| Before(s, any, d);
    assert any in before;
    e := Earliest(s.groups, before);
    forall f | Before(s, f, d)
      ensures !Before(s, f, e)
    {
      assert f in before;
    }
  }

  lemma {:induction false} EndsNow(s: State, j: nat)
    requires Base(s) && j in s.bound.live && StreamHeads(s, j) && GroupHeads(s, j) && j in s.bound.blocks && HeadsAll(s.bound, j)
    ensures Next(s, End(j, [])).Some?
  {
    hide LineOk, HeadsAll, IdsOk, DeliveriesOk, UnendedOk, BoundHead, GroupsHead, ToldOk;
    assert DeliveryEnded(OpenAll(s.(bound := Leave(s.bound, j)), s.streamOf[j], [], true), j).through == s.through;
  }

  /** Then every Message can be taken to its end, and every delivery and Stream with it. */
  lemma {:induction false} AllCanEnd(steps: seq<Step>, s: State)
    requires Run(Initial, steps) == Some(s) && NoneOvertook(steps)
    ensures exists more, t :: Run(s, more) == Some(t) && Unended(t) == {} && t.groups.live == {} && t.through.live == {}
  {
    hide Inv, Aligned, Next, NoneOvertook;
    RunKeepsInv(steps, s);
    AlignedExactly(steps, s);
    assert steps[..|steps|] == steps && AlignedAt(steps, |steps|);
    var more, t := Drained(s);
  }

  /** How far the Messages are from their ends: places to take, and to be done. */
  function Left(s: State): nat {
    2 * |s.waiting.Keys| + |s.bound.live| + |s.waiting.Keys - s.told|
  }

  lemma {:induction false} Drained(s: State) returns (more: seq<Step>, t: State)
    requires Inv(s) && Aligned(s)
    ensures Run(s, more) == Some(t) && Unended(t) == {} && t.groups.live == {} && t.through.live == {}
    decreases Left(s)
  {
    if Unended(s) == {} {
      more, t := [], s;
      NoneLeft(s);
    } else {
      var step := GoesOn(s);
      var after := Next(s, step).value;
      hide Inv, Aligned, Next;
      NextKeepsInv(s, step, after);
      AlignedStepByStep(s, step, after);
      OnwardLowers(s, step, after);
      var rest;
      rest, t := Drained(after);
      more := [step] + rest;
      RunFrom(s, step, after, rest, t);
    }
  }

  lemma {:induction false} NoneLeft(s: State)
    requires Inv(s) && Unended(s) == {}
    ensures s.groups.live == {} && s.through.live == {}
  {
    hide Base;
    assert forall n :: Of(s, n) == {} && Members(s, n) == {};
  }

  lemma {:induction false} OnwardLowers(s: State, step: Step, t: State)
    requires Inv(s) && Next(s, step) == Some(t) && Onward(step)
    ensures Left(t) < Left(s)
  {
    hide Inv, HeadsAll, Left, Told, Ended, StreamHeads, GroupHeads;
    match step
    case TakeGroup(j) => ToldLowers(s, j);
    case TakeLate(j) => TakingLowers(s, j, t);
    case End(j, born) => EndLowers(s, j, t);
  }

  lemma {:induction false} ToldLowers(s: State, j: nat)
    requires Inv(s) && j in s.waiting && j in s.deliveryOf && j !in s.told
    ensures Left(Told(s, j)) < Left(s)
  {
    hide HeadsAll, UnendedOk, BoundHead, GroupsHead, ToldOk;
    Placed(s, j);
    ItsDelivery(s, j);
    hide Base;
    var t := Told(s, j);
    assert t.waiting.Keys - t.told == (s.waiting.Keys - s.told) - {j};
  }

  lemma {:induction false} TakingLowers(s: State, j: nat, t: State)
    requires Inv(s) && Next(s, TakeLate(j)) == Some(t)
    ensures Left(t) < Left(s)
  {
    NotBoth(s, j);
    hide Inv, HeadsAll, StreamHeads, GroupHeads;
    assert t.waiting.Keys == s.waiting.Keys - {j} && t.bound.live == s.bound.live + {j} && j !in s.bound.live;
    Fewer(t.waiting.Keys - t.told, s.waiting.Keys - s.told);
  }

  lemma {:induction false} EndLowers(s: State, j: nat, t: State)
    requires Next(s, End(j, [])) == Some(t)
    ensures Left(t) < Left(s)
  {
    EndLeaves(s, j);
    hide Next;
  }

  lemma {:induction false} Fewer(a: set<nat>, b: set<nat>)
    requires a <= b
    ensures |a| <= |b|
  {
    assert b == a + (b - a);
  }

  lemma {:induction false} EndLeaves(s: State, j: nat)
    requires Next(s, End(j, [])).Some?
    ensures var t := Next(s, End(j, [])).value;
      t.waiting == s.waiting && t.told == s.told && t.bound.live == s.bound.live - {j} && j in s.bound.live
  {
    hide HeadsAll, StreamHeads, GroupHeads;
  }

  lemma {:induction false} RunFrom(s: State, step: Step, after: State, rest: seq<Step>, t: State)
    requires Next(s, step) == Some(after) && Run(after, rest) == Some(t)
    ensures Run(s, [step] + rest) == Some(t)
    decreases |rest|
  {
    hide Next;
    var steps := [step] + rest;
    if rest == [] {
      assert steps == [step];
      assert steps[..0] == [];
      assert Run(s, steps[..|steps| - 1]) == Some(s);
    } else {
      var n := |rest| - 1;
      assert steps[..|steps| - 1] == [step] + rest[..n];
      RunFrom(s, step, after, rest[..n], Run(after, rest[..n]).value);
    }
  }
}
