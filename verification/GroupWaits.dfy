/**
 * Where two Messages wait for each other (src/sequence.rs, `places`; src/work_step/acts.rs;
 * src/sequence/late.rs, `take_late`): one holds its place at a Send Port, taken at once,
 * behind a delivery of its Group, and one of that delivery waits for a place there.
 */
module GroupWaits {
  import opened Wrappers
  import opened SequenceLines
  import opened SequenceProgress
  import opened GroupProgress
  import Q = Sequence

  /**
   * Message `j` holds a place at its destination, and is of a delivery after that of
   * `k` in their Group's sequence; and `k` waits for a place in the same queue there, or
   * has taken one since.
   */
  predicate Entangled(s: State, j: nat, k: nat, queue: nat) {
    && Follows(s, j, k) && j in s.bound.blocks && queue in s.bound.blocks[j].queues
    && if k in s.waiting then queue in s.waiting[k]
       else
         && k in s.bound.live && k in s.bound.blocks && queue in s.bound.blocks[k].queues
         && s.bound.blocks[j].start < s.bound.blocks[k].start
  }

  /** Neither may end: the one waits for the other's delivery, the other for its place. */
  lemma {:induction false} NeitherEnds(s: State, j: nat, k: nat, queue: nat)
    requires Inv(s) && Entangled(s, j, k, queue)
    ensures forall born :: Next(s, End(j, born)).None? && Next(s, End(k, born)).None?
  {
    hide HeadsAll, IdsOk, DeliveriesOk, UnendedOk, BoundHead, GroupsHead, ToldOk;
    HeadsUnlessBefore(s, s.deliveryOf[j]);
    assert !HeadsAll(s.groups, s.deliveryOf[j]);
    assert !GroupHeads(s, j);
    LiveOnes(s.bound);
    if k in s.bound.live && k !in s.waiting {
      BehindOne(s.bound, j, k, queue);
    } else {
      NotBoth(s, k);
    }
  }

  lemma {:induction false} StaysEntangled(s: State, step: Step, t: State, j: nat, k: nat, queue: nat)
    requires Inv(s) && Entangled(s, j, k, queue) && Next(s, step) == Some(t)
    ensures Entangled(t, j, k, queue)
  {
    hide Base, Entangled, OpenAll, Opened, HeadsAll, Opens, Told;
    match step
    case Receive(queues, routed) =>
      var received := s.(through := Enter(s.through, s.streams, queues), streams := s.streams + 1);
      ReceivedKeeps(s, queues);
      SameEntangled(s, received, j, k, queue);
      AllOpened(received, s.streams, routed, queues == []);
      OpenedEntangled(received, t, s.streams, queues == [], j, k, queue);
    case TakeGroup(i) =>
      Placed(s, i);
      ToldEntangled(s, i, j, k, queue);
    case TakeLate(i) => TakenEntangled(s, i, t, j, k, queue);
    case End(i, born) => EndEntangled(s, i, born, t, j, k, queue);
  }

  lemma {:induction false} SameEntangled(s: State, t: State, j: nat, k: nat, queue: nat)
    requires t == s.(through := t.through, streams := t.streams) && Entangled(s, j, k, queue)
    ensures Entangled(t, j, k, queue)
  {
  }

  lemma {:induction false} OpenedEntangled(s: State, t: State, stream: nat, placed: bool, j: nat, k: nat, queue: nat)
    requires Opened(s, t, stream, placed) && Entangled(s, j, k, queue) && Base(t)
    ensures Entangled(t, j, k, queue)
  {
    if k in s.waiting {
    } else {
      hide HeadsAll, DeliveriesOk, UnendedOk, BoundHead, GroupsHead, ToldOk, LineOk;
      assert k !in t.waiting;
    }
  }

  lemma {:induction false} ToldEntangled(s: State, i: nat, j: nat, k: nat, queue: nat)
    requires Base(s) && Entangled(s, j, k, queue)
    ensures Entangled(Told(s, i), j, k, queue)
  {
    hide Base;
  }

  lemma {:induction false} TakenEntangled(s: State, i: nat, t: State, j: nat, k: nat, queue: nat)
    requires Inv(s) && Entangled(s, j, k, queue) && Next(s, TakeLate(i)) == Some(t)
    ensures Entangled(t, j, k, queue)
  {
    NotBoth(s, i);
    Placed(s, i);
    WithinLine(s.bound, j);
    hide Inv, HeadsAll, StreamHeads, GroupHeads;
  }

  lemma {:induction false} EndEntangled(s: State, i: nat, born: seq<Routed>, t: State, j: nat, k: nat, queue: nat)
    requires Inv(s) && Entangled(s, j, k, queue) && Next(s, End(i, born)) == Some(t)
    ensures Entangled(t, j, k, queue)
  {
    hide Base, Opened, OpenAll, HeadsAll, Entangled;
    NeitherEnds(s, j, k, queue);
    Placed(s, i);
    LeftKeeps(s, i);
    var left, stream := s.(bound := Leave(s.bound, i)), s.streamOf[i];
    LeftEntangled(s, i, j, k, queue);
    AllOpened(left, stream, born, true);
    var after := OpenAll(left, stream, born, true);
    OpenedEntangled(left, after, stream, true, j, k, queue);
    DeliveryEndedEntangled(after, i, j, k, queue);
    SameEntangled(DeliveryEnded(after, i), t, j, k, queue);
  }

  lemma {:induction false} LeftEntangled(s: State, i: nat, j: nat, k: nat, queue: nat)
    requires Entangled(s, j, k, queue) && i in s.bound.blocks && i != j && i != k
    ensures Entangled(s.(bound := Leave(s.bound, i)), j, k, queue)
  {
  }

  lemma {:induction false} DeliveryEndedEntangled(s: State, i: nat, j: nat, k: nat, queue: nat)
    requires Entangled(s, j, k, queue)
    ensures Entangled(DeliveryEnded(s, i), j, k, queue)
  {
    assert j in Members(s, s.deliveryOf[j]) && k in Members(s, s.deliveryOf[k]);
  }

  /** Two such Messages wait for each other for ever: whatever is done after, neither ends. */
  lemma {:induction false} TheyWaitForEver(steps: seq<Step>, s: State, more: seq<Step>, t: State, j: nat, k: nat, queue: nat)
    requires Run(Initial, steps) == Some(s) && Run(s, more) == Some(t) && Entangled(s, j, k, queue)
    ensures j in Unended(t) && k in Unended(t) && Entangled(t, j, k, queue)
  {
    RunKeepsInv(steps, s);
    StillEntangled(s, more, t, j, k, queue);
  }

  lemma {:induction false} StillEntangled(s: State, more: seq<Step>, t: State, j: nat, k: nat, queue: nat)
    requires Inv(s) && Run(s, more) == Some(t) && Entangled(s, j, k, queue)
    ensures Inv(t) && Entangled(t, j, k, queue)
  {
    hide Inv, Next, Entangled;
    if more != [] {
      var n := |more| - 1;
      var before := Run(s, more[..n]).value;
      StillEntangled(s, more[..n], before, j, k, queue);
      NextKeepsInv(before, more[n], t);
      StaysEntangled(before, more[n], t, j, k, queue);
    }
  }

  // A Message through a Group, its delivery's place taken alone yet, and a Work Process publishing through the Group.
  const TWO_STREAMS := State(
    Line([Q.Place(0, 0), Q.Place(1, 1)], {}, map[0 := Block(0, [0]), 1 := Block(1, [1])], {0, 1}), Empty, Empty,
    map[0 := [3], 1 := []], {}, map[0 := 0, 1 := 1], map[0 := 0], map[0 := Delivery(7, 0)], 2, 2, 1)
  const AT_PROCESS := TWO_STREAMS.(waiting := map[0 := [3]], bound := Line([], {}, map[1 := Block(0, [])], {1}))
  const TOLD_ONE := AT_PROCESS.(told := {0}, groups := Line([Q.Place(7, 0)], {}, map[0 := Block(0, [7])], {0}))
  const OVERTAKEN := TOLD_ONE.(
    told := {0, 2}, groups := Line([Q.Place(7, 0), Q.Place(7, 1)], {}, map[0 := Block(0, [7]), 1 := Block(1, [7])], {0, 1}),
    bound := Line([Q.Place(3, 2)], {}, map[1 := Block(0, []), 2 := Block(0, [3])], {2}),
    streamOf := map[0 := 0, 1 := 1, 2 := 1], deliveryOf := map[0 := 0, 2 := 1],
    deliveries := map[0 := Delivery(7, 0), 1 := Delivery(7, 1)], minted := 3, delivered := 2)

  const THROUGH_GROUP := Routed(Some(7), [[3]])
  const TO_PROCESS := Routed(None, [[]])

  const OVERTAKING := [Receive([0], [THROUGH_GROUP]), Receive([1], [TO_PROCESS]), TakeLate(1), TakeGroup(0), End(1, [THROUGH_GROUP])]

  const ONE_STREAM := State(
    Line([Q.Place(0, 0)], {}, map[0 := Block(0, [0])], {0}), Empty, Empty,
    map[0 := [3]], {}, map[0 := 0], map[0 := 0], map[0 := Delivery(7, 0)], 1, 1, 1)

  lemma {:induction false} OpensJust(s: State, stream: nat, r: Routed, placed: bool)
    requires |r.members| == 1
    ensures OpenAll(s, stream, [r], placed)
         == OpenOne(Delivering(s, stream, r.group), stream, DeliveryOf(s, r.group), r.members[0], placed)
  {
    assert [r][..0] == [] && r.members[..0] == [];
    assert OpenAll(s, stream, [r][..0], placed) == s;
    var start, one := Delivering(s, stream, r.group), DeliveryOf(s, r.group);
    assert OpenMembers(start, stream, one, r.members[..0], placed) == start;
  }

  lemma {:induction false} FirstReceived()
    ensures Next(Initial, Receive([0], [THROUGH_GROUP])) == Some(ONE_STREAM)
  {
    var routed := [THROUGH_GROUP];
    assert routed[0].members != [];
    var received := Initial.(through := Enter(Initial.through, 0, [0]), streams := 1);
    OpensJust(received, 0, THROUGH_GROUP, false);
    hide OpenAll;
    assert received.through == ONE_STREAM.through by {
      assert Places([0], 0) == [Q.Place(0, 0)];
    }
  }

  lemma {:induction false} SecondReceived()
    ensures Next(ONE_STREAM, Receive([1], [TO_PROCESS])) == Some(TWO_STREAMS)
  {
    var routed := [TO_PROCESS];
    assert routed[0].members != [];
    var received := ONE_STREAM.(through := Enter(ONE_STREAM.through, 1, [1]), streams := 2);
    OpensJust(received, 1, TO_PROCESS, false);
    hide OpenAll;
    assert received.through == TWO_STREAMS.through by {
      assert Places([1], 1) == [Q.Place(1, 1)];
    }
  }

  lemma {:induction false} RunsOn(steps: seq<Step>, s: State, step: Step, t: State)
    requires Run(Initial, steps) == Some(s) && Next(s, step) == Some(t)
    ensures Run(Initial, steps + [step]) == Some(t)
  {
    assert (steps + [step])[..|steps|] == steps;
  }

  /** Each Stream heads the one queue it is in. */
  lemma {:induction false} BothHead(s: State)
    requires Inv(s) && s.through == TWO_STREAMS.through
    ensures HeadsAll(s.through, 0) && HeadsAll(s.through, 1)
  {
    hide IdsOk, DeliveriesOk, UnendedOk, BoundHead, GroupsHead, ToldOk;
    HeadsIs(s.through, 0);
    HeadsIs(s.through, 1);
    hide HeadsAll;
  }

  lemma {:induction false} TakesAtProcess()
    requires Inv(TWO_STREAMS)
    ensures Next(TWO_STREAMS, TakeLate(1)) == Some(AT_PROCESS)
  {
    BothHead(TWO_STREAMS);
    hide Inv, HeadsAll;
    assert Places([], 1) == [];
    assert Empty.blocks[1 := Block(0, [])] == map[1 := Block(0, [])] && {} + {1} == {1};
    assert TWO_STREAMS.waiting - {1} == map[0 := [3]];
    assert Enter(Empty, 1, []) == AT_PROCESS.bound;
    assert Next(TWO_STREAMS, TakeLate(1)).Some?;
  }

  lemma {:induction false} TakesGroup()
    requires Inv(AT_PROCESS)
    ensures Next(AT_PROCESS, TakeGroup(0)) == Some(TOLD_ONE)
  {
    BothHead(AT_PROCESS);
    hide Inv, HeadsAll;
    assert Places([7], 0) == [Q.Place(7, 0)];
    assert Empty.blocks[0 := Block(0, [7])] == map[0 := Block(0, [7])] && {} + {0} == {0};
    assert Enter(Empty, 0, [7]) == TOLD_ONE.groups;
    assert Next(AT_PROCESS, TakeGroup(0)).Some?;
  }

  lemma {:induction false} DoneThere()
    requires Inv(TOLD_ONE)
    ensures 1 in TOLD_ONE.bound.live && 1 in TOLD_ONE.bound.blocks && HeadsAll(TOLD_ONE.bound, 1)
    ensures StreamHeads(TOLD_ONE, 1) && GroupHeads(TOLD_ONE, 1) && 1 in TOLD_ONE.streamOf && TOLD_ONE.streamOf[1] == 1
    ensures Leave(TOLD_ONE.bound, 1) == Line([], {}, map[1 := Block(0, [])], {})
  {
    BothHead(TOLD_ONE);
    hide Inv;
    assert TOLD_ONE.bound.blocks[1].queues == [];
  }

  lemma {:induction false} NothingEnds()
    ensures DeliveryEnded(OVERTAKEN, 1) == OVERTAKEN && 1 in OVERTAKEN.through.blocks && Ended(OVERTAKEN, 1) == OVERTAKEN
  {
    assert 2 in Of(OVERTAKEN, 1);
  }

  lemma {:induction false} Publishes()
    requires Inv(TOLD_ONE)
    ensures Next(TOLD_ONE, End(1, [THROUGH_GROUP])) == Some(OVERTAKEN)
  {
    DoneThere();
    NothingEnds();
    var left := TOLD_ONE.(bound := Leave(TOLD_ONE.bound, 1));
    OpensJust(left, 1, THROUGH_GROUP, true);
    PublishedIs(left);
    DeliversTwo(left);
    hide Inv, HeadsAll, OpenAll, OpenOne, OVERTAKEN, TOLD_ONE, Leave, StreamHeads, GroupHeads, DeliveryEnded, Ended, Delivering, DeliveryOf;
  }

  lemma {:induction false} DeliversTwo(left: State)
    requires left == TOLD_ONE.(bound := left.bound)
    ensures DeliveryOf(left, Some(7)) == Some(1)
  {
  }

  const BORN := TOLD_ONE.(
    bound := Line([], {}, map[1 := Block(0, [])], {}), streamOf := map[0 := 0, 1 := 1, 2 := 1], deliveryOf := map[0 := 0, 2 := 1],
    deliveries := map[0 := Delivery(7, 0), 1 := Delivery(7, 1)], minted := 3, delivered := 2)

  lemma {:induction false} BornIs(left: State)
    requires left == TOLD_ONE.(bound := Line([], {}, map[1 := Block(0, [])], {}))
    ensures Born(Delivering(left, 1, Some(7)), 1, Some(1)) == BORN && Delivering(left, 1, Some(7)).minted == 2
    ensures Delivering(left, 1, Some(7)).bound == BORN.bound
  {
    var t := Born(Delivering(left, 1, Some(7)), 1, Some(1));
    assert t.deliveries == BORN.deliveries && t.streamOf == BORN.streamOf && t.deliveryOf == BORN.deliveryOf;
  }

  lemma {:induction false} BornIsTold()
    ensures Told(BORN, 2) == BORN.(told := {0, 2}, groups := OVERTAKEN.groups)
  {
    assert Places([7], 1) == [Q.Place(7, 1)];
    assert Enter(BORN.groups, 1, [7]) == OVERTAKEN.groups && BORN.told + {2} == {0, 2};
  }

  lemma {:induction false} PublishedIs(left: State)
    requires left == TOLD_ONE.(bound := Line([], {}, map[1 := Block(0, [])], {}))
    ensures OpenOne(Delivering(left, 1, Some(7)), 1, Some(1), [3], true) == OVERTAKEN
  {
    BornIs(left);
    BornIsTold();
    hide Delivering, Born, Told;
    assert Places([3], 2) == [Q.Place(3, 2)];
    assert Enter(BORN.bound, 2, [3]) == OVERTAKEN.bound;
  }

  /**
   * It comes about: a Message through a Group has its delivery's place taken, and its own
   * at its Send Port in the next write; a Work Process publishing through the Group
   * between takes both of its Message's at once.
   */
  lemma {:induction false} ADeliveryIsOvertaken()
    ensures Run(Initial, OVERTAKING) == Some(OVERTAKEN) && Entangled(OVERTAKEN, 2, 0, 3)
  {
    OvertakesThere();
    TwoAreReceived();
    hide Next, Run, Entangled, TWO_STREAMS, AT_PROCESS, TOLD_ONE, OVERTAKEN, Initial, THROUGH_GROUP, TO_PROCESS, Inv;
    var steps := OVERTAKING;
    RunKeepsInv(steps[..2], TWO_STREAMS);
    TakesAtProcess();
    RunsOn(steps[..2], TWO_STREAMS, steps[2], AT_PROCESS);
    assert steps[..2] + [steps[2]] == steps[..3];
    RunKeepsInv(steps[..3], AT_PROCESS);
    TakesGroup();
    RunsOn(steps[..3], AT_PROCESS, steps[3], TOLD_ONE);
    assert steps[..3] + [steps[3]] == steps[..4];
    RunKeepsInv(steps[..4], TOLD_ONE);
    Publishes();
    RunsOn(steps[..4], TOLD_ONE, steps[4], OVERTAKEN);
    assert steps[..4] + [steps[4]] == steps;
  }

  lemma {:induction false} TwoAreReceived()
    ensures Run(Initial, OVERTAKING[..2]) == Some(TWO_STREAMS)
  {
    var steps := OVERTAKING;
    assert Run(Initial, []) == Some(Initial);
    FirstReceived();
    SecondReceived();
    hide Next, Run, TWO_STREAMS, ONE_STREAM, Initial, THROUGH_GROUP, TO_PROCESS;
    RunsOn([], Initial, steps[0], ONE_STREAM);
    RunsOn([steps[0]], ONE_STREAM, steps[1], TWO_STREAMS);
    assert [] + [steps[0]] == [steps[0]] && [steps[0]] + [steps[1]] == steps[..2];
  }

  lemma {:induction false} OvertakesThere()
    ensures Entangled(OVERTAKEN, 2, 0, 3)
  {
  }
}
