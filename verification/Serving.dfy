/**
 * The receive loop of one Location (src/receiving.rs, `serve`, `settle` and
 * `settled`): what it asks its transport for, what it settles, and what it
 * ends with, whenever and in whatever order its arrivals come to be told.
 */
module Serving {
  import opened Wrappers
  import opened Sums

  type Arrival = nat

  type Reason = nat

  /** What a transport answers a receive: so many arrivals, as far as it was asked, or a failure. */
  datatype Answer = HandsOver(arrivals: nat) | Mendable | Fails(why: Reason)

  /** How an arrival's far end was told. */
  datatype Telling = Heard | MayMend(why: Reason) | WillNotMend(why: Reason)

  /** What the loop has carrying: its count, the reasons heard, and what it said so far. */
  datatype Carrying = Carrying(
    count: nat,
    heard: set<Reason>,
    untold: seq<Arrival>,
    /** Every arrival given to `each`, in order. */
    each: seq<Arrival>,
    audited: seq<Reason>)

  /** `settled`: the arrival at `i` of those untold, counted down and given to `each`; its error, if any. */
  function Settled(c: Carrying, i: nat, telling: Arrival -> Telling): (Carrying, Option<Reason>)
    requires i < |c.untold| && c.count > 0
  {
    var one := c.untold[i];
    var c := c.(count := c.count - 1, untold := c.untold[..i] + c.untold[i + 1..], each := c.each + [one]);
    match telling(one)
    case WillNotMend(why) => (c, Some(why))
    case MayMend(why) =>
      (if why in c.heard then c else c.(heard := c.heard + {why}, audited := c.audited + [why]), None)
    case Heard => (c, None)
  }

  /** The reasons among `each` that stop a Location, in order. */
  function Stops(each: seq<Arrival>, telling: Arrival -> Telling): seq<Reason> {
    if each == [] then [] else
    var last := telling(each[|each| - 1]);
    Stops(each[..|each| - 1], telling) + if last.WillNotMend? then [last.why] else []
  }

  /** What may be untold when the transport is asked again. */
  function Busy(ordered: bool, most: nat): nat {
    if ordered then 0 else Max(most, 1) - 1
  }

  /** What the loop keeps: nothing taken off the far end is lost or told twice, and each reason is audited once. */
  ghost predicate Keeps(c: Carrying, most: nat, taken: seq<Arrival>, telling: Arrival -> Telling) {
    && c.count == |c.untold| <= Max(most, 1)
    && multiset(c.each) + multiset(c.untold) == multiset(taken)
    && AuditedOnce(c.heard, c.each, c.audited, telling)
  }

  /** Each reason a telling that may mend was heard for is audited, and once. */
  ghost predicate AuditedOnce(heard: set<Reason>, each: seq<Arrival>, audited: seq<Reason>, telling: Arrival -> Telling) {
    && (forall i, j :: 0 <= i < j < |audited| ==> audited[i] != audited[j])
    && (forall why :: why in heard <==> why in audited)
    && (forall why :: why in audited <==> exists i :: 0 <= i < |each| && telling(each[i]) == MayMend(why))
  }

  lemma {:induction false} SettledKeeps(
      c: Carrying, i: nat, most: nat, taken: seq<Arrival>, telling: Arrival -> Telling)
    requires Keeps(c, most, taken, telling) && i < |c.untold|
    ensures Keeps(Settled(c, i, telling).0, most, taken, telling)
  {
    var c' := Settled(c, i, telling).0;
    MovedAcross(c, i, c');
    SettledAudits(c, i, telling);
  }

  lemma {:induction false} MovedAcross(c: Carrying, i: nat, c': Carrying)
    requires i < |c.untold|
    requires c'.each == c.each + [c.untold[i]] && c'.untold == c.untold[..i] + c.untold[i + 1..]
    ensures multiset(c'.each) + multiset(c'.untold) == multiset(c.each) + multiset(c.untold)
  {
    assert c.untold == c.untold[..i] + [c.untold[i]] + c.untold[i + 1..];
  }

  lemma {:induction false} SettledAudits(c: Carrying, i: nat, telling: Arrival -> Telling)
    requires AuditedOnce(c.heard, c.each, c.audited, telling) && i < |c.untold| && c.count > 0
    ensures var c' := Settled(c, i, telling).0; AuditedOnce(c'.heard, c'.each, c'.audited, telling)
  {
    var c' := Settled(c, i, telling).0;
    var one := c.untold[i];
    assert c'.each == c.each + [one];
    forall why | why in c'.audited
      ensures exists k :: 0 <= k < |c'.each| && telling(c'.each[k]) == MayMend(why)
    {
      if why in c.audited {
        var k :| 0 <= k < |c.each| && telling(c.each[k]) == MayMend(why);
        assert telling(c'.each[k]) == MayMend(why);
      } else {
        assert telling(c'.each[|c.each|]) == MayMend(why);
      }
    }
    forall k | 0 <= k < |c'.each| && telling(c'.each[k]).MayMend?
      ensures telling(c'.each[k]).why in c'.audited
    {
      if k < |c.each| {
        assert telling(c.each[k]) == MayMend(telling(c'.each[k]).why);
      }
    }
  }

  /** One receive: how many were untold as it was asked, and for how many it was asked. */
  datatype Asked = Asked(untold: nat, room: nat)

  /** What the receives asked so far took off a far end of `there` arrivals: what each was answered, as far as it was asked for. */
  function TakenBy(asks: seq<Asked>, answers: seq<Answer>, there: nat): (taken: nat)
    requires |asks| <= |answers|
    ensures taken <= there
  {
    if asks == [] then 0 else
    var k := |asks| - 1;
    var before := TakenBy(asks[..k], answers, there);
    before + Came(answers[k], asks[k].room, there - before)
  }

  /** How many of the `left` at its far end a receive asked for `room` was answered with. */
  function Came(answer: Answer, room: nat, left: nat): nat {
    if answer.HandsOver? then Min(Min(answer.arrivals, room), left) else 0
  }

  /** Where a serve stands: what it carries, what it took of its far end, its first error and the receive that made it. */
  datatype Standing = Standing(
    carrying: Carrying,
    taken: nat,
    ended: Option<Reason>,
    /** The receive that failed: after how many tellings, and why. */
    failed: Option<(nat, Reason)>)

  ghost predicate Good(s: Standing, most: nat, farEnd: seq<Arrival>, telling: Arrival -> Telling) {
    && s.taken <= |farEnd|
    && Keeps(s.carrying, most, farEnd[..s.taken], telling)
    && FirstError(s.ended, s.carrying.each, s.failed, telling)
  }

  /** The next telling sent to the loop, whichever arrival's it is: what is sent first is not what came first. */
  method Settle(s: Standing, most: nat, farEnd: seq<Arrival>, telling: Arrival -> Telling)
    returns (s': Standing)
    requires Good(s, most, farEnd, telling) && s.carrying.count > 0
    ensures Good(s', most, farEnd, telling)
    ensures s'.carrying.count == s.carrying.count - 1 && s'.failed == s.failed && s'.taken == s.taken
    ensures s.carrying.each <= s'.carrying.each
    ensures s.ended.Some? ==> s'.ended == s.ended
  {
    var i: nat :| i < |s.carrying.untold|;
    SettledKeeps(s.carrying, i, most, farEnd[..s.taken], telling);
    var settled := Settled(s.carrying, i, telling);
    s' := s.(carrying := settled.0, ended := if s.ended.None? then settled.1 else s.ended);
    FirstErrorStays(s, i, s', telling);
  }

  lemma {:induction false} FirstErrorStays(s: Standing, i: nat, s': Standing, telling: Arrival -> Telling)
    requires FirstError(s.ended, s.carrying.each, s.failed, telling)
    requires i < |s.carrying.untold| && s.carrying.count > 0
    requires s'.carrying == Settled(s.carrying, i, telling).0 && s'.failed == s.failed
    requires s'.ended == if s.ended.None? then Settled(s.carrying, i, telling).1 else s.ended
    ensures FirstError(s'.ended, s'.carrying.each, s'.failed, telling)
  {
    FirstErrorOfMore(s.ended, s.carrying.each, s.failed, telling, s.carrying.untold[i]);
  }

  /** One arrival more given to `each`: the first error kept stays it, or is its own. */
  lemma {:induction false} FirstErrorOfMore(
      ended: Option<Reason>, each: seq<Arrival>, failed: Option<(nat, Reason)>, telling: Arrival -> Telling, one: Arrival)
    requires FirstError(ended, each, failed, telling)
    ensures var stops := if telling(one).WillNotMend? then Some(telling(one).why) else None;
      FirstError(if ended.None? then stops else ended, each + [one], failed, telling)
  {
    var each' := each + [one];
    assert each'[..|each|] == each;
    match failed
    case Some((at, _)) => assert each'[..at] == each[..at];
    case None =>
  }

  /** What is told already settled, and on until no more than `busy` is untold. */
  method SettleTo(s: Standing, busy: nat, most: nat, farEnd: seq<Arrival>, telling: Arrival -> Telling)
    returns (s': Standing)
    requires Good(s, most, farEnd, telling) && s.ended.None?
    ensures Good(s', most, farEnd, telling) && s'.failed == s.failed && s'.taken == s.taken
    ensures s.carrying.each <= s'.carrying.each
    ensures s'.ended.None? ==> s'.carrying.count <= busy
  {
    s' := s;
    while s'.ended.None? && s'.carrying.count > 0
      invariant Good(s', most, farEnd, telling) && s'.failed == s.failed && s'.taken == s.taken
      invariant s.carrying.each <= s'.carrying.each
      decreases s'.carrying.count
    {
      if * {
        break;
      }
      s' := Settle(s', most, farEnd, telling);
    }
    while s'.ended.None? && s'.carrying.count > busy
      invariant Good(s', most, farEnd, telling) && s'.failed == s.failed && s'.taken == s.taken
      invariant s.carrying.each <= s'.carrying.each
      decreases s'.carrying.count
    {
      s' := Settle(s', most, farEnd, telling);
    }
  }

  /** A receive: asked for as many as the node has places, and what it was answered taken, or its failure kept. */
  method Receive(s: Standing, answer: Answer, ordered: bool, most: nat, farEnd: seq<Arrival>, telling: Arrival -> Telling)
    returns (s': Standing, asked: Asked)
    requires Good(s, most, farEnd, telling) && s.ended.None? && s.failed.None?
    requires s.carrying.count <= Busy(ordered, most)
    ensures Good(s', most, farEnd, telling)
    ensures ExactAsk(asked, ordered, most) && asked.untold == s.carrying.count
    ensures s'.failed.Some? ==> answer == Fails(s'.failed.value.1)
    ensures s'.ended.Some? ==> s'.failed.Some?
    ensures s'.taken == s.taken + Came(answer, asked.room, |farEnd| - s.taken)
    ensures s'.carrying.each == s.carrying.each
  {
    // As many of the node's places as there are, one at least and no more than the pool has room for.
    var room := Max(most, 1) - s.carrying.count;
    var places: nat :| 1 <= places <= room;
    asked := Asked(s.carrying.count, places);
    match answer
    case HandsOver(_) =>
      var n := Came(answer, places, |farEnd| - s.taken);
      s' := Took(s, farEnd[s.taken..s.taken + n]);
      TookGood(s, n, most, farEnd, telling);
    case Mendable =>
      s' := s;
    case Fails(why) =>
      s' := s.(ended := Some(why), failed := Some((|s.carrying.each|, why)));
      assert s.carrying.each[..|s.carrying.each|] == s.carrying.each;
  }

  function Took(s: Standing, came: seq<Arrival>): Standing {
    s.(carrying := s.carrying.(count := s.carrying.count + |came|, untold := s.carrying.untold + came),
       taken := s.taken + |came|)
  }

  lemma {:induction false} TookGood(
      s: Standing, n: nat, most: nat, farEnd: seq<Arrival>, telling: Arrival -> Telling)
    requires Good(s, most, farEnd, telling)
    requires s.taken + n <= |farEnd| && s.carrying.count + n <= Max(most, 1)
    ensures Good(Took(s, farEnd[s.taken..s.taken + n]), most, farEnd, telling)
  {
    var came := farEnd[s.taken..s.taken + n];
    CameKeeps(s.carrying, most, farEnd[..s.taken], came, telling);
    assert farEnd[..s.taken + n] == farEnd[..s.taken] + came;
  }

  lemma {:induction false} CameKeeps(
      c: Carrying, most: nat, taken: seq<Arrival>, came: seq<Arrival>, telling: Arrival -> Telling)
    requires Keeps(c, most, taken, telling) && c.count + |came| <= Max(most, 1)
    ensures Keeps(c.(count := c.count + |came|, untold := c.untold + came), most, taken + came, telling)
  {
  }

  /**
   * `serve`, until its node stops after `answers`, over a far end holding `farEnd`.
   * Each arrival taken is given to `each` exactly once before it returns, and where
   * the transport is ordered those of one receive before those of a later one; the
   * transport is never asked for less than one, for more than the pool has room for,
   * or, ordered, with one untold; and what it ends with is the first error there was.
   */
  method Serve(
      ordered: bool, most: nat, answers: seq<Answer>, farEnd: seq<Arrival>, telling: Arrival -> Telling)
    returns (s: Standing, asks: seq<Asked>)
    ensures AskedWell(s, asks, answers, ordered, most, |farEnd|)
    ensures s.carrying.count == 0
    ensures multiset(s.carrying.each) == multiset(farEnd[..s.taken])
    ensures ordered ==> ReceiveByReceive(s.carrying.each, asks, answers, farEnd)
    ensures AuditedOnce(s.carrying.heard, s.carrying.each, s.carrying.audited, telling)
    ensures FirstError(s.ended, s.carrying.each, s.failed, telling)
    ensures s.ended.None? ==> |asks| == |answers|
  {
    s, asks := NOTHING_YET, [];
    GoodAtFirst(most, farEnd, telling);
    while s.ended.None? && |asks| < |answers|
      invariant AskedWell(s, asks, answers, ordered, most, |farEnd|)
      invariant Good(s, most, farEnd, telling)
      invariant ordered ==> ReceiveByReceive(s.carrying.each, asks, answers, farEnd)
      decreases |answers| - |asks|
    {
      var before := s;
      s := SettleTo(s, Busy(ordered, most), most, farEnd, telling);
      if ordered {
        ReceivesStay(before.carrying.each, s.carrying.each, asks, answers, farEnd);
      }
      if s.ended.Some? {
        break;
      }
      var received, asked := Receive(s, answers[|asks|], ordered, most, farEnd, telling);
      AskedWellAgain(s, asks, received, asked, answers, ordered, most, |farEnd|);
      if ordered {
        ReceivedNext(s, asks, asked, answers, farEnd, most, telling);
      }
      s, asks := received, asks + [asked];
    }
    ghost var before := s;
    s := SettleAll(s, most, farEnd, telling);
    if ordered {
      ReceivesStay(before.carrying.each, s.carrying.each, asks, answers, farEnd);
    }
  }

  /** What is still carried once the loop has stopped asking, to its end. */
  method SettleAll(s: Standing, most: nat, farEnd: seq<Arrival>, telling: Arrival -> Telling)
    returns (s': Standing)
    requires Good(s, most, farEnd, telling)
    ensures Good(s', most, farEnd, telling) && s'.failed == s.failed && s'.taken == s.taken
    ensures s.carrying.each <= s'.carrying.each
    ensures s.ended.Some? ==> s'.ended == s.ended
    ensures s'.carrying.count == 0
    ensures multiset(s'.carrying.each) == multiset(farEnd[..s'.taken])
  {
    s' := s;
    while s'.carrying.count > 0
      invariant Good(s', most, farEnd, telling) && s'.failed == s.failed && s'.taken == s.taken
      invariant s.carrying.each <= s'.carrying.each
      invariant s.ended.Some? ==> s'.ended == s.ended
      decreases s'.carrying.count
    {
      s' := Settle(s', most, farEnd, telling);
    }
    assert s'.carrying.each + s'.carrying.untold == s'.carrying.each;
  }

  /** What was given to `each` first is, in some order, the first `taken` of the far end. */
  ghost predicate GivenFirst(each: seq<Arrival>, taken: nat, farEnd: seq<Arrival>) {
    taken <= |each| && taken <= |farEnd| && multiset(each[..taken]) == multiset(farEnd[..taken])
  }

  /** What each receive was asked after was given to `each` before anything it handed over. */
  ghost predicate ReceiveByReceive(each: seq<Arrival>, asks: seq<Asked>, answers: seq<Answer>, farEnd: seq<Arrival>)
    requires |asks| <= |answers|
  {
    forall k :: 0 <= k < |asks| ==> GivenFirst(each, TakenBy(asks[..k], answers, |farEnd|), farEnd)
  }

  lemma {:induction false} ReceivesStay(
      each: seq<Arrival>, each': seq<Arrival>, asks: seq<Asked>, answers: seq<Answer>, farEnd: seq<Arrival>)
    requires |asks| <= |answers| && ReceiveByReceive(each, asks, answers, farEnd) && each <= each'
    ensures ReceiveByReceive(each', asks, answers, farEnd)
  {
    forall k | 0 <= k < |asks| ensures GivenFirst(each', TakenBy(asks[..k], answers, |farEnd|), farEnd) {
      var taken := TakenBy(asks[..k], answers, |farEnd|);
      assert GivenFirst(each, taken, farEnd);
      assert each'[..taken] == each[..taken];
    }
  }

  lemma {:induction false} ReceivedNext(
      s: Standing, asks: seq<Asked>, asked: Asked, answers: seq<Answer>, farEnd: seq<Arrival>, most: nat,
      telling: Arrival -> Telling)
    requires |asks| < |answers| && ReceiveByReceive(s.carrying.each, asks, answers, farEnd)
    requires Good(s, most, farEnd, telling) && s.carrying.count == 0
    requires s.taken == TakenBy(asks, answers, |farEnd|)
    ensures ReceiveByReceive(s.carrying.each, asks + [asked], answers, farEnd)
  {
    var each, asks' := s.carrying.each, asks + [asked];
    assert s.carrying.untold == [] && multiset(each) == multiset(farEnd[..s.taken]);
    assert |each| == |multiset(each)| == |multiset(farEnd[..s.taken])| == s.taken;
    assert each[..s.taken] == each;
    forall k | 0 <= k < |asks'| ensures GivenFirst(each, TakenBy(asks'[..k], answers, |farEnd|), farEnd) {
      assert asks'[..k] == asks[..k];
      if k == |asks| {
        assert asks[..k] == asks;
      }
    }
  }

  /** Where no receive hands over more than one, an ordered transport's arrivals are given in the order they came. */
  lemma {:induction false} OneAtATimeInOrder(
      each: seq<Arrival>, asks: seq<Asked>, answers: seq<Answer>, farEnd: seq<Arrival>)
    requires |asks| <= |answers| && ReceiveByReceive(each, asks, answers, farEnd)
    requires multiset(each) == multiset(farEnd[..TakenBy(asks, answers, |farEnd|)])
    requires forall k :: 0 <= k < |asks| && answers[k].HandsOver? ==> Min(answers[k].arrivals, asks[k].room) <= 1
    ensures each == farEnd[..TakenBy(asks, answers, |farEnd|)]
  {
    var taken := TakenBy(asks, answers, |farEnd|);
    assert |each| == |multiset(each)| == |multiset(farEnd[..taken])| == taken;
    assert each[..taken] == each && asks[..|asks|] == asks;
    OneAtATime(each, asks, answers, farEnd, |asks|);
  }

  lemma {:induction false} OneAtATime(
      each: seq<Arrival>, asks: seq<Asked>, answers: seq<Answer>, farEnd: seq<Arrival>, k: nat)
    requires k <= |asks| <= |answers|
    requires forall j :: 0 <= j <= k ==> GivenFirst(each, TakenBy(asks[..j], answers, |farEnd|), farEnd)
    requires forall j :: 0 <= j < k && answers[j].HandsOver? ==> Min(answers[j].arrivals, asks[j].room) <= 1
    ensures var taken := TakenBy(asks[..k], answers, |farEnd|);
      taken <= |each| && each[..taken] == farEnd[..taken]
    decreases k
  {
    var taken := TakenBy(asks[..k], answers, |farEnd|);
    assert GivenFirst(each, taken, farEnd);
    hide GivenFirst;
    if k > 0 {
      OneAtATime(each, asks, answers, farEnd, k - 1);
      assert asks[..k][..k - 1] == asks[..k - 1];
      var before := TakenBy(asks[..k - 1], answers, |farEnd|);
      assert before <= taken <= before + 1;
      OneMore(each, before, taken, farEnd);
    }
  }

  lemma {:induction false} OneMore(each: seq<Arrival>, before: nat, taken: nat, farEnd: seq<Arrival>)
    requires GivenFirst(each, taken, farEnd) && before <= taken <= before + 1 && each[..before] == farEnd[..before]
    ensures each[..taken] == farEnd[..taken]
  {
    if taken == before + 1 {
      SameLast(each[..before], each[before], farEnd[before]);
      assert each[..taken] == each[..before] + [each[before]];
      assert farEnd[..taken] == each[..before] + [farEnd[before]];
    }
  }

  lemma {:induction false} SameLast(s: seq<Arrival>, x: Arrival, y: Arrival)
    ensures multiset(s + [x]) == multiset(s + [y]) ==> x == y
  {
    assert multiset(s + [x]) - multiset(s) == multiset{x};
    assert multiset(s + [y]) - multiset(s) == multiset{y};
    if multiset(s + [x]) == multiset(s + [y]) {
      assert x in multiset{y};
    }
  }

  /**
   * Every receive was asked for one at least, for no more than there was room for, and, ordered, with nothing
   * untold; what was taken is what they were answered; and a receive that failed was the last.
   */
  ghost predicate AskedWell(s: Standing, asks: seq<Asked>, answers: seq<Answer>, ordered: bool, most: nat, there: nat) {
    && |asks| <= |answers| && s.taken == TakenBy(asks, answers, there)
    && (forall k :: 0 <= k < |asks| ==> ExactAsk(asks[k], ordered, most))
    && (s.failed.Some? ==> 0 < |asks| && answers[|asks| - 1] == Fails(s.failed.value.1))
  }

  lemma {:induction false} AskedWellAgain(
      s: Standing, asks: seq<Asked>, s': Standing, asked: Asked, answers: seq<Answer>, ordered: bool, most: nat, there: nat)
    requires AskedWell(s, asks, answers, ordered, most, there) && |asks| < |answers|
    requires ExactAsk(asked, ordered, most)
    requires s'.taken == s.taken + Came(answers[|asks|], asked.room, there - s.taken)
    requires s'.failed.Some? ==> answers[|asks|] == Fails(s'.failed.value.1)
    ensures AskedWell(s', asks + [asked], answers, ordered, most, there)
  {
    assert (asks + [asked])[..|asks|] == asks;
  }

  const NOTHING_YET := Standing(Carrying(0, {}, [], [], []), 0, None, None)

  lemma {:induction false} GoodAtFirst(most: nat, farEnd: seq<Arrival>, telling: Arrival -> Telling)
    ensures Good(NOTHING_YET, most, farEnd, telling)
  {
    assert farEnd[..0] == [];
  }

  /** Asked for one at least, for no more than there is room for, and, ordered, with nothing untold. */
  ghost predicate ExactAsk(asked: Asked, ordered: bool, most: nat) {
    1 <= asked.room <= Max(most, 1) - asked.untold && (ordered ==> asked.untold == 0)
  }

  /** The error kept is the first: a receive's, before which no telling stopped the Location, or a telling's. */
  ghost predicate FirstError(
      ended: Option<Reason>, each: seq<Arrival>, failed: Option<(nat, Reason)>, telling: Arrival -> Telling)
  {
    match failed
    case Some((at, why)) => at <= |each| && Stops(each[..at], telling) == [] && ended == Some(why)
    case None => ended == if Stops(each, telling) == [] then None else Some(Stops(each, telling)[0])
  }
}
