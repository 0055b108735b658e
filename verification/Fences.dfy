/**
 * Who may send a Journey's Message, and what its far end sees (src/send_step/renewal.rs,
 * `holds`; src/send_step/pass.rs; src/departure.rs, `depart_port`): the theorems about
 * claims, over every run, and what a Journey owned twice on one node makes of them.
 */
module Fences {
  import opened Wrappers
  import opened Claims

  // ---- Who may send ----

  /**
   * A departure that passes the check is under the last claim granted of its Journey,
   * and that claim held in Storage, exactly where it passes by its own claim's
   * standing: one that borrows a later claim's is under an earlier one.
   */
  lemma {:induction false} LastClaimExactly(now: int, lease: nat, steps: seq<Step>, s: State, token: nat)
    requires Run(Initial(now, lease), steps) == Some(s) && MaySend(s, token)
    ensures var d := s.departures[token];
      && (Borrows(s, token) <==> d.fence < Of(s.fences, d.key.journey))
      && (!Borrows(s, token) ==> Mine(s.claims, d.key.journey, token) && s.claims[d.key.journey].expiry > s.now)
  {
    hide Inv, Run, Borrows, MaySend;
    RunKeepsInv(now, lease, steps, s);
    Passing(s, token);
  }

  lemma {:induction false} Passing(s: State, token: nat)
    requires Inv(s) && MaySend(s, token)
    ensures var d := s.departures[token];
      if Borrows(s, token) then d.fence < Of(s.fences, d.key.journey) else
        && Mine(s.claims, d.key.journey, token) && s.claims[d.key.journey].expiry > s.now && token !in s.closed
        && d.fence == Of(s.fences, d.key.journey) > Of(s.written, d.key.journey) && d.key.journey !in s.done
  {
    hide TakesOk, RequestsOk, RepliesOk, GrantsOk, SendsOk, Backed;
    var d := s.departures[token];
    assert EntryOk(d.key, s.owned[d.key], s.departures, s.lives, s.now, s.claims, s.closed);
    assert DepartureOk(token, d, s.lives, s.now, s.lease, s.claims, s.grants, s.closed, s.done);
    if Borrows(s, token) {
      var later := s.owned[d.key].token;
      assert Beside(s.departures, d.key, later, token);
      assert DepartureOk(later, s.departures[later], s.lives, s.now, s.lease, s.claims, s.grants, s.closed, s.done);
    }
  }

  // ---- Journeys owned twice ----

  /** Each Journey sent from a node is owned there under its departure's own claim. */
  ghost predicate EachItsOwn(departures: map<nat, Departure>, owned: map<Key, Entry>) {
    forall t :: t in departures && IsOwned(departures[t].phase) ==>
      departures[t].key in owned && owned[departures[t].key].token == t
  }

  /** Whether the step owns a Journey its node owns already. */
  predicate OwnsTwice(s: State, step: Step) {
    step.Own? && step.token in s.departures && s.departures[step.token].key in s.owned
  }

  predicate OwnsTwiceAt(now: int, lease: nat, steps: seq<Step>, k: nat)
    requires k < |steps|
  {
    var s := Run(Initial(now, lease), steps[..k]);
    s.Some? && OwnsTwice(s.value, steps[k])
  }

  /** No step of the run owned a Journey its node owned already. */
  ghost predicate OwnedOnce(now: int, lease: nat, steps: seq<Step>) {
    forall k :: 0 <= k < |steps| ==> !OwnsTwiceAt(now, lease, steps, k)
  }

  /** A step leaves each Journey sent owned under its departure's own claim exactly where it owns none twice. */
  lemma {:induction false} OwnStepByStep(s: State, step: Step, t: State)
    requires Inv(s) && EachItsOwn(s.departures, s.owned) && Next(s, step) == Some(t)
    ensures EachItsOwn(t.departures, t.owned) <==> !OwnsTwice(s, step)
  {
    hide TakesOk, RequestsOk, RepliesOk, GrantsOk, DeparturesOk, EntriesOk, OrderOk, ClaimsOk, FencesOk, SendsOk, EachItsOwn;
    hide Granting, TakenUp, Owning, Delivered, GivenBack, Settled, Served;
    match step
    case Own(token) => OwningTwice(s, token);
    case TakeUp(token) => TakenUpIsNew(s, token);
    case Start(node, ahead) => OtherNodesOwn(s, node, ahead);
    case Read(token) => ReadOwns(s, token);
    case GiveBack(token) => GoneOwns(s, token);
    case Drop(token) => GoneOwns(s, token);
    case Settle(token, kind) => PassedOwns(s, token, Settling);
    case LetGo(token) => GoneOwns(s, token);
    case Deliver(p) => RenewedOwns(s, p);
    case Claiming(token) => GrantingFrame(s, token);
    case Serve(r) => ServedFrame(s, r);
    case _ =>
  }

  lemma {:induction false} OwningTwice(s: State, token: nat)
    requires EachItsOwn(s.departures, s.owned) && At(s, token, Ready) && token in s.grants
    requires EntriesOk(s.owned, s.departures, s.lives, s.now, s.claims, s.closed)
    ensures EachItsOwn(Owning(s, token).departures, Owning(s, token).owned) <==> !OwnsTwice(s, Own(token))
  {
    hide Covers;
    var key, t := s.departures[token].key, Owning(s, token);
    if key in s.owned {
      var earlier := s.owned[key].token;
      assert EntryOk(key, s.owned[key], s.departures, s.lives, s.now, s.claims, s.closed);
      assert earlier in t.departures && IsOwned(t.departures[earlier].phase) && t.owned[key].token == token != earlier;
    }
  }

  lemma {:induction false} TakenUpIsNew(s: State, token: nat)
    requires EachItsOwn(s.departures, s.owned) && token in s.grants
    ensures EachItsOwn(TakenUp(s, token).departures, TakenUp(s, token).owned)
  {
    var grant := s.grants[token];
    if Current(s.lives, grant.from) {
      assert TakenUp(s, token).owned == s.owned;
    } else {
      assert TakenUp(s, token).owned == s.owned;
    }
  }

  lemma {:induction false} OtherNodesOwn(s: State, node: nat, ahead: int)
    requires EachItsOwn(s.departures, s.owned)
    ensures var t := Next(s, Start(node, ahead)).value; EachItsOwn(t.departures, t.owned)
  {
    hide Granting, TakenUp, Owning, Delivered, GivenBack, Settled, Served;
    assert forall key :: key in Next(s, Start(node, ahead)).value.owned <==> key in s.owned && key.node != node;
  }

  /** A departure's phase over, its Journey owned still. */
  lemma {:induction false} PassedOwns(s: State, token: nat, phase: Phase)
    requires EachItsOwn(s.departures, s.owned) && token in s.departures
    requires IsOwned(phase) ==> IsOwned(s.departures[token].phase)
    ensures EachItsOwn(s.departures[token := s.departures[token].(phase := phase)], s.owned)
    ensures s.departures[token].key.node in s.lives ==>
      && (forall kind :: Settled(s, token, kind).owned == s.owned)
      && (forall kind :: Settled(s, token, kind).departures == s.departures[token := s.departures[token].(phase := Settling)])
  {
  }

  /** A departure gone, and with it its Journey's entry where it was owned. */
  lemma {:induction false} GoneOwns(s: State, token: nat)
    requires EachItsOwn(s.departures, s.owned) && token in s.departures
    ensures EachItsOwn(s.departures - {token}, s.owned)
    ensures IsOwned(s.departures[token].phase) ==> EachItsOwn(s.departures - {token}, s.owned - {s.departures[token].key})
    ensures s.departures[token].key.node in s.lives ==>
      GivenBack(s, token).owned == s.owned && GivenBack(s, token).departures == s.departures - {token}
  {
  }

  lemma {:induction false} ReadOwns(s: State, token: nat)
    requires EachItsOwn(s.departures, s.owned) && Next(s, Read(token)).Some?
    ensures var t := Next(s, Read(token)).value; EachItsOwn(t.departures, t.owned)
  {
    hide Granting, TakenUp, Owning, Delivered, GivenBack, Settled, Served, EachItsOwn;
    GoneOwns(s, token);
    PassedOwns(s, token, Ready);
  }

  lemma {:induction false} RenewedOwns(s: State, p: Reply)
    requires EachItsOwn(s.departures, s.owned)
    ensures EachItsOwn(Delivered(s, p).departures, Delivered(s, p).owned)
  {
    hide Current, EachItsOwn;
    var key := Key(p.from.node, p.from.journey);
    if !Current(s.lives, p.from) || key !in s.owned || s.owned[key].token != p.token {
      assert Delivered(s, p) == s.(replies := s.replies - {p});
    } else {
      var owned := s.owned[key := Renewed(s.owned[key], p.held, p.from.asked, s.lease)];
      assert Delivered(s, p) == s.(replies := s.replies - {p}, owned := owned);
      RenewedOwnsStill(s.departures, s.owned, owned, key);
    }
  }

  lemma {:induction false} RenewedOwnsStill(departures: map<nat, Departure>, owned: map<Key, Entry>, renewed: map<Key, Entry>, key: Key)
    requires EachItsOwn(departures, owned) && key in owned && key in renewed && renewed[key].token == owned[key].token
    requires renewed == owned[key := renewed[key]]
    ensures EachItsOwn(departures, renewed)
  {
  }

  // ---- What a step leaves as it was ----

  lemma {:induction false} GrantingFrame(s: State, token: nat)
    requires token in s.takes
    ensures var t := Granting(s, token);
      t.departures == s.departures && t.owned == s.owned && t.done == s.done && t.sends == s.sends
  {
    hide Of;
    var from := s.takes[token];
    if from.journey in s.claims && s.claims[from.journey].expiry > s.now {
      assert Granting(s, token) == s.(takes := s.takes - {token});
    }
  }

  lemma {:induction false} ServedFrame(s: State, r: Request)
    ensures var t := Served(s, r);
      t.departures == s.departures && t.owned == s.owned && s.done <= t.done && t.sends == s.sends
  {
    var t, journey, mine := s.(requests := s.requests - {r}), r.from.journey, Mine(s.claims, r.from.journey, r.token);
    match r.kind
    case Renew =>
    case Release => assert Served(s, r) == if mine then t.(claims := s.claims - {journey}) else t;
    case HandOn(final) =>
      if mine {
        if s.claims[journey].expiry <= s.now { assert Served(s, r) == t; }
      }
  }

  lemma {:induction false} TakenUpFrame(s: State, token: nat)
    requires token in s.grants
    ensures TakenUp(s, token).done == s.done && TakenUp(s, token).sends == s.sends
  {
    hide Current;
    if !Current(s.lives, s.grants[token].from) {
      assert TakenUp(s, token) == s.(grants := s.grants[token := s.grants[token].(onTheWay := false)]);
    }
  }

  lemma {:induction false} DeliveredFrame(s: State, p: Reply)
    ensures Delivered(s, p).done == s.done && Delivered(s, p).sends == s.sends
  {
    hide Current, Renewed;
    var key := Key(p.from.node, p.from.journey);
    if !Current(s.lives, p.from) || key !in s.owned || s.owned[key].token != p.token {
      assert Delivered(s, p) == s.(replies := s.replies - {p});
    }
  }

  lemma {:induction false} OwningFrame(s: State, token: nat)
    requires token in s.departures && token in s.grants
    ensures Owning(s, token).done == s.done && Owning(s, token).sends == s.sends
  {
  }

  lemma {:induction false} ClosingFrame(s: State, token: nat, kind: Kind)
    requires token in s.departures && s.departures[token].key.node in s.lives
    ensures Settled(s, token, kind).done == s.done && Settled(s, token, kind).sends == s.sends
    ensures GivenBack(s, token).done == s.done && GivenBack(s, token).sends == s.sends
  {
  }

  /** Only a send is told, and a final outcome stays. */
  lemma {:induction false} NothingSent(s: State, step: Step, t: State)
    requires Next(s, step) == Some(t)
    ensures !step.Send? ==> t.sends == s.sends
    ensures s.done <= t.done
  {
    hide Granting, TakenUp, Owning, Delivered, GivenBack, Settled, Served, MaySend;
    match step
    case Claiming(token) => GrantingFrame(s, token);
    case TakeUp(token) => TakenUpFrame(s, token);
    case Read(token) => ClosingFrame(s, token, Release);
    case GiveBack(token) => ClosingFrame(s, token, Release);
    case Settle(token, kind) => ClosingFrame(s, token, kind);
    case Own(token) => OwningFrame(s, token);
    case Serve(r) => ServedFrame(s, r);
    case Deliver(p) => DeliveredFrame(s, p);
    case _ =>
  }

  ghost predicate EachItsOwnAt(now: int, lease: nat, steps: seq<Step>, k: nat)
    requires k <= |steps|
  {
    var s := Run(Initial(now, lease), steps[..k]);
    s.Some? && EachItsOwn(s.value.departures, s.value.owned)
  }

  /**
   * At every state of a run each Journey sent is owned under its departure's own claim
   * exactly where no step owned a Journey its node owned already.
   */
  lemma {:induction false} OwnedOnceExactly(now: int, lease: nat, steps: seq<Step>, s: State)
    requires Run(Initial(now, lease), steps) == Some(s)
    ensures OwnedOnce(now, lease, steps) <==> forall k :: 0 <= k <= |steps| ==> EachItsOwnAt(now, lease, steps, k)
  {
    hide Next, Inv, OwnsTwice, EachItsOwn;
    assert steps[..|steps|] == steps;
    if steps == [] {
      NoneOwned(now, lease);
    } else {
      var n, past := |steps| - 1, steps[..|steps| - 1];
      var before := Run(Initial(now, lease), past).value;
      RunKeepsInv(now, lease, past, before);
      OwnedOnceExactly(now, lease, past, before);
      assert forall k :: 0 <= k <= n ==> past[..k] == steps[..k];
      assert forall k :: 0 <= k < n ==> (OwnsTwiceAt(now, lease, past, k) <==> OwnsTwiceAt(now, lease, steps, k));
      assert forall k :: 0 <= k <= n ==> (EachItsOwnAt(now, lease, past, k) <==> EachItsOwnAt(now, lease, steps, k));
      assert OwnsTwiceAt(now, lease, steps, n) <==> OwnsTwice(before, steps[n]);
      assert EachItsOwnAt(now, lease, steps, n) <==> EachItsOwn(before.departures, before.owned);
      assert EachItsOwnAt(now, lease, steps, |steps|) <==> EachItsOwn(s.departures, s.owned);
      if EachItsOwn(before.departures, before.owned) {
        OwnStepByStep(before, steps[n], s);
      }
    }
  }

  lemma {:induction false} NoneOwned(now: int, lease: nat)
    ensures EachItsOwn(Initial(now, lease).departures, Initial(now, lease).owned)
  {
  }

  /** On such a run none borrows another claim's standing. */
  lemma {:induction false} NoneBorrows(now: int, lease: nat, steps: seq<Step>, s: State, token: nat)
    requires Run(Initial(now, lease), steps) == Some(s) && OwnedOnce(now, lease, steps)
    ensures !Borrows(s, token)
  {
    hide Next, OwnedOnce;
    OwnedOnceExactly(now, lease, steps, s);
    assert steps[..|steps|] == steps;
    assert EachItsOwnAt(now, lease, steps, |steps|);
  }

  // ---- What the far end sees ----

  /**
   * No two departures of a Journey pass the check, whatever their nodes, unless one of
   * them borrows a later claim's standing; none does where no Journey was owned twice.
   */
  lemma {:induction false} OneNodeMaySend(now: int, lease: nat, steps: seq<Step>, s: State, one: nat, other: nat)
    requires Run(Initial(now, lease), steps) == Some(s) && MaySend(s, one) && MaySend(s, other)
    requires s.departures[one].key.journey == s.departures[other].key.journey
    ensures one == other || Borrows(s, one) || Borrows(s, other)
    ensures OwnedOnce(now, lease, steps) ==> one == other
  {
    hide Inv, Run, Borrows, MaySend, OwnedOnce;
    RunKeepsInv(now, lease, steps, s);
    Passing(s, one);
    Passing(s, other);
    if OwnedOnce(now, lease, steps) {
      NoneBorrows(now, lease, steps, s, one);
      NoneBorrows(now, lease, steps, s, other);
    }
  }

  /** No send is started after one of its Journey under a later fence. */
  ghost predicate Rising(sends: seq<Sent>) {
    forall i, k :: 0 <= i < k < |sends| && sends[i].journey == sends[k].journey ==> sends[i].fence <= sends[k].fence
  }

  /** Whether the step starts a send that borrows, after one of its Journey under a later claim. */
  ghost predicate FallsBack(s: State, step: Step) {
    && step.Send? && Borrows(s, step.token)
    && exists i :: 0 <= i < |s.sends| && s.sends[i].journey == s.departures[step.token].key.journey
               && s.sends[i].fence > s.departures[step.token].fence
  }

  ghost predicate FallsBackAt(now: int, lease: nat, steps: seq<Step>, k: nat)
    requires k < |steps|
  {
    var s := Run(Initial(now, lease), steps[..k]);
    s.Some? && FallsBack(s.value, steps[k])
  }

  /**
   * The far end is told fences that only rise exactly where no send that borrows was
   * started after one under a later claim; and a fence told twice is one claim's.
   */
  lemma {:induction false} FencesRiseExactly(now: int, lease: nat, steps: seq<Step>, s: State)
    requires Run(Initial(now, lease), steps) == Some(s)
    ensures Rising(s.sends) <==> forall k :: 0 <= k < |steps| ==> !FallsBackAt(now, lease, steps, k)
  {
    hide Next, Inv, FallsBack, Rising;
    if steps == [] {
      NoneSent(now, lease);
    } else {
      var n, past := |steps| - 1, steps[..|steps| - 1];
      var before := Run(Initial(now, lease), past).value;
      RunKeepsInv(now, lease, past, before);
      FencesRiseExactly(now, lease, past, before);
      assert forall k :: 0 <= k < n ==> past[..k] == steps[..k];
      assert forall k :: 0 <= k < n ==> (FallsBackAt(now, lease, past, k) <==> FallsBackAt(now, lease, steps, k));
      assert FallsBackAt(now, lease, steps, n) <==> FallsBack(before, steps[n]);
      RisesStepByStep(before, steps[n], s);
    }
  }

  lemma {:induction false} NoneSent(now: int, lease: nat)
    ensures Rising(Initial(now, lease).sends)
  {
  }

  lemma {:induction false} RisesStepByStep(s: State, step: Step, t: State)
    requires Inv(s) && Next(s, step) == Some(t)
    ensures Rising(t.sends) <==> Rising(s.sends) && !FallsBack(s, step)
  {
    hide TakesOk, RequestsOk, RepliesOk, GrantsOk, DeparturesOk, EntriesOk, OrderOk, ClaimsOk, MaySend, Borrows, Inv;
    if step.Send? {
      SendRises(s, step.token);
    } else {
      NothingSent(s, step, t);
    }
  }

  lemma {:induction false} SendRises(s: State, token: nat)
    requires Inv(s) && MaySend(s, token)
    ensures var d := s.departures[token];
      Rising(s.sends + [Sent(d.key.journey, token, d.fence)]) <==> Rising(s.sends) && !FallsBack(s, Send(token))
  {
    hide TakesOk, RequestsOk, RepliesOk, GrantsOk, DeparturesOk, EntriesOk, OrderOk, ClaimsOk, Borrows, Holds;
    Passing(s, token);
    var d := s.departures[token];
    var sends := s.sends + [Sent(d.key.journey, token, d.fence)];
    assert forall i :: 0 <= i < |s.sends| ==> s.sends[i].fence <= Of(s.fences, s.sends[i].journey);
    if Rising(sends) {
      forall i, k | 0 <= i < k < |s.sends| && s.sends[i].journey == s.sends[k].journey
        ensures s.sends[i].fence <= s.sends[k].fence
      {
        assert sends[i].fence <= sends[k].fence;
      }
      forall i | 0 <= i < |s.sends| && s.sends[i].journey == d.key.journey
        ensures s.sends[i].fence <= d.fence
      {
        assert sends[i].fence <= sends[|s.sends|].fence;
      }
    }
  }

  /** Where no Journey was owned twice they rise; and wherever a fence is told twice it is the same claim's. */
  lemma {:induction false} FencesRise(now: int, lease: nat, steps: seq<Step>, s: State, i: nat, k: nat)
    requires Run(Initial(now, lease), steps) == Some(s)
    requires i < k < |s.sends| && s.sends[i].journey == s.sends[k].journey
    ensures OwnedOnce(now, lease, steps) ==> s.sends[i].fence <= s.sends[k].fence
    ensures s.sends[i].fence == s.sends[k].fence ==> s.sends[i].token == s.sends[k].token
  {
    hide Next;
    RunKeepsInv(now, lease, steps, s);
    if OwnedOnce(now, lease, steps) {
      forall j | 0 <= j < |steps| ensures !FallsBackAt(now, lease, steps, j) {
        NeverBorrowed(now, lease, steps, s, j);
      }
      FencesRiseExactly(now, lease, steps, s);
    }
  }

  lemma {:induction false} NeverBorrowed(now: int, lease: nat, steps: seq<Step>, s: State, k: nat)
    requires Run(Initial(now, lease), steps) == Some(s) && OwnedOnce(now, lease, steps) && k < |steps|
    ensures !FallsBackAt(now, lease, steps, k)
  {
    hide Next, Borrows;
    RunsBefore(now, lease, steps, k);
    forall j | 0 <= j < k ensures !OwnsTwiceAt(now, lease, steps[..k], j) {
      assert steps[..k][..j] == steps[..j];
      assert !OwnsTwiceAt(now, lease, steps, j);
    }
    if steps[k].Send? {
      NoneBorrows(now, lease, steps[..k], Run(Initial(now, lease), steps[..k]).value, steps[k].token);
    }
  }

  lemma {:induction false} RunsBefore(now: int, lease: nat, steps: seq<Step>, k: nat)
    requires Run(Initial(now, lease), steps).Some? && k <= |steps|
    ensures Run(Initial(now, lease), steps[..k]).Some?
    decreases |steps|
  {
    hide Next;
    if k == |steps| {
      assert steps[..k] == steps;
    } else {
      RunsBefore(now, lease, steps[..|steps| - 1], k);
      assert steps[..|steps| - 1][..k] == steps[..k];
    }
  }

  /**
   * A hand-on takes effect only under the claim Storage holds live, the last granted
   * of its Journey, with no send under a later fence; and then a departure of the
   * Journey passes the check exactly where it borrows: none, where none was owned twice.
   */
  lemma {:induction false} HandOnUnderTheLiveClaim(now: int, lease: nat, steps: seq<Step>, s: State, r: Request, token: nat)
    requires Run(Initial(now, lease), steps) == Some(s) && r in s.requests && r.kind.HandOn?
    requires Served(s, r).written != s.written
    requires token in s.departures && s.departures[token].key.journey == r.from.journey
    ensures MaySend(s, token) <==> Borrows(s, token)
    ensures OwnedOnce(now, lease, steps) ==> !MaySend(s, token)
    ensures r.token in s.grants && s.grants[r.token].fence == Of(s.fences, r.from.journey)
    ensures forall i :: 0 <= i < |s.sends| && s.sends[i].journey == r.from.journey ==> s.sends[i].fence <= s.grants[r.token].fence
  {
    hide TakesOk, RepliesOk, GrantsOk, RequestsOk, DeparturesOk, EntriesOk, OrderOk, ClaimsOk, FencesOk, SendsOk, MaySend, Borrows,
      Next, OwnedOnce;
    RunKeepsInv(now, lease, steps, s);
    Known(s, r);
    HandOnTakes(s, r);
    LastFence(s, r.token);
    PassesOrBorrows(s, token);
    if OwnedOnce(now, lease, steps) {
      NoneBorrows(now, lease, steps, s, token);
    }
  }

  lemma {:induction false} PassesOrBorrows(s: State, token: nat)
    requires Inv(s) && token in s.departures
    ensures Borrows(s, token) ==> MaySend(s, token)
    ensures MaySend(s, token) && !Borrows(s, token) ==>
      var journey := s.departures[token].key.journey;
      && Mine(s.claims, journey, token) && token !in s.closed && journey !in s.done
      && s.departures[token].fence > Of(s.written, journey)
  {
    hide Inv;
    if MaySend(s, token) {
      Passing(s, token);
    }
  }

  lemma {:induction false} HandOnTakes(s: State, r: Request)
    requires r.kind.HandOn? && Served(s, r).written != s.written
    requires ClaimsOk(s.claims, s.now, s.lease, s.grants, s.fences, s.written)
    ensures Mine(s.claims, r.from.journey, r.token)
    ensures r.token in s.grants && s.grants[r.token].fence == Of(s.fences, r.from.journey)
    ensures s.grants[r.token].from.journey == r.from.journey
  {
  }

  lemma {:induction false} LastFence(s: State, token: nat)
    requires SendsOk(s.sends, s.grants) && FencesOk(s.grants, s.fences, s.written)
    requires token in s.grants && s.grants[token].fence == Of(s.fences, s.grants[token].from.journey)
    ensures forall i :: 0 <= i < |s.sends| && s.sends[i].journey == s.grants[token].from.journey ==>
      s.sends[i].fence <= s.grants[token].fence
  {
  }

  /**
   * Once a Journey's outcome is final a departure of it passes the check, in any later
   * state and from any node, exactly where it borrows: none, where none was owned twice.
   */
  lemma {:induction false} NoSendOnceDone(now: int, lease: nat, steps: seq<Step>, s: State, k: nat, token: nat)
    requires Run(Initial(now, lease), steps) == Some(s) && k <= |steps| && Run(Initial(now, lease), steps[..k]).Some?
    requires token in s.departures && s.departures[token].key.journey in Run(Initial(now, lease), steps[..k]).value.done
    ensures MaySend(s, token) <==> Borrows(s, token)
    ensures OwnedOnce(now, lease, steps) ==> !MaySend(s, token)
  {
    hide Inv, Next, MaySend, Borrows, OwnedOnce;
    RunKeepsInv(now, lease, steps, s);
    DoneStays(now, lease, steps, k);
    PassesOrBorrows(s, token);
    if OwnedOnce(now, lease, steps) {
      NoneBorrows(now, lease, steps, s, token);
    }
  }

  lemma {:induction false} DoneStays(now: int, lease: nat, steps: seq<Step>, k: nat)
    requires Run(Initial(now, lease), steps).Some? && k <= |steps| && Run(Initial(now, lease), steps[..k]).Some?
    ensures Run(Initial(now, lease), steps[..k]).value.done <= Run(Initial(now, lease), steps).value.done
    decreases |steps|
  {
    hide Next;
    if k == |steps| {
      assert steps[..k] == steps;
    } else {
      var past := steps[..|steps| - 1];
      assert past[..k] == steps[..k];
      DoneStays(now, lease, past, k);
      NothingSent(Run(Initial(now, lease), past).value, steps[|steps| - 1], Run(Initial(now, lease), steps).value);
    }
  }

  /**
   * Once an outcome was written under a fence a departure of the Journey under that
   * fence or an earlier one passes the check exactly where it borrows: none, where none
   * was owned twice.
   */
  lemma {:induction false} SendsAfterAnOutcome(now: int, lease: nat, steps: seq<Step>, s: State, token: nat)
    requires Run(Initial(now, lease), steps) == Some(s) && token in s.departures
    requires s.departures[token].fence <= Of(s.written, s.departures[token].key.journey)
    ensures MaySend(s, token) <==> Borrows(s, token)
    ensures OwnedOnce(now, lease, steps) ==> !MaySend(s, token)
  {
    hide Inv, Next, MaySend, Borrows, OwnedOnce;
    RunKeepsInv(now, lease, steps, s);
    PassesOrBorrows(s, token);
    if OwnedOnce(now, lease, steps) {
      NoneBorrows(now, lease, steps, s, token);
    }
  }

  // ---- Where a Journey is owned twice ----

  /**
   * A claim granted for a Journey its node is sending already: once the Journey is
   * owned under it, its lease still running, the earlier departure passes the check as
   * well. Sending after the later one it tells the far end an earlier fence, and it
   * passes still when the later one's outcome was written, final or not.
   */
  lemma {:induction false} TheEarlierGoesOn(now: int, lease: nat, steps: seq<Step>, s: State, earlier: nat, later: nat, final: bool)
    requires Run(Initial(now, lease), steps) == Some(s)
    requires At(s, earlier, Trying) && At(s, later, Ready) && s.departures[earlier].key == s.departures[later].key
    requires later in s.grants && Clock(s, s.departures[later].key.node) < s.grants[later].from.asked + s.lease
    ensures var r := Request(AskedBy(s, s.departures[later].key), later, HandOn(final));
      && Out(Run(Initial(now, lease), steps + [Own(later), Send(later), Send(earlier)]))
      && MayStill(Run(Initial(now, lease), steps + [Own(later), Settle(later, HandOn(final)), Serve(r)]), earlier, final)
  {
    hide Inv, Owning, Rising, Settled, Served;
    RunKeepsInv(now, lease, steps, s);
    var t := Owning(s, later);
    Onward(now, lease, steps, s, Own(later), t);
    OwnedBeside(s, earlier, later);
    var steps1 := steps + [Own(later)];
    RunKeepsInv(now, lease, steps1, t);
    Passing(t, later);
    Passing(t, earlier);
    FallingBack(now, lease, steps1, t, earlier, later);
    LastSet(t, t.departures[later].key.journey);
    HandingOn(now, lease, steps1, t, earlier, later, final);
    assert steps1 + [Send(later), Send(earlier)] == steps + [Own(later), Send(later), Send(earlier)];
    var r := Request(AskedBy(t, t.departures[later].key), later, HandOn(final));
    assert steps1 + [Settle(later, HandOn(final)), Serve(r)] == steps + [Own(later), Settle(later, HandOn(final)), Serve(r)];
  }

  /** The far end was told an earlier fence after a later one. */
  ghost predicate Out(s: Option<State>) {
    s.Some? && !Rising(s.value.sends)
  }

  /** The departure passes the check though an outcome of its Journey is written under a later fence: a final one, where it was. */
  predicate MayStill(s: Option<State>, token: nat, final: bool) {
    && s.Some? && MaySend(s.value, token)
    && var d := s.value.departures[token];
       d.fence < Of(s.value.written, d.key.journey) && (final ==> d.key.journey in s.value.done)
  }

  lemma {:induction false} Onward(now: int, lease: nat, steps: seq<Step>, s: State, step: Step, t: State)
    requires Run(Initial(now, lease), steps) == Some(s) && Next(s, step) == Some(t)
    ensures Run(Initial(now, lease), steps + [step]) == Some(t)
  {
    assert (steps + [step])[..|steps|] == steps;
  }

  lemma {:induction false} LastSet(s: State, journey: nat)
    requires Inv(s) && journey in s.claims
    ensures s.claims[journey].fence == Of(s.fences, journey)
  {
    hide TakesOk, RequestsOk, RepliesOk, GrantsOk, DeparturesOk, EntriesOk, OrderOk, FencesOk, SendsOk;
  }

  lemma {:induction false} OwnedBeside(s: State, earlier: nat, later: nat)
    requires At(s, earlier, Trying) && At(s, later, Ready) && s.departures[earlier].key == s.departures[later].key
    requires later in s.grants && Clock(s, s.departures[later].key.node) < s.grants[later].from.asked + s.lease
    ensures var t := Owning(s, later);
      && MaySend(t, later) && !Borrows(t, later) && Borrows(t, earlier)
      && t.departures[later].key == t.departures[earlier].key == s.departures[later].key
      && AskedBy(t, t.departures[later].key) == AskedBy(s, s.departures[later].key)
  {
  }

  lemma {:induction false} FallingBack(now: int, lease: nat, steps: seq<Step>, s: State, earlier: nat, later: nat)
    requires Run(Initial(now, lease), steps) == Some(s) && MaySend(s, later) && MaySend(s, earlier)
    requires s.departures[earlier].key == s.departures[later].key && s.departures[earlier].fence < s.departures[later].fence
    ensures Out(Run(Initial(now, lease), steps + [Send(later), Send(earlier)]))
  {
    hide Rising;
    var journey := s.departures[later].key.journey;
    var one, other := Sent(journey, later, s.departures[later].fence), Sent(journey, earlier, s.departures[earlier].fence);
    var t := s.(sends := s.sends + [one]);
    Onward(now, lease, steps, s, Send(later), t);
    assert MaySend(t, earlier);
    var u := t.(sends := t.sends + [other]);
    Onward(now, lease, steps + [Send(later)], t, Send(earlier), u);
    assert steps + [Send(later)] + [Send(earlier)] == steps + [Send(later), Send(earlier)];
    FallsAtLast(s.sends, one, other);
    assert s.sends + [one] + [other] == u.sends;
  }

  lemma {:induction false} FallsAtLast(sends: seq<Sent>, one: Sent, other: Sent)
    requires one.journey == other.journey && one.fence > other.fence
    ensures !Rising(sends + [one] + [other])
  {
    var all := sends + [one] + [other];
    assert all[|sends|] == one && all[|sends| + 1] == other;
  }

  lemma {:induction false} HandingOn(now: int, lease: nat, steps: seq<Step>, s: State, earlier: nat, later: nat, final: bool)
    requires Run(Initial(now, lease), steps) == Some(s) && MaySend(s, later) && MaySend(s, earlier)
    requires s.departures[earlier].key == s.departures[later].key && s.departures[earlier].fence < s.departures[later].fence
    requires var journey := s.departures[later].key.journey;
      && Mine(s.claims, journey, later) && s.claims[journey].expiry > s.now
      && s.claims[journey].fence == s.departures[later].fence
    ensures var r := Request(AskedBy(s, s.departures[later].key), later, HandOn(final));
      MayStill(Run(Initial(now, lease), steps + [Settle(later, HandOn(final)), Serve(r)]), earlier, final)
  {
    var r := Request(AskedBy(s, s.departures[later].key), later, HandOn(final));
    var t := Settled(s, later, HandOn(final));
    Onward(now, lease, steps, s, Settle(later, HandOn(final)), t);
    assert r in t.requests && MaySend(t, earlier) && t.departures[earlier] == s.departures[earlier];
    var u := Served(t, r);
    Onward(now, lease, steps + [Settle(later, HandOn(final))], t, Serve(r), u);
    assert steps + [Settle(later, HandOn(final))] + [Serve(r)] == steps + [Settle(later, HandOn(final)), Serve(r)];
    assert u.departures == t.departures && u.owned == t.owned && u.lives == t.lives && u.now == t.now;
  }

  // A node taking up a Journey it is sending, its lease over.
  const STARTED := Initial(0, 1).(lives := map[0 := Life(0, 0)])
  const ASKED := STARTED.(minted := 1, takes := map[0 := Asker(0, 0, 0, 0)])
  const CLAIMED := ASKED.(
      takes := map[], claims := map[0 := Claim(0, 1, 1)], fences := map[0 := 1], grants := map[0 := Grant(Asker(0, 0, 0, 0), 1, true)])
  const TAKEN := CLAIMED.(grants := map[0 := Grant(Asker(0, 0, 0, 0), 1, false)], departures := map[0 := Departure(Key(0, 0), 1, Reading)])
  const WHOLE := TAKEN.(departures := map[0 := Departure(Key(0, 0), 1, Ready)])
  const OWNED := WHOLE.(departures := map[0 := Departure(Key(0, 0), 1, Trying)], owned := map[Key(0, 0) := Entry(0, 1, false)])
  const LAPSED := OWNED.(now := 1)
  const ASKED_AGAIN := LAPSED.(minted := 2, takes := map[1 := Asker(0, 0, 0, 1)])
  const CLAIMED_AGAIN := ASKED_AGAIN.(
      takes := map[], claims := map[0 := Claim(1, 2, 2)], fences := map[0 := 2],
      grants := OWNED.grants[1 := Grant(Asker(0, 0, 0, 1), 2, true)])
  const TAKEN_AGAIN := CLAIMED_AGAIN.(
      grants := OWNED.grants[1 := Grant(Asker(0, 0, 0, 1), 2, false)],
      departures := OWNED.departures[1 := Departure(Key(0, 0), 2, Reading)])
  const WHOLE_AGAIN := TAKEN_AGAIN.(departures := OWNED.departures[1 := Departure(Key(0, 0), 2, Ready)])

  const SENDING := [Start(0, 0), AskClaim(0, 0), Claiming(0), TakeUp(0), Read(0), Own(0)]
  const AGAIN := SENDING + [Tick(1), AskClaim(0, 0), Claiming(1), TakeUp(1), Read(1)]

  lemma {:induction false} TakesUp()
    ensures Next(Initial(0, 1), Start(0, 0)) == Some(STARTED)
    ensures Next(STARTED, AskClaim(0, 0)) == Some(ASKED)
    ensures Next(ASKED, Claiming(0)) == Some(CLAIMED)
    ensures Next(CLAIMED, TakeUp(0)) == Some(TAKEN)
  {
    assert Next(Initial(0, 1), Start(0, 0)).value.departures == map[] && Next(Initial(0, 1), Start(0, 0)).value.owned == map[];
    assert ASKED.takes - {0} == map[];
    assert CLAIMED.grants[0 := CLAIMED.grants[0].(onTheWay := false)] == TAKEN.grants;
    assert CLAIMED.departures[0 := Departure(Key(0, 0), 1, Reading)] == TAKEN.departures;
  }

  lemma {:induction false} Owns()
    ensures Next(TAKEN, Read(0)) == Some(WHOLE)
    ensures Next(WHOLE, Own(0)) == Some(OWNED)
    ensures Next(OWNED, Tick(1)) == Some(LAPSED)
  {
    assert TAKEN.departures[0 := TAKEN.departures[0].(phase := Ready)] == WHOLE.departures;
    assert WHOLE.departures[0 := WHOLE.departures[0].(phase := Trying)] == OWNED.departures;
    assert WHOLE.owned[Key(0, 0) := Entry(0, 1, false)] == OWNED.owned;
  }

  lemma {:induction false} TakesUpAgain()
    ensures Next(LAPSED, AskClaim(0, 0)) == Some(ASKED_AGAIN)
    ensures Next(ASKED_AGAIN, Claiming(1)) == Some(CLAIMED_AGAIN)
  {
    assert LAPSED.claims == map[0 := Claim(0, 1, 1)] && LAPSED.fences == map[0 := 1] && LAPSED.now == 1 && LAPSED.lease == 1;
    assert LAPSED.takes[1 := Asker(0, 0, 0, 1)] == ASKED_AGAIN.takes;
    assert ASKED_AGAIN.takes - {1} == map[];
    assert ASKED_AGAIN.claims[0 := Claim(1, 2, 2)] == CLAIMED_AGAIN.claims;
    assert ASKED_AGAIN.fences[0 := 2] == CLAIMED_AGAIN.fences;
  }

  lemma {:induction false} ReadsAgain()
    ensures Next(CLAIMED_AGAIN, TakeUp(1)) == Some(TAKEN_AGAIN)
    ensures Next(TAKEN_AGAIN, Read(1)) == Some(WHOLE_AGAIN)
  {
    assert CLAIMED_AGAIN.grants[1 := CLAIMED_AGAIN.grants[1].(onTheWay := false)] == TAKEN_AGAIN.grants;
    assert TAKEN_AGAIN.departures[1 := TAKEN_AGAIN.departures[1].(phase := Ready)] == WHOLE_AGAIN.departures;
  }

  lemma {:induction false} SendsOnce()
    ensures Run(Initial(0, 1), SENDING) == Some(OWNED)
  {
    hide Next, STARTED, ASKED, CLAIMED, TAKEN, WHOLE, OWNED;
    TakesUp();
    Owns();
    assert forall k :: 0 <= k < |SENDING| ==> SENDING[..k] + [SENDING[k]] == SENDING[..k + 1];
    Onward(0, 1, SENDING[..0], Initial(0, 1), Start(0, 0), STARTED);
    Onward(0, 1, SENDING[..1], STARTED, AskClaim(0, 0), ASKED);
    Onward(0, 1, SENDING[..2], ASKED, Claiming(0), CLAIMED);
    Onward(0, 1, SENDING[..3], CLAIMED, TakeUp(0), TAKEN);
    Onward(0, 1, SENDING[..4], TAKEN, Read(0), WHOLE);
    Onward(0, 1, SENDING[..5], WHOLE, Own(0), OWNED);
  }

  lemma {:induction false} IsSendingStill()
    ensures At(WHOLE_AGAIN, 0, Trying) && At(WHOLE_AGAIN, 1, Ready)
    ensures WHOLE_AGAIN.departures[0].key == WHOLE_AGAIN.departures[1].key == Key(0, 0)
    ensures 1 in WHOLE_AGAIN.grants && Clock(WHOLE_AGAIN, 0) < WHOLE_AGAIN.grants[1].from.asked + WHOLE_AGAIN.lease
  {
  }

  /** Such a state is reached: one node, one Journey, its renewals late by a lease. */
  lemma {:induction false} AJourneyIsTakenUpAgain()
    ensures Run(Initial(0, 1), AGAIN) == Some(WHOLE_AGAIN)
    ensures At(WHOLE_AGAIN, 0, Trying) && At(WHOLE_AGAIN, 1, Ready)
    ensures WHOLE_AGAIN.departures[0].key == WHOLE_AGAIN.departures[1].key == Key(0, 0)
    ensures 1 in WHOLE_AGAIN.grants && Clock(WHOLE_AGAIN, 0) < WHOLE_AGAIN.grants[1].from.asked + WHOLE_AGAIN.lease
  {
    hide Next, Run, Initial, STARTED, ASKED, CLAIMED, TAKEN, WHOLE, OWNED, LAPSED, ASKED_AGAIN, CLAIMED_AGAIN, TAKEN_AGAIN, WHOLE_AGAIN;
    SendsOnce();
    Owns();
    TakesUpAgain();
    ReadsAgain();
    IsSendingStill();
    assert AGAIN[..6] == SENDING;
    assert forall k :: 0 <= k < |AGAIN| ==> AGAIN[..k] + [AGAIN[k]] == AGAIN[..k + 1];
    Onward(0, 1, AGAIN[..6], OWNED, AGAIN[6], LAPSED);
    Onward(0, 1, AGAIN[..7], LAPSED, AGAIN[7], ASKED_AGAIN);
    Onward(0, 1, AGAIN[..8], ASKED_AGAIN, AGAIN[8], CLAIMED_AGAIN);
    Onward(0, 1, AGAIN[..9], CLAIMED_AGAIN, AGAIN[9], TAKEN_AGAIN);
    Onward(0, 1, AGAIN[..10], TAKEN_AGAIN, AGAIN[10], WHOLE_AGAIN);
    assert AGAIN[..11] == AGAIN;
  }
}
