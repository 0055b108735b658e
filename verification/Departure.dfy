/**
 * Retry and failover (src/departure.rs, src/send_step/pass.rs): passes over a
 * Port's Send Locations, each trying one after another where the Port fails over
 * and leaving one to be tried again where it retries, its count kept with the
 * Journey so it survives a restart.
 */
module Departure {
  import opened Wrappers
  import opened Sending

  const WIDE: nat := 0x1_0000_0000

  /** Where a Message's send stands (`Progress`). */
  datatype Progress = Progress(sent: bool, location: nat, tries: nat, givenUp: bool, fence: nat)

  /** What the Journey keeps of it in the Ledger (`Attempts`). */
  datatype Attempts = Attempts(location: nat, tries: nat)

  const Begun: Progress := Progress(false, 0, 0, false, 0)

  function Of(attempts: Attempts): Progress {
    Begun.(location := attempts.location, tries := attempts.tries)
  }

  function AttemptsOf(p: Progress): Attempts {
    Attempts(if p.location < WIDE then p.location else WIDE - 1, p.tries)
  }

  predicate Waiting(p: Progress) {
    !p.sent && !p.givenUp
  }

  /** What one Location answered: `again` where it may be tried again. */
  datatype Departed = Sent | NotSent(again: bool)

  /** What the pass finds before a Location: the claim another's by then, or as it would send, or an answer. */
  datatype Asked = NotOwned | LostAtTheEdge | Answered(departed: Departed)

  /**
   * `depart_port`: one pass from where the send stands, and the Locations tried.
   * `asked` is what it finds, one entry a Location; past its end it owns nothing.
   */
  function Pass(port: Port, p: Progress, asked: seq<Asked>): (Progress, seq<nat>)
    decreases |asked|
  {
    if asked == [] || asked[0].NotOwned? then (p, [])
    else if p.location >= |port.locations| then (p.(givenUp := true), [])
    else if asked[0].LostAtTheEdge? then (p, [])
    else
      var tried := p.(tries := p.tries + 1);
      match asked[0].departed
      case Sent => (tried.(sent := true), [p.location])
      case NotSent(again) =>
        if again && tried.tries < port.tries then (tried, [p.location])
        else if port.failsOver && p.location + 1 < |port.locations| then
          var (after, rest) := Pass(port, tried.(location := p.location + 1, tries := 0), asked[1..]);
          (after, [p.location] + rest)
        else (tried.(givenUp := true), [p.location])
  }

  /** `depart_to`: nothing where the send is over. */
  function DepartTo(port: Port, p: Progress, asked: seq<Asked>): (Progress, seq<nat>) {
    if !Waiting(p) then (p, []) else Pass(port, p, asked)
  }

  class Departing {
    var standing: Progress

    constructor (attempts: Attempts)
      ensures standing == Of(attempts)
    {
      standing := Of(attempts);
    }

    method DepartPort(port: Port, asked: seq<Asked>) returns (tried: seq<nat>)
      modifies this
      ensures (standing, tried) == Pass(port, old(standing), asked)
    {
      tried := [];
      var i := 0;
      assert asked[0..] == asked && [] + Pass(port, standing, asked).1 == Pass(port, standing, asked).1;
      while true
        invariant i <= |asked|
        invariant Pass(port, old(standing), asked)
               == (Pass(port, standing, asked[i..]).0, tried + Pass(port, standing, asked[i..]).1)
        decreases |asked| - i
      {
        assert tried + [] == tried;
        if i == |asked| || asked[i].NotOwned? {
          return tried;
        }
        if standing.location >= |port.locations| {
          standing := standing.(givenUp := true);
          return tried;
        }
        if asked[i].LostAtTheEdge? {
          return tried;
        }
        assert asked[i..][1..] == asked[i + 1..];
        ghost var before := tried;
        var at := standing.location;
        tried := tried + [at];
        standing := standing.(tries := standing.tries + 1);
        match asked[i].departed {
          case Sent =>
            standing := standing.(sent := true);
            return tried;
          case NotSent(again) =>
            if again && standing.tries < port.tries {
              return tried;
            }
            if !(port.failsOver && standing.location + 1 < |port.locations|) {
              standing := standing.(givenUp := true);
              return tried;
            }
            standing := standing.(location := standing.location + 1, tries := 0);
            Regroup(before, at, Pass(port, standing, asked[i + 1..]).1);
        }
        i := i + 1;
      }
    }
  }

  lemma {:induction false} Regroup(tried: seq<nat>, at: nat, rest: seq<nat>)
    ensures tried + ([at] + rest) == tried + [at] + rest
  {
  }

  // ---- Rebuilding it from the Journey ----

  /** A send rebuilt from its Journey stands where it stood, its fence aside, exactly while it waits and its Location's number fits. */
  lemma {:induction false} RebuiltExactly(p: Progress)
    ensures Of(AttemptsOf(p)) == p.(fence := 0) <==> Waiting(p) && p.location < WIDE
  {
    if p.location >= WIDE {
      assert Of(AttemptsOf(p)).location != p.location;
    }
  }

  // ---- What one pass does ----

  function Count(tried: seq<nat>, location: nat): nat {
    if tried == [] then 0
    else Count(tried[..|tried| - 1], location) + if tried[|tried| - 1] == location then 1 else 0
  }

  lemma {:induction false} CountAppend(a: seq<nat>, b: seq<nat>, location: nat)
    ensures Count(a + b, location) == Count(a, location) + Count(b, location)
  {
    if b == [] {
      assert a + b == a;
    } else {
      assert (a + b)[..|a + b| - 1] == a + b[..|b| - 1];
      CountAppend(a, b[..|b| - 1], location);
    }
  }

  /** The counts a send has behind it where it stands: its own at its Location, at most all at those before, none after. */
  ghost predicate Tried(port: Port, p: Progress, tried: seq<nat>) {
    && p.tries <= port.tries && (Waiting(p) ==> p.tries < port.tries)
    && Count(tried, p.location) == p.tries
    && (forall l: nat :: l < p.location ==> Count(tried, l) <= port.tries)
    && (forall l: nat :: l > p.location ==> Count(tried, l) == 0)
    && (forall i, j :: 0 <= i < j < |tried| ==> tried[i] <= tried[j])
    && (forall i :: 0 <= i < |tried| ==> tried[i] <= p.location && tried[i] < |port.locations|)
  }

  /** What is left to try: lexicographically the Locations, then the tries at the one it stands at. */
  function Left(port: Port, p: Progress): int {
    (|port.locations| - p.location) * port.tries - p.tries
  }

  lemma {:induction false} OneTryMore(port: Port, p: Progress, tried: seq<nat>)
    requires Tried(port, p, tried) && Waiting(p) && p.location < |port.locations|
    ensures var more := tried + [p.location];
      && Count(more, p.location) == p.tries + 1
      && (forall l: nat :: l != p.location ==> Count(more, l) == Count(tried, l))
      && (forall i, j :: 0 <= i < j < |more| ==> more[i] <= more[j])
  {
    var more := tried + [p.location];
    assert more[..|tried|] == tried;
  }

  /**
   * One pass tries each Location at most once, from where the send stood and in
   * order, and keeps the counts; each try takes one from what is left.
   */
  lemma {:induction false} PassKeeps(port: Port, p: Progress, asked: seq<Asked>, tried: seq<nat>)
    requires Tried(port, p, tried) && Waiting(p) && port.tries >= 1
    ensures var (after, now) := Pass(port, p, asked);
      && Tried(port, after, tried + now)
      && (forall i :: 0 <= i < |now| ==> now[i] == p.location + i)
      && Left(port, after) <= Left(port, p) - |now|
      && after.fence == p.fence
      && (now == [] ==> after == p || after == p.(givenUp := true))
    decreases |asked|
  {
    hide Tried, Left;
    if asked == [] || !asked[0].Answered? || p.location >= |port.locations| {
      assert tried + [] == tried;
      GivenUpStill(port, p, tried);
    } else if FailsOver(port, p, asked[0].departed) {
      var over := p.(location := p.location + 1, tries := 0);
      FailedOver(port, p, tried);
      PassKeeps(port, over, asked[1..], tried + [p.location]);
      Regroup(tried, p.location, Pass(port, over, asked[1..]).1);
      OverLeft(port, p, tried);
    } else {
      StopsThere(port, p, asked[0].departed, tried);
      assert asked == [Answered(asked[0].departed)] + asked[1..];
    }
  }

  lemma {:induction false} GivenUpStill(port: Port, p: Progress, tried: seq<nat>)
    requires Tried(port, p, tried)
    ensures Tried(port, p.(givenUp := true), tried) && Left(port, p.(givenUp := true)) == Left(port, p)
  {
  }

  /** Whether the pass goes on to the next Location. */
  predicate FailsOver(port: Port, p: Progress, departed: Departed) {
    && departed.NotSent? && !(departed.again && p.tries + 1 < port.tries)
    && port.failsOver && p.location + 1 < |port.locations|
  }

  lemma {:induction false} FailedOver(port: Port, p: Progress, tried: seq<nat>)
    requires Tried(port, p, tried) && Waiting(p) && p.location + 1 < |port.locations|
    ensures Tried(port, p.(location := p.location + 1, tries := 0), tried + [p.location])
  {
    OneTryMore(port, p, tried);
  }

  lemma {:induction false} StopsThere(port: Port, p: Progress, departed: Departed, tried: seq<nat>)
    requires Tried(port, p, tried) && Waiting(p) && p.location < |port.locations| && !FailsOver(port, p, departed)
    ensures var (after, now) := Pass(port, p, [Answered(departed)]);
      && now == [p.location] && Tried(port, after, tried + now)
      && Left(port, after) == Left(port, p) - 1 && after.fence == p.fence
      && forall rest :: Pass(port, p, [Answered(departed)] + rest) == (after, now)
  {
    OneTryMore(port, p, tried);
  }

  lemma {:induction false} OverLeft(port: Port, p: Progress, tried: seq<nat>)
    requires Tried(port, p, tried) && Waiting(p)
    ensures Left(port, p.(location := p.location + 1, tries := 0)) <= Left(port, p) - 1
  {
    assert (|port.locations| - p.location) * port.tries == (|port.locations| - p.location - 1) * port.tries + port.tries;
  }

  // ---- Whole runs ----

  /** A pass: what it found, its claim's fence, whether it was rebuilt from the Journey first, and whether its hand-on was written. */
  datatype APass = APass(asked: seq<Asked>, fence: nat, rebuilt: bool, written: bool)

  /** A whole run from a send begun: where it stands, every Location tried, and how many passes were not written. */
  function Run(port: Port, passes: seq<APass>): (Progress, seq<nat>, nat) {
    if passes == [] then (Begun, [], 0) else
    var (p, tried, unwritten) := Run(port, passes[..|passes| - 1]);
    var pass := passes[|passes| - 1];
    var start := if pass.rebuilt && Waiting(p) then Of(AttemptsOf(p)) else p;
    var (after, now) := DepartTo(port, start.(fence := pass.fence), pass.asked);
    (if pass.written then after else p, tried + now, unwritten + if pass.written then 0 else 1)
  }

  ghost predicate AllWritten(passes: seq<APass>) {
    forall i :: 0 <= i < |passes| ==> passes[i].written
  }

  lemma {:induction false} TriedWhatever(port: Port, p: Progress, fence: nat, tried: seq<nat>)
    requires Tried(port, p, tried)
    ensures Tried(port, p.(fence := fence), tried) && Left(port, p.(fence := fence)) == Left(port, p)
  {
  }

  /** Where a run stands it stood before, but for what its passes written since tried. */
  lemma {:induction false} RunKeeps(port: Port, passes: seq<APass>) returns (kept: seq<nat>)
    requires port.tries >= 1 && |port.locations| <= WIDE
    ensures var (p, tried, unwritten) := Run(port, passes);
      && Tried(port, p, kept) && p.location <= |port.locations|
      && (p.location == |port.locations| ==> port.locations == [])
      && (forall l: nat :: Count(kept, l) <= Count(tried, l) <= Count(kept, l) + unwritten)
      && (AllWritten(passes) ==> kept == tried)
      && Left(port, p) <= |port.locations| * port.tries - |kept|
  {
    if passes == [] {
      kept := [];
    } else {
      var before := passes[..|passes| - 1];
      kept := RunKeeps(port, before);
      var (p, tried, unwritten) := Run(port, before);
      var pass := passes[|passes| - 1];
      if Waiting(p) {
        kept := OnePassKeeps(port, p, kept, tried, unwritten, pass);
      } else {
        TriedWhatever(port, p, pass.fence, kept);
        assert tried + [] == tried;
      }
    }
  }

  lemma {:induction false} OnePassKeeps(
      port: Port, p: Progress, kept: seq<nat>, tried: seq<nat>, unwritten: nat, pass: APass) returns (more: seq<nat>)
    requires port.tries >= 1 && |port.locations| <= WIDE && Waiting(p)
    requires Tried(port, p, kept) && p.location <= |port.locations|
    requires p.location == |port.locations| ==> port.locations == []
    requires forall l: nat :: Count(kept, l) <= Count(tried, l) <= Count(kept, l) + unwritten
    requires Left(port, p) <= |port.locations| * port.tries - |kept|
    ensures var start := if pass.rebuilt then Of(AttemptsOf(p)) else p;
      var (after, now) := DepartTo(port, start.(fence := pass.fence), pass.asked);
      var to := if pass.written then after else p;
      && more == (if pass.written then kept + now else kept)
      && Tried(port, to, more) && to.location <= |port.locations|
      && (to.location == |port.locations| ==> port.locations == [])
      && (forall l: nat :: Count(more, l) <= Count(tried + now, l) <= Count(more, l) + unwritten + if pass.written then 0 else 1)
      && Left(port, to) <= |port.locations| * port.tries - |more|
  {
    RebuiltExactly(p);
    var start := p.(fence := pass.fence);
    TriedWhatever(port, p, pass.fence, kept);
    PassKeeps(port, start, pass.asked, kept);
    PassStays(port, start, pass.asked);
    var (after, now) := Pass(port, start, pass.asked);
    more := if pass.written then kept + now else kept;
    forall l: nat
      ensures Count(now, l) <= 1
      ensures Count(tried + now, l) == Count(tried, l) + Count(now, l)
      ensures Count(kept + now, l) == Count(kept, l) + Count(now, l)
    {
      OnceEach(now, start.location, l);
      CountAppend(tried, now, l);
      CountAppend(kept, now, l);
    }
  }

  lemma {:induction false} OnceEach(now: seq<nat>, from: nat, l: nat)
    requires forall i :: 0 <= i < |now| ==> now[i] == from + i
    ensures Count(now, l) <= 1 && (l >= from + |now| ==> Count(now, l) == 0)
  {
    if now != [] {
      OnceEach(now[..|now| - 1], from, l);
    }
  }

  lemma {:induction false} PassStays(port: Port, p: Progress, asked: seq<Asked>)
    requires p.location <= |port.locations|
    ensures var after := Pass(port, p, asked).0;
      after.location <= |port.locations| && (after.location == |port.locations| ==> p.location == |port.locations|)
    decreases |asked|
  {
    if asked != [] && p.location + 1 < |port.locations| {
      PassStays(port, p.(location := p.location + 1, tries := 0), asked[1..]);
    }
  }

  /**
   * Retry and failover are bounded over whole runs: however a send's passes fall,
   * each Location is tried at most as often as its Port allows, in the configured
   * order, and the tries end; a send over stays over.
   */
  lemma {:induction false} TriesAreBounded(port: Port, passes: seq<APass>, location: nat)
    requires port.tries >= 1 && |port.locations| <= WIDE && AllWritten(passes)
    ensures var (p, tried, _) := Run(port, passes);
      && Count(tried, location) <= port.tries
      && (location >= |port.locations| ==> Count(tried, location) == 0)
      && (forall i, j :: 0 <= i < j < |tried| ==> tried[i] <= tried[j])
      && |tried| <= |port.locations| * port.tries
      && (|tried| == |port.locations| * port.tries && tried != [] ==> !Waiting(p))
  {
    var kept := RunKeeps(port, passes);
    var (p, tried, _) := Run(port, passes);
    if location >= |port.locations| {
      NeverPast(tried, |port.locations|, location);
    }
    LeftIsLeft(port, p);
  }

  lemma {:induction false} NeverPast(tried: seq<nat>, most: nat, location: nat)
    requires (forall i :: 0 <= i < |tried| ==> tried[i] < most) && location >= most
    ensures Count(tried, location) == 0
  {
    if tried != [] {
      NeverPast(tried[..|tried| - 1], most, location);
    }
  }

  lemma {:induction false} LeftIsLeft(port: Port, p: Progress)
    requires p.location <= |port.locations| && p.tries <= port.tries
    requires p.location == |port.locations| ==> port.locations == [] && p.tries == 0
    ensures Left(port, p) >= 0
    ensures Waiting(p) && p.tries < port.tries && p.location < |port.locations| ==> Left(port, p) > 0
  {
    if p.location < |port.locations| {
      assert (|port.locations| - p.location) * port.tries >= port.tries by {
        assert (|port.locations| - p.location - 1) * port.tries >= 0;
        assert (|port.locations| - p.location) * port.tries == (|port.locations| - p.location - 1) * port.tries + port.tries;
      }
    }
  }

  /** A pass whose hand-on was not written tries again what it tried: each Location once more for each, at most. */
  lemma {:induction false} UnwrittenPassesTryAgain(port: Port, passes: seq<APass>, location: nat)
    requires port.tries >= 1 && |port.locations| <= WIDE
    ensures var (_, tried, unwritten) := Run(port, passes);
      Count(tried, location) <= port.tries + unwritten
  {
    var kept := RunKeeps(port, passes);
  }

  /** A send that waits, its claim held and answered, tries one Location at least, or is given up for want of one. */
  lemma {:induction false} APassTries(port: Port, p: Progress, asked: seq<Asked>)
    requires Waiting(p) && asked != [] && asked[0].Answered?
    ensures var (after, now) := DepartTo(port, p, asked);
      if p.location < |port.locations| then now != [] && now[0] == p.location else after.givenUp && now == []
  {
  }

  /** Sent and given up are absorbing: no pass tries anything again, or changes which. */
  lemma {:induction false} OverStaysOver(port: Port, passes: seq<APass>, more: seq<APass>)
    requires !Waiting(Run(port, passes).0)
    ensures var (p, tried, _) := Run(port, passes);
      var (q, all, _) := Run(port, passes + more);
      all == tried && q.(fence := 0) == p.(fence := 0)
  {
    if more == [] {
      assert passes + more == passes;
    } else {
      assert (passes + more)[..|passes + more| - 1] == passes + more[..|more| - 1];
      OverStaysOver(port, passes, more[..|more| - 1]);
    }
  }

  /** Every pass had its claim held, and was answered. */
  ghost predicate AllAnswered(passes: seq<APass>) {
    forall i :: 0 <= i < |passes| ==> passes[i].asked != [] && passes[i].asked[0].Answered?
  }

  /**
   * A send is over at last: once as many passes were answered and written as its
   * Locations have tries together, and one at least, it was sent or is given up.
   */
  lemma {:induction false} OverAtLast(port: Port, passes: seq<APass>)
    requires port.tries >= 1 && |port.locations| <= WIDE && AllWritten(passes) && AllAnswered(passes)
    requires |passes| >= 1 && |passes| >= |port.locations| * port.tries
    ensures !Waiting(Run(port, passes).0)
  {
    if Waiting(Run(port, passes).0) {
      EachPassTries(port, passes);
      TriesAreBounded(port, passes, 0);
    }
  }

  /** A send that waits still has tried something in every pass answered and written. */
  lemma {:induction false} EachPassTries(port: Port, passes: seq<APass>)
    requires port.tries >= 1 && |port.locations| <= WIDE && AllWritten(passes) && AllAnswered(passes)
    requires Waiting(Run(port, passes).0)
    ensures |Run(port, passes).1| >= |passes|
  {
    if passes != [] {
      var before, pass := passes[..|passes| - 1], passes[|passes| - 1];
      var p := Run(port, before).0;
      var kept := RunKeeps(port, before);
      if Waiting(p) {
        EachPassTries(port, before);
        RebuiltExactly(p);
        APassTries(port, p.(fence := pass.fence), pass.asked);
      }
    }
  }

  /** The same passes, none rebuilt. */
  function Uninterrupted(passes: seq<APass>): seq<APass> {
    seq(|passes|, i requires 0 <= i < |passes| => passes[i].(rebuilt := false))
  }

  /**
   * A restart does not change a send: rebuilt from the Journey before any of its
   * passes, it tries the same Locations and ends the same.
   */
  lemma {:induction false} RestartChangesNothing(port: Port, passes: seq<APass>)
    requires port.tries >= 1 && |port.locations| <= WIDE
    ensures var (p, tried, _) := Run(port, passes);
      var (q, same, _) := Run(port, Uninterrupted(passes));
      tried == same && p.(fence := 0) == q.(fence := 0)
  {
    if passes != [] {
      var before := passes[..|passes| - 1];
      assert Uninterrupted(passes)[..|passes| - 1] == Uninterrupted(before);
      RestartChangesNothing(port, before);
      var kept := RunKeeps(port, before);
      RebuiltExactly(Run(port, before).0);
    }
  }
}
