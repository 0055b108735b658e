/**
 * What a node holds at once (src/budget.rs): a quantity of which at most `most`
 * is held, the charges handed out, split and let go of, and who waits for room.
 *
 * Every operation is one section under the budget's lock, so a run of the node
 * is a sequence of steps in any order, each where it stands a hold that finds
 * room, a split or a drop.
 */
module Budgets {
  import opened Wrappers
  import opened Sums

  /** A charge handed out: live until its holder drops it. */
  datatype Slot = Live(charge: nat) | Gone

  datatype State = State(most: nat, held: nat, slots: seq<Slot>)

  datatype Step =
    | Hold(charge: nat)
    | HoldUpTo(wanted: nat)
    | Split(slot: nat, charge: nat)
    | Drop(slot: nat)

  function Initial(most: nat): State {
    State(Max(most, 1), 0, [])
  }

  /** Whether a hold of `charge` goes on rather than waits. */
  predicate Fits(s: State, charge: nat) {
    s.held == 0 || s.held + charge <= s.most
  }

  predicate IsLive(s: State, slot: nat) {
    slot < |s.slots| && s.slots[slot].Live?
  }

  /** One section under the lock; None where a hold waits, or no such charge is live. */
  function Next(s: State, step: Step): Option<State> {
    match step
    case Hold(charge) =>
      var charge := Min(charge, s.most);
      if Fits(s, charge) then Some(Handed(s, charge)) else None
    case HoldUpTo(wanted) =>
      if s.held >= s.most then None
      else Some(Handed(s, Min(Max(1, Min(wanted, s.most)), s.most - s.held)))
    case Split(slot, charge) =>
      if !IsLive(s, slot) then None else
      var part := Min(charge, s.slots[slot].charge);
      Some(s.(slots := s.slots[slot := Live(s.slots[slot].charge - part)] + [Live(part)]))
    case Drop(slot) =>
      if !IsLive(s, slot) then None else
      Some(s.(held := SaturatingSub(s.held, s.slots[slot].charge), slots := s.slots[slot := Gone]))
  }

  function Handed(s: State, charge: nat): State {
    s.(held := s.held + charge, slots := s.slots + [Live(charge)])
  }

  function Run(s: State, steps: seq<Step>): Option<State> {
    if steps == [] then Some(s)
    else match Run(s, steps[..|steps| - 1])
      case None => None
      case Some(t) => Next(t, steps[|steps| - 1])
  }

  /** What each charge handed out still holds. */
  function Charges(slots: seq<Slot>): seq<nat> {
    seq(|slots|, i requires 0 <= i < |slots| => if slots[i].Live? then slots[i].charge else 0)
  }

  ghost predicate Inv(s: State) {
    s.most >= 1 && s.held == Sum(Charges(s.slots)) && s.held <= s.most
  }

  lemma {:induction false} NextKeepsInv(s: State, step: Step, t: State)
    requires Inv(s) && Next(s, step) == Some(t)
    ensures Inv(t) && t.most == s.most
  {
    match step
    case Hold(charge) => ChargesAppend(s.slots, Min(charge, s.most));
    case HoldUpTo(wanted) => ChargesAppend(s.slots, Min(Max(1, Min(wanted, s.most)), s.most - s.held));
    case Split(slot, charge) =>
      var part := Min(charge, s.slots[slot].charge);
      ChargesUpdate(s.slots, slot, Live(s.slots[slot].charge - part));
      ChargesAppend(s.slots[slot := Live(s.slots[slot].charge - part)], part);
    case Drop(slot) => ChargesUpdate(s.slots, slot, Gone);
  }

  lemma {:induction false} ChargesAppend(slots: seq<Slot>, charge: nat)
    ensures Sum(Charges(slots + [Live(charge)])) == Sum(Charges(slots)) + charge
  {
    assert Charges(slots + [Live(charge)]) == Charges(slots) + [charge];
    SumAppend(Charges(slots), [charge]);
  }

  lemma {:induction false} ChargesUpdate(slots: seq<Slot>, at: nat, slot: Slot)
    requires at < |slots|
    ensures Charges(slots)[at] <= Sum(Charges(slots))
    ensures Sum(Charges(slots[at := slot])) + Charges(slots)[at]
         == Sum(Charges(slots)) + (if slot.Live? then slot.charge else 0)
  {
    var x := if slot.Live? then slot.charge else 0;
    assert Charges(slots[at := slot]) == Charges(slots)[at := x];
    SumUpdate(Charges(slots), at, x);
    SumElement(Charges(slots), at);
  }

  /**
   * Conservation: however holds, splits and drops interleave, what is held is
   * the sum of the charges still live, and never more than the most.
   */
  lemma {:induction false} Conserved(most: nat, steps: seq<Step>, s: State)
    requires Run(Initial(most), steps) == Some(s)
    ensures s.held == Sum(Charges(s.slots)) && s.held <= s.most && s.most == Max(most, 1)
  {
    RunKeepsInv(most, steps, s);
  }

  lemma {:induction false} RunKeepsInv(most: nat, steps: seq<Step>, s: State)
    requires Run(Initial(most), steps) == Some(s)
    ensures Inv(s) && s.most == Max(most, 1)
  {
    if steps != [] {
      var before := Run(Initial(most), steps[..|steps| - 1]).value;
      RunKeepsInv(most, steps[..|steps| - 1], before);
      NextKeepsInv(before, steps[|steps| - 1], s);
    }
  }

  /** Letting go gives back exactly the charge: the saturating subtraction never saturates. */
  lemma {:induction false} NeverSaturates(most: nat, steps: seq<Step>, s: State, slot: nat)
    requires Run(Initial(most), steps) == Some(s) && IsLive(s, slot)
    ensures s.slots[slot].charge <= s.held
    ensures Next(s, Drop(slot)).value.held + s.slots[slot].charge == s.held
  {
    RunKeepsInv(most, steps, s);
    ChargesUpdate(s.slots, slot, Gone);
  }

  /** A charge of the whole budget or more enters only alone, and holds all of it: nothing enters beside it. */
  lemma {:induction false} OversizedGoesAlone(most: nat, steps: seq<Step>, s: State, charge: nat, other: Step)
    requires Run(Initial(most), steps) == Some(s) && s.most <= charge
    requires (other.Hold? && other.charge > 0) || other.HoldUpTo?
    ensures Next(s, Hold(charge)).Some? <==> s.held == 0
    ensures s.held == 0 ==>
      var t := Next(s, Hold(charge)).value;
      t.held == t.most && t.slots == s.slots + [Live(t.most)] && Next(t, other).None?
  {
    RunKeepsInv(most, steps, s);
  }

  /**
   * No wake-up is missed: the only step that lets a waiting hold in is a drop of
   * a charge above nothing, which is the step that notifies every waiter.
   */
  lemma {:induction false} OnlyADropLetsAWaiterIn(
      most: nat, steps: seq<Step>, s: State, waiter: Step, step: Step, t: State)
    requires Run(Initial(most), steps) == Some(s)
    requires waiter.Hold? || waiter.HoldUpTo?
    requires Next(s, waiter).None? && Next(s, step) == Some(t) && Next(t, waiter).Some?
    ensures step.Drop? && s.slots[step.slot].charge > 0
  {
    RunKeepsInv(most, steps, s);
    NextKeepsInv(s, step, t);
  }

  /**
   * A hold that waits goes on only after a drop: whatever the node does until it may,
   * one of the steps was the drop of a charge above nothing, at which it waited still
   * and after which it could go on.
   */
  lemma {:induction false} AWaiterWaitsForADrop(
      most: nat, steps: seq<Step>, s: State, waiter: Step, more: seq<Step>, t: State) returns (k: nat)
    requires Run(Initial(most), steps) == Some(s) && Run(s, more) == Some(t)
    requires waiter.Hold? || waiter.HoldUpTo?
    requires Next(s, waiter).None? && Next(t, waiter).Some?
    ensures k < |more| && more[k].Drop? && Run(s, more[..k]).Some? && Run(s, more[..k + 1]).Some?
    ensures IsLive(Run(s, more[..k]).value, more[k].slot) && Run(s, more[..k]).value.slots[more[k].slot].charge > 0
    ensures Next(Run(s, more[..k]).value, waiter).None? && Next(Run(s, more[..k + 1]).value, waiter).Some?
  {
    var n := |more| - 1;
    var before := Run(s, more[..n]).value;
    if Next(before, waiter).Some? {
      k := AWaiterWaitsForADrop(most, steps, s, waiter, more[..n], before);
      assert more[..n][..k] == more[..k] && more[..n][..k + 1] == more[..k + 1];
    } else {
      k := n;
      assert more[..k + 1] == more;
      RunsAfter(most, steps, s, more[..n], before);
      OnlyADropLetsAWaiterIn(most, steps + more[..n], before, waiter, more[n], t);
    }
  }

  lemma {:induction false} RunsAfter(most: nat, steps: seq<Step>, s: State, more: seq<Step>, t: State)
    requires Run(Initial(most), steps) == Some(s) && Run(s, more) == Some(t)
    ensures Run(Initial(most), steps + more) == Some(t)
  {
    if more == [] {
      assert steps + more == steps;
    } else {
      var n := |more| - 1;
      RunsAfter(most, steps, s, more[..n], Run(s, more[..n]).value);
      assert (steps + more)[..|steps + more| - 1] == steps + more[..n];
    }
  }

  /** A waiter is never stranded: once every live charge is let go of, any hold goes on. */
  lemma {:induction false} EveryWaiterGoesOnAtLast(most: nat, steps: seq<Step>, s: State, waiter: Step)
    requires Run(Initial(most), steps) == Some(s)
    requires waiter.Hold? || waiter.HoldUpTo?
    ensures Run(s, LettingGo(s, |s.slots|)).Some?
    ensures Run(s, LettingGo(s, |s.slots|)).value.held == 0
    ensures Next(Run(s, LettingGo(s, |s.slots|)).value, waiter).Some?
  {
    RunKeepsInv(most, steps, s);
    var t := LettingGoIsARun(s, |s.slots|);
    assert Charges(t.slots) == seq(|t.slots|, _ => 0);
    SumOfNothing(|t.slots|);
  }

  /** The drops of every charge live among the first `n`. */
  function LettingGo(s: State, n: nat): seq<Step>
    requires n <= |s.slots|
  {
    if n == 0 then []
    else LettingGo(s, n - 1) + if s.slots[n - 1].Live? then [Drop(n - 1)] else []
  }

  lemma {:induction false} LettingGoIsARun(s: State, n: nat) returns (t: State)
    requires Inv(s) && n <= |s.slots|
    ensures Run(s, LettingGo(s, n)) == Some(t) && Inv(t) && t.most == s.most
    ensures |t.slots| == |s.slots|
    ensures forall i :: 0 <= i < n ==> t.slots[i].Gone?
    ensures forall i :: n <= i < |s.slots| ==> t.slots[i] == s.slots[i]
  {
    if n == 0 {
      t := s;
    } else {
      t := LettingGoIsARun(s, n - 1);
      var steps := LettingGo(s, n);
      if s.slots[n - 1].Live? {
        assert steps[..|steps| - 1] == LettingGo(s, n - 1);
        var before := t;
        t := Next(before, Drop(n - 1)).value;
        NextKeepsInv(before, Drop(n - 1), t);
      } else {
        assert steps == LettingGo(s, n - 1);
      }
    }
  }

  lemma {:induction false} SumOfNothing(n: nat)
    ensures Sum(seq(n, _ => 0)) == 0
  {
    if n > 0 {
      assert seq(n, _ => 0)[1..] == seq(n - 1, _ => 0);
      SumOfNothing(n - 1);
    }
  }

  const WIDTH: nat := 0x1_0000_0000_0000_0000

  /** Every sum a hold tests for room, in every reachable state of a budget of `most`, fits in 64 bits. */
  ghost predicate SumsFit(most: nat) {
    forall steps, s, charge: nat :: Run(Initial(most), steps) == Some(s) ==> s.held + Min(charge, s.most) < WIDTH
  }

  /** The unsigned 64-bit sum never wraps exactly where twice the budget fits in 64 bits. */
  lemma {:induction false} SumsFitExactly(most: nat)
    ensures SumsFit(most) <==> 2 * Max(most, 1) < WIDTH
  {
    if 2 * Max(most, 1) < WIDTH {
      forall steps, s, charge: nat | Run(Initial(most), steps) == Some(s)
        ensures s.held + Min(charge, s.most) < WIDTH
      {
        RunKeepsInv(most, steps, s);
      }
    } else {
      var all := [Hold(Max(most, 1))];
      assert all[..0] == [];
      assert Run(Initial(most), []) == Some(Initial(most));
      var s := Run(Initial(most), all).value;
      assert s.held + Min(s.most, s.most) >= WIDTH;
    }
  }

  /** A budget and the charges handed out of it, changed in place under its lock. */
  class Budget {
    const most: nat
    var held: nat
    /** The charges handed out, each a `Held` of its own. */
    var slots: seq<Slot>

    function View(): State
      reads this
    {
      State(most, held, slots)
    }

    constructor (most: nat)
      ensures View() == Initial(most)
    {
      this.most := Max(most, 1);
      held, slots := 0, [];
    }

    /**
     * `charge` held once there is room for it. While there is none it waits, and
     * `others` is what the rest of the node does meanwhile, `waited` of it before
     * the hold goes on; where the charge still waits at the end, it has no slot.
     */
    method Hold(charge: nat, others: seq<Step>) returns (slot: Option<nat>, waited: nat)
      requires Run(View(), others).Some?
      modifies this
      ensures Waited(old(View()), Step.Hold(charge), others, waited)
      ensures slot.None? ==> waited == |others| && Some(View()) == Run(old(View()), others) && Next(View(), Step.Hold(charge)).None?
      ensures slot.Some? ==> Some(View()) == Next(Run(old(View()), others[..waited]).value, Step.Hold(charge))
      ensures slot.Some? ==> |slots| > 0 && slot.value == |slots| - 1 && slots[slot.value] == Live(Min(charge, most))
    {
      var charge' := Min(charge, most);
      waited := 0;
      while held > 0 && held + charge' > most
        invariant Waited(old(View()), Step.Hold(charge), others, waited)
        invariant Run(old(View()), others[..waited]) == Some(View())
        decreases |others| - waited
      {
        if waited == |others| {
          assert others[..waited] == others;
          return None, waited;
        }
        waited := OtherWhileWaiting(old(View()), Step.Hold(charge), others, waited);
      }
      Hand(charge');
      slot := Some(|slots| - 1);
    }

    /** As much as there is room for, up to `wanted`, waiting for room for one where there is none. */
    method HoldUpTo(wanted: nat, others: seq<Step>) returns (slot: Option<nat>, waited: nat)
      requires Run(View(), others).Some?
      modifies this
      ensures Waited(old(View()), Step.HoldUpTo(wanted), others, waited)
      ensures slot.None? ==> waited == |others| && Some(View()) == Run(old(View()), others) && Next(View(), Step.HoldUpTo(wanted)).None?
      ensures slot.Some? ==> Some(View()) == Next(Run(old(View()), others[..waited]).value, Step.HoldUpTo(wanted))
      ensures slot.Some? ==> |slots| > 0 && slot.value == |slots| - 1 && slots[slot.value].Live?
      ensures slot.Some? ==>
        && 1 <= slots[slot.value].charge <= Max(1, wanted)
        && (held == most || slots[slot.value].charge == Max(1, wanted))
    {
      var wanted' := Max(1, Min(wanted, most));
      waited := 0;
      while held >= most
        invariant Waited(old(View()), Step.HoldUpTo(wanted), others, waited)
        invariant Run(old(View()), others[..waited]) == Some(View())
        decreases |others| - waited
      {
        if waited == |others| {
          assert others[..waited] == others;
          return None, waited;
        }
        waited := OtherWhileWaiting(old(View()), Step.HoldUpTo(wanted), others, waited);
      }
      Hand(Min(wanted', most - held));
      slot := Some(|slots| - 1);
    }

    /** `charge` of what `slot` holds split off into a hold of its own, at most what it holds. */
    method Split(slot: nat, charge: nat) returns (part: nat)
      requires IsLive(View(), slot)
      modifies this`slots
      ensures Some(View()) == Next(old(View()), Step.Split(slot, charge))
      ensures part == |old(slots)| && slots[part].Live? && slots[slot].Live?
      ensures slots[part].charge + slots[slot].charge == old(slots)[slot].charge
    {
      var split := Min(charge, slots[slot].charge);
      part := |slots|;
      slots := slots[slot := Live(slots[slot].charge - split)] + [Live(split)];
    }

    /** What `slot` holds let go of, once. */
    method Drop(slot: nat)
      requires IsLive(View(), slot)
      modifies this
      ensures Some(View()) == Next(old(View()), Step.Drop(slot))
    {
      var charge := slots[slot].charge;
      slots := slots[slot := Gone];
      if charge != 0 {
        held := SaturatingSub(held, charge);
      }
    }

    method Hand(charge: nat)
      modifies this
      ensures View() == Handed(old(View()), charge)
    {
      held := held + charge;
      slots := slots + [Live(charge)];
    }

    /** What another thread of the node does with the budget. */
    method Other(step: Step)
      requires Next(View(), step).Some?
      modifies this
      ensures Some(View()) == Next(old(View()), step)
    {
      match step
      case Hold(charge) =>
        Hand(Min(charge, most));
      case HoldUpTo(wanted) =>
        Hand(Min(Max(1, Min(wanted, most)), most - held));
      case Split(slot, charge) =>
        var _ := Split(slot, charge);
      case Drop(slot) =>
        Drop(slot);
    }

    /** The next of `others`, while a hold that began at `start` waits. */
    method OtherWhileWaiting(ghost start: State, ghost waiter: Step, others: seq<Step>, waited: nat) returns (more: nat)
      requires Run(start, others).Some? && waited < |others|
      requires Waited(start, waiter, others, waited)
      requires Run(start, others[..waited]) == Some(View()) && Next(View(), waiter).None?
      modifies this
      ensures more == waited + 1
      ensures Waited(start, waiter, others, more)
      ensures Run(start, others[..more]) == Some(View())
    {
      PrefixRuns(start, others, waited + 1);
      assert others[..waited + 1][..waited] == others[..waited];
      Other(others[waited]);
      more := waited + 1;
    }
  }

  /** Whether `waiter` found no room at `start` and after each but the last of the first `waited` of `others`. */
  ghost predicate Waited(start: State, waiter: Step, others: seq<Step>, waited: nat) {
    && waited <= |others|
    && Run(start, others[..waited]).Some?
    && forall k :: 0 <= k < waited ==>
         Run(start, others[..k]).Some? && Next(Run(start, others[..k]).value, waiter).None?
  }

  lemma {:induction false} PrefixRuns(s: State, steps: seq<Step>, k: nat)
    requires k <= |steps| && Run(s, steps).Some?
    ensures Run(s, steps[..k]).Some?
    decreases |steps|
  {
    if k < |steps| {
      PrefixRuns(s, steps[..|steps| - 1], k);
      assert steps[..|steps| - 1][..k] == steps[..k];
    } else {
      assert steps[..k] == steps;
    }
  }
}
