/**
 * A node's budgets as its tuning sizes them (src/budget.rs, `NodeBudget`): the bytes
 * its carries and its sends hold, in chunks for each thread, and what one of either
 * holds at most.
 */
module NodeBudgets {
  import opened Wrappers
  import opened Sums
  import B = Budgets

  const CARRY_CHUNKS: nat := 8

  const STREAM_CHUNKS: nat := 6

  const SEND_CHUNKS_PER_THREAD: nat := 16

  const MOST_U64: nat := 0xFFFF_FFFF_FFFF_FFFF

  /** `NodeBudget::carry`. */
  function Carry(chunk: nat): nat {
    CARRY_CHUNKS * chunk
  }

  /** `NodeBudget::send`: what reading it holds, and the whole of it besides where its transport gathers it. */
  function Send(chunk: nat, length: nat, gathered: bool): nat {
    var reading := STREAM_CHUNKS * Min(length, chunk);
    if gathered then Min(length + reading, MOST_U64) else reading
  }

  /** The bytes `threads` hold, `per` chunks each. */
  function Bytes(threads: nat, per: nat, chunk: nat): nat {
    threads * per * chunk
  }

  /** How many charges are held. */
  function Held(slots: seq<B.Slot>): nat {
    if slots == [] then 0 else Held(slots[..|slots| - 1]) + if slots[|slots| - 1].Live? then 1 else 0
  }

  ghost predicate NoneAbove(slots: seq<B.Slot>, each: nat) {
    forall i :: 0 <= i < |slots| && slots[i].Live? ==> slots[i].charge <= each
  }

  /** Whether one more charge of `each` waits in no reachable state where fewer than `threads` are held, none above it. */
  ghost predicate NeverWaits(most: nat, threads: nat, each: nat) {
    forall steps, s: B.State ::
      B.Run(B.Initial(most), steps) == Some(s) && NoneAbove(s.slots, each) && Held(s.slots) < threads ==>
        B.Next(s, B.Hold(each)).Some?
  }

  lemma {:induction false} HeldAtMost(slots: seq<B.Slot>, each: nat)
    requires NoneAbove(slots, each)
    ensures Sum(B.Charges(slots)) <= Held(slots) * each
  {
    if slots != [] {
      var n := |slots| - 1;
      HeldAtMost(slots[..n], each);
      assert B.Charges(slots) == B.Charges(slots[..n]) + [if slots[n].Live? then slots[n].charge else 0];
      SumAppend(B.Charges(slots[..n]), [if slots[n].Live? then slots[n].charge else 0]);
      SumOfOne(if slots[n].Live? then slots[n].charge else 0);
      assert (Held(slots[..n]) + 1) * each == Held(slots[..n]) * each + each;
    }
  }

  /** Room for each of `threads` is room for one more while fewer are held. */
  lemma {:induction false} RoomForEach(most: nat, threads: nat, each: nat)
    requires threads * each <= most
    ensures NeverWaits(most, threads, each)
  {
    forall steps, s: B.State | B.Run(B.Initial(most), steps) == Some(s) && NoneAbove(s.slots, each) && Held(s.slots) < threads
      ensures B.Next(s, B.Hold(each)).Some?
    {
      B.Conserved(most, steps, s);
      HeldAtMost(s.slots, each);
      Ordered(Held(s.slots) + 1, threads, each);
      assert (Held(s.slots) + 1) * each == Held(s.slots) * each + each;
    }
  }

  /** So many charges held one after another, while they find room. */
  function Filling(each: nat, n: nat): seq<B.Step> {
    seq(n, _ => B.Hold(each))
  }

  lemma {:induction false} Filled(most: nat, threads: nat, each: nat, n: nat) returns (s: B.State)
    requires NeverWaits(most, threads, each) && n <= threads && each <= Max(most, 1)
    ensures B.Run(B.Initial(most), Filling(each, n)) == Some(s)
    ensures s.held == n * each && Held(s.slots) == n && NoneAbove(s.slots, each) && s.most == Max(most, 1)
  {
    hide NeverWaits, NoneAbove, B.Next;
    if n == 0 {
      s := B.Initial(most);
      NoneYet(each);
    } else {
      var before := Filled(most, threads, each, n - 1);
      assert Filling(each, n)[..n - 1] == Filling(each, n - 1);
      FindsRoom(most, threads, each, Filling(each, n - 1), before);
      s := B.Next(before, B.Hold(each)).value;
      OneMoreHeld(before, each, s);
      assert n * each == (n - 1) * each + each;
    }
  }

  lemma {:induction false} NoneYet(each: nat)
    ensures NoneAbove([], each)
  {
  }

  lemma {:induction false} FindsRoom(most: nat, threads: nat, each: nat, steps: seq<B.Step>, s: B.State)
    requires NeverWaits(most, threads, each)
    requires B.Run(B.Initial(most), steps) == Some(s) && NoneAbove(s.slots, each) && Held(s.slots) < threads
    ensures B.Next(s, B.Hold(each)).Some?
  {
  }

  lemma {:induction false} OneMoreHeld(s: B.State, each: nat, t: B.State)
    requires B.Next(s, B.Hold(each)) == Some(t) && each <= s.most && NoneAbove(s.slots, each)
    ensures t.held == s.held + each && Held(t.slots) == Held(s.slots) + 1 && NoneAbove(t.slots, each) && t.most == s.most
  {
    assert t.slots[..|t.slots| - 1] == s.slots;
  }

  /** One more charge never waits while fewer than `threads` are held exactly where there is room for each, or only one of them. */
  lemma {:induction false} RoomForEachExactly(most: nat, threads: nat, each: nat)
    requires most > 0
    ensures NeverWaits(most, threads, each) <==> threads <= 1 || threads * each <= most
  {
    if threads * each <= most {
      RoomForEach(most, threads, each);
    } else if threads <= 1 {
      Alone(most, each);
    } else if NeverWaits(most, threads, each) {
      if each <= most {
        var s := Filled(most, threads, each, threads);
        B.Conserved(most, Filling(each, threads), s);
      } else {
        OversizedWaits(most, threads, each);
      }
    }
  }

  lemma {:induction false} Alone(most: nat, each: nat)
    ensures NeverWaits(most, 1, each)
  {
    forall steps, s: B.State | B.Run(B.Initial(most), steps) == Some(s) && NoneAbove(s.slots, each) && Held(s.slots) < 1
      ensures B.Next(s, B.Hold(each)).Some?
    {
      B.Conserved(most, steps, s);
      HeldAtMost(s.slots, each);
    }
  }

  /** A charge above the whole budget waits beside another. */
  lemma {:induction false} OversizedWaits(most: nat, threads: nat, each: nat)
    requires 0 < most < each && threads >= 2
    ensures !NeverWaits(most, threads, each)
  {
    var steps := [B.Hold(each)];
    assert steps[..0] == [];
    var s := B.Next(B.Initial(most), B.Hold(each)).value;
    assert s.slots == [B.Live(most)] && s.slots[..0] == [];
    assert Held(s.slots) == Held([]) + 1;
    assert B.Run(B.Initial(most), steps) == Some(s) && NoneAbove(s.slots, each);
    assert B.Next(s, B.Hold(each)).None?;
  }

  lemma {:induction false} PerThread(threads: nat, per: nat, chunk: nat, chunks: nat)
    requires threads > 0 && chunk > 0
    ensures threads * (chunks * chunk) <= Bytes(threads, per, chunk) <==> chunks <= per
  {
    var w := threads * chunk;
    assert w > 0;
    assert threads * (chunks * chunk) == chunks * w;
    assert threads * per * chunk == per * w;
    if chunks <= per {
      Ordered(chunks, per, w);
    } else {
      Ordered(per + 1, chunks, w);
      assert (per + 1) * w == per * w + w;
    }
  }

  /**
   * The carries bound the bytes they hold: a carry never waits for bytes while it
   * has its place among the carries exactly where the bytes are at least what one
   * carry holds for each, or there is only one.
   */
  lemma {:induction false} CarriesBoundTheBytes(carries: nat, per: nat, chunk: nat)
    requires carries > 0 && chunk > 0 && per > 0
    ensures NeverWaits(Bytes(carries, per, chunk), carries, Carry(chunk)) <==> per >= CARRY_CHUNKS || carries == 1
  {
    assert carries * per > 0 && carries * per * chunk > 0;
    PerThread(carries, per, chunk, CARRY_CHUNKS);
    RoomForEachExactly(Bytes(carries, per, chunk), carries, Carry(chunk));
  }

  /** A send that streams never waits for bytes before the Send pool is full, as a node is sized by default. */
  lemma {:induction false} StreamingSendsNeverWait(senders: nat, chunk: nat, length: nat)
    requires senders > 0 && chunk > 0
    ensures Send(chunk, length, false) <= STREAM_CHUNKS * chunk
    ensures NeverWaits(Bytes(senders, SEND_CHUNKS_PER_THREAD, chunk), senders, Send(chunk, length, false))
  {
    PerThread(senders, SEND_CHUNKS_PER_THREAD, chunk, STREAM_CHUNKS);
    Ordered(Min(length, chunk), chunk, STREAM_CHUNKS);
    assert STREAM_CHUNKS * Min(length, chunk) <= STREAM_CHUNKS * chunk;
    Ordered(Send(chunk, length, false), STREAM_CHUNKS * chunk, senders);
    RoomForEach(Bytes(senders, SEND_CHUNKS_PER_THREAD, chunk), senders, Send(chunk, length, false));
  }
}
