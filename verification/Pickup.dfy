/**
 * A node's Subscriptions changed in place (src/pickup.rs, src/pickup/holding.rs,
 * src/pickup/released.rs): what an operator pauses and resumes, what a Publication
 * holds, and where the node is in reading each queue. Every change is the step of
 * one Subscription that `HeldWork` takes, the others left as they were.
 */
module Pickups {
  import opened Wrappers
  import opened Sums
  import H = HeldWork

  /** One Subscription in memory (`Entry`): the Messages taken are those read and not settled. */
  datatype Entry = Entry(
    name: string, paused: bool, held: nat, pickedUp: nat, cursor: nat, taken: set<nat>, pending: bool)

  /** What Xmip Storage has of a Subscription as its node begins: its standing, and how many its queue holds. */
  datatype Configured = Configured(name: string, paused: bool, held: nat)

  datatype Answer = NoSuch | Already | NotWritten | Done

  /** The entry stands as the Subscription's memory does in `s`. */
  ghost predicate Stands(e: Entry, s: H.State) {
    && e.paused == s.paused && e.held == s.held && e.cursor == s.cursor && e.pending == s.pending
    && e.taken == H.Numbers(s.batch)
  }

  /** Where `name` is among the first `n`, their number where it is not. */
  function Index(entries: seq<Entry>, name: string): (at: nat)
    ensures at <= |entries|
    ensures at < |entries| ==> entries[at].name == name
    ensures forall j :: 0 <= j < at ==> entries[j].name != name
  {
    if entries == [] || entries[0].name == name then 0 else 1 + Index(entries[1..], name)
  }

  /** Whether the Subscription `name` holds what it matches: it is paused, or holds something already. */
  predicate Holds(entries: seq<Entry>, name: string) {
    var at := Index(entries, name);
    at < |entries| && (entries[at].paused || entries[at].held > 0)
  }

  /** Which of the Messages opened for `names` a Publication holds, oldest first: the entry each is held by. */
  function HeldOf(entries: seq<Entry>, names: seq<string>): seq<nat> {
    if names == [] then [] else
    var before := HeldOf(entries, names[..|names| - 1]);
    var at := Index(entries, names[|names| - 1]);
    if Holds(entries, names[|names| - 1]) then before + [at] else before
  }

  /** How often `at` is among `held`. */
  function Times(held: seq<nat>, at: nat): nat {
    if held == [] then 0 else Times(held[..|held| - 1], at) + if held[|held| - 1] == at then 1 else 0
  }

  /** An entry once so many of its Messages held were counted. */
  function CountedOn(e: Entry, n: nat): Entry {
    e.(held := e.held + n, pending := e.pending || (n > 0 && !e.paused))
  }

  class Pickup {
    var entries: seq<Entry>

    /** `open`: every Subscription as it was left, to be read from its start where it holds anything. */
    constructor (configured: seq<Configured>)
      ensures |entries| == |configured|
      ensures forall i :: 0 <= i < |entries| ==> entries[i].name == configured[i].name
      ensures forall i, s: H.State {:trigger Stands(entries[i], H.Restarted(s))} ::
        0 <= i < |entries| && configured[i].paused == s.standing && configured[i].held == |s.here| ==>
          Stands(entries[i], H.Restarted(s))
    {
      entries := [];
      new;
      var i := 0;
      while i < |configured|
        invariant i <= |configured| && |entries| == i
        invariant forall j :: 0 <= j < i ==>
          entries[j] == Entry(configured[j].name, configured[j].paused, configured[j].held, 0, 0, {}, configured[j].held > 0)
      {
        var one := configured[i];
        entries := entries + [Entry(one.name, one.paused, one.held, 0, 0, {}, one.held > 0)];
        i := i + 1;
      }
      forall j, s: H.State | 0 <= j < |entries| && configured[j].paused == s.standing && configured[j].held == |s.here|
        ensures Stands(entries[j], H.Restarted(s))
      {
        NoneHere(s.here);
      }
    }

    /**
     * `act`: a pause or a resume, refused for a Subscription not configured, nothing
     * where it stands so already, nothing where its standing was not written.
     */
    method Act(name: string, pause: bool, written: bool) returns (answer: Answer)
      modifies this
      ensures answer.NoSuch? <==> Index(old(entries), name) == |old(entries)|
      ensures answer.NoSuch? ==> entries == old(entries)
      ensures !answer.NoSuch? ==>
        var at := Index(old(entries), name);
        && |entries| == |old(entries)| && entries == old(entries)[at := entries[at]]
        && (answer.Already? <==> old(entries)[at].paused == pause)
        && (answer.Done? <==> old(entries)[at].paused != pause && written)
        && forall s: H.State :: Stands(old(entries)[at], s) ==> Stands(entries[at], H.Acted(s, pause, written, written))
    {
      var at := Index(entries, name);
      if at == |entries| {
        return NoSuch;
      }
      var e := entries[at];
      if e.paused == pause {
        return Already;
      }
      if !written {
        return NotWritten;
      }
      entries := entries[at := if pause then e.(paused := true) else e.(paused := false, cursor := 0, pending := true)];
      answer := Done;
    }

    /** `holding`: which of a Publication's Messages are held, decided before it is written. */
    method Holding(names: seq<string>) returns (held: seq<nat>, departs: seq<nat>)
      ensures held == HeldOf(entries, names)
      ensures forall k :: k in departs <==> 0 <= k < |names| && !Holds(entries, names[k])
    {
      held, departs := [], [];
      var i := 0;
      while i < |names|
        invariant i <= |names| && held == HeldOf(entries, names[..i])
        invariant forall k :: k in departs <==> 0 <= k < i && !Holds(entries, names[k])
      {
        assert names[..i + 1][..i] == names[..i];
        var at := Index(entries, names[i]);
        if Holds(entries, names[i]) {
          held := held + [at];
        } else {
          departs := departs + [i];
        }
        i := i + 1;
      }
      assert names[..i] == names;
    }

    /** `published`: what a Publication held counted, each Subscription running woken. */
    method Published(held: seq<nat>)
      requires forall i :: 0 <= i < |held| ==> held[i] < |entries|
      modifies this
      ensures |entries| == |old(entries)|
      ensures forall at :: 0 <= at < |entries| ==> entries[at] == CountedOn(old(entries)[at], Times(held, at))
    {
      var i := 0;
      while i < |held|
        invariant i <= |held| && |entries| == |old(entries)|
        invariant forall at :: 0 <= at < |entries| ==> entries[at] == CountedOn(old(entries)[at], Times(held[..i], at))
      {
        assert held[..i + 1][..i] == held[..i];
        var e := entries[held[i]];
        entries := entries[held[i] := e.(held := e.held + 1, pending := e.pending || !e.paused)];
        i := i + 1;
      }
      assert held[..i] == held;
    }

    /**
     * A page taken where the Subscription still runs and is read from where it was:
     * what it holds is taken, and nothing more is pending where it was all there is.
     */
    method Take(at: nat, page: H.Page)
      requires at < |entries|
      modifies this
      ensures |entries| == |old(entries)| && entries == old(entries)[at := entries[at]]
      ensures forall s: H.State :: Stands(old(entries)[at], s) && s.batch == [] && s.page == Some(page) ==>
        Stands(entries[at], H.Taken(s, page))
    {
      var e := entries[at];
      if e.paused || e.cursor != page.from {
        return;
      }
      var i := 0;
      while i < |page.items|
        invariant i <= |page.items|
        invariant e == entries[at].(taken := entries[at].taken + H.Numbers(page.items[..i]),
                                    cursor := if i == 0 then entries[at].cursor else page.items[i - 1] + 1)
      {
        assert H.Numbers(page.items[..i + 1]) == H.Numbers(page.items[..i]) + {page.items[i]};
        e := e.(taken := e.taken + {page.items[i]}, cursor := page.items[i] + 1);
        i := i + 1;
      }
      assert page.items[..i] == page.items;
      if page.ended {
        e := e.(pending := false);
      }
      entries := entries[at := e];
    }

    /** `again`: read again from its place. */
    method Again(at: nat, number: nat)
      requires at < |entries|
      modifies this
      ensures |entries| == |old(entries)| && entries == old(entries)[at := entries[at]]
      ensures forall s: H.State :: Stands(old(entries)[at], s) && First(s, number) ==>
        Stands(entries[at], H.Again(s.(batch := s.batch[1..]), number))
    {
      var e := entries[at];
      entries := entries[at := e.(taken := e.taken - {number}, cursor := Min(e.cursor, number), pending := true)];
      forall s: H.State | Stands(e, s) && First(s, number)
        ensures Stands(entries[at], H.Again(s.(batch := s.batch[1..]), number))
      {
        Popped(s, number);
      }
    }

    /** `moved`, and `passed` where it is not picked up: settled. */
    method Settle(at: nat, number: nat, moved: bool)
      requires at < |entries|
      modifies this
      ensures |entries| == |old(entries)| && entries == old(entries)[at := entries[at]]
      ensures forall s: H.State :: Stands(old(entries)[at], s) && First(s, number) ==>
        Stands(entries[at], H.PickedUp(s.(batch := s.batch[1..]), number, if moved then H.Moved else H.Unreadable(false)))
    {
      var e := entries[at];
      entries := entries[at := if moved
        then e.(taken := e.taken - {number}, held := SaturatingSub(e.held, 1), pickedUp := e.pickedUp + 1)
        else e.(taken := e.taken - {number})];
      forall s: H.State | Stands(e, s) && First(s, number)
        ensures Stands(entries[at], H.PickedUp(s.(batch := s.batch[1..]), number, if moved then H.Moved else H.Unreadable(false)))
      {
        Popped(s, number);
      }
    }
  }

  /** `number` is the first of what was read, oldest first, and is not settled. */
  ghost predicate First(s: H.State, number: nat) {
    s.batch != [] && s.batch[0] == number && H.Ascending(s.batch, s.numbered)
  }

  lemma {:induction false} Popped(s: H.State, number: nat)
    requires First(s, number)
    ensures H.Numbers(s.batch[1..]) == H.Numbers(s.batch) - {number}
  {
    assert s.batch == [number] + s.batch[1..];
  }

  lemma {:induction false} NoneHere(here: set<nat>)
    ensures |here| > 0 <==> here != {}
  {
  }

  /** Every Message a Publication opens for a Subscription that holds anything, or is paused, is held by it; no other is. */
  lemma {:induction false} HeldIs(entries: seq<Entry>, names: seq<string>, at: nat)
    requires at < |entries| && Index(entries, entries[at].name) == at
    ensures Times(HeldOf(entries, names), at) ==
      if entries[at].paused || entries[at].held > 0 then Named(names, entries[at].name) else 0
    ensures forall i :: 0 <= i < |HeldOf(entries, names)| ==> HeldOf(entries, names)[i] < |entries|
  {
    if names != [] {
      var before := HeldOf(entries, names[..|names| - 1]);
      HeldIs(entries, names[..|names| - 1], at);
      var held := HeldOf(entries, names);
      if held != before {
        assert held[..|held| - 1] == before;
      }
    }
  }

  /** How many Messages are opened for `name`. */
  function Named(names: seq<string>, name: string): nat {
    if names == [] then 0 else Named(names[..|names| - 1], name) + if names[|names| - 1] == name then 1 else 0
  }
}
