/**
 * The shared reads changed in place (src/stream_share.rs, src/stream_share/one_read.rs):
 * the list of reads under its lock, and a departure's read of its Stream through them,
 * while the other departures look at theirs.
 */
module SharedReads {
  import opened Wrappers
  import S = StreamShare

  /** Departure `number` takes from the read `id`, which knows it is at `place`. */
  predicate On(list: seq<S.OneRead>, id: nat, number: nat, place: nat) {
    var at := S.Index(list, id);
    at < |list| && number in list[at].readers && list[at].readers[number] == place
  }

  /** The read `id` stands past `place`. */
  predicate Past(list: seq<S.OneRead>, id: nat, place: nat) {
    var at := S.Index(list, id);
    at < |list| && list[at].first > place
  }

  /** Every departure not among `but` is on the reads it was on, at the place it was. */
  ghost predicate OthersStay(before: seq<S.OneRead>, after: seq<S.OneRead>, but: set<nat>) {
    forall id, n, place :: n !in but && On(before, id, n, place) ==> On(after, id, n, place)
  }

  /** A look of departure `number`, on the read at `at`. */
  datatype Turn = Turn(at: nat, number: nat)

  function Lookers(looks: seq<Turn>): set<nat> {
    set turn | turn in looks :: turn.number
  }

  /** What is left of the looks to come. */
  ghost predicate Fewer(rest: seq<Turn>, looks: seq<Turn>) {
    |rest| <= |looks| && Lookers(rest) <= Lookers(looks)
  }

  /** The same reads and the same departures on them, each standing where it stood or further. */
  ghost predicate Alike(before: seq<S.OneRead>, after: seq<S.OneRead>) {
    && |after| == |before|
    && forall i :: 0 <= i < |before| ==>
         && after[i].id == before[i].id && after[i].first >= before[i].first
         && after[i].readers.Keys == before[i].readers.Keys
  }

  lemma {:induction false} AlikeThrough(a: seq<S.OneRead>, b: seq<S.OneRead>, c: seq<S.OneRead>)
    requires Alike(a, b) && Alike(b, c)
    ensures Alike(a, c)
  {
  }

  /** No read failed. */
  ghost predicate Sound(list: seq<S.OneRead>) {
    forall i :: 0 <= i < |list| ==> !list[i].failed
  }

  lemma {:induction false} UpdateStays(list: seq<S.OneRead>, at: nat, read: S.OneRead, number: nat)
    requires S.Sorted(list) && at < |list| && read.id == list[at].id
    requires forall n :: n != number && n in list[at].readers ==> n in read.readers && read.readers[n] == list[at].readers[n]
    ensures OthersStay(list, list[at := read], {number})
    ensures S.Index(list[at := read], read.id) == at
  {
    forall id, n, place | n != number && On(list, id, n, place)
      ensures On(list[at := read], id, n, place)
    {
      var i := S.Index(list, id);
      S.UpdatedShelf(list, at, read);
      S.OnShelfAt(list[at := read], i);
    }
    S.UpdatedShelf(list, at, read);
    S.OnShelfAt(list[at := read], at);
  }

  lemma {:induction false} AppendStays(list: seq<S.OneRead>, read: S.OneRead, number: nat)
    requires S.Sorted(list + [read])
    ensures OthersStay(list, list + [read], {number})
    ensures S.Index(list + [read], read.id) == |list|
  {
    S.OnShelfAt(list + [read], |list|);
    forall id, n, place | n != number && On(list, id, n, place)
      ensures On(list + [read], id, n, place)
    {
      S.OnShelfAt(list + [read], S.Index(list, id));
    }
  }

  lemma {:induction false} RemovalStays(list: seq<S.OneRead>, at: nat, number: nat)
    requires S.Sorted(list) && at < |list|
    requires forall n :: n in list[at].readers ==> n == number
    ensures OthersStay(list, S.Removed(list, at), {number})
  {
    hide S.Sorted;
    var rest := S.Removed(list, at);
    S.RemovedShelf(list, at);
    forall id, n, place | n != number && On(list, id, n, place)
      ensures On(rest, id, n, place)
    {
      var i := S.Index(list, id);
      S.OnShelfAt(rest, if i < at then i else i - 1);
    }
  }

  lemma {:induction false} LeaveStays(stored: S.Stored, list: seq<S.OneRead>, minted: nat, id: nat, number: nat)
    requires S.ListOk(stored, list, minted)
    ensures S.ListOk(stored, S.Leave(list, id, number), minted)
    ensures OthersStay(list, S.Leave(list, id, number), {number})
  {
    if S.Index(list, id) < |list| {
      S.OnShelf(list, id);
      S.LeaveShelf(stored, list, minted, id, number);
      OthersStayOn(list, id, number);
    }
  }

  lemma {:induction false} OthersStayOn(list: seq<S.OneRead>, id: nat, number: nat)
    requires S.Sorted(list) && S.Index(list, id) < |list|
    ensures OthersStay(list, S.Leave(list, id, number), {number})
  {
    var at := S.Index(list, id);
    var left := list[at].(readers := list[at].readers - {number});
    if left.readers == map[] {
      forall n | n in list[at].readers
        ensures n == number
      {
        assert n != number ==> n in left.readers;
      }
      RemovalStays(list, at, number);
    } else {
      UpdateStays(list, at, left, number);
    }
  }

  lemma {:induction false} LeaveSound(list: seq<S.OneRead>, id: nat, number: nat)
    requires Sound(list)
    ensures Sound(S.Leave(list, id, number))
  {
  }

  /** A departure that joined is on the read it joined, at its place. */
  lemma {:induction false} JoinedStays(
      stored: S.Stored, list: seq<S.OneRead>, minted: nat, best: nat, number: nat, place: nat, taken: nat)
    requires S.ListOk(stored, list, minted)
    requires place <= |stored.chunks| && taken == |S.Bytes(stored.chunks[..place])|
    ensures var (joined, id) := S.Joined(list, minted, best, number, place, taken);
      && S.ListOk(stored, joined, minted + 1) && Kept(list, joined, {number})
      && On(joined, id, number, place)
      && (best < |list| ==> joined[S.Index(joined, id)].first == list[best].first)
      && (best >= |list| ==> joined[S.Index(joined, id)].first == place)
  {
    if best >= |list| {
      var read := S.Join(S.Opened(minted, place, taken), number, place);
      assert S.ReadOk(stored, read) && number in read.readers;
      S.AppendedShelf(list, read);
      AppendStays(list, read, number);
    } else {
      var read := S.Join(list[best], number, place);
      assert number in read.readers;
      S.UpdatedKeepsList(stored, list, minted, best, read);
      UpdateStays(list, best, read, number);
    }
  }

  lemma {:induction false} MovedStays(
      stored: S.Stored, list: seq<S.OneRead>, minted: nat, on: nat, number: nat, place: nat, busy: set<nat>)
    requires S.ListOk(stored, list, minted) && On(list, on, number, place)
    ensures match S.MovedTo(list, on, number, place, busy)
      case None => true
      case Some((moved, to)) =>
        S.ListOk(stored, moved, minted) && OthersStay(list, moved, {number}) && On(moved, to, number, place)
  {
    var mine := S.Index(list, on);
    var to := S.Drawn(list, mine, place, busy, 0);
    if |list| >= 2 && to < |list| {
      MovingStays(stored, list, minted, on, number, place, to);
    }
  }

  lemma {:induction false} MovingStays(
      stored: S.Stored, list: seq<S.OneRead>, minted: nat, on: nat, number: nat, place: nat, to: nat)
    requires S.ListOk(stored, list, minted) && On(list, on, number, place)
    requires to < |list| && to != S.Index(list, on)
    ensures var moved := S.Leave(list[to := S.Join(list[to], number, place)], on, number);
      S.ListOk(stored, moved, minted) && OthersStay(list, moved, {number}) && On(moved, list[to].id, number, place)
  {
    var read := S.Join(list[to], number, place);
    var joined := list[to := read];
    assert number in read.readers;
    S.UpdatedKeepsList(stored, list, minted, to, read);
    UpdateStays(list, to, read, number);
    S.OnShelfAt(joined, S.Index(list, on));
    LeaveStays(stored, joined, minted, on, number);
    MovedOn(stored, joined, minted, on, number, to, place);
    StaysThrough(list, joined, S.Leave(joined, on, number), {number});
  }

  /** Leaving one read, a departure stays on another. */
  lemma {:induction false} MovedOn(
      stored: S.Stored, list: seq<S.OneRead>, minted: nat, from: nat, number: nat, to: nat, place: nat)
    requires S.ListOk(stored, list, minted) && S.Index(list, from) < |list|
    requires to < |list| && list[to].id != from
    requires number in list[to].readers && list[to].readers[number] == place
    ensures On(S.Leave(list, from, number), list[to].id, number, place)
  {
    S.OnShelf(list, from);
    S.LeaveShelf(stored, list, minted, from, number);
    S.OnShelfAt(list, to);
    S.OnShelf(S.Leave(list, from, number), list[to].id);
  }

  lemma {:induction false} StaysThrough(a: seq<S.OneRead>, b: seq<S.OneRead>, c: seq<S.OneRead>, but: set<nat>)
    requires OthersStay(a, b, but) && OthersStay(b, c, but)
    ensures OthersStay(a, c, but)
  {
  }

  /** What a section leaves as it was: the departures but some, and whether a read failed. */
  ghost predicate Kept(before: seq<S.OneRead>, after: seq<S.OneRead>, but: set<nat>) {
    OthersStay(before, after, but) && (Sound(before) ==> Sound(after))
  }

  lemma {:induction false} LeavingKeeps(
      stored: S.Stored, list: seq<S.OneRead>, minted: nat, left: Option<nat>, number: nat)
    requires S.ListOk(stored, list, minted)
    ensures var after := Without(list, left, number);
      S.ListOk(stored, after, minted) && Kept(list, after, {number})
  {
    if left.Some? {
      LeaveStays(stored, list, minted, left.value, number);
      if Sound(list) {
        LeaveSound(list, left.value, number);
      }
    }
  }

  /** The reads once departure `number` left the one it fell behind, if any. */
  function Without(list: seq<S.OneRead>, left: Option<nat>, number: nat): seq<S.OneRead> {
    if left.Some? then S.Leave(list, left.value, number) else list
  }

  /** What a joining departure saw of the reads, each as it was when it was looked at. */
  function SeenOf(moments: seq<seq<S.OneRead>>, place: nat): seq<S.Seen>
    requires forall i :: 0 <= i < |moments| ==> i < |moments[i]|
  {
    seq(|moments|, i requires 0 <= i < |moments| => S.Seen(|moments[i][i].readers|, S.Reaches(moments[i][i], place)))
  }

  /** The read picked of those looked at: how many took from it, and where it is. */
  function Picked(moments: seq<seq<S.OneRead>>, place: nat): Option<(nat, nat)>
    requires forall i :: 0 <= i < |moments| ==> i < |moments[i]|
  {
    var pick := S.Pick(SeenOf(moments, place));
    if pick == |moments| then None else Some((|moments[pick][pick].readers|, pick))
  }

  lemma {:induction false} NonePicked(place: nat)
    ensures Picked([], place) == None
  {
  }

  lemma {:induction false} MetFirst(start: seq<S.OneRead>, list: seq<S.OneRead>)
    requires Alike(start, list)
    ensures Meanwhile(start, [list])
  {
  }

  lemma {:induction false} PicksNext(moments: seq<seq<S.OneRead>>, list: seq<S.OneRead>, place: nat)
    requires forall i :: 0 <= i < |moments| ==> i < |moments[i]|
    requires |moments| < |list|
    ensures var (i, best) := (|moments|, Picked(moments, place));
      Picked(moments + [list], place)
        == if S.Reaches(list[i], place) && (best.None? || |list[i].readers| > best.value.0)
           then Some((|list[i].readers|, i)) else best
  {
    var i, met := |moments|, moments + [list];
    assert SeenOf(met, place)[..i] == SeenOf(moments, place);
    assert SeenOf(met, place)[i] == S.Seen(|list[i].readers|, S.Reaches(list[i], place));
  }

  /** The lists of reads a joining departure met, from `start` on: each as the one before or further. */
  ghost predicate Meanwhile(start: seq<S.OneRead>, moments: seq<seq<S.OneRead>>) {
    && (forall i :: 0 <= i < |moments| ==> Alike(start, moments[i]))
    && (forall i, j :: 0 <= i < j < |moments| ==> Alike(moments[i], moments[j]))
  }

  lemma {:induction false} MovingKeeps(
      stored: S.Stored, list: seq<S.OneRead>, minted: nat, on: nat, number: nat, place: nat, busy: set<nat>)
    requires S.ListOk(stored, list, minted) && On(list, on, number, place)
    ensures match S.MovedTo(list, on, number, place, busy)
      case None => Kept(list, list, {number})
      case Some((moved, to)) =>
        S.ListOk(stored, moved, minted) && Kept(list, moved, {number}) && On(moved, to, number, place)
  {
    MovedStays(stored, list, minted, on, number, place, busy);
    MovedSound(list, on, number, place, busy);
  }

  lemma {:induction false} MovedSound(list: seq<S.OneRead>, on: nat, number: nat, place: nat, busy: set<nat>)
    ensures var moved := S.MovedTo(list, on, number, place, busy);
      Sound(list) && moved.Some? ==> Sound(moved.value.0)
  {
    var mine := S.Index(list, on);
    if Sound(list) && |list| >= 2 && mine < |list| {
      var to := S.Drawn(list, mine, place, busy, 0);
      if to < |list| {
        LeaveSound(list[to := S.Join(list[to], number, place)], on, number);
      }
    }
  }

  lemma {:induction false} StaysMore(a: seq<S.OneRead>, b: seq<S.OneRead>, but: set<nat>, more: set<nat>)
    requires OthersStay(a, b, but) && but <= more
    ensures OthersStay(a, b, more)
  {
  }

  lemma {:induction false} JoinsAt(
      stored: S.Stored, begun: seq<S.OneRead>, list: seq<S.OneRead>, minted: nat, at: nat, number: nat, place: nat,
      taken: nat, but: set<nat>)
    requires S.ListOk(stored, list, minted) && OthersStay(begun, list, but) && number in but
    requires place <= |stored.chunks| && taken == |S.Bytes(stored.chunks[..place])|
    ensures var (joined, id) := S.Joined(list, minted, at, number, place, taken);
      && S.ListOk(stored, joined, minted + 1) && OthersStay(begun, joined, but) && On(joined, id, number, place)
      && (Sound(list) ==> Sound(joined))
      && (at >= |list| || list[at].first <= place ==> !Past(joined, id, place))
  {
    JoinedStays(stored, list, minted, at, number, place, taken);
    hide On, S.ListOk, Sound;
    var joined := S.Joined(list, minted, at, number, place, taken).0;
    StaysMore(list, joined, {number}, but);
    StaysThrough(begun, list, joined, but);
  }

  /** The read picked reaches the place, as long as no look came in between. */
  lemma {:induction false} PickReaches(
      start: seq<S.OneRead>, moments: seq<seq<S.OneRead>>, list: seq<S.OneRead>, place: nat, at: nat)
    requires Meanwhile(start, moments) && |moments| == |start| + 1 == |list| + 1
    requires at == S.Pick(SeenOf(moments[..|list|], place))
    ensures at < |list| && (forall i :: 0 <= i < |moments| ==> moments[i] == list) ==> list[at].first <= place
  {
    var seen := SeenOf(moments[..|list|], place);
    if at < |list| {
      assert seen[at].reaches == S.Reaches(moments[at][at], place);
    }
  }

  lemma {:induction false} MetMore(
      start: seq<S.OneRead>, moments: seq<seq<S.OneRead>>, before: seq<S.OneRead>, after: seq<S.OneRead>)
    requires |moments| > 0 && Meanwhile(start, moments) && moments[|moments| - 1] == before && Alike(before, after)
    ensures Meanwhile(start, moments + [after])
  {
    AlikeThrough(start, before, after);
    forall i | 0 <= i < |moments|
      ensures Alike(moments[i], after)
    {
      if i < |moments| - 1 {
        AlikeThrough(moments[i], before, after);
      }
    }
  }

  /** What a joining departure leaves: of the reads it met, each looked at once, it joined the one it picked. */
  ghost predicate Chosen(
      start: seq<S.OneRead>, minted: nat, moments: seq<seq<S.OneRead>>, number: nat, place: nat, taken: nat,
      list: seq<S.OneRead>, id: nat)
  {
    && |moments| == |start| + 1 && Meanwhile(start, moments)
    && (list, id) == S.Joined(moments[|start|], minted, S.Pick(SeenOf(moments[..|start|], place)), number, place, taken)
  }

  /** The Stream is as its record keeps it. */
  predicate Whole(stored: S.Stored) {
    |S.Bytes(stored.chunks)| == stored.length && |stored.chunks| <= S.MOST_CHUNKS
  }

  /** What a departure finds at `place` is the Stream's: its chunk there, or its end. */
  predicate Found(stored: S.Stored, place: nat, saw: S.Saw) {
    && (saw.SawChunk? ==> place < |stored.chunks| && saw.chunk == stored.chunks[place])
    && (saw.SawEnd? ==> place == |stored.chunks| && |S.Bytes(stored.chunks)| == stored.length)
    && (saw.SawBehind? ==> place < |stored.chunks|)
  }

  lemma {:induction false} TurnKeeps(
      stored: S.Stored, list: seq<S.OneRead>, minted: nat, at: nat, number: nat, place: nat, answers: bool)
    requires S.ListOk(stored, list, minted) && at < |list| && place <= |stored.chunks|
    requires number in list[at].readers && list[at].readers[number] == place
    ensures var (read, saw) := S.Looked(stored, list[at], number, place, answers);
      && S.ListOk(stored, list[at := read], minted) && OthersStay(list, list[at := read], {number})
      && read.id == list[at].id && S.Index(list[at := read], read.id) == at
      && number in read.readers && read.readers[number] == (if saw.SawChunk? then place + 1 else place)
      && Found(stored, place, saw)
      && (saw.ReadOn? ==> read.first <= place && TurnsLeft(stored, read) < TurnsLeft(stored, list[at]))
      && (saw.SawBehind? ==> list[at := read] == list && place < read.first)
      && (Sound(list) && answers && Whole(stored) ==> Sound(list[at := read]) && !saw.SawFailure?)
      && (!saw.SawBehind? && read != list[at] ==> read.first <= place)
  {
    var (read, saw) := S.Looked(stored, list[at], number, place, answers);
    S.LookKeepsRead(stored, list[at], number, place, answers);
    S.UpdatedKeepsList(stored, list, minted, at, read);
    UpdateStays(list, at, read, number);
    TurnFinds(stored, list[at], number, place, answers);
    if Sound(list) && answers && Whole(stored) {
      assert !read.failed;
    }
  }

  /** How many turns of its loop a departure may still read on. */
  function TurnsLeft(stored: S.Stored, read: S.OneRead): int {
    |stored.chunks| - read.at + if read.ended then 0 else 1
  }

  lemma {:induction false} TurnFinds(stored: S.Stored, read: S.OneRead, number: nat, place: nat, answers: bool)
    requires S.ReadOk(stored, read) && place <= |stored.chunks|
    ensures var (after, saw) := S.Looked(stored, read, number, place, answers);
      && (saw.ReadOn? ==> after.first <= place && TurnsLeft(stored, after) < TurnsLeft(stored, read))
      && (saw.SawBehind? ==> after == read && place < read.first && place < |stored.chunks|)
      && (!saw.SawBehind? && after != read ==> after.first <= place)
      && (!read.failed && answers && Whole(stored) ==> !after.failed && !saw.SawFailure?)
  {
    assert stored.chunks[..|stored.chunks|] == stored.chunks;
  }

  /** Another departure's look: the reads stay alike, and every departure but that one where it was. */
  lemma {:induction false} LookElsewhere(
      stored: S.Stored, list: seq<S.OneRead>, minted: nat, at: nat, number: nat, answers: bool)
    requires S.ListOk(stored, list, minted) && at < |list| && number in list[at].readers
    ensures var read := S.Looked(stored, list[at], number, list[at].readers[number], answers).0;
      && S.ListOk(stored, list[at := read], minted) && Alike(list, list[at := read])
      && OthersStay(list, list[at := read], {number})
      && (Sound(list) && answers && Whole(stored) ==> Sound(list[at := read]))
  {
    var place := list[at].readers[number];
    var (read, saw) := S.Looked(stored, list[at], number, place, answers);
    S.LookKeepsRead(stored, list[at], number, place, answers);
    S.GoesOnFrom(stored, list[at], number, place, answers);
    if !list[at].failed && answers && Whole(stored) {
      LookUnfailed(stored, list[at], number, place, answers);
    }
    assert Sound(list) ==> !list[at].failed;
    var next: nat := if saw.SawChunk? then place + 1 else place;
    assert read.readers == list[at].readers[number := next];
    hide S.Looked, S.ReadOk, Alike, Sound, Whole, OthersStay, On, S.Index;
    assert number in read.readers;
    S.UpdatedKeepsList(stored, list, minted, at, read);
    UpdateStays(list, at, read, number);
    ReadAlike(list, at, number, next, read);
  }

  lemma {:induction false} ReadAlike(list: seq<S.OneRead>, at: nat, number: nat, place: nat, read: S.OneRead)
    requires at < |list| && number in list[at].readers && read.readers == list[at].readers[number := place]
    requires read.id == list[at].id && read.first >= list[at].first
    ensures Alike(list, list[at := read]) && (Sound(list) && !read.failed ==> Sound(list[at := read]))
  {
    assert read.readers.Keys == list[at].readers.Keys;
  }

  lemma {:induction false} LookUnfailed(stored: S.Stored, read: S.OneRead, number: nat, place: nat, answers: bool)
    requires S.ReadOk(stored, read) && !read.failed && answers && Whole(stored)
    ensures !S.Looked(stored, read, number, place, answers).0.failed
  {
    assert stored.chunks[..|stored.chunks|] == stored.chunks;
  }

  /** The reads of one Stream (`Shared`). */
  class Shared {
    const stored: S.Stored
    var list: seq<S.OneRead>
    var minted: nat
    var numbered: nat

    ghost predicate Valid()
      reads this
    {
      S.ListOk(stored, list, minted)
    }

    constructor (stored: S.Stored)
      ensures Valid() && this.stored == stored && list == [] && numbered == 0
    {
      this.stored := stored;
      list, minted, numbered := [], 0, 0;
    }

    method Leave(id: nat, number: nat)
      modifies this`list
      ensures list == S.Leave(old(list), id, number)
    {
      var at := 0;
      while at < |list| && list[at].id != id
        invariant at <= |list| && forall j :: 0 <= j < at ==> list[j].id != id
      {
        at := at + 1;
      }
      assert at == S.Index(list, id);
      if at < |list| {
        var left := list[at].(readers := list[at].readers - {number});
        if left.readers == map[] {
          list := S.Removed(list, at);
        } else {
          list := list[at := left];
        }
      }
    }

    /** What the other departures take meanwhile: any number of the looks yet to come, `rest` still to. */
    method Elsewhere(looks: seq<Turn>, number: nat, refused: set<nat>) returns (rest: seq<Turn>)
      requires Valid()
      modifies this`list
      ensures Valid() && Alike(old(list), list) && OthersStay(old(list), list, Lookers(looks) - {number})
      ensures Fewer(rest, looks)
      ensures |rest| == |looks| ==> list == old(list)
      ensures Sound(old(list)) && refused == {} && Whole(stored) ==> Sound(list)
    {
      var n: nat :| n <= |looks|;
      var i := 0;
      while i < n
        invariant i <= n && Valid() && Alike(old(list), list)
        invariant OthersStay(old(list), list, Lookers(looks) - {number})
        invariant i == 0 ==> list == old(list)
        invariant Sound(old(list)) && refused == {} && Whole(stored) ==> Sound(list)
      {
        ghost var before := list;
        Turned(looks[i], number, refused);
        assert looks[i].number in Lookers(looks);
        AlikeThrough(old(list), before, list);
        StaysMore(before, list, {looks[i].number} - {number}, Lookers(looks) - {number});
        StaysThrough(old(list), before, list, Lookers(looks) - {number});
        i := i + 1;
      }
      rest := looks[n..];
    }

    /** One look of another departure, where it is on that read. */
    method Turned(turn: Turn, number: nat, refused: set<nat>)
      requires Valid()
      modifies this`list
      ensures Valid() && Alike(old(list), list) && OthersStay(old(list), list, {turn.number} - {number})
      ensures Sound(old(list)) && refused == {} && Whole(stored) ==> Sound(list)
    {
      var at := turn.at;
      if turn.number != number && at < |list| && turn.number in list[at].readers {
        LookElsewhere(stored, list, minted, at, turn.number, list[at].at !in refused);
        assert {turn.number} - {number} == {turn.number};
        var read := S.Looked(stored, list[at], turn.number, list[at].readers[turn.number], list[at].at !in refused).0;
        list := list[at := read];
      }
    }

    /**
     * Departure `number`, having left `left`, takes from the read it picks: the first of
     * those most departures read of the ones that reached its place as it looked at each,
     * or one opened for it. The others go on taking meanwhile; where none does, the read
     * it joins stands at its place or before.
     */
    method Joined(left: Option<nat>, number: nat, place: nat, taken: nat, looks: seq<Turn>, refused: set<nat>)
      returns (id: nat, rest: seq<Turn>, ghost moments: seq<seq<S.OneRead>>)
      requires Valid()
      requires place <= |stored.chunks| && taken == |S.Bytes(stored.chunks[..place])|
      modifies this`list, this`minted
      ensures Valid() && minted == old(minted) + 1
      ensures Chosen(Without(old(list), left, number), old(minted), moments, number, place, taken, list, id)
      ensures OthersStay(old(list), list, {number} + Lookers(looks)) && On(list, id, number, place)
      ensures Fewer(rest, looks)
      ensures |rest| == |looks| ==> !Past(list, id, place)
      ensures Sound(old(list)) && refused == {} && Whole(stored) ==> Sound(list)
    {
      LeavingKeeps(stored, list, minted, left, number);
      StaysMore(list, Without(list, left, number), {number}, {number} + Lookers(looks));
      if left.Some? {
        Leave(left.value, number);
      }
      ghost var start := list;
      id, rest, moments := Join(number, place, taken, looks, refused);
      StaysThrough(old(list), start, list, {number} + Lookers(looks));
    }

    method Join(number: nat, place: nat, taken: nat, looks: seq<Turn>, refused: set<nat>)
      returns (id: nat, rest: seq<Turn>, ghost moments: seq<seq<S.OneRead>>)
      requires Valid()
      requires place <= |stored.chunks| && taken == |S.Bytes(stored.chunks[..place])|
      modifies this`list, this`minted
      ensures Valid() && minted == old(minted) + 1
      ensures Chosen(old(list), old(minted), moments, number, place, taken, list, id)
      ensures OthersStay(old(list), list, {number} + Lookers(looks)) && On(list, id, number, place)
      ensures Fewer(rest, looks)
      ensures |rest| == |looks| ==> !Past(list, id, place)
      ensures Sound(old(list)) && refused == {} && Whole(stored) ==> Sound(list)
    {
      hide OthersStay, Sound, Whole, S.ListOk, Meanwhile, On, Past;
      var best: Option<(nat, nat)>;
      best, rest, moments := Search(number, place, looks, refused);
      ghost var last := list;
      var at := if best.None? then |list| else best.value.1;
      JoinsAt(stored, old(list), list, minted, at, number, place, taken, {number} + Lookers(looks));
      PickReaches(old(list), moments, list, place, at);
      if best.None? {
        id := minted;
        list := list + [S.Join(S.Opened(minted, place, taken), number, place)];
      } else {
        id := list[at].id;
        list := list[at := S.Join(list[at], number, place)];
      }
      minted := minted + 1;
    }

    /** Each read looked at in turn: how many take from the one picked and where it is, None where none reached. */
    method Search(number: nat, place: nat, looks: seq<Turn>, refused: set<nat>)
      returns (best: Option<(nat, nat)>, rest: seq<Turn>, ghost moments: seq<seq<S.OneRead>>)
      requires Valid()
      modifies this`list
      ensures Valid() && Alike(old(list), list)
      ensures |moments| == |list| + 1 && moments[|list|] == list && Meanwhile(old(list), moments)
      ensures best == Picked(moments[..|list|], place)
      ensures OthersStay(old(list), list, {number} + Lookers(looks))
      ensures Fewer(rest, looks)
      ensures |rest| == |looks| ==> list == old(list) && forall i :: 0 <= i < |moments| ==> moments[i] == list
      ensures Sound(old(list)) && refused == {} && Whole(stored) ==> Sound(list)
    {
      hide OthersStay, Sound, Whole, S.Reaches, Picked, Meanwhile, S.ListOk;
      NonePicked(place);
      best, moments := None, [];
      rest := Met(looks, looks, number, refused);
      MetFirst(old(list), list);
      assert moments + [list] == [list];
      var i := 0;
      while i < |list|
        invariant i <= |list| == |old(list)| && Valid() && Alike(old(list), list)
        invariant |moments| == i && Meanwhile(old(list), moments + [list])
        invariant forall k :: 0 <= k < i ==> |moments[k]| == |old(list)|
        invariant best == Picked(moments, place)
        invariant OthersStay(old(list), list, {number} + Lookers(looks))
        invariant Fewer(rest, looks)
        invariant |rest| == |looks| ==> list == old(list) && forall k :: 0 <= k < |moments| ==> moments[k] == list
        invariant Sound(old(list)) && refused == {} && Whole(stored) ==> Sound(list)
        decreases |old(list)| - i
      {
        ghost var met := moments + [list];
        PicksNext(moments, list, place);
        if S.Reaches(list[i], place) && (best.None? || |list[i].readers| > best.value.0) {
          best := Some((|list[i].readers|, i));
        }
        ghost var before := list;
        rest := Met(rest, looks, number, refused);
        MetMore(old(list), met, before, list);
        AlikeThrough(old(list), before, list);
        StaysThrough(old(list), before, list, {number} + Lookers(looks));
        moments := met;
        i := i + 1;
      }
      moments := moments + [list];
      assert moments[..|list|] == moments[..i];
    }

    /** The other departures' looks between two of a joining one's. */
    method Met(left: seq<Turn>, looks: seq<Turn>, number: nat, refused: set<nat>) returns (rest: seq<Turn>)
      requires Valid() && Fewer(left, looks)
      modifies this`list
      ensures Valid() && Alike(old(list), list) && OthersStay(old(list), list, {number} + Lookers(looks))
      ensures Fewer(rest, left)
      ensures |rest| == |left| ==> list == old(list)
      ensures Sound(old(list)) && refused == {} && Whole(stored) ==> Sound(list)
    {
      rest := Elsewhere(left, number, refused);
      StaysMore(old(list), list, Lookers(left) - {number}, {number} + Lookers(looks));
    }

    /** Departure `number` moved to a read that more take from, or as many and opened before; `busy` ones passed over. */
    method Moved(on: nat, number: nat, place: nat, busy: set<nat>) returns (to: Option<nat>)
      requires Valid() && On(list, on, number, place)
      modifies this`list
      ensures Valid()
      ensures match S.MovedTo(old(list), on, number, place, busy)
        case None => to.None? && list == old(list)
        case Some((moved, id)) => to == Some(id) && list == moved
      ensures Kept(old(list), list, {number}) && On(list, if to.Some? then to.value else on, number, place)
    {
      MovingKeeps(stored, list, minted, on, number, place, busy);
      if |list| < 2 {
        return None;
      }
      to := Move(on, number, place, busy);
    }

    method Move(on: nat, number: nat, place: nat, busy: set<nat>) returns (to: Option<nat>)
      requires |list| >= 2 && S.Index(list, on) < |list|
      modifies this`list
      ensures match S.MovedTo(old(list), on, number, place, busy)
        case None => to.None? && list == old(list)
        case Some((moved, id)) => to == Some(id) && list == moved
    {
      var mine := S.Index(list, on);
      var i := 0;
      while i < |list| && !S.Draws(list, mine, place, busy, i)
        invariant i <= |list|
        invariant S.Drawn(list, mine, place, busy, 0) == S.Drawn(list, mine, place, busy, i)
      {
        i := i + 1;
      }
      if i == |list| {
        return None;
      }
      to := Some(list[i].id);
      list := list[i := S.Join(list[i], number, place)];
      Leave(on, number);
    }

    /**
     * What departure `number` finds at its place: the chunk there, read from Xmip
     * Storage where no departure took it yet, the others looking at theirs between
     * its turns. Xmip Storage refuses the chunks in `refused` and answers every other.
     */
    method Chunk(id: nat, number: nat, place: nat, looks: seq<Turn>, refused: set<nat>)
      returns (saw: S.Saw, rest: seq<Turn>)
      requires Valid() && On(list, id, number, place) && place <= |stored.chunks|
      modifies this`list
      ensures Valid() && OthersStay(old(list), list, {number} + Lookers(looks))
      ensures On(list, id, number, if saw.SawChunk? then place + 1 else place)
      ensures !saw.ReadOn?
      ensures Found(stored, place, saw)
      ensures Fewer(rest, looks)
      ensures saw.SawBehind? ==> Past(list, id, place) && (|rest| == |looks| ==> list == old(list))
      ensures Sound(old(list)) && refused == {} && Whole(stored) ==> Sound(list) && !saw.SawFailure?
    {
      saw, rest := S.ReadOn, looks;
      var reading := true;
      while reading
        invariant Valid() && OthersStay(old(list), list, {number} + Lookers(looks))
        invariant On(list, id, number, if saw.SawChunk? then place + 1 else place)
        invariant Fewer(rest, looks)
        invariant reading <==> saw.ReadOn?
        invariant |rest| < |looks| || list == old(list) || !Past(list, id, place)
        invariant Found(stored, place, saw)
        invariant saw.SawBehind? ==> Past(list, id, place)
        invariant Sound(old(list)) && refused == {} && Whole(stored) ==> Sound(list) && !saw.SawFailure?
        decreases reading, |rest|, TurnsLeft(stored, list[S.Index(list, id)])
      {
        saw, rest := OneTurn(id, number, place, rest, looks, refused, old(list));
        reading := saw == S.ReadOn;
      }
    }

    /** One turn of the loop, after what the others take meanwhile. */
    method OneTurn(
        id: nat, number: nat, place: nat, left: seq<Turn>, looks: seq<Turn>, refused: set<nat>, ghost begun: seq<S.OneRead>)
      returns (saw: S.Saw, rest: seq<Turn>)
      requires Valid() && On(list, id, number, place) && place <= |stored.chunks|
      requires Fewer(left, looks)
      requires OthersStay(begun, list, {number} + Lookers(looks))
      modifies this`list
      ensures Valid() && OthersStay(begun, list, {number} + Lookers(looks))
      ensures On(list, id, number, if saw.SawChunk? then place + 1 else place)
      ensures Fewer(rest, left)
      ensures Found(stored, place, saw) && (saw.SawBehind? ==> Past(list, id, place))
      ensures |rest| == |left| && saw.SawBehind? ==> list == old(list)
      ensures |rest| == |left| ==> list == old(list) || !Past(list, id, place)
      ensures saw.ReadOn? && |rest| == |left| ==>
        TurnsLeft(stored, list[S.Index(list, id)]) < TurnsLeft(stored, old(list[S.Index(list, id)]))
      ensures Sound(old(list)) && refused == {} && Whole(stored) ==> Sound(list) && !saw.SawFailure?
    {
      rest := Elsewhere(left, number, refused);
      ghost var met := list;
      StaysMore(old(list), list, Lookers(left) - {number}, {number} + Lookers(looks));
      StaysThrough(begun, old(list), list, {number} + Lookers(looks));
      assert On(list, id, number, place);
      var at := S.Index(list, id);
      TurnKeeps(stored, list, minted, at, number, place, list[at].at !in refused);
      var r := S.Looked(stored, list[at], number, place, list[at].at !in refused);
      StaysMore(met, list[at := r.0], {number}, {number} + Lookers(looks));
      StaysThrough(begun, met, list[at := r.0], {number} + Lookers(looks));
      list := list[at := r.0];
      saw := r.1;
    }
  }

  datatype Failure = PastItsChunks | ReadFailed

  /** One departure's read of its Stream (`Lent`): `returned` is what it has given so far. */
  class Lent {
    const shared: Shared
    const number: nat
    var read: nat
    var place: nat
    var taken: nat
    var held: Option<S.Chunk>
    var at: nat
    ghost var returned: seq<S.Byte>

    ghost function View(): S.Lent
      reads this
    {
      S.Lent(read, place, taken, if held.Some? then held.value else [], if held.Some? then at else 0, returned, false)
    }

    ghost predicate Valid()
      reads this, shared
    {
      && shared.Valid()
      && On(shared.list, read, number, place)
      && S.LentOk(shared.stored, View())
    }

    /** `StreamShare::reader`: one more departure of the Stream, from its start. */
    constructor (shared: Shared, looks: seq<Turn>, refused: set<nat>)
      requires shared.Valid()
      modifies shared
      ensures Valid() && this.shared == shared && returned == []
      ensures number == old(shared.numbered) && shared.numbered == number + 1
      ensures OthersStay(old(shared.list), shared.list, {number} + Lookers(looks))
    {
      this.shared, this.number := shared, shared.numbered;
      place, taken, held, at, returned := 0, 0, None, 0, [];
      new;
      hide OthersStay, On;
      shared.numbered := shared.numbered + 1;
      assert shared.stored.chunks[..0] == [];
      var joined, rest, _ := shared.Joined(None, number, 0, 0, looks, refused);
      read := joined;
    }

    /** The next chunk, once moved to a read that more departures take from; None at the Stream's end. */
    method Take(busy: set<nat>, looks: seq<Turn>, refused: set<nat>)
      returns (r: Result<Option<S.Chunk>, Failure>, rest: seq<Turn>)
      requires shared.Valid() && On(shared.list, read, number, place)
      requires place <= |shared.stored.chunks| && taken == |S.Bytes(shared.stored.chunks[..place])|
      modifies this`read, shared`list, shared`minted
      ensures shared.Valid() && OthersStay(old(shared.list), shared.list, {number} + Lookers(looks))
      ensures On(shared.list, read, number, if r.Ok? && r.value.Some? then place + 1 else place)
      ensures r.Ok? ==> Found(shared.stored, place, if r.value.Some? then S.SawChunk(r.value.value) else S.SawEnd)
      ensures Fewer(rest, looks)
      ensures Sound(old(shared.list)) && refused == {} && Whole(shared.stored) ==> Sound(shared.list) && r.Ok?
    {
      hide OthersStay, On, Sound, Found, S.ListOk;
      ghost var begun, but := shared.list, {number} + Lookers(looks);
      var to := shared.Moved(read, number, place, busy);
      if to.Some? {
        read := to.value;
      }
      rest := looks;
      StaysMore(begun, shared.list, {number}, but);
      while true
        invariant shared.Valid() && On(shared.list, read, number, place)
        invariant OthersStay(begun, shared.list, but) && Fewer(rest, looks)
        invariant Sound(begun) && refused == {} && Whole(shared.stored) ==> Sound(shared.list)
        decreases |rest|, Past(shared.list, read, place)
      {
        var saw: S.Saw;
        saw, rest := TakeOnce(rest, refused, begun, but);
        match saw {
          case SawChunk(chunk) => return Ok(Some(chunk)), rest;
          case SawEnd => return Ok(None), rest;
          case SawFailure => return Err(ReadFailed), rest;
          case SawBehind =>
            if place >= S.MOST_CHUNKS {
              return Err(PastItsChunks), rest;
            }
        }
      }
    }

    /** What it finds at its place now; fallen behind its read, it is on the one it joined. */
    method TakeOnce(looks: seq<Turn>, refused: set<nat>, ghost begun: seq<S.OneRead>, ghost but: set<nat>)
      returns (saw: S.Saw, rest: seq<Turn>)
      requires shared.Valid() && On(shared.list, read, number, place)
      requires place <= |shared.stored.chunks| && taken == |S.Bytes(shared.stored.chunks[..place])|
      requires OthersStay(begun, shared.list, but) && {number} + Lookers(looks) <= but
      modifies this`read, shared`list, shared`minted
      ensures shared.Valid() && OthersStay(begun, shared.list, but)
      ensures On(shared.list, read, number, if saw.SawChunk? then place + 1 else place)
      ensures Found(shared.stored, place, saw) && !saw.ReadOn? && Fewer(rest, looks)
      ensures saw.SawBehind? && place >= S.MOST_CHUNKS ==> !Whole(shared.stored)
      ensures saw.SawBehind? && place < S.MOST_CHUNKS && |rest| == |looks| ==>
        old(Past(shared.list, read, place)) && !Past(shared.list, read, place)
      ensures Sound(old(shared.list)) && refused == {} && Whole(shared.stored) ==> Sound(shared.list) && !saw.SawFailure?
    {
      hide OthersStay, On, Sound, S.ListOk;
      ghost var before := shared.list;
      saw, rest := shared.Chunk(read, number, place, looks, refused);
      StaysMore(before, shared.list, {number} + Lookers(looks), but);
      StaysThrough(begun, before, shared.list, but);
      if saw.SawBehind? && place < S.MOST_CHUNKS {
        before := shared.list;
        ghost var left := rest;
        var joined, after, _ := shared.Joined(Some(read), number, place, taken, rest, refused);
        read, rest := joined, after;
        StaysMore(before, shared.list, {number} + Lookers(left), but);
        StaysThrough(begun, before, shared.list, but);
      }
    }

    /**
     * `Read::read`: the bytes that follow what was given, as many as `out` has room
     * for and the chunk held still has; none only at the Stream's end, or where
     * `out` is empty. A failure gives nothing, and there is one only where Xmip
     * Storage refuses or has not what the record keeps.
     */
    method Read(out: array<S.Byte>, busy: set<nat>, looks: seq<Turn>, refused: set<nat>) returns (r: Result<nat, Failure>)
      requires Valid()
      modifies this`read, this`place, this`taken, this`held, this`at, this`returned, shared`list, shared`minted, out
      ensures Valid() && OthersStay(old(shared.list), shared.list, {number} + Lookers(looks))
      ensures r.Ok? ==> r.value <= out.Length && out[r.value..] == old(out[r.value..])
      ensures returned == old(returned) + if r.Ok? then out[..r.value] else []
      ensures returned <= S.Bytes(shared.stored.chunks)
      ensures r == Ok(0) && out.Length > 0 ==>
        returned == S.Bytes(shared.stored.chunks) && |returned| == shared.stored.length
      ensures Sound(old(shared.list)) && refused == {} && Whole(shared.stored) ==> r.Ok? && Sound(shared.list)
    {
      GivenSoFar(shared.stored, View());
      if out.Length == 0 {
        return Ok(0);
      }
      var next := Ready(busy, looks, refused);
      match next {
        case Err(failure) => r := Err(failure);
        case Ok(false) =>
          AtItsEnd(shared.stored, View());
          r := Ok(0);
        case Ok(true) =>
          var n := if out.Length <= |held.value| - at then out.Length else |held.value| - at;
          Give(out, n);
          GivenSoFar(shared.stored, View());
          r := Ok(n);
      }
    }

    /** A chunk held with bytes still to give, empty ones passed over; false at the Stream's end. */
    method Ready(busy: set<nat>, looks: seq<Turn>, refused: set<nat>) returns (r: Result<bool, Failure>)
      requires Valid()
      modifies this`read, this`place, this`taken, this`held, this`at, shared`list, shared`minted
      ensures Valid() && OthersStay(old(shared.list), shared.list, {number} + Lookers(looks))
      ensures r == Ok(true) ==> held.Some? && at < |held.value|
      ensures r == Ok(false) ==> held.None? && Found(shared.stored, place, S.SawEnd)
      ensures Sound(old(shared.list)) && refused == {} && Whole(shared.stored) ==> Sound(shared.list) && r.Ok?
    {
      var rest := looks;
      r := Ok(true);
      while r == Ok(true) && (held.None? || at == |held.value|)
        invariant Valid() && OthersStay(old(shared.list), shared.list, {number} + Lookers(looks))
        invariant Fewer(rest, looks)
        invariant r == Ok(false) ==> held.None? && Found(shared.stored, place, S.SawEnd)
        invariant Sound(old(shared.list)) && refused == {} && Whole(shared.stored) ==> Sound(shared.list) && r.Ok?
        decreases r == Ok(true), |shared.stored.chunks| - place
      {
        ghost var before, left := shared.list, rest;
        r, rest := Next(busy, rest, refused);
        StaysMore(before, shared.list, {number} + Lookers(left), {number} + Lookers(looks));
        StaysThrough(old(shared.list), before, shared.list, {number} + Lookers(looks));
      }
    }

    /** The chunk held let go of, and the next one held in its place where there is one. */
    method Next(busy: set<nat>, looks: seq<Turn>, refused: set<nat>) returns (r: Result<bool, Failure>, rest: seq<Turn>)
      requires Valid() && (held.None? || at == |held.value|)
      modifies this`read, this`place, this`taken, this`held, this`at, shared`list, shared`minted
      ensures Valid() && OthersStay(old(shared.list), shared.list, {number} + Lookers(looks))
      ensures Fewer(rest, looks)
      ensures r == Ok(true) ==> held.Some? && at == 0 && place == old(place) + 1
      ensures r == Ok(false) ==> held.None? && Found(shared.stored, place, S.SawEnd)
      ensures Sound(old(shared.list)) && refused == {} && Whole(shared.stored) ==> Sound(shared.list) && r.Ok?
    {
      hide OthersStay, On, Sound, Whole, S.ListOk;
      ghost var lent := View();
      assert lent.given == |lent.held|;
      LetGo(shared.stored, lent);
      held := None;
      var next: Result<Option<S.Chunk>, Failure>;
      next, rest := Take(busy, looks, refused);
      match next {
        case Err(failure) => r := Err(failure);
        case Ok(None) => r := Ok(false);
        case Ok(Some(chunk)) =>
          S.TakenNext(shared.stored, lent, chunk);
          taken, place, held, at := taken + |chunk|, place + 1, Some(chunk), 0;
          r := Ok(true);
      }
    }

    /** `n` bytes of the chunk held given. */
    method Give(out: array<S.Byte>, n: nat)
      requires Valid() && held.Some? && at + n <= |held.value| && n <= out.Length
      modifies this`at, this`returned, out
      ensures Valid()
      ensures out[n..] == old(out[n..]) && returned == old(returned) + out[..n]
    {
      hide On, S.ListOk;
      GivesOn(shared.stored, View(), n);
      Copy(out, held.value, at, n);
      returned := returned + out[..n];
      at := at + n;
    }
  }

  /** `n` bytes of `chunk` from `at` on written to the start of `out`. */
  method Copy(out: array<S.Byte>, chunk: S.Chunk, at: nat, n: nat)
    requires at + n <= |chunk| && n <= out.Length
    modifies out
    ensures out[..n] == chunk[at..at + n] && out[n..] == old(out[n..])
  {
    forall i | 0 <= i < n {
      out[i] := chunk[at + i];
    }
  }

  lemma {:induction false} GivesOn(stored: S.Stored, lent: S.Lent, n: nat)
    requires S.LentOk(stored, lent) && lent.given + n <= |lent.held|
    ensures S.LentOk(stored, S.Gave(lent, n))
  {
    assert lent.held[lent.given..] == lent.held[lent.given..lent.given + n] + lent.held[lent.given + n..];
  }

  lemma {:induction false} LetGo(stored: S.Stored, lent: S.Lent)
    requires S.LentOk(stored, lent) && lent.given == |lent.held|
    ensures S.LentOk(stored, lent.(held := [], given := 0))
  {
    assert lent.returned + [] == lent.returned;
  }

  lemma {:induction false} AtItsEnd(stored: S.Stored, lent: S.Lent)
    requires S.LentOk(stored, lent) && lent.held == [] && Found(stored, lent.place, S.SawEnd)
    ensures lent.returned == S.Bytes(stored.chunks) && |lent.returned| == stored.length
  {
    assert lent.returned + [] == lent.returned;
    assert stored.chunks[..|stored.chunks|] == stored.chunks;
  }

  lemma {:induction false} GivenSoFar(stored: S.Stored, lent: S.Lent)
    requires S.LentOk(stored, lent)
    ensures lent.returned <= S.Bytes(stored.chunks)
  {
    S.BytesPrefix(stored.chunks, lent.place);
  }
}
