/**
 * Shared reads of one Stream (src/stream_share.rs, src/stream_share/one_read.rs):
 * several departures read the same Stream, each chunk lent from a windowed read
 * of the Ledger that reaches its place. They join a read, fall behind it, move
 * to another and leave under the lock of the reads, and take chunks under the
 * lock of their read alone: between the reads a joining departure looks at, and
 * before it joins the one it picked, the others go on taking.
 */
module StreamShare {
  import opened Wrappers
  import opened Sums

  type Byte = bv8

  type Chunk = seq<Byte>

  const STREAM_CHUNKS: nat := 6

  /** The chunks kept for each departure beside the first. */
  const KEPT_PER_READER: nat := STREAM_CHUNKS - 1

  /** The chunks a Stream may have: a chunk's place is kept in 32 bits. */
  const MOST_CHUNKS: nat := 0x1_0000_0000

  /** A Stream as the Ledger holds it: its chunks up to the first it has not, and the length its record keeps. */
  datatype Stored = Stored(chunks: seq<Chunk>, length: nat)

  /**
   * One read: the chunk it reads next and the bytes read before it, the last
   * chunks it took and the place of their first, and each departure taking from
   * it with the place of the chunk it takes next.
   */
  datatype OneRead = OneRead(
    id: nat,
    at: nat,
    bytes: nat,
    first: nat,
    window: seq<Chunk>,
    ended: bool,
    failed: bool,
    readers: map<nat, nat>)

  function Kept(readers: nat): nat {
    Max(KEPT_PER_READER * (if readers > 0 then readers - 1 else 0), 1)
  }

  /** Whether one more departure, at `place`, may take from `read`. */
  predicate Reaches(read: OneRead, place: nat) {
    && read.first <= place
    && !read.failed
    && (place - read.first <= |read.window| || place - read.first < Kept(|read.readers| + 1))
  }

  /** What Xmip Storage's chunk reader answers at chunk `at`, `bytes` read before it. */
  datatype Answer = Read(chunk: Chunk) | End | Refused

  function NextChunk(stored: Stored, at: nat, bytes: nat, answers: bool): Answer {
    if !answers then Refused
    else if at < |stored.chunks| then Read(stored.chunks[at])
    else if bytes == stored.length then End
    else Refused
  }

  // ---- The list of reads, in the order they were opened ----

  /** Where the read `id` is in `reads`, their number where it is not. */
  function Index(list: seq<OneRead>, id: nat): (at: nat)
    ensures at <= |list|
    ensures at < |list| ==> list[at].id == id
    ensures forall j :: 0 <= j < at ==> list[j].id != id
  {
    if list == [] then 0 else if list[0].id == id then 0 else 1 + Index(list[1..], id)
  }

  function Join(read: OneRead, number: nat, place: nat): OneRead {
    read.(readers := read.readers[number := place])
  }

  /** Departure `number` gone from the read `id`, which is let go of once none takes from it. */
  function Leave(list: seq<OneRead>, id: nat, number: nat): seq<OneRead> {
    var at := Index(list, id);
    if at == |list| then list else
    var left := list[at].(readers := list[at].readers - {number});
    if left.readers == map[] then Removed(list, at) else list[at := left]
  }

  /** One read as a joining departure found it: how many took from it, and whether it reached its place. */
  datatype Seen = Seen(readers: nat, reaches: bool)

  /** Of the reads seen, the first of those most departures read that reached; their number where none did. */
  function Pick(seen: seq<Seen>): (best: nat)
    ensures best <= |seen|
    ensures best < |seen| ==> seen[best].reaches
    ensures best < |seen| ==> forall j :: 0 <= j < |seen| && seen[j].reaches ==>
      seen[j].readers <= seen[best].readers && (seen[j].readers == seen[best].readers ==> best <= j)
    ensures best == |seen| ==> forall j :: 0 <= j < |seen| ==> !seen[j].reaches
  {
    if seen == [] then 0 else
    var n := |seen| - 1;
    var best := Pick(seen[..n]);
    if best == n then (if seen[n].reaches then n else n + 1)
    else if seen[n].reaches && seen[n].readers > seen[best].readers then n
    else best
  }

  function Opened(id: nat, place: nat, taken: nat): OneRead {
    OneRead(id, place, taken, place, [], false, false, map[])
  }

  /** The reads once departure `number` at `place` joined the one at `best`, or one opened for it; and which it joined. */
  function Joined(list: seq<OneRead>, minted: nat, best: nat, number: nat, place: nat, taken: nat): (seq<OneRead>, nat) {
    if best >= |list| then (list + [Join(Opened(minted, place, taken), number, place)], minted)
    else (list[best := Join(list[best], number, place)], list[best].id)
  }

  /** Whether a departure at `place` on the read at `mine` moves to the one at `to`, `busy` ones passed over. */
  predicate Draws(list: seq<OneRead>, mine: nat, place: nat, busy: set<nat>, to: nat)
    requires mine < |list| && to < |list|
  {
    var others := if |list[mine].readers| > 0 then |list[mine].readers| - 1 else 0;
    && to != mine
    && list[to].id !in busy
    && (|list[to].readers| > others || (|list[to].readers| == others && to < mine))
    && Reaches(list[to], place)
  }

  /** The first read from `n` on that draws it; their number where none does. */
  function Drawn(list: seq<OneRead>, mine: nat, place: nat, busy: set<nat>, n: nat): (to: nat)
    requires mine < |list| && n <= |list|
    ensures n <= to <= |list|
    ensures to < |list| ==> Draws(list, mine, place, busy, to)
    ensures forall j :: n <= j < to ==> !Draws(list, mine, place, busy, j)
    decreases |list| - n
  {
    if n == |list| then n
    else if Draws(list, mine, place, busy, n) then n
    else Drawn(list, mine, place, busy, n + 1)
  }

  /** The reads once departure `number` moved from `on` to one that draws it, and that one; None where it stays. */
  function MovedTo(list: seq<OneRead>, on: nat, number: nat, place: nat, busy: set<nat>): Option<(seq<OneRead>, nat)> {
    var mine := Index(list, on);
    if |list| < 2 || mine == |list| then None else
    var to := Drawn(list, mine, place, busy, 0);
    if to == |list| then None
    else Some((Leave(list[to := Join(list[to], number, place)], on, number), list[to].id))
  }

  /** One look of departure `number` at `place` at its read: what it finds there. */
  datatype Saw = SawChunk(chunk: Chunk) | SawEnd | SawBehind | SawFailure | ReadOn

  /** One turn of `chunk`'s loop, its waits apart: the read after it, and what was found. */
  function Looked(stored: Stored, read: OneRead, number: nat, place: nat, answers: bool): (OneRead, Saw) {
    if read.failed then (read, SawFailure)
    else if place < read.first then (read, SawBehind)
    else if place - read.first < |read.window| then
      var chunk := read.window[place - read.first];
      (if number in read.readers then Join(read, number, place + 1) else read, SawChunk(chunk))
    else if read.ended then (read, SawEnd)
    else
      match NextChunk(stored, read.at, read.bytes, answers)
      case Read(chunk) => (Trimmed(read.(window := read.window + [chunk], at := read.at + 1, bytes := read.bytes + |chunk|)), ReadOn)
      case End => (read.(ended := true), ReadOn)
      case Refused => (read.(failed := true), SawFailure)
  }

  /** The window down to what the read may keep. */
  function Trimmed(read: OneRead): OneRead {
    var over := |read.window| - Kept(|read.readers|);
    if over <= 0 then read else read.(window := read.window[over..], first := read.first + over)
  }

  // ---- The departures of one Stream ----

  /**
   * One departure's read: its place, the bytes of the chunks it took, the chunk it
   * holds and how far, what it gave, and whether it is taking its next chunk (`take`),
   * its move before it decided.
   */
  datatype Lent = Lent(read: nat, place: nat, taken: nat, held: Chunk, given: nat, returned: seq<Byte>, taking: bool)

  /** A departure on no read, choosing one under the lock of the reads: those it looked at so far. */
  datatype Joining = Joining(number: nat, lent: Lent, seen: seq<Seen>)

  datatype State = State(
    stored: Stored,
    list: seq<OneRead>,
    minted: nat,
    numbered: nat,
    lents: map<nat, Lent>,
    /** The one departure joining: it holds the lock of the reads. */
    joining: Option<Joining>)

  datatype Step =
    | Open
    | FallBehind(number: nat)
    | Consider
    | JoinRead
    | Move(number: nat, busy: set<nat>)
    | Look(number: nat, answers: bool)
    | Give(number: nat, count: nat)
    | Drop(number: nat)

  function Initial(stored: Stored): State {
    State(stored, [], 0, 0, map[], None)
  }

  /** Whether departure `number` is taking its next chunk. */
  predicate Taking(s: State, number: nat) {
    number in s.lents && s.lents[number].taking
  }

  /** Whether departure `number` holds nothing more to give, and is not taking its next chunk yet. */
  predicate Through(s: State, number: nat) {
    number in s.lents && !s.lents[number].taking && s.lents[number].given == |s.lents[number].held|
  }

  /** A departure once `count` more bytes of the chunk it holds were given. */
  function Gave(lent: Lent, count: nat): Lent
    requires lent.given + count <= |lent.held|
  {
    lent.(given := lent.given + count, returned := lent.returned + lent.held[lent.given..lent.given + count])
  }

  /**
   * A departure once it saw what its read had at its place: a chunk seen is held, to
   * give from its start. It is through with its take but where its read went on, or is
   * past its place, which it then joins another at.
   */
  function Took(lent: Lent, saw: Saw): Lent {
    match saw
    case SawChunk(chunk) =>
      lent.(place := lent.place + 1, taken := lent.taken + |chunk|, held := chunk, given := 0, taking := false)
    case ReadOn => lent
    case SawBehind => lent.(taking := lent.place < MOST_CHUNKS)
    case _ => lent.(taking := false)
  }

  function AfterLook(s: State, number: nat, at: nat, read: OneRead, saw: Saw): State
    requires number in s.lents && at < |s.list|
  {
    s.(list := s.list[at := read], lents := s.lents[number := Took(s.lents[number], saw)])
  }

  /** Whether departure `number` is behind its read: its read has let go of the chunk it takes next, and has not failed. */
  predicate IsBehind(s: State, number: nat) {
    && number in s.lents
    && var at := Index(s.list, s.lents[number].read);
      at < |s.list| && s.lents[number].place < s.list[at].first && !s.list[at].failed
  }

  function Next(s: State, step: Step): Option<State> {
    match step
    case Open =>
      if s.joining.Some? then None
      else Some(s.(numbered := s.numbered + 1, joining := Some(Joining(s.numbered, Lent(0, 0, 0, [], 0, [], false), []))))
    case FallBehind(number) =>
      if s.joining.Some? || !Taking(s, number) || !IsBehind(s, number) || s.lents[number].place >= MOST_CHUNKS then None else
      var lent := s.lents[number];
      Some(s.(list := Leave(s.list, lent.read, number), lents := s.lents - {number},
              joining := Some(Joining(number, lent, []))))
    case Consider =>
      if s.joining.None? || |s.joining.value.seen| >= |s.list| then None
      else Some(s.(joining := Some(Considered(s.list, s.joining.value))))
    case JoinRead =>
      if s.joining.None? || |s.joining.value.seen| < |s.list| then None else
      var j := s.joining.value;
      var (list, id) := Joined(s.list, s.minted, Pick(j.seen), j.number, j.lent.place, j.lent.taken);
      Some(s.(list := list, minted := s.minted + 1, joining := None, lents := s.lents[j.number := j.lent.(read := id)]))
    case Move(number, busy) =>
      if s.joining.Some? || !Through(s, number) then None else
      var lent := s.lents[number];
      (match MovedTo(s.list, lent.read, number, lent.place, busy)
       case None => Some(s.(lents := s.lents[number := lent.(taking := true)]))
       case Some((list, to)) => Some(s.(list := list, lents := s.lents[number := lent.(read := to, taking := true)])))
    case Look(number, answers) =>
      if !Taking(s, number) || Index(s.list, s.lents[number].read) == |s.list| then None else
      var lent := s.lents[number];
      var at := Index(s.list, lent.read);
      var (read, saw) := Looked(s.stored, s.list[at], number, lent.place, answers);
      Some(AfterLook(s, number, at, read, saw))
    case Give(number, count) =>
      if number !in s.lents || count == 0 || s.lents[number].given + count > |s.lents[number].held| then None else
      var lent := s.lents[number];
      Some(s.(lents := s.lents[number := Gave(lent, count)]))
    case Drop(number) =>
      if s.joining.Some? || number !in s.lents || s.lents[number].taking then None
      else Some(s.(list := Leave(s.list, s.lents[number].read, number), lents := s.lents - {number}))
  }

  /** The next read looked at by a joining departure, as it is then. */
  function Considered(list: seq<OneRead>, j: Joining): Joining
    requires |j.seen| < |list|
  {
    var read := list[|j.seen|];
    j.(seen := j.seen + [Seen(|read.readers|, Reaches(read, j.lent.place))])
  }

  function Run(s: State, steps: seq<Step>): Option<State> {
    if steps == [] then Some(s)
    else match Run(s, steps[..|steps| - 1])
      case None => None
      case Some(t) => Next(t, steps[|steps| - 1])
  }

  /** The bytes of chunks one after another. */
  function Bytes(chunks: seq<Chunk>): seq<Byte> {
    if chunks == [] then [] else Bytes(chunks[..|chunks| - 1]) + chunks[|chunks| - 1]
  }

  // ---- What every reachable state keeps ----

  /** A read's window is the Stream's own chunks, and it has read the bytes before where it stands. */
  ghost predicate ReadOk(stored: Stored, read: OneRead) {
    && read.first + |read.window| == read.at <= |stored.chunks|
    && read.window == stored.chunks[read.first..read.at]
    && read.bytes == |Bytes(stored.chunks[..read.at])|
    && (read.ended ==> read.at == |stored.chunks| && read.bytes == stored.length)
  }

  ghost predicate Sorted(list: seq<OneRead>) {
    forall i, j :: 0 <= i < j < |list| ==> list[i].id < list[j].id
  }

  ghost predicate ListOk(stored: Stored, list: seq<OneRead>, minted: nat) {
    && Sorted(list)
    && (forall i :: 0 <= i < |list| ==>
          ReadOk(stored, list[i]) && list[i].id < minted && list[i].readers != map[])
  }

  /** The reads by what they are called, wherever in the list they are. */
  function Shelf(list: seq<OneRead>): map<nat, OneRead> {
    if list == [] then map[] else Shelf(list[..|list| - 1])[list[|list| - 1].id := list[|list| - 1]]
  }

  /** What a departure gave and what it still holds are the Stream's bytes before its place. */
  ghost predicate LentOk(stored: Stored, lent: Lent) {
    && lent.place <= |stored.chunks| && lent.given <= |lent.held| && (lent.taking ==> lent.given == |lent.held|)
    && lent.taken == |Bytes(stored.chunks[..lent.place])|
    && lent.returned + lent.held[lent.given..] == Bytes(stored.chunks[..lent.place])
  }

  /** Every departure takes from one read, and every read knows exactly the departures that do. */
  ghost predicate Attached(shelf: map<nat, OneRead>, lents: map<nat, Lent>) {
    && (forall n :: n in lents ==>
          var id := lents[n].read;
          id in shelf && n in shelf[id].readers && shelf[id].readers[n] == lents[n].place)
    && (forall id, n :: id in shelf && n in shelf[id].readers ==> n in lents && lents[n].read == id)
  }

  ghost predicate LentsOk(stored: Stored, lents: map<nat, Lent>, numbered: nat) {
    forall n :: n in lents ==> n < numbered && LentOk(stored, lents[n])
  }

  ghost predicate Inv(s: State) {
    && ListOk(s.stored, s.list, s.minted)
    && LentsOk(s.stored, s.lents, s.numbered)
    && Attached(Shelf(s.list), s.lents)
    && (s.joining.Some? ==> JoiningOk(s, s.joining.value))
  }

  /** A joining departure is on no read, and what it gave is the Stream's. */
  ghost predicate JoiningOk(s: State, j: Joining) {
    && j.number < s.numbered && j.number !in s.lents && |j.seen| <= |s.list|
    && LentOk(s.stored, j.lent) && j.lent.given == |j.lent.held|
  }

  /** In a list in the order its reads were opened, each is found by name, and only they are. */
  lemma {:induction false} OnShelf(list: seq<OneRead>, id: nat)
    requires Sorted(list)
    ensures id in Shelf(list) <==> Index(list, id) < |list|
    ensures id in Shelf(list) ==> Shelf(list)[id] == list[Index(list, id)]
  {
    if list != [] {
      var n := |list| - 1;
      OnShelf(list[..n], id);
      IndexOfPrefix(list, n, id);
    }
  }

  lemma {:induction false} IndexOfPrefix(list: seq<OneRead>, n: nat, id: nat)
    requires Sorted(list) && n + 1 == |list|
    ensures Index(list[..n], id) < n ==> Index(list, id) == Index(list[..n], id)
    ensures Index(list[..n], id) == n ==> Index(list, id) == if list[n].id == id then n else |list|
  {
    var i, j := Index(list[..n], id), Index(list, id);
    if i < n {
      assert list[i].id == id;
    }
  }

  lemma {:induction false} UpdatedShelf(list: seq<OneRead>, at: nat, read: OneRead)
    requires Sorted(list) && at < |list| && read.id == list[at].id
    ensures Sorted(list[at := read])
    ensures Shelf(list[at := read]) == Shelf(list)[read.id := read]
    decreases |list|
  {
    var n := |list| - 1;
    if at < n {
      assert list[at := read][..n] == list[..n][at := read];
      UpdatedShelf(list[..n], at, read);
      assert list[n].id != read.id;
    } else {
      assert list[at := read][..n] == list[..n];
    }
  }

  lemma {:induction false} AppendedShelf(list: seq<OneRead>, read: OneRead)
    requires Sorted(list) && forall i :: 0 <= i < |list| ==> list[i].id < read.id
    ensures Sorted(list + [read]) && read.id !in Shelf(list)
    ensures Shelf(list + [read]) == Shelf(list)[read.id := read]
  {
    assert (list + [read])[..|list|] == list;
    OnShelf(list, read.id);
  }

  lemma {:induction false} RemovedShelf(list: seq<OneRead>, at: nat)
    requires Sorted(list) && at < |list|
    ensures Sorted(Removed(list, at))
    ensures Shelf(Removed(list, at)) == Shelf(list) - {list[at].id}
    decreases |list|
  {
    hide Sorted, Removed;
    var n := |list| - 1;
    RemovedPieces(list, at);
    if at < n {
      RemovedShelf(list[..n], at);
      RemoveElsewhere(Shelf(list[..n]), list[at].id, list[n]);
    } else {
      OnShelf(list[..n], list[at].id);
    }
  }

  function Removed(list: seq<OneRead>, at: nat): seq<OneRead>
    requires at < |list|
  {
    list[..at] + list[at + 1..]
  }

  lemma {:induction false} RemovedPieces(list: seq<OneRead>, at: nat)
    requires Sorted(list) && at < |list|
    ensures var n := |list| - 1;
      && Sorted(Removed(list, at)) && Sorted(list[..n])
      && (at < n ==> list[at].id != list[n].id && list[..n][at] == list[at])
      && (at < n ==> |Removed(list, at)| == n && Removed(list, at)[n - 1] == list[n])
      && (at < n ==> Removed(list, at)[..n - 1] == Removed(list[..n], at))
      && (at == n ==> Removed(list, at) == list[..n] && forall i :: 0 <= i < n ==> list[i].id != list[at].id)
  {
  }

  lemma {:induction false} RemoveElsewhere(shelf: map<nat, OneRead>, id: nat, read: OneRead)
    requires read.id != id
    ensures (shelf - {id})[read.id := read] == shelf[read.id := read] - {id}
  {
  }

  /** The reads by name once departure `number` left `from`. */
  function LeftShelf(shelf: map<nat, OneRead>, from: nat, number: nat): map<nat, OneRead>
    requires from in shelf
  {
    var left := shelf[from].(readers := shelf[from].readers - {number});
    if left.readers == map[] then shelf - {from} else shelf[from := left]
  }

  lemma {:induction false} LeaveShelf(stored: Stored, list: seq<OneRead>, minted: nat, from: nat, number: nat)
    requires ListOk(stored, list, minted) && from in Shelf(list)
    ensures ListOk(stored, Leave(list, from, number), minted)
    ensures Shelf(Leave(list, from, number)) == LeftShelf(Shelf(list), from, number)
  {
    hide Sorted, ReadOk, Removed;
    OnShelf(list, from);
    var at := Index(list, from);
    assert ReadOk(stored, list[at]);
    var left := list[at].(readers := list[at].readers - {number});
    if left.readers == map[] {
      RemovedShelf(list, at);
      RemovedKeepsList(stored, list, minted, at);
    } else {
      UpdatedShelf(list, at, left);
      StillOk(stored, list[at], left.readers);
      UpdatedKeepsList(stored, list, minted, at, left);
    }
  }

  lemma {:induction false} StillOk(stored: Stored, read: OneRead, readers: map<nat, nat>)
    requires ReadOk(stored, read)
    ensures ReadOk(stored, read.(readers := readers))
  {
  }

  lemma {:induction false} RemovedKeepsList(stored: Stored, list: seq<OneRead>, minted: nat, at: nat)
    requires ListOk(stored, list, minted) && at < |list|
    ensures ListOk(stored, Removed(list, at), minted)
  {
    hide ReadOk;
  }

  /** A departure leaving its read: the rest stay attached. */
  lemma {:induction false} LeaveDetaches(shelf: map<nat, OneRead>, lents: map<nat, Lent>, number: nat)
    requires Attached(shelf, lents) && number in lents
    ensures Attached(LeftShelf(shelf, lents[number].read, number), lents - {number})
  {
    var from := lents[number].read;
    forall n | n in lents - {number} && lents[n].read == from
      ensures n in shelf[from].readers - {number}
    {
    }
  }

  /** A departure not attached joining a read, there already or opened for it. */
  lemma {:induction false} JoinAttaches(shelf: map<nat, OneRead>, lents: map<nat, Lent>, read: OneRead, number: nat, lent: Lent)
    requires Attached(shelf, lents) && number !in lents && lent.read == read.id
    requires read.id in shelf ==> read.readers == shelf[read.id].readers[number := lent.place]
    requires read.id !in shelf ==> read.readers == map[number := lent.place]
    ensures Attached(shelf[read.id := read], lents[number := lent])
  {
  }

  lemma {:induction false} OpeningKeeps(
      stored: Stored, list: seq<OneRead>, minted: nat, lents: map<nat, Lent>, number: nat, lent: Lent)
    requires ListOk(stored, list, minted) && Attached(Shelf(list), lents) && number !in lents
    requires lent.place <= |stored.chunks| && lent.taken == |Bytes(stored.chunks[..lent.place])|
    ensures var joined := list + [Join(Opened(minted, lent.place, lent.taken), number, lent.place)];
      ListOk(stored, joined, minted + 1) && Attached(Shelf(joined), lents[number := lent.(read := minted)])
  {
    var read := Join(Opened(minted, lent.place, lent.taken), number, lent.place);
    assert ReadOk(stored, read) && number in read.readers;
    AppendedShelf(list, read);
    JoinAttaches(Shelf(list), lents, read, number, lent.(read := minted));
  }

  lemma {:induction false} JoiningOneKeeps(
      stored: Stored, list: seq<OneRead>, minted: nat, lents: map<nat, Lent>, number: nat, lent: Lent, at: nat)
    requires ListOk(stored, list, minted) && Attached(Shelf(list), lents) && number !in lents && at < |list|
    ensures var joined := list[at := Join(list[at], number, lent.place)];
      ListOk(stored, joined, minted + 1) && Attached(Shelf(joined), lents[number := lent.(read := list[at].id)])
  {
    var read := Join(list[at], number, lent.place);
    assert ReadOk(stored, read) && number in read.readers;
    UpdatedKeepsList(stored, list, minted, at, read);
    UpdatedShelf(list, at, read);
    OnShelfAt(list, at);
    JoinAttaches(Shelf(list), lents, read, number, lent.(read := read.id));
  }

  lemma {:induction false} OnShelfAt(list: seq<OneRead>, at: nat)
    requires Sorted(list) && at < |list|
    ensures list[at].id in Shelf(list) && Shelf(list)[list[at].id] == list[at]
    ensures Index(list, list[at].id) == at
  {
    OnShelf(list, list[at].id);
  }

  /** Moving: the departure is attached to the read it moved to, and no more to the one it left. */
  lemma {:induction false} MovingKeeps(
      stored: Stored, list: seq<OneRead>, minted: nat, lents: map<nat, Lent>, number: nat, busy: set<nat>)
    requires ListOk(stored, list, minted) && Attached(Shelf(list), lents) && number in lents
    ensures var lent := lents[number];
      match MovedTo(list, lent.read, number, lent.place, busy)
      case None => true
      case Some((moved, to)) =>
        ListOk(stored, moved, minted) && Attached(Shelf(moved), lents[number := lent.(read := to, taking := true)])
  {
    var lent := lents[number];
    OnShelf(list, lent.read);
    var mine := Index(list, lent.read);
    var to := Drawn(list, mine, lent.place, busy, 0);
    if |list| >= 2 && to < |list| {
      OnShelfAt(list, mine);
      OnShelfAt(list, to);
      MovingOneKeeps(stored, list, minted, lents, number, to);
    }
  }

  lemma {:induction false} MovingOneKeeps(
      stored: Stored, list: seq<OneRead>, minted: nat, lents: map<nat, Lent>, number: nat, to: nat)
    requires ListOk(stored, list, minted) && Attached(Shelf(list), lents) && number in lents
    requires to < |list| && list[to].id != lents[number].read
    ensures var moved := Leave(list[to := Join(list[to], number, lents[number].place)], lents[number].read, number);
      ListOk(stored, moved, minted) && Attached(Shelf(moved), lents[number := lents[number].(read := list[to].id, taking := true)])
  {
    var lent := lents[number];
    var joined := Join(list[to], number, lent.place);
    var list' := list[to := joined];
    assert ReadOk(stored, joined) && number in joined.readers;
    OnShelfAt(list, to);
    UpdatedShelf(list, to, joined);
    UpdatedKeepsList(stored, list, minted, to, joined);
    LeaveShelf(stored, list', minted, lent.read, number);
    MovingAttaches(Shelf(list), lents, joined, number);
  }

  lemma {:induction false} UpdatedKeepsList(stored: Stored, list: seq<OneRead>, minted: nat, at: nat, read: OneRead)
    requires ListOk(stored, list, minted) && at < |list|
    requires ReadOk(stored, read) && read.id == list[at].id && read.readers != map[]
    ensures ListOk(stored, list[at := read], minted)
  {
  }

  lemma {:induction false} MovingAttaches(shelf: map<nat, OneRead>, lents: map<nat, Lent>, joined: OneRead, number: nat)
    requires Attached(shelf, lents) && number in lents
    requires joined.id in shelf && joined.id != lents[number].read
    requires joined.readers == shelf[joined.id].readers[number := lents[number].place]
    ensures Attached(LeftShelf(shelf[joined.id := joined], lents[number].read, number),
                     lents[number := lents[number].(read := joined.id, taking := true)])
  {
    var lent := lents[number];
    LeaveDetaches(shelf, lents, number);
    LeftElsewhere(shelf, joined, lent.read, number);
    JoinAttaches(LeftShelf(shelf, lent.read, number), lents - {number}, joined, number, lent.(read := joined.id, taking := true));
    Replaced(lents, number, lent.(read := joined.id, taking := true));
  }

  lemma {:induction false} Replaced(lents: map<nat, Lent>, number: nat, lent: Lent)
    ensures (lents - {number})[number := lent] == lents[number := lent]
  {
  }

  /** Leaving one read and joining another do not meet. */
  lemma {:induction false} LeftElsewhere(shelf: map<nat, OneRead>, joined: OneRead, from: nat, number: nat)
    requires from in shelf && joined.id in shelf && joined.id != from
    ensures LeftShelf(shelf[joined.id := joined], from, number) == LeftShelf(shelf, from, number)[joined.id := joined]
    ensures joined.id in LeftShelf(shelf, from, number)
    ensures LeftShelf(shelf, from, number)[joined.id] == shelf[joined.id]
  {
  }

  /** What a look leaves: the read as before but for what it took, and what was seen, the Stream's. */
  ghost predicate LookOk(stored: Stored, read: OneRead, number: nat, place: nat, after: OneRead, saw: Saw) {
    && ReadOk(stored, after) && after.id == read.id
    && (saw.SawChunk? ==> place < |stored.chunks| && saw.chunk == stored.chunks[place])
    && (saw.SawChunk? ==> after == Join(read, number, place + 1))
    && (!saw.SawChunk? ==> after.readers == read.readers)
    && (saw.SawBehind? ==> after == read)
    && (saw.SawEnd? && place <= |stored.chunks| ==> place == |stored.chunks|)
    && (saw.SawEnd? ==> |Bytes(stored.chunks)| == stored.length)
  }

  /** A look keeps a read's window the Stream's own, and the chunk it lends is the Stream's at that place. */
  lemma {:induction false} LookKeepsRead(stored: Stored, read: OneRead, number: nat, place: nat, answers: bool)
    requires ReadOk(stored, read) && number in read.readers && read.readers[number] == place
    ensures var (after, saw) := Looked(stored, read, number, place, answers);
      LookOk(stored, read, number, place, after, saw)
  {
    if read.failed || place < read.first || place - read.first < |read.window| || read.ended {
      SeeingReads(stored, read, number, place, answers);
    } else {
      ReadsOn(stored, read, number, place, answers);
    }
  }

  lemma {:induction false} SeeingReads(stored: Stored, read: OneRead, number: nat, place: nat, answers: bool)
    requires ReadOk(stored, read) && number in read.readers && read.readers[number] == place
    requires read.failed || place < read.first || place - read.first < |read.window| || read.ended
    ensures var (after, saw) := Looked(stored, read, number, place, answers);
      LookOk(stored, read, number, place, after, saw)
  {
    assert stored.chunks[..|stored.chunks|] == stored.chunks;
  }

  lemma {:induction false} ReadsOn(stored: Stored, read: OneRead, number: nat, place: nat, answers: bool)
    requires ReadOk(stored, read)
    requires !read.failed && place >= read.first && place - read.first >= |read.window| && !read.ended
    ensures var (after, saw) := Looked(stored, read, number, place, answers);
      LookOk(stored, read, number, place, after, saw)
  {
    hide Trimmed;
    match NextChunk(stored, read.at, read.bytes, answers)
    case Read(chunk) =>
      hide ReadOk;
      ReadingKeeps(stored, read);
      TrimmedOnly(read.(window := read.window + [chunk], at := read.at + 1, bytes := read.bytes + |chunk|));
    case End =>
    case Refused =>
  }

  lemma {:induction false} TrimmedOnly(read: OneRead)
    ensures Trimmed(read) == read.(window := Trimmed(read).window, first := Trimmed(read).first)
  {
  }

  /** One chunk more read, and as many let go of at the other end as the read may not keep. */
  lemma {:induction false} ReadingKeeps(stored: Stored, read: OneRead)
    requires ReadOk(stored, read) && read.at < |stored.chunks| && !read.ended
    ensures var chunk := stored.chunks[read.at];
      ReadOk(stored, Trimmed(read.(window := read.window + [chunk], at := read.at + 1, bytes := read.bytes + |chunk|)))
  {
    hide ReadOk, Trimmed, Bytes;
    OneMoreRead(stored, read);
    var chunk := stored.chunks[read.at];
    TrimmingKeeps(stored, read.(window := read.window + [chunk], at := read.at + 1, bytes := read.bytes + |chunk|));
  }

  lemma {:induction false} OneMoreRead(stored: Stored, read: OneRead)
    requires ReadOk(stored, read) && read.at < |stored.chunks| && !read.ended
    ensures var chunk := stored.chunks[read.at];
      ReadOk(stored, read.(window := read.window + [chunk], at := read.at + 1, bytes := read.bytes + |chunk|))
  {
    hide Bytes;
    BytesNext(stored.chunks, read.at);
    Longer(stored.chunks, read.first, read.at);
  }

  lemma {:induction false} Longer(chunks: seq<Chunk>, first: nat, at: nat)
    requires first <= at < |chunks|
    ensures chunks[first..at] + [chunks[at]] == chunks[first..at + 1]
  {
  }

  lemma {:induction false} TrimmingKeeps(stored: Stored, read: OneRead)
    requires ReadOk(stored, read)
    ensures ReadOk(stored, Trimmed(read))
  {
    var over := |read.window| - Kept(|read.readers|);
    if over > 0 {
      assert read.window[over..] == stored.chunks[read.first + over..read.at];
    }
  }

  lemma {:induction false} BytesNext(chunks: seq<Chunk>, n: nat)
    requires n < |chunks|
    ensures Bytes(chunks[..n + 1]) == Bytes(chunks[..n]) + chunks[n]
  {
    assert chunks[..n + 1][..n] == chunks[..n];
  }

  /** A look that did not fall behind: its read and its departure as they were left stay attached. */
  lemma {:induction false} SeeingKeeps(
      stored: Stored, list: seq<OneRead>, minted: nat, lents: map<nat, Lent>, number: nat, read: OneRead, lent: Lent)
    requires ListOk(stored, list, minted) && Attached(Shelf(list), lents) && number in lents
    requires lent.read == lents[number].read == read.id && ReadOk(stored, read)
    requires read.readers == Shelf(list)[read.id].readers[number := lent.place]
    ensures Index(list, read.id) < |list|
    ensures var list' := list[Index(list, read.id) := read];
      ListOk(stored, list', minted) && Attached(Shelf(list'), lents[number := lent])
  {
    OnShelf(list, read.id);
    assert number in read.readers;
    var at := Index(list, read.id);
    UpdatedKeepsList(stored, list, minted, at, read);
    UpdatedShelf(list, at, read);
    PlaceGoesOn(Shelf(list), lents, read, number, lent);
  }

  /** What a departure knows of its read, and its read of it. */
  lemma {:induction false} OnItsRead(s: State, number: nat) returns (at: nat)
    requires Inv(s) && number in s.lents
    ensures at == Index(s.list, s.lents[number].read) < |s.list|
    ensures Shelf(s.list)[s.lents[number].read] == s.list[at] && s.list[at].id == s.lents[number].read
    ensures ReadOk(s.stored, s.list[at]) && number in s.list[at].readers
    ensures s.list[at].readers[number] == s.lents[number].place
    ensures LentOk(s.stored, s.lents[number]) && s.lents[number].read in Shelf(s.list)
  {
    OnShelf(s.list, s.lents[number].read);
    at := Index(s.list, s.lents[number].read);
  }

  lemma {:induction false} LentsUpdated(stored: Stored, lents: map<nat, Lent>, numbered: nat, number: nat, lent: Lent)
    requires LentsOk(stored, lents, numbered) && number < numbered && LentOk(stored, lent)
    ensures LentsOk(stored, lents[number := lent], numbered)
  {
  }

  lemma {:induction false} LookingKeeps(s: State, number: nat, answers: bool)
    requires Inv(s) && Taking(s, number) && Index(s.list, s.lents[number].read) < |s.list|
    ensures Inv(Next(s, Look(number, answers)).value)
  {
    hide ListOk, LentsOk, Attached, ReadOk, LentOk, Next;
    var lent := s.lents[number];
    var at := OnItsRead(s, number);
    var (read, saw) := Looked(s.stored, s.list[at], number, lent.place, answers);
    LookKeepsRead(s.stored, s.list[at], number, lent.place, answers);
    LookingKeepsLent(s, number, lent, read, saw);
    LookIsAfterLook(s, number, answers);
  }

  lemma {:induction false} LookIsAfterLook(s: State, number: nat, answers: bool)
    requires Taking(s, number) && Index(s.list, s.lents[number].read) < |s.list|
    ensures var at := Index(s.list, s.lents[number].read);
      var (read, saw) := Looked(s.stored, s.list[at], number, s.lents[number].place, answers);
      Next(s, Look(number, answers)) == Some(AfterLook(s, number, at, read, saw))
  {
    var at := Index(s.list, s.lents[number].read);
    var (read, saw) := Looked(s.stored, s.list[at], number, s.lents[number].place, answers);
    assert Next(s, Look(number, answers)) == Some(AfterLook(s, number, at, read, saw));
  }

  lemma {:induction false} LookingKeepsLent(s: State, number: nat, lent: Lent, read: OneRead, saw: Saw)
    requires Inv(s) && Taking(s, number) && lent == s.lents[number]
    requires read.id == lent.read && ReadOk(s.stored, read)
    requires lent.read in Shelf(s.list) && Shelf(s.list)[lent.read].readers == Shelf(s.list)[lent.read].readers[number := lent.place]
    requires saw.SawChunk? ==> lent.place < |s.stored.chunks| && saw.chunk == s.stored.chunks[lent.place]
    requires read.readers == Shelf(s.list)[lent.read].readers[number := Took(lent, saw).place]
    ensures Index(s.list, lent.read) < |s.list|
    ensures Inv(s.(list := s.list[Index(s.list, lent.read) := read], lents := s.lents[number := Took(lent, saw)]))
  {
    if saw.SawChunk? {
      TakenNext(s.stored, lent, saw.chunk);
    }
    LentsUpdated(s.stored, s.lents, s.numbered, number, Took(lent, saw));
    SeeingKeeps(s.stored, s.list, s.minted, s.lents, number, read, Took(lent, saw));
  }

  lemma {:induction false} FallingKeeps(s: State, number: nat)
    requires Inv(s) && Next(s, FallBehind(number)).Some?
    ensures Inv(Next(s, FallBehind(number)).value)
  {
    hide ListOk, Attached, Leave, LentOk;
    var _ := OnItsRead(s, number);
    var lent := s.lents[number];
    LeaveShelf(s.stored, s.list, s.minted, lent.read, number);
    LeaveDetaches(Shelf(s.list), s.lents, number);
  }

  lemma {:induction false} JoiningKeeps(s: State)
    requires Inv(s) && Next(s, JoinRead).Some?
    ensures Inv(Next(s, JoinRead).value)
  {
    hide ListOk, Attached, LentsOk, Pick, Shelf, Index, Leave;
    var j := s.joining.value;
    assert LentOk(s.stored, j.lent) && LentOk(s.stored, j.lent.(read := s.minted));
    if Pick(j.seen) >= |s.list| {
      OpeningKeeps(s.stored, s.list, s.minted, s.lents, j.number, j.lent);
    } else {
      JoiningOneKeeps(s.stored, s.list, s.minted, s.lents, j.number, j.lent, Pick(j.seen));
    }
    var id := Joined(s.list, s.minted, Pick(j.seen), j.number, j.lent.place, j.lent.taken).1;
    LentsUpdated(s.stored, s.lents, s.numbered, j.number, j.lent.(read := id));
  }

  lemma {:induction false} TakenNext(stored: Stored, lent: Lent, chunk: Chunk)
    requires LentOk(stored, lent) && lent.given == |lent.held|
    requires lent.place < |stored.chunks| && chunk == stored.chunks[lent.place]
    ensures LentOk(stored, Took(lent, SawChunk(chunk)))
  {
    BytesNext(stored.chunks, lent.place);
    assert lent.returned + [] == lent.returned;
  }

  /** A departure's place as its read knows it, whether it went on or not. */
  lemma {:induction false} PlaceGoesOn(
      shelf: map<nat, OneRead>, lents: map<nat, Lent>, read: OneRead, number: nat, lent: Lent)
    requires Attached(shelf, lents) && number in lents && lent.read == lents[number].read == read.id
    requires read.readers == shelf[read.id].readers[number := lent.place]
    ensures Attached(shelf[read.id := read], lents[number := lent])
  {
  }

  lemma {:induction false} NextKeepsInv(s: State, step: Step, t: State)
    requires Inv(s) && Next(s, step) == Some(t)
    ensures Inv(t) && t.stored == s.stored
  {
    hide ListOk, LentsOk, Attached, Inv;
    match step
    case Open => OpenKeeps(s);
    case FallBehind(number) => FallingKeeps(s, number);
    case Consider => ConsideringKeeps(s);
    case JoinRead => JoiningKeeps(s);
    case Move(number, busy) => MoveKeeps(s, number, busy);
    case Look(number, answers) => LookingKeeps(s, number, answers);
    case Give(number, count) => GiveKeeps(s, number, count);
    case Drop(number) => DropKeeps(s, number);
  }

  lemma {:induction false} OpenKeeps(s: State)
    requires Inv(s) && s.joining.None?
    ensures Inv(Next(s, Open).value)
  {
    hide ListOk, Attached;
    assert s.stored.chunks[..0] == [];
  }

  lemma {:induction false} ConsideringKeeps(s: State)
    requires Inv(s) && Next(s, Consider).Some?
    ensures Inv(Next(s, Consider).value)
  {
    hide ListOk, LentsOk, Attached, LentOk;
  }

  lemma {:induction false} MoveKeeps(s: State, number: nat, busy: set<nat>)
    requires Inv(s) && Through(s, number) && s.joining.None?
    ensures Inv(Next(s, Move(number, busy)).value)
  {
    hide ListOk, Attached;
    var begun := s.lents[number].(taking := true);
    LentsUpdated(s.stored, s.lents, s.numbered, number, begun);
    StaysAttached(Shelf(s.list), s.lents, number, begun);
    MovingKeeps(s.stored, s.list, s.minted, s.lents, number, busy);
    var moved := MovedTo(s.list, s.lents[number].read, number, s.lents[number].place, busy);
    if moved.Some? {
      LentsUpdated(s.stored, s.lents, s.numbered, number, begun.(read := moved.value.1));
    }
  }

  lemma {:induction false} DropKeeps(s: State, number: nat)
    requires Inv(s) && number in s.lents && !s.lents[number].taking && s.joining.None?
    ensures Inv(Next(s, Drop(number)).value)
  {
    hide ListOk, Attached;
    var _ := OnItsRead(s, number);
    LeaveShelf(s.stored, s.list, s.minted, s.lents[number].read, number);
    LeaveDetaches(Shelf(s.list), s.lents, number);
  }

  lemma {:induction false} GiveKeeps(s: State, number: nat, count: nat)
    requires Inv(s) && Next(s, Give(number, count)).Some?
    ensures Inv(Next(s, Give(number, count)).value)
  {
    hide ListOk, Attached;
    var lent := s.lents[number];
    var after := Gave(lent, count);
    assert lent.held[lent.given..] == lent.held[lent.given..lent.given + count] + lent.held[lent.given + count..];
    LentsUpdated(s.stored, s.lents, s.numbered, number, after);
    StaysAttached(Shelf(s.list), s.lents, number, after);
  }

  lemma {:induction false} StaysAttached(shelf: map<nat, OneRead>, lents: map<nat, Lent>, number: nat, lent: Lent)
    requires Attached(shelf, lents) && number in lents
    requires lent.read == lents[number].read && lent.place == lents[number].place
    ensures Attached(shelf, lents[number := lent])
  {
  }

  lemma {:induction false} RunKeepsInv(stored: Stored, steps: seq<Step>, s: State)
    requires Run(Initial(stored), steps) == Some(s)
    ensures Inv(s) && s.stored == stored
  {
    if steps != [] {
      var before := Run(Initial(stored), steps[..|steps| - 1]).value;
      RunKeepsInv(stored, steps[..|steps| - 1], before);
      NextKeepsInv(before, steps[|steps| - 1], s);
    }
  }

  /** Departure `number`, on a read or joining one. */
  function LentOf(s: State, number: nat): Option<Lent> {
    if number in s.lents then Some(s.lents[number])
    else if s.joining.Some? && s.joining.value.number == number then Some(s.joining.value.lent)
    else None
  }

  /**
   * Shared reads refine a plain read: however departures open, take, fall behind,
   * join, move and leave, what each has given is a prefix of the Stream's bytes, what
   * it took is the length of the chunks before its place, and the chunk it holds
   * continues exactly where it is.
   */
  lemma {:induction false} RefinesAPlainRead(stored: Stored, steps: seq<Step>, s: State, number: nat)
    requires Run(Initial(stored), steps) == Some(s) && LentOf(s, number).Some?
    ensures var lent := LentOf(s, number).value;
      && lent.place <= |stored.chunks| && lent.given <= |lent.held|
      && lent.returned <= Bytes(stored.chunks)
      && lent.taken == |Bytes(stored.chunks[..lent.place])|
      && lent.returned + lent.held[lent.given..] == Bytes(stored.chunks[..lent.place])
  {
    RunKeepsInv(stored, steps, s);
    BytesPrefix(stored.chunks, LentOf(s, number).value.place);
  }

  lemma {:induction false} BytesPrefix(chunks: seq<Chunk>, n: nat)
    requires n <= |chunks|
    ensures Bytes(chunks[..n]) <= Bytes(chunks)
    decreases |chunks| - n
  {
    if n == |chunks| {
      assert chunks[..n] == chunks;
    } else {
      BytesNext(chunks, n);
      BytesPrefix(chunks, n + 1);
    }
  }

  /** What departure `number` sees at its next look. */
  function Sees(s: State, number: nat, answers: bool): Option<Saw> {
    if !Taking(s, number) || Index(s.list, s.lents[number].read) == |s.list| then None
    else Some(Looked(s.stored, s.list[Index(s.list, s.lents[number].read)], number, s.lents[number].place, answers).1)
  }

  /**
   * A read answers its end only at the Stream's end, every byte given and as many
   * as its record keeps; and one not as kept is never read as a shorter Stream.
   */
  lemma {:induction false} EndsOnlyAtTheEnd(stored: Stored, steps: seq<Step>, s: State, number: nat, answers: bool)
    requires Run(Initial(stored), steps) == Some(s) && Sees(s, number, answers) == Some(SawEnd)
    ensures s.lents[number].returned == Bytes(stored.chunks)
    ensures |s.lents[number].returned| == stored.length
  {
    hide Inv, Run, Sees;
    RunKeepsInv(stored, steps, s);
    EndSeen(s, number, answers);
  }

  lemma {:induction false} EndSeen(s: State, number: nat, answers: bool)
    requires Inv(s) && Sees(s, number, answers) == Some(SawEnd)
    ensures s.lents[number].returned == Bytes(s.stored.chunks)
    ensures |s.lents[number].returned| == s.stored.length
  {
    hide Inv, Looked, ReadOk, Index;
    var at := OnItsRead(s, number);
    LookKeepsRead(s.stored, s.list[at], number, s.lents[number].place, answers);
    assert s.stored.chunks[..|s.stored.chunks|] == s.stored.chunks;
    assert s.lents[number].returned + [] == s.lents[number].returned;
  }

  // ---- Whether a departure is behind the read it joins ----

  /** Whether the read a joining departure looks at next is the one it picks, so far. */
  predicate Picks(s: State) {
    && s.joining.Some? && |s.joining.value.seen| < |s.list|
    && Pick(Considered(s.list, s.joining.value).seen) == |s.joining.value.seen|
  }

  /** Whether a step lets go of the chunk a joining departure is to take next, on the read it picked. */
  predicate LooksPast(s: State, step: Step) {
    && s.joining.Some? && Next(s, step).Some?
    && var (best, place, t) := (Pick(s.joining.value.seen), s.joining.value.lent.place, Next(s, step).value);
      && best < |s.joining.value.seen| && best < |s.list| && best < |t.list|
      && s.list[best].first <= place < t.list[best].first
  }

  /** Whether the read picked has been gone past once a step was taken, having been `before` it. */
  predicate PastAfter(before: bool, s: State, step: Step) {
    match step
    case Look(_, _) => before || LooksPast(s, step)
    case Consider => before && !Picks(s)
    case Open => false
    case FallBehind(_) => false
    case JoinRead => false
    case _ => before
  }

  /** Whether, since a joining departure picked the read it has, a look of another went past its place there. */
  predicate Overran(stored: Stored, steps: seq<Step>) {
    steps != [] &&
    var past := steps[..|steps| - 1];
    var before := Run(Initial(stored), past);
    before.Some? && PastAfter(Overran(stored, past), before.value, steps[|steps| - 1])
  }

  /** The read picked stands past the place of the departure joining it. */
  predicate PickedPast(s: State) {
    && s.joining.Some?
    && var best := Pick(s.joining.value.seen);
      best < |s.joining.value.seen| && best < |s.list| && s.joining.value.lent.place < s.list[best].first
  }

  lemma {:induction false} OverranIsPast(stored: Stored, steps: seq<Step>, s: State)
    requires Run(Initial(stored), steps) == Some(s)
    ensures Overran(stored, steps) <==> PickedPast(s)
  {
    if steps != [] {
      var past, last := steps[..|steps| - 1], steps[|steps| - 1];
      var before := Run(Initial(stored), past).value;
      OverranIsPast(stored, past, before);
      RunKeepsInv(stored, past, before);
      hide Inv, Run, PickedPast, PastAfter;
      PastChanges(before, last, s);
    }
  }

  lemma {:induction false} PastChanges(s: State, step: Step, t: State)
    requires Inv(s) && Next(s, step) == Some(t)
    ensures PickedPast(t) <==> PastAfter(PickedPast(s), s, step)
  {
    match step
    case Look(number, answers) => LookingPast(s, number, answers, t);
    case Consider => ConsideringPast(s, t);
    case _ =>
  }

  /** A look only goes on: no read it leaves stands before where it stood. */
  lemma {:induction false} LookingPast(s: State, number: nat, answers: bool, t: State)
    requires Inv(s) && Next(s, Look(number, answers)) == Some(t)
    ensures |t.list| == |s.list| && t.joining == s.joining
    ensures forall i :: 0 <= i < |s.list| ==> s.list[i].first <= t.list[i].first
    ensures PickedPast(t) <==> PickedPast(s) || LooksPast(s, Look(number, answers))
  {
    hide Inv;
    var at := Index(s.list, s.lents[number].read);
    GoesOnFrom(s.stored, s.list[at], number, s.lents[number].place, answers);
  }

  lemma {:induction false} GoesOnFrom(stored: Stored, read: OneRead, number: nat, place: nat, answers: bool)
    ensures Looked(stored, read, number, place, answers).0.first >= read.first
  {
  }

  lemma {:induction false} ConsideringPast(s: State, t: State)
    requires Next(s, Consider) == Some(t)
    ensures PickedPast(t) <==> PickedPast(s) && !Picks(s)
  {
    var seen, seen' := s.joining.value.seen, t.joining.value.seen;
    assert seen'[..|seen|] == seen;
  }

  /**
   * A departure is behind the read it joined exactly where a look of another went
   * past its place there between its picking that read and its joining it, and the
   * read has not failed: never one opened for it, nor one nobody took from meanwhile.
   * Fallen behind before, it is taking its chunk still, and that is what it sees.
   */
  lemma {:induction false} BehindAgainExactly(stored: Stored, steps: seq<Step>, s: State, t: State, answers: bool)
    requires Run(Initial(stored), steps) == Some(s) && Next(s, JoinRead) == Some(t)
    ensures IsBehind(t, s.joining.value.number) <==> Overran(stored, steps) && !PickFailed(s)
    ensures Sees(t, s.joining.value.number, answers).Some? <==> s.joining.value.lent.taking
    ensures s.joining.value.lent.taking ==>
      (Sees(t, s.joining.value.number, answers) == Some(SawBehind) <==> Overran(stored, steps) && !PickFailed(s))
  {
    hide Run, Overran, Inv;
    RunKeepsInv(stored, steps, s);
    OverranIsPast(stored, steps, s);
    JoinedSees(s, t, answers);
  }

  /** The read picked has failed. */
  predicate PickFailed(s: State) {
    s.joining.Some? && Pick(s.joining.value.seen) < |s.list| && s.list[Pick(s.joining.value.seen)].failed
  }

  lemma {:induction false} JoinedSees(s: State, t: State, answers: bool)
    requires Inv(s) && Next(s, JoinRead) == Some(t)
    ensures IsBehind(t, s.joining.value.number) <==> PickedPast(s) && !PickFailed(s)
    ensures Sees(t, s.joining.value.number, answers).Some? <==> s.joining.value.lent.taking
    ensures s.joining.value.lent.taking ==>
      (Sees(t, s.joining.value.number, answers) == Some(SawBehind) <==> IsBehind(t, s.joining.value.number))
  {
    hide Inv, Looked, Sees;
    JoiningKeeps(s);
    var j := s.joining.value;
    var best := Pick(j.seen);
    JoinedIs(s, t);
    FoundThere(t, best);
    BehindSeen(t, best, j.number, answers);
  }

  lemma {:induction false} JoinedIs(s: State, t: State)
    requires Inv(s) && Next(s, JoinRead) == Some(t)
    ensures var j := s.joining.value;
      var best := Pick(j.seen);
      && best < |t.list| && j.number in t.lents && t.lents[j.number] == j.lent.(read := t.list[best].id)
      && (best < |s.list| ==> t.list[best].first == s.list[best].first && t.list[best].failed == s.list[best].failed)
      && (best == |s.list| ==> t.list[best].first == j.lent.place)
      && |j.seen| == |s.list|
  {
  }

  lemma {:induction false} BehindSeen(s: State, at: nat, number: nat, answers: bool)
    requires number in s.lents && Index(s.list, s.lents[number].read) == at < |s.list|
    ensures Sees(s, number, answers).Some? <==> Taking(s, number)
    ensures Taking(s, number) ==> (Sees(s, number, answers) == Some(SawBehind) <==> IsBehind(s, number))
    ensures IsBehind(s, number) <==> !s.list[at].failed && s.lents[number].place < s.list[at].first
  {
  }

  lemma {:induction false} FoundThere(s: State, i: nat)
    requires Inv(s) && i < |s.list|
    ensures Index(s.list, s.list[i].id) == i
  {
    OnShelfAt(s.list, i);
  }
}
