/**
 * A Stream written into the Ledger in chunks and read back (src/ledger.rs): read
 * ahead by one chunk so the last is known as it is written, its record written
 * with it, once, after everything was read.
 */
module Ledger {
  import opened Wrappers
  import opened Sums
  import S = StreamShare

  type Byte = S.Byte

  type Chunk = S.Chunk

  /** The Stream's own record: its length, how many chunks it has, and what its digest took in, in order. */
  datatype Record = Record(length: nat, chunks: nat, digest: seq<Byte>)

  datatype Kept = Kept(length: nat, chunks: nat)

  datatype Failure = NotRead | NotTaken

  // ---- What the chunks of a content are ----

  function ChunksOf(content: seq<Byte>, size: nat): seq<Chunk>
    requires size >= 1
    decreases |content|
  {
    if |content| <= size then [content] else [content[..size]] + ChunksOf(content[size..], size)
  }

  /** How many chunks a content of `length` bytes has: one at least. */
  function CountOf(length: nat, size: nat): nat
    requires size >= 1
  {
    Max(1, (length + size - 1) / size)
  }

  lemma {:induction false} BytesOfFirst(first: Chunk, rest: seq<Chunk>)
    ensures S.Bytes([first] + rest) == first + S.Bytes(rest)
  {
    if rest == [] {
      assert [first] + rest == [first];
      assert [first][..0] == [];
    } else {
      var n := |rest| - 1;
      assert ([first] + rest)[..n + 1] == [first] + rest[..n];
      BytesOfFirst(first, rest[..n]);
      assert first + S.Bytes(rest[..n]) + rest[n] == first + (S.Bytes(rest[..n]) + rest[n]);
    }
  }

  /**
   * The chunks of a content are the content: one after another they are its bytes,
   * all but the last are full, the last is empty only where the content is, and
   * there are as many as its length says.
   */
  lemma {:induction false} ChunksAreTheContent(content: seq<Byte>, size: nat)
    requires size >= 1
    ensures var chunks := ChunksOf(content, size);
      && S.Bytes(chunks) == content
      && |chunks| >= 1
      && (forall i :: 0 <= i < |chunks| - 1 ==> |chunks[i]| == size)
      && |chunks[|chunks| - 1]| <= size
      && (chunks[|chunks| - 1] == [] <==> content == [])
      && |chunks| == CountOf(|content|, size)
    decreases |content|
  {
    ChunksCount(content, size);
    if |content| <= size {
      assert [content][..0] == [];
    } else {
      hide CountOf;
      ChunksAreTheContent(content[size..], size);
      BytesOfFirst(content[..size], ChunksOf(content[size..], size));
    }
  }

  lemma {:induction false} ChunksCount(content: seq<Byte>, size: nat)
    requires size >= 1
    ensures |ChunksOf(content, size)| == CountOf(|content|, size)
    decreases |content|
  {
    hide CountOf;
    if |content| <= size {
      OneChunk(|content|, size);
    } else {
      ChunksCount(content[size..], size);
      OneLess(|content|, size);
    }
  }

  lemma {:induction false} OneChunk(length: nat, size: nat)
    requires size >= 1 && length <= size
    ensures CountOf(length, size) == 1
  {
    if length > 0 {
      Divided(length + size - 1, size, 1);
    } else {
      Divided(size - 1, size, 0);
    }
  }

  lemma {:induction false} Divided(x: nat, size: nat, q: nat)
    requires size >= 1 && q * size <= x < (q + 1) * size
    ensures x / size == q
  {
    var d := x / size;
    assert x == d * size + x % size;
    if d < q {
      Ordered(d + 1, q, size);
    } else if d > q {
      Ordered(q + 1, d, size);
    }
  }

  lemma {:induction false} OneLess(length: nat, size: nat)
    requires size >= 1 && length > size
    ensures CountOf(length, size) == 1 + CountOf(length - size, size)
  {
    var q := (length - 1) / size;
    assert length - 1 == q * size + (length - 1) % size;
    assert q >= 1 by {
      if q == 0 {
        assert 0 * size == 0;
      }
    }
    assert (q + 1) * size == q * size + size && (q + 2) * size == q * size + 2 * size;
    Divided(length + size - 1, size, q + 1);
    Divided(length - 1, size, q);
  }

  // ---- Reading it in ----

  /** What is read: its bytes, how far it was, how short each read may fall, and where it fails if at all. */
  class Reader {
    const content: seq<Byte>
    const shorts: nat -> nat
    const fails: Option<nat>
    var at: nat
    var asks: nat

    ghost predicate Valid()
      reads this
    {
      at <= |content|
    }

    constructor (content: seq<Byte>, shorts: nat -> nat, fails: Option<nat>)
      ensures Valid() && this.content == content && this.shorts == shorts && this.fails == fails && at == 0
    {
      this.content, this.shorts, this.fails := content, shorts, fails;
      at, asks := 0, 0;
    }

    /** Some of the bytes that follow, no more than there is room for; none only at the end. */
    method Read(room: nat) returns (r: Result<seq<Byte>, Failure>)
      requires Valid()
      modifies this
      ensures Valid() && old(at) <= at
      ensures r.Err? ==> at == old(at) && fails == Some(at)
      ensures r.Ok? ==> r.value == content[old(at)..at] && |r.value| <= room
      ensures r == Ok([]) && room > 0 ==> at == |content|
    {
      if fails == Some(at) {
        return Err(NotRead);
      }
      var n := Min(Min(room, |content| - at), Max(1, shorts(asks)));
      r := Ok(content[at..at + n]);
      at := at + n;
      asks := asks + 1;
    }
  }

  /** `fill`: a whole chunk, or all that is left where that is less. */
  method Fill(reader: Reader, size: nat) returns (r: Result<Chunk, Failure>)
    requires reader.Valid()
    modifies reader
    ensures reader.Valid() && old(reader.at) <= reader.at
    ensures r.Ok? ==> r.value == reader.content[old(reader.at)..reader.at]
    ensures r.Ok? ==> |r.value| == Min(size, |reader.content| - old(reader.at))
    ensures r.Err? ==> r.error == NotRead && reader.fails.Some?
  {
    var bytes := [];
    var more := true;
    while more && |bytes| < size
      invariant reader.Valid() && old(reader.at) <= reader.at
      invariant bytes == reader.content[old(reader.at)..reader.at] && |bytes| <= size
      invariant !more ==> reader.at == |reader.content|
      decreases more, |reader.content| - reader.at
    {
      ghost var before := reader.at;
      var read := reader.Read(size - |bytes|);
      if read.Err? {
        return Err(NotRead);
      }
      assert bytes + read.value == reader.content[old(reader.at)..reader.at];
      bytes := bytes + read.value;
      more := read.value != [];
    }
    r := Ok(bytes);
  }

  // ---- Writing it ----

  /** One Stream in Xmip Storage: its chunks as written, its record once it has one, and which writes are refused. */
  class Storage {
    const refuses: set<nat>
    var chunks: seq<Chunk>
    var record: Option<Record>
    /** How often a record was written. */
    var records: nat

    constructor (refuses: set<nat>)
      ensures chunks == [] && record == None && records == 0 && this.refuses == refuses
    {
      this.refuses := refuses;
      chunks, record, records := [], None, 0;
    }

    method WriteChunk(bytes: Chunk) returns (taken: bool)
      modifies this`chunks
      ensures taken <==> old(|chunks|) !in refuses
      ensures chunks == if taken then old(chunks) + [bytes] else old(chunks)
    {
      taken := |chunks| !in refuses;
      if taken {
        chunks := chunks + [bytes];
      }
    }

    /** The last chunk, and the Stream's record with it. */
    method WriteLast(bytes: Chunk, ended: Record) returns (taken: bool)
      modifies this
      ensures taken <==> old(|chunks|) !in refuses
      ensures chunks == if taken then old(chunks) + [bytes] else old(chunks)
      ensures record == if taken then Some(ended) else old(record)
      ensures records == old(records) + if taken then 1 else 0
    {
      taken := WriteChunk(bytes);
      if taken {
        record, records := Some(ended), records + 1;
      }
    }
  }

  /**
   * `write_stream`: whatever the chunk size and however short the reads, what is kept
   * is the content's chunks, and the record, written once and only once all of it was
   * read, holds its length, their number and the digest of every byte in order. A
   * Stream not read to its end, or refused, has no record and no chunk but the first of its own.
   */
  method WriteStream(storage: Storage, reader: Reader, chunk: nat) returns (r: Result<Kept, Failure>)
    requires storage.chunks == [] && storage.record == None && reader.Valid() && reader.at == 0
    modifies storage, reader
    ensures r.Ok? ==>
      && storage.chunks == ChunksOf(reader.content, Max(chunk, 1))
      && r.value == Kept(|reader.content|, |storage.chunks|)
      && storage.record == Some(Record(|reader.content|, |storage.chunks|, reader.content))
      && storage.records == old(storage.records) + 1 && reader.at == |reader.content|
    ensures r.Err? ==>
      && storage.record == None && storage.records == old(storage.records)
      && storage.chunks < ChunksOf(reader.content, Max(chunk, 1))
      && (r.error == NotRead ==> reader.fails.Some?)
      && (r.error == NotTaken ==> |storage.chunks| in storage.refuses)
  {
    hide Going, ChunksOf;
    var size := Max(chunk, 1);
    var kept, digest := Kept(0, 0), [];
    var first := Fill(reader, size);
    BegunGoing(reader.content, size);
    if first.Err? {
      GoingIsPrefix(reader.content, size, [], kept, digest);
      return Err(NotRead);
    }
    var pending := first.value;
    while true
      invariant reader.Valid() && storage.record == None && storage.records == old(storage.records)
      invariant Going(reader.content, size, storage.chunks, kept, digest)
      invariant kept.length <= reader.at && pending == reader.content[kept.length..reader.at]
      invariant |pending| == Min(size, |reader.content| - kept.length)
      invariant kept.length > 0 ==> pending != []
      decreases |reader.content| - kept.length
    {
      GoingIsPrefix(reader.content, size, storage.chunks, kept, digest);
      var next := None;
      if |pending| >= size {
        var filled := Fill(reader, size);
        if filled.Err? {
          return Err(NotRead);
        }
        next := if filled.value == [] then None else Some(filled.value);
      }
      ghost var before := kept;
      ghost var took := digest;
      kept := Kept(kept.length + |pending|, kept.chunks + 1);
      digest := digest + pending;
      if next.None? {
        GoesEnd(reader.content, size, storage.chunks, before, took, pending);
        var taken := storage.WriteLast(pending, Record(kept.length, kept.chunks, digest));
        return if taken then Ok(kept) else Err(NotTaken);
      }
      GoesOn(reader.content, size, storage.chunks, before, took, pending);
      var taken := storage.WriteChunk(pending);
      if !taken {
        return Err(NotTaken);
      }
      pending := next.value;
    }
  }

  /** Part way through a content: the chunks written are its first, and the digest took in what they hold. */
  ghost predicate Going(content: seq<Byte>, size: nat, chunks: seq<Chunk>, kept: Kept, digest: seq<Byte>)
    requires size >= 1
  {
    && kept.length <= |content| && kept.chunks == |chunks|
    && digest == content[..kept.length]
    && chunks + ChunksOf(content[kept.length..], size) == ChunksOf(content, size)
  }

  lemma {:induction false} BegunGoing(content: seq<Byte>, size: nat)
    requires size >= 1
    ensures Going(content, size, [], Kept(0, 0), [])
  {
    assert content[0..] == content && [] + ChunksOf(content, size) == ChunksOf(content, size);
  }

  lemma {:induction false} GoingIsPrefix(content: seq<Byte>, size: nat, chunks: seq<Chunk>, kept: Kept, digest: seq<Byte>)
    requires size >= 1 && Going(content, size, chunks, kept, digest)
    ensures chunks < ChunksOf(content, size) && kept.length <= |content| && kept.chunks == |chunks|
  {
    Prefix(chunks, ChunksOf(content[kept.length..], size));
  }

  lemma {:induction false} GoesOn(content: seq<Byte>, size: nat, chunks: seq<Chunk>, kept: Kept, digest: seq<Byte>, pending: Chunk)
    requires size >= 1 && Going(content, size, chunks, kept, digest)
    requires |pending| == size && kept.length + size < |content| && pending == content[kept.length..kept.length + size]
    ensures Going(content, size, chunks + [pending], Kept(kept.length + size, kept.chunks + 1), digest + pending)
  {
    var left := content[kept.length..];
    assert left[size..] == content[kept.length + size..] && left[..size] == pending;
    assert chunks + ([pending] + ChunksOf(left[size..], size)) == chunks + [pending] + ChunksOf(left[size..], size);
  }

  lemma {:induction false} GoesEnd(content: seq<Byte>, size: nat, chunks: seq<Chunk>, kept: Kept, digest: seq<Byte>, pending: Chunk)
    requires size >= 1 && Going(content, size, chunks, kept, digest)
    requires |pending| <= size && pending == content[kept.length..]
    ensures chunks + [pending] == ChunksOf(content, size) && kept.length + |pending| == |content|
    ensures digest + pending == content
  {
  }

  lemma {:induction false} Prefix(before: seq<Chunk>, rest: seq<Chunk>)
    requires rest != []
    ensures before < before + rest
  {
  }

  // ---- Reading it back ----

  /** What is read back of a Stream as Xmip Storage has it, a chunk at a time and held to its length. */
  function ReadBack(stored: S.Stored, at: nat, before: seq<Byte>): Result<seq<Byte>, Failure>
    requires at <= |stored.chunks|
    decreases |stored.chunks| - at
  {
    match S.NextChunk(stored, at, |before|, true)
    case Read(chunk) => if at < |stored.chunks| then ReadBack(stored, at + 1, before + chunk) else Err(NotRead)
    case End => Ok(before)
    case Refused => Err(NotRead)
  }

  /** A Stream's chunks up to the first of them lost. */
  function UpTo(chunks: seq<Chunk>, lost: set<nat>): seq<Chunk> {
    if chunks == [] then [] else
    var before := UpTo(chunks[..|chunks| - 1], lost);
    if |before| == |chunks| - 1 && |chunks| - 1 !in lost then chunks else before
  }

  lemma {:induction false} UpToIs(chunks: seq<Chunk>, lost: set<nat>)
    ensures var before := UpTo(chunks, lost);
      && before <= chunks
      && (forall i :: 0 <= i < |before| ==> i !in lost)
      && (|before| < |chunks| ==> |before| in lost)
  {
    if chunks != [] {
      UpToIs(chunks[..|chunks| - 1], lost);
    }
  }

  lemma {:induction false} ReadBackIs(stored: S.Stored, at: nat)
    requires at <= |stored.chunks|
    ensures var all := S.Bytes(stored.chunks);
      ReadBack(stored, at, S.Bytes(stored.chunks[..at])) == if |all| == stored.length then Ok(all) else Err(NotRead)
    decreases |stored.chunks| - at
  {
    if at == |stored.chunks| {
      assert stored.chunks[..at] == stored.chunks;
    } else {
      S.BytesNext(stored.chunks, at);
      ReadBackIs(stored, at + 1);
    }
  }

  /**
   * The round trip: what `write_stream` kept reads back as what was written, and
   * where chunks were lost it does exactly where none was, or nothing was written;
   * it is never read as anything else.
   */
  lemma {:induction false} ReadsBack(content: seq<Byte>, size: nat, lost: set<nat>)
    requires size >= 1
    ensures var chunks := ChunksOf(content, size);
      var read := ReadBack(S.Stored(UpTo(chunks, lost), |content|), 0, []);
      && (read == Ok(content) <==> (content == [] || forall i :: 0 <= i < |chunks| ==> i !in lost))
      && (read == Ok(content) || read == Err(NotRead))
  {
    var chunks := ChunksOf(content, size);
    var stored := S.Stored(UpTo(chunks, lost), |content|);
    ChunksAreTheContent(content, size);
    UpToIs(chunks, lost);
    assert stored.chunks[..0] == [];
    ReadBackIs(stored, 0);
    var n := |stored.chunks|;
    if n == |chunks| {
      assert stored.chunks == chunks;
    } else {
      assert chunks[..n] == stored.chunks;
      LaterChunks(chunks, n);
      if content == [] {
        assert n == 0;
      }
    }
  }

  /** Fewer chunks than all of them are fewer bytes, unless what is missing holds none. */
  lemma {:induction false} LaterChunks(chunks: seq<Chunk>, n: nat)
    requires n < |chunks|
    ensures |S.Bytes(chunks[..n])| + |chunks[|chunks| - 1]| <= |S.Bytes(chunks)|
    decreases |chunks|
  {
    var last := |chunks| - 1;
    S.BytesPrefix(chunks[..last], n);
    assert chunks[..last][..n] == chunks[..n];
  }
}
