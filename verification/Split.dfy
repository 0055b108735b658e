/**
 * Debatching (src/split.rs): a Message split into a Message per record by a unit
 * fed its bytes as they are read, all or nothing, each record written as soon as
 * it is complete and nothing once one failed.
 */
module Split {
  import opened Wrappers
  import L = Ledger

  type Byte = L.Byte

  type Reason = string

  datatype Record = Part(content: seq<Byte>) | Refused(reason: Reason)

  /** A splitting unit: where it begins, what it answers as it is fed, and at the end. */
  datatype Unit<!S> = Unit(start: S, feed: (S, seq<Byte>) -> (S, seq<Record>), end: S -> seq<Record>)

  /** Fed in pieces or at once, it answers the same. */
  ghost predicate Compositional<S(!new)>(unit: Unit<S>) {
    && (forall s :: unit.feed(s, []) == (s, []))
    && (forall s, a, b ::
          var (s1, r1) := unit.feed(s, a);
          var (s2, r2) := unit.feed(s1, b);
          unit.feed(s, a + b) == (s2, r1 + r2))
  }

  /** Every record of a content. */
  function Records<S>(unit: Unit<S>, content: seq<Byte>): seq<Record> {
    var (s, records) := unit.feed(unit.start, content);
    records + unit.end(s)
  }

  datatype Failed = Failed(position: nat, reason: Reason)

  /** What a splitting has so far: the parts written, how many records it took, and which failed. */
  datatype State = State(written: seq<seq<Byte>>, total: nat, failed: seq<Failed>)

  const Empty: State := State([], 0, [])

  function Took(s: State, record: Record): State {
    var t := s.(total := s.total + 1);
    match record
    case Part(content) => if s.failed == [] then t.(written := s.written + [content]) else t
    case Refused(reason) => t.(failed := s.failed + [Failed(s.total + 1, reason)])
  }

  function TookAll(s: State, records: seq<Record>): State {
    if records == [] then s else Took(TookAll(s, records[..|records| - 1]), records[|records| - 1])
  }

  lemma {:induction false} TookOn(s: State, a: seq<Record>, b: seq<Record>)
    ensures TookAll(s, a + b) == TookAll(TookAll(s, a), b)
  {
    if b == [] {
      assert a + b == a;
    } else {
      assert (a + b)[..|a + b| - 1] == a + b[..|b| - 1];
      TookOn(s, a, b[..|b| - 1]);
    }
  }

  // ---- What a splitting answers ----

  /** A part: its content, its place among the records, and how many there are. */
  datatype Made = Made(content: seq<Byte>, position: nat, count: nat)

  datatype Outcome = Parts(parts: seq<Made>) | Failures(total: nat, failed: seq<Failed>)

  function Outcomes(s: State): Outcome {
    if s.failed != [] then Failures(s.total, s.failed)
    else Parts(MadeOf(s.written))
  }

  /** `parts`: each Stream written a Message, its place from one on and the count with it. */
  function MadeOf(written: seq<seq<Byte>>): seq<Made> {
    seq(|written|, i requires 0 <= i < |written| => Made(written[i], i + 1, |written|))
  }

  /** What splitting those records is: every one a part, or every one refused and nothing made. */
  function SplitOf(records: seq<Record>): Outcome {
    if forall i :: 0 <= i < |records| ==> records[i].Part? then
      Parts(seq(|records|, i requires 0 <= i < |records| && records[i].Part? => Made(records[i].content, i + 1, |records|)))
    else Failures(|records|, RefusedOf(records))
  }

  /** The refused records with their places, in order. */
  function RefusedOf(records: seq<Record>): seq<Failed> {
    if records == [] then [] else
    var n := |records| - 1;
    RefusedOf(records[..n]) + if records[n].Refused? then [Failed(n + 1, records[n].reason)] else []
  }

  /** The parts before the first record refused. */
  function Leading(records: seq<Record>): seq<seq<Byte>> {
    if records == [] || records[0].Refused? then [] else [records[0].content] + Leading(records[1..])
  }

  lemma {:induction false} RefusedIs(records: seq<Record>)
    ensures forall failed :: failed in RefusedOf(records) <==>
      1 <= failed.position <= |records| && records[failed.position - 1] == Refused(failed.reason)
    ensures RefusedOf(records) == [] <==> forall i :: 0 <= i < |records| ==> records[i].Part?
  {
    if records != [] {
      var n := |records| - 1;
      RefusedIs(records[..n]);
      assert forall i :: 0 <= i < n ==> records[..n][i] == records[i];
      if records[n].Refused? {
        assert RefusedOf(records)[|RefusedOf(records[..n])|] == Failed(n + 1, records[n].reason);
      }
    }
  }

  /** Whether failures come in the order of the records they are of. */
  predicate InOrder(failed: seq<Failed>) {
    forall i, j :: 0 <= i < j < |failed| ==> failed[i].position < failed[j].position
  }

  /** The failures gathered come in the records' order. */
  lemma {:induction false} RefusedInOrder(records: seq<Record>)
    ensures InOrder(RefusedOf(records))
  {
    if records != [] {
      var n := |records| - 1;
      RefusedInOrder(records[..n]);
      RefusedIs(records[..n]);
      var before := RefusedOf(records[..n]);
      forall i | 0 <= i < |before|
        ensures before[i].position <= n
      {
        assert before[i] in before;
      }
    }
  }

  lemma {:induction false} LeadingOn(records: seq<Record>, last: Record)
    ensures Leading(records + [last]) ==
      Leading(records) + if last.Part? && |Leading(records)| == |records| then [last.content] else []
    ensures |Leading(records)| <= |records|
    ensures |Leading(records)| == |records| <==> forall i :: 0 <= i < |records| ==> records[i].Part?
  {
    if records != [] {
      assert (records + [last])[1..] == records[1..] + [last];
      LeadingOn(records[1..], last);
      assert forall i :: 0 <= i < |records[1..]| ==> records[1..][i] == records[i + 1];
    }
  }

  /** A splitting that took records wrote the parts before the first refused, and gathered the refused. */
  lemma {:induction false} TookIs(records: seq<Record>)
    ensures TookAll(Empty, records) == State(Leading(records), |records|, RefusedOf(records))
  {
    if records != [] {
      var n := |records| - 1;
      TookIs(records[..n]);
      assert records == records[..n] + [records[n]];
      LeadingOn(records[..n], records[n]);
      RefusedIs(records[..n]);
    }
  }

  lemma {:induction false} LeadingIsAll(records: seq<Record>)
    requires forall i :: 0 <= i < |records| ==> records[i].Part?
    ensures |Leading(records)| == |records| && forall i :: 0 <= i < |records| ==> Leading(records)[i] == records[i].content
  {
    if records != [] {
      LeadingIsAll(records[1..]);
    }
  }

  /**
   * All or nothing: every record a part in order, 1 to the count; or exactly the
   * refused ones with their places, in order, none made.
   */
  lemma {:induction false} AllOrNothing(records: seq<Record>)
    ensures Outcomes(TookAll(Empty, records)) == SplitOf(records)
    ensures SplitOf(records).Failures? ==> InOrder(SplitOf(records).failed)
  {
    TookIs(records);
    RefusedInOrder(records);
    RefusedIs(records);
    if forall i :: 0 <= i < |records| ==> records[i].Part? {
      LeadingIsAll(records);
    }
  }

  // ---- Splitting in place ----

  datatype Failure = NotRead | NotTaken

  function Joined(sections: seq<seq<Byte>>): seq<Byte> {
    if sections == [] then [] else Joined(sections[..|sections| - 1]) + sections[|sections| - 1]
  }

  /** `Splitting`: a unit being fed. Xmip Storage refuses the parts whose number is in `refuses`. */
  class Splitting<S(!new)> {
    const unit: Unit<S>
    const refuses: set<nat>
    var at: S
    var written: seq<seq<Byte>>
    var total: nat
    var failed: seq<Failed>

    ghost function View(): State
      reads this
    {
      State(written, total, failed)
    }

    constructor (unit: Unit<S>, refuses: set<nat>)
      ensures this.unit == unit && this.refuses == refuses && at == unit.start && View() == Empty
    {
      this.unit, this.refuses := unit, refuses;
      at, written, total, failed := unit.start, [], 0, [];
    }

    /** `write`: the records taken, each part written while none failed. */
    method Write(records: seq<Record>) returns (taken: bool)
      modifies this`written, this`total, this`failed
      ensures taken ==> View() == TookAll(old(View()), records)
      ensures !taken ==> |written| in refuses && failed == [] && old(failed) == []
      ensures !taken ==> exists n :: 0 <= n < |records| && written == TookAll(old(View()), records[..n]).written
    {
      var i := 0;
      while i < |records|
        invariant i <= |records| && View() == TookAll(old(View()), records[..i])
        invariant failed == [] ==> old(failed) == []
      {
        assert records[..i + 1][..i] == records[..i];
        match records[i] {
          case Part(content) =>
            if failed == [] {
              if |written| in refuses {
                return false;
              }
              written := written + [content];
            }
            total := total + 1;
          case Refused(reason) =>
            total := total + 1;
            failed := failed + [Failed(total, reason)];
        }
        i := i + 1;
      }
      assert records[..i] == records;
      taken := true;
    }

    method Feed(chunk: seq<Byte>) returns (taken: bool)
      modifies this
      ensures taken ==> (at, View()) == (unit.feed(old(at), chunk).0, TookAll(old(View()), unit.feed(old(at), chunk).1))
      ensures !taken ==> |written| in refuses && failed == []
    {
      var fed := unit.feed(at, chunk);
      at := fed.0;
      taken := Write(fed.1);
    }

    method End() returns (r: Option<Outcome>)
      modifies this
      ensures r.Some? ==> View() == TookAll(old(View()), unit.end(old(at))) && r.value == Outcomes(View())
      ensures r.None? ==> |written| in refuses && failed == []
    {
      var taken := Write(unit.end(at));
      if !taken {
        return None;
      }
      r := Some(if failed != [] then Failures(total, failed) else Parts(MadeOf(written)));
    }

    /** One Section read to its end and fed as it is read, however short the reads. */
    method FeedAll(reader: L.Reader, chunk: nat, ghost before: seq<Byte>) returns (r: Result<(), Failure>)
      requires Compositional(unit) && reader.Valid() && reader.at == 0
      requires at == unit.feed(unit.start, before).0 && View() == TookAll(Empty, unit.feed(unit.start, before).1)
      modifies this, reader
      ensures r.Ok? ==>
        var (s, records) := unit.feed(unit.start, before + reader.content);
        at == s && View() == TookAll(Empty, records)
      ensures r.Err? && r.error.NotRead? ==> reader.fails.Some?
      ensures r.Err? && r.error.NotTaken? ==> |written| in refuses && failed == []
    {
      var size := if chunk == 0 then 1 else chunk;
      assert before + reader.content[..0] == before;
      var ended := false;
      while !ended
        invariant reader.Valid()
        invariant at == unit.feed(unit.start, before + reader.content[..reader.at]).0
        invariant View() == TookAll(Empty, unit.feed(unit.start, before + reader.content[..reader.at]).1)
        invariant ended ==> reader.at == |reader.content|
        decreases !ended, |reader.content| - reader.at
      {
        ghost var was := reader.at;
        var read := reader.Read(size);
        if read.Err? {
          return Err(NotRead);
        }
        ended := read.value == [];
        FedOn(unit, before + reader.content[..was], read.value);
        assert before + reader.content[..was] + read.value == before + reader.content[..reader.at];
        if !ended {
          var taken := Feed(read.value);
          if !taken {
            return Err(NotTaken);
          }
        } else {
          assert reader.content[..was] == reader.content[..reader.at];
        }
      }
      assert reader.content[..reader.at] == reader.content;
      r := Ok(());
    }
  }

  lemma {:induction false} FedOn<S(!new)>(unit: Unit<S>, a: seq<Byte>, b: seq<Byte>)
    requires Compositional(unit)
    ensures var (s, records) := unit.feed(unit.start, a);
      var (t, more) := unit.feed(s, b);
      && unit.feed(unit.start, a + b).0 == t
      && TookAll(Empty, unit.feed(unit.start, a + b).1) == TookAll(TookAll(Empty, records), more)
  {
    var (s, records) := unit.feed(unit.start, a);
    TookOn(Empty, records, unit.feed(s, b).1);
  }

  /**
   * `whole`: a Message's Sections split one after another. The answer depends on the
   * Sections' bytes alone: not on the size of a chunk, on where Sections end, or on
   * how short the reads fall. A failure to read or to keep is neither parts nor failures.
   */
  method Whole<S(!new)>(unit: Unit<S>, sections: seq<seq<Byte>>, chunk: nat, shorts: nat -> nat, unread: Option<nat>, refuses: set<nat>)
    returns (r: Result<Outcome, Failure>)
    requires Compositional(unit)
    ensures r.Ok? ==> r.value == SplitOf(Records(unit, Joined(sections)))
    ensures unread.None? && refuses == {} ==> r.Ok?
  {
    var splitting := new Splitting<S>(unit, refuses);
    var i := 0;
    assert sections[..0] == [];
    while i < |sections|
      invariant i <= |sections| && splitting.unit == unit && splitting.refuses == refuses && fresh(splitting)
      invariant splitting.at == unit.feed(unit.start, Joined(sections[..i])).0
      invariant splitting.View() == TookAll(Empty, unit.feed(unit.start, Joined(sections[..i])).1)
    {
      assert sections[..i + 1][..i] == sections[..i];
      var reader := new L.Reader(sections[i], shorts, unread);
      var fed := splitting.FeedAll(reader, chunk, Joined(sections[..i]));
      if fed.Err? {
        assert fed.error.NotRead? || fed.error.NotTaken?;
        return Err(fed.error);
      }
      i := i + 1;
    }
    assert sections[..i] == sections;
    var (s, records) := unit.feed(unit.start, Joined(sections));
    var ended := splitting.End();
    if ended.None? {
      return Err(NotTaken);
    }
    TookOn(Empty, records, unit.end(s));
    AllOrNothing(records + unit.end(s));
    r := Ok(ended.value);
  }

  // ---- A unit: a record a line ----

  const NEWLINE: Byte := 10

  const MARK: Byte := 33

  function Line(line: seq<Byte>): Record {
    if MARK in line then Refused("no record") else Part(line)
  }

  function FeedLines(pending: seq<Byte>, chunk: seq<Byte>): (seq<Byte>, seq<Record>) {
    if chunk == [] then (pending, []) else
    var (before, records) := FeedLines(pending, chunk[..|chunk| - 1]);
    var byte := chunk[|chunk| - 1];
    if byte == NEWLINE then ([], records + [Line(before)]) else (before + [byte], records)
  }

  const Lines: Unit<seq<Byte>> :=
    Unit([], (pending, chunk) => FeedLines(pending, chunk), pending => if pending == [] then [] else [Line(pending)])

  /** Lines fed in pieces or at once are the same records. */
  lemma {:induction false} LinesCompose(pending: seq<Byte>, a: seq<Byte>, b: seq<Byte>)
    ensures var (p1, r1) := FeedLines(pending, a);
      var (p2, r2) := FeedLines(p1, b);
      FeedLines(pending, a + b) == (p2, r1 + r2)
  {
    if b == [] {
      var (p1, r1) := FeedLines(pending, a);
      assert a + b == a && r1 + [] == r1;
    } else {
      assert (a + b)[..|a + b| - 1] == a + b[..|b| - 1];
      LinesCompose(pending, a, b[..|b| - 1]);
      var (p1, r1) := FeedLines(pending, a);
      var (p2, r2) := FeedLines(p1, b[..|b| - 1]);
      assert r1 + (r2 + [Line(p2)]) == r1 + r2 + [Line(p2)];
    }
  }

  lemma {:induction false} LinesAreCompositional()
    ensures Compositional(Lines)
  {
    forall pending, a, b
      ensures var (p1, r1) := FeedLines(pending, a);
        var (p2, r2) := FeedLines(p1, b);
        FeedLines(pending, a + b) == (p2, r1 + r2)
    {
      LinesCompose(pending, a, b);
    }
  }
}
