/**
 * The one Sequence (src/sequence.rs): a queue in the Ledger per point and key,
 * work there going on only while it holds the first place, and the memo of
 * places seen at the head that saves asking the Ledger again.
 */
module Sequence {
  import opened Wrappers

  /** A member's place in a queue: a Stream's by its origin, or a Message's by its Journey. */
  datatype Place = Place(queue: nat, member: nat)

  /** What is asked of Xmip Storage for one place: the first held, if the page read one, and how many there are. */
  datatype Page = Page(first: Option<nat>, count: nat)

  const REMEMBERED: nat := 65536

  // ---- The queues as the Ledger holds them ----

  /**
   * Where in `taken`, every place ever taken in the order they were written, those
   * of `queue` not let go of are.
   */
  function Held(taken: seq<Place>, gone: set<nat>, queue: nat): seq<nat> {
    if taken == [] then [] else
    var n := |taken| - 1;
    Held(taken[..n], gone, queue) + if taken[n].queue == queue && n !in gone then [n] else []
  }

  function PageOf(taken: seq<Place>, gone: set<nat>, queue: nat, midWrite: bool): Page {
    var held := Held(taken, gone, queue);
    Page(if held == [] || midWrite || held[0] >= |taken| then None else Some(taken[held[0]].member), |held|)
  }

  /** A page's own answer: the first place held is the member's, or none is held at all. */
  predicate Answers(page: Page, member: nat) {
    match page.first
    case Some(first) => first == member
    case None => page.count == 0
  }

  function Remembered(memo: set<Place>, place: Place): set<Place> {
    (if |memo| >= REMEMBERED then {} else memo) + {place}
  }

  /** `heads`: whether `place` heads its queue, and the memo after. */
  function Heading(memo: set<Place>, place: Place, page: Page): (bool, set<Place>) {
    if place in memo then (true, memo)
    else (Answers(page, place.member), if page.first == Some(place.member) then Remembered(memo, place) else memo)
  }

  datatype State = State(taken: seq<Place>, gone: set<nat>, memo: set<Place>)

  /**
   * Places taken at the end of their queues and let go of, each in one write, by
   * any node; a place asked of by this one, the page perhaps read in the middle of
   * another's write; and this node started again.
   */
  datatype Step =
    | Take(places: seq<Place>)
    | LetGo(at: set<nat>)
    | Ask(place: Place, midWrite: bool)
    | Restart

  const Initial: State := State([], {}, {})

  function AskedPage(s: State, place: Place, midWrite: bool): Page {
    PageOf(s.taken, s.gone, place.queue, midWrite)
  }

  function Next(s: State, step: Step): State {
    match step
    case Take(places) => s.(taken := s.taken + places)
    case LetGo(at) => s.(gone := s.gone + set i | i in at && i < |s.taken|)
    case Ask(place, midWrite) => s.(memo := Heading(s.memo, place, AskedPage(s, place, midWrite)).1)
    case Restart => s.(memo := {})
  }

  function Run(s: State, steps: seq<Step>): State {
    if steps == [] then s else Next(Run(s, steps[..|steps| - 1]), steps[|steps| - 1])
  }

  /** `place`, taken at `at`, is held still. */
  predicate HeldAt(s: State, place: Place, at: nat) {
    at < |s.taken| && s.taken[at] == place && at !in s.gone
  }

  /** It was taken then and never again. */
  ghost predicate TakenOnce(s: State, place: Place, at: nat) {
    at < |s.taken| && s.taken[at] == place && forall i :: 0 <= i < |s.taken| && s.taken[i] == place ==> i == at
  }

  /** Every place of its queue taken before it was let go of. */
  ghost predicate LetThrough(taken: seq<Place>, gone: set<nat>, at: nat) {
    at < |taken| && forall i :: 0 <= i < at && taken[i].queue == taken[at].queue ==> i in gone
  }

  lemma {:induction false} HeldIs(taken: seq<Place>, gone: set<nat>, queue: nat)
    ensures var held := Held(taken, gone, queue);
      && (forall i :: i in held <==> 0 <= i < |taken| && taken[i].queue == queue && i !in gone)
      && (forall j, k :: 0 <= j < k < |held| ==> held[j] < held[k])
  {
    if taken != [] {
      var n := |taken| - 1;
      HeldIs(taken[..n], gone, queue);
      assert forall i :: 0 <= i < n ==> taken[..n][i] == taken[i];
      var before := Held(taken[..n], gone, queue);
      forall j | 0 <= j < |before|
        ensures before[j] < n
      {
        assert before[j] in before;
      }
    }
  }

  /** The first place held in a queue is the one every earlier place of which is gone. */
  lemma {:induction false} FirstIs(taken: seq<Place>, gone: set<nat>, at: nat)
    requires at < |taken| && at !in gone
    ensures var held := Held(taken, gone, taken[at].queue);
      held != [] && held[0] < |taken| && (held[0] == at <==> LetThrough(taken, gone, at))
  {
    var held := Held(taken, gone, taken[at].queue);
    HeldIs(taken, gone, taken[at].queue);
    assert at in held;
    assert held[0] in held;
    if LetThrough(taken, gone, at) {
      assert !(held[0] < at);
    }
  }

  /** What the memo keeps: each place in it headed its queue once. */
  ghost predicate Inv(s: State) {
    && |s.memo| <= REMEMBERED
    && forall place :: place in s.memo ==> exists at: nat :: at < |s.taken| && s.taken[at] == place && LetThrough(s.taken, s.gone, at)
  }

  lemma {:induction false} NextKeepsInv(s: State, step: Step)
    requires Inv(s)
    ensures Inv(Next(s, step))
  {
    var t := Next(s, step);
    match step {
      case Ask(place, midWrite) => AskKeepsInv(s, place, midWrite);
      case Restart =>
      case _ =>
        forall place | place in t.memo
          ensures exists at: nat :: at < |t.taken| && t.taken[at] == place && LetThrough(t.taken, t.gone, at)
        {
          var at: nat :| at < |s.taken| && s.taken[at] == place && LetThrough(s.taken, s.gone, at);
          assert LetThrough(t.taken, t.gone, at);
        }
    }
  }

  lemma {:induction false} AskKeepsInv(s: State, place: Place, midWrite: bool)
    requires Inv(s)
    ensures Inv(Next(s, Ask(place, midWrite)))
  {
    var page := AskedPage(s, place, midWrite);
    if place !in s.memo && page.first == Some(place.member) {
      var held := Held(s.taken, s.gone, place.queue);
      HeldIs(s.taken, s.gone, place.queue);
      assert held[0] in held;
      FirstIs(s.taken, s.gone, held[0]);
      assert s.taken[held[0]] == place;
    }
  }

  lemma {:induction false} RunKeepsInv(steps: seq<Step>)
    ensures Inv(Run(Initial, steps))
  {
    if steps != [] {
      RunKeepsInv(steps[..|steps| - 1]);
      NextKeepsInv(Run(Initial, steps[..|steps| - 1]), steps[|steps| - 1]);
    }
  }

  /** The answer `heads` gives for `place`. */
  predicate Headed(s: State, place: Place, midWrite: bool) {
    Heading(s.memo, place, AskedPage(s, place, midWrite)).0
  }

  /**
   * The memo is sound: over every run of places taken and let go of, restarts and
   * the memo's own clearing, a place held and taken once is answered to head its
   * queue exactly where every place written there before it was let go of; and a
   * page read in the middle of a write lets nothing through that does not.
   */
  lemma {:induction false} MemoIsSound(steps: seq<Step>, place: Place, at: nat, midWrite: bool)
    requires var s := Run(Initial, steps); HeldAt(s, place, at) && TakenOnce(s, place, at)
    ensures var s := Run(Initial, steps);
      && (Headed(s, place, false) <==> LetThrough(s.taken, s.gone, at))
      && (Headed(s, place, midWrite) ==> LetThrough(s.taken, s.gone, at))
      && |s.memo| <= REMEMBERED
  {
    RunKeepsInv(steps);
    var s := Run(Initial, steps);
    FirstIs(s.taken, s.gone, at);
    if place in s.memo {
      assert LetThrough(s.taken, s.gone, at);
    } else {
      var held := Held(s.taken, s.gone, place.queue);
      HeldIs(s.taken, s.gone, place.queue);
      assert held[0] in held;
      if s.taken[held[0]].member == place.member {
        assert s.taken[held[0]] == place;
      }
    }
  }

  /** At most one place held heads a queue: two members never go on side by side at one point and key. */
  lemma {:induction false} OneHeadsAQueue(
      steps: seq<Step>, one: Place, at: nat, other: Place, otherAt: nat, midWrite: bool, midOther: bool)
    requires var s := Run(Initial, steps);
      HeldAt(s, one, at) && TakenOnce(s, one, at) && HeldAt(s, other, otherAt) && TakenOnce(s, other, otherAt)
    requires one.queue == other.queue
    requires Headed(Run(Initial, steps), one, midWrite) && Headed(Run(Initial, steps), other, midOther)
    ensures one == other
  {
    MemoIsSound(steps, one, at, midWrite);
    MemoIsSound(steps, other, otherAt, midOther);
    assert at == otherAt;
  }

  /** Members pass a key in the order the Ledger wrote them: once one heads, every one before it has gone for good. */
  lemma {:induction false} PassInLedgerOrder(steps: seq<Step>, more: seq<Step>, place: Place, at: nat, earlier: nat, midWrite: bool)
    requires var s := Run(Initial, steps);
      HeldAt(s, place, at) && TakenOnce(s, place, at) && Headed(s, place, midWrite)
    requires earlier < at && Run(Initial, steps).taken[earlier].queue == place.queue
    ensures !HeldAt(Run(Run(Initial, steps), more), Run(Initial, steps).taken[earlier], earlier)
  {
    MemoIsSound(steps, place, at, midWrite);
    GoneStays(Run(Initial, steps), more, earlier);
  }

  lemma {:induction false} GoneStays(s: State, more: seq<Step>, at: nat)
    requires at in s.gone
    ensures at in Run(s, more).gone
  {
    if more != [] {
      GoneStays(s, more[..|more| - 1], at);
    }
  }

  /** Whether the answer for `place` is not the page's own. */
  predicate Disagrees(s: State, place: Place, midWrite: bool) {
    Headed(s, place, midWrite) != Answers(AskedPage(s, place, midWrite), place.member)
  }

  /** Remembered, and not told to be the first of its queue, which is not empty: another is, or the page does not say. */
  predicate RememberedNotFirst(s: State, place: Place, midWrite: bool) {
    var held := Held(s.taken, s.gone, place.queue);
    && place in s.memo && held != []
    && (midWrite || (held[0] < |s.taken| && s.taken[held[0]].member != place.member))
  }

  /** Remembered, let go of since, and its queue not empty. */
  ghost predicate RememberedAndGone(s: State, place: Place) {
    place in s.memo && (forall i: nat :: !HeldAt(s, place, i)) && Held(s.taken, s.gone, place.queue) != []
  }

  /**
   * Where the memo and the Ledger disagree, over every run: exactly for a place
   * remembered at the head whose queue holds places, the first of them another's, or
   * not told as the page was read in the middle of a write. The memo lets it on.
   */
  lemma {:induction false} MemoDisagreesExactly(steps: seq<Step>, place: Place, midWrite: bool)
    ensures Disagrees(Run(Initial, steps), place, midWrite) <==> RememberedNotFirst(Run(Initial, steps), place, midWrite)
  {
    var s := Run(Initial, steps);
    var held := Held(s.taken, s.gone, place.queue);
    HeldIs(s.taken, s.gone, place.queue);
    if held != [] {
      assert held[0] in held;
    }
  }

  /**
   * A place taken no more than once is let on so, its page read whole, exactly where
   * it is remembered, was let go of, and its queue is not empty: never while held.
   */
  lemma {:induction false} LetOnOnlyOnceGone(steps: seq<Step>, place: Place)
    requires var s := Run(Initial, steps);
      forall i, j :: 0 <= i < j < |s.taken| ==> !(s.taken[i] == place && s.taken[j] == place)
    ensures Disagrees(Run(Initial, steps), place, false) <==> RememberedAndGone(Run(Initial, steps), place)
  {
    RunKeepsInv(steps);
    MemoDisagreesExactly(steps, place, false);
    var s := Run(Initial, steps);
    var held := Held(s.taken, s.gone, place.queue);
    HeldIs(s.taken, s.gone, place.queue);
    if held != [] {
      assert held[0] in held;
      if s.taken[held[0]] == place {
        assert HeldAt(s, place, held[0]);
      }
    }
    if i: nat :| HeldAt(s, place, i) {
      MemoIsSound(steps, place, i, false);
      FirstIs(s.taken, s.gone, i);
    }
  }

  // ---- The memo in place, and a Stream in many queues ----

  /** `stream_heads`: whether a Stream heads every sequence it is in, and the memo after. */
  function StreamHeading(memo: set<Place>, pages: nat -> Page, origin: nat, queues: seq<nat>): (bool, set<Place>)
    decreases |queues|
  {
    if queues == [] then (true, memo) else
    var (first, after) := Heading(memo, Place(queues[0], origin), pages(queues[0]));
    if first then StreamHeading(after, pages, origin, queues[1..]) else (false, after)
  }

  /** The process's memo (`Headed`). */
  class Memo {
    var known: set<Place>

    constructor ()
      ensures known == {}
    {
      known := {};
    }

    method Remember(place: Place)
      modifies this
      ensures known == Remembered(old(known), place)
    {
      if |known| >= REMEMBERED {
        known := {};
      }
      known := known + {place};
    }

    method Heads(queue: nat, member: nat, page: Page) returns (heads: bool)
      modifies this
      ensures (heads, known) == Heading(old(known), Place(queue, member), page)
    {
      if Place(queue, member) in known {
        return true;
      }
      match page.first {
        case Some(first) =>
          if first == member {
            Remember(Place(queue, member));
          }
          heads := first == member;
        case None =>
          heads := page.count == 0;
      }
    }

    method StreamHeads(origin: nat, queues: seq<nat>, pages: nat -> Page) returns (heads: bool)
      modifies this
      ensures (heads, known) == StreamHeading(old(known), pages, origin, queues)
    {
      var i := 0;
      while i < |queues|
        invariant i <= |queues|
        invariant StreamHeading(old(known), pages, origin, queues)
               == StreamHeading(known, pages, origin, queues[i..])
      {
        var first := Heads(queues[i], origin, pages(queues[i]));
        assert queues[i..][1..] == queues[i + 1..];
        if !first {
          return false;
        }
        i := i + 1;
      }
      heads := true;
    }
  }

  /**
   * A Stream held once in each of its sequences is answered to head them all
   * exactly where it does, whatever the memo remembers and lets go of on the way.
   */
  lemma {:induction false} StreamHeadsThemAll(steps: seq<Step>, origin: nat, queues: seq<nat>, at: nat -> nat)
    requires var s := Run(Initial, steps); forall q :: q in queues ==>
      HeldAt(s, Place(q, origin), at(q)) && TakenOnce(s, Place(q, origin), at(q))
    ensures var s := Run(Initial, steps);
      StreamHeading(s.memo, (q: nat) => PageOf(s.taken, s.gone, q, false), origin, queues).0
      <==> forall q :: q in queues ==> LetThrough(s.taken, s.gone, at(q))
    decreases |queues|
  {
    if queues != [] {
      var s := Run(Initial, steps);
      var place := Place(queues[0], origin);
      MemoIsSound(steps, place, at(queues[0]), false);
      if Headed(s, place, false) {
        var asked := steps + [Ask(place, false)];
        assert asked[..|asked| - 1] == steps;
        assert Run(Initial, asked) == Next(s, Ask(place, false));
        assert forall q :: q in queues[1..] ==> q in queues;
        StreamHeadsThemAll(asked, origin, queues[1..], at);
        assert forall q :: q in queues ==> q == queues[0] || q in queues[1..];
      } else {
        assert queues[0] in queues;
      }
    }
  }

  // ---- Places taken ----

  /** A point of a Stream or a Message: its queue, where its key has every part, and whether a failure lets the rest pass. */
  datatype Point = Point(queue: Option<nat>, skips: bool)

  /** What a Journey keeps of a place it took. */
  datatype Sequenced = Sequenced(queue: nat, skips: bool)

  /** How many points come before the first whose key lacks a part. */
  function Keyed(points: seq<Point>): (n: nat)
    ensures n <= |points|
    ensures forall i :: 0 <= i < n ==> points[i].queue.Some?
    ensures n < |points| ==> points[n].queue.None?
  {
    if points == [] || points[0].queue.None? then 0 else 1 + Keyed(points[1..])
  }

  function SequencedAt(points: seq<Point>): seq<Sequenced>
    requires forall i :: 0 <= i < |points| ==> points[i].queue.Some?
  {
    seq(|points|, i requires 0 <= i < |points| && points[i].queue.Some? => Sequenced(points[i].queue.value, points[i].skips))
  }

  /** What a Stream's Journeys are told of where it came in. */
  datatype Origin = Origin(sequences: seq<nat>, skips: bool)

  /**
   * `received`: a Stream's places, one in the queue of each of its points and in
   * their order, all held by its origin, for the one write that takes them; none
   * where a key lacks a part.
   */
  method Received(points: seq<Point>, origin: nat) returns (r: Option<(Origin, seq<Place>)>)
    ensures r.Some? <==> Keyed(points) == |points|
    ensures r.Some? ==>
      var (told, places) := r.value;
      && |told.sequences| == |places| == |points|
      && (told.skips <==> exists i :: 0 <= i < |points| && points[i].skips)
      && forall i :: 0 <= i < |points| ==> points[i].queue == Some(told.sequences[i]) && places[i] == Place(told.sequences[i], origin)
  {
    var sequences, places := [], [];
    var i := 0;
    while i < |points|
      invariant i <= |points| && |sequences| == |places| == i && i <= Keyed(points)
      invariant forall k :: 0 <= k < i ==> points[k].queue == Some(sequences[k]) && places[k] == Place(sequences[k], origin)
    {
      if points[i].queue.None? {
        return None;
      }
      sequences := sequences + [points[i].queue.value];
      places := places + [Place(points[i].queue.value, origin)];
      i := i + 1;
    }
    var skips := exists k :: 0 <= k < |points| && points[k].skips;
    r := Some((Origin(sequences, skips), places));
  }

  /** A Message's Journey, told of each place it takes. */
  class Journey {
    const member: nat
    var sequences: seq<Sequenced>

    constructor (member: nat)
      ensures this.member == member && sequences == []
    {
      this.member, sequences := member, [];
    }

    /**
     * `placed`: the Journey's places at its destination, told it as they are found. A
     * key that lacks a part gives no place to take, the Journey told of those before it.
     */
    method Placed(points: seq<Point>) returns (r: Option<seq<Place>>)
      modifies this
      ensures r.Some? <==> Keyed(points) == |points|
      ensures sequences == old(sequences) + SequencedAt(points[..Keyed(points)])
      ensures r.Some? ==> |r.value| == |points| && forall i :: 0 <= i < |points| ==>
        r.value[i] == Place(sequences[|old(sequences)| + i].queue, member)
    {
      var places := [];
      var i := 0;
      while i < |points|
        invariant i <= Keyed(points) && |places| == i
        invariant sequences == old(sequences) + SequencedAt(points[..i])
        invariant forall k :: 0 <= k < i ==> places[k] == Place(sequences[|old(sequences)| + k].queue, member)
      {
        if points[i].queue.None? {
          return None;
        }
        var queue := points[i].queue.value;
        assert SequencedAt(points[..i + 1]) == SequencedAt(points[..i]) + [Sequenced(queue, points[i].skips)];
        sequences := sequences + [Sequenced(queue, points[i].skips)];
        places := places + [Place(queue, member)];
        i := i + 1;
      }
      assert points[..i] == points;
      r := Some(places);
    }
  }
}
