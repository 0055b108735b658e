/**
 * Migration between the shared reads of a Stream ends (src/stream_share.rs,
 * `moved`): while no departure joins a read anew, the moves it allows cannot go
 * on for ever, reads no departure takes from being let go of and the others
 * changing place among themselves.
 */
module Migration {
  import opened Wrappers
  import opened Sums
  import opened StreamShare

  // ---- The number of departures on each read ----

  function Counts(list: seq<OneRead>): seq<nat> {
    seq(|list|, i requires 0 <= i < |list| => |list[i].readers|)
  }

  function Squares(c: seq<nat>): seq<nat> {
    seq(|c|, i requires 0 <= i < |c| => c[i] * c[i])
  }

  function Places(c: seq<nat>): seq<nat> {
    seq(|c|, i requires 0 <= i < |c| => i * c[i])
  }

  /** One departure less on the read at `at`, which is let go of where it was the last. */
  function Left(c: seq<nat>, at: nat): seq<nat>
    requires at < |c| && c[at] > 0
  {
    if c[at] == 1 then c[..at] + c[at + 1..] else c[at := c[at] - 1]
  }

  function Moved(c: seq<nat>, mine: nat, to: nat): seq<nat>
    requires mine < |c| && to < |c| && mine != to && c[mine] > 0
  {
    Left(c[to := c[to] + 1], mine)
  }

  /** What `moved` asks of the reads' counts. */
  predicate Allowed(c: seq<nat>, mine: nat, to: nat) {
    && mine < |c| && to < |c| && mine != to && c[mine] > 0
    && (c[to] > c[mine] - 1 || (c[to] == c[mine] - 1 && to < mine))
  }

  /**
   * The measure: departures first, each worth more than all that follows; then
   * how far the squares of the counts are below their most; then the places.
   */
  function Measure(c: seq<nat>, w: nat, b: nat): int {
    Sum(c) * b + (Sum(c) * Sum(c) - Sum(Squares(c))) * w + Sum(Places(c))
  }

  function Bound(c: seq<nat>): int {
    Measure(c, Wide(c), High(c))
  }

  function Wide(c: seq<nat>): nat {
    Sum(c) * |c| + 1
  }

  function High(c: seq<nat>): nat {
    (Sum(c) * Sum(c) + 1) * Wide(c)
  }

  lemma {:induction false} SumOfSquares(c: seq<nat>)
    ensures Sum(Squares(c)) <= Sum(c) * Sum(c)
  {
    if c != [] {
      assert Squares(c)[1..] == Squares(c[1..]);
      SumOfSquares(c[1..]);
      SquareOfSum(c[0], Sum(c[1..]));
    }
  }

  lemma {:induction false} SquareOfSum(x: nat, y: nat)
    ensures x * x + y * y <= (x + y) * (x + y)
  {
    assert (x + y) * (x + y) == x * x + 2 * (x * y) + y * y;
    assert x * y >= 0;
  }

  lemma {:induction false} SumOfPlaces(c: seq<nat>)
    ensures Sum(Places(c)) <= |c| * Sum(c)
  {
    if c == [] {
    } else {
      var n := |c| - 1;
      assert c == c[..n] + [c[n]];
      assert Places(c) == Places(c[..n]) + [n * c[n]];
      SumAppend(c[..n], [c[n]]);
      SumAppend(Places(c[..n]), [n * c[n]]);
      SumOfPlaces(c[..n]);
      assert n * (Sum(c[..n]) + c[n]) == n * Sum(c[..n]) + n * c[n];
      assert |c| * Sum(c) == n * Sum(c) + Sum(c);
    }
  }

  lemma {:induction false} SumWithout(c: seq<nat>, at: nat)
    requires at < |c|
    ensures Sum(c[..at] + c[at + 1..]) + c[at] == Sum(c)
  {
    assert c == c[..at] + ([c[at]] + c[at + 1..]);
    SumAppend(c[..at], [c[at]] + c[at + 1..]);
    SumAppend(c[..at], c[at + 1..]);
    assert ([c[at]] + c[at + 1..])[1..] == c[at + 1..];
  }

  /** One departure gone: the sum of the counts and of their squares. */
  lemma {:induction false} LeftSums(c: seq<nat>, at: nat)
    requires at < |c| && c[at] > 0
    ensures Sum(Left(c, at)) == Sum(c) - 1
    ensures Sum(Squares(Left(c, at))) == Sum(Squares(c)) - 2 * c[at] + 1
    ensures |Left(c, at)| <= |c|
  {
    var left := Left(c, at);
    if c[at] == 1 {
      SumWithout(c, at);
      assert Squares(left) == Squares(c)[..at] + Squares(c)[at + 1..];
      SumWithout(Squares(c), at);
    } else {
      SumUpdate(c, at, c[at] - 1);
      var x := (c[at] - 1) * (c[at] - 1);
      assert Squares(left) == Squares(c)[at := x];
      SumUpdate(Squares(c), at, x);
      SquareOfLess(c[at]);
    }
  }

  lemma {:induction false} SquareOfLess(x: int)
    ensures (x - 1) * (x - 1) == x * x - 2 * x + 1
  {
  }

  lemma {:induction false} SquareOfMore(x: int)
    ensures (x + 1) * (x + 1) == x * x + 2 * x + 1
  {
  }

  lemma {:induction false} JoinedSums(c: seq<nat>, to: nat)
    requires to < |c|
    ensures var joined := c[to := c[to] + 1];
      && Sum(joined) == Sum(c) + 1
      && Sum(Squares(joined)) == Sum(Squares(c)) + 2 * c[to] + 1
      && Sum(Places(joined)) == Sum(Places(c)) + to
  {
    var joined := c[to := c[to] + 1];
    SumUpdate(c, to, c[to] + 1);
    var x := (c[to] + 1) * (c[to] + 1);
    assert Squares(joined) == Squares(c)[to := x];
    SumUpdate(Squares(c), to, x);
    SquareOfMore(c[to]);
    assert to * (c[to] + 1) == to * c[to] + to;
    assert Places(joined) == Places(c)[to := to * c[to] + to];
    SumUpdate(Places(c), to, to * c[to] + to);
  }

  lemma {:induction false} StayingPlaces(c: seq<nat>, at: nat)
    requires at < |c| && c[at] > 1
    ensures Sum(Places(Left(c, at))) == Sum(Places(c)) - at
  {
    assert at * (c[at] - 1) == at * c[at] - at;
    assert Places(Left(c, at)) == Places(c)[at := at * c[at] - at];
    SumUpdate(Places(c), at, at * c[at] - at);
  }

  /**
   * A move either raises the sum of the squares of the counts, or leaves it and
   * takes a departure to a read opened before, none being let go of.
   */
  lemma {:induction false} MovedSums(c: seq<nat>, mine: nat, to: nat)
    requires Allowed(c, mine, to) && c[to] > 0
    ensures var moved := Moved(c, mine, to);
      && Sum(moved) == Sum(c) && |moved| <= |c|
      && (|| Sum(Squares(moved)) >= Sum(Squares(c)) + 2
          || (Sum(Squares(moved)) == Sum(Squares(c)) && |moved| == |c| && Sum(Places(moved)) < Sum(Places(c))))
  {
    var joined := c[to := c[to] + 1];
    JoinedSums(c, to);
    LeftSums(joined, mine);
    if c[to] == c[mine] - 1 {
      StayingPlaces(joined, mine);
    }
  }

  lemma {:induction false} MoveLowers(c: seq<nat>, mine: nat, to: nat, w: nat, b: nat)
    requires Allowed(c, mine, to) && c[to] > 0 && w > Sum(c) * |c|
    ensures Measure(Moved(c, mine, to), w, b) < Measure(c, w, b)
  {
    var moved := Moved(c, mine, to);
    MovedSums(c, mine, to);
    var n := Sum(c);
    SumOfPlaces(moved);
    assert |moved| * n <= |c| * n by {
      Ordered(|moved|, |c|, n);
    }
    var (p, q) := (n * n - Sum(Squares(c)), n * n - Sum(Squares(moved)));
    if q <= p - 2 {
      Ordered(q, p - 2, w);
      assert (p - 2) * w == p * w - 2 * w;
    } else {
      assert q == p;
    }
  }

  lemma {:induction false} DropLowers(c: seq<nat>, at: nat, w: nat, b: nat, n: nat)
    requires at < |c| && c[at] > 0 && Sum(c) <= n
    requires w > Sum(c) * |c| && b >= (n * n + 1) * w
    ensures Measure(Left(c, at), w, b) < Measure(c, w, b)
  {
    var left := Left(c, at);
    LeftSums(c, at);
    SumOfPlaces(left);
    SumOfSquares(c);
    var m := Sum(left);
    Ordered(|left|, |c|, m);
    Ordered(m, Sum(c), |c|);
    Ordered(m, n, m);
    Ordered(m, n, n);
    Ordered(0, Sum(c) * Sum(c) - Sum(Squares(c)), w);
    DropArithmetic(m, n, m * m - Sum(Squares(left)), w, b);
  }

  lemma {:induction false} DropArithmetic(m: nat, n: nat, p: int, w: nat, b: nat)
    requires p <= n * n && b >= (n * n + 1) * w
    ensures m * b + p * w + w <= (m + 1) * b
  {
    Ordered(p, n * n, w);
    assert (n * n + 1) * w == n * n * w + w;
    assert (m + 1) * b == m * b + b;
  }

  // ---- The counts of the reads of a reachable state ----

  lemma {:induction false} Crowd(readers: map<nat, nat>, number: nat, place: nat)
    ensures number in readers ==> |readers - {number}| + 1 == |readers| && |readers[number := place]| == |readers|
    ensures number !in readers ==> |readers[number := place]| == |readers| + 1
    ensures |readers| == 0 <==> readers == map[]
  {
    assert (readers - {number}).Keys == readers.Keys - {number};
    assert readers[number := place].Keys == readers.Keys + {number};
    assert |readers| == |readers.Keys|;
    if |readers| == 0 {
      assert readers.Keys == {};
    }
  }

  lemma {:induction false} LeaveCounts(list: seq<OneRead>, id: nat, number: nat)
    requires Index(list, id) < |list| && number in list[Index(list, id)].readers
    ensures Counts(list)[Index(list, id)] > 0
    ensures Counts(Leave(list, id, number)) == Left(Counts(list), Index(list, id))
  {
    var at := Index(list, id);
    var left := list[at].(readers := list[at].readers - {number});
    Crowd(list[at].readers, number, 0);
    Crowd(left.readers, number, 0);
    if left.readers == map[] {
      assert Counts(Removed(list, at)) == Counts(list)[..at] + Counts(list)[at + 1..];
    } else {
      assert Counts(list[at := left]) == Counts(list)[at := Counts(list)[at] - 1];
    }
  }

  /** Whether a move of departure `number` takes it to another read. */
  predicate Moves(s: State, number: nat, busy: set<nat>) {
    Through(s, number) && MovedTo(s.list, s.lents[number].read, number, s.lents[number].place, busy).Some?
  }

  /** On the list the departure joined `to`, what it had stays where it was. */
  lemma {:induction false} StillThere(list: seq<OneRead>, id: nat, to: nat, number: nat, place: nat)
    requires Index(list, id) < |list| && to < |list| && to != Index(list, id)
    ensures var joined := list[to := Join(list[to], number, place)];
      Index(joined, id) == Index(list, id) && joined[Index(list, id)] == list[Index(list, id)]
  {
    var joined := list[to := Join(list[to], number, place)];
    var i, j := Index(list, id), Index(joined, id);
    assert joined[i].id == id;
    assert j <= i;
    assert list[j].id == joined[j].id == id;
  }

  lemma {:induction false} MoveCounts(s: State, number: nat, busy: set<nat>, t: State) returns (mine: nat, to: nat)
    requires Inv(s) && Moves(s, number, busy) && Next(s, Move(number, busy)) == Some(t)
    ensures Allowed(Counts(s.list), mine, to) && Counts(s.list)[to] > 0
    ensures Counts(t.list) == Moved(Counts(s.list), mine, to)
  {
    hide Inv;
    var lent := s.lents[number];
    mine := OnItsRead(s, number);
    Crowd(s.list[mine].readers, number, 0);
    to := MoveIs(s, number, busy, t, mine);
    hide Next, Moves, Draws, Leave;
    OnlyOnItsRead(s, number, to);
    Crowd(s.list[to].readers, number, 0);
    MovedCounts(s.list, lent.read, to, number, lent.place);
  }

  lemma {:induction false} MoveIs(s: State, number: nat, busy: set<nat>, t: State, mine: nat) returns (to: nat)
    requires Moves(s, number, busy) && Next(s, Move(number, busy)) == Some(t)
    requires mine == Index(s.list, s.lents[number].read) < |s.list| && |s.list[mine].readers| > 0
    ensures to < |s.list| && to != mine
    ensures t.list == Leave(s.list[to := Join(s.list[to], number, s.lents[number].place)], s.lents[number].read, number)
    ensures Allowed(Counts(s.list), mine, to)
  {
    hide Reaches, Leave, Join;
    to := Drawn(s.list, mine, s.lents[number].place, busy, 0);
  }

  lemma {:induction false} MovedCounts(list: seq<OneRead>, id: nat, to: nat, number: nat, place: nat)
    requires Index(list, id) < |list| && to < |list| && to != Index(list, id)
    requires number in list[Index(list, id)].readers && number !in list[to].readers
    ensures Counts(list)[Index(list, id)] > 0
    ensures Counts(Leave(list[to := Join(list[to], number, place)], id, number))
         == Moved(Counts(list), Index(list, id), to)
  {
    var joined := list[to := Join(list[to], number, place)];
    Crowd(list[Index(list, id)].readers, number, 0);
    StillThere(list, id, to, number, place);
    Crowd(list[to].readers, number, place);
    assert Counts(joined) == Counts(list)[to := Counts(list)[to] + 1];
    LeaveCounts(joined, id, number);
  }

  /** A departure is known to no read but its own, and a read kept is read by one at least. */
  lemma {:induction false} OnlyOnItsRead(s: State, number: nat, to: nat)
    requires Inv(s) && number in s.lents && to < |s.list|
    ensures to != Index(s.list, s.lents[number].read) ==> number !in s.list[to].readers
    ensures s.list[to].readers != map[]
  {
    OnShelfAt(s.list, to);
    OnShelf(s.list, s.lents[number].read);
  }

  /** A look changes no read's departures. */
  lemma {:induction false} LookCounts(s: State, number: nat, answers: bool)
    requires Inv(s) && Taking(s, number)
    ensures Index(s.list, s.lents[number].read) < |s.list|
    ensures Counts(Next(s, Look(number, answers)).value.list) == Counts(s.list)
  {
    hide ListOk, LentsOk, Attached;
    var lent := s.lents[number];
    var at := OnItsRead(s, number);
    LookIsAfterLook(s, number, answers);
    LookKeepsRead(s.stored, s.list[at], number, lent.place, answers);
    var read := Looked(s.stored, s.list[at], number, lent.place, answers).0;
    Crowd(s.list[at].readers, number, lent.place + 1);
    assert Counts(s.list[at := read]) == Counts(s.list);
  }

  // ---- Whole runs ----

  /** Whether no departure joins a read on the run, newly opened or fallen behind. */
  predicate Settled(steps: seq<Step>) {
    forall k :: 0 <= k < |steps| ==> !steps[k].JoinRead?
  }

  /** Whether a step takes a departure off its read: to another, behind it, or for good. */
  predicate Migrates(s: State, step: Step) {
    || step.Drop? || step.FallBehind?
    || (step.Move? && Moves(s, step.number, step.busy))
  }

  /** How many times a departure left its read. */
  function Migrations(s: State, steps: seq<Step>): nat
    requires Run(s, steps).Some?
  {
    if steps == [] then 0 else
    var before := Run(s, steps[..|steps| - 1]).value;
    Migrations(s, steps[..|steps| - 1]) + if Migrates(before, steps[|steps| - 1]) then 1 else 0
  }

  lemma {:induction false} StepLowers(s: State, step: Step, t: State, w: nat, b: nat, n: nat)
    requires Inv(s) && Next(s, step) == Some(t) && !step.JoinRead?
    requires Sum(Counts(s.list)) <= n && w > n * |s.list| && b >= (n * n + 1) * w
    ensures Sum(Counts(t.list)) <= Sum(Counts(s.list)) && |t.list| <= |s.list|
    ensures Measure(Counts(t.list), w, b) <= Measure(Counts(s.list), w, b)
    ensures Migrates(s, step) ==> Measure(Counts(t.list), w, b) < Measure(Counts(s.list), w, b)
  {
    var c := Counts(s.list);
    Ordered(Sum(c), n, |s.list|);
    match step
    case Move(number, busy) =>
      if Moves(s, number, busy) {
        var mine, to := MoveCounts(s, number, busy, t);
        MovedSums(c, mine, to);
        MoveLowers(c, mine, to, w, b);
        assert |Counts(t.list)| == |t.list|;
      }
    case Look(number, answers) => LookCounts(s, number, answers);
      assert |Counts(t.list)| == |t.list|;
    case Drop(number) => LeavingLowers(s, number, t, w, b, n);
    case FallBehind(number) => LeavingLowers(s, number, t, w, b, n);
    case _ =>
  }

  lemma {:induction false} LeavingLowers(s: State, number: nat, t: State, w: nat, b: nat, n: nat)
    requires Inv(s) && number in s.lents && t.list == Leave(s.list, s.lents[number].read, number)
    requires Sum(Counts(s.list)) <= n && w > n * |s.list| && b >= (n * n + 1) * w
    ensures Sum(Counts(t.list)) <= Sum(Counts(s.list)) && |t.list| <= |s.list|
    ensures Measure(Counts(t.list), w, b) < Measure(Counts(s.list), w, b)
  {
    var c := Counts(s.list);
    Ordered(Sum(c), n, |s.list|);
    var at := OnItsRead(s, number);
    LeaveCounts(s.list, s.lents[number].read, number);
    LeftSums(c, at);
    DropLowers(c, at, w, b, n);
    assert |Counts(t.list)| == |t.list|;
  }

  lemma {:induction false} RunLowers(s: State, steps: seq<Step>, t: State, w: nat, b: nat, n: nat)
    requires Inv(s) && Run(s, steps) == Some(t) && Settled(steps)
    requires Sum(Counts(s.list)) == n && w > n * |s.list| && b >= (n * n + 1) * w
    ensures Inv(t) && Sum(Counts(t.list)) <= n && |t.list| <= |s.list|
    ensures Migrations(s, steps) <= Measure(Counts(s.list), w, b) - Measure(Counts(t.list), w, b)
  {
    if steps != [] {
      var before := Run(s, steps[..|steps| - 1]).value;
      RunLowers(s, steps[..|steps| - 1], before, w, b, n);
      NextKeepsInv(before, steps[|steps| - 1], t);
      Ordered(|before.list|, |s.list|, n);
      StepLowers(before, steps[|steps| - 1], t, w, b, n);
    }
  }

  /**
   * Migration ends: from any reachable state, however long the run goes on with
   * no departure joining a read, departures move, fall behind and leave no more
   * often than the counts of the reads it began with allow.
   */
  lemma {:induction false} MigrationEnds(stored: Stored, before: seq<Step>, s: State, steps: seq<Step>, t: State)
    requires Run(Initial(stored), before) == Some(s) && Run(s, steps) == Some(t) && Settled(steps)
    ensures Migrations(s, steps) <= Bound(Counts(s.list))
  {
    RunKeepsInv(stored, before, s);
    MigrationEndsFrom(s, steps, t);
  }

  lemma {:induction false} MigrationEndsFrom(s: State, steps: seq<Step>, t: State)
    requires Inv(s) && Run(s, steps) == Some(t) && Settled(steps)
    ensures Migrations(s, steps) <= Bound(Counts(s.list))
  {
    hide Inv, Measure, Wide, High, Run, Settled, Migrations;
    var c := Counts(s.list);
    assert |c| == |s.list|;
    Enough(c);
    RunLowers(s, steps, t, Wide(c), High(c), Sum(c));
    NotBelowNothing(Counts(t.list), Wide(c), High(c));
  }

  lemma {:induction false} Enough(c: seq<nat>)
    ensures Wide(c) > Sum(c) * |c| && High(c) == (Sum(c) * Sum(c) + 1) * Wide(c)
  {
  }

  lemma {:induction false} NotBelowNothing(c: seq<nat>, w: nat, b: nat)
    ensures Measure(c, w, b) >= 0
  {
    SumOfSquares(c);
    Ordered(0, Sum(c) * Sum(c) - Sum(Squares(c)), w);
    Ordered(0, Sum(c), b);
  }
}
