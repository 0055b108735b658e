/**
 * What a sequence is called in the Ledger (src/sequence.rs, `Point::queue`;
 * src/work_step/keys.rs, `ResolvedSet::text`): the point, the Correlation named
 * there and the key's values written out in full. Equal keys share a queue and
 * different ones must not, so what matters is which texts are equal.
 */
module QueueNames {
  import opened Wrappers

  type Text = string

  datatype PointKind = ReceiveLocation | ReceivePort | WorkProcess | SendPortGroup | SendPort | SendLocation

  function Word(kind: PointKind): Text {
    match kind
    case ReceiveLocation => "receive-location"
    case ReceivePort => "receive-port"
    case WorkProcess => "work-process"
    case SendPortGroup => "send-port-group"
    case SendPort => "send-port"
    case SendLocation => "send-location"
  }

  // ---- A key's values, each with its length before it ----

  function Digit(d: nat): char
    requires d < 10
  {
    "0123456789"[d]
  }

  function Decimal(n: nat): Text {
    if n < 10 then [Digit(n)] else Decimal(n / 10) + [Digit(n % 10)]
  }

  function Value(c: char): nat {
    if '0' <= c <= '9' then c as nat - '0' as nat else 0
  }

  function Number(t: Text): nat {
    if t == [] then 0 else 10 * Number(t[..|t| - 1]) + Value(t[|t| - 1])
  }

  /** `ResolvedSet::text`, over the values found for the set's keys. */
  function KeyText(values: seq<Text>): Text {
    if values == [] then [] else Decimal(|values[0]|) + ":" + values[0] + ";" + KeyText(values[1..])
  }

  /** Where `c` first stands in `t`, its length where it does not. */
  function Until(t: Text, c: char): (at: nat)
    ensures at <= |t|
    ensures at < |t| ==> t[at] == c
    ensures forall i :: 0 <= i < at ==> t[i] != c
  {
    if t == [] || t[0] == c then 0 else 1 + Until(t[1..], c)
  }

  /** The values a key's text was written from. */
  function ReadKey(t: Text): Option<seq<Text>>
    decreases |t|
  {
    if t == [] then Some([]) else
    var colon := Until(t, ':');
    if colon == |t| then None else
    var rest := t[colon + 1..];
    var n := Number(t[..colon]);
    if n >= |rest| || rest[n] != ';' then None else
    match ReadKey(rest[n + 1..])
    case None => None
    case Some(values) => Some([rest[..n]] + values)
  }

  lemma {:induction false} DecimalReads(n: nat)
    ensures Number(Decimal(n)) == n && ':' !in Decimal(n)
  {
    var t := Decimal(n);
    if n < 10 {
      assert t[..|t| - 1] == [];
    } else {
      DecimalReads(n / 10);
      assert t[..|t| - 1] == Decimal(n / 10);
    }
  }

  lemma {:induction false} UntilIs(before: Text, c: char, after: Text)
    requires c !in before
    ensures Until(before + [c] + after, c) == |before|
  {
    var t := before + [c] + after;
    assert t[|before|] == c;
    assert forall i :: 0 <= i < |before| ==> t[i] == before[i];
  }

  /** A key's text reads back as the values it was written from, whatever they hold. */
  lemma {:induction false} KeyReadsBack(values: seq<Text>)
    ensures ReadKey(KeyText(values)) == Some(values)
  {
    if values != [] {
      var t := KeyText(values);
      var length := Decimal(|values[0]|);
      var rest := values[0] + ";" + KeyText(values[1..]);
      assert t == length + [':'] + rest;
      DecimalReads(|values[0]|);
      UntilIs(length, ':', rest);
      assert t[..|length|] == length && t[|length| + 1..] == rest;
      assert rest[..|values[0]|] == values[0] && rest[|values[0]|] == ';';
      assert rest[|values[0]| + 1..] == KeyText(values[1..]);
      KeyReadsBack(values[1..]);
      assert [values[0]] + values[1..] == values;
    }
  }

  /** No two tuples of values write the same key. */
  lemma {:induction false} KeysAreOneToOne(a: seq<Text>, b: seq<Text>)
    ensures KeyText(a) == KeyText(b) <==> a == b
  {
    KeyReadsBack(a);
    KeyReadsBack(b);
  }

  // ---- A queue's text ----

  function Tail(name: Text, correlation: Text, key: Text): Text {
    name + "/" + correlation + "/" + key
  }

  /** `Point::queue`, the text its number is made of. */
  function QueueText(cluster: Text, kind: PointKind, name: Text, correlation: Text, key: Text): Text {
    cluster + "/sequence/" + (Word(kind) + "/" + Tail(name, correlation, key))
  }

  predicate Plain(t: Text) {
    '/' !in t
  }

  /** The name, the Correlation and the key a text splits into at its first two slashes. */
  function Split(t: Text): Option<(Text, Text, Text)> {
    var first := Until(t, '/');
    if first == |t| then None else
    var rest := t[first + 1..];
    var second := Until(rest, '/');
    if second == |rest| then None else
    Some((t[..first], rest[..second], rest[second + 1..]))
  }

  lemma {:induction false} PlainSplits(name: Text, correlation: Text, key: Text)
    requires Plain(name) && Plain(correlation)
    ensures Split(Tail(name, correlation, key)) == Some((name, correlation, key))
  {
    var t := Tail(name, correlation, key);
    var rest := correlation + "/" + key;
    assert t == name + ['/'] + rest;
    UntilIs(name, '/', rest);
    assert t[|name| + 1..] == rest && t[..|name|] == name;
    assert rest == correlation + ['/'] + key;
    UntilIs(correlation, '/', key);
    assert rest[..|correlation|] == correlation && rest[|correlation| + 1..] == key;
  }

  /** What a text splits into is plain, and writes that text again. */
  lemma {:induction false} SplitWrites(t: Text)
    requires Split(t).Some?
    ensures var (name, correlation, key) := Split(t).value;
      Plain(name) && Plain(correlation) && Tail(name, correlation, key) == t
  {
    var first := Until(t, '/');
    var rest := t[first + 1..];
    var second := Until(rest, '/');
    CutAt(t, first);
    CutAt(rest, second);
    Grouped(t[..first], rest[..second], rest[second + 1..]);
  }

  lemma {:induction false} CutAt(t: Text, at: nat)
    requires at < |t| && t[at] == '/'
    ensures t == t[..at] + ("/" + t[at + 1..])
  {
  }

  lemma {:induction false} Grouped(a: Text, b: Text, c: Text)
    ensures a + ("/" + (b + ("/" + c))) == Tail(a, b, c)
  {
  }

  lemma {:induction false} TailSplits(name: Text, correlation: Text, key: Text)
    ensures Split(Tail(name, correlation, key)).Some?
  {
    var t := Tail(name, correlation, key);
    assert t[|name|] == '/';
    var first := Until(t, '/');
    var at := |name| + 1 + |correlation|;
    assert t[at] == '/';
    assert t[first + 1..][at - first - 1] == '/';
  }

  /**
   * A point's queue is shared with one of another name, Correlation or key,
   * neither named with a slash, exactly where its own name or its Correlation's
   * holds one.
   */
  lemma {:induction false} SharedExactlyBySlashes(name: Text, correlation: Text, key: Text)
    ensures (exists n, c, k :: Plain(n) && Plain(c) && (n, c, k) != (name, correlation, key) && Tail(n, c, k) == Tail(name, correlation, key))
       <==> !Plain(name) || !Plain(correlation)
  {
    if Plain(name) && Plain(correlation) {
      PlainSplits(name, correlation, key);
      forall n, c, k | Plain(n) && Plain(c) && Tail(n, c, k) == Tail(name, correlation, key)
        ensures (n, c, k) == (name, correlation, key)
      {
        PlainSplits(n, c, k);
      }
    } else {
      TailSplits(name, correlation, key);
      SplitWrites(Tail(name, correlation, key));
      var (n, c, k) := Split(Tail(name, correlation, key)).value;
      assert Plain(n) && Plain(c) && Tail(n, c, k) == Tail(name, correlation, key);
    }
  }

  lemma {:induction false} FirstSlash(a: Text, t: Text, b: Text, u: Text)
    requires Plain(a) && Plain(b) && a + ['/'] + t == b + ['/'] + u
    ensures a == b && t == u
  {
    var x := a + ['/'] + t;
    UntilIs(a, '/', t);
    UntilIs(b, '/', u);
    assert a == x[..|a|] && t == x[|a| + 1..];
    assert b == x[..|b|] && u == x[|b| + 1..];
  }

  lemma {:induction false} WordsDiffer(a: PointKind, b: PointKind)
    ensures Plain(Word(a))
    ensures Word(a) == Word(b) ==> a == b
  {
    if Word(a) == Word(b) {
      assert |Word(a)| == |Word(b)| && Word(a)[0] == Word(b)[0] && Word(a)[5] == Word(b)[5];
    }
  }

  lemma {:induction false} KindsDiffer(a: PointKind, b: PointKind, t: Text, u: Text)
    requires Word(a) + "/" + t == Word(b) + "/" + u
    ensures a == b && t == u
  {
    hide Word;
    WordsDiffer(a, b);
    WordsDiffer(b, a);
    FirstSlash(Word(a), t, Word(b), u);
  }

  lemma {:induction false} Cancel(before: Text, t: Text, u: Text)
    requires before + t == before + u
    ensures t == u
  {
    assert t == (before + t)[|before|..] == (before + u)[|before|..] == u;
  }

  /**
   * Equal keys share a queue and different ones never do: at points named
   * without a slash, two texts are equal exactly where the point, the
   * Correlation and every value of the key are.
   */
  lemma {:induction false} QueuesAreOneToOne(
      cluster: Text, a: PointKind, name: Text, correlation: Text, values: seq<Text>,
      b: PointKind, name': Text, correlation': Text, values': seq<Text>)
    requires Plain(name) && Plain(correlation) && Plain(name') && Plain(correlation')
    ensures QueueText(cluster, a, name, correlation, KeyText(values))
         == QueueText(cluster, b, name', correlation', KeyText(values'))
       <==> a == b && name == name' && correlation == correlation' && values == values'
  {
    var t, u := Tail(name, correlation, KeyText(values)), Tail(name', correlation', KeyText(values'));
    if QueueText(cluster, a, name, correlation, KeyText(values)) == QueueText(cluster, b, name', correlation', KeyText(values')) {
      Cancel(cluster + "/sequence/", Word(a) + "/" + t, Word(b) + "/" + u);
      KindsDiffer(a, b, t, u);
      PlainSplits(name, correlation, KeyText(values));
      PlainSplits(name', correlation', KeyText(values'));
      KeysAreOneToOne(values, values');
    }
  }
}
