/**
 * The Streams a node's departures read at once (src/stream_share.rs,
 * `StreamShare::reader`): one set of shared reads for each, found by its Stream
 * while any departure holds it, and let go of with the last.
 */
module Shares {
  import opened Wrappers

  /** A departure's hold of a Stream's shared reads, or let go of. */
  datatype Lent = Lent(stream: nat, shared: nat, live: bool)

  /** Which shared reads each Stream was given last, weakly held, and every departure so far. */
  datatype State = State(streams: map<nat, nat>, minted: nat, lents: seq<Lent>)

  const Initial: State := State(map[], 0, [])

  datatype Step = Reader(stream: nat) | Drop(lent: nat)

  /** Whether any departure holds these shared reads. */
  predicate Held(lents: seq<Lent>, shared: nat) {
    exists i :: 0 <= i < |lents| && lents[i].live && lents[i].shared == shared
  }

  /** The Streams whose shared reads are held still. */
  function Retained(s: State): map<nat, nat> {
    map stream | stream in s.streams && Held(s.lents, s.streams[stream]) :: s.streams[stream]
  }

  function Next(s: State, step: Step): Option<State> {
    match step
    case Reader(stream) =>
      var streams := Retained(s);
      if stream in streams then Some(s.(streams := streams, lents := s.lents + [Lent(stream, streams[stream], true)]))
      else Some(State(streams[stream := s.minted], s.minted + 1, s.lents + [Lent(stream, s.minted, true)]))
    case Drop(i) =>
      if i >= |s.lents| || !s.lents[i].live then None
      else Some(s.(lents := s.lents[i := s.lents[i].(live := false)]))
  }

  function Run(s: State, steps: seq<Step>): Option<State> {
    if steps == [] then Some(s)
    else match Run(s, steps[..|steps| - 1])
      case None => None
      case Some(t) => Next(t, steps[|steps| - 1])
  }

  ghost predicate Inv(s: State) {
    && (forall i :: 0 <= i < |s.lents| && s.lents[i].live ==>
          s.lents[i].stream in s.streams && s.streams[s.lents[i].stream] == s.lents[i].shared)
    && (forall i :: 0 <= i < |s.lents| ==> s.lents[i].shared < s.minted)
    && (forall stream :: stream in s.streams ==> s.streams[stream] < s.minted)
    && (forall a, b :: a in s.streams && b in s.streams && s.streams[a] == s.streams[b] ==> a == b)
    && (forall i, j :: 0 <= i < |s.lents| && 0 <= j < |s.lents| && s.lents[i].shared == s.lents[j].shared ==>
          s.lents[i].stream == s.lents[j].stream)
    && (forall stream, i :: stream in s.streams && 0 <= i < |s.lents| && s.lents[i].shared == s.streams[stream] ==>
          s.lents[i].stream == stream)
  }

  lemma {:induction false} NextKeepsInv(s: State, step: Step, t: State)
    requires Inv(s) && Next(s, step) == Some(t)
    ensures Inv(t)
  {
    match step
    case Drop(_) =>
    case Reader(stream) =>
      RetainedKeeps(s);
      hide Inv, Retained;
      var kept := s.(streams := Retained(s));
      if stream in kept.streams {
        AnotherKeeps(kept, stream);
      } else {
        FreshKeeps(kept, stream);
      }
  }

  lemma {:induction false} RetainedKeeps(s: State)
    requires Inv(s)
    ensures Inv(s.(streams := Retained(s)))
  {
    forall i | 0 <= i < |s.lents| && s.lents[i].live
      ensures s.lents[i].stream in Retained(s) && Retained(s)[s.lents[i].stream] == s.lents[i].shared
    {
      assert Held(s.lents, s.lents[i].shared);
    }
  }

  lemma {:induction false} AnotherKeeps(s: State, stream: nat)
    requires Inv(s) && stream in s.streams
    ensures Inv(s.(lents := s.lents + [Lent(stream, s.streams[stream], true)]))
  {
  }

  lemma {:induction false} FreshKeeps(s: State, stream: nat)
    requires Inv(s) && stream !in s.streams
    ensures Inv(State(s.streams[stream := s.minted], s.minted + 1, s.lents + [Lent(stream, s.minted, true)]))
  {
  }

  lemma {:induction false} RunKeepsInv(steps: seq<Step>, s: State)
    requires Run(Initial, steps) == Some(s)
    ensures Inv(s)
  {
    if steps != [] {
      var before := Run(Initial, steps[..|steps| - 1]).value;
      RunKeepsInv(steps[..|steps| - 1], before);
      NextKeepsInv(before, steps[|steps| - 1], s);
    }
  }

  /**
   * Departures of one Stream in flight at once share its reads, and no others do:
   * of two held at a time, the reads are the same exactly where the Stream is.
   */
  lemma {:induction false} SharedByStream(steps: seq<Step>, s: State, i: nat, j: nat)
    requires Run(Initial, steps) == Some(s)
    requires i < |s.lents| && s.lents[i].live && j < |s.lents| && s.lents[j].live
    ensures s.lents[i].shared == s.lents[j].shared <==> s.lents[i].stream == s.lents[j].stream
  {
    RunKeepsInv(steps, s);
  }

  /** A Stream read again after its last departure let go is read anew, its old reads found by none. */
  lemma {:induction false} ReadAnew(steps: seq<Step>, s: State, stream: nat, t: State)
    requires Run(Initial, steps) == Some(s) && Next(s, Reader(stream)) == Some(t)
    requires forall i :: 0 <= i < |s.lents| && s.lents[i].live ==> s.lents[i].stream != stream
    ensures forall i :: 0 <= i < |s.lents| ==> s.lents[i].shared != t.lents[|s.lents|].shared
  {
    RunKeepsInv(steps, s);
    assert stream !in Retained(s);
  }
}
