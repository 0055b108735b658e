/**
 * A node's Send Ports (src/sending.rs): which Send Locations a Port tries, in what
 * order and how often, and which Ports the node sends for.
 */
module Sending {
  import opened Wrappers
  import opened Sums

  const MOST_TRIES: nat := 0xFFFF_FFFF

  /** A Send Port as designed: the Locations it names, how often it retries if at all, and whether it fails over. */
  datatype Design = Design(name: string, locations: seq<string>, retries: Option<nat>, failsOver: bool)

  /** What a node has of a Send Port: the Locations declared on it, the tries at each, and whether the next is tried. */
  datatype Port = Port(locations: seq<string>, tries: nat, failsOver: bool)

  datatype Sends = Sends(ports: seq<Design>, locations: seq<string>)

  /** `Port::tries`: the first, and as many more as its policy retries, in 32 bits. */
  function Tries(retries: Option<nat>): (tries: nat)
    ensures 1 <= tries
  {
    if retries.None? then 1 else Max(1, Min(retries.value + 1, MOST_TRIES))
  }

  function Find(ports: seq<Design>, name: string): (found: Option<Design>)
    ensures found.Some? ==> found.value in ports && found.value.name == name
    ensures found.None? ==> forall port :: port in ports ==> port.name != name
  {
    if ports == [] then None
    else if ports[0].name == name then Some(ports[0])
    else Find(ports[1..], name)
  }

  function Declared(names: seq<string>, locations: seq<string>): seq<string> {
    if names == [] then [] else
    var last := names[|names| - 1];
    Declared(names[..|names| - 1], locations) + if last in locations then [last] else []
  }

  /** `Sends::port`: the Locations its design names, in that order, or the one named as it. */
  function PortOf(sends: Sends, name: string): Port {
    var design := Find(sends.ports, name);
    var named := if design.Some? && design.value.locations != [] then design.value.locations else [name];
    Port(Declared(named, sends.locations),
         if design.Some? then Tries(design.value.retries) else 1,
         design.Some? && design.value.failsOver)
  }

  predicate Serves(sends: Sends, name: string) {
    PortOf(sends, name).locations != []
  }

  /** Whether a designed Port names it among its Locations. */
  predicate Named(ports: seq<Design>, name: string) {
    exists i :: 0 <= i < |ports| && name in ports[i].locations
  }

  lemma {:induction false} DeclaredIs(names: seq<string>, locations: seq<string>)
    ensures forall name :: name in Declared(names, locations) <==> name in names && name in locations
  {
    if names != [] {
      DeclaredIs(names[..|names| - 1], locations);
      assert names == names[..|names| - 1] + [names[|names| - 1]];
    }
  }

  /** What `served` builds of the Ports designed and the Locations bound as Ports of their own name. */
  ghost predicate Candidates(sends: Sends, n: nat, names: seq<string>)
    requires n <= |sends.locations|
  {
    && |names| >= |sends.ports|
    && (forall i :: 0 <= i < |sends.ports| ==> names[i] == sends.ports[i].name)
    && (forall name :: name in names <==>
          (exists i :: 0 <= i < |sends.ports| && sends.ports[i].name == name)
          || (name in sends.locations[..n] && !Named(sends.ports, name)))
    && (forall i, j :: |sends.ports| <= j < |names| && 0 <= i < j ==> names[i] != names[j])
  }

  /**
   * `Sends::served`: the Ports this node sends for are exactly those with a Location
   * here that are designed, or bound by a Location of their own name no Port names;
   * the designed ones first and in their order, and no other more than once.
   */
  method Served(sends: Sends) returns (served: seq<string>)
    ensures forall name :: name in served <==>
      Serves(sends, name)
      && ((exists i :: 0 <= i < |sends.ports| && sends.ports[i].name == name)
          || (name in sends.locations && !Named(sends.ports, name)))
    ensures (forall i, j :: 0 <= i < j < |sends.ports| ==> sends.ports[i].name != sends.ports[j].name) ==>
      forall i, j :: 0 <= i < j < |served| ==> served[i] != served[j]
  {
    var names := seq(|sends.ports|, i requires 0 <= i < |sends.ports| => sends.ports[i].name);
    var n := 0;
    while n < |sends.locations|
      invariant n <= |sends.locations| && Candidates(sends, n, names)
    {
      var name := sends.locations[n];
      assert sends.locations[..n + 1] == sends.locations[..n] + [name];
      if name !in names && !Named(sends.ports, name) {
        names := names + [name];
      }
      n := n + 1;
    }
    assert sends.locations[..n] == sends.locations;
    served := Serving(sends, names);
  }

  /** Of `names`, those the node serves, in their order. */
  method Serving(sends: Sends, names: seq<string>) returns (served: seq<string>)
    ensures forall name :: name in served <==> name in names && Serves(sends, name)
    ensures (forall i, j :: 0 <= i < j < |names| ==> names[i] != names[j]) ==>
      forall i, j :: 0 <= i < j < |served| ==> served[i] != served[j]
  {
    served := [];
    var n := 0;
    while n < |names|
      invariant n <= |names|
      invariant forall name :: name in served <==> name in names[..n] && Serves(sends, name)
      invariant (forall i, j :: 0 <= i < j < |names| ==> names[i] != names[j]) ==>
        forall i, j :: 0 <= i < j < |served| ==> served[i] != served[j]
    {
      assert names[..n + 1] == names[..n] + [names[n]];
      if Serves(sends, names[n]) {
        served := served + [names[n]];
      }
      n := n + 1;
    }
    assert names[..n] == names;
  }

  /** A Port served has a Location on the node to try, each of them one its design names or its own. */
  lemma {:induction false} ServedHasLocations(sends: Sends, name: string)
    ensures Serves(sends, name) <==>
      match Find(sends.ports, name)
      case Some(design) =>
        (if design.locations != [] then exists location :: location in design.locations && location in sends.locations
         else name in sends.locations)
      case None => name in sends.locations
  {
    var design := Find(sends.ports, name);
    var named := if design.Some? && design.value.locations != [] then design.value.locations else [name];
    DeclaredIs(named, sends.locations);
    var here := PortOf(sends, name).locations;
    if here != [] {
      assert here[0] in here;
    }
  }
}
