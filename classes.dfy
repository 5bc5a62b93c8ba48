// Game.register: the table of scope classes per kind (the defaults, then
// the game's own classes, the last one of a kind winning), the endpoint table
// restore walks, and the registration of the game class under its slug.
//
// A scope class is known by its name and the kind it serves
// (`resource_name`); its behaviour is not part of this model.

module GameClasses {
  import opened Exceptions
  import opened Constants
  import opened Registries
  import opened Restoring

  datatype ScopeClass = ScopeClass(name: string, kind: Kind)

  /** default_resource_classes, in declaration order. */
  const DefaultClasses: seq<ScopeClass> := [
    ScopeClass("Phase", Phase), ScopeClass("Role", Role), ScopeClass("Run", Run),
    ScopeClass("RunUser", RunUser), ScopeClass("World", World), ScopeClass("Scenario", Scenario),
    ScopeClass("Period", Period), ScopeClass("Decision", Decision), ScopeClass("Result", Kind.Result)]

  /** { c.resource_name: c for c in classes }, later classes overriding
      earlier ones, on top of `t`. */
  function Keyed(t: map<Kind, ScopeClass>, classes: seq<ScopeClass>): (r: map<Kind, ScopeClass>)
    decreases |classes|
  {
    if classes == [] then t else Keyed(t[classes[0].kind := classes[0]], classes[1..])
  }

  /** The last class of a kind in `classes`, if any. */
  function LastOfKind(classes: seq<ScopeClass>, k: Kind): (r: Option<ScopeClass>)
    ensures r.Some? ==> r.value in classes && r.value.kind == k
    ensures r.None? <==> forall c :: c in classes ==> c.kind != k
    decreases |classes|
  {
    if classes == [] then None
    else
      var last := classes[|classes| - 1];
      if last.kind == k then Some(last) else LastOfKind(classes[..|classes| - 1], k)
  }

  lemma {:induction false} KeyedSnoc(t: map<Kind, ScopeClass>, classes: seq<ScopeClass>, c: ScopeClass)
    ensures Keyed(t, classes + [c]) == Keyed(t, classes)[c.kind := c]
    decreases |classes|
  {
    if classes == [] {
      assert [c][1..] == [];
    } else {
      assert (classes + [c])[1..] == classes[1..] + [c];
      KeyedSnoc(t[classes[0].kind := classes[0]], classes[1..], c);
    }
  }

  /** Every kind maps to the last class of that kind, or keeps its entry in
      `t` when there is none. */
  lemma {:induction false} KeyedMeaning(t: map<Kind, ScopeClass>, classes: seq<ScopeClass>, k: Kind)
    ensures LastOfKind(classes, k).Some? ==> k in Keyed(t, classes) && Keyed(t, classes)[k] == LastOfKind(classes, k).value
    ensures LastOfKind(classes, k).None? ==>
      (k in Keyed(t, classes) <==> k in t) && (k in t ==> Keyed(t, classes)[k] == t[k])
    decreases |classes|
  {
    if classes != [] {
      var init := classes[..|classes| - 1];
      var last := classes[|classes| - 1];
      assert classes == init + [last];
      KeyedSnoc(t, init, last);
      KeyedMeaning(t, init, k);
    }
  }

  /** resource_classes_map of Game.register. */
  function ClassTable(supplied: seq<ScopeClass>): map<Kind, ScopeClass>
  {
    Keyed(Keyed(map[], DefaultClasses), supplied)
  }

  /** The position of a kind's class in DefaultClasses; the game kind has
      none and sits past the end. */
  function DefaultSlot(k: Kind): nat
  {
    match k
    case Phase => 0 case Role => 1 case Run => 2 case RunUser => 3 case World => 4
    case Scenario => 5 case Period => 6 case Decision => 7 case Result => 8 case Game => 9
  }

  lemma DefaultAt(i: nat)
    requires i < |DefaultClasses|
    ensures DefaultSlot(DefaultClasses[i].kind) == i
  {
    if i == 0 {} else if i == 1 {} else if i == 2 {} else if i == 3 {} else if i == 4 {}
    else if i == 5 {} else if i == 6 {} else if i == 7 {} else {}
  }

  /** Each default class serves its own kind, no two the same kind, and
      none the game. */
  lemma DefaultsCoverKinds(k: Kind)
    ensures k != Game ==> exists i :: 0 <= i < |DefaultClasses| && DefaultClasses[i] == ScopeClass(DefaultName(k), k)
    ensures forall i, j :: 0 <= i < j < |DefaultClasses| ==> DefaultClasses[i].kind != DefaultClasses[j].kind
    ensures forall c :: c in DefaultClasses ==> c.kind != Game
  {
    if k != Game {
      assert DefaultClasses[DefaultSlot(k)] == ScopeClass(DefaultName(k), k);
    }
    forall i, j | 0 <= i < j < |DefaultClasses|
      ensures DefaultClasses[i].kind != DefaultClasses[j].kind
    {
      DefaultAt(i);
      DefaultAt(j);
    }
    forall c | c in DefaultClasses
      ensures c.kind != Game
    {
      var i :| 0 <= i < |DefaultClasses| && DefaultClasses[i] == c;
      DefaultAt(i);
    }
  }

  /** With distinct kinds, the last class of a kind is its only one. */
  lemma {:induction false} LastOfDistinct(classes: seq<ScopeClass>, i: nat)
    requires i < |classes|
    requires forall a, b :: 0 <= a < b < |classes| ==> classes[a].kind != classes[b].kind
    ensures LastOfKind(classes, classes[i].kind) == Some(classes[i])
    decreases |classes|
  {
    if i != |classes| - 1 {
      LastOfDistinct(classes[..|classes| - 1], i);
    }
  }

  /** Each kind is served by the last supplied class of that kind, or else
      by its default class; the game kind has an entry only when a class for
      it is supplied. */
  lemma ClassTableMeaning(supplied: seq<ScopeClass>, k: Kind)
    ensures LastOfKind(supplied, k).Some? ==>
      k in ClassTable(supplied) && ClassTable(supplied)[k] == LastOfKind(supplied, k).value
    ensures LastOfKind(supplied, k).None? && k != Game ==>
      k in ClassTable(supplied) && ClassTable(supplied)[k] == ScopeClass(DefaultName(k), k)
    ensures LastOfKind(supplied, k).None? && k == Game ==> k !in ClassTable(supplied)
  {
    KeyedMeaning(Keyed(map[], DefaultClasses), supplied, k);
    KeyedMeaning(map[], DefaultClasses, k);
    DefaultsCoverKinds(k);
    if k != Game {
      var i :| 0 <= i < |DefaultClasses| && DefaultClasses[i] == ScopeClass(DefaultName(k), k);
      LastOfDistinct(DefaultClasses, i);
    }
  }

  /** The class name of each default. */
  function DefaultName(k: Kind): string
  {
    match k
    case Game => "Game" case Run => "Run" case Phase => "Phase" case Role => "Role"
    case World => "World" case RunUser => "RunUser" case Scenario => "Scenario"
    case Period => "Period" case Decision => "Decision" case Result => "Result"
  }

  /** endpoint_to_classes: the endpoints in their fixed order, each with the
      class the table holds for its kind. */
  function EndpointClasses(table: map<Kind, ScopeClass>): (r: seq<(string, ScopeClass)>)
    requires forall i :: 0 <= i < |Endpoints| ==> Endpoints[i].1 in table
    ensures |r| == |Endpoints|
    ensures forall i :: 0 <= i < |r| ==> r[i] == (Endpoints[i].0, table[Endpoints[i].1])
  {
    seq(|Endpoints|, i requires 0 <= i < |Endpoints| => (Endpoints[i].0, table[Endpoints[i].1]))
  }

  /** Every endpoint's kind has a class in any table Game.register builds. */
  lemma TableCoversEndpoints(supplied: seq<ScopeClass>)
    ensures forall i :: 0 <= i < |Endpoints| ==> Endpoints[i].1 in ClassTable(supplied)
  {
    forall i | 0 <= i < |Endpoints|
      ensures Endpoints[i].1 in ClassTable(supplied)
    {
      EndpointsCoverKinds(Endpoints[i].1);
      ClassTableMeaning(supplied, Endpoints[i].1);
    }
  }

  /** The Game class object: its class attributes resource_classes and
      endpoint_to_classes. */
  class GameClass {
    const name: string
    var resourceClasses: map<Kind, ScopeClass>
    var endpointToClasses: seq<(string, ScopeClass)>

    constructor (name: string)
      ensures this.name == name && resourceClasses == map[] && endpointToClasses == []
    {
      this.name := name;
      resourceClasses := map[];
      endpointToClasses := [];
    }

    /** Game.register(slug, resource_classes): both tables are written
        before the registry is, so a refused slug still leaves them set. */
    method Register(slug: string, supplied: seq<ScopeClass>, registry: Registry) returns (status: Status)
      modifies this, registry.store
      ensures resourceClasses == ClassTable(supplied)
      ensures TableCoversEndpointsHolds(supplied) && endpointToClasses == EndpointClasses(ClassTable(supplied))
      ensures var r := Registered(old(registry.store.entries), slug, Plain(name));
        (r.Ok? ==> status == Done && registry.store.entries == r.value) &&
        (r.Err? ==> status == Failed(ValueError) && registry.store.entries == old(registry.store.entries))
    {
      var table: map<Kind, ScopeClass> := map[];
      var i := 0;
      while i < |DefaultClasses|
        invariant 0 <= i <= |DefaultClasses|
        invariant Keyed(table, DefaultClasses[i..]) == Keyed(map[], DefaultClasses)
      {
        assert DefaultClasses[i..][1..] == DefaultClasses[i + 1..];
        table := table[DefaultClasses[i].kind := DefaultClasses[i]];
        i := i + 1;
      }
      var j := 0;
      while j < |supplied|
        invariant 0 <= j <= |supplied|
        invariant Keyed(table, supplied[j..]) == ClassTable(supplied)
      {
        assert supplied[j..][1..] == supplied[j + 1..];
        table := table[supplied[j].kind := supplied[j]];
        j := j + 1;
      }
      resourceClasses := table;
      TableCoversEndpoints(supplied);
      endpointToClasses := EndpointClasses(resourceClasses);
      status := registry.Register(name, slug);
    }
  }

  predicate TableCoversEndpointsHolds(supplied: seq<ScopeClass>)
  {
    forall i :: 0 <= i < |Endpoints| ==> Endpoints[i].1 in ClassTable(supplied)
  }
}
