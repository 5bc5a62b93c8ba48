// What a scope shows of itself: its identity under ==, the topic names it is
// reached under, the pubsub export and the recursive scope tree a browser
// asks for.

module Scopes {
  import opened Exceptions
  import opened Strings
  import opened Payload
  import opened Constants
  import opened Managers
  import opened Traversing

  // ----- identity -----

  /** The right operand of `==`: a scope, or an object lacking
      `resource_name` or `pk`. */
  datatype Operand = AScope(scope: Scope) | Other

  /** ScopeMixin.__eq__: both attributes present and both equal. */
  function Equal(a: Scope, o: Operand): (r: bool)
    ensures r ==> o.AScope? && Same(a, o.scope)
  {
    match o
    case AScope(b) => a.kind == b.kind && Pk(a) == Pk(b)
    case Other => false
  }

  /** ScopeMixin.__ne__ */
  function NotEqual(a: Scope, o: Operand): (r: bool)
    ensures r <==> !Equal(a, o)
  {
    !Equal(a, o)
  }

  /** The string ScopeMixin.__hash__ hashes: "kind:pk". */
  function HashKey(s: Scope): string
  {
    Name(s.kind) + ":" + Show(Pk(s))
  }

  /** Scope equality is an equivalence on scopes, is scope identity, and
      never holds against an object without the two attributes. */
  lemma EqualIsIdentity(a: Scope, b: Scope, c: Scope)
    ensures Equal(a, AScope(a)) && !Equal(a, Other)
    ensures Equal(a, AScope(b)) <==> Same(a, b)
    ensures Equal(a, AScope(b)) ==> Equal(b, AScope(a))
    ensures Equal(a, AScope(b)) && Equal(b, AScope(c)) ==> Equal(a, AScope(c))
  {
  }

  /** Equal scopes hash alike, as Python requires of __hash__. */
  lemma EqualScopesHashAlike(a: Scope, b: Scope)
    requires Equal(a, AScope(b))
    ensures HashKey(a) == HashKey(b)
  {
  }

  lemma ColonAbsentFromNames(k: Kind)
    ensures ':' !in Name(k)
  {
  }

  /** The first occurrence of a mark that the text before it lacks. */
  lemma {:induction false} IndexOfMark(x: string, c: char, t: string)
    requires c !in x
    ensures IndexOf(x + [c] + t, c) == Some(|x|)
    decreases |x|
  {
    if x != [] {
      assert (x + [c] + t)[1..] == x[1..] + [c] + t;
      IndexOfMark(x[1..], c, t);
    }
  }

  /** The hash key determines the kind: the text before its first colon is
      the resource name. */
  lemma HashKeyDeterminesKind(a: Scope, b: Scope)
    requires HashKey(a) == HashKey(b)
    ensures a.kind == b.kind
  {
    var na, nb := Name(a.kind), Name(b.kind);
    ColonAbsentFromNames(a.kind);
    ColonAbsentFromNames(b.kind);
    assert HashKey(a) == na + [':'] + Show(Pk(a));
    assert HashKey(b) == nb + [':'] + Show(Pk(b));
    IndexOfMark(na, ':', Show(Pk(a)));
    IndexOfMark(nb, ':', Show(Pk(b)));
    assert na == HashKey(a)[..|na|] && nb == HashKey(b)[..|nb|];
    NamesIdentifyKinds(a.kind, nb);
  }

  /** The key does not determine the pk: the ids 1 and "1" hash alike,
      although the scopes are not equal. */
  lemma HashKeysCollide()
    ensures var a, b := Scope(Run, map["id" := Int(1)]), Scope(Run, map["id" := Str("1")]);
            HashKey(a) == HashKey(b) && !Equal(a, AScope(b))
  {
    assert NatToString(1) == "1";
  }

  // ----- routing -----

  /** The pk segment of a topic: ".<pk>", or nothing when the pk is None. */
  function PkSegment(pk: Value): string
  {
    if pk == Null then "" else "." + Show(pk)
  }

  /** get_routing(name): ROOT_TOPIC.model.<kind>[.<pk>].<name>, except that
      the game's own topics never carry its pk. */
  function Route(root: string, s: Scope, name: string): string
  {
    if s.kind == Game then root + ".model.game." + name
    else root + ".model." + Name(s.kind) + PkSegment(Pk(s)) + "." + name
  }

  /** Cut from the right, the topic of a scope with a pk gives back the
      name, the pk and the kind part ... */
  lemma RouteSegmentsWithPk(root: string, s: Scope, name: string)
    requires s.kind != Game && Pk(s) != Null
    requires '.' !in name && '.' !in Show(Pk(s))
    ensures RSplit(Route(root, s, name), '.', 2) == [root + ".model." + Name(s.kind), Show(Pk(s)), name]
  {
    var kindPart := root + ".model." + Name(s.kind);
    var p := Show(Pk(s));
    assert Route(root, s, name) == (kindPart + "." + p) + "." + name;
    RSplitJoin(kindPart + "." + p, '.', name, 2);
    assert kindPart + "." + p == kindPart + ['.'] + p;
    RSplitJoin(kindPart, '.', p, 1);
  }

  /** ... and the topic of the game, or of a scope without a pk, the name
      and the kind. */
  lemma RouteSegmentsWithoutPk(root: string, s: Scope, name: string)
    requires s.kind == Game || Pk(s) == Null
    requires '.' !in name
    ensures RSplit(Route(root, s, name), '.', 2) == [root + ".model", Name(s.kind), name]
  {
    NamesIdentifyKinds(s.kind, Name(s.kind));
    var n := Name(s.kind);
    var kindPart := root + ".model" + "." + n;
    assert Route(root, s, name) == kindPart + "." + name;
    RSplitJoin(kindPart, '.', name, 2);
    RSplitJoin(root + ".model", '.', n, 1);
  }

  /** One scope's topics are told apart by their names. */
  lemma RouteNamesDistinct(root: string, s: Scope, n1: string, n2: string)
    requires Route(root, s, n1) == Route(root, s, n2)
    ensures n1 == n2
  {
    var prefix := if s.kind == Game then root + ".model.game."
                  else root + ".model." + Name(s.kind) + PkSegment(Pk(s)) + ".";
    assert Route(root, s, n1) == prefix + n1 && Route(root, s, n2) == prefix + n2;
    assert (prefix + n1)[|prefix|..] == n1;
    assert (prefix + n2)[|prefix|..] == n2;
  }

  // ----- export -----

  /** pubsub_export(): {pk, data, resource_name}. */
  datatype Export = Export(pk: Value, data: Json, resourceName: string)

  function PubsubExport(s: Scope): Export
  {
    Export(Pk(s), s.json, Name(s.kind))
  }

  /** The scope a browser rebuilds from an export. */
  function FromExport(e: Export): Option<Scope>
  {
    match KindNamed(e.resourceName)
    case None => None
    case Some(k) => Some(Scope(k, e.data))
  }

  /** An export carries the whole scope, and its pk is the scope's. */
  lemma ExportRoundTrip(s: Scope)
    ensures FromExport(PubsubExport(s)) == Some(s)
    ensures PubsubExport(s).pk == Pk(s)
  {
    NamesIdentifyKinds(s.kind, Name(s.kind));
  }

  // ----- the scope tree -----

  /** `_scope_tree()`: the export plus the trees of the children. */
  datatype Tree = Tree(node: Export, children: seq<Tree>)

  /** Levels below a kind; children sit one level lower. */
  function Height(k: Kind): (r: nat)
    ensures r + Depth(k) == 5
  {
    match k
    case Game => 5
    case Run | Phase | Role => 4
    case World | RunUser => 3
    case Scenario => 2
    case Period => 1
    case Decision | Result => 0
  }

  /** `resource_name in exclude`, with exclude=None excluding nothing. */
  predicate Excluded(exclude: Option<seq<string>>, k: Kind)
  {
    exclude.Some? && Name(k) in exclude.value
  }

  /** Children sit one level below their parent. */
  lemma GroupHeights(k: Kind, gs: seq<(Kind, seq<Scope>)>)
    requires KindGroups(gs, ChildKinds(k))
    ensures forall i, x :: 0 <= i < |gs| && x in gs[i].1 ==> Height(x.kind) + 1 == Height(k)
  {
    forall i, x | 0 <= i < |gs| && x in gs[i].1
      ensures Height(x.kind) + 1 == Height(k)
    {
      ChildrenAreDeeper(k, ChildKinds(k)[i]);
    }
  }

  lemma ChildGroupHeights(g: Graph, s: Scope)
    requires Valid(g) && ChildScopes(g, s).Ok?
    ensures forall i, x :: 0 <= i < |ChildScopes(g, s).value| && x in ChildScopes(g, s).value[i].1 ==>
      Height(x.kind) + 1 == Height(s.kind)
  {
    ChildScopesShape(g, s);
    GroupHeights(s.kind, ChildScopes(g, s).value);
  }

  /** _scope_tree(exclude, user=u) */
  function ScopeTree(g: Graph, s: Scope, exclude: Option<seq<string>>, u: User): (r: Result<Tree>)
    requires Valid(g)
    ensures r.Ok? ==> r.value.node == PubsubExport(s)
    decreases Height(s.kind), 2, 0
  {
    var groups :- ChildScopes(g, s);
    ChildGroupHeights(g, s);
    var children :- GroupTrees(g, groups, exclude, u, Height(s.kind));
    Ok(Tree(PubsubExport(s), children))
  }

  /** The trees of the child groups, in order; an excluded kind contributes
      nothing, any other group only the members the user may access. */
  function GroupTrees(g: Graph, groups: seq<(Kind, seq<Scope>)>, exclude: Option<seq<string>>, u: User, h: nat): Result<seq<Tree>>
    requires Valid(g)
    requires forall i, x :: 0 <= i < |groups| && x in groups[i].1 ==> Height(x.kind) + 1 == h
    decreases h, 1, |groups|
  {
    if groups == [] then Ok([])
    else
      var here :- (if Excluded(exclude, groups[0].0) then Ok([])
                   else
                     var kept :- Accessible(g, groups[0].1, u);
                     Trees(g, kept, exclude, u, h));
      var rest :- GroupTrees(g, groups[1..], exclude, u, h);
      Ok(here + rest)
  }

  function Trees(g: Graph, ms: seq<Scope>, exclude: Option<seq<string>>, u: User, h: nat): Result<seq<Tree>>
    requires Valid(g)
    requires forall x :: x in ms ==> Height(x.kind) + 1 == h
    decreases h, 0, |ms|
  {
    if ms == [] then Ok([])
    else
      var t :- ScopeTree(g, ms[0], exclude, u);
      var rest :- Trees(g, ms[1..], exclude, u, h);
      Ok([t] + rest)
  }

  /** The children a tree lists, flattened: per child kind in order, nothing
      when excluded, else the members of the group the user may access. */
  function Visible(g: Graph, groups: seq<(Kind, seq<Scope>)>, exclude: Option<seq<string>>, u: User): Result<seq<Scope>>
    requires Valid(g)
  {
    if groups == [] then Ok([])
    else
      var here :- if Excluded(exclude, groups[0].0) then Ok([]) else Accessible(g, groups[0].1, u);
      var rest :- Visible(g, groups[1..], exclude, u);
      Ok(here + rest)
  }

  /** The trees of a list are the trees of its scopes, one by one. */
  lemma {:induction false} TreesSpine(g: Graph, ms: seq<Scope>, exclude: Option<seq<string>>, u: User, h: nat)
    requires Valid(g)
    requires forall x :: x in ms ==> Height(x.kind) + 1 == h
    requires Trees(g, ms, exclude, u, h).Ok?
    ensures |Trees(g, ms, exclude, u, h).value| == |ms|
    ensures forall i :: 0 <= i < |ms| ==>
      ScopeTree(g, ms[i], exclude, u).Ok? &&
      Trees(g, ms, exclude, u, h).value[i] == ScopeTree(g, ms[i], exclude, u).value
    decreases |ms|
  {
    if ms != [] {
      TreesSpine(g, ms[1..], exclude, u, h);
      var ts := Trees(g, ms, exclude, u, h).value;
      forall i | 1 <= i < |ms|
        ensures ScopeTree(g, ms[i], exclude, u).Ok? && ts[i] == ScopeTree(g, ms[i], exclude, u).value
      {
        assert ms[i] == ms[1..][i - 1];
      }
    }
  }

  /** The trees of the groups are the trees of the visible children. */
  lemma {:induction false} GroupTreesSpine(g: Graph, groups: seq<(Kind, seq<Scope>)>, exclude: Option<seq<string>>, u: User, h: nat)
    requires Valid(g)
    requires forall i, x :: 0 <= i < |groups| && x in groups[i].1 ==> Height(x.kind) + 1 == h
    requires GroupTrees(g, groups, exclude, u, h).Ok?
    ensures Visible(g, groups, exclude, u).Ok?
    ensures var cs := Visible(g, groups, exclude, u).value;
            var ts := GroupTrees(g, groups, exclude, u, h).value;
            |ts| == |cs| &&
            forall i :: 0 <= i < |cs| ==> ScopeTree(g, cs[i], exclude, u).Ok? && ts[i] == ScopeTree(g, cs[i], exclude, u).value
    decreases |groups|
  {
    if groups != [] {
      GroupTreesSpine(g, groups[1..], exclude, u, h);
      var here: seq<Scope> := [];
      if !Excluded(exclude, groups[0].0) {
        here := Accessible(g, groups[0].1, u).value;
        TreesSpine(g, here, exclude, u, h);
      }
      var restC := Visible(g, groups[1..], exclude, u).value;
      var restT := GroupTrees(g, groups[1..], exclude, u, h).value;
      var hereT := GroupTrees(g, groups, exclude, u, h).value[..|here|];
      assert Visible(g, groups, exclude, u).value == here + restC;
      assert GroupTrees(g, groups, exclude, u, h).value == hereT + restT;
    }
  }

  /** The tree of a scope: its own export, then one subtree per visible
      child, in child-kind order and then insertion order. */
  lemma ScopeTreeSpine(g: Graph, s: Scope, exclude: Option<seq<string>>, u: User)
    requires Valid(g) && ScopeTree(g, s, exclude, u).Ok?
    ensures ScopeTree(g, s, exclude, u).value.node == PubsubExport(s)
    ensures ChildScopes(g, s).Ok? && Visible(g, ChildScopes(g, s).value, exclude, u).Ok?
    ensures var cs := Visible(g, ChildScopes(g, s).value, exclude, u).value;
            var ts := ScopeTree(g, s, exclude, u).value.children;
            |ts| == |cs| &&
            forall i :: 0 <= i < |cs| ==>
              ScopeTree(g, cs[i], exclude, u).Ok? && ts[i] == ScopeTree(g, cs[i], exclude, u).value &&
              ts[i].node == PubsubExport(cs[i])
  {
    ChildGroupHeights(g, s);
    GroupTreesSpine(g, ChildScopes(g, s).value, exclude, u, Height(s.kind));
  }

  /** Every visible child belongs to one of the groups, is of a kind not
      excluded, and is accessible to the user. */
  lemma {:induction false} VisibleWithin(g: Graph, groups: seq<(Kind, seq<Scope>)>, exclude: Option<seq<string>>, u: User)
    requires Valid(g) && Visible(g, groups, exclude, u).Ok?
    requires forall i, x :: 0 <= i < |groups| && x in groups[i].1 ==> x.kind == groups[i].0
    ensures forall x :: x in Visible(g, groups, exclude, u).value ==>
      !Excluded(exclude, x.kind) && Leader(u).Ok? &&
      GetUserIds(g, x, Leader(u).value).Ok? && u.pk in GetUserIds(g, x, Leader(u).value).value &&
      exists i :: 0 <= i < |groups| && x in groups[i].1
    decreases |groups|
  {
    if groups != [] {
      VisibleWithin(g, groups[1..], exclude, u);
      var vs := Visible(g, groups, exclude, u).value;
      var rest := Visible(g, groups[1..], exclude, u).value;
      if !Excluded(exclude, groups[0].0) {
        AccessibleMeaning(g, groups[0].1, u);
      }
      forall x | x in vs
        ensures !Excluded(exclude, x.kind) && Leader(u).Ok?
        ensures GetUserIds(g, x, Leader(u).value).Ok? && u.pk in GetUserIds(g, x, Leader(u).value).value
        ensures exists i :: 0 <= i < |groups| && x in groups[i].1
      {
        if x in rest {
          var i :| 0 <= i < |groups[1..]| && x in groups[1..][i].1;
          assert x in groups[i + 1].1;
        } else {
          assert x in groups[0].1;
        }
      }
    }
  }

  /** With consistent indexes, a tree's children are exactly scopes that
      reference this one, of child kinds not excluded, that the user may
      access. */
  lemma VisibleChildrenMeaning(g: Graph, s: Scope, exclude: Option<seq<string>>, u: User)
    requires Valid(g) && Consistent(g)
    requires ChildScopes(g, s).Ok? && Visible(g, ChildScopes(g, s).value, exclude, u).Ok?
    ensures forall x :: x in Visible(g, ChildScopes(g, s).value, exclude, u).value ==>
      x.kind in ChildKinds(s.kind) && !Excluded(exclude, x.kind) &&
      x in Members(Container(g, x.kind)) && Name(s.kind) in x.json && x.json[Name(s.kind)] == Pk(s) &&
      Leader(u).Ok? && GetUserIds(g, x, Leader(u).value).Ok? && u.pk in GetUserIds(g, x, Leader(u).value).value
  {
    var gs := ChildScopes(g, s).value;
    ChildScopesShape(g, s);
    VisibleWithin(g, gs, exclude, u);
    ChildScopesMeaning(g, s);
    forall x | x in Visible(g, gs, exclude, u).value
      ensures x.kind in ChildKinds(s.kind)
      ensures x in Members(Container(g, x.kind)) && Name(s.kind) in x.json && x.json[Name(s.kind)] == Pk(s)
    {
      var i :| 0 <= i < |gs| && x in gs[i].1;
      assert x.kind == ChildKinds(s.kind)[i];
    }
  }

  /** The group a tree walks is what `for_user` on the group's manager
      keeps (a manager built from a filter result lists that result
      unchanged, by BuildLists). */
  lemma GroupForUser(g: Graph, m: Manager, u: User)
    requires Valid(g) && Wf(m)
    ensures ForUser(g, m, u).Ok? <==> Accessible(g, Members(m), u).Ok?
    ensures ForUser(g, m, u).Ok? ==>
      Wf(ForUser(g, m, u).value) && Members(ForUser(g, m, u).value) == Accessible(g, Members(m), u).value
  {
    if Accessible(g, Members(m), u).Ok? {
      var kept := Accessible(g, Members(m), u).value;
      MembersPkSeq(m);
      MemberPks(m);
      SubseqDistinct(kept, Members(m));
      BuildLists(kept);
    }
  }

  // ----- pk -----

  /** get_pk(): when the payload has no id, the payload is saved first and
      replaced by what the store answers (`save`); the pk is then read from
      the resulting payload. */
  function GetPk(json: Json, save: Json -> Json): (Json, Value)
  {
    var j := if "id" in json then json else save(json);
    (j, FieldOrNull(j, "id"))
  }

  /** The store is consulted only for a payload without an id, and a pk once
      obtained is read back without saving again. */
  lemma GetPkSavesOnlyWhenMissing(json: Json, save: Json -> Json, other: Json -> Json)
    ensures "id" in json ==> GetPk(json, save) == GetPk(json, other) == (json, json["id"])
    ensures "id" !in json ==> GetPk(json, save).0 == save(json)
    ensures "id" in GetPk(json, save).0 ==> GetPk(GetPk(json, save).0, other) == GetPk(json, save)
  {
  }
}
