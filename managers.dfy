// The scope container: an insertion-ordered map from pk to scope plus, per
// filter attribute, buckets of pks by attribute value.
//
// The pure functions on `Manager` give the meaning of every operation; the
// `ScopeManager` class at the end performs the mutating ones step by step and
// is proved to agree with them.

module Managers {
  import opened Exceptions
  import opened Payload
  import opened Constants

  /** A scope: its kind and its current payload. */
  datatype Scope = Scope(kind: Kind, json: Json)

  /** scope.pk, read from the payload's `id`. */
  function Pk(s: Scope): Value
  {
    FieldOrNull(s.json, "id")
  }

  /** Scope equality: same resource name and same pk, whatever the payload. */
  predicate Same(a: Scope, b: Scope)
  {
    a.kind == b.kind && Pk(a) == Pk(b)
  }

  /** A scope the container can take: its kind has filter attributes, and its
      payload carries the id and every one of those attributes. */
  predicate Indexable(s: Scope)
  {
    s.kind != Game && "id" in s.json &&
    forall a :: a in IndexNames(s.kind) ==> a in s.json
  }

  /** Both scopes have the same kind and agree on every filter attribute. */
  predicate SameIndexValues(a: Scope, b: Scope)
    requires Indexable(a) && Indexable(b)
  {
    a.kind == b.kind && forall n :: n in IndexNames(a.kind) ==> a.json[n] == b.json[n]
  }

  /** Every scope of `args` can go into a container. */
  predicate AllIndexable(args: seq<Scope>)
  {
    forall x :: x in args ==> Indexable(x)
  }

  type Index = map<string, map<Value, set<Value>>>

  datatype Manager = Manager(order: seq<Value>, scopes: map<Value, Scope>, indexes: Index)

  const Empty: Manager := Manager([], map[], map[])

  predicate Distinct(s: seq<Value>)
  {
    forall i, j :: 0 <= i < j < |s| ==> s[i] != s[j]
  }

  /** The shape every container keeps: the order lists each key once, and
      every stored scope is indexable and stored under its own pk. */
  ghost predicate Wf(m: Manager)
  {
    Distinct(m.order) &&
    (forall k :: k in m.order <==> k in m.scopes) &&
    (forall k :: k in m.scopes ==> Indexable(m.scopes[k]) && Pk(m.scopes[k]) == k)
  }

  function MembersOf(order: seq<Value>, scopes: map<Value, Scope>): (r: seq<Scope>)
    requires forall k :: k in order ==> k in scopes
    ensures |r| == |order|
  {
    if order == [] then [] else [scopes[order[0]]] + MembersOf(order[1..], scopes)
  }

  /** The scopes in insertion order (iteration, list(manager)). */
  function Members(m: Manager): (r: seq<Scope>)
    requires Wf(m)
    ensures |r| == |m.order|
  {
    MembersOf(m.order, m.scopes)
  }

  lemma {:induction false} MembersIndex(order: seq<Value>, scopes: map<Value, Scope>, i: int)
    requires forall k :: k in order ==> k in scopes
    requires 0 <= i < |order|
    ensures MembersOf(order, scopes)[i] == scopes[order[i]]
  {
    if i > 0 {
      MembersIndex(order[1..], scopes, i - 1);
    }
  }

  lemma MembersPointwise(m: Manager)
    requires Wf(m)
    ensures forall i :: 0 <= i < |m.order| ==> Members(m)[i] == m.scopes[m.order[i]]
  {
    forall i | 0 <= i < |m.order| {
      MembersIndex(m.order, m.scopes, i);
    }
  }

  /** Every member is stored under its pk, so member pks are the order. */
  lemma MemberPks(m: Manager)
    requires Wf(m)
    ensures forall i :: 0 <= i < |m.order| ==> Pk(Members(m)[i]) == m.order[i]
    ensures forall x :: x in Members(m) ==> Pk(x) in m.scopes && m.scopes[Pk(x)] == x
  {
    MembersPointwise(m);
  }

  /** The pks of the members are the insertion order. */
  lemma MembersPkSeq(m: Manager)
    requires Wf(m)
    ensures PkSeq(Members(m)) == m.order
  {
    MemberPks(m);
  }

  // ----- adding -----

  /** The bucket of pks whose attribute `a` had value `v` when indexed. */
  function Bucket(ix: Index, a: string, v: Value): set<Value>
  {
    if a in ix && v in ix[a] then ix[a][v] else {}
  }

  function AddToIndex(ix: Index, a: string, v: Value, pk: Value): Index
  {
    var inner := if a in ix then ix[a] else map[];
    ix[a := inner[v := Bucket(ix, a, v) + {pk}]]
  }

  function AddToIndexes(ix: Index, s: Scope, attrs: seq<string>): Index
    requires forall a :: a in attrs ==> a in s.json
    decreases |attrs|
  {
    if attrs == [] then ix
    else AddToIndexes(AddToIndex(ix, attrs[0], s.json[attrs[0]], Pk(s)), s, attrs[1..])
  }

  /** extends/append of one scope: store it under its pk (keeping the
      position of a pk already present) and add its pk to the bucket of each
      of its filter attributes. */
  function AddOne(m: Manager, s: Scope): Manager
    requires Indexable(s)
  {
    var pk := Pk(s);
    Manager(if pk in m.scopes then m.order else m.order + [pk],
            m.scopes[pk := s],
            AddToIndexes(m.indexes, s, IndexNames(s.kind)))
  }

  /** extends/append of several scopes, left to right. */
  function ExtendAll(m: Manager, args: seq<Scope>): Manager
    requires AllIndexable(args)
    decreases |args|
  {
    if args == [] then m else ExtendAll(AddOne(m, args[0]), args[1..])
  }

  /** ScopeManager(*args) */
  function Build(args: seq<Scope>): Manager
    requires AllIndexable(args)
  {
    ExtendAll(Empty, args)
  }

  /** Indexing adds the pk to exactly the buckets named by `attrs` under the
      scope's values, and creates the attribute entries it needs. */
  lemma {:induction false} AddToIndexesEffect(ix: Index, s: Scope, attrs: seq<string>, a: string, v: Value)
    requires forall n :: n in attrs ==> n in s.json
    ensures Bucket(AddToIndexes(ix, s, attrs), a, v)
         == Bucket(ix, a, v) + (if a in attrs && s.json[a] == v then {Pk(s)} else {})
    ensures a in AddToIndexes(ix, s, attrs) <==> a in ix || a in attrs
    decreases |attrs|
  {
    if attrs != [] {
      AddToIndexesEffect(AddToIndex(ix, attrs[0], s.json[attrs[0]], Pk(s)), s, attrs[1..], a, v);
    }
  }

  lemma AddOneWf(m: Manager, s: Scope)
    requires Wf(m) && Indexable(s)
    ensures Wf(AddOne(m, s))
  {
  }

  /** Adding overwrites the slot of a pk already present in place and appends
      a new pk at the end. */
  lemma AddOverwritesInPlace(m: Manager, s: Scope)
    requires Wf(m) && Indexable(s)
    ensures Wf(AddOne(m, s))
    ensures AddOne(m, s).scopes == m.scopes[Pk(s) := s]
    ensures Pk(s) in m.scopes ==> AddOne(m, s).order == m.order
    ensures Pk(s) !in m.scopes ==> Members(AddOne(m, s)) == Members(m) + [s]
    ensures Pk(s) in m.scopes ==>
              forall i :: 0 <= i < |m.order| ==>
                Members(AddOne(m, s))[i] == (if m.order[i] == Pk(s) then s else Members(m)[i])
  {
    AddOneWf(m, s);
    if Pk(s) !in m.scopes {
      MembersSnoc(m.order, m.scopes, Pk(s), s);
    } else {
      MembersOverwrite(m.order, m.scopes, Pk(s), s);
    }
  }

  lemma {:induction false} MembersSnoc(order: seq<Value>, scopes: map<Value, Scope>, k: Value, s: Scope)
    requires forall x :: x in order ==> x in scopes
    requires k !in scopes
    ensures MembersOf(order + [k], scopes[k := s]) == MembersOf(order, scopes) + [s]
  {
    if order == [] {
      assert [] + [k] == [k];
    } else {
      assert (order + [k])[1..] == order[1..] + [k];
      MembersSnoc(order[1..], scopes, k, s);
    }
  }

  lemma MembersOverwrite(order: seq<Value>, scopes: map<Value, Scope>, k: Value, s: Scope)
    requires forall x :: x in order ==> x in scopes
    ensures forall x :: x in order ==> x in scopes[k := s]
    ensures forall i :: 0 <= i < |order| ==>
              MembersOf(order, scopes[k := s])[i] == (if order[i] == k then s else MembersOf(order, scopes)[i])
  {
    forall i | 0 <= i < |order|
      ensures MembersOf(order, scopes[k := s])[i] == (if order[i] == k then s else MembersOf(order, scopes)[i])
    {
      MembersIndex(order, scopes[k := s], i);
      MembersIndex(order, scopes, i);
    }
  }

  /** After adding, the scope is found in the bucket of each of its filter
      attribute values. */
  lemma AddIndexesScope(m: Manager, s: Scope)
    requires Indexable(s)
    ensures forall n :: n in IndexNames(s.kind) ==> Pk(s) in Bucket(AddOne(m, s).indexes, n, s.json[n])
  {
    forall n | n in IndexNames(s.kind)
      ensures Pk(s) in Bucket(AddOne(m, s).indexes, n, s.json[n])
    {
      AddToIndexesEffect(m.indexes, s, IndexNames(s.kind), n, s.json[n]);
    }
  }

  lemma {:induction false} ExtendAllWf(m: Manager, args: seq<Scope>)
    requires Wf(m) && AllIndexable(args)
    ensures Wf(ExtendAll(m, args))
    decreases |args|
  {
    if args != [] {
      AddOneWf(m, args[0]);
      ExtendAllWf(AddOne(m, args[0]), args[1..]);
    }
  }

  /** The pks of `args`, in order. */
  function PkSeq(args: seq<Scope>): (r: seq<Value>)
    ensures |r| == |args|
    ensures forall i :: 0 <= i < |args| ==> r[i] == Pk(args[i])
    ensures forall x :: x in args ==> Pk(x) in r
  {
    if args == [] then [] else [Pk(args[0])] + PkSeq(args[1..])
  }

  lemma DistinctCons(x: Value, t: seq<Value>)
    requires Distinct([x] + t)
    ensures Distinct(t) && x !in t
  {
    forall i, j | 0 <= i < j < |t| ensures t[i] != t[j] {
      assert ([x] + t)[i + 1] == t[i] && ([x] + t)[j + 1] == t[j];
    }
    forall j | 0 <= j < |t| ensures t[j] != x {
      assert ([x] + t)[0] == x && ([x] + t)[j + 1] == t[j];
    }
  }

  lemma DistinctConsIntro(x: Value, t: seq<Value>)
    requires Distinct(t) && x !in t
    ensures Distinct([x] + t)
  {
    forall i, j | 0 <= i < j < |[x] + t| ensures ([x] + t)[i] != ([x] + t)[j] {
      assert ([x] + t)[j] == t[j - 1];
      if i > 0 {
        assert ([x] + t)[i] == t[i - 1];
      }
    }
  }

  /** `a` lists some of the scopes of `b`, in the same order. */
  predicate IsSubseq(a: seq<Scope>, b: seq<Scope>)
    decreases |b|
  {
    if b == [] then a == []
    else IsSubseq(a, b[1..]) || (a != [] && a[0] == b[0] && IsSubseq(a[1..], b[1..]))
  }

  /** A subsequence holds only scopes of the original. */
  lemma {:induction false} SubseqMembers(a: seq<Scope>, b: seq<Scope>)
    requires IsSubseq(a, b)
    ensures forall x :: x in a ==> x in b
    decreases |b|
  {
    if b != [] {
      if IsSubseq(a, b[1..]) {
        SubseqMembers(a, b[1..]);
      } else {
        SubseqMembers(a[1..], b[1..]);
        assert a == [b[0]] + a[1..];
      }
    }
  }

  /** A scope whose pk the rest does not hold, in front of distinct scopes
      taken from the rest. */
  lemma HeadThenDistinct(h: Scope, t: seq<Scope>, rest: seq<Scope>)
    requires Distinct(PkSeq(t)) && Pk(h) !in PkSeq(rest)
    requires forall x :: x in t ==> x in rest
    ensures Distinct(PkSeq([h] + t))
  {
    assert PkSeq([h] + t) == [Pk(h)] + PkSeq(t);
    forall i | 0 <= i < |t| ensures PkSeq(t)[i] != Pk(h) {
      assert t[i] in rest;
      assert Pk(t[i]) in PkSeq(rest);
    }
    DistinctConsIntro(Pk(h), PkSeq(t));
  }

  /** A subsequence of scopes with distinct pks has distinct pks, and only
      scopes of the original. */
  lemma {:induction false} SubseqDistinct(a: seq<Scope>, b: seq<Scope>)
    requires IsSubseq(a, b) && Distinct(PkSeq(b))
    ensures Distinct(PkSeq(a)) && forall x :: x in a ==> x in b
    decreases |b|
  {
    SubseqMembers(a, b);
    if b != [] {
      var rest := b[1..];
      assert PkSeq(b) == [Pk(b[0])] + PkSeq(rest);
      DistinctCons(Pk(b[0]), PkSeq(rest));
      if IsSubseq(a, rest) {
        SubseqDistinct(a, rest);
      } else {
        var t := a[1..];
        SubseqDistinct(t, rest);
        assert a == [b[0]] + t;
        HeadThenDistinct(b[0], t, rest);
      }
    }
  }

  lemma EmptyAppend(s: seq<Value>)
    ensures [] + s == s
  {
  }

  lemma SetOfCons(x: Value, t: seq<Value>)
    ensures (set k | k in [x] + t) == {x} + (set k | k in t)
  {
  }

  lemma SnocAssoc(a: seq<Value>, x: Value, b: seq<Value>)
    ensures (a + [x]) + b == a + ([x] + b)
  {
  }

  /** Extending with scopes of fresh, pairwise distinct pks appends their
      pks in order. */
  lemma {:induction false} ExtendAllOrder(m: Manager, args: seq<Scope>)
    requires AllIndexable(args) && Distinct(PkSeq(args))
    requires forall x :: x in args ==> Pk(x) !in m.scopes
    ensures ExtendAll(m, args).order == m.order + PkSeq(args)
    decreases |args|
  {
    if args == [] {
      assert m.order + PkSeq(args) == m.order;
    } else {
      var rest := args[1..];
      var m1 := AddOne(m, args[0]);
      assert PkSeq(args) == [Pk(args[0])] + PkSeq(rest);
      DistinctCons(Pk(args[0]), PkSeq(rest));
      ExtendAllOrder(m1, rest);
      SnocAssoc(m.order, Pk(args[0]), PkSeq(rest));
    }
  }

  /** ... stores each under its pk, and leaves the other slots. */
  lemma {:induction false} ExtendAllSlots(m: Manager, args: seq<Scope>)
    requires AllIndexable(args) && Distinct(PkSeq(args))
    ensures forall x :: x in args ==> Pk(x) in ExtendAll(m, args).scopes && ExtendAll(m, args).scopes[Pk(x)] == x
    ensures forall k :: k in m.scopes && k !in PkSeq(args) ==>
              k in ExtendAll(m, args).scopes && ExtendAll(m, args).scopes[k] == m.scopes[k]
    decreases |args|
  {
    if args != [] {
      var rest := args[1..];
      var m1 := AddOne(m, args[0]);
      assert PkSeq(args) == [Pk(args[0])] + PkSeq(rest);
      DistinctCons(Pk(args[0]), PkSeq(rest));
      ExtendAllSlots(m1, rest);
    }
  }

  /** ScopeManager(*args) lists exactly `args`, in order, when their pks are
      distinct. */
  lemma BuildLists(args: seq<Scope>)
    requires AllIndexable(args) && Distinct(PkSeq(args))
    ensures Wf(Build(args))
    ensures Members(Build(args)) == args
  {
    ExtendAllWf(Empty, args);
    var b := Build(args);
    BuildPointwise(args);
    SameElements(Members(b), args);
  }

  lemma BuildPointwise(args: seq<Scope>)
    requires AllIndexable(args) && Distinct(PkSeq(args))
    ensures Wf(Build(args)) && |Members(Build(args))| == |args|
    ensures forall i :: 0 <= i < |args| ==> Members(Build(args))[i] == args[i]
  {
    var b := Build(args);
    assert b.order == PkSeq(args) by {
      ExtendAllOrder(Empty, args);
      EmptyAppend(PkSeq(args));
    }
    assert forall x :: x in args ==> Pk(x) in b.scopes && b.scopes[Pk(x)] == x by {
      ExtendAllSlots(Empty, args);
    }
    ExtendAllWf(Empty, args);
    MembersPointwise(b);
    forall i | 0 <= i < |args| ensures Members(b)[i] == args[i] {
      assert args[i] in args;
      assert b.order[i] == Pk(args[i]);
    }
  }

  lemma SameElements(a: seq<Scope>, b: seq<Scope>)
    requires |a| == |b| && forall i :: 0 <= i < |b| ==> a[i] == b[i]
    ensures a == b
  {
  }

  lemma {:induction false} ExtendAllKeys(m: Manager, args: seq<Scope>)
    requires AllIndexable(args)
    ensures ExtendAll(m, args).scopes.Keys == m.scopes.Keys + (set k | k in PkSeq(args))
    decreases |args|
  {
    if args != [] {
      ExtendAllKeys(AddOne(m, args[0]), args[1..]);
      assert PkSeq(args) == [Pk(args[0])] + PkSeq(args[1..]);
      SetOfCons(Pk(args[0]), PkSeq(args[1..]));
    }
  }

  /** A sequence has at most as many distinct elements as positions, and as
      many exactly when no element repeats. */
  lemma {:induction false} SeqSetCard(s: seq<Value>)
    ensures |set x | x in s| <= |s|
    ensures |set x | x in s| == |s| <==> Distinct(s)
  {
    if s != [] {
      var t := s[1..];
      SeqSetCard(t);
      assert (set x | x in s) == {s[0]} + (set x | x in t);
      if s[0] in t {
        assert (set x | x in s) == (set x | x in t);
        var j :| 0 <= j < |t| && t[j] == s[0];
        assert s[j + 1] == s[0];
      } else {
        assert s[0] !in (set x | x in t);
        if Distinct(t) {
          forall a, b | 0 <= a < b < |s| ensures s[a] != s[b] {
            if a > 0 { assert s[a] == t[a - 1] && s[b] == t[b - 1]; }
            else { assert s[b] in t; }
          }
        }
        if Distinct(s) {
          forall a, b | 0 <= a < b < |t| ensures t[a] != t[b] {
            assert s[a + 1] != s[b + 1];
          }
        }
      }
    }
  }

  lemma WfCard(m: Manager)
    requires Wf(m)
    ensures |m.order| == |m.scopes.Keys|
  {
    SeqSetCard(m.order);
    assert (set x | x in m.order) == m.scopes.Keys;
  }

  /** count() of ScopeManager(*args): one slot per distinct pk, so fewer
      slots than arguments exactly when two arguments share a pk. */
  lemma BuildCount(args: seq<Scope>)
    requires AllIndexable(args)
    ensures Wf(Build(args))
    ensures |Build(args).order| == |set k | k in PkSeq(args)|
    ensures |Build(args).order| <= |args|
    ensures |Build(args).order| == |args| <==> Distinct(PkSeq(args))
  {
    ExtendAllWf(Empty, args);
    ExtendAllKeys(Empty, args);
    WfCard(Build(args));
    SeqSetCard(PkSeq(args));
  }

  // ----- removing -----

  function RemoveFromIndex(ix: Index, a: string, v: Value, pk: Value): (Index, Status)
  {
    var inner := if a in ix then ix[a] else map[];
    var bucket := Bucket(ix, a, v);
    if pk in bucket then (ix[a := inner[v := bucket - {pk}]], Done)
    else (ix[a := inner[v := bucket]], Failed(KeyError))
  }

  /** remove_from_index for each attribute in turn; set.remove raises
      KeyError on the first bucket that lacks the pk, leaving the earlier
      removals done. */
  function RemoveFromIndexes(ix: Index, s: Scope, attrs: seq<string>): (Index, Status)
    requires forall a :: a in attrs ==> a in s.json
    decreases |attrs|
  {
    if attrs == [] then (ix, Done)
    else
      var step := RemoveFromIndex(ix, attrs[0], s.json[attrs[0]], Pk(s));
      if step.1.Failed? then step else RemoveFromIndexes(step.0, s, attrs[1..])
  }

  function Without(order: seq<Value>, pk: Value): (r: seq<Value>)
    ensures forall k :: k in r <==> k in order && k != pk
  {
    if order == [] then []
    else (if order[0] == pk then [] else [order[0]]) + Without(order[1..], pk)
  }

  datatype Removal = Removal(manager: Manager, status: Status)

  /** remove(scope): take its pk out of its buckets, then pop its slot
      (KeyError when the slot is missing). */
  function RemoveFrom(m: Manager, s: Scope): Removal
    requires Indexable(s)
  {
    var step := RemoveFromIndexes(m.indexes, s, IndexNames(s.kind));
    var pk := Pk(s);
    if step.1.Failed? then Removal(Manager(m.order, m.scopes, step.0), step.1)
    else if pk !in m.scopes then Removal(Manager(m.order, m.scopes, step.0), Failed(KeyError))
    else Removal(Manager(Without(m.order, pk), m.scopes - {pk}, step.0), Done)
  }

  /** The buckets after removing from distinct attributes, when every one of
      them held the pk. */
  lemma {:induction false} RemoveFromIndexesEffect(ix: Index, s: Scope, attrs: seq<string>, a: string, v: Value)
    requires forall n :: n in attrs ==> n in s.json
    requires forall i, j :: 0 <= i < j < |attrs| ==> attrs[i] != attrs[j]
    requires forall n :: n in attrs ==> Pk(s) in Bucket(ix, n, s.json[n])
    ensures RemoveFromIndexes(ix, s, attrs).1 == Done
    ensures Bucket(RemoveFromIndexes(ix, s, attrs).0, a, v)
         == Bucket(ix, a, v) - (if a in attrs && s.json[a] == v then {Pk(s)} else {})
    ensures a in RemoveFromIndexes(ix, s, attrs).0 <==> a in ix || a in attrs
    decreases |attrs|
  {
    if attrs != [] {
      var step := RemoveFromIndex(ix, attrs[0], s.json[attrs[0]], Pk(s));
      forall n | n in attrs[1..] ensures Pk(s) in Bucket(step.0, n, s.json[n]) {
        assert n != attrs[0];
      }
      RemoveFromIndexesEffect(step.0, s, attrs[1..], a, v);
    }
  }

  lemma {:induction false} WithoutDistinct(order: seq<Value>, pk: Value)
    requires Distinct(order)
    ensures Distinct(Without(order, pk))
  {
    if order != [] {
      WithoutDistinct(order[1..], pk);
      var r := Without(order, pk);
      var rest := Without(order[1..], pk);
      if order[0] != pk {
        assert r == [order[0]] + rest;
        assert order[0] !in rest;
        forall i, j | 0 <= i < j < |r| ensures r[i] != r[j] {
          if i == 0 { assert r[j] == rest[j - 1]; assert rest[j - 1] in rest; }
          else { assert r[i] == rest[i - 1] && r[j] == rest[j - 1]; }
        }
      }
    }
  }

  /** A removal that succeeds drops exactly the scope's slot. */
  lemma RemoveDropsSlot(m: Manager, s: Scope)
    requires Wf(m) && Indexable(s)
    requires RemoveFrom(m, s).status == Done
    ensures Wf(RemoveFrom(m, s).manager)
    ensures RemoveFrom(m, s).manager.scopes == m.scopes - {Pk(s)}
    ensures Pk(s) in m.scopes
  {
    WithoutDistinct(m.order, Pk(s));
  }

  // ----- index consistency -----

  /** The index buckets agree with the primary map: a pk sits in the bucket
      of (a, v) exactly when its scope is indexed by a and its payload says
      v there, and every such attribute has an index entry. */
  ghost predicate IndexConsistent(m: Manager)
  {
    (forall a, v, pk :: pk in Bucket(m.indexes, a, v) <==>
       (pk in m.scopes && m.scopes[pk].kind != Game &&
        a in IndexNames(m.scopes[pk].kind) && a in m.scopes[pk].json && m.scopes[pk].json[a] == v)) &&
    (forall pk, a ::
       (pk in m.scopes && m.scopes[pk].kind != Game && a in IndexNames(m.scopes[pk].kind))
       ==> a in m.indexes)
  }

  lemma EmptyIsConsistent()
    ensures Wf(Empty) && IndexConsistent(Empty)
  {
  }

  lemma IndexNamesDistinct(k: Kind)
    ensures forall i, j :: 0 <= i < j < |IndexNames(k)| ==> IndexNames(k)[i] != IndexNames(k)[j]
  {
  }

  /** Adding a new pk, or re-adding one with unchanged filter values, keeps
      the indexes consistent. */
  lemma AddKeepsConsistent(m: Manager, s: Scope)
    requires Wf(m) && IndexConsistent(m) && Indexable(s)
    requires Pk(s) in m.scopes ==> SameIndexValues(m.scopes[Pk(s)], s)
    ensures Wf(AddOne(m, s)) && IndexConsistent(AddOne(m, s))
  {
    var r := AddOne(m, s);
    var attrs := IndexNames(s.kind);
    forall a, v, pk
      ensures pk in Bucket(r.indexes, a, v) <==>
       (pk in r.scopes && r.scopes[pk].kind != Game &&
        a in IndexNames(r.scopes[pk].kind) && a in r.scopes[pk].json && r.scopes[pk].json[a] == v)
    {
      AddToIndexesEffect(m.indexes, s, attrs, a, v);
    }
    forall pk, a | pk in r.scopes && r.scopes[pk].kind != Game &&
       a in IndexNames(r.scopes[pk].kind)
      ensures a in r.indexes
    {
      AddToIndexesEffect(m.indexes, s, attrs, a, Null);
    }
  }

  /** Adding a pk to buckets that already hold it changes nothing. */
  lemma {:induction false} AddToIndexesPresent(ix: Index, s: Scope, attrs: seq<string>)
    requires forall a :: a in attrs ==> a in s.json && Pk(s) in Bucket(ix, a, s.json[a])
    ensures AddToIndexes(ix, s, attrs) == ix
    decreases |attrs|
  {
    if attrs != [] {
      var a := attrs[0];
      assert AddToIndex(ix, a, s.json[a], Pk(s)) == ix by {
        assert a in ix && s.json[a] in ix[a];
        assert Bucket(ix, a, s.json[a]) + {Pk(s)} == ix[a][s.json[a]];
        assert ix[a][s.json[a] := Bucket(ix, a, s.json[a]) + {Pk(s)}] == ix[a];
      }
      AddToIndexesPresent(ix, s, attrs[1..]);
    }
  }

  /** Re-adding the very scope a consistent container holds is a no-op. */
  lemma ReAddIsNoop(m: Manager, s: Scope)
    requires Wf(m) && IndexConsistent(m) && Pk(s) in m.scopes && m.scopes[Pk(s)] == s
    ensures Indexable(s) && AddOne(m, s) == m
  {
    var attrs := IndexNames(s.kind);
    forall a | a in attrs ensures a in s.json && Pk(s) in Bucket(m.indexes, a, s.json[a]) {
    }
    AddToIndexesPresent(m.indexes, s, attrs);
    assert m.scopes[Pk(s) := s] == m.scopes;
  }

  /** Removing a stored scope whose filter values are unchanged succeeds, and
      keeps the container well formed and its indexes consistent. */
  lemma RemoveKeepsConsistent(m: Manager, s: Scope)
    requires Wf(m) && IndexConsistent(m) && Indexable(s)
    requires Pk(s) in m.scopes && SameIndexValues(m.scopes[Pk(s)], s)
    ensures RemoveFrom(m, s).status == Done
    ensures Wf(RemoveFrom(m, s).manager) && IndexConsistent(RemoveFrom(m, s).manager)
    ensures RemoveFrom(m, s).manager.scopes == m.scopes - {Pk(s)}
  {
    var attrs := IndexNames(s.kind);
    var pk0 := Pk(s);
    IndexNamesDistinct(s.kind);
    assert forall n :: n in attrs ==> pk0 in Bucket(m.indexes, n, s.json[n]) by {
      forall n | n in attrs ensures pk0 in Bucket(m.indexes, n, s.json[n]) {
      }
    }
    var step := RemoveFromIndexes(m.indexes, s, attrs);
    assert step.1 == Done by {
      RemoveFromIndexesEffect(m.indexes, s, attrs, "", Null);
    }
    var r := RemoveFrom(m, s).manager;
    assert r == Manager(Without(m.order, pk0), m.scopes - {pk0}, step.0);
    assert Wf(r) by {
      WithoutDistinct(m.order, pk0);
    }
    forall a, v, pk
      ensures pk in Bucket(r.indexes, a, v) <==>
       (pk in r.scopes && r.scopes[pk].kind != Game &&
        a in IndexNames(r.scopes[pk].kind) && a in r.scopes[pk].json && r.scopes[pk].json[a] == v)
    {
      RemoveFromIndexesEffect(m.indexes, s, attrs, a, v);
      RemovedBucket(m, s, step.0, a, v, pk);
    }
    forall pk, a | pk in r.scopes && r.scopes[pk].kind != Game &&
       a in IndexNames(r.scopes[pk].kind)
      ensures a in r.indexes
    {
      RemoveFromIndexesEffect(m.indexes, s, attrs, a, Null);
    }
  }

  /** Indexes stay consistent when the stored payloads change only outside
      the filter attributes. */
  lemma SameIndexValuesConsistent(a: Manager, b: Manager)
    requires IndexConsistent(a) && a.indexes == b.indexes && a.scopes.Keys == b.scopes.Keys
    requires forall pk :: pk in a.scopes ==> a.scopes[pk].kind == b.scopes[pk].kind
    requires forall pk, n :: pk in a.scopes && n in IndexNames(a.scopes[pk].kind) ==>
      (n in a.scopes[pk].json <==> n in b.scopes[pk].json) &&
      (n in a.scopes[pk].json ==> a.scopes[pk].json[n] == b.scopes[pk].json[n])
    ensures IndexConsistent(b)
  {
  }

  lemma RemovedBucket(m: Manager, s: Scope, ix: Index, a: string, v: Value, pk: Value)
    requires Wf(m) && IndexConsistent(m) && Indexable(s)
    requires Pk(s) in m.scopes && SameIndexValues(m.scopes[Pk(s)], s)
    requires Bucket(ix, a, v) == Bucket(m.indexes, a, v) - (if a in IndexNames(s.kind) && s.json[a] == v then {Pk(s)} else {})
    ensures pk in Bucket(ix, a, v) <==>
      (pk in m.scopes - {Pk(s)} && (m.scopes - {Pk(s)})[pk].kind != Game &&
       a in IndexNames((m.scopes - {Pk(s)})[pk].kind) && a in (m.scopes - {Pk(s)})[pk].json &&
       (m.scopes - {Pk(s)})[pk].json[a] == v)
  {
  }

  // ----- queries -----

  type Criteria = seq<(string, Value)>

  /** _lookup: the criteria in order; a mismatch answers false at once, a
      missing key raises ValueError. */
  function Lookup(s: Scope, c: Criteria): Result<bool>
  {
    if c == [] then Ok(true)
    else if c[0].0 !in s.json then Err(ValueError)
    else if s.json[c[0].0] != c[0].1 then Ok(false)
    else Lookup(s, c[1..])
  }

  /** The payload satisfies every criterion. */
  predicate Matches(s: Scope, c: Criteria)
  {
    forall i :: 0 <= i < |c| ==> c[i].0 in s.json && s.json[c[i].0] == c[i].1
  }

  /** The scan filter: the members whose lookup answers true, in order; the
      first member whose lookup raises makes the whole filter raise. */
  function Scan(ms: seq<Scope>, c: Criteria): Result<seq<Scope>>
  {
    if ms == [] then Ok([])
    else
      var keep :- Lookup(ms[0], c);
      var rest :- Scan(ms[1..], c);
      Ok((if keep then [ms[0]] else []) + rest)
  }

  /** The members whose pk is in the bucket, in order. */
  function InBucket(ms: seq<Scope>, bucket: set<Value>): seq<Scope>
  {
    if ms == [] then []
    else (if Pk(ms[0]) in bucket then [ms[0]] else []) + InBucket(ms[1..], bucket)
  }

  /** filter(**kwargs): a single criterion on an indexed attribute reads the
      bucket; anything else scans the members. */
  function Filter(m: Manager, c: Criteria): Result<seq<Scope>>
    requires Wf(m)
  {
    if |c| == 1 && c[0].0 in m.indexes then Ok(InBucket(Members(m), Bucket(m.indexes, c[0].0, c[0].1)))
    else Scan(Members(m), c)
  }

  /** get(**kwargs): `id` alone reads the primary map; otherwise exactly one
      filter result is required. */
  function Get(m: Manager, c: Criteria): Result<Scope>
    requires Wf(m)
  {
    if |c| == 1 && c[0].0 == "id" then
      if c[0].1 in m.scopes then Ok(m.scopes[c[0].1]) else Err(ScopeNotFound)
    else
      var found :- Filter(m, c);
      if |found| == 0 then Err(ScopeNotFound)
      else if |found| > 1 then Err(MultipleScopesFound)
      else Ok(found[0])
  }

  /** exists(): more than one scope raises; otherwise whether there is one. */
  function Exists(m: Manager): Result<bool>
  {
    if |m.order| > 1 then Err(MultipleScopesFound) else Ok(|m.order| == 1)
  }

  /** last(): the most recently inserted pk's scope. */
  function Last(m: Manager): Result<Scope>
    requires Wf(m)
  {
    if |m.order| == 0 then Err(ScopeNotFound) else Ok(m.scopes[m.order[|m.order| - 1]])
  }

  /** manager[i], with Python's negative positions. */
  function At(m: Manager, i: int): (r: Result<Scope>)
    requires Wf(m)
    ensures 0 <= i < |Members(m)| ==> r == Ok(Members(m)[i])
    ensures -|Members(m)| <= i < 0 ==> r == Ok(Members(m)[|Members(m)| + i])
    ensures r.Err? <==> !(-|Members(m)| <= i < |Members(m)|)
    ensures r.Err? ==> r.error == IndexError
  {
    if 0 <= i < |m.order| then
      MembersIndex(m.order, m.scopes, i);
      Ok(m.scopes[m.order[i]])
    else if -|m.order| <= i < 0 then
      MembersIndex(m.order, m.scopes, |m.order| + i);
      Ok(m.scopes[m.order[|m.order| + i]])
    else Err(IndexError)
  }

  /** `scope in manager`: by pk (KeyError when the payload has no id). */
  function Contains(m: Manager, s: Scope): Result<bool>
  {
    var pk :- Field(s.json, "id");
    Ok(pk in m.scopes)
  }

  /** manager == other: the member list equals `other` element by element,
      under scope equality. */
  predicate EqualsList(m: Manager, other: seq<Scope>)
    requires Wf(m)
  {
    |Members(m)| == |other| && forall i :: 0 <= i < |other| ==> Same(Members(m)[i], other[i])
  }

  /** other + manager for a list `other`. */
  function RAdd(other: seq<Scope>, m: Manager): seq<Scope>
    requires Wf(m)
  {
    other + Members(m)
  }

  /** Replacing the payload of a stored scope object (`scope.json = ...`):
      the slot sees the new payload, the buckets stay as they were. */
  function ReplacePayload(m: Manager, pk: Value, json: Json): Manager
    requires pk in m.scopes
  {
    Manager(m.order, m.scopes[pk := Scope(m.scopes[pk].kind, json)], m.indexes)
  }

  // ----- query properties -----

  /** A lookup answers true exactly when the payload matches, and raises
      only on a key missing after a matching prefix. */
  lemma {:induction false} LookupMeaning(s: Scope, c: Criteria)
    ensures Lookup(s, c) == Ok(true) <==> Matches(s, c)
    ensures Lookup(s, c).Err? ==> Lookup(s, c).error == ValueError
    ensures (forall i :: 0 <= i < |c| ==> c[i].0 in s.json) ==> Lookup(s, c).Ok?
  {
    if c != [] {
      LookupMeaning(s, c[1..]);
      if Matches(s, c) {
        assert Matches(s, c[1..]);
      }
      if Lookup(s, c) == Ok(true) {
        assert Matches(s, c[1..]);
      }
    }
  }

  /** ... and a lookup raises exactly when it reaches a key the payload
      lacks, every earlier criterion having matched. */
  lemma {:induction false} LookupRaises(s: Scope, c: Criteria)
    ensures Lookup(s, c).Err? <==>
      exists i :: 0 <= i < |c| && c[i].0 !in s.json && Matches(s, c[..i])
  {
    if c != [] {
      LookupRaises(s, c[1..]);
      if Lookup(s, c).Err? && c[0].0 in s.json {
        var i :| 0 <= i < |c[1..]| && c[1..][i].0 !in s.json && Matches(s, c[1..][..i]);
        assert c[..i + 1] == [c[0]] + c[1..][..i];
      }
      if exists i :: 0 <= i < |c| && c[i].0 !in s.json && Matches(s, c[..i]) {
        var i :| 0 <= i < |c| && c[i].0 !in s.json && Matches(s, c[..i]);
        if i > 0 {
          assert c[..i][0] == c[0];
          assert c[1..][..i - 1] == c[..i][1..];
          assert c[1..][i - 1].0 !in s.json;
        }
      }
    }
  }

  /** The scan filter keeps exactly the matching members, in order, unless
      some member lacks a criterion key where a lookup reaches it. */
  lemma {:induction false} ScanMeaning(ms: seq<Scope>, c: Criteria)
    ensures Scan(ms, c).Ok? <==> forall i :: 0 <= i < |ms| ==> Lookup(ms[i], c).Ok?
    ensures Scan(ms, c).Err? ==> Scan(ms, c).error == ValueError
    ensures Scan(ms, c).Ok? ==>
      (forall x :: x in Scan(ms, c).value <==> x in ms && Matches(x, c)) &&
      |Scan(ms, c).value| <= |ms|
  {
    if ms != [] {
      LookupMeaning(ms[0], c);
      ScanMeaning(ms[1..], c);
      if Scan(ms, c).Ok? {
        forall i | 0 <= i < |ms| ensures Lookup(ms[i], c).Ok? {
          if i > 0 { assert ms[i] == ms[1..][i - 1]; }
        }
        forall x | x in ms && Matches(x, c) ensures x in Scan(ms, c).value {
          LookupMeaning(x, c);
          if x != ms[0] {
            assert x in ms[1..];
          }
        }
      }
      if forall i :: 0 <= i < |ms| ==> Lookup(ms[i], c).Ok? {
        assert Lookup(ms[0], c).Ok?;
        forall i | 0 <= i < |ms[1..]| ensures Lookup(ms[1..][i], c).Ok? {
          assert ms[1..][i] == ms[i + 1];
        }
      }
    }
  }

  /** An empty filter keeps every member. */
  lemma {:induction false} ScanAll(ms: seq<Scope>)
    ensures Scan(ms, []) == Ok(ms)
  {
    if ms != [] {
      ScanAll(ms[1..]);
      assert [ms[0]] + ms[1..] == ms;
    }
  }

  lemma {:induction false} InBucketMatchesScan(ms: seq<Scope>, a: string, v: Value, bucket: set<Value>)
    requires forall x :: x in ms ==> a in x.json && (Pk(x) in bucket <==> x.json[a] == v)
    ensures Scan(ms, [(a, v)]) == Ok(InBucket(ms, bucket))
  {
    if ms != [] {
      assert [(a, v)][1..] == [];
      assert Lookup(ms[0], [(a, v)]) == Ok(ms[0].json[a] == v);
      InBucketMatchesScan(ms[1..], a, v, bucket);
    }
  }

  /** With consistent indexes, reading a bucket gives the same scopes, in the
      same order, as scanning every member. */
  lemma IndexedFilterMatchesScan(m: Manager, a: string, v: Value)
    requires Wf(m) && IndexConsistent(m)
    requires forall k :: k in m.scopes ==> a in IndexNames(m.scopes[k].kind)
    ensures Filter(m, [(a, v)]) == Scan(Members(m), [(a, v)])
    ensures Filter(m, [(a, v)]).Ok?
  {
    MemberPks(m);
    forall x | x in Members(m)
      ensures a in x.json && (Pk(x) in Bucket(m.indexes, a, v) <==> x.json[a] == v)
    {
    }
    InBucketMatchesScan(Members(m), a, v, Bucket(m.indexes, a, v));
  }

  /** filter() only ever returns members of the container. */
  lemma FilterWithin(m: Manager, c: Criteria)
    requires Wf(m)
    ensures Filter(m, c).Ok? ==> forall x :: x in Filter(m, c).value ==> x in Members(m)
  {
    if |c| == 1 && c[0].0 in m.indexes {
      InBucketPks(Members(m), Bucket(m.indexes, c[0].0, c[0].1));
    } else {
      ScanMeaning(Members(m), c);
    }
  }

  /** With consistent indexes, filtering on an attribute every stored scope
      is indexed by succeeds and keeps exactly the members having that value. */
  lemma FilterByIndex(m: Manager, a: string, v: Value)
    requires Wf(m) && IndexConsistent(m)
    requires forall k :: k in m.scopes ==> a in IndexNames(m.scopes[k].kind)
    ensures Filter(m, [(a, v)]).Ok?
    ensures forall x :: x in Filter(m, [(a, v)]).value <==> x in Members(m) && a in x.json && x.json[a] == v
  {
    IndexedFilterMatchesScan(m, a, v);
    ScanMeaning(Members(m), [(a, v)]);
  }

  /** get(id=pk) finds the stored scope, or raises ScopeNotFound. */
  lemma GetById(m: Manager, pk: Value)
    requires Wf(m)
    ensures Get(m, [("id", pk)]).Ok? <==> pk in m.scopes
    ensures Get(m, [("id", pk)]).Ok? ==> Get(m, [("id", pk)]).value == m.scopes[pk] && Pk(m.scopes[pk]) == pk
    ensures Get(m, [("id", pk)]).Err? ==> Get(m, [("id", pk)]).error == ScopeNotFound
  {
  }

  /** Any other get answers by the number of filter results: none raises
      ScopeNotFound, several raise MultipleScopesFound, one is returned. */
  lemma GetByFilter(m: Manager, c: Criteria)
    requires Wf(m) && !(|c| == 1 && c[0].0 == "id")
    ensures Filter(m, c).Err? ==> Get(m, c) == Err(Filter(m, c).error)
    ensures Filter(m, c).Ok? && |Filter(m, c).value| == 0 ==> Get(m, c) == Err(ScopeNotFound)
    ensures Filter(m, c).Ok? && |Filter(m, c).value| > 1 ==> Get(m, c) == Err(MultipleScopesFound)
    ensures Filter(m, c).Ok? && |Filter(m, c).value| == 1 ==> Get(m, c) == Ok(Filter(m, c).value[0])
  {
  }

  /** The scope a scan-based get returns matches every criterion. */
  lemma GetMatches(m: Manager, c: Criteria)
    requires Wf(m) && !(|c| == 1 && (c[0].0 == "id" || c[0].0 in m.indexes))
    requires Get(m, c).Ok?
    ensures Matches(Get(m, c).value, c) && Get(m, c).value in Members(m)
  {
    ScanMeaning(Members(m), c);
    assert Get(m, c).value in Scan(Members(m), c).value;
  }

  /** exists() and last() against the insertion order. */
  lemma ExistsAndLast(m: Manager, s: Scope)
    requires Wf(m) && Indexable(s) && Pk(s) !in m.scopes
    ensures Exists(m) == (if |m.order| > 1 then Err(MultipleScopesFound) else Ok(|m.order| == 1))
    ensures Last(AddOne(m, s)) == Ok(s)
    ensures Exists(Empty) == Ok(false) && Last(Empty) == Err(ScopeNotFound)
  {
  }

  /** Membership after the mutators: an added scope is in, a removed one is
      out. */
  lemma ContainsAfterUpdates(m: Manager, s: Scope)
    requires Wf(m) && Indexable(s)
    ensures Contains(AddOne(m, s), s) == Ok(true)
    ensures RemoveFrom(m, s).status == Done ==> Contains(RemoveFrom(m, s).manager, s) == Ok(false)
  {
  }

  /** A list built from the members compares equal; list + manager lists the
      list first, then the members. */
  lemma EqualityAndRAdd(m: Manager, other: seq<Scope>)
    requires Wf(m)
    ensures EqualsList(m, Members(m))
    ensures |RAdd(other, m)| == |other| + |m.order|
    ensures RAdd(other, m)[..|other|] == other && RAdd(other, m)[|other|..] == Members(m)
  {
  }

  /** Replacing a stored payload under a changed filter value leaves the
      stale bucket: an indexed filter on the new value does not see the
      scope... */
  lemma StaleIndexAfterReplace(m: Manager, pk: Value, json: Json, a: string)
    requires Wf(m) && IndexConsistent(m) && pk in m.scopes
    requires IndexNames(m.scopes[pk].kind) == [a]
    requires "id" in json && json["id"] == pk && a in json && json[a] != m.scopes[pk].json[a]
    ensures Wf(ReplacePayload(m, pk, json))
    ensures var r := ReplacePayload(m, pk, json);
            Filter(r, [(a, json[a])]).Ok? && r.scopes[pk] !in Filter(r, [(a, json[a])]).value
  {
    var r := ReplacePayload(m, pk, json);
    assert a in IndexNames(m.scopes[pk].kind);
    assert a in r.indexes;
    assert pk !in Bucket(r.indexes, a, json[a]);
    assert Wf(r);
    MemberPks(r);
    InBucketPks(Members(r), Bucket(r.indexes, a, json[a]));
  }

  /** ... and removing it raises KeyError: its pk is not in the bucket of
      its new value. */
  lemma StaleRemoveFails(m: Manager, pk: Value, json: Json, a: string)
    requires Wf(m) && IndexConsistent(m) && pk in m.scopes
    requires IndexNames(m.scopes[pk].kind) == [a]
    requires "id" in json && json["id"] == pk && a in json && json[a] != m.scopes[pk].json[a]
    ensures RemoveFrom(ReplacePayload(m, pk, json), Scope(m.scopes[pk].kind, json)).status == Failed(KeyError)
  {
    var r := ReplacePayload(m, pk, json);
    var s := Scope(m.scopes[pk].kind, json);
    assert a in IndexNames(m.scopes[pk].kind);
    assert pk !in Bucket(r.indexes, a, json[a]);
    assert RemoveFromIndexes(r.indexes, s, [a]) == RemoveFromIndex(r.indexes, a, json[a], pk);
  }

  lemma {:induction false} InBucketPks(ms: seq<Scope>, bucket: set<Value>)
    ensures forall x :: x in InBucket(ms, bucket) ==> x in ms && Pk(x) in bucket
  {
    if ms != [] {
      InBucketPks(ms[1..], bucket);
    }
  }

  // ----- the container object -----

  /** A ScopeManager instance: the ordered primary map and the index. */
  class ScopeManager {
    var order: seq<Value>
    var scopes: map<Value, Scope>
    var indexes: Index

    function State(): Manager
      reads this
    {
      Manager(order, scopes, indexes)
    }

    ghost predicate Valid()
      reads this
    {
      Wf(State())
    }

    /** ScopeManager(*args) */
    constructor (args: seq<Scope>)
      requires AllIndexable(args)
      ensures Valid() && State() == Build(args)
    {
      order := [];
      scopes := map[];
      indexes := map[];
      new;
      Extends(args);
    }

    /** reset(): new, empty structures. */
    method Reset()
      modifies this
      ensures Valid() && State() == Empty
    {
      order := [];
      scopes := map[];
      indexes := map[];
    }

    method AddToIndexAttr(a: string, s: Scope)
      requires a in s.json
      modifies this
      ensures State() == Manager(old(order), old(scopes), AddToIndex(old(indexes), a, s.json[a], Pk(s)))
    {
      var v := s.json[a];
      var inner := if a in indexes then indexes[a] else map[];
      var bucket := if v in inner then inner[v] else {};
      indexes := indexes[a := inner[v := bucket + {Pk(s)}]];
    }

    method AddOneScope(s: Scope)
      requires Valid() && Indexable(s)
      modifies this
      ensures Valid() && State() == AddOne(old(State()), s)
    {
      AddOneWf(State(), s);
      var pk := s.json["id"];
      if pk !in scopes {
        order := order + [pk];
      }
      scopes := scopes[pk := s];
      var attrs := IndexNames(s.kind);
      var i := 0;
      while i < |attrs|
        invariant 0 <= i <= |attrs|
        invariant order == old(State()).order || order == old(State()).order + [pk]
        invariant AddOne(old(State()), s) ==
                  Manager(order, scopes, AddToIndexes(indexes, s, attrs[i..]))
        decreases |attrs| - i
      {
        assert attrs[i..] == [attrs[i]] + attrs[i + 1..];
        AddToIndexAttr(attrs[i], s);
        i := i + 1;
      }
    }

    /** extends(*args) */
    method Extends(args: seq<Scope>)
      requires Valid() && AllIndexable(args)
      modifies this
      ensures Valid() && State() == ExtendAll(old(State()), args)
    {
      var i := 0;
      while i < |args|
        invariant 0 <= i <= |args| && Valid()
        invariant ExtendAll(State(), args[i..]) == ExtendAll(old(State()), args)
        decreases |args| - i
      {
        assert args[i..][1..] == args[i + 1..];
        AddOneScope(args[i]);
        i := i + 1;
      }
    }

    /** append(*scopes): the same steps as extends. */
    method Append(args: seq<Scope>)
      requires Valid() && AllIndexable(args)
      modifies this
      ensures Valid() && State() == ExtendAll(old(State()), args)
    {
      Extends(args);
    }

    /** add(scope) */
    method Add(s: Scope)
      requires Valid() && Indexable(s)
      modifies this
      ensures Valid() && State() == AddOne(old(State()), s)
    {
      Append([s]);
    }

    /** self + other: extends with `other` and returns this same object. */
    method Plus(other: seq<Scope>) returns (r: ScopeManager)
      requires Valid() && AllIndexable(other)
      modifies this
      ensures r == this && Valid() && State() == ExtendAll(old(State()), other)
    {
      Extends(other);
      r := this;
    }

    /** remove(scope): each bucket in turn, then the slot; the first missing
        entry raises KeyError and ends the removal. */
    method Remove(s: Scope) returns (status: Status)
      requires Valid() && Indexable(s)
      modifies this
      ensures Valid()
      ensures State() == RemoveFrom(old(State()), s).manager
      ensures status == RemoveFrom(old(State()), s).status
    {
      var attrs := IndexNames(s.kind);
      var pk := s.json["id"];
      var ix := indexes;
      status := Done;
      var i := 0;
      while i < |attrs| && status == Done
        invariant 0 <= i <= |attrs|
        invariant RemoveFromIndexes(indexes, s, attrs) ==
                  (if status == Done then RemoveFromIndexes(ix, s, attrs[i..]) else (ix, status))
        decreases |attrs| - i
      {
        assert attrs[i..][1..] == attrs[i + 1..];
        var a := attrs[i];
        var v := s.json[a];
        var inner := if a in ix then ix[a] else map[];
        var bucket := if v in inner then inner[v] else {};
        if pk in bucket {
          ix := ix[a := inner[v := bucket - {pk}]];
        } else {
          ix := ix[a := inner[v := bucket]];
          status := Failed(KeyError);
        }
        i := i + 1;
      }
      indexes := ix;
      if status.Failed? {
        return;
      }
      if pk !in scopes {
        return Failed(KeyError);
      }
      WithoutDistinct(order, pk);
      order := Without(order, pk);
      scopes := scopes - {pk};
    }
  }
}
