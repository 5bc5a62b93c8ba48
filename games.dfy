// The game object as a mutable whole: its payload, its containers, the events
// its scopes have sent and the runusers online.  Each method performs one
// lifecycle operation step by step, loop by loop as the source does, and is
// proved to leave exactly the state, and to send exactly the events, that
// the corresponding function of the Lifecycle module describes; the
// properties of the operations are proved about those functions.

module Games {
  import opened Exceptions
  import opened Payload
  import opened Constants
  import opened Managers
  import opened Traversing
  import opened Scopes
  import opened Lifecycle
  import opened Presence
  import opened Restoring
  import opened Phases

  /** a's events followed by b's, ending as b ends. */
  function Then(a: Step, b: Step): Step
  {
    Step(b.graph, a.events + b.events, b.status)
  }

  /** Appending in two steps is appending once. */
  lemma Associative<T>(a: seq<T>, b: seq<T>, c: seq<T>)
    ensures a + b + c == a + (b + c)
  {
  }

  /** One scope of Game.add_scopes, and its start event. */
  lemma AddAllStep(g: Graph, ss: seq<Scope>, i: nat)
    requires Valid(g) && AllIndexable(ss) && i < |ss|
    ensures Indexable(ss[i]) && AddAll(g, ss[i..]) == AddAll(Put(g, ss[i]), ss[i + 1..])
    ensures Joins(ss[..i + 1]) == Joins(ss[..i]) + [Join(ss[i])]
  {
    assert ss[i..][1..] == ss[i + 1..];
  }

  /** One scope of Game.remove_scopes: its stop event and its removal, after
      which the loop ends or goes on with the rest. */
  lemma RemoveScopesStep(g: Graph, ss: seq<Scope>, i: nat)
    requires Valid(g) && AllIndexable(ss) && i < |ss|
    ensures var s := ss[i]; var rm := RemoveFrom(Container(g, s.kind), s);
      Indexable(s) && Wf(rm.manager) && StoresKind(rm.manager, s.kind) &&
      var g1 := SetContainer(g, s.kind, rm.manager);
      Lifecycle.RemoveScopes(g, ss[i..])
        == if rm.status.Failed? then Step(g1, [Leave(s)], rm.status)
           else Then(Step(g1, [Leave(s)], Done), Lifecycle.RemoveScopes(g1, ss[i + 1..]))
  {
    assert ss[i..][0] == ss[i] && ss[i..][1..] == ss[i + 1..];
    RemoveKeepsShape(Container(g, ss[i].kind), ss[i], ss[i].kind);
  }

  /** Game.add_scopes of a single scope. */
  lemma AddScopesOne(g: Graph, s: Scope)
    requires Valid(g) && Indexable(s)
    ensures AllIndexable([s]) && AddAll(g, [s]) == Put(g, s) && Joins([s]) == [Join(s)]
  {
    assert [s][1..] == [];
  }

  /** Events sent before a step are sent before its continuation. */
  lemma ThenThen(g0: Graph, g1: Graph, a: seq<Event>, b: seq<Event>, r: Step)
    ensures Then(Step(g0, a, Done), Then(Step(g1, b, Done), r)) == Then(Step(g1, a + b, Done), r)
  {
    Associative(a, b, r.events);
  }

  /** One more group of _unload_scope_tree's outer loop: `target`, what the
      whole loop does, is `sent` followed by the rest of the groups. */
  lemma UnloadGroupsLoop(target: Step, g: Graph, sent: seq<Event>, groups: seq<(Kind, seq<Scope>)>, i: nat, h: nat)
    requires Valid(g) && Unloadable(groups, h) && i < |groups|
    requires target == Then(Step(g, sent, Done), UnloadGroups(g, groups[i..], h))
    ensures UnloadableList(groups[i].1, h)
    ensures Unloadable(groups[i + 1..], h)
    ensures var a := UnloadList(g, groups[i].1, h);
      if a.status.Failed? then target == Step(a.graph, sent + a.events, a.status)
      else target == Then(Step(a.graph, sent + a.events, Done), UnloadGroups(a.graph, groups[i + 1..], h))
  {
    assert groups[i..][0] == groups[i] && groups[i..][1..] == groups[i + 1..];
    assert forall j, x :: 0 <= j < |groups[i..]| && x in groups[i..][j].1 ==> x in groups[i + j].1;
    var a := UnloadList(g, groups[i].1, h);
    ThenStep(g, sent, a, UnloadGroups(a.graph, groups[i + 1..], h));
  }

  /** _unload_scope_tree once the child groups are found: the groups, then
      the scope itself when they all unload. */
  lemma UnloadUnfold(g: Graph, s: Scope)
    requires Valid(g) && Indexable(s) && ChildScopes(g, s).Ok?
    ensures Unloadable(ChildScopes(g, s).value, Height(s.kind))
    ensures var c := UnloadGroups(g, ChildScopes(g, s).value, Height(s.kind));
      Unload(g, s) == if c.status.Failed? then c else Then(c, Lifecycle.RemoveScopes(c.graph, [s]))
  {
    ChildGroupsIndexable(g, s);
  }

  /** _unload_scope_tree when the child groups cannot be found. */
  lemma UnloadFails(g: Graph, s: Scope)
    requires Valid(g) && Indexable(s) && ChildScopes(g, s).Err?
    ensures Unload(g, s) == Step(g, [], Failed(ChildScopes(g, s).error))
  {
  }

  /** One child of _unload_scope_tree's inner loop. */
  lemma UnloadListStep(g: Graph, ms: seq<Scope>, j: nat, h: nat)
    requires Valid(g) && UnloadableList(ms, h) && j < |ms|
    ensures Height(ms[j].kind) + 1 == h && Indexable(ms[j])
    ensures UnloadableList(ms[j + 1..], h)
    ensures var a := Unload(g, ms[j]);
      UnloadList(g, ms[j..], h)
        == if a.status.Failed? then a else Then(a, UnloadList(a.graph, ms[j + 1..], h))
  {
    assert ms[j..][0] == ms[j] && ms[j..][1..] == ms[j + 1..];
  }

  /** Running a step after events already sent. */
  lemma ThenStep(g0: Graph, sent: seq<Event>, a: Step, r: Step)
    ensures Then(Step(g0, sent, Done), Then(a, r)) == Then(Step(a.graph, sent + a.events, Done), r)
    ensures Then(Step(g0, sent, Done), a) == Step(a.graph, sent + a.events, a.status)
  {
    Associative(sent, a.events, r.events);
  }

  /** Two writes of the same container: the second wins. */
  lemma SetContainerTwice(g: Graph, k: Kind, m1: Manager, m2: Manager)
    requires Valid(g) && Wf(m1) && StoresKind(m1, k) && Wf(m2) && StoresKind(m2, k)
    ensures SetContainer(SetContainer(g, k, m1), k, m2) == SetContainer(g, k, m2)
  {
    assert g.scopes[k := m1][k := m2] == g.scopes[k := m2];
  }

  /** The scenarios a filter of the scenario container finds are loaded
      scenario objects, so re-creating one from its payload gives it back. */
  lemma FoundScenarios(g: Graph, pk: Value)
    requires Valid(g)
    ensures Filter(Container(g, Scenario), [("runuser", pk)]).Ok? ==>
      forall x :: x in Filter(Container(g, Scenario), [("runuser", pk)]).value ==>
        Indexable(x) && Scope(Scenario, x.json) == x
  {
    FilterWithin(Container(g, Scenario), [("runuser", pk)]);
    ContainerMembers(g, Scenario);
  }

  /** The scenario loop of add_or_update_runuser: ScenarioClass.create from
      each found scope's payload. */
  method RecreateScenarios(found: seq<Scope>) returns (scenarios: seq<Scope>)
    ensures |scenarios| == |found|
    ensures forall i :: 0 <= i < |found| ==> scenarios[i] == Scope(Scenario, found[i].json)
  {
    scenarios := [];
    var k := 0;
    while k < |found|
      invariant 0 <= k <= |found| && |scenarios| == k
      invariant forall i :: 0 <= i < k ==> scenarios[i] == Scope(Scenario, found[i].json)
    {
      scenarios := scenarios + [Scope(Scenario, found[k].json)];
      k := k + 1;
    }
  }

  /** One runuser of get_active_runusers' loop. */
  lemma MarkAllStep(g: Graph, rus: seq<Scope>, i: nat, online: set<Value>)
    requires Valid(g) && i < |rus|
    ensures MarkAll(g, rus[i..], online) == MarkAll(MarkOne(g, rus[i], online), rus[i + 1..], online)
  {
    assert rus[i..][0] == rus[i] && rus[i..][1..] == rus[i + 1..];
  }

  /** One container of restore's start list. */
  lemma AllMembersStep(g: Graph, ks: seq<Kind>, j: nat)
    requires Valid(g) && j < |ks|
    ensures AllMembers(g, ks[j..]) == Members(Container(g, ks[j])) + AllMembers(g, ks[j + 1..])
  {
    assert ks[j..][0] == ks[j] && ks[j..][1..] == ks[j + 1..];
  }

  /** The start list of Game.restore:
      for manager in self.scopes.values(): scopes += [scope for scope in manager] */
  method CollectMembers(g: Graph, ks: seq<Kind>) returns (all: seq<Scope>)
    requires Valid(g)
    ensures all == AllMembers(g, ks)
  {
    all := [];
    var j := 0;
    while j < |ks|
      invariant 0 <= j <= |ks| && AllMembers(g, ks) == all + AllMembers(g, ks[j..])
    {
      AllMembersStep(g, ks, j);
      Associative(all, Members(Container(g, ks[j])), AllMembers(g, ks[j + 1..]));
      all := all + Members(Container(g, ks[j]));
      j := j + 1;
    }
  }

  /** One start of a list of scopes. */
  lemma JoinsSnoc(ss: seq<Scope>, i: nat)
    requires i < |ss|
    ensures Joins(ss[..i + 1]) == Joins(ss[..i]) + [Join(ss[i])]
  {
  }

  /** Game.get_phases / Game.get_roles: the payload of every loaded scope of
      the kind, in insertion order. */
  function Payloads(g: Graph, k: Kind): (r: seq<Json>)
    requires Valid(g)
  {
    var ms := Members(Container(g, k));
    seq(|ms|, i requires 0 <= i < |ms| => ms[i].json)
  }

  /** get_phases lists one payload per loaded phase, in order: the payload
      stored under the pk at that position. */
  lemma PayloadsListLoaded(g: Graph, k: Kind)
    requires Valid(g)
    ensures var m := Container(g, k);
      |Payloads(g, k)| == |m.order| &&
      forall i :: 0 <= i < |m.order| ==> Payloads(g, k)[i] == m.scopes[m.order[i]].json
  {
    MembersPointwise(Container(g, k));
  }

  /** Game.list_scopes: per container the game holds, pk to payload. */
  function ListScopes(g: Graph): (r: map<Kind, map<Value, Json>>)
  {
    map k | k in g.scopes :: map pk | pk in g.scopes[k].scopes :: g.scopes[k].scopes[pk].json
  }

  /** Every loaded scope is listed under its kind and pk with its payload,
      and nothing else is listed. */
  lemma ListScopesMeaning(g: Graph)
    requires Valid(g)
    ensures ListScopes(g).Keys == g.scopes.Keys
    ensures forall k :: k in g.scopes ==> ListScopes(g)[k].Keys == (set s | s in Members(Container(g, k)) :: Pk(s))
    ensures forall k, s :: k in g.scopes && s in Members(Container(g, k)) ==> ListScopes(g)[k][Pk(s)] == s.json
  {
    forall k | k in g.scopes
      ensures ListScopes(g)[k].Keys == (set s | s in Members(Container(g, k)) :: Pk(s))
      ensures forall s :: s in Members(Container(g, k)) ==> ListScopes(g)[k][Pk(s)] == s.json
    {
      MemberPks(Container(g, k));
    }
  }

  class Game {
    /** The game's own payload. */
    var json: Json
    /** game.scopes: one container per kind. */
    var scopes: map<Kind, Manager>
    /** Everything published, started and stopped so far, in order. */
    var outbox: seq<Event>
    /** WampScope.online_runusers. */
    var online: set<Value>

    function State(): Graph
      reads this`json, this`scopes
    {
      Graph(Scope(Kind.Game, json), scopes)
    }

    ghost predicate Inv()
      reads this`json, this`scopes
    {
      Valid(State())
    }

    constructor (game: Json)
      ensures Inv() && json == game && scopes == map[] && outbox == [] && online == {}
    {
      json := game;
      scopes := map[];
      outbox := [];
      online := {};
    }

    /** Replace the whole graph by `g` (same game payload). */
    method SetState(g: Graph)
      requires Valid(g) && g.game == State().game
      modifies this
      ensures State() == g && outbox == old(outbox) && online == old(online)
    {
      scopes := g.scopes;
    }

    /** self.scopes[s.resource_name].add(s) */
    method Store(s: Scope)
      requires Inv() && Indexable(s)
      modifies this
      ensures Inv() && State() == Put(old(State()), s)
      ensures outbox == old(outbox) && online == old(online)
    {
      SetState(Put(State(), s));
    }

    /** One pass of Game.add_scopes: store the scope, then start it. */
    method StoreAndStart(s: Scope)
      requires Inv() && Indexable(s)
      modifies this
      ensures Inv() && State() == Put(old(State()), s)
      ensures outbox == old(outbox) + [Join(s)] && online == old(online)
    {
      Store(s);
      outbox := outbox + [Join(s)];
    }

    /** Game.add_scopes(*ss) */
    method AddScopes(ss: seq<Scope>)
      requires Inv() && AllIndexable(ss)
      modifies this
      ensures Inv() && State() == AddAll(old(State()), ss)
      ensures outbox == old(outbox) + Joins(ss) && online == old(online)
    {
      var i := 0;
      while i < |ss|
        invariant 0 <= i <= |ss| && Inv()
        invariant AddAll(old(State()), ss) == AddAll(State(), ss[i..])
        invariant outbox == old(outbox) + Joins(ss[..i]) && online == old(online)
      {
        AddAllStep(State(), ss, i);
        Associative(old(outbox), Joins(ss[..i]), [Join(ss[i])]);
        StoreAndStart(ss[i]);
        i := i + 1;
      }
      assert ss[..i] == ss;
    }

    /** One pass of Game.remove_scopes: stop the scope, then take it out of
        its container. */
    method StopAndRemove(s: Scope) returns (status: Status)
      requires Inv() && Indexable(s)
      modifies this
      ensures var rm := RemoveFrom(Container(old(State()), s.kind), s);
        Wf(rm.manager) && StoresKind(rm.manager, s.kind) &&
        State() == SetContainer(old(State()), s.kind, rm.manager) && status == rm.status
      ensures Inv() && outbox == old(outbox) + [Leave(s)] && online == old(online)
    {
      outbox := outbox + [Leave(s)];
      var m := Container(State(), s.kind);
      var rm := RemoveFrom(m, s);
      RemoveKeepsShape(m, s, s.kind);
      SetState(SetContainer(State(), s.kind, rm.manager));
      status := rm.status;
    }

    /** Game.remove_scopes(*ss) */
    method RemoveScopes(ss: seq<Scope>) returns (status: Status)
      requires Inv() && AllIndexable(ss)
      modifies this
      ensures Inv()
      ensures var r := Lifecycle.RemoveScopes(old(State()), ss);
        State() == r.graph && outbox == old(outbox) + r.events && status == r.status && online == old(online)
    {
      ghost var sent: seq<Event> := [];
      var i := 0;
      while i < |ss|
        invariant 0 <= i <= |ss| && Inv()
        invariant outbox == old(outbox) + sent && online == old(online)
        invariant Lifecycle.RemoveScopes(old(State()), ss) == Then(Step(State(), sent, Done), Lifecycle.RemoveScopes(State(), ss[i..]))
      {
        var s := ss[i];
        RemoveScopesStep(State(), ss, i);
        ghost var g1 := SetContainer(State(), s.kind, RemoveFrom(Container(State(), s.kind), s).manager);
        ThenThen(old(State()), g1, sent, [Leave(s)], Lifecycle.RemoveScopes(g1, ss[i + 1..]));
        Associative(old(outbox), sent, [Leave(s)]);
        sent := sent + [Leave(s)];
        status := StopAndRemove(s);
        if status.Failed? {
          return;
        }
        i := i + 1;
      }
      return Done;
    }

    /** for target in targets: target.publish(topic, s.pk, s.resource_name, s.json) */
    method Tell(targets: seq<Scope>, topic: string, s: Scope)
      modifies this
      ensures outbox == old(outbox) + Notices(targets, topic, s)
      ensures json == old(json) && scopes == old(scopes) && online == old(online)
    {
      var i := 0;
      while i < |targets|
        invariant 0 <= i <= |targets|
        invariant outbox == old(outbox) + Notices(targets[..i], topic, s)
        invariant json == old(json) && scopes == old(scopes) && online == old(online)
      {
        Associative(old(outbox), Notices(targets[..i], topic, s), [Notice(targets[i], topic, s)]);
        outbox := outbox + [Notice(targets[i], topic, s)];
        assert targets[..i + 1] == targets[..i] + [targets[i]];
        assert Notices(targets[..i + 1], topic, s) == Notices(targets[..i], topic, s) + [Notice(targets[i], topic, s)];
        i := i + 1;
      }
      assert targets[..i] == targets;
    }

    /** The world's and the runusers' notices of add_child_scope and
        update_pubsub. */
    method Notify(s: Scope, topic: string) returns (status: Status)
      requires Inv()
      modifies this
      ensures Inv() && json == old(json) && scopes == old(scopes) && online == old(online)
      ensures var n := Lifecycle.Notify(old(State()), s, topic);
        outbox == old(outbox) + n.events && status == n.status
    {
      var g := State();
      var w := WorldOf(g, s);
      if w.Err? {
        return Failed(w.error);
      }
      var first: seq<Event> := [];
      if w.value.Some? {
        Tell([w.value.value], topic, s);
        first := [Notice(w.value.value, topic, s)];
        assert Notices([w.value.value], topic, s) == first;
      }
      assert outbox == old(outbox) + first;
      var rus := RunUsersOf(g, s);
      if rus.Err? {
        assert Lifecycle.Notify(g, s, topic) == Out(first, Failed(rus.error));
        return Failed(rus.error);
      }
      var rest: seq<Event> := if rus.value.Some? then Notices(rus.value.value, topic, s) else [];
      if rus.value.Some? {
        Tell(rus.value.value, topic, s);
      }
      Associative(old(outbox), first, rest);
      assert Lifecycle.Notify(g, s, topic) == Out(first + rest, Done);
      return Done;
    }

    /** add_child_scope(s) */
    method AddChildScope(s: Scope) returns (status: Status)
      requires Inv() && Indexable(s)
      modifies this
      ensures Inv() && online == old(online)
      ensures var r := Lifecycle.AddChildScope(old(State()), s);
        State() == r.graph && outbox == old(outbox) + r.events && status == r.status
    {
      AddScopesOne(State(), s);
      AddScopes([s]);
      ghost var g1 := State();
      status := Notify(s, "add_child");
      Associative(old(outbox), [Join(s)], Lifecycle.Notify(g1, s, "add_child").events);
    }

    /** add_new_child_scope(kind, json): stamp, create, add_child_scope. */
    method AddNewChildScope(parent: Scope, kind: Kind, payload: Json, save: Json -> Json) returns (status: Status)
      requires Inv() && Indexable(NewChild(parent, kind, payload, save))
      modifies this
      ensures Inv() && online == old(online)
      ensures var r := Lifecycle.AddNewChildScope(old(State()), parent, kind, payload, save);
        State() == r.graph && outbox == old(outbox) + r.events && status == r.status
    {
      var stamped := payload[Name(parent.kind) := Pk(parent)];
      var created := GetPk(stamped, save);
      status := AddChildScope(Scope(kind, created.0));
    }

    /** add_child_webhook(kind, payload) */
    method AddChildWebhook(parent: Scope, kind: Kind, payload: Json, save: Json -> Json) returns (status: Status)
      requires Inv()
      requires "id" in payload ==> Indexable(NewChild(parent, kind, payload, save))
      modifies this
      ensures Inv() && online == old(online)
      ensures var r := Lifecycle.AddChildWebhook(old(State()), parent, kind, payload, save);
        State() == r.graph && outbox == old(outbox) + r.events && status == r.status
    {
      if "id" !in payload {
        return Failed(KeyError);
      }
      var loaded := GetScope(State(), kind, payload["id"]);
      if loaded.Ok? {
        return Done;
      }
      status := AddNewChildScope(parent, kind, payload, save);
    }

    /** The notices remove() sends before it removes the scope. */
    method RemoveNotify(s: Scope) returns (status: Status)
      requires Inv()
      modifies this
      ensures Inv() && json == old(json) && scopes == old(scopes) && online == old(online)
      ensures var n := RemoveNotices(old(State()), s);
        outbox == old(outbox) + n.events && status == n.status
    {
      var g := State();
      var w := WorldOf(g, s);
      var first: seq<Event> := [];
      if w.Err? {
        if !Catches(ParentScopeNotFound, w.error) {
          return Failed(w.error);
        }
      } else if w.value.Some? {
        Tell([w.value.value], "remove_child", s);
        first := [Notice(w.value.value, "remove_child", s)];
        assert Notices([w.value.value], "remove_child", s) == first;
      }
      assert outbox == old(outbox) + first;
      ghost var world := Out(first, Done);
      var rus := RunUsersOf(g, s);
      if rus.Err? {
        if !Catches(ParentScopeNotFound, rus.error) {
          assert RemoveNotices(g, s) == Out(first, Failed(rus.error));
          return Failed(rus.error);
        }
        assert RemoveNotices(g, s) == world;
      } else if rus.value.None? {
        assert RemoveNotices(g, s) == Out(first, Failed(TypeError));
        return Failed(TypeError);
      } else {
        Tell(rus.value.value, "remove_child", s);
        Associative(old(outbox), first, Notices(rus.value.value, "remove_child", s));
        assert RemoveNotices(g, s) == Out(first + Notices(rus.value.value, "remove_child", s), Done);
      }
      return Done;
    }

    /** remove(): the notices, then Game.remove_scopes(self). */
    method Remove(s: Scope) returns (status: Status)
      requires Inv() && Indexable(s)
      modifies this
      ensures Inv() && online == old(online)
      ensures var r := Lifecycle.Remove(old(State()), s);
        State() == r.graph && outbox == old(outbox) + r.events && status == r.status
    {
      status := RemoveNotify(s);
      if status.Failed? {
        return;
      }
      assert AllIndexable([s]);
      status := RemoveScopes([s]);
      Associative(old(outbox), RemoveNotices(old(State()), s).events, Lifecycle.RemoveScopes(old(State()), [s]).events);
    }

    /** update_pubsub(): the notices of update_child; a run also tells each
        of its worlds. */
    method UpdatePubsub(s: Scope) returns (status: Status)
      requires Inv()
      modifies this
      ensures Inv() && json == old(json) && scopes == old(scopes) && online == old(online)
      ensures var n := Lifecycle.UpdatePubsub(old(State()), s);
        outbox == old(outbox) + n.events && status == n.status
    {
      status := Notify(s, "update_child");
      if s.kind != Run || status.Failed? {
        return;
      }
      var ws := Filter(Container(State(), World), [("run", Pk(s))]);
      if ws.Err? {
        return Failed(ws.error);
      }
      Tell(ws.value, "update_child", s);
      Associative(old(outbox), Lifecycle.Notify(old(State()), s, "update_child").events, Notices(ws.value, "update_child", s));
    }

    /** update_webhook(kind, payload): the loaded object takes the payload,
        then update_pubsub. */
    method UpdateWebhook(s: Scope, payload: Json) returns (status: Status)
      requires Inv() && Pk(s) in Container(State(), s.kind).scopes
      requires Indexable(Scope(s.kind, payload)) && FieldOrNull(payload, "id") == Pk(s)
      modifies this
      ensures Inv() && online == old(online)
      ensures var r := Lifecycle.UpdateWebhook(old(State()), s, payload);
        State() == r.graph && outbox == old(outbox) + r.events && status == r.status
    {
      var m := Container(State(), s.kind);
      ReplaceKeepsShape(m, s.kind, Pk(s), payload);
      SetState(SetContainer(State(), s.kind, ReplacePayload(m, Pk(s), payload)));
      status := UpdatePubsub(Scope(s.kind, payload));
    }

    /** _unload_scope_tree(): each child group in turn, then the scope. */
    method UnloadTree(s: Scope) returns (status: Status)
      requires Inv() && Indexable(s)
      modifies this
      ensures Inv() && online == old(online)
      ensures var r := Unload(old(State()), s);
        State() == r.graph && outbox == old(outbox) + r.events && status == r.status
      decreases Height(s.kind), 3
    {
      var groups := ChildScopes(State(), s);
      if groups.Err? {
        UnloadFails(State(), s);
        return Failed(groups.error);
      }
      UnloadUnfold(State(), s);
      ghost var c := UnloadGroups(State(), groups.value, Height(s.kind));
      status := UnloadChildGroups(groups.value, Height(s.kind));
      if status.Failed? {
        return;
      }
      Associative(old(outbox), c.events, Lifecycle.RemoveScopes(c.graph, [s]).events);
      status := RemoveScopes([s]);
    }

    /** for resource_name, scope_group in scope_groups.items(): ... */
    method UnloadChildGroups(groups: seq<(Kind, seq<Scope>)>, h: nat) returns (status: Status)
      requires Inv() && Unloadable(groups, h)
      modifies this
      ensures Inv() && online == old(online)
      ensures var r := UnloadGroups(old(State()), groups, h);
        State() == r.graph && outbox == old(outbox) + r.events && status == r.status
      decreases h, 2
    {
      ghost var target := UnloadGroups(State(), groups, h);
      ghost var sent: seq<Event> := [];
      var i := 0;
      while i < |groups|
        invariant 0 <= i <= |groups| && Inv() && online == old(online)
        invariant outbox == old(outbox) + sent
        invariant Unloadable(groups[i..], h)
        invariant target == Then(Step(State(), sent, Done), UnloadGroups(State(), groups[i..], h))
      {
        UnloadGroupsLoop(target, State(), sent, groups, i, h);
        ghost var a := UnloadList(State(), groups[i].1, h);
        Associative(old(outbox), sent, a.events);
        status := UnloadMembers(groups[i].1, h);
        sent := sent + a.events;
        if status.Failed? {
          return;
        }
        i := i + 1;
      }
      return Done;
    }

    /** for scope in scope_group: await scope._unload_scope_tree() */
    method UnloadMembers(ms: seq<Scope>, h: nat) returns (status: Status)
      requires Inv() && UnloadableList(ms, h)
      modifies this
      ensures Inv() && online == old(online)
      ensures var r := UnloadList(old(State()), ms, h);
        State() == r.graph && outbox == old(outbox) + r.events && status == r.status
      decreases h, 1
    {
      ghost var sent: seq<Event> := [];
      var j := 0;
      while j < |ms|
        invariant 0 <= j <= |ms| && Inv() && online == old(online)
        invariant outbox == old(outbox) + sent
        invariant UnloadList(old(State()), ms, h) == Then(Step(State(), sent, Done), UnloadList(State(), ms[j..], h))
      {
        UnloadListStep(State(), ms, j, h);
        ghost var a := Unload(State(), ms[j]);
        ThenStep(State(), sent, a, UnloadList(a.graph, ms[j + 1..], h));
        Associative(old(outbox), sent, a.events);
        status := UnloadTree(ms[j]);
        sent := sent + a.events;
        if status.Failed? {
          return;
        }
        j := j + 1;
      }
      return Done;
    }

    /** add_or_update_runuser(payload), as corrected: the loaded branch. */
    method ReplaceStoredRunUser(ru: Scope) returns (status: Status)
      requires Inv() && Indexable(ru) && ru.kind == RunUser && Pk(ru) in Container(State(), RunUser).scopes
      modifies this
      ensures Inv() && online == old(online)
      ensures var r := ReplaceRunUser(old(State()), ru);
        State() == r.graph && outbox == old(outbox) + r.events && status == r.status
    {
      var rus := Container(State(), RunUser);
      var stored := rus.scopes[Pk(ru)];
      var rm := RemoveFrom(rus, stored);
      RemoveKeepsShape(rus, stored, RunUser);
      SetState(SetContainer(State(), RunUser, rm.manager));
      if rm.status.Failed? {
        return rm.status;
      }
      AddOneWf(rm.manager, ru);
      SetContainerTwice(old(State()), RunUser, rm.manager, AddOne(rm.manager, ru));
      Store(ru);
      return Done;
    }

    /** add_or_update_runuser(payload), as corrected: the ScopeNotFound
        branch. */
    method CreateRunUserScope(ru: Scope) returns (status: Status)
      requires Inv() && Indexable(ru) && ru.kind == RunUser
      modifies this
      ensures Inv() && online == old(online)
      ensures var r := CreateRunUser(old(State()), ru);
        State() == r.graph && outbox == old(outbox) + r.events && status == r.status
    {
      AddScopesOne(State(), ru);
      AddScopes([ru]);
      FoundScenarios(State(), Pk(ru));
      var found := Filter(Container(State(), Scenario), [("runuser", Pk(ru))]);
      if found.Err? {
        return Failed(found.error);
      }
      var scenarios := RecreateScenarios(found.value);
      assert scenarios == found.value;
      Associative(old(outbox), [Join(ru)], Joins(scenarios));
      AddScopes(scenarios);
      return Done;
    }

    /** Run.add_or_update_runuser(payload), as corrected. */
    method AddOrUpdateRunUser(payload: Json) returns (status: Status)
      requires Inv() && Indexable(Scope(RunUser, payload))
      modifies this
      ensures Inv() && online == old(online)
      ensures var r := Lifecycle.AddOrUpdateRunUser(old(State()), payload);
        State() == r.graph && outbox == old(outbox) + r.events && status == r.status
    {
      var ru := Scope(RunUser, payload);
      var loaded := GetScope(State(), RunUser, Pk(ru));
      if loaded.Ok? {
        status := ReplaceStoredRunUser(ru);
      } else {
        status := CreateRunUserScope(ru);
      }
    }

    /** Run.add_or_update_runuser(payload), as written: for an unknown
        runuser, the scenario loop raises AttributeError as soon as one
        loaded scenario names it, after the runuser was added and started. */
    method AddOrUpdateRunUserAsWritten(payload: Json) returns (status: Status)
      requires Inv() && Indexable(Scope(RunUser, payload))
      modifies this
      ensures Inv() && online == old(online)
      ensures var r := Lifecycle.AddOrUpdateRunUserAsWritten(old(State()), payload);
        State() == r.graph && outbox == old(outbox) + r.events && status == r.status
    {
      var ru := Scope(RunUser, payload);
      var loaded := GetScope(State(), RunUser, Pk(ru));
      if loaded.Ok? {
        status := ReplaceStoredRunUser(ru);
        return;
      }
      AddScopesOne(State(), ru);
      AddScopes([ru]);
      var found := Filter(Container(State(), Scenario), [("runuser", Pk(ru))]);
      if found.Err? {
        return Failed(found.error);
      }
      if found.value != [] {
        return Failed(AttributeError);
      }
      return Done;
    }

    /** Run.runuser_deleted(payload) */
    method RunUserDeleted(payload: Json) returns (status: Status)
      requires Inv()
      modifies this
      ensures Inv() && online == old(online)
      ensures var r := Lifecycle.RunUserDeleted(old(State()), payload);
        State() == r.graph && outbox == old(outbox) + r.events && status == r.status
    {
      var id := Field(payload, "id");
      if id.Err? {
        return Failed(id.error);
      }
      var ru := GetScope(State(), RunUser, id.value);
      if ru.Err? {
        return Failed(ru.error);
      }
      ContainerMembers(State(), RunUser);
      MemberPks(Container(State(), RunUser));
      status := RemoveScopes([ru.value]);
    }

    /** Run.runuser_changed(payload) and Run.runuser_created(payload). */
    method RunUserChanged(payload: Json) returns (status: Status)
      requires Inv() && ("id" in payload ==> Indexable(Scope(RunUser, payload)))
      modifies this
      ensures Inv() && online == old(online)
      ensures var r := Lifecycle.RunUserChanged(old(State()), payload);
        State() == r.graph && outbox == old(outbox) + r.events && status == r.status
    {
      if "id" !in payload {
        return Failed(KeyError);
      }
      status := AddOrUpdateRunUserAsWritten(payload);
    }

    /** connected(user): the runuser goes online and the scope publishes
        update_child about it with `online` true. */
    method Connected(s: Scope, u: User) returns (status: Status)
      modifies this
      ensures json == old(json) && scopes == old(scopes)
      ensures u.runuser.None? ==> status == Failed(AttributeError) && online == old(online) && outbox == old(outbox)
      ensures u.runuser.Some? ==>
        status == Done && online == old(online) + {Pk(u.runuser.value)} &&
        outbox == old(outbox) + [Notice(s, "update_child", Marked(u.runuser.value, true))]
    {
      if u.runuser.None? {
        return Failed(AttributeError);
      }
      var ru := u.runuser.value;
      online := online + {Pk(ru)};
      Tell([s], "update_child", Marked(ru, true));
      assert Notices([s], "update_child", Marked(ru, true)) == [Notice(s, "update_child", Marked(ru, true))];
      return Done;
    }

    /** disconnected(user): the runuser goes offline, absent or not, and the
        scope's world and run hear of it. */
    method Disconnected(s: Scope, u: User) returns (status: Status)
      requires Inv()
      modifies this
      ensures Inv() && json == old(json) && scopes == old(scopes)
      ensures u.runuser.None? ==> status == Failed(AttributeError) && online == old(online) && outbox == old(outbox)
      ensures u.runuser.Some? ==>
        var n := DisconnectNotices(old(State()), s, u.runuser.value);
        online == old(online) - {Pk(u.runuser.value)} && outbox == old(outbox) + n.events && status == n.status
    {
      if u.runuser.None? {
        return Failed(AttributeError);
      }
      var ru := u.runuser.value;
      online := online - {Pk(ru)};
      var m := Marked(ru, false);
      var g := State();
      var w := WorldOf(g, s);
      if w.Err? {
        return Failed(w.error);
      }
      var first: seq<Event> := [];
      if w.value.Some? {
        Tell([w.value.value], "update_child", m);
        first := [Notice(w.value.value, "update_child", m)];
        assert Notices([w.value.value], "update_child", m) == first;
      }
      var r := RunOf(g, s);
      if r.Err? {
        assert DisconnectNotices(g, s, ru) == Out(first, Failed(r.error));
        return Failed(r.error);
      }
      var rest: seq<Event> := [];
      if r.value.Some? {
        Tell([r.value.value], "update_child", m);
        rest := [Notice(r.value.value, "update_child", m)];
        assert Notices([r.value.value], "update_child", m) == rest;
      }
      Associative(old(outbox), first, rest);
      assert DisconnectNotices(g, s, ru) == Out(first + rest, Done);
      return Done;
    }

    /** get_active_runusers(user): the runusers get_runusers(leader) gives,
        each exported with `online` telling whether it is online; the flag is
        also written into the listed object's payload. */
    method GetActiveRunUsers(s: Scope, u: User) returns (r: Result<seq<Export>>)
      requires Inv()
      modifies this
      ensures Inv() && json == old(json) && online == old(online) && outbox == old(outbox)
      ensures Leader(u).Err? ==> r == Err(Leader(u).error) && State() == old(State())
      ensures Leader(u).Ok? && GetRunUsers(old(State()), s, Leader(u).value).Err? ==>
        r == Err(GetRunUsers(old(State()), s, Leader(u).value).error) && State() == old(State())
      ensures Leader(u).Ok? && GetRunUsers(old(State()), s, Leader(u).value).Ok? ==>
        var rus := GetRunUsers(old(State()), s, Leader(u).value).value;
        State() == MarkAll(old(State()), rus, online) && r.Ok? && |r.value| == |rus| &&
        forall i :: 0 <= i < |rus| ==> r.value[i] == ActiveExport(rus[i], online)
    {
      var leader := Leader(u);
      if leader.Err? {
        return Err(leader.error);
      }
      var found := GetRunUsers(State(), s, leader.value);
      if found.Err? {
        return Err(found.error);
      }
      var rus := found.value;
      var exports: seq<Export> := [];
      var i := 0;
      while i < |rus|
        invariant 0 <= i <= |rus| && Inv() && json == old(json) && online == old(online) && outbox == old(outbox)
        invariant MarkAll(old(State()), rus, online) == MarkAll(State(), rus[i..], online)
        invariant |exports| == i && forall j :: 0 <= j < i ==> exports[j] == ActiveExport(rus[j], online)
      {
        var ru := rus[i];
        MarkAllStep(State(), rus, i, online);
        SetState(MarkOne(State(), ru, online));
        assert Export(Pk(ru), ru.json["online" := Bool(Pk(ru) in online)], "runuser") == ActiveExport(ru, online);
        exports := exports + [Export(Pk(ru), ru.json["online" := Bool(Pk(ru) in online)], "runuser")];
        i := i + 1;
      }
      assert rus[i..] == [];
      return Ok(exports);
    }
  
    /** The start loop of Game.restore. */
    method StartScopes(ss: seq<Scope>)
      modifies this
      ensures outbox == old(outbox) + Joins(ss)
      ensures json == old(json) && scopes == old(scopes) && online == old(online)
    {
      var i := 0;
      while i < |ss|
        invariant 0 <= i <= |ss| && outbox == old(outbox) + Joins(ss[..i])
        invariant json == old(json) && scopes == old(scopes) && online == old(online)
      {
        JoinsSnoc(ss, i);
        Associative(old(outbox), Joins(ss[..i]), [Join(ss[i])]);
        outbox := outbox + [Join(ss[i])];
        i := i + 1;
      }
      assert ss[..i] == ss;
    }

    /** The containers loop of Game.restore: restore_endpoint for every
        endpoint, in order, each container set as it comes. */
    method RestoreEndpoints(fetch: Request -> Page, saved: (Kind, Json) -> Json, slug: string, ghost n: nat)
      returns (status: Status)
      requires Inv() && Finite(fetch, slug, n)
      modifies this
      ensures Inv() && (State(), status) == RestoreContainers(old(State()), Endpoints, fetch, saved, slug, n)
      ensures outbox == old(outbox) && online == old(online)
    {
      var i := 0;
      while i < |Endpoints|
        invariant 0 <= i <= |Endpoints| && Inv() && json == old(json)
        invariant outbox == old(outbox) && online == old(online)
        invariant RestoreContainers(old(State()), Endpoints, fetch, saved, slug, n)
          == RestoreContainers(State(), Endpoints[i..], fetch, saved, slug, n)
      {
        RestoreContainersStep(State(), Endpoints, i, fetch, saved, slug, n);
        var r := RestoreEndpoint(fetch, saved, Endpoints[i].0, slug, Endpoints[i].1, n);
        if r.Err? {
          return Failed(r.error);
        }
        SetState(Graph(State().game, scopes[Endpoints[i].1 := r.value]));
        i := i + 1;
      }
      return Done;
    }

    /** Game.restore(): every endpoint's container, then every restored
        scope started. */
    method Restore(fetch: Request -> Page, saved: (Kind, Json) -> Json, slug: string, ghost n: nat)
      returns (status: Status)
      requires Inv() && Finite(fetch, slug, n)
      modifies this
      ensures Inv() && State() == RestoreGame(old(State()), fetch, saved, slug, n).graph
      ensures outbox == old(outbox) + RestoreGame(old(State()), fetch, saved, slug, n).events
      ensures status == RestoreGame(old(State()), fetch, saved, slug, n).status && online == old(online)
    {
      status := RestoreEndpoints(fetch, saved, slug, n);
      if status.Failed? {
        assert outbox == old(outbox) + [];
        return;
      }
      var all := CollectMembers(State(), EndpointKinds());
      StartScopes(all);
    }

    /** The body shared by advance_phase and the intended rollback_phase:
        write the neighbour's pk into json['phase'], then take the payload
        the save answers with. */
    method MovePhase(run: Scope, delta: int, save: Json -> Json) returns (status: Status)
      requires Inv() && run.kind == Run && GetScope(State(), Run, Pk(run)) == Ok(run) && KeepsFields(save)
      modifies this
      ensures Inv() && State() == Moved(old(State()), run, delta, save).graph
      ensures status == Moved(old(State()), run, delta, save).status
      ensures outbox == old(outbox) && online == old(online)
    {
      var next := Neighbour(PhasesOf(State()), run.json, delta);
      if next.Err? {
        return Failed(next.error);
      }
      var j := run.json["phase" := Pk(next.value)];
      var g0 := State();
      SetState(Rewrite(g0, run, j));
      var saved := save(j);
      SetState(Rewrite(State(), Scope(Run, j), saved));
      RewriteTwice(g0, run, j, saved);
      return Done;
    }

    /** Run.advance_phase() */
    method AdvancePhase(run: Scope, save: Json -> Json) returns (status: Status)
      requires Inv() && run.kind == Run && GetScope(State(), Run, Pk(run)) == Ok(run) && KeepsFields(save)
      modifies this
      ensures Inv() && State() == Moved(old(State()), run, 1, save).graph
      ensures status == Moved(old(State()), run, 1, save).status
      ensures outbox == old(outbox) && online == old(online)
    {
      status := MovePhase(run, 1, save);
    }

    /** Run.rollback_phase(), as corrected: get_previous_phase awaited. */
    method RollbackPhase(run: Scope, save: Json -> Json) returns (status: Status)
      requires Inv() && run.kind == Run && GetScope(State(), Run, Pk(run)) == Ok(run) && KeepsFields(save)
      modifies this
      ensures Inv() && State() == Moved(old(State()), run, -1, save).graph
      ensures status == Moved(old(State()), run, -1, save).status
      ensures outbox == old(outbox) && online == old(online)
    {
      status := MovePhase(run, -1, save);
    }

    /** Run.rollback_phase(), as written. */
    method RollbackPhaseAsWritten(run: Scope) returns (status: Status)
      ensures status == RollbackAsWritten(State(), run).status
    {
      return Failed(AttributeError);
    }
  }
}
