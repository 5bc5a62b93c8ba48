// The scope lifecycle: adding a child and telling its world and runusers,
// removing a scope, replacing its payload from a webhook, unloading a
// subtree, and keeping a run's runusers in step with the games API.  Each
// operation is a function from the graph to the graph it leaves, the events
// it sends and how it ended; a failure keeps whatever was changed before it,
// as the source's in-place updates do.

module Lifecycle {
  import opened Exceptions
  import opened Payload
  import opened Constants
  import opened Managers
  import opened Traversing
  import opened Scopes

  /** What an operation sends: `target.publish(topic, pk, resource_name,
      json)` on the target's route (Scopes.Route), or a scope joining
      (start) or leaving (stop) the bus. */
  datatype Event =
    | Publish(target: Scope, topic: string, pk: Value, resourceName: string, data: Json)
    | Join(scope: Scope)
    | Leave(scope: Scope)

  /** The graph an operation leaves, the events it sent, in order, and how
      it ended. */
  datatype Step = Step(graph: Graph, events: seq<Event>, status: Status)

  /** Events and ending of an operation that leaves the graph alone. */
  datatype Out = Out(events: seq<Event>, status: Status)

  /** The notice `target` gets about `s`. */
  function Notice(target: Scope, topic: string, s: Scope): Event
  {
    Publish(target, topic, Pk(s), Name(s.kind), s.json)
  }

  function Notices(targets: seq<Scope>, topic: string, s: Scope): (r: seq<Event>)
    ensures |r| == |targets|
    ensures forall i :: 0 <= i < |targets| ==> r[i] == Notice(targets[i], topic, s)
  {
    if targets == [] then [] else [Notice(targets[0], topic, s)] + Notices(targets[1..], topic, s)
  }

  function Joins(ss: seq<Scope>): (r: seq<Event>)
    ensures |r| == |ss| && forall i :: 0 <= i < |ss| ==> r[i] == Join(ss[i])
  {
    if ss == [] then [] else [Join(ss[0])] + Joins(ss[1..])
  }

  // ----- the game's containers -----

  /** game.scopes[k] = m */
  function SetContainer(g: Graph, k: Kind, m: Manager): (r: Graph)
    requires Valid(g) && Wf(m) && StoresKind(m, k)
    ensures Valid(r) && r.game == g.game
    ensures Container(r, k) == m
    ensures forall j :: j != k ==> Container(r, j) == Container(g, j)
  {
    Graph(g.game, g.scopes[k := m])
  }

  /** game.scopes[s.resource_name].add(s) */
  function Put(g: Graph, s: Scope): (r: Graph)
    requires Valid(g) && Indexable(s)
    ensures Valid(r) && r.game == g.game
    ensures Container(r, s.kind) == AddOne(Container(g, s.kind), s)
    ensures forall j :: j != s.kind ==> Container(r, j) == Container(g, j)
  {
    AddOneWf(Container(g, s.kind), s);
    SetContainer(g, s.kind, AddOne(Container(g, s.kind), s))
  }

  /** The containers after Game.add_scopes(*ss). */
  function AddAll(g: Graph, ss: seq<Scope>): (r: Graph)
    requires Valid(g) && AllIndexable(ss)
    ensures Valid(r) && r.game == g.game
    decreases |ss|
  {
    if ss == [] then g else AddAll(Put(g, ss[0]), ss[1..])
  }

  /** Game.add_scopes(*ss): each scope is stored and then started. */
  function AddScopes(g: Graph, ss: seq<Scope>): (r: Step)
    requires Valid(g) && AllIndexable(ss)
  {
    Step(AddAll(g, ss), Joins(ss), Done)
  }

  /** A failed removal keeps the primary map; a successful one drops the
      slot.  Either way the container keeps its shape. */
  lemma RemoveKeepsShape(m: Manager, s: Scope, k: Kind)
    requires Wf(m) && StoresKind(m, k) && Indexable(s)
    ensures Wf(RemoveFrom(m, s).manager) && StoresKind(RemoveFrom(m, s).manager, k)
  {
    if RemoveFrom(m, s).status == Done {
      RemoveDropsSlot(m, s);
    }
  }

  /** Game.remove_scopes(*ss): each scope is stopped and then taken out of
      its container; the first removal that raises ends the loop. */
  function RemoveScopes(g: Graph, ss: seq<Scope>): (r: Step)
    requires Valid(g) && AllIndexable(ss)
    ensures Valid(r.graph) && r.graph.game == g.game
    decreases |ss|
  {
    if ss == [] then Step(g, [], Done)
    else
      var s := ss[0];
      var rm := RemoveFrom(Container(g, s.kind), s);
      RemoveKeepsShape(Container(g, s.kind), s, s.kind);
      var g1 := SetContainer(g, s.kind, rm.manager);
      if rm.status.Failed? then Step(g1, [Leave(s)], rm.status)
      else
        var rest := RemoveScopes(g1, ss[1..]);
        Step(rest.graph, [Leave(s)] + rest.events, rest.status)
  }

  // ----- adding a child -----

  /** The notices of add_child_scope and update_pubsub: the world, when
      there is one, then each runuser, when there are any. */
  function Notify(g: Graph, s: Scope, topic: string): Out
    requires Valid(g)
  {
    match WorldOf(g, s)
    case Err(e) => Out([], Failed(e))
    case Ok(w) =>
      var first := if w.Some? then [Notice(w.value, topic, s)] else [];
      match RunUsersOf(g, s)
      case Err(e) => Out(first, Failed(e))
      case Ok(rus) => Out(first + (if rus.Some? then Notices(rus.value, topic, s) else []), Done)
  }

  /** add_child_scope(s): add and start the scope, then tell its world and
      runusers. */
  function AddChildScope(g: Graph, s: Scope): (r: Step)
    requires Valid(g) && Indexable(s)
    ensures Valid(r.graph)
  {
    var g1 := Put(g, s);
    var n := Notify(g1, s, "add_child");
    Step(g1, [Join(s)] + n.events, n.status)
  }

  /** The child add_new_child_scope creates: the payload stamped with the
      parent's pk under the parent's kind, saved first when it has no id. */
  function NewChild(parent: Scope, kind: Kind, json: Json, save: Json -> Json): Scope
  {
    Scope(kind, GetPk(json[Name(parent.kind) := Pk(parent)], save).0)
  }

  /** add_new_child_scope(kind, json) */
  function AddNewChildScope(g: Graph, parent: Scope, kind: Kind, json: Json, save: Json -> Json): (r: Step)
    requires Valid(g) && Indexable(NewChild(parent, kind, json, save))
    ensures Valid(r.graph)
  {
    AddChildScope(g, NewChild(parent, kind, json, save))
  }

  /** add_child_webhook(kind, payload): nothing when the scope is loaded
      already, otherwise a new child. */
  function AddChildWebhook(g: Graph, parent: Scope, kind: Kind, payload: Json, save: Json -> Json): (r: Step)
    requires Valid(g)
    requires "id" in payload ==> Indexable(NewChild(parent, kind, payload, save))
    ensures Valid(r.graph)
  {
    match Field(payload, "id")
    case Err(e) => Step(g, [], Failed(e))
    case Ok(id) =>
      if GetScope(g, kind, id).Ok? then Step(g, [], Done)
      else AddNewChildScope(g, parent, kind, payload, save)
  }

  // ----- removing a scope -----

  /** The notices of remove: the world's, then the runusers', each part
      swallowing ParentScopeNotFound (and only that); a scope without
      runusers makes the loop over None raise TypeError. */
  function RemoveNotices(g: Graph, s: Scope): Out
    requires Valid(g)
  {
    var world: Out :=
      match WorldOf(g, s)
      case Err(e) => if Catches(ParentScopeNotFound, e) then Out([], Done) else Out([], Failed(e))
      case Ok(w) => Out(if w.Some? then [Notice(w.value, "remove_child", s)] else [], Done);
    if world.status.Failed? then world
    else
      match RunUsersOf(g, s)
      case Err(e) => if Catches(ParentScopeNotFound, e) then world else Out(world.events, Failed(e))
      case Ok(None) => Out(world.events, Failed(TypeError))
      case Ok(Some(rus)) => Out(world.events + Notices(rus, "remove_child", s), Done)
  }

  /** remove(): the notices, then Game.remove_scopes(self). */
  function Remove(g: Graph, s: Scope): (r: Step)
    requires Valid(g) && Indexable(s)
    ensures Valid(r.graph)
  {
    var n := RemoveNotices(g, s);
    if n.status.Failed? then Step(g, n.events, n.status)
    else
      var rm := RemoveScopes(g, [s]);
      Step(rm.graph, n.events + rm.events, rm.status)
  }

  // ----- replacing a payload -----

  /** A stored slot may take a payload that keeps the scope indexable and
      keeps its pk. */
  lemma ReplaceKeepsShape(m: Manager, k: Kind, pk: Value, json: Json)
    requires Wf(m) && StoresKind(m, k) && pk in m.scopes
    requires Indexable(Scope(k, json)) && FieldOrNull(json, "id") == pk
    ensures Wf(ReplacePayload(m, pk, json)) && StoresKind(ReplacePayload(m, pk, json), k)
  {
  }

  /** update_pubsub(): the notices of `update_child`; a run also tells each
      of its worlds. */
  function UpdatePubsub(g: Graph, s: Scope): Out
    requires Valid(g)
  {
    var n := Notify(g, s, "update_child");
    if s.kind != Run || n.status.Failed? then n
    else
      match Filter(Container(g, World), [("run", Pk(s))])
      case Err(e) => Out(n.events, Failed(e))
      case Ok(ws) => Out(n.events + Notices(ws, "update_child", s), Done)
  }

  /** update_webhook(kind, payload): the loaded scope object takes the new
      payload (its buckets stay where they were), then update_pubsub. */
  function UpdateWebhook(g: Graph, s: Scope, payload: Json): (r: Step)
    requires Valid(g) && Pk(s) in Container(g, s.kind).scopes
    requires Indexable(Scope(s.kind, payload)) && FieldOrNull(payload, "id") == Pk(s)
    ensures Valid(r.graph)
  {
    var m := Container(g, s.kind);
    ReplaceKeepsShape(m, s.kind, Pk(s), payload);
    var g1 := SetContainer(g, s.kind, ReplacePayload(m, Pk(s), payload));
    var n := UpdatePubsub(g1, Scope(s.kind, payload));
    Step(g1, n.events, n.status)
  }

  // ----- unloading a subtree -----

  /** Groups of children one level below height `h`, ready to unload. */
  predicate Unloadable(groups: seq<(Kind, seq<Scope>)>, h: nat)
  {
    forall i, x :: 0 <= i < |groups| && x in groups[i].1 ==> Height(x.kind) + 1 == h && Indexable(x)
  }

  /** Children one level below height `h`, ready to unload. */
  predicate UnloadableList(ms: seq<Scope>, h: nat)
  {
    forall x :: x in ms ==> Height(x.kind) + 1 == h && Indexable(x)
  }

  /** _unload_scope_tree(): each child group in turn, each child's subtree
      depth first, and then the scope itself; nothing is published. */
  function Unload(g: Graph, s: Scope): (r: Step)
    requires Valid(g) && Indexable(s)
    ensures Valid(r.graph) && r.graph.game == g.game
    decreases Height(s.kind), 2, 0
  {
    match ChildScopes(g, s)
    case Err(e) => Step(g, [], Failed(e))
    case Ok(groups) =>
      ChildGroupsIndexable(g, s);
      var c := UnloadGroups(g, groups, Height(s.kind));
      if c.status.Failed? then c
      else
        var rm := RemoveScopes(c.graph, [s]);
        Step(rm.graph, c.events + rm.events, rm.status)
  }

  function UnloadGroups(g: Graph, groups: seq<(Kind, seq<Scope>)>, h: nat): (r: Step)
    requires Valid(g)
    requires Unloadable(groups, h)
    ensures Valid(r.graph) && r.graph.game == g.game
    decreases h, 1, |groups|
  {
    if groups == [] then Step(g, [], Done)
    else
      var a := UnloadList(g, groups[0].1, h);
      if a.status.Failed? then a
      else
        var b := UnloadGroups(a.graph, groups[1..], h);
        Step(b.graph, a.events + b.events, b.status)
  }

  function UnloadList(g: Graph, ms: seq<Scope>, h: nat): (r: Step)
    requires Valid(g)
    requires UnloadableList(ms, h)
    ensures Valid(r.graph) && r.graph.game == g.game
    decreases h, 0, |ms|
  {
    if ms == [] then Step(g, [], Done)
    else
      var a := Unload(g, ms[0]);
      if a.status.Failed? then a
      else
        var b := UnloadList(a.graph, ms[1..], h);
        Step(b.graph, a.events + b.events, b.status)
  }

  lemma ChildGroupsIndexable(g: Graph, s: Scope)
    requires Valid(g) && ChildScopes(g, s).Ok?
    ensures Unloadable(ChildScopes(g, s).value, Height(s.kind))
  {
    ChildScopesIndexable(g, s);
    ChildGroupHeights(g, s);
  }

  // ----- runusers from the games API -----

  /** Run.add_or_update_runuser(payload), as corrected: a loaded runuser is
      removed, takes the payload and is added again; an unknown one is
      created and started, and the loaded scenarios naming it are created
      again from their payloads and started. */
  function AddOrUpdateRunUser(g: Graph, payload: Json): (r: Step)
    requires Valid(g) && Indexable(Scope(RunUser, payload))
    ensures Valid(r.graph)
  {
    var ru := Scope(RunUser, payload);
    if Pk(ru) in Container(g, RunUser).scopes then ReplaceRunUser(g, ru) else CreateRunUser(g, ru)
  }

  /** The loaded-runuser branch: remove the stored object, give it the new
      payload, add it again. */
  function ReplaceRunUser(g: Graph, ru: Scope): (r: Step)
    requires Valid(g) && Indexable(ru) && ru.kind == RunUser && Pk(ru) in Container(g, RunUser).scopes
    ensures Valid(r.graph)
  {
    var rus := Container(g, RunUser);
    var rm := RemoveFrom(rus, rus.scopes[Pk(ru)]);
    RemoveKeepsShape(rus, rus.scopes[Pk(ru)], RunUser);
    if rm.status.Failed? then Step(SetContainer(g, RunUser, rm.manager), [], rm.status)
    else
      AddOneWf(rm.manager, ru);
      Step(SetContainer(g, RunUser, AddOne(rm.manager, ru)), [], Done)
  }

  /** The unknown-runuser branch (ScopeNotFound): create, add and start it,
      then re-create and start the loaded scenarios that name it. */
  function CreateRunUser(g: Graph, ru: Scope): (r: Step)
    requires Valid(g) && Indexable(ru) && ru.kind == RunUser
    ensures Valid(r.graph)
  {
    var g1 := Put(g, ru);
    FilterWithin(Container(g1, Scenario), [("runuser", Pk(ru))]);
    ContainerMembers(g1, Scenario);
    match Filter(Container(g1, Scenario), [("runuser", Pk(ru))])
    case Err(e) => Step(g1, [Join(ru)], Failed(e))
    case Ok(found) => Step(AddAll(g1, found), [Join(ru)] + Joins(found), Done)
  }

  /** The same, as the source writes it: the scenario loop reads `.payload`
      of a scope object, which has no such attribute. */
  function AddOrUpdateRunUserAsWritten(g: Graph, payload: Json): (r: Step)
    requires Valid(g) && Indexable(Scope(RunUser, payload))
    ensures Valid(r.graph)
  {
    var ru := Scope(RunUser, payload);
    var rus := Container(g, RunUser);
    if Pk(ru) in rus.scopes then AddOrUpdateRunUser(g, payload)
    else
      var g1 := Put(g, ru);
      match Filter(Container(g1, Scenario), [("runuser", Pk(ru))])
      case Err(e) => Step(g1, [Join(ru)], Failed(e))
      case Ok(found) =>
        if found == [] then Step(g1, [Join(ru)], Done)
        else Step(g1, [Join(ru)], Failed(AttributeError))
  }

  /** Run.runuser_deleted(payload): the runuser leaves and is removed, with
      no notice to anyone. */
  function RunUserDeleted(g: Graph, payload: Json): (r: Step)
    requires Valid(g)
    ensures Valid(r.graph)
  {
    match Field(payload, "id")
    case Err(e) => Step(g, [], Failed(e))
    case Ok(id) =>
      match GetScope(g, RunUser, id)
      case Err(e) => Step(g, [], Failed(e))
      case Ok(ru) =>
        ContainerMembers(g, RunUser);
        MemberPks(Container(g, RunUser));
        RemoveScopes(g, [ru])
  }

  /** Run.runuser_changed and Run.runuser_created: the id is read (KeyError
      when missing), then add_or_update_runuser as the source writes it. */
  function RunUserChanged(g: Graph, payload: Json): (r: Step)
    requires Valid(g) && ("id" in payload ==> Indexable(Scope(RunUser, payload)))
    ensures Valid(r.graph)
  {
    if "id" !in payload then Step(g, [], Failed(KeyError))
    else AddOrUpdateRunUserAsWritten(g, payload)
  }

  // ----- properties -----

  /** Every event publishes `topic` about `s`. */
  predicate Tells(evs: seq<Event>, topic: string, s: Scope)
  {
    forall i :: 0 <= i < |evs| ==>
      evs[i].Publish? && evs[i].topic == topic && evs[i].pk == Pk(s) &&
      evs[i].resourceName == Name(s.kind) && evs[i].data == s.json
  }

  /** Every event is a scope leaving the bus: nothing is published. */
  predicate OnlyLeaves(evs: seq<Event>)
  {
    forall i :: 0 <= i < |evs| ==> evs[i].Leave?
  }

  /** No container of `b` holds a pk that the same container of `a` lacks. */
  ghost predicate Shrinks(a: Graph, b: Graph)
    requires Valid(a) && Valid(b)
  {
    forall k :: Container(b, k).scopes.Keys <= Container(a, k).scopes.Keys
  }

  /** The notices of add_child and update_child go to the world first, when
      there is one, then to every runuser, each about `s`; they are
      complete exactly when both lookups succeed. */
  lemma NotifyTells(g: Graph, s: Scope, topic: string)
    requires Valid(g)
    ensures Tells(Notify(g, s, topic).events, topic, s)
    ensures Notify(g, s, topic).status == Done <==> WorldOf(g, s).Ok? && RunUsersOf(g, s).Ok?
    ensures Notify(g, s, topic).status == Done ==>
      |Notify(g, s, topic).events| ==
        (if WorldOf(g, s).value.Some? then 1 else 0) +
        (if RunUsersOf(g, s).value.Some? then |RunUsersOf(g, s).value.value| else 0)
    ensures WorldOf(g, s).Ok? && WorldOf(g, s).value.Some? ==>
      Notify(g, s, topic).events[0].target == WorldOf(g, s).value.value
  {
  }

  /** The child created from a payload with an id keeps that id and the
      payload, stamped with the parent's pk under the parent's kind. */
  lemma NewChildStamped(parent: Scope, kind: Kind, payload: Json, save: Json -> Json)
    requires "id" in payload
    ensures NewChild(parent, kind, payload, save).kind == kind
    ensures NewChild(parent, kind, payload, save).json == payload[Name(parent.kind) := Pk(parent)]
    ensures Pk(NewChild(parent, kind, payload, save)) == payload["id"]
  {
    assert Name(parent.kind) != "id" by {
      NamesIdentifyKinds(parent.kind, "id");
    }
  }

  /** add_child_webhook: a payload without an id raises KeyError and changes
      nothing; a loaded (kind, id) changes nothing; otherwise the stamped
      child takes the slot of its id in its kind's container, no other
      container changes, and the child is started before its world and
      runusers hear `add_child`. */
  lemma AddChildWebhookEffect(g: Graph, parent: Scope, kind: Kind, payload: Json, save: Json -> Json)
    requires Valid(g)
    requires "id" in payload ==> Indexable(NewChild(parent, kind, payload, save))
    ensures "id" !in payload ==> AddChildWebhook(g, parent, kind, payload, save) == Step(g, [], Failed(KeyError))
    ensures "id" in payload && payload["id"] in Container(g, kind).scopes ==>
      AddChildWebhook(g, parent, kind, payload, save) == Step(g, [], Done)
    ensures "id" in payload && payload["id"] !in Container(g, kind).scopes ==>
      var r := AddChildWebhook(g, parent, kind, payload, save);
      var c := NewChild(parent, kind, payload, save);
      c.json == payload[Name(parent.kind) := Pk(parent)] &&
      Container(r.graph, kind).scopes == Container(g, kind).scopes[payload["id"] := c] &&
      Members(Container(r.graph, kind)) == Members(Container(g, kind)) + [c] &&
      (forall j :: j != kind ==> Container(r.graph, j) == Container(g, j)) &&
      |r.events| >= 1 && r.events[0] == Join(c) && Tells(r.events[1..], "add_child", c)
  {
    if "id" in payload {
      var c := NewChild(parent, kind, payload, save);
      NewChildStamped(parent, kind, payload, save);
      if payload["id"] !in Container(g, kind).scopes {
        AddOverwritesInPlace(Container(g, kind), c);
        NotifyTells(Put(g, c), c, "add_child");
        var r := AddChildWebhook(g, parent, kind, payload, save);
        assert r.events[1..] == Notify(Put(g, c), c, "add_child").events;
      }
    }
  }

  /** add_child_webhook is idempotent: whatever the first call did, the
      second finds the child loaded and changes nothing. */
  lemma AddChildWebhookIdempotent(g: Graph, parent: Scope, kind: Kind, payload: Json, save: Json -> Json)
    requires Valid(g) && "id" in payload
    requires Indexable(NewChild(parent, kind, payload, save))
    ensures var g1 := AddChildWebhook(g, parent, kind, payload, save).graph;
      AddChildWebhook(g1, parent, kind, payload, save) == Step(g1, [], Done)
  {
    AddChildWebhookEffect(g, parent, kind, payload, save);
  }

  /** Replacing one container by one with fewer pks shrinks the graph. */
  lemma SetContainerShrinks(g: Graph, k: Kind, m: Manager)
    requires Valid(g) && Wf(m) && StoresKind(m, k)
    requires m.scopes.Keys <= Container(g, k).scopes.Keys
    ensures Shrinks(g, SetContainer(g, k, m))
  {
    var g1 := SetContainer(g, k, m);
    forall j ensures Container(g1, j).scopes.Keys <= Container(g, j).scopes.Keys {
      if j != k {
        assert Container(g1, j) == Container(g, j);
      }
    }
  }

  lemma ShrinksTransitive(a: Graph, b: Graph, c: Graph)
    requires Valid(a) && Valid(b) && Valid(c) && Shrinks(a, b) && Shrinks(b, c)
    ensures Shrinks(a, c)
  {
    forall k ensures Container(c, k).scopes.Keys <= Container(a, k).scopes.Keys {
      assert Container(c, k).scopes.Keys <= Container(b, k).scopes.Keys;
      assert Container(b, k).scopes.Keys <= Container(a, k).scopes.Keys;
    }
  }

  /** remove_scopes of one scope: it leaves, and its container is the
      removal's result. */
  lemma RemoveScopesOne(g: Graph, s: Scope)
    requires Valid(g) && Indexable(s)
    ensures var r := RemoveScopes(g, [s]);
      var rm := RemoveFrom(Container(g, s.kind), s);
      r.events == [Leave(s)] && r.status == rm.status &&
      Container(r.graph, s.kind) == rm.manager &&
      (forall j :: j != s.kind ==> Container(r.graph, j) == Container(g, j)) &&
      (rm.status == Done ==> rm.manager.scopes == Container(g, s.kind).scopes - {Pk(s)} && Pk(s) in Container(g, s.kind).scopes)
  {
    var rm := RemoveFrom(Container(g, s.kind), s);
    RemoveKeepsShape(Container(g, s.kind), s, s.kind);
    var g1 := SetContainer(g, s.kind, rm.manager);
    if rm.status == Done {
      RemoveDropsSlot(Container(g, s.kind), s);
      assert RemoveScopes(g1, []) == Step(g1, [], Done);
    }
  }

  /** remove_scopes: only leave events, one per scope removed, in order; no
      container gains a pk; when every removal succeeds each scope's pk has
      left its container. */
  lemma {:induction false} RemoveScopesEffect(g: Graph, ss: seq<Scope>)
    requires Valid(g) && AllIndexable(ss)
    ensures OnlyLeaves(RemoveScopes(g, ss).events)
    ensures Shrinks(g, RemoveScopes(g, ss).graph)
    ensures RemoveScopes(g, ss).status == Done ==>
      RemoveScopes(g, ss).events == Leaves(ss) &&
      forall x :: x in ss ==> Pk(x) !in Container(RemoveScopes(g, ss).graph, x.kind).scopes
    decreases |ss|
  {
    if ss != [] {
      var x := ss[0];
      var m := Container(g, x.kind);
      var rm := RemoveFrom(m, x);
      RemoveKeepsShape(m, x, x.kind);
      var g1 := SetContainer(g, x.kind, rm.manager);
      assert rm.manager.scopes.Keys <= m.scopes.Keys;
      SetContainerShrinks(g, x.kind, rm.manager);
      if rm.status == Done {
        RemoveDropsSlot(m, x);
        RemoveScopesEffect(g1, ss[1..]);
        var rest := RemoveScopes(g1, ss[1..]);
        ShrinksTransitive(g, g1, rest.graph);
        if rest.status == Done {
          assert Pk(x) !in Container(g1, x.kind).scopes;
          assert Pk(x) !in Container(rest.graph, x.kind).scopes;
          assert Leaves(ss) == [Leave(x)] + Leaves(ss[1..]);
        }
      }
    }
  }

  /** One leave event per scope. */
  function Leaves(ss: seq<Scope>): (r: seq<Event>)
    ensures |r| == |ss| && forall i :: 0 <= i < |ss| ==> r[i] == Leave(ss[i])
  {
    if ss == [] then [] else [Leave(ss[0])] + Leaves(ss[1..])
  }

  /** remove of a phase or a role: there is no world, and iterating the
      missing runusers raises TypeError before anything is removed. */
  lemma RemovePhaseOrRole(g: Graph, s: Scope)
    requires Valid(g) && Indexable(s) && s.kind in {Phase, Role}
    ensures Remove(g, s) == Step(g, [], Failed(TypeError))
  {
  }

  /** remove: the world and the runusers hear `remove_child` about the scope
      before it leaves; a failure in the notices removes nothing; a removal
      that completes has taken exactly the scope's slot out of its
      container and changed no other container. */
  lemma RemoveEffect(g: Graph, s: Scope)
    requires Valid(g) && Indexable(s)
    ensures RemoveNotices(g, s).status.Failed? ==> Remove(g, s).graph == g
    ensures Remove(g, s).status == Done ==>
      var r := Remove(g, s);
      |r.events| >= 1 && r.events[|r.events| - 1] == Leave(s) &&
      Tells(r.events[..|r.events| - 1], "remove_child", s) &&
      Pk(s) in Container(g, s.kind).scopes &&
      Container(r.graph, s.kind).scopes == Container(g, s.kind).scopes - {Pk(s)} &&
      forall j :: j != s.kind ==> Container(r.graph, j) == Container(g, j)
  {
    var n := RemoveNotices(g, s);
    if n.status == Done {
      RemoveNoticesTell(g, s);
      RemoveScopesOne(g, s);
      var rm := RemoveScopes(g, [s]);
      var r := Remove(g, s);
      assert r == Step(rm.graph, n.events + [Leave(s)], rm.status);
      assert r.events[..|r.events| - 1] == n.events;
    }
  }

  /** The notices of remove are all `remove_child` about the scope. */
  lemma RemoveNoticesTell(g: Graph, s: Scope)
    requires Valid(g)
    ensures Tells(RemoveNotices(g, s).events, "remove_child", s)
  {
    var w := WorldOf(g, s);
    var first: seq<Event> := if w.Ok? && w.value.Some? then [Notice(w.value.value, "remove_child", s)] else [];
    assert Tells(first, "remove_child", s);
    match RunUsersOf(g, s)
    case Ok(Some(rus)) =>
      TellsAppend(first, Notices(rus, "remove_child", s), "remove_child", s);
    case _ =>
  }

  lemma TellsAppend(a: seq<Event>, b: seq<Event>, topic: string, s: Scope)
    requires Tells(a, topic, s) && Tells(b, topic, s)
    ensures Tells(a + b, topic, s)
  {
    forall i | 0 <= i < |a + b| ensures (a + b)[i] == if i < |a| then a[i] else b[i - |a|] {
    }
  }

  /** With consistent indexes, removing a loaded scope whose notices go
      through succeeds and leaves the indexes consistent. */
  lemma RemoveLoaded(g: Graph, s: Scope)
    requires Valid(g) && Consistent(g) && Indexable(s)
    requires Pk(s) in Container(g, s.kind).scopes && SameIndexValues(Container(g, s.kind).scopes[Pk(s)], s)
    requires RemoveNotices(g, s).status == Done
    ensures Remove(g, s).status == Done && Consistent(Remove(g, s).graph)
  {
    ContainerConsistent(g, s.kind);
    RemoveKeepsConsistent(Container(g, s.kind), s);
    RemoveScopesOne(g, s);
    var g1 := Remove(g, s).graph;
    forall k | k in g1.scopes ensures IndexConsistent(g1.scopes[k]) {
      assert g1.scopes[k] == Container(g1, k);
      if k != s.kind {
        ContainerConsistent(g, k);
      }
    }
  }

  /** update_webhook: the loaded slot takes the payload while the order and
      every index bucket stay as they were (no re-indexing), no other
      container changes, and every event tells `update_child` about the
      new payload. */
  lemma UpdateWebhookEffect(g: Graph, s: Scope, payload: Json)
    requires Valid(g) && Pk(s) in Container(g, s.kind).scopes
    requires Indexable(Scope(s.kind, payload)) && FieldOrNull(payload, "id") == Pk(s)
    ensures var r := UpdateWebhook(g, s, payload);
      var m := Container(g, s.kind);
      Container(r.graph, s.kind).order == m.order &&
      Container(r.graph, s.kind).indexes == m.indexes &&
      Container(r.graph, s.kind).scopes == m.scopes[Pk(s) := Scope(s.kind, payload)] &&
      (forall j :: j != s.kind ==> Container(r.graph, j) == Container(g, j)) &&
      Tells(r.events, "update_child", Scope(s.kind, payload))
  {
    var m := Container(g, s.kind);
    ReplaceKeepsShape(m, s.kind, Pk(s), payload);
    var g1 := SetContainer(g, s.kind, ReplacePayload(m, Pk(s), payload));
    UpdatePubsubTells(g1, Scope(s.kind, payload));
  }

  /** update_pubsub tells only `update_child`; a scope other than a run
      sends just its notices, and a run's worlds hear it after the world and
      runusers of the notices, unless those fail first. */
  lemma UpdatePubsubTells(g: Graph, s: Scope)
    requires Valid(g)
    ensures Tells(UpdatePubsub(g, s).events, "update_child", s)
    ensures s.kind != Run || Notify(g, s, "update_child").status.Failed? ==>
      UpdatePubsub(g, s) == Notify(g, s, "update_child")
    ensures s.kind == Run && Notify(g, s, "update_child").status == Done ==>
      var worlds := Filter(Container(g, World), [("run", Pk(s))]);
      (worlds.Ok? ==>
         UpdatePubsub(g, s) == Out(Notify(g, s, "update_child").events + Notices(worlds.value, "update_child", s), Done)) &&
      (worlds.Err? ==> UpdatePubsub(g, s) == Out(Notify(g, s, "update_child").events, Failed(worlds.error)))
  {
    NotifyTells(g, s, "update_child");
    var n := Notify(g, s, "update_child");
    if s.kind != Run || n.status.Failed? {
      assert UpdatePubsub(g, s) == n;
    } else {
      var f := Filter(Container(g, World), [("run", Pk(s))]);
      if f.Ok? {
        assert UpdatePubsub(g, s).events == n.events + Notices(f.value, "update_child", s);
        TellsAppend(n.events, Notices(f.value, "update_child", s), "update_child", s);
      } else {
        assert UpdatePubsub(g, s).events == n.events;
      }
    }
  }

  /** _unload_scope_tree publishes nothing (it only stops scopes), never
      adds a pk, and when it completes the scope is gone from its
      container. */
  lemma {:induction false} UnloadEffect(g: Graph, s: Scope)
    requires Valid(g) && Indexable(s)
    ensures OnlyLeaves(Unload(g, s).events) && Shrinks(g, Unload(g, s).graph)
    ensures Unload(g, s).status == Done ==> Pk(s) !in Container(Unload(g, s).graph, s.kind).scopes
    decreases Height(s.kind), 2, 0
  {
    match ChildScopes(g, s)
    case Err(e) =>
    case Ok(groups) =>
      ChildGroupsIndexable(g, s);
      UnloadGroupsEffect(g, groups, Height(s.kind));
      var c := UnloadGroups(g, groups, Height(s.kind));
      if c.status == Done {
        RemoveScopesEffect(c.graph, [s]);
        var rm := RemoveScopes(c.graph, [s]);
        ShrinksTransitive(g, c.graph, rm.graph);
        OnlyLeavesAppend(c.events, rm.events);
      }
  }

  /** The same for the child groups: when all complete, every child in
      them is gone. */
  lemma {:induction false} UnloadGroupsEffect(g: Graph, groups: seq<(Kind, seq<Scope>)>, h: nat)
    requires Valid(g)
    requires Unloadable(groups, h)
    ensures OnlyLeaves(UnloadGroups(g, groups, h).events) && Shrinks(g, UnloadGroups(g, groups, h).graph)
    ensures UnloadGroups(g, groups, h).status == Done ==>
      forall i, x :: 0 <= i < |groups| && x in groups[i].1 ==>
        Pk(x) !in Container(UnloadGroups(g, groups, h).graph, x.kind).scopes
    decreases h, 1, |groups|
  {
    if groups != [] {
      UnloadListEffect(g, groups[0].1, h);
      var a := UnloadList(g, groups[0].1, h);
      if a.status == Done {
        UnloadGroupsEffect(a.graph, groups[1..], h);
        var b := UnloadGroups(a.graph, groups[1..], h);
        ShrinksTransitive(g, a.graph, b.graph);
        OnlyLeavesAppend(a.events, b.events);
        if b.status == Done {
          forall i, x | 0 <= i < |groups| && x in groups[i].1
            ensures Pk(x) !in Container(b.graph, x.kind).scopes
          {
            if i > 0 {
              assert x in groups[1..][i - 1].1;
            } else {
              assert Pk(x) !in Container(a.graph, x.kind).scopes;
            }
          }
        }
      }
    }
  }

  lemma {:induction false} UnloadListEffect(g: Graph, ms: seq<Scope>, h: nat)
    requires Valid(g)
    requires UnloadableList(ms, h)
    ensures OnlyLeaves(UnloadList(g, ms, h).events) && Shrinks(g, UnloadList(g, ms, h).graph)
    ensures UnloadList(g, ms, h).status == Done ==>
      forall x :: x in ms ==> Pk(x) !in Container(UnloadList(g, ms, h).graph, x.kind).scopes
    decreases h, 0, |ms|
  {
    if ms != [] {
      UnloadEffect(g, ms[0]);
      var a := Unload(g, ms[0]);
      if a.status == Done {
        UnloadListEffect(a.graph, ms[1..], h);
        var b := UnloadList(a.graph, ms[1..], h);
        ShrinksTransitive(g, a.graph, b.graph);
        OnlyLeavesAppend(a.events, b.events);
        if b.status == Done {
          forall x | x in ms ensures Pk(x) !in Container(b.graph, x.kind).scopes {
            if x !in ms[1..] {
              assert x == ms[0];
            }
          }
        }
      }
    }
  }

  lemma OnlyLeavesAppend(a: seq<Event>, b: seq<Event>)
    requires OnlyLeaves(a) && OnlyLeaves(b)
    ensures OnlyLeaves(a + b)
  {
    forall i | 0 <= i < |a + b| ensures (a + b)[i] == if i < |a| then a[i] else b[i - |a|] {
    }
  }

  /** Replacing a container by a consistent one keeps the graph consistent. */
  lemma SetContainerConsistent(g: Graph, k: Kind, m: Manager)
    requires Valid(g) && Consistent(g) && Wf(m) && StoresKind(m, k) && IndexConsistent(m)
    ensures Consistent(SetContainer(g, k, m))
  {
  }

  /** runuser_deleted: a payload without an id raises KeyError and an
      unloaded runuser ScopeNotFound, neither changing anything; nothing is
      ever published; when it completes the runuser is gone and no other
      container changed. */
  lemma RunUserDeletedEffect(g: Graph, payload: Json)
    requires Valid(g)
    ensures "id" !in payload ==> RunUserDeleted(g, payload) == Step(g, [], Failed(KeyError))
    ensures "id" in payload && payload["id"] !in Container(g, RunUser).scopes ==>
      RunUserDeleted(g, payload) == Step(g, [], Failed(ScopeNotFound))
    ensures OnlyLeaves(RunUserDeleted(g, payload).events)
    ensures RunUserDeleted(g, payload).status == Done ==>
      var r := RunUserDeleted(g, payload);
      Container(r.graph, RunUser).scopes == Container(g, RunUser).scopes - {payload["id"]} &&
      forall j :: j != RunUser ==> Container(r.graph, j) == Container(g, j)
  {
    if "id" in payload && payload["id"] in Container(g, RunUser).scopes {
      var ru := Container(g, RunUser).scopes[payload["id"]];
      RemoveScopesOne(g, ru);
    }
  }

  /** add_or_update_runuser of a loaded runuser: it is removed and added
      again with the new payload, so its `run` and `world` buckets follow
      the new values; nothing is sent and no other container changes. */
  lemma AddOrUpdateExisting(g: Graph, payload: Json)
    requires Valid(g) && Consistent(g) && Indexable(Scope(RunUser, payload))
    requires Pk(Scope(RunUser, payload)) in Container(g, RunUser).scopes
    ensures var r := AddOrUpdateRunUser(g, payload);
      var ru := Scope(RunUser, payload);
      r.status == Done && r.events == [] && Consistent(r.graph) &&
      Container(r.graph, RunUser).scopes == Container(g, RunUser).scopes[Pk(ru) := ru] &&
      forall j :: j != RunUser ==> Container(r.graph, j) == Container(g, j)
  {
    var ru := Scope(RunUser, payload);
    ReplaceRunUserEffect(g, ru);
  }

  lemma ReplaceRunUserEffect(g: Graph, ru: Scope)
    requires Valid(g) && Consistent(g) && Indexable(ru) && ru.kind == RunUser
    requires Pk(ru) in Container(g, RunUser).scopes
    ensures var r := ReplaceRunUser(g, ru);
      r.status == Done && r.events == [] && Consistent(r.graph) &&
      Container(r.graph, RunUser).scopes == Container(g, RunUser).scopes[Pk(ru) := ru] &&
      forall j :: j != RunUser ==> Container(r.graph, j) == Container(g, j)
  {
    var rus := Container(g, RunUser);
    ContainerConsistent(g, RunUser);
    ReAddWithPayload(rus, ru);
    var m := AddOne(RemoveFrom(rus, rus.scopes[Pk(ru)]).manager, ru);
    SetContainerConsistent(g, RunUser, m);
  }

  /** Removing a stored scope and adding one with the same pk and kind in
      its place keeps a consistent container consistent and replaces the
      slot. */
  lemma ReAddWithPayload(m: Manager, s: Scope)
    requires Wf(m) && IndexConsistent(m) && StoresKind(m, s.kind) && Indexable(s) && Pk(s) in m.scopes
    ensures var rm := RemoveFrom(m, m.scopes[Pk(s)]);
      rm.status == Done && Wf(AddOne(rm.manager, s)) && IndexConsistent(AddOne(rm.manager, s)) &&
      StoresKind(AddOne(rm.manager, s), s.kind) && AddOne(rm.manager, s).scopes == m.scopes[Pk(s) := s]
  {
    var pk := Pk(s);
    var old_ := m.scopes[pk];
    RemoveKeepsConsistent(m, old_);
    var rm := RemoveFrom(m, old_);
    AddKeepsConsistent(rm.manager, s);
    RemoveThenSet(m.scopes, pk, s);
  }

  lemma RemoveThenSet(m: map<Value, Scope>, k: Value, v: Scope)
    ensures (m - {k})[k := v] == m[k := v]
  {
  }

  /** Re-adding scopes that are loaded as they are changes nothing. */
  lemma {:induction false} AddAllLoaded(g: Graph, ss: seq<Scope>)
    requires Valid(g) && Consistent(g) && AllIndexable(ss)
    requires forall x :: x in ss ==> x in Members(Container(g, x.kind))
    ensures AddAll(g, ss) == g
    decreases |ss|
  {
    if ss != [] {
      PutLoaded(g, ss[0]);
      AddAllLoaded(g, ss[1..]);
    }
  }

  lemma PutLoaded(g: Graph, x: Scope)
    requires Valid(g) && Consistent(g) && Indexable(x) && x in Members(Container(g, x.kind))
    ensures Put(g, x) == g
  {
    var m := Container(g, x.kind);
    MemberPks(m);
    ContainerConsistent(g, x.kind);
    ReAddIsNoop(m, x);
    assert x.kind in g.scopes;
    assert g.scopes[x.kind := m] == g.scopes;
  }

  /** add_or_update_runuser of an unknown runuser, as corrected: it is
      added and started, and the scenarios re-created from the loaded ones
      naming it -- exactly the loaded scenarios whose `runuser` is its pk --
      are started again; re-adding them leaves the containers as adding the
      runuser alone would. */
  lemma AddOrUpdateNew(g: Graph, payload: Json)
    requires Valid(g) && Consistent(g) && Indexable(Scope(RunUser, payload))
    requires Pk(Scope(RunUser, payload)) !in Container(g, RunUser).scopes
    ensures var ru := Scope(RunUser, payload);
      var f := Filter(Container(g, Scenario), [("runuser", Pk(ru))]);
      f.Ok? &&
      (forall x :: x in f.value <==>
        x in Members(Container(g, Scenario)) && "runuser" in x.json && x.json["runuser"] == Pk(ru)) &&
      AddOrUpdateRunUser(g, payload) == Step(Put(g, ru), [Join(ru)] + Joins(f.value), Done) &&
      Consistent(Put(g, ru))
  {
    var ru := Scope(RunUser, payload);
    CreateRunUserEffect(g, ru);
  }

  lemma CreateRunUserEffect(g: Graph, ru: Scope)
    requires Valid(g) && Consistent(g) && Indexable(ru) && ru.kind == RunUser
    requires Pk(ru) !in Container(g, RunUser).scopes
    ensures var f := Filter(Container(g, Scenario), [("runuser", Pk(ru))]);
      f.Ok? &&
      (forall x :: x in f.value <==>
        x in Members(Container(g, Scenario)) && "runuser" in x.json && x.json["runuser"] == Pk(ru)) &&
      CreateRunUser(g, ru) == Step(Put(g, ru), [Join(ru)] + Joins(f.value), Done) &&
      Consistent(Put(g, ru))
  {
    var g1 := Put(g, ru);
    var sc := Container(g, Scenario);
    assert Container(g1, Scenario) == sc;
    ContainerConsistent(g, Scenario);
    FilterByIndex(sc, "runuser", Pk(ru));
    var found := Filter(sc, [("runuser", Pk(ru))]).value;
    ContainerConsistent(g, RunUser);
    AddKeepsConsistent(Container(g, RunUser), ru);
    SetContainerConsistent(g, RunUser, AddOne(Container(g, RunUser), ru));
    ContainerMembers(g, Scenario);
    AddAllLoaded(g1, found);
  }

  /** add_or_update_runuser as written fails with AttributeError on an
      unknown runuser as soon as one loaded scenario names it, after the
      runuser has been added and started; the corrected version completes. */
  lemma AsWrittenFailsOnScenarios(g: Graph, payload: Json)
    requires Valid(g) && Indexable(Scope(RunUser, payload))
    requires Pk(Scope(RunUser, payload)) !in Container(g, RunUser).scopes
    requires Filter(Container(g, Scenario), [("runuser", Pk(Scope(RunUser, payload)))]).Ok?
    requires Filter(Container(g, Scenario), [("runuser", Pk(Scope(RunUser, payload)))]).value != []
    ensures AddOrUpdateRunUserAsWritten(g, payload) ==
      Step(Put(g, Scope(RunUser, payload)), [Join(Scope(RunUser, payload))], Failed(AttributeError))
    ensures AddOrUpdateRunUser(g, payload).status == Done
    ensures RunUserChanged(g, payload) == AddOrUpdateRunUserAsWritten(g, payload)
  {
    assert Container(Put(g, Scope(RunUser, payload)), Scenario) == Container(g, Scenario);
  }
}
