// The webhooks the games API posts: the registry of handlers per event, the
// dispatch of an event to its handlers, and the forwarding of an event to
// the loaded scopes of a game (create, delete or change a child scope, and
// the special cases of users, runusers and the game itself).
//
// Handlers are named by strings; calling one is recorded as a `Call` and
// its effect is not part of this model.  The runusers the games API lists
// for a user event are a parameter, as is the save a new child may need.

module Webhooks {
  import opened Exceptions
  import opened Payload
  import opened Constants
  import opened Strings
  import opened Managers
  import opened Traversing
  import opened Lifecycle
  import opened Games
  import Registries

  // ----- the registry -----

  /** The handlers of a key in a defaultdict(list): none when absent. */
  function HandlersOf(t: map<string, seq<string>>, key: string): seq<string>
  {
    if key in t then t[key] else []
  }

  /** WebhookRegistry.register(func, key): appends, never refuses. */
  function Appended(t: map<string, seq<string>>, key: string, func: string): (r: map<string, seq<string>>)
  {
    t[key := HandlersOf(t, key) + [func]]
  }

  /** Registering keeps the earlier handlers of the key, adds the new one
      last, and leaves every other key alone; so unlike Registry.register, a
      key registered twice keeps both handlers, in order. */
  lemma AppendedMeaning(t: map<string, seq<string>>, key: string, func: string, func2: string)
    ensures HandlersOf(Appended(t, key, func), key) == HandlersOf(t, key) + [func]
    ensures forall k :: k != key ==> HandlersOf(Appended(t, key, func), k) == HandlersOf(t, k)
    ensures HandlersOf(Appended(Appended(t, key, func), key, func2), key) == HandlersOf(t, key) + [func, func2]
  {
  }

  /** One handler called with the payload as keyword arguments. */
  datatype Call = Call(func: string, kwargs: Json)

  /** The calls of dispatch: every handler, in registration order, with the
      payload. */
  function Calls(hs: seq<string>, payload: Json): (r: seq<Call>)
    decreases |hs|
  {
    if hs == [] then [] else [Call(hs[0], payload)] + Calls(hs[1..], payload)
  }

  /** One call per handler, each with the same payload. */
  lemma {:induction false} CallsMeaning(hs: seq<string>, payload: Json)
    ensures |Calls(hs, payload)| == |hs|
    ensures forall i :: 0 <= i < |hs| ==> Calls(hs, payload)[i] == Call(hs[i], payload)
    decreases |hs|
  {
    if hs != [] {
      CallsMeaning(hs[1..], payload);
    }
  }

  lemma {:induction false} CallsSnoc(hs: seq<string>, f: string, payload: Json)
    ensures Calls(hs + [f], payload) == Calls(hs, payload) + [Call(f, payload)]
    decreases |hs|
  {
    if hs == [] {
      assert [f][1..] == [];
    } else {
      assert (hs + [f])[1..] == hs[1..] + [f];
      CallsSnoc(hs[1..], f, payload);
    }
  }

  /** A handler registered for an event is called last when the event is
      dispatched, after the handlers registered before it. */
  lemma RegisterThenDispatch(t: map<string, seq<string>>, key: string, f: string, payload: Json)
    ensures Calls(HandlersOf(Appended(t, key, f), key), payload) == Calls(HandlersOf(t, key), payload) + [Call(f, payload)]
  {
    CallsSnoc(HandlersOf(t, key), f, payload);
  }

  /** The body of a webhook request: `event`, `data` and `ref`, each of
      which may be missing. */
  datatype Body = Body(event: Option<string>, data: Option<Json>, ref: Option<Value>)

  /** The three fields dispatch and forward read first, in that order. */
  function Fields(body: Body): (r: Result<(string, Json)>)
    ensures r.Err? <==> body.event.None? || body.data.None? || body.ref.None?
    ensures r.Err? ==> r.error == KeyError
    ensures r.Ok? ==> r.value == (body.event.value, body.data.value)
  {
    if body.event.None? || body.data.None? || body.ref.None? then Err(KeyError)
    else Ok((body.event.value, body.data.value))
  }

  /** WebhookRegistry: its own defaultdict(list) of handlers. */
  class WebhookRegistry {
    var handlers: map<string, seq<string>>

    constructor ()
      ensures handlers == map[]
    {
      handlers := map[];
    }

    method Register(func: string, key: string)
      modifies this
      ensures handlers == Appended(old(handlers), key, func)
    {
      handlers := handlers[key := HandlersOf(handlers, key) + [func]];
    }

    /** Registry.unregister: pops the whole list, KeyError when absent. */
    method Unregister(key: string) returns (status: Status)
      modifies this
      ensures key in old(handlers) ==> status == Done && handlers == old(handlers) - {key}
      ensures key !in old(handlers) ==> status == Failed(KeyError) && handlers == old(handlers)
    {
      if key !in handlers {
        return Failed(KeyError);
      }
      handlers := handlers - {key};
      return Done;
    }

    /** registry[key] on the defaultdict: an absent key is inserted with an
        empty list. */
    method Get(key: string) returns (hs: seq<string>)
      modifies this
      ensures hs == HandlersOf(old(handlers), key)
      ensures handlers == old(handlers)[key := hs]
    {
      hs := HandlersOf(handlers, key);
      handlers := handlers[key := hs];
    }
  }

  /** WebhookRegistry rebinds the registry to a dictionary of lists of its
      own: a key the games' registry refuses a second time takes both
      handlers here, in order. */
  method OwnDictionaryIsSeparate(key: string, f: string, g: string) returns (first: Status, second: Status, hs: seq<string>)
    ensures first == Done && second == Failed(ValueError)
    ensures hs == [f, g]
  {
    var shared := new Registries.Dict();
    var games := new Registries.Registry(shared);
    first := games.Register(f, key);
    second := games.Register(g, key);
    var webhooks := new WebhookRegistry();
    webhooks.Register(f, key);
    webhooks.Register(g, key);
    hs := webhooks.Get(key);
  }

  /** hook(key): registers the decorated function under the key and returns
      it. */
  class Hook {
    const registry: WebhookRegistry
    const key: string

    constructor (registry: WebhookRegistry, key: string)
      ensures this.registry == registry && this.key == key
    {
      this.registry := registry;
      this.key := key;
    }

    method Apply(func: string) returns (r: string)
      modifies registry
      ensures r == func && registry.handlers == Appended(old(registry.handlers), key, func)
    {
      registry.Register(func, key);
      return func;
    }
  }

  // ----- parsing the event -----

  /** The (resource, action) of an event: events of users are cut once
      from the right into exactly two parts; every other event must give
      three parts when cut twice from the right, the first dropped. */
  function ParseEvent(event: string): (r: Result<(string, string)>)
    ensures r.Err? ==> r.error == ValueError
  {
    var parts := RSplit(event, '.', 2);
    if StartsWith(event, "user") then
      if |parts| == 2 then Ok((parts[0], parts[1])) else Err(ValueError)
    else if |parts| == 3 then Ok((parts[1], parts[2])) else Err(ValueError)
  }

  /** An event `<prefix>.<resource>.<action>` parses to (resource, action)
      whatever dots the prefix holds, when it does not begin with `user`. */
  lemma ParseScopeEvent(prefix: string, res: string, action: string)
    requires '.' !in res && '.' !in action && !StartsWith(prefix + "." + res + "." + action, "user")
    ensures ParseEvent(prefix + "." + res + "." + action) == Ok((res, action))
  {
    var e := prefix + "." + res + "." + action;
    assert e == (prefix + "." + res) + ['.'] + action;
    RSplitJoin(prefix + "." + res, '.', action, 2);
    assert prefix + "." + res == prefix + ['.'] + res;
    RSplitJoin(prefix, '.', res, 1);
  }

  /** A user event `<resource>.<action>` parses to (resource, action); one
      with a further dot, such as `users.user.changed`, raises ValueError. */
  lemma ParseUserEvent(a: string, b: string, c: string)
    requires '.' !in a && '.' !in b && '.' !in c && StartsWith(a, "user")
    ensures ParseEvent(a + "." + b) == Ok((a, b))
    ensures ParseEvent(a + "." + b + "." + c) == Err(ValueError)
  {
    assert (a + "." + b)[..|"user"|] == a[..|"user"|];
    assert (a + "." + b + "." + c)[..|"user"|] == a[..|"user"|];
    assert a + "." + b == a + ['.'] + b;
    RSplitJoin(a, '.', b, 2);
    RSplitNone(a, '.', 1);
    assert a + "." + b + "." + c == (a + "." + b) + ['.'] + c;
    RSplitJoin(a + "." + b, '.', c, 2);
    RSplitJoin(a, '.', b, 1);
    RSplitNone(a, '.', 0);
  }

  /** The action parsed from an event is its text after the last dot,
      which is what forward_runuser dispatches on. */
  lemma ParsedActionIsLastPart(event: string)
    requires ParseEvent(event).Ok?
    ensures ParseEvent(event).value.1 == LastPart(event)
  {
    RSplitLast(event, '.', 2, 1);
  }

  /** An event with fewer than two dots and not of a user raises
      ValueError. */
  lemma ParseShortEvent(a: string, b: string)
    requires '.' !in a && '.' !in b && !StartsWith(a + "." + b, "user")
    ensures ParseEvent(a) == Err(ValueError) || StartsWith(a, "user")
    ensures ParseEvent(a + "." + b) == Err(ValueError)
  {
    RSplitNone(a, '.', 2);
    assert a + "." + b == a + ['.'] + b;
    RSplitJoin(a, '.', b, 2);
    RSplitNone(a, '.', 1);
  }

  /** event.rsplit('.', 1)[-1]: the text after the last dot. */
  function LastPart(event: string): string
  {
    var parts := RSplit(event, '.', 1);
    parts[|parts| - 1]
  }

  // ----- forwarding -----

  /** The payload of a scope event holds every filter field of its kind
      whenever it holds an id. */
  predicate Indexed(k: Kind, payload: Json)
  {
    "id" in payload ==> Indexable(Scope(k, payload))
  }

  /** The actions whose handlers store the payload in a container:
      `created` adds it, `changed` replaces a loaded scope's payload. */
  predicate Stores(action: string)
  {
    action == "created" || action == "changed"
  }

  /** The payload of an event whose action stores it holds every filter
      field of its kind; a `deleted` payload may hold any fields. */
  predicate IndexedFor(k: Kind, action: string, payload: Json)
  {
    Stores(action) ==> Indexed(k, payload)
  }

  /** The payload of a scope event, as the adding and updating of a loaded
      scope need it; nothing is demanded of a delete. */
  predicate Deliverable(body: Body)
  {
    Fields(body).Ok? && ParseEvent(body.event.value).Ok? ==>
      var k := KindNamed(ParseEvent(body.event.value).value.0);
      k.Some? && k.value != Game ==> IndexedFor(k.value, ParseEvent(body.event.value).value.1, body.data.value)
  }

  /** CallbackDispatcher.forward_runuser(game, event, data): the Run named
      by data['run'] handles runuser_<action>; a run that is not loaded, or
      a ScopeNotFound from the handler, ends quietly. */
  function RunUserForwarded(g: Graph, event: string, data: Json): (r: Step)
    requires Valid(g) && IndexedFor(RunUser, LastPart(event), data)
    ensures Valid(r.graph)
  {
    match Field(data, "run")
    case Err(e) => Step(g, [], Failed(e))
    case Ok(pk) =>
      if GetScope(g, Run, pk).Err? then Step(g, [], Done)
      else
        var action := LastPart(event);
        var h :=
          if action == "created" || action == "changed" then RunUserChanged(g, data)
          else if action == "deleted" then RunUserDeleted(g, data)
          else Step(g, [], Failed(AttributeError));
        Quiet(h)
  }

  /** `except ScopeNotFound: pass` (or `return`) around a step. */
  function Quiet(h: Step): (r: Step)
    ensures r.graph == h.graph && r.events == h.events
    ensures r.status == Done <==> h.status == Done || Catches(ScopeNotFound, h.status.error)
    ensures r.status.Failed? ==> r.status == h.status
  {
    if h.status.Failed? && Catches(ScopeNotFound, h.status.error) then Step(h.graph, h.events, Done) else h
  }

  /** forward_runuser for each runuser the games API lists, in order; the
      first exception ends the loop. */
  function RunUsersForwarded(g: Graph, event: string, rus: seq<Json>): (r: Step)
    requires Valid(g) && forall i :: 0 <= i < |rus| ==> IndexedFor(RunUser, LastPart(event), rus[i])
    ensures Valid(r.graph)
    decreases |rus|
  {
    if rus == [] then Step(g, [], Done)
    else
      var a := RunUserForwarded(g, event, rus[0]);
      if a.status.Failed? then a
      else
        var b := RunUsersForwarded(a.graph, event, rus[1..]);
        Step(b.graph, a.events + b.events, b.status)
  }

  /** What one parent field of the generic loop does for the action. */
  function Acted(g: Graph, k: Kind, action: string, payload: Json, p: Kind, ppk: Value, pk: Value, save: Json -> Json): (r: Step)
    requires Valid(g) && k != Game && IndexedFor(k, action, payload) && "id" in payload && payload["id"] == pk
    ensures Valid(r.graph)
  {
    if action == "created" then
      if p == Game then AddChildWebhook(g, g.game, k, payload, save)
      else match GetScope(g, p, ppk)
        case Err(e) => Step(g, [], Failed(e))
        case Ok(parent) =>
          Stamped(parent, k, payload, save);
          AddChildWebhook(g, parent, k, payload, save)
    else if action == "deleted" then
      match GetScope(g, k, pk)
      case Err(e) => Step(g, [], Failed(e))
      case Ok(s) => Loaded(g, k, pk); Lifecycle.Remove(g, s)
    else if action == "changed" then
      match GetScope(g, k, pk)
      case Err(e) => Step(g, [], Failed(e))
      case Ok(s) => UpdateWebhook(g, s, payload)
    else Step(g, [], Done)
  }

  /** A new child keeps the filter fields of the payload. */
  lemma Stamped(parent: Scope, k: Kind, payload: Json, save: Json -> Json)
    requires k != Game && "id" in payload && Indexable(Scope(k, payload))
    ensures Indexable(NewChild(parent, k, payload, save))
  {
    NewChildStamped(parent, k, payload, save);
  }

  /** A loaded scope is indexable. */
  lemma Loaded(g: Graph, k: Kind, pk: Value)
    requires Valid(g) && GetScope(g, k, pk).Ok?
    ensures Indexable(GetScope(g, k, pk).value)
  {
    ContainerMembers(g, k);
    MembersPointwise(Container(g, k));
  }

  /** The loop over SCOPE_PARENT_GRAPH[resource]: a null parent field is
      skipped; otherwise the action runs, a ScopeNotFound ends the forward
      quietly, any other exception propagates. */
  function ParentsForwarded(g: Graph, k: Kind, action: string, payload: Json, parents: seq<Kind>, save: Json -> Json): (r: Step)
    requires Valid(g) && k != Game && IndexedFor(k, action, payload)
    ensures Valid(r.graph)
    decreases |parents|
  {
    if parents == [] then Step(g, [], Done)
    else match Field(payload, Name(parents[0]))
      case Err(e) => Step(g, [], Failed(e))
      case Ok(ppk) =>
        if ppk == Null then ParentsForwarded(g, k, action, payload, parents[1..], save)
        else match Field(payload, "id")
          case Err(e) => Step(g, [], Failed(e))
          case Ok(pk) =>
            var a := Acted(g, k, action, payload, parents[0], ppk, pk, save);
            if a.status.Failed? then Quiet(a)
            else
              var b := ParentsForwarded(a.graph, k, action, payload, parents[1..], save);
              Step(b.graph, a.events + b.events, b.status)
  }

  /** CallbackDispatcher.forward(game, data), with `fetched` the runusers the
      games API lists for a user event. */
  function Forwarded(g: Graph, body: Body, fetched: seq<Json>, save: Json -> Json): (r: Step)
    requires Valid(g) && Deliverable(body)
    requires Fields(body).Ok? ==> forall i :: 0 <= i < |fetched| ==> IndexedFor(RunUser, LastPart(body.event.value), fetched[i])
    ensures Valid(r.graph)
  {
    match Fields(body)
    case Err(e) => Step(g, [], Failed(e))
    case Ok(f) =>
      var (event, payload) := f;
      match ParseEvent(event)
      case Err(e) => Step(g, [], Failed(e))
      case Ok(ra) =>
        var (res, action) := ra;
        if res == "user" then
          if "id" !in payload then Step(g, [], Failed(KeyError))
          else
            var a := RunUsersForwarded(g, event, fetched);
            // SCOPE_PARENT_GRAPH has no entry for `user`
            if a.status.Failed? then a else Step(a.graph, a.events, Failed(KeyError))
        else if res == "runuser" then
          ParsedActionIsLastPart(event);
          var a := RunUserForwarded(g, event, payload);
          if a.status.Failed? then a
          else
            var b := ParentsForwarded(a.graph, RunUser, action, payload, ParentKinds(RunUser), save);
            Step(b.graph, a.events + b.events, b.status)
        else if res == "game" then Step(g, [], Done)
        else match KindNamed(res)
          case None => Step(g, [], Failed(KeyError))
          case Some(k) => ParentsForwarded(g, k, action, payload, ParentKinds(k), save)
  }

  // ----- properties of forwarding -----

  /** Every parent field is present and null. */
  predicate AllNull(payload: Json, parents: seq<Kind>)
  {
    forall i :: 0 <= i < |parents| ==> Name(parents[i]) in payload && payload[Name(parents[i])] == Null
  }

  /** Every parent field is present. */
  predicate AllPresent(payload: Json, parents: seq<Kind>)
  {
    forall i :: 0 <= i < |parents| ==> Name(parents[i]) in payload
  }

  /** With every parent field null the loop does nothing at all, for any
      action, with or without an id. */
  lemma {:induction false} NullParentsDoNothing(g: Graph, k: Kind, action: string, payload: Json, parents: seq<Kind>, save: Json -> Json)
    requires Valid(g) && k != Game && IndexedFor(k, action, payload) && AllNull(payload, parents)
    ensures ParentsForwarded(g, k, action, payload, parents, save) == Step(g, [], Done)
    decreases |parents|
  {
    if parents != [] {
      assert Name(parents[0]) in payload && payload[Name(parents[0])] == Null;
      assert AllNull(payload, parents[1..]) by {
        forall i | 0 <= i < |parents[1..]|
          ensures Name(parents[1..][i]) in payload && payload[Name(parents[1..][i])] == Null
        {
          assert parents[1..][i] == parents[i + 1];
        }
      }
      NullParentsDoNothing(g, k, action, payload, parents[1..], save);
    }
  }

  /** Deleting or changing a scope that is not loaded fails with
      ScopeNotFound, which the loop swallows. */
  lemma AbsentActed(g: Graph, k: Kind, action: string, payload: Json, p: Kind, ppk: Value, save: Json -> Json)
    requires Valid(g) && k != Game && IndexedFor(k, action, payload) && "id" in payload
    requires action == "deleted" || action == "changed"
    requires payload["id"] !in Container(g, k).scopes
    ensures var a := Acted(g, k, action, payload, p, ppk, payload["id"], save);
      a.status.Failed? && Quiet(a) == Step(g, [], Done)
  {
    assert GetScope(g, k, payload["id"]) == Err(ScopeNotFound);
  }

  /** A delete or change of a scope that is not loaded does nothing, however
      many parent fields are set; so a repeated delete is harmless. */
  lemma {:induction false} AbsentScopeIsIgnored(g: Graph, k: Kind, action: string, payload: Json, parents: seq<Kind>, save: Json -> Json)
    requires Valid(g) && k != Game && IndexedFor(k, action, payload) && AllPresent(payload, parents)
    requires action == "deleted" || action == "changed"
    requires "id" in payload && payload["id"] !in Container(g, k).scopes
    ensures ParentsForwarded(g, k, action, payload, parents, save) == Step(g, [], Done)
    decreases |parents|
  {
    if parents != [] {
      assert Name(parents[0]) in payload;
      assert AllPresent(payload, parents[1..]) by {
        forall i | 0 <= i < |parents[1..]|
          ensures Name(parents[1..][i]) in payload
        {
          assert parents[1..][i] == parents[i + 1];
        }
      }
      AbsentScopeIsIgnored(g, k, action, payload, parents[1..], save);
      if payload[Name(parents[0])] != Null {
        AbsentActed(g, k, action, payload, parents[0], payload[Name(parents[0])], save);
      }
    }
  }

  /** A create under a parent that is not loaded does nothing: the forward
      returns at the first set parent field. */
  lemma MissingParentIsIgnored(g: Graph, k: Kind, payload: Json, parents: seq<Kind>, save: Json -> Json)
    requires Valid(g) && k != Game && Indexed(k, payload) && "id" in payload
    requires parents != [] && parents[0] != Game && Name(parents[0]) in payload
    requires payload[Name(parents[0])] != Null
    requires payload[Name(parents[0])] !in Container(g, parents[0]).scopes
    ensures ParentsForwarded(g, k, "created", payload, parents, save) == Step(g, [], Done)
  {
    ScopeHandlers();
  }

  /** With one candidate parent, set, and an id, the loop is the action
      alone, a ScopeNotFound from it ending quietly. */
  lemma OneParentLoop(g: Graph, k: Kind, action: string, payload: Json, p: Kind, save: Json -> Json)
    requires Valid(g) && k != Game && IndexedFor(k, action, payload)
    requires Name(p) in payload && payload[Name(p)] != Null && "id" in payload
    ensures var a := Acted(g, k, action, payload, p, payload[Name(p)], payload["id"], save);
      var r := ParentsForwarded(g, k, action, payload, [p], save);
      r.graph == a.graph && r.events == a.events && r.status == Quiet(a).status
  {
    var a := Acted(g, k, action, payload, p, payload[Name(p)], payload["id"], save);
    assert [p][1..] == [];
    assert ParentsForwarded(a.graph, k, action, payload, [p][1..], save) == Step(a.graph, [], Done);
    assert a.events + [] == a.events;
  }

  /** The action `deleted` on a loaded scope is its remove(). */
  lemma ActDeleted(g: Graph, k: Kind, payload: Json, p: Kind, ppk: Value, save: Json -> Json)
    requires Valid(g) && k != Game && "id" in payload
    requires payload["id"] in Container(g, k).scopes
    ensures Indexable(GetScope(g, k, payload["id"]).value)
    ensures Acted(g, k, "deleted", payload, p, ppk, payload["id"], save) ==
      Lifecycle.Remove(g, GetScope(g, k, payload["id"]).value)
  {
    Loaded(g, k, payload["id"]);
  }

  /** The action `changed` on a loaded scope is its update_webhook. */
  lemma ActChanged(g: Graph, k: Kind, payload: Json, p: Kind, ppk: Value, save: Json -> Json)
    requires Valid(g) && k != Game && Indexed(k, payload) && "id" in payload
    requires payload["id"] in Container(g, k).scopes
    ensures Acted(g, k, "changed", payload, p, ppk, payload["id"], save) ==
      UpdateWebhook(g, GetScope(g, k, payload["id"]).value, payload)
  {
  }

  /** A remove() that completes leaves the scope's pk out of its
      container. */
  lemma RemovedIsGone(g: Graph, s: Scope)
    requires Valid(g) && Indexable(s) && Lifecycle.Remove(g, s).status == Done
    ensures Pk(s) !in Container(Lifecycle.Remove(g, s).graph, s.kind).scopes
  {
    RemoveEffect(g, s);
  }

  lemma OneFieldPresent(payload: Json, parents: seq<Kind>)
    requires |parents| == 1 && Name(parents[0]) in payload
    ensures AllPresent(payload, parents)
  {
  }

  /** Once remove() has completed, a delete of the same scope finds
      nothing to do. */
  lemma RepeatAfterRemove(g: Graph, s: Scope, k: Kind, payload: Json, save: Json -> Json)
    requires Valid(g) && k != Game && |ParentKinds(k)| == 1
    requires Name(ParentKinds(k)[0]) in payload && "id" in payload
    requires Indexable(s) && s.kind == k && Pk(s) == payload["id"] && Lifecycle.Remove(g, s).status == Done
    ensures var g1 := Lifecycle.Remove(g, s).graph;
      ParentsForwarded(g1, k, "deleted", payload, ParentKinds(k), save) == Step(g1, [], Done)
  {
    RemovedIsGone(g, s);
    OneFieldPresent(payload, ParentKinds(k));
    AbsentScopeIsIgnored(Lifecycle.Remove(g, s).graph, k, "deleted", payload, ParentKinds(k), save);
  }

  /** A scope of one candidate parent: deleting it when loaded is remove(),
      after which the same event finds nothing to do. */
  lemma DeleteThenRepeat(g: Graph, k: Kind, payload: Json, save: Json -> Json)
    requires Valid(g) && k != Game && |ParentKinds(k)| == 1
    requires Name(ParentKinds(k)[0]) in payload && payload[Name(ParentKinds(k)[0])] != Null
    requires "id" in payload && payload["id"] in Container(g, k).scopes
    ensures Indexable(GetScope(g, k, payload["id"]).value)
    ensures var rm := Lifecycle.Remove(g, GetScope(g, k, payload["id"]).value);
      var r := ParentsForwarded(g, k, "deleted", payload, ParentKinds(k), save);
      r.graph == rm.graph && r.events == rm.events && r.status == Quiet(rm).status &&
      (rm.status == Done ==> ParentsForwarded(r.graph, k, "deleted", payload, ParentKinds(k), save) == Step(r.graph, [], Done))
  {
    var p := ParentKinds(k)[0];
    assert ParentKinds(k) == [p];
    var s := GetScope(g, k, payload["id"]).value;
    OneParentLoop(g, k, "deleted", payload, p, save);
    ActDeleted(g, k, payload, p, payload[Name(p)], save);
    if Lifecycle.Remove(g, s).status == Done {
      RepeatAfterRemove(g, s, k, payload, save);
    }
  }

  /** A change of a loaded scope of one candidate parent is
      update_webhook. */
  lemma ChangeIsUpdate(g: Graph, k: Kind, payload: Json, save: Json -> Json)
    requires Valid(g) && k != Game && Indexed(k, payload) && |ParentKinds(k)| == 1
    requires Name(ParentKinds(k)[0]) in payload && payload[Name(ParentKinds(k)[0])] != Null
    requires "id" in payload && payload["id"] in Container(g, k).scopes
    ensures var u := UpdateWebhook(g, GetScope(g, k, payload["id"]).value, payload);
      var r := ParentsForwarded(g, k, "changed", payload, ParentKinds(k), save);
      r.graph == u.graph && r.events == u.events && r.status == Quiet(u).status
  {
    var p := ParentKinds(k)[0];
    assert ParentKinds(k) == [p];
    OneParentLoop(g, k, "changed", payload, p, save);
    ActChanged(g, k, payload, p, payload[Name(p)], save);
  }

  /** A create of a scope of one candidate parent under its loaded parent
      (or the game) is add_child_webhook on that parent. */
  lemma CreateIsAddChild(g: Graph, k: Kind, payload: Json, save: Json -> Json)
    requires Valid(g) && k != Game && Indexed(k, payload) && |ParentKinds(k)| == 1
    requires Name(ParentKinds(k)[0]) in payload && payload[Name(ParentKinds(k)[0])] != Null && "id" in payload
    requires ParentKinds(k)[0] != Game ==> payload[Name(ParentKinds(k)[0])] in Container(g, ParentKinds(k)[0]).scopes
    ensures var p := ParentKinds(k)[0];
      var parent := if p == Game then g.game else GetScope(g, p, payload[Name(p)]).value;
      Indexable(NewChild(parent, k, payload, save)) &&
      var a := AddChildWebhook(g, parent, k, payload, save);
      var r := ParentsForwarded(g, k, "created", payload, ParentKinds(k), save);
      r.graph == a.graph && r.events == a.events &&
      (r.status == Done <==> a.status == Done || Catches(ScopeNotFound, a.status.error))
  {
    var p := ParentKinds(k)[0];
    assert ParentKinds(k) == [p];
    var parent := if p == Game then g.game else GetScope(g, p, payload[Name(p)]).value;
    Stamped(parent, k, payload, save);
    var a := AddChildWebhook(g, parent, k, payload, save);
    OneParentLoop(g, k, "created", payload, p, save);
    assert Acted(g, k, "created", payload, p, payload[Name(p)], payload["id"], save) == a;
  }

  /** A game event changes nothing. */
  lemma GameEventIsIgnored(g: Graph, body: Body, fetched: seq<Json>, save: Json -> Json)
    requires Valid(g) && Deliverable(body)
    requires Fields(body).Ok? ==> forall i :: 0 <= i < |fetched| ==> IndexedFor(RunUser, LastPart(body.event.value), fetched[i])
    requires Fields(body).Ok? && ParseEvent(body.event.value).Ok? && ParseEvent(body.event.value).value.0 == "game"
    ensures Forwarded(g, body, fetched, save) == Step(g, [], Done)
  {
  }

  /** A user event never completes: after its runusers are forwarded, the
      parent table has no entry for `user` and KeyError is raised. */
  lemma UserEventRaises(g: Graph, body: Body, fetched: seq<Json>, save: Json -> Json)
    requires Valid(g) && Deliverable(body)
    requires Fields(body).Ok? ==> forall i :: 0 <= i < |fetched| ==> IndexedFor(RunUser, LastPart(body.event.value), fetched[i])
    requires Fields(body).Ok? && ParseEvent(body.event.value).Ok? && ParseEvent(body.event.value).value.0 == "user"
    ensures Forwarded(g, body, fetched, save).status.Failed?
    ensures "id" in body.data.value && RunUsersForwarded(g, body.event.value, fetched).status == Done ==>
      Forwarded(g, body, fetched, save) ==
        Step(RunUsersForwarded(g, body.event.value, fetched).graph, RunUsersForwarded(g, body.event.value, fetched).events, Failed(KeyError))
  {
  }

  /** A scope event of an unknown resource raises KeyError and changes
      nothing; one of a known resource other than the special three is the
      parent loop over its candidate parents. */
  lemma ScopeEventIsParentLoop(g: Graph, body: Body, fetched: seq<Json>, save: Json -> Json)
    requires Valid(g) && Deliverable(body)
    requires Fields(body).Ok? ==> forall i :: 0 <= i < |fetched| ==> IndexedFor(RunUser, LastPart(body.event.value), fetched[i])
    requires Fields(body).Ok? && ParseEvent(body.event.value).Ok?
    requires ParseEvent(body.event.value).value.0 !in {"user", "runuser", "game"}
    ensures var (res, action) := ParseEvent(body.event.value).value;
      (KindNamed(res).None? ==> Forwarded(g, body, fetched, save) == Step(g, [], Failed(KeyError))) &&
      (KindNamed(res).Some? ==>
        KindNamed(res).value != Game &&
        Forwarded(g, body, fetched, save) == ParentsForwarded(g, KindNamed(res).value, action, body.data.value, ParentKinds(KindNamed(res).value), save))
  {
    var res := ParseEvent(body.event.value).value.0;
    if KindNamed(res).Some? {
      NamesIdentifyKinds(KindNamed(res).value, res);
    }
  }

  /** Under a loaded run, forward_runuser is the run's handler for the
      action, a ScopeNotFound from it ending quietly. */
  lemma ForwardToLoadedRun(g: Graph, event: string, data: Json)
    requires Valid(g) && IndexedFor(RunUser, LastPart(event), data)
    requires "run" in data && data["run"] in Container(g, Run).scopes
    ensures var action := LastPart(event);
      RunUserForwarded(g, event, data) == Quiet(
        if action == "created" || action == "changed" then RunUserChanged(g, data)
        else if action == "deleted" then RunUserDeleted(g, data)
        else Step(g, [], Failed(AttributeError)))
    ensures LastPart(event) == "created" || LastPart(event) == "changed" ==>
      RunUserForwarded(g, event, data) == Quiet(RunUserChanged(g, data))
  {
  }

  /** forward_runuser catches only ScopeNotFound, so the AttributeError of
      add_or_update_runuser escapes: a runuser created under a loaded run,
      not yet loaded itself but already named by a loaded scenario, is added
      and started, and then the forward raises. */
  lemma RunUserCreatedEscapes(g: Graph, event: string, data: Json)
    requires Valid(g) && LastPart(event) == "created" && "id" in data && Indexable(Scope(RunUser, data))
    requires "run" in data && data["run"] in Container(g, Run).scopes
    requires data["id"] !in Container(g, RunUser).scopes
    requires Filter(Container(g, Scenario), [("runuser", data["id"])]).Ok?
    requires Filter(Container(g, Scenario), [("runuser", data["id"])]).value != []
    ensures RunUserForwarded(g, event, data) ==
      Step(Put(g, Scope(RunUser, data)), [Join(Scope(RunUser, data))], Failed(AttributeError))
  {
    ScopeHandlers();
    assert Pk(Scope(RunUser, data)) == data["id"];
    AsWrittenFailsOnScenarios(g, data);
    ForwardToLoadedRun(g, event, data);
  }

  /** Once runuser_deleted has removed the runuser, the parent loop finds
      it gone. */
  lemma RepeatAfterRunUserDeleted(g: Graph, payload: Json, save: Json -> Json)
    requires Valid(g) && "run" in payload && "id" in payload
    requires RunUserDeleted(g, payload).status == Done
    ensures var g1 := RunUserDeleted(g, payload).graph;
      ParentsForwarded(g1, RunUser, "deleted", payload, ParentKinds(RunUser), save) == Step(g1, [], Done)
  {
    RunUserDeletedEffect(g, payload);
    OneFieldPresent(payload, ParentKinds(RunUser));
    AbsentScopeIsIgnored(RunUserDeleted(g, payload).graph, RunUser, "deleted", payload, ParentKinds(RunUser), save);
  }

  /** A runuser deleted under a loaded run is removed by runuser_deleted;
      the parent loop that follows finds it gone and does nothing more. */
  lemma RunUserDeleteForwarded(g: Graph, event: string, payload: Json, save: Json -> Json)
    requires Valid(g) && LastPart(event) == "deleted"
    requires "run" in payload && payload["run"] in Container(g, Run).scopes
    requires "id" in payload && payload["id"] in Container(g, RunUser).scopes
    ensures var a := RunUserForwarded(g, event, payload);
      a == Quiet(RunUserDeleted(g, payload)) &&
      (RunUserDeleted(g, payload).status == Done ==>
        ParentsForwarded(a.graph, RunUser, "deleted", payload, ParentKinds(RunUser), save) == Step(a.graph, [], Done))
  {
    ForwardToLoadedRun(g, event, payload);
    if RunUserDeleted(g, payload).status == Done {
      RepeatAfterRunUserDeleted(g, payload, save);
    }
  }

  // ----- the dispatcher -----

  /** Events already sent, followed by what a step sends. */
  function After(sent: seq<Event>, r: Step): Step
  {
    Step(r.graph, sent + r.events, r.status)
  }

  lemma AfterThen(sent: seq<Event>, a: seq<Event>, b: Step)
    ensures After(sent, Step(b.graph, a + b.events, b.status)) == After(sent + a, b)
  {
    assert sent + (a + b.events) == (sent + a) + b.events;
  }

  /** The loop of ParentsForwarded, one parent at a time. */
  lemma ParentLoopStep(g: Graph, k: Kind, action: string, payload: Json, parents: seq<Kind>, i: nat, save: Json -> Json)
    requires Valid(g) && k != Game && IndexedFor(k, action, payload) && i < |parents|
    ensures parents[i..][0] == parents[i] && parents[i..][1..] == parents[i + 1..]
  {
  }

  class CallbackDispatcher {
    const registry: WebhookRegistry

    constructor (registry: WebhookRegistry)
      ensures this.registry == registry
    {
      this.registry := registry;
    }

    /** dispatch(data): reads event, data and ref, then calls each handler
        of the event in order, with the payload as keyword arguments. */
    method Dispatch(body: Body) returns (r: Result<seq<Call>>)
      modifies registry
      ensures Fields(body).Err? ==> r == Err(KeyError) && registry.handlers == old(registry.handlers)
      ensures Fields(body).Ok? ==>
        var hs := HandlersOf(old(registry.handlers), body.event.value);
        registry.handlers == old(registry.handlers)[body.event.value := hs] &&
        r == Ok(Calls(hs, body.data.value))
    {
      var f := Fields(body);
      if f.Err? {
        return Err(f.error);
      }
      var (event, payload) := f.value;
      var hs := registry.Get(event);
      var calls: seq<Call> := [];
      var i := 0;
      while i < |hs|
        invariant 0 <= i <= |hs| && calls == Calls(hs[..i], payload)
        invariant registry.handlers == old(registry.handlers)[event := hs]
      {
        assert hs[..i + 1] == hs[..i] + [hs[i]];
        CallsSnoc(hs[..i], hs[i], payload);
        calls := calls + [Call(hs[i], payload)];
        i := i + 1;
      }
      assert hs[..i] == hs;
      return Ok(calls);
    }

    /** forward_runuser(game, event, data) */
    method ForwardRunUser(game: Game, event: string, data: Json) returns (status: Status)
      requires game.Inv() && IndexedFor(RunUser, LastPart(event), data)
      modifies game
      ensures game.Inv() && game.online == old(game.online)
      ensures var r := RunUserForwarded(old(game.State()), event, data);
        game.State() == r.graph && game.outbox == old(game.outbox) + r.events && status == r.status
    {
      if "run" !in data {
        return Failed(KeyError);
      }
      var run := GetScope(game.State(), Run, data["run"]);
      if run.Err? {
        assert game.outbox == old(game.outbox) + [];
        return Done;
      }
      var action := LastPart(event);
      var h: Status;
      if action == "created" || action == "changed" {
        h := game.RunUserChanged(data);
      } else if action == "deleted" {
        h := game.RunUserDeleted(data);
      } else {
        assert game.outbox == old(game.outbox) + [];
        h := Failed(AttributeError);
      }
      if h.Failed? && Catches(ScopeNotFound, h.error) {
        return Done;
      }
      return h;
    }

    /** The loop of forward over the runusers of a user event. */
    method ForwardAll(game: Game, event: string, rus: seq<Json>) returns (status: Status)
      requires game.Inv() && forall i :: 0 <= i < |rus| ==> IndexedFor(RunUser, LastPart(event), rus[i])
      modifies game
      ensures game.Inv() && game.online == old(game.online)
      ensures After(old(game.outbox), RunUsersForwarded(old(game.State()), event, rus)) ==
        Step(game.State(), game.outbox, status)
    {
      var i := 0;
      while i < |rus|
        invariant 0 <= i <= |rus| && game.Inv() && game.online == old(game.online)
        invariant After(old(game.outbox), RunUsersForwarded(old(game.State()), event, rus)) ==
          After(game.outbox, RunUsersForwarded(game.State(), event, rus[i..]))
      {
        assert rus[i..][0] == rus[i] && rus[i..][1..] == rus[i + 1..];
        ghost var g := game.State();
        ghost var sent := game.outbox;
        status := ForwardRunUser(game, event, rus[i]);
        if status.Failed? {
          return;
        }
        AfterThen(sent, RunUserForwarded(g, event, rus[i]).events, RunUsersForwarded(game.State(), event, rus[i + 1..]));
        i := i + 1;
      }
      assert game.outbox + [] == game.outbox;
      return Done;
    }

    /** The `created` action: the new scope is added under the game or
        under the loaded parent the field names. */
    method ActCreated(game: Game, k: Kind, payload: Json, p: Kind, ppk: Value, pk: Value, save: Json -> Json)
      returns (status: Status)
      requires game.Inv() && k != Game && Indexed(k, payload) && "id" in payload && payload["id"] == pk
      modifies game
      ensures game.Inv() && game.online == old(game.online)
      ensures var r := Acted(old(game.State()), k, "created", payload, p, ppk, pk, save);
        game.State() == r.graph && game.outbox == old(game.outbox) + r.events && status == r.status
    {
      var g := game.State();
      if p == Game {
        Stamped(g.game, k, payload, save);
        status := game.AddChildWebhook(g.game, k, payload, save);
      } else {
        var parent := GetScope(g, p, ppk);
        if parent.Err? {
          assert game.outbox == old(game.outbox) + [];
          return Failed(parent.error);
        }
        Stamped(parent.value, k, payload, save);
        status := game.AddChildWebhook(parent.value, k, payload, save);
      }
    }

    /** The `deleted` and `changed` actions on the loaded scope of the
        payload's id. */
    method ActOnLoaded(game: Game, k: Kind, action: string, payload: Json, p: Kind, ppk: Value, pk: Value, save: Json -> Json)
      returns (status: Status)
      requires game.Inv() && k != Game && IndexedFor(k, action, payload) && "id" in payload && payload["id"] == pk
      requires action == "deleted" || action == "changed"
      modifies game
      ensures game.Inv() && game.online == old(game.online)
      ensures var r := Acted(old(game.State()), k, action, payload, p, ppk, pk, save);
        game.State() == r.graph && game.outbox == old(game.outbox) + r.events && status == r.status
    {
      var g := game.State();
      var s := GetScope(g, k, pk);
      if s.Err? {
        assert game.outbox == old(game.outbox) + [];
        return Failed(s.error);
      }
      if action == "deleted" {
        Loaded(g, k, pk);
        status := game.Remove(s.value);
      } else {
        status := game.UpdateWebhook(s.value, payload);
      }
    }

    /** One parent's action of the forward loop. */
    method Act(game: Game, k: Kind, action: string, payload: Json, p: Kind, ppk: Value, pk: Value, save: Json -> Json)
      returns (status: Status)
      requires game.Inv() && k != Game && IndexedFor(k, action, payload) && "id" in payload && payload["id"] == pk
      modifies game
      ensures game.Inv() && game.online == old(game.online)
      ensures var r := Acted(old(game.State()), k, action, payload, p, ppk, pk, save);
        game.State() == r.graph && game.outbox == old(game.outbox) + r.events && status == r.status
    {
      if action == "created" {
        status := ActCreated(game, k, payload, p, ppk, pk, save);
      } else if action == "deleted" || action == "changed" {
        status := ActOnLoaded(game, k, action, payload, p, ppk, pk, save);
      } else {
        assert game.outbox == old(game.outbox) + [];
        return Done;
      }
    }

    /** The loop of forward over SCOPE_PARENT_GRAPH[resource_name]. */
    method ParentLoop(game: Game, k: Kind, action: string, payload: Json, save: Json -> Json) returns (status: Status)
      requires game.Inv() && k != Game && IndexedFor(k, action, payload)
      modifies game
      ensures game.Inv() && game.online == old(game.online)
      ensures After(old(game.outbox), ParentsForwarded(old(game.State()), k, action, payload, ParentKinds(k), save)) ==
        Step(game.State(), game.outbox, status)
    {
      var parents := ParentKinds(k);
      var i := 0;
      while i < |parents|
        invariant 0 <= i <= |parents| && game.Inv() && game.online == old(game.online)
        invariant After(old(game.outbox), ParentsForwarded(old(game.State()), k, action, payload, parents, save)) ==
          After(game.outbox, ParentsForwarded(game.State(), k, action, payload, parents[i..], save))
      {
        ParentLoopStep(game.State(), k, action, payload, parents, i, save);
        var p := parents[i];
        if Name(p) !in payload {
          assert game.outbox + [] == game.outbox;
          return Failed(KeyError);
        }
        var ppk := payload[Name(p)];
        if ppk != Null {
          if "id" !in payload {
            assert game.outbox + [] == game.outbox;
            return Failed(KeyError);
          }
          ghost var g := game.State();
          ghost var sent := game.outbox;
          status := Act(game, k, action, payload, p, ppk, payload["id"], save);
          if status.Failed? {
            if Catches(ScopeNotFound, status.error) {
              return Done;
            }
            return;
          }
          AfterThen(sent, Acted(g, k, action, payload, p, ppk, payload["id"], save).events,
            ParentsForwarded(game.State(), k, action, payload, parents[i + 1..], save));
        }
        i := i + 1;
      }
      assert game.outbox + [] == game.outbox;
      return Done;
    }

    /** forward(game, data) */
    method Forward(game: Game, body: Body, fetched: seq<Json>, save: Json -> Json) returns (status: Status)
      requires game.Inv() && Deliverable(body)
      requires Fields(body).Ok? ==> forall i :: 0 <= i < |fetched| ==> IndexedFor(RunUser, LastPart(body.event.value), fetched[i])
      modifies game
      ensures game.Inv() && game.online == old(game.online)
      ensures After(old(game.outbox), Forwarded(old(game.State()), body, fetched, save)) ==
        Step(game.State(), game.outbox, status)
    {
      assert old(game.outbox) + [] == old(game.outbox);
      var f := Fields(body);
      if f.Err? {
        return Failed(f.error);
      }
      var (event, payload) := f.value;
      var parsed := ParseEvent(event);
      if parsed.Err? {
        return Failed(parsed.error);
      }
      var (res, action) := parsed.value;
      if res == "user" {
        if "id" !in payload {
          return Failed(KeyError);
        }
        status := ForwardAll(game, event, fetched);
        if status.Failed? {
          return;
        }
        return Failed(KeyError);
      } else if res == "runuser" {
        ghost var g := game.State();
        ParsedActionIsLastPart(event);
        status := ForwardRunUser(game, event, payload);
        if status.Failed? {
          return;
        }
        ghost var g1 := game.State();
        ghost var sent := game.outbox;
        status := ParentLoop(game, RunUser, action, payload, save);
        AfterThen(old(game.outbox), RunUserForwarded(g, event, payload).events,
          ParentsForwarded(g1, RunUser, action, payload, ParentKinds(RunUser), save));
      } else if res == "game" {
        return Done;
      } else {
        var k := KindNamed(res);
        if k.None? {
          return Failed(KeyError);
        }
        NamesIdentifyKinds(k.value, res);
        status := ParentLoop(game, k.value, action, payload, save);
      }
    }

    /** Game.webhook_forward(payload), on the parsed body: dispatch, then
        forward; a body dispatch cannot read is not forwarded. */
    method WebhookForward(game: Game, body: Body, fetched: seq<Json>, save: Json -> Json)
      returns (calls: Result<seq<Call>>, status: Status)
      requires game.Inv() && Deliverable(body)
      requires Fields(body).Ok? ==> forall i :: 0 <= i < |fetched| ==> IndexedFor(RunUser, LastPart(body.event.value), fetched[i])
      modifies game, registry
      ensures game.Inv() && game.online == old(game.online)
      ensures Fields(body).Err? ==> calls == Err(KeyError) && status == Failed(KeyError) && game.State() == old(game.State()) && game.outbox == old(game.outbox)
      ensures Fields(body).Ok? ==>
        calls == Ok(Calls(HandlersOf(old(registry.handlers), body.event.value), body.data.value)) &&
        After(old(game.outbox), Forwarded(old(game.State()), body, fetched, save)) == Step(game.State(), game.outbox, status)
    {
      calls := Dispatch(body);
      if calls.Err? {
        return calls, Failed(calls.error);
      }
      status := Forward(game, body, fetched, save);
    }
  }
}
