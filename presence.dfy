// Who is online: what a scope tells when a runuser connects or
// disconnects, and what get_active_runusers returns and writes into the
// loaded runusers' payloads.  The set of online pks itself is a field of
// the game object (Games.Game.online).

module Presence {
  import opened Exceptions
  import opened Payload
  import opened Constants
  import opened Managers
  import opened Traversing
  import opened Scopes
  import opened Lifecycle

  /** The runuser with `online` set in its payload, as the presence notices
      and get_active_runusers carry it. */
  function Marked(ru: Scope, on: bool): (r: Scope)
    ensures r.kind == RunUser && Pk(r) == Pk(ru) && "online" in r.json && r.json["online"] == Bool(on)
    ensures forall k :: k != "online" ==> (k in r.json <==> k in ru.json)
    ensures forall k :: k != "online" && k in ru.json ==> r.json[k] == ru.json[k]
  {
    Scope(RunUser, ru.json["online" := Bool(on)])
  }

  /** disconnected(): the scope's world, when there is one, and then its run,
      when there is one, hear that the runuser went offline.  A failing
      lookup raises, after whatever was already published. */
  function DisconnectNotices(g: Graph, s: Scope, ru: Scope): Out
    requires Valid(g)
  {
    var m := Marked(ru, false);
    match WorldOf(g, s)
    case Err(e) => Out([], Failed(e))
    case Ok(w) =>
      var first := if w.Some? then [Notice(w.value, "update_child", m)] else [];
      match RunOf(g, s)
      case Err(e) => Out(first, Failed(e))
      case Ok(r) => Out(first + (if r.Some? then [Notice(r.value, "update_child", m)] else []), Done)
  }

  /** Every disconnection notice is an update_child about the runuser, with
      `online` false; the world hears first and the run last; both are told
      exactly when both lookups succeed. */
  lemma DisconnectNoticesTell(g: Graph, s: Scope, ru: Scope)
    requires Valid(g)
    ensures var n := DisconnectNotices(g, s, ru);
      Tells(n.events, "update_child", Marked(ru, false)) &&
      (forall i :: 0 <= i < |n.events| ==> n.events[i].pk == Pk(ru) && n.events[i].resourceName == "runuser") &&
      (n.status == Done <==> WorldOf(g, s).Ok? && RunOf(g, s).Ok?) &&
      (n.status == Done ==>
        |n.events| == (if WorldOf(g, s).value.Some? then 1 else 0) + (if RunOf(g, s).value.Some? then 1 else 0)) &&
      (WorldOf(g, s).Ok? && WorldOf(g, s).value.Some? ==> n.events[0].target == WorldOf(g, s).value.value) &&
      (n.status == Done && RunOf(g, s).value.Some? ==> n.events[|n.events| - 1].target == RunOf(g, s).value.value)
  {
  }

  /** The export get_active_runusers makes of a runuser. */
  function ActiveExport(ru: Scope, online: set<Value>): Export
  {
    Export(Pk(ru), Marked(ru, Pk(ru) in online).json, "runuser")
  }

  /** The payload write of get_active_runusers: `ru.json['online'] = ...` on
      the listed object, which is the loaded runuser when the container holds
      that very object under its pk. */
  function MarkOne(g: Graph, ru: Scope, online: set<Value>): (r: Graph)
    requires Valid(g)
    ensures Valid(r) && r.game == g.game
  {
    var m := Container(g, RunUser);
    if Pk(ru) in m.scopes && m.scopes[Pk(ru)] == ru then
      var j := Marked(ru, Pk(ru) in online).json;
      ReplaceKeepsShape(m, RunUser, Pk(ru), j);
      SetContainer(g, RunUser, ReplacePayload(m, Pk(ru), j))
    else g
  }

  /** The writes of the whole loop, in list order. */
  function MarkAll(g: Graph, rus: seq<Scope>, online: set<Value>): (r: Graph)
    requires Valid(g)
    ensures Valid(r) && r.game == g.game
    decreases |rus|
  {
    if rus == [] then g else MarkAll(MarkOne(g, rus[0], online), rus[1..], online)
  }

  /** Two graphs that differ at most in the `online` entries of loaded
      runusers: same containers, same order, same buckets, same payloads but
      for that one key. */
  ghost predicate OnlyOnlineChanged(a: Graph, b: Graph)
    requires Valid(a) && Valid(b)
  {
    a.game == b.game &&
    (forall k :: k != RunUser ==> Container(b, k) == Container(a, k)) &&
    var ma, mb := Container(a, RunUser), Container(b, RunUser);
    ma.order == mb.order && ma.indexes == mb.indexes && ma.scopes.Keys == mb.scopes.Keys &&
    forall pk, key :: pk in ma.scopes && key != "online" ==>
      (key in ma.scopes[pk].json <==> key in mb.scopes[pk].json) &&
      (key in ma.scopes[pk].json ==> ma.scopes[pk].json[key] == mb.scopes[pk].json[key])
  }

  lemma OnlyOnlineChangedTransitive(a: Graph, b: Graph, c: Graph)
    requires Valid(a) && Valid(b) && Valid(c)
    requires OnlyOnlineChanged(a, b) && OnlyOnlineChanged(b, c)
    ensures OnlyOnlineChanged(a, c)
  {
  }

  lemma MarkOneOnlyOnline(g: Graph, ru: Scope, online: set<Value>)
    requires Valid(g)
    ensures OnlyOnlineChanged(g, MarkOne(g, ru, online))
  {
  }

  /** get_active_runusers changes nothing but `online` entries of loaded
      runusers: no scope is added or dropped and no bucket moves. */
  lemma {:induction false} MarkAllOnlyOnline(g: Graph, rus: seq<Scope>, online: set<Value>)
    requires Valid(g)
    ensures OnlyOnlineChanged(g, MarkAll(g, rus, online))
    decreases |rus|
  {
    if rus == [] {
    } else {
      var g1 := MarkOne(g, rus[0], online);
      MarkOneOnlyOnline(g, rus[0], online);
      MarkAllOnlyOnline(g1, rus[1..], online);
      OnlyOnlineChangedTransitive(g, g1, MarkAll(g1, rus[1..], online));
    }
  }

  /** `online` is not a filter attribute of a runuser, so graphs that differ
      only there are equally consistent. */
  lemma OnlyOnlineKeepsConsistent(a: Graph, b: Graph)
    requires Valid(a) && Valid(b) && Consistent(a) && OnlyOnlineChanged(a, b)
    ensures Consistent(b)
  {
    assert "online" !in IndexNames(RunUser);
    forall k | k in b.scopes
      ensures IndexConsistent(b.scopes[k])
    {
      ContainerConsistent(a, k);
      assert Container(b, k) == b.scopes[k];
      if k == RunUser {
        var ma, mb := Container(a, RunUser), Container(b, RunUser);
        SameIndexValuesConsistent(ma, mb);
      }
    }
  }
}
