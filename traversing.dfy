// Walking the scope graph: the parent a scope's reference fields name, the
// owning run and world, and the runusers (and so the users) a scope concerns.
//
// The game's containers are a map from kind to `Manager`; a kind never filled
// reads as an empty container, as the game's defaultdict does.

module Traversing {
  import opened Exceptions
  import opened Payload
  import opened Constants
  import opened Managers

  /** The game scope and its containers, one per kind. */
  datatype Graph = Graph(game: Scope, scopes: map<Kind, Manager>)

  /** Every stored scope is of the container's kind. */
  ghost predicate StoresKind(m: Manager, k: Kind)
  {
    forall pk :: pk in m.scopes ==> m.scopes[pk].kind == k
  }

  /** The shape every graph keeps: the game is a game, and each container is
      well formed and holds scopes of its own kind. */
  ghost predicate Valid(g: Graph)
  {
    g.game.kind == Game &&
    forall k :: k in g.scopes ==> Wf(g.scopes[k]) && StoresKind(g.scopes[k], k)
  }

  /** Every container's indexes agree with its primary map. */
  ghost predicate Consistent(g: Graph)
  {
    forall k :: k in g.scopes ==> IndexConsistent(g.scopes[k])
  }

  /** game.scopes[kind] */
  function Container(g: Graph, k: Kind): (m: Manager)
    requires Valid(g)
    ensures Wf(m) && StoresKind(m, k)
  {
    if k in g.scopes then g.scopes[k] else Empty
  }

  lemma ContainerConsistent(g: Graph, k: Kind)
    requires Valid(g) && Consistent(g)
    ensures IndexConsistent(Container(g, k))
  {
    if k !in g.scopes {
      EmptyIsConsistent();
    }
  }

  /** The members of a container are scopes of its kind. */
  lemma ContainerMembers(g: Graph, k: Kind)
    requires Valid(g)
    ensures forall x :: x in Members(Container(g, k)) ==> x.kind == k && Indexable(x)
  {
    MemberPks(Container(g, k));
  }

  /** Game.get_scope(kind, pk): the loaded scope with that id. */
  function GetScope(g: Graph, k: Kind, pk: Value): (r: Result<Scope>)
    requires Valid(g)
    ensures r.Ok? <==> pk in Container(g, k).scopes
    ensures r.Ok? ==> r.value == Container(g, k).scopes[pk] && r.value.kind == k && Pk(r.value) == pk
    ensures r.Err? ==> r.error == ScopeNotFound
  {
    GetById(Container(g, k), pk);
    Get(Container(g, k), [("id", pk)])
  }

  /** A reference property such as scenario.world or runuser.world: None when
      the field is null, otherwise the referenced scope of kind `k`. */
  function Referenced(g: Graph, s: Scope, k: Kind): (r: Result<Option<Scope>>)
    requires Valid(g)
    ensures r.Ok? ==> Name(k) in s.json && (r.value.None? <==> s.json[Name(k)] == Null)
    ensures r.Ok? && r.value.Some? ==>
      r.value.value.kind == k && Pk(r.value.value) == s.json[Name(k)] &&
      s.json[Name(k)] in Container(g, k).scopes &&
      r.value.value == Container(g, k).scopes[s.json[Name(k)]]
    ensures r == Err(KeyError) <==> Name(k) !in s.json
    ensures r == Err(ScopeNotFound) <==>
      Name(k) in s.json && s.json[Name(k)] != Null && s.json[Name(k)] !in Container(g, k).scopes
    ensures r.Err? ==> r.error == KeyError || r.error == ScopeNotFound
  {
    var v :- Field(s.json, Name(k));
    if v == Null then Ok(None)
    else
      var x :- GetScope(g, k, v);
      Ok(Some(x))
  }

  // ----- parent -----

  /** The first parent field, in declared order, whose value is not null; the
      last one when all are null.  A missing field raises KeyError. */
  function FirstNonNull(j: Json, ps: seq<Kind>): (r: Result<(Kind, Value)>)
    requires |ps| >= 1
    ensures r.Err? ==> r.error == KeyError
    ensures r.Ok? ==> r.value.0 in ps && Name(r.value.0) in j && j[Name(r.value.0)] == r.value.1
  {
    var v :- Field(j, Name(ps[0]));
    if v != Null || |ps| == 1 then Ok((ps[0], v)) else FirstNonNull(j, ps[1..])
  }

  /** The field chosen is the first one, after only null fields, that is
      not null, or the last one when every field is null ... */
  lemma {:induction false} FirstNonNullPicks(j: Json, ps: seq<Kind>, i: nat)
    requires i < |ps| && Name(ps[i]) in j && (j[Name(ps[i])] != Null || i == |ps| - 1)
    requires forall h :: 0 <= h < i ==> Name(ps[h]) in j && j[Name(ps[h])] == Null
    ensures FirstNonNull(j, ps) == Ok((ps[i], j[Name(ps[i])]))
  {
    if i > 0 {
      forall h | 0 <= h < i - 1
        ensures Name(ps[1..][h]) in j && j[Name(ps[1..][h])] == Null
      {
        assert ps[1..][h] == ps[h + 1];
      }
      FirstNonNullPicks(j, ps[1..], i - 1);
    }
  }

  /** ... and a missing field after only null fields raises KeyError. */
  lemma {:induction false} FirstNonNullRaises(j: Json, ps: seq<Kind>, i: nat)
    requires i < |ps| && Name(ps[i]) !in j
    requires forall h :: 0 <= h < i ==> Name(ps[h]) in j && j[Name(ps[h])] == Null
    ensures FirstNonNull(j, ps) == Err(KeyError)
  {
    if i > 0 {
      forall h | 0 <= h < i - 1
        ensures Name(ps[1..][h]) in j && j[Name(ps[1..][h])] == Null
      {
        assert ps[1..][h] == ps[h + 1];
      }
      FirstNonNullRaises(j, ps[1..], i - 1);
    }
  }

  /** Traversing.parent: None for the game; otherwise the scope named by the
      first non-null parent field -- the game itself when the field is `game`
      and holds the game's pk, else the loaded scope of that kind, a missing
      one raising ParentScopeNotFound. */
  function ParentOf(g: Graph, s: Scope): (r: Result<Option<Scope>>)
    requires Valid(g)
    ensures r == Ok(None) <==> s.kind == Game
    ensures r.Ok? && r.value.Some? ==>
      var p := r.value.value;
      p.kind in ParentKinds(s.kind) && Depth(p.kind) + 1 == Depth(s.kind) &&
      Name(p.kind) in s.json && s.json[Name(p.kind)] == Pk(p) &&
      (p == g.game || (Pk(p) in Container(g, p.kind).scopes && p == Container(g, p.kind).scopes[Pk(p)]))
    ensures r.Err? ==> r.error == KeyError || r.error == ParentScopeNotFound
  {
    if s.kind == Game then Ok(None)
    else
      TablesAgree(s.kind);
      var field :- FirstNonNull(s.json, ParentKinds(s.kind));
      ParentsAreShallower(s.kind, field.0);
      if field.0 == Game && field.1 == Pk(g.game) then Ok(Some(g.game))
      else match GetScope(g, field.0, field.1)
        case Ok(x) => Ok(Some(x))
        case Err(_) => Err(ParentScopeNotFound)
  }

  /** The parent a non-game scope resolves to is the one its first non-null
      parent field names, and a lookup that misses is reported as
      ParentScopeNotFound (never as a plain ScopeNotFound). */
  lemma ParentResolution(g: Graph, s: Scope, p: Kind)
    requires Valid(g) && s.kind != Game && p in ParentKinds(s.kind)
    requires Name(p) in s.json && s.json[Name(p)] != Null
    requires forall q :: q in ParentKinds(s.kind) && q != p ==> Name(q) in s.json && s.json[Name(q)] == Null
    ensures p == Game && s.json["game"] == Pk(g.game) ==> ParentOf(g, s) == Ok(Some(g.game))
    ensures !(p == Game && s.json["game"] == Pk(g.game)) ==>
      (ParentOf(g, s).Ok? <==> s.json[Name(p)] in Container(g, p).scopes) &&
      (ParentOf(g, s).Err? ==> ParentOf(g, s).error == ParentScopeNotFound)
  {
    var ps := ParentKinds(s.kind);
    var i :| 0 <= i < |ps| && ps[i] == p;
    assert forall h :: 0 <= h < |ps| ==> ps[h] == p || (Name(ps[h]) in s.json && s.json[Name(ps[h])] == Null);
    assert forall h :: 0 <= h < i ==> ps[h] != p by {
      assert |ps| <= 2 && (|ps| == 2 ==> ps[0] != ps[1]);
    }
    FirstNonNullPicks(s.json, ps, i);
  }

  // ----- run and world -----

  /** The loop of Traversing.run after its special cases: climb parents until
      a run, or a scope with no parent, is reached. */
  function WalkToRun(g: Graph, s: Scope): (r: Result<Scope>)
    requires Valid(g)
    ensures r.Ok? && s.kind !in {Game, Phase, Role} ==> r.value.kind == Run
    ensures r.Err? ==> r.error == KeyError || r.error == ParentScopeNotFound
    decreases Depth(s.kind)
  {
    var p :- ParentOf(g, s);
    if p.None? || s.kind == Run then Ok(s) else WalkToRun(g, p.value)
  }

  /** Traversing.run: None for the game, a phase and a role; a scenario
      without a world takes its runuser's run; anything else climbs. */
  function RunOf(g: Graph, s: Scope): (r: Result<Option<Scope>>)
    requires Valid(g)
    ensures r.Ok? ==> (r.value.None? <==> s.kind in {Game, Phase, Role})
    ensures r.Ok? && r.value.Some? ==> r.value.value.kind == Run
  {
    if s.kind in {Game, Phase, Role} then Ok(None)
    else if s.kind == Scenario then
      var w :- Referenced(g, s, World);
      if w.None? then
        var ru :- Referenced(g, s, RunUser);
        if ru.None? then Err(AttributeError) else ParentOf(g, ru.value)
      else
        var x :- WalkToRun(g, s);
        Ok(Some(x))
    else
      var x :- WalkToRun(g, s);
      Ok(Some(x))
  }

  /** The loop of Traversing.world: climb parents until a world, or a scope
      with no parent, is reached. */
  function WalkToWorld(g: Graph, s: Scope): (r: Result<Scope>)
    requires Valid(g)
    ensures r.Ok? ==> r.value.kind == World || r.value.kind == Game
    ensures r.Ok? && s.kind in {Game, Run, Phase, Role, RunUser} ==> r.value.kind == Game
    ensures r.Err? ==> r.error == KeyError || r.error == ParentScopeNotFound
    decreases Depth(s.kind)
  {
    var p :- ParentOf(g, s);
    if p.None? || s.kind == World then Ok(s) else WalkToWorld(g, p.value)
  }

  /** Traversing.world: None above the world level; a runuser or a scenario
      reads its own `world` field; anything else climbs and answers None when
      no world lies on the way to the game. */
  function WorldOf(g: Graph, s: Scope): (r: Result<Option<Scope>>)
    requires Valid(g)
    ensures s.kind in {Game, Run, Phase, Role} ==> r == Ok(None)
    ensures r.Ok? && r.value.Some? ==> r.value.value.kind == World
  {
    if s.kind in {Game, Run, Phase, Role} then Ok(None)
    else if s.kind == RunUser || s.kind == Scenario then Referenced(g, s, World)
    else
      var w :- WalkToWorld(g, s);
      Ok(if w.kind != World then None else Some(w))
  }

  /** A world whose own parent resolves is its own world. */
  lemma WorldOfWorld(g: Graph, w: Scope)
    requires Valid(g) && w.kind == World && ParentOf(g, w).Ok?
    ensures WorldOf(g, w) == Ok(Some(w))
  {
  }

  /** A run whose `game` field holds the game's pk is its own run. */
  lemma RunOfRun(g: Graph, r: Scope)
    requires Valid(g) && r.kind == Run && "game" in r.json && r.json["game"] == Pk(g.game)
    ensures RunOf(g, r) == Ok(Some(r))
  {
    assert FirstNonNull(r.json, ParentKinds(Run)) == Ok((Game, Pk(g.game)));
  }

  /** The climb to the run passes through the world the climb to the world
      stops at. */
  lemma {:induction false} WalkThroughWorld(g: Graph, s: Scope)
    requires Valid(g) && WalkToWorld(g, s).Ok? && WalkToWorld(g, s).value.kind == World
    ensures WalkToRun(g, s) == WalkToRun(g, WalkToWorld(g, s).value)
    decreases Depth(s.kind)
  {
    var p := ParentOf(g, s).value;
    if s.kind != World {
      WalkThroughWorld(g, p.value);
    }
  }

  /** A scope below a world (a period, decision or result reaching one)
      belongs to that world's run. */
  lemma RunOfBelowWorld(g: Graph, s: Scope)
    requires Valid(g) && s.kind in {World, Period, Decision, Result}
    requires WorldOf(g, s).Ok? && WorldOf(g, s).value.Some?
    ensures RunOf(g, s) == RunOf(g, WorldOf(g, s).value.value)
  {
    WalkThroughWorld(g, s);
  }

  // ----- runusers -----

  /** world.runusers: the runusers explicitly assigned to the world. */
  function WorldRunUsers(g: Graph, w: Scope): Result<seq<Scope>>
    requires Valid(g)
  {
    Filter(Container(g, RunUser), [("world", Pk(w))])
  }

  /** The runusers of a scenario: its world's runusers, or just its runuser
      when it has no world; a scenario with neither is reported as
      AttributeError, the error every consumer of the `[None]` list raises. */
  function ScenarioRunUsers(g: Graph, sc: Scope): Result<seq<Scope>>
    requires Valid(g)
  {
    var w :- Referenced(g, sc, World);
    if w.Some? then WorldRunUsers(g, w.value)
    else
      var ru :- Referenced(g, sc, RunUser);
      if ru.None? then Err(AttributeError) else Ok([ru.value])
  }

  /** Every filter of a container keeps members of it. */
  lemma FiltersWithin(m: Manager)
    requires Wf(m)
    ensures forall c :: Filter(m, c).Ok? ==> forall x :: x in Filter(m, c).value ==> x in Members(m)
  {
    forall c | Filter(m, c).Ok? ensures forall x :: x in Filter(m, c).value ==> x in Members(m) {
      FilterWithin(m, c);
    }
  }

  /** Traversing.runusers; None for a phase and a role. */
  function RunUsersOf(g: Graph, s: Scope): (r: Result<Option<seq<Scope>>>)
    requires Valid(g)
    ensures (r.Ok? && r.value.None?) <==> s.kind == Phase || s.kind == Role
    ensures r.Ok? && r.value.Some? ==> forall x :: x in r.value.value ==> x.kind == RunUser
  {
    var rus := Container(g, RunUser);
    ContainerMembers(g, RunUser);
    FiltersWithin(rus);
    if ScenarioLevel(s.kind) then
      var sc :- ScenarioOf(g, s);
      var f :- ScenarioRunUsers(g, sc);
      Ok(Some(f))
    else match s.kind
    case Game => Ok(Some(Members(rus)))
    case Run =>
      var f :- Filter(rus, [("run", Pk(s))]);
      Ok(Some(f))
    case RunUser | World =>
      var run :- RunOf(g, s);
      if run.None? then Err(AttributeError)
      else
        var f :- Filter(rus, [("run", Pk(run.value))]);
        Ok(Some(f))
    case _ => Ok(None)
  }

  /** The kinds that read their runusers from a scenario. */
  predicate ScenarioLevel(k: Kind)
  {
    k == Scenario || k == Period || k == Decision || k == Result
  }

  /** The scenario whose runusers a scenario-level scope has: the scope
      itself, a period's parent, or the parent of a decision's or result's
      period. */
  function ScenarioOf(g: Graph, s: Scope): (r: Result<Scope>)
    requires Valid(g) && ScenarioLevel(s.kind)
    ensures s.kind == Scenario ==> r == Ok(s)
    ensures r.Ok? ==> r.value.kind == Scenario
    ensures r.Ok? && s.kind == Period ==> ParentOf(g, s) == Ok(Some(r.value))
    ensures r.Ok? && (s.kind == Decision || s.kind == Result) ==>
      ParentOf(g, s).Ok? && ParentOf(g, s).value.Some? &&
      ParentOf(g, ParentOf(g, s).value.value) == Ok(Some(r.value))
    ensures r.Err? ==> s.kind != Scenario && (r.error == KeyError || r.error == ParentScopeNotFound)
    ensures r.Err? && s.kind == Period ==> ParentOf(g, s) == Err(r.error)
  {
    match s.kind
    case Scenario => Ok(s)
    case Period =>
      var sc :- ParentOf(g, s);
      Ok(sc.value)
    case Decision | Result =>
      var pe :- ParentOf(g, s);
      var sc :- ParentOf(g, pe.value);
      Ok(sc.value)
  }

  /** Traversing.get_runusers(leader): a world gives its own runusers unless
      `leader is False` fails, in which case the whole run's; a runuser gives
      itself; deeper kinds ask their world, else their run, else raise
      ValueError. */
  function GetRunUsers(g: Graph, s: Scope, leader: Value): (r: Result<seq<Scope>>)
    requires Valid(g)
    ensures r.Ok? ==> forall x :: x in r.value ==> x.kind == RunUser
    decreases if s.kind in {Game, Run, World, RunUser} then 0 else 1
  {
    var rus := Container(g, RunUser);
    ContainerMembers(g, RunUser);
    FilterWithin(rus, [("run", Pk(s))]);
    FilterWithin(rus, [("world", Pk(s))]);
    match s.kind
    case Game => Ok(Members(rus))
    case Run => Filter(rus, [("run", Pk(s))])
    case World =>
      if leader == Bool(false) then Filter(rus, [("world", Pk(s))])
      else
        var p :- ParentOf(g, s);
        if p.None? then Err(AttributeError)
        else
          FilterWithin(rus, [("run", Pk(p.value))]);
          Filter(rus, [("run", Pk(p.value))])
    case RunUser => Ok([s])
    case Phase | Role =>
      // neither a world nor a run: the final raise
      Err(ValueError)
    case Scenario | Period | Decision | Result =>
      var w :- WorldOf(g, s);
      if w.Some? then GetRunUsers(g, w.value, leader)
      else
        var run :- RunOf(g, s);
        if run.Some? then GetRunUsers(g, run.value, leader)
        else Err(ValueError)
  }

  /** The `user` field of each runuser, in order. */
  function UserIds(rus: seq<Scope>): (r: Result<seq<Value>>)
    ensures r.Ok? <==> forall i :: 0 <= i < |rus| ==> "user" in rus[i].json
    ensures r.Ok? ==> |r.value| == |rus| && forall i :: 0 <= i < |rus| ==> r.value[i] == rus[i].json["user"]
    ensures r.Err? ==> r.error == KeyError
  {
    if rus == [] then Ok([])
    else
      var id :- Field(rus[0].json, "user");
      var rest :- UserIds(rus[1..]);
      Ok([id] + rest)
  }

  /** Traversing.get_user_ids(leader) */
  function GetUserIds(g: Graph, s: Scope, leader: Value): Result<seq<Value>>
    requires Valid(g)
  {
    var rus :- GetRunUsers(g, s, leader);
    UserIds(rus)
  }

  // ----- properties of the runuser queries -----

  /** A game sees every runuser, a runuser only itself, and a run the
      runusers whose `run` is its pk. */
  lemma GetRunUsersOfRun(g: Graph, s: Scope, leader: Value)
    requires Valid(g) && Consistent(g)
    ensures s.kind == Game ==> GetRunUsers(g, s, leader) == Ok(Members(Container(g, RunUser)))
    ensures s.kind == RunUser ==> GetRunUsers(g, s, leader) == Ok([s])
    ensures s.kind == Run ==>
      GetRunUsers(g, s, leader).Ok? &&
      forall x :: x in GetRunUsers(g, s, leader).value <==>
        x in Members(Container(g, RunUser)) && "run" in x.json && x.json["run"] == Pk(s)
  {
    if s.kind == Run {
      RunUserFilter(g, "run", Pk(s));
    }
  }

  /** Filtering the runusers on `run` or `world` keeps exactly those with
      that value. */
  lemma RunUserFilter(g: Graph, a: string, v: Value)
    requires Valid(g) && Consistent(g) && (a == "run" || a == "world")
    ensures Filter(Container(g, RunUser), [(a, v)]).Ok?
    ensures forall x :: x in Filter(Container(g, RunUser), [(a, v)]).value <==>
      x in Members(Container(g, RunUser)) && a in x.json && x.json[a] == v
  {
    ContainerConsistent(g, RunUser);
    FilterByIndex(Container(g, RunUser), a, v);
  }

  /** With leader False a world sees the runusers whose `world` is its pk;
      with any other leader value, those of its parent run. */
  lemma GetRunUsersOfWorld(g: Graph, s: Scope, leader: Value)
    requires Valid(g) && Consistent(g) && s.kind == World
    ensures leader == Bool(false) ==>
      GetRunUsers(g, s, leader).Ok? &&
      forall x :: x in GetRunUsers(g, s, leader).value <==>
        x in Members(Container(g, RunUser)) && "world" in x.json && x.json["world"] == Pk(s)
    ensures leader != Bool(false) && ParentOf(g, s).Ok? ==>
      GetRunUsers(g, s, leader).Ok? &&
      forall x :: x in GetRunUsers(g, s, leader).value <==>
        x in Members(Container(g, RunUser)) && "run" in x.json &&
        x.json["run"] == Pk(ParentOf(g, s).value.value)
  {
    if leader == Bool(false) {
      RunUserFilter(g, "world", Pk(s));
    } else if ParentOf(g, s).Ok? {
      RunUserFilter(g, "run", Pk(ParentOf(g, s).value.value));
    }
  }

  /** A scope below the world level asks its world when it has one, and
      otherwise its run; a phase or role raises ValueError. */
  lemma GetRunUsersDelegates(g: Graph, s: Scope, leader: Value)
    requires Valid(g) && s.kind !in {Game, Run, World, RunUser}
    ensures WorldOf(g, s).Ok? && WorldOf(g, s).value.Some? ==>
      GetRunUsers(g, s, leader) == GetRunUsers(g, WorldOf(g, s).value.value, leader)
    ensures WorldOf(g, s) == Ok(None) && RunOf(g, s).Ok? && RunOf(g, s).value.Some? ==>
      GetRunUsers(g, s, leader) == GetRunUsers(g, RunOf(g, s).value.value, leader)
    ensures s.kind in {Phase, Role} ==> GetRunUsers(g, s, leader) == Err(ValueError)
  {
  }

  /** get_user_ids lists the `user` of each runuser get_runusers gives, in
      order, and raises KeyError on a runuser without one. */
  lemma UserIdsOfRunUsers(g: Graph, s: Scope, leader: Value)
    requires Valid(g) && GetRunUsers(g, s, leader).Ok?
    ensures var rus := GetRunUsers(g, s, leader).value;
      (GetUserIds(g, s, leader).Ok? <==> forall i :: 0 <= i < |rus| ==> "user" in rus[i].json) &&
      (GetUserIds(g, s, leader).Ok? ==>
        |GetUserIds(g, s, leader).value| == |rus| &&
        forall i :: 0 <= i < |rus| ==> GetUserIds(g, s, leader).value[i] == rus[i].json["user"])
  {
  }

  /** The runusers of a run, a world or a runuser are those of the owning
      run. */
  lemma RunUsersOfRunLevel(g: Graph, s: Scope)
    requires Valid(g) && Consistent(g) && s.kind in {Run, RunUser, World}
    requires RunOf(g, s).Ok?
    ensures RunUsersOf(g, s).Ok? && RunUsersOf(g, s).value.Some?
    ensures forall x :: x in RunUsersOf(g, s).value.value <==>
      x in Members(Container(g, RunUser)) && "run" in x.json && x.json["run"] == Pk(RunOf(g, s).value.value)
  {
    RunUserFilter(g, "run", Pk(RunOf(g, s).value.value));
    if s.kind == Run {
      assert RunOf(g, s) == Ok(Some(s));
    }
  }

  /** A scope of a scenario-level kind takes its runusers from its
      scenario: those of the scenario's world when it has one, else the
      scenario's runuser alone, else AttributeError; a failed lookup on the
      way raises.  Phases and roles have none. */
  lemma RunUsersOfScenario(g: Graph, s: Scope)
    requires Valid(g) && Consistent(g)
    ensures s.kind == Phase || s.kind == Role ==> RunUsersOf(g, s) == Ok(None)
    ensures ScenarioLevel(s.kind) && ScenarioOf(g, s).Err? ==> RunUsersOf(g, s) == Err(ScenarioOf(g, s).error)
    ensures ScenarioLevel(s.kind) && ScenarioOf(g, s).Ok? ==>
      var sc := ScenarioOf(g, s).value;
      (Referenced(g, sc, World).Err? ==> RunUsersOf(g, s) == Err(Referenced(g, sc, World).error)) &&
      (Referenced(g, sc, World).Ok? && Referenced(g, sc, World).value.Some? ==>
        RunUsersOf(g, s).Ok? && RunUsersOf(g, s).value.Some? &&
        forall x :: x in RunUsersOf(g, s).value.value <==>
          x in Members(Container(g, RunUser)) && "world" in x.json && x.json["world"] == sc.json["world"])
    ensures ScenarioLevel(s.kind) && ScenarioOf(g, s).Ok? ==>
      var sc := ScenarioOf(g, s).value;
      Referenced(g, sc, World) == Ok(None) ==>
        (Referenced(g, sc, RunUser).Err? ==> RunUsersOf(g, s) == Err(Referenced(g, sc, RunUser).error)) &&
        (Referenced(g, sc, RunUser) == Ok(None) ==> RunUsersOf(g, s) == Err(AttributeError)) &&
        (Referenced(g, sc, RunUser).Ok? && Referenced(g, sc, RunUser).value.Some? ==>
          RunUsersOf(g, s) == Ok(Some([Referenced(g, sc, RunUser).value.value])))
  {
    if ScenarioLevel(s.kind) && ScenarioOf(g, s).Ok? {
      var sc := ScenarioOf(g, s).value;
      var w := Referenced(g, sc, World);
      if w.Ok? && w.value.Some? {
        assert Name(World) == "world";
        RunUserFilter(g, "world", sc.json["world"]);
        var f := Filter(Container(g, RunUser), [("world", sc.json["world"])]);
        assert ScenarioRunUsers(g, sc) == f;
        assert RunUsersOf(g, s) == Ok(Some(f.value));
      }
    }
  }

  // ----- children -----

  /** child_scopes_resources of each scope class. */
  function ChildKinds(k: Kind): seq<Kind>
  {
    match k
    case Game => [Run, Phase, Role]
    case Run => [RunUser, World]
    case World => [Scenario]
    case RunUser => [Scenario]
    case Scenario => [Period]
    case Period => [Decision, Result]
    case _ => []
  }

  /** The child kinds are exactly the kinds that name this one as a
      candidate parent. */
  lemma ChildParentInverse(c: Kind, p: Kind)
    ensures c in ChildKinds(p) <==> p in ParentKinds(c)
  {
  }

  lemma ChildrenAreDeeper(k: Kind, c: Kind)
    requires c in ChildKinds(k)
    ensures Depth(c) == Depth(k) + 1
  {
    ChildParentInverse(c, k);
    ParentsAreShallower(c, k);
  }

  /** One group per kind of `ks`, in order, each holding scopes of its
      kind. */
  predicate KindGroups(gs: seq<(Kind, seq<Scope>)>, ks: seq<Kind>)
  {
    |gs| == |ks| &&
    (forall i :: 0 <= i < |ks| ==> gs[i].0 == ks[i]) &&
    (forall i, x :: 0 <= i < |ks| && x in gs[i].1 ==> x.kind == ks[i])
  }

  /** Filter each child container by {own kind: own pk}. */
  function ChildGroups(g: Graph, s: Scope, ks: seq<Kind>): (r: Result<seq<(Kind, seq<Scope>)>>)
    requires Valid(g)
    ensures r.Ok? ==> KindGroups(r.value, ks)
    ensures r.Ok? ==> forall i, x :: 0 <= i < |ks| && x in r.value[i].1 ==> Indexable(x)
  {
    if ks == [] then Ok([])
    else
      FilterWithin(Container(g, ks[0]), [(Name(s.kind), Pk(s))]);
      ContainerMembers(g, ks[0]);
      var grp :- Filter(Container(g, ks[0]), [(Name(s.kind), Pk(s))]);
      var rest :- ChildGroups(g, s, ks[1..]);
      Ok([(ks[0], grp)] + rest)
  }

  /** Traversing.child_scopes, in the declared order of the child kinds. */
  function ChildScopes(g: Graph, s: Scope): Result<seq<(Kind, seq<Scope>)>>
    requires Valid(g)
  {
    ChildGroups(g, s, ChildKinds(s.kind))
  }

  /** One group per child kind, in order, each holding scopes of its kind. */
  lemma ChildScopesShape(g: Graph, s: Scope)
    requires Valid(g) && ChildScopes(g, s).Ok?
    ensures KindGroups(ChildScopes(g, s).value, ChildKinds(s.kind))
  {
  }

  /** Every child scope found is fit for its container's indexes. */
  lemma ChildScopesIndexable(g: Graph, s: Scope)
    requires Valid(g) && ChildScopes(g, s).Ok?
    ensures forall i, x :: 0 <= i < |ChildScopes(g, s).value| && x in ChildScopes(g, s).value[i].1 ==> Indexable(x)
  {
    var ks := ChildKinds(s.kind);
    assert ChildScopes(g, s) == ChildGroups(g, s, ks);
  }

  /** With consistent indexes, the group of one child kind holds exactly
      the scopes of that kind whose reference field for this scope's kind is
      its pk ... */
  lemma ChildGroupMeaning(g: Graph, s: Scope, c: Kind)
    requires Valid(g) && Consistent(g) && s.kind in ParentKinds(c)
    ensures Filter(Container(g, c), [(Name(s.kind), Pk(s))]).Ok?
    ensures forall x :: x in Filter(Container(g, c), [(Name(s.kind), Pk(s))]).value <==>
      x in Members(Container(g, c)) && Name(s.kind) in x.json && x.json[Name(s.kind)] == Pk(s)
  {
    var a := Name(s.kind);
    var m := Container(g, c);
    ContainerConsistent(g, c);
    assert forall k :: k in m.scopes ==> a in IndexNames(m.scopes[k].kind) by {
      TablesAgree(c);
      FilterAttributesExtendParents(c);
      assert s.kind in FilterKinds(c);
      var i :| 0 <= i < |FilterKinds(c)| && FilterKinds(c)[i] == s.kind;
      assert IndexNames(c)[i] == a;
    }
    FilterByIndex(m, a, Pk(s));
  }

  /** ... and so does every group of child_scopes. */
  lemma {:induction false} ChildGroupsMeaning(g: Graph, s: Scope, ks: seq<Kind>)
    requires Valid(g) && Consistent(g)
    requires forall c :: c in ks ==> s.kind in ParentKinds(c)
    ensures ChildGroups(g, s, ks).Ok?
    ensures forall i :: 0 <= i < |ks| ==>
      Filter(Container(g, ks[i]), [(Name(s.kind), Pk(s))]).Ok? &&
      ChildGroups(g, s, ks).value[i].1 == Filter(Container(g, ks[i]), [(Name(s.kind), Pk(s))]).value
  {
    if ks != [] {
      ChildGroupMeaning(g, s, ks[0]);
      ChildGroupsMeaning(g, s, ks[1..]);
      var r := ChildGroups(g, s, ks).value;
      forall i | 0 < i < |ks|
        ensures Filter(Container(g, ks[i]), [(Name(s.kind), Pk(s))]).Ok?
        ensures r[i].1 == Filter(Container(g, ks[i]), [(Name(s.kind), Pk(s))]).value
      {
        assert r[i] == ChildGroups(g, s, ks[1..]).value[i - 1];
        assert ks[i] == ks[1..][i - 1];
      }
    }
  }

  lemma ChildScopesMeaning(g: Graph, s: Scope)
    requires Valid(g) && Consistent(g)
    ensures ChildScopes(g, s).Ok?
    ensures |ChildScopes(g, s).value| == |ChildKinds(s.kind)|
    ensures forall i, x :: 0 <= i < |ChildKinds(s.kind)| ==>
      ChildScopes(g, s).value[i].0 == ChildKinds(s.kind)[i] &&
      (x in ChildScopes(g, s).value[i].1 <==>
        x in Members(Container(g, ChildKinds(s.kind)[i])) &&
        Name(s.kind) in x.json && x.json[Name(s.kind)] == Pk(s))
  {
    var ks := ChildKinds(s.kind);
    forall c | c in ks ensures s.kind in ParentKinds(c) {
      ChildParentInverse(c, s.kind);
    }
    ChildGroupsMeaning(g, s, ks);
    forall i | 0 <= i < |ks| {
      ChildGroupMeaning(g, s, ks[i]);
    }
  }

  // ----- for_user -----

  /** A SimplUser: its pk and the runuser attached to it, if any. */
  datatype User = User(pk: Value, runuser: Option<Scope>)

  /** user.runuser.leader */
  function Leader(u: User): (r: Result<Value>)
    ensures r.Ok? <==> u.runuser.Some? && "leader" in u.runuser.value.json
  {
    if u.runuser.None? then Err(AttributeError) else Field(u.runuser.value.json, "leader")
  }

  /** The scopes of `ms` whose user ids include the user, in order. */
  function Accessible(g: Graph, ms: seq<Scope>, u: User): (r: Result<seq<Scope>>)
    requires Valid(g)
    ensures r.Ok? ==> IsSubseq(r.value, ms) && forall x :: x in r.value ==> x in ms
  {
    if ms == [] then Ok([])
    else
      var leader :- Leader(u);
      var ids :- GetUserIds(g, ms[0], leader);
      var rest :- Accessible(g, ms[1..], u);
      if u.pk in ids then
        assert ([ms[0]] + rest)[1..] == rest;
        Ok([ms[0]] + rest)
      else Ok(rest)
  }

  /** manager.for_user(user): a new manager of the members the user may
      access. */
  function ForUser(g: Graph, m: Manager, u: User): Result<Manager>
    requires Valid(g) && Wf(m)
  {
    MemberPks(m);
    var kept :- Accessible(g, Members(m), u);
    Ok(Build(kept))
  }

  lemma {:induction false} AccessibleMeaning(g: Graph, ms: seq<Scope>, u: User)
    requires Valid(g)
    ensures Accessible(g, ms, u).Ok? <==>
      (ms == [] || (Leader(u).Ok? && forall x :: x in ms ==> GetUserIds(g, x, Leader(u).value).Ok?))
    ensures Accessible(g, ms, u).Ok? && ms != [] ==>
      forall x :: x in Accessible(g, ms, u).value <==>
        x in ms && u.pk in GetUserIds(g, x, Leader(u).value).value
  {
    if ms != [] {
      AccessibleMeaning(g, ms[1..], u);
      if Leader(u).Ok? && forall x :: x in ms[1..] ==> GetUserIds(g, x, Leader(u).value).Ok? {
        if ms[1..] == [] {
          assert Accessible(g, ms[1..], u) == Ok([]);
        }
      }
    }
  }

  /** for_user keeps, in insertion order, exactly the members whose
      get_user_ids(leader=user.runuser.leader) contains the user's pk. */
  lemma ForUserMeaning(g: Graph, m: Manager, u: User)
    requires Valid(g) && Wf(m) && ForUser(g, m, u).Ok?
    ensures Wf(ForUser(g, m, u).value)
    ensures IsSubseq(Members(ForUser(g, m, u).value), Members(m))
    ensures m.order != [] ==>
      Leader(u).Ok? &&
      forall x :: x in Members(ForUser(g, m, u).value) <==>
        x in Members(m) && GetUserIds(g, x, Leader(u).value).Ok? &&
        u.pk in GetUserIds(g, x, Leader(u).value).value
  {
    var ms := Members(m);
    var kept := Accessible(g, ms, u).value;
    assert Distinct(PkSeq(kept)) by {
      MembersPkSeq(m);
      SubseqDistinct(kept, ms);
    }
    assert AllIndexable(kept) by {
      MemberPks(m);
    }
    BuildLists(kept);
    AccessibleMeaning(g, ms, u);
  }

  // ----- the traversal object -----

  /** A scope's Traversing helper (scope.my), with its cached parent. */
  class Traversal {
    const scope: Scope
    var cached: Option<Option<Scope>>

    constructor (s: Scope)
      ensures scope == s && cached == None
    {
      scope := s;
      cached := None;
    }

    /** The cached_property parent: computed once, on the first successful
        read, and returned unchanged afterwards. */
    method Parent(g: Graph) returns (r: Result<Option<Scope>>)
      requires Valid(g)
      modifies this
      ensures old(cached).Some? ==> r == Ok(old(cached).value) && cached == old(cached)
      ensures old(cached).None? ==> r == ParentOf(g, scope) && cached == (if r.Ok? then Some(r.value) else None)
    {
      if cached.Some? {
        return Ok(cached.value);
      }
      r := ParentOf(g, scope);
      if r.Ok? {
        cached := Some(r.value);
      }
    }

    /** Traversing.run, with its climbing loop. */
    method Run(g: Graph) returns (r: Result<Option<Scope>>)
      requires Valid(g)
      ensures r == RunOf(g, scope)
    {
      if scope.kind in {Game, Phase, Role} {
        return Ok(None);
      }
      if scope.kind == Scenario {
        var w := Referenced(g, scope, Kind.World);
        if w.Err? {
          return Err(w.error);
        }
        if w.value.None? {
          var ru := Referenced(g, scope, RunUser);
          if ru.Err? {
            return Err(ru.error);
          }
          if ru.value.None? {
            return Err(AttributeError);
          }
          return ParentOf(g, ru.value.value);
        }
      }
      var cur := scope;
      while true
        invariant WalkToRun(g, cur) == WalkToRun(g, scope)
        decreases Depth(cur.kind)
      {
        var p := ParentOf(g, cur);
        if p.Err? {
          return Err(p.error);
        }
        if p.value.None? || cur.kind == Kind.Run {
          break;
        }
        cur := p.value.value;
      }
      return Ok(Some(cur));
    }

    /** Traversing.world, with its climbing loop. */
    method World(g: Graph) returns (r: Result<Option<Scope>>)
      requires Valid(g)
      ensures r == WorldOf(g, scope)
    {
      if scope.kind in {Game, Kind.Run, Phase, Role} {
        return Ok(None);
      }
      if scope.kind == RunUser || scope.kind == Scenario {
        return Referenced(g, scope, Kind.World);
      }
      var cur := scope;
      while true
        invariant WalkToWorld(g, cur) == WalkToWorld(g, scope)
        decreases Depth(cur.kind)
      {
        var p := ParentOf(g, cur);
        if p.Err? {
          return Err(p.error);
        }
        if p.value.None? || cur.kind == Kind.World {
          break;
        }
        cur := p.value.value;
      }
      if cur.kind != Kind.World {
        return Ok(None);
      }
      return Ok(Some(cur));
    }
  }

  /** Once read, the cached parent survives any later change to the graph. */
  method ParentIsMemoised(s: Scope, g1: Graph, g2: Graph) returns (first: Result<Option<Scope>>, second: Result<Option<Scope>>)
    requires Valid(g1) && Valid(g2)
    ensures first == ParentOf(g1, s)
    ensures first.Ok? ==> second == first
    ensures first.Err? ==> second == ParentOf(g2, s)
  {
    var t := new Traversal(s);
    first := t.Parent(g1);
    second := t.Parent(g2);
  }
}
