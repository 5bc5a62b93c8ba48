// Phase stepping of a run: the current phase, the phase of a given order,
// the next and previous ones, and advancing or rolling back the run.
//
// The phases are the members of the game's phase container, in insertion
// order; the run is the loaded run object, and its `phase` field names the
// current phase's pk.  `order` values are compared as Python compares a
// number with an int: an int by value, a bool as 0 or 1, anything else never
// equal.

module Phases {
  import opened Exceptions
  import opened Payload
  import opened Constants
  import opened Managers
  import opened Traversing
  import opened Lifecycle

  /** The int a payload value stands for in arithmetic: ints, and bools as
      0 and 1; None for values `+ 1` raises TypeError on. */
  function Number(v: Value): Option<int>
  {
    match v
    case Int(i) => Some(i)
    case Bool(b) => Some(if b then 1 else 0)
    case _ => None
  }

  /** The first phase whose pk equals `v`. */
  function FirstWithPk(ps: seq<Scope>, v: Value): (r: Option<Scope>)
    ensures r.None? <==> forall x :: x in ps ==> Pk(x) != v
    ensures r.Some? ==> r.value in ps && Pk(r.value) == v
    decreases |ps|
  {
    if ps == [] then None
    else if Pk(ps[0]) == v then Some(ps[0])
    else FirstWithPk(ps[1..], v)
  }

  /** Run.current_phase: the comprehension reads json['phase'] once per
      phase, so it raises KeyError only when there is a phase to test. */
  function CurrentPhase(ps: seq<Scope>, run: Json): (r: Result<Option<Scope>>)
  {
    if ps == [] then Ok(None)
    else if "phase" !in run then Err(KeyError)
    else Ok(FirstWithPk(ps, run["phase"]))
  }

  /** The current phase is the loaded phase the run's `phase` field names;
      there is none exactly when no phase has that pk. */
  lemma CurrentPhaseMeaning(ps: seq<Scope>, run: Json)
    ensures CurrentPhase(ps, run).Err? <==> ps != [] && "phase" !in run
    ensures CurrentPhase(ps, run).Err? ==> CurrentPhase(ps, run).error == KeyError
    ensures CurrentPhase(ps, run) == Ok(None) <==>
      ps == [] || ("phase" in run && forall x :: x in ps ==> Pk(x) != run["phase"])
    ensures CurrentPhase(ps, run).Ok? && CurrentPhase(ps, run).value.Some? ==>
      var p := CurrentPhase(ps, run).value.value;
      "phase" in run && p in ps && Pk(p) == run["phase"]
  {
  }

  /** [phase for phase in phases if phase.json['order'] == order]: every
      phase's `order` is read, so one without it raises KeyError. */
  function OrderMatches(ps: seq<Scope>, o: int): (r: Result<seq<Scope>>)
    ensures r.Ok? <==> forall x :: x in ps ==> "order" in x.json
    ensures r.Err? ==> r.error == KeyError
    ensures r.Ok? ==> forall x :: x in r.value <==> x in ps && Number(x.json["order"]) == Some(o)
    decreases |ps|
  {
    if ps == [] then Ok([])
    else if "order" !in ps[0].json then Err(KeyError)
    else
      var rest :- OrderMatches(ps[1..], o);
      Ok(if Number(ps[0].json["order"]) == Some(o) then [ps[0]] + rest else rest)
  }

  /** The first match is the earliest phase of that order. */
  lemma {:induction false} FirstMatchIsEarliest(ps: seq<Scope>, o: int)
    requires OrderMatches(ps, o).Ok? && OrderMatches(ps, o).value != []
    ensures exists i :: 0 <= i < |ps| && ps[i] == OrderMatches(ps, o).value[0] &&
                        forall j :: 0 <= j < i ==> Number(ps[j].json["order"]) != Some(o)
    decreases |ps|
  {
    if Number(ps[0].json["order"]) != Some(o) {
      assert forall x :: x in ps[1..] ==> x in ps;
      FirstMatchIsEarliest(ps[1..], o);
      var i :| 0 <= i < |ps[1..]| && ps[1..][i] == OrderMatches(ps[1..], o).value[0] &&
        forall j :: 0 <= j < i ==> Number(ps[1..][j].json["order"]) != Some(o);
      assert ps[i + 1] == OrderMatches(ps, o).value[0];
      forall j | 0 <= j < i + 1
        ensures Number(ps[j].json["order"]) != Some(o)
      {
        if j > 0 {
          assert ps[j] == ps[1..][j - 1];
        }
      }
    } else {
      assert ps[0] == OrderMatches(ps, o).value[0];
    }
  }

  /** Run.get_phase(order) */
  function GetPhase(ps: seq<Scope>, run: Json, o: int): (r: Result<Scope>)
  {
    var cur :- CurrentPhase(ps, run);
    if cur.None? then Err(ValueError)
    else
      var ms :- OrderMatches(ps, o);
      if ms == [] then Err(IndexError) else Ok(ms[0])
  }

  /** get_phase raises ValueError without a current phase, KeyError when a
      lookup field is missing, IndexError when no phase has the order, and
      otherwise returns the earliest phase of that order. */
  lemma GetPhaseMeaning(ps: seq<Scope>, run: Json, o: int)
    ensures GetPhase(ps, run, o) == Err(ValueError) <==> CurrentPhase(ps, run) == Ok(None)
    ensures GetPhase(ps, run, o) == Err(IndexError) <==>
      CurrentPhase(ps, run).Ok? && CurrentPhase(ps, run).value.Some? &&
      (forall x :: x in ps ==> "order" in x.json) &&
      forall x :: x in ps ==> Number(x.json["order"]) != Some(o)
    ensures GetPhase(ps, run, o).Ok? ==>
      var p := GetPhase(ps, run, o).value;
      exists i :: 0 <= i < |ps| && ps[i] == p && Number(p.json["order"]) == Some(o) &&
        forall j :: 0 <= j < i ==> Number(ps[j].json["order"]) != Some(o)
  {
    if CurrentPhase(ps, run).Ok? && CurrentPhase(ps, run).value.Some? && OrderMatches(ps, o).Ok? {
      var ms := OrderMatches(ps, o).value;
      if ms != [] {
        assert ms[0] in ms;
        FirstMatchIsEarliest(ps, o);
      }
    }
  }

  /** get_next_phase (delta 1) and get_previous_phase (delta -1): the
      current phase's `order` plus delta; an IndexError becomes ValueError,
      unless building its message reads a `name` the phase lacks.  Without
      a current phase, `phase.json` raises AttributeError. */
  function Neighbour(ps: seq<Scope>, run: Json, delta: int): (r: Result<Scope>)
  {
    var cur :- CurrentPhase(ps, run);
    if cur.None? then Err(AttributeError)
    else if "order" !in cur.value.json then Err(KeyError)
    else match Number(cur.value.json["order"])
      case None => Err(TypeError)
      case Some(o) =>
        var r := GetPhase(ps, run, o + delta);
        if r == Err(IndexError) then (if "name" in cur.value.json then Err(ValueError) else Err(KeyError))
        else r
  }

  function GetNextPhase(ps: seq<Scope>, run: Json): Result<Scope>
  {
    Neighbour(ps, run, 1)
  }

  function GetPreviousPhase(ps: seq<Scope>, run: Json): Result<Scope>
  {
    Neighbour(ps, run, -1)
  }

  /** The neighbour found is a loaded phase whose order is the current
      phase's order plus delta; with no phase of that order the error is
      ValueError (or KeyError for a nameless current phase), never
      IndexError. */
  lemma NeighbourMeaning(ps: seq<Scope>, run: Json, delta: int)
    ensures Neighbour(ps, run, delta) != Err(IndexError)
    ensures Neighbour(ps, run, delta) == Err(AttributeError) <==> CurrentPhase(ps, run) == Ok(None)
    ensures Neighbour(ps, run, delta).Ok? ==>
      var cur := CurrentPhase(ps, run).value.value;
      var p := Neighbour(ps, run, delta).value;
      p in ps && "order" in cur.json && "order" in p.json &&
      Number(cur.json["order"]).Some? && Number(p.json["order"]) == Some(Number(cur.json["order"]).value + delta)
  {
    if Neighbour(ps, run, delta).Ok? {
      var cur := CurrentPhase(ps, run).value.value;
      GetPhaseMeaning(ps, run, Number(cur.json["order"]).value + delta);
    }
  }

  /** Phases with pairwise different pks, as a container's members are. */
  predicate DistinctPks(ps: seq<Scope>)
  {
    forall i, j :: 0 <= i < j < |ps| ==> Pk(ps[i]) != Pk(ps[j])
  }

  /** No two phases share a numeric order. */
  predicate UniqueOrders(ps: seq<Scope>)
  {
    forall i, j :: 0 <= i < j < |ps| && "order" in ps[i].json && "order" in ps[j].json ==>
      Number(ps[i].json["order"]).None? || Number(ps[i].json["order"]) != Number(ps[j].json["order"])
  }

  lemma FirstWithPkOfMember(ps: seq<Scope>, p: Scope)
    requires DistinctPks(ps) && p in ps
    ensures FirstWithPk(ps, Pk(p)) == Some(p)
  {
    var q := FirstWithPk(ps, Pk(p)).value;
    var i :| 0 <= i < |ps| && ps[i] == p;
    var j :| 0 <= j < |ps| && ps[j] == q;
    assert i == j;
  }

  /** Stepping by delta and then by -delta from the phase reached comes
      back to the phase started from, when pks and orders are unique: with
      delta 1 this is get_previous_phase after advancing, with -1
      get_next_phase after rolling back. */
  lemma NeighbourInverse(ps: seq<Scope>, run: Json, delta: int)
    requires DistinctPks(ps) && UniqueOrders(ps)
    requires Neighbour(ps, run, delta).Ok?
    ensures var p := Neighbour(ps, run, delta).value;
      Neighbour(ps, run["phase" := Pk(p)], -delta) == Ok(CurrentPhase(ps, run).value.value)
  {
    var cur := CurrentPhase(ps, run).value.value;
    var o := Number(cur.json["order"]).value;
    var ms := OrderMatches(ps, o + delta).value;
    var p := ms[0];
    assert Neighbour(ps, run, delta) == Ok(p);
    assert p in ms;
    var run2 := run["phase" := Pk(p)];
    FirstWithPkOfMember(ps, p);
    assert CurrentPhase(ps, run2) == Ok(Some(p));
    assert Number(p.json["order"]) == Some(o + delta);
    var back := OrderMatches(ps, o).value;
    assert cur in back;
    var q := back[0];
    assert q in back;
    assert Neighbour(ps, run2, -delta) == Ok(q);
    var a :| 0 <= a < |ps| && ps[a] == q;
    var c :| 0 <= c < |ps| && ps[c] == cur;
    assert a == c;
  }


  // ----- on the graph -----

  /** self.game.phases, iterated. */
  function PhasesOf(g: Graph): (ps: seq<Scope>)
    requires Valid(g)
    ensures DistinctPks(ps)
  {
    var m := Container(g, Phase);
    MemberPks(m);
    Members(m)
  }

  /** A loaded scope takes a new payload in place: same slot, same buckets. */
  function Rewrite(g: Graph, s: Scope, j: Json): (r: Graph)
    requires Valid(g) && GetScope(g, s.kind, Pk(s)) == Ok(s)
    requires Indexable(Scope(s.kind, j)) && FieldOrNull(j, "id") == Pk(s)
    ensures Valid(r) && r.game == g.game
    ensures GetScope(r, s.kind, Pk(s)) == Ok(Scope(s.kind, j))
    ensures forall k :: k != s.kind ==> Container(r, k) == Container(g, k)
  {
    var m := Container(g, s.kind);
    ReplaceKeepsShape(m, s.kind, Pk(s), j);
    SetContainer(g, s.kind, ReplacePayload(m, Pk(s), j))
  }

  /** The server's answer to a save keeps every field sent, the id's value
      among them. */
  ghost predicate KeepsFields(save: Json -> Json)
  {
    forall j :: (forall a :: a in j ==> a in save(j)) && FieldOrNull(save(j), "id") == FieldOrNull(j, "id")
  }

  /** advance_phase (delta 1) and rollback_phase as intended (delta -1):
      the neighbour phase's pk goes into json['phase'] of the loaded run,
      and the payload the save answers with replaces it. */
  function Moved(g: Graph, run: Scope, delta: int, save: Json -> Json): (r: Step)
    requires Valid(g) && run.kind == Run && GetScope(g, Run, Pk(run)) == Ok(run) && KeepsFields(save)
    ensures Valid(r.graph) && r.graph.game == g.game && r.events == []
  {
    match Neighbour(PhasesOf(g), run.json, delta)
    case Err(e) => Step(g, [], Failed(e))
    case Ok(p) =>
      var j := save(run.json["phase" := Pk(p)]);
      Step(Rewrite(g, run, j), [], Done)
  }

  /** A rewrite leaves every other container alone, and the rewritten
      scope's container keeps its slots and buckets. */
  lemma RewriteChangesOnlyTheScope(g: Graph, s: Scope, j: Json)
    requires Valid(g) && GetScope(g, s.kind, Pk(s)) == Ok(s)
    requires Indexable(Scope(s.kind, j)) && FieldOrNull(j, "id") == Pk(s)
    ensures var r := Rewrite(g, s, j);
      (forall k :: k != s.kind ==> Container(r, k) == Container(g, k)) &&
      Container(r, s.kind).order == Container(g, s.kind).order &&
      Container(r, s.kind).indexes == Container(g, s.kind).indexes &&
      Container(r, s.kind).scopes.Keys == Container(g, s.kind).scopes.Keys &&
      forall pk :: pk in Container(g, s.kind).scopes && pk != Pk(s) ==>
        Container(r, s.kind).scopes[pk] == Container(g, s.kind).scopes[pk]
  {
    var m := Container(g, s.kind);
    var m1 := ReplacePayload(m, Pk(s), j);
    assert Container(Rewrite(g, s, j), s.kind) == m1;
    assert m1.scopes.Keys == m.scopes.Keys;
  }

  /** The phase change leaves every container but the runs' alone, and the
      runs' container has the same slots and buckets. */
  lemma MovedChangesOnlyTheRun(g: Graph, run: Scope, delta: int, save: Json -> Json)
    requires Valid(g) && run.kind == Run && GetScope(g, Run, Pk(run)) == Ok(run) && KeepsFields(save)
    ensures var r := Moved(g, run, delta, save).graph;
      (forall k :: k != Run ==> Container(r, k) == Container(g, k)) &&
      Container(r, Run).order == Container(g, Run).order &&
      Container(r, Run).indexes == Container(g, Run).indexes &&
      Container(r, Run).scopes.Keys == Container(g, Run).scopes.Keys &&
      forall pk :: pk in Container(g, Run).scopes && pk != Pk(run) ==>
        Container(r, Run).scopes[pk] == Container(g, Run).scopes[pk]
  {
    match Neighbour(PhasesOf(g), run.json, delta)
    case Err(_) =>
    case Ok(p) =>
      var j := save(run.json["phase" := Pk(p)]);
      assert Moved(g, run, delta, save).graph == Rewrite(g, run, j);
      RewriteChangesOnlyTheScope(g, run, j);
  }

  /** A second rewrite of the same scope is the only one that shows. */
  lemma RewriteTwice(g: Graph, s: Scope, j1: Json, j2: Json)
    requires Valid(g) && GetScope(g, s.kind, Pk(s)) == Ok(s)
    requires Indexable(Scope(s.kind, j1)) && FieldOrNull(j1, "id") == Pk(s)
    requires Indexable(Scope(s.kind, j2)) && FieldOrNull(j2, "id") == Pk(s)
    ensures Rewrite(Rewrite(g, s, j1), Scope(s.kind, j1), j2) == Rewrite(g, s, j2)
  {
    var k, pk := s.kind, Pk(s);
    var m := Container(g, k);
    var m1, m2 := ReplacePayload(m, pk, j1), ReplacePayload(m, pk, j2);
    var g1 := Rewrite(g, s, j1);
    assert g1 == Graph(g.game, g.scopes[k := m1]);
    assert Pk(Scope(k, j1)) == pk;
    assert Container(g1, k) == m1;
    assert m1.scopes[pk := Scope(k, j2)] == m2.scopes;
    assert ReplacePayload(m1, pk, j2) == m2;
    assert g.scopes[k := m1][k := m2] == g.scopes[k := m2];
  }

  /** Rewriting a scope with its own payload changes nothing. */
  lemma RewriteSame(g: Graph, s: Scope)
    requires Valid(g) && GetScope(g, s.kind, Pk(s)) == Ok(s)
    ensures Indexable(s) && FieldOrNull(s.json, "id") == Pk(s)
    ensures Rewrite(g, s, s.json) == g
  {
    var m := Container(g, s.kind);
    assert ReplacePayload(m, Pk(s), s.json) == m;
    assert s.kind in g.scopes && g.scopes[s.kind := m] == g.scopes;
  }

  /** A save that answers with exactly what it is sent. */
  ghost predicate Echoes(save: Json -> Json)
  {
    forall j :: save(j) == j
  }

  lemma EchoesKeepsFields(save: Json -> Json)
    requires Echoes(save)
    ensures KeepsFields(save)
  {
  }

  /** Rewriting a run leaves the phases as they were. */
  lemma RewriteKeepsPhases(g: Graph, run: Scope, j: Json)
    requires Valid(g) && run.kind == Run && GetScope(g, Run, Pk(run)) == Ok(run)
    requires Indexable(Scope(Run, j)) && FieldOrNull(j, "id") == Pk(run)
    ensures PhasesOf(Rewrite(g, run, j)) == PhasesOf(g)
  {
  }

  /** A phase change of an echoing save writes the neighbour's pk into the
      run's payload and nothing else. */
  lemma MovedByEcho(g: Graph, run: Scope, delta: int, save: Json -> Json)
    requires Valid(g) && run.kind == Run && GetScope(g, Run, Pk(run)) == Ok(run) && Echoes(save)
    requires Neighbour(PhasesOf(g), run.json, delta).Ok?
    ensures KeepsFields(save)
    ensures var j := run.json["phase" := Pk(Neighbour(PhasesOf(g), run.json, delta).value)];
      Indexable(Scope(Run, j)) && FieldOrNull(j, "id") == Pk(run) &&
      Moved(g, run, delta, save) == Step(Rewrite(g, run, j), [], Done)
  {
  }

  /** Moving a rewritten run by the echoing save back to the payload it had
      before gives the graph back. */
  lemma MovedBackByEcho(g: Graph, run: Scope, j: Json, delta: int, save: Json -> Json)
    requires Valid(g) && run.kind == Run && GetScope(g, Run, Pk(run)) == Ok(run) && Echoes(save)
    requires Indexable(Scope(Run, j)) && FieldOrNull(j, "id") == Pk(run)
    requires Neighbour(PhasesOf(Rewrite(g, run, j)), j, delta).Ok?
    requires j["phase" := Pk(Neighbour(PhasesOf(Rewrite(g, run, j)), j, delta).value)] == run.json
    ensures KeepsFields(save)
    ensures Moved(Rewrite(g, run, j), Scope(Run, j), delta, save) == Step(g, [], Done)
  {
    var g1 := Rewrite(g, run, j);
    MovedByEcho(g1, Scope(Run, j), delta, save);
    RewriteTwice(g, run, j, run.json);
    RewriteSame(g, run);
  }

  /** Writing a field and then its old value back gives the payload back. */
  lemma SetBack(j: Json, a: string, v: Value)
    requires a in j
    ensures j[a := v][a := j[a]] == j
  {
  }

  /** With a save that answers with what it is sent, advancing writes the
      next phase's pk into the run, and rolling back afterwards restores
      the graph exactly. */
  lemma AdvanceThenRollback(g: Graph, run: Scope, save: Json -> Json)
    requires Valid(g) && run.kind == Run && GetScope(g, Run, Pk(run)) == Ok(run)
    requires Echoes(save) && UniqueOrders(PhasesOf(g))
    requires GetNextPhase(PhasesOf(g), run.json).Ok?
    ensures KeepsFields(save)
    ensures var p := GetNextPhase(PhasesOf(g), run.json).value;
      var run2 := Scope(Run, run.json["phase" := Pk(p)]);
      Moved(g, run, 1, save).status == Done &&
      GetScope(Moved(g, run, 1, save).graph, Run, Pk(run)) == Ok(run2) &&
      Moved(Moved(g, run, 1, save).graph, run2, -1, save) == Step(g, [], Done)
  {
    EchoesKeepsFields(save);
    var ps := PhasesOf(g);
    var p := GetNextPhase(ps, run.json).value;
    var j := run.json["phase" := Pk(p)];
    MovedByEcho(g, run, 1, save);
    assert Moved(g, run, 1, save).status == Done;
    assert GetScope(Moved(g, run, 1, save).graph, Run, Pk(run)) == Ok(Scope(Run, j));
    var g1 := Rewrite(g, run, j);
    RewriteKeepsPhases(g, run, j);
    NeighbourInverse(ps, run.json, 1);
    var cur := CurrentPhase(ps, run.json).value.value;
    assert Neighbour(PhasesOf(g1), j, -1) == Ok(cur);
    assert "phase" in run.json && Pk(cur) == run.json["phase"];
    SetBack(run.json, "phase", Pk(p));
    assert j["phase" := Pk(cur)] == run.json;
    MovedBackByEcho(g, run, j, -1, save);
  }

  // ----- rollback_phase as written -----

  /** rollback_phase as written: get_previous_phase is a coroutine function
      called without await, so `previous_phase.pk` is looked up on the
      coroutine object and raises AttributeError before anything is
      written. */
  function RollbackAsWritten(g: Graph, run: Scope): Step
  {
    Step(g, [], Failed(AttributeError))
  }

  /** The next phase is another phase than the current one: its pk is not
      the one the run names. */
  lemma NextPhaseDiffers(ps: seq<Scope>, run: Json)
    requires DistinctPks(ps) && GetNextPhase(ps, run).Ok?
    ensures "phase" in run && run["phase"] != Pk(GetNextPhase(ps, run).value)
  {
    var cur := CurrentPhase(ps, run).value.value;
    var o := Number(cur.json["order"]).value;
    var p := OrderMatches(ps, o + 1).value[0];
    assert GetNextPhase(ps, run) == Ok(p);
    assert p in OrderMatches(ps, o + 1).value;
    assert Number(p.json["order"]) == Some(o + 1);
    assert p != cur;
    var a :| 0 <= a < |ps| && ps[a] == p;
    var b :| 0 <= b < |ps| && ps[b] == cur;
  }

  /** The phase advanced to differs from the current one, so the advance
      really changes the graph; the rollback as written then fails and the
      run stays at the advanced phase, where the intended rollback
      (AdvanceThenRollback) gives the original graph back. */
  lemma RollbackAsWrittenKeepsAdvance(g: Graph, run: Scope, save: Json -> Json)
    requires Valid(g) && run.kind == Run && GetScope(g, Run, Pk(run)) == Ok(run) && Echoes(save)
    requires GetNextPhase(PhasesOf(g), run.json).Ok?
    ensures KeepsFields(save)
    ensures var g1 := Moved(g, run, 1, save).graph;
      var run2 := Scope(Run, run.json["phase" := Pk(GetNextPhase(PhasesOf(g), run.json).value)]);
      GetScope(g1, Run, Pk(run)) == Ok(run2) &&
      RollbackAsWritten(g1, run2) == Step(g1, [], Failed(AttributeError)) && g1 != g
  {
    MovedByEcho(g, run, 1, save);
    NextPhaseDiffers(PhasesOf(g), run.json);
    var run2 := Scope(Run, run.json["phase" := Pk(GetNextPhase(PhasesOf(g), run.json).value)]);
    assert run2.json["phase"] != run.json["phase"];
  }


}
