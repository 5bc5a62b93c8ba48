// Bulk restore of a game's scopes from the games API: every page of every
// endpoint, following `next` links; one scope per fetched payload; one
// container per endpoint, refused when two payloads share an id.
//
// The API is a function from request to page, the same on every call.  A
// payload without `id` would be saved first; what the server then answers is
// the function `saved`.

module Restoring {
  import opened Exceptions
  import opened Payload
  import opened Constants
  import opened Managers
  import opened Traversing
  import opened Lifecycle

  /** The first request of an endpoint (`filter(game_slug=...)`) or a
      followed `next` link. */
  datatype Request = First(endpoint: string, slug: string) | Link(url: string)

  /** One page of results and the `next` link, if any. */
  datatype Page = Page(items: seq<Json>, next: Option<string>)

  /** Everything fetched from `req` on, when the chain of `next` links ends
      within `n` pages; None otherwise. */
  function Pages(fetch: Request -> Page, req: Request, n: nat): Option<seq<Json>>
    decreases n
  {
    if n == 0 then None
    else
      var p := fetch(req);
      if p.next.None? then Some(p.items)
      else match Pages(fetch, Link(p.next.value), n - 1)
        case None => None
        case Some(rest) => Some(p.items + rest)
  }

  /** The bound only decides whether the chain is seen to end, never what it
      yields: a larger bound gives the same pages. */
  lemma {:induction false} PagesBoundIrrelevant(fetch: Request -> Page, req: Request, n: nat, m: nat)
    requires Pages(fetch, req, n).Some? && n <= m
    ensures Pages(fetch, req, m) == Pages(fetch, req, n)
    decreases n
  {
    var p := fetch(req);
    if p.next.Some? {
      PagesBoundIrrelevant(fetch, Link(p.next.value), n - 1, m - 1);
    }
  }

  /** A page that has no `next` link is the last one: its items are all. */
  lemma PagesOfLastPage(fetch: Request -> Page, req: Request, n: nat)
    requires n > 0 && fetch(req).next.None?
    ensures Pages(fetch, req, n) == Some(fetch(req).items)
  {
  }

  /** The while loop of restore_endpoint: fetch, accumulate, follow the link
      until there is none. */
  method FetchAll(fetch: Request -> Page, endpoint: string, slug: string, ghost n: nat) returns (results: seq<Json>)
    requires Pages(fetch, First(endpoint, slug), n).Some?
    ensures results == Pages(fetch, First(endpoint, slug), n).value
  {
    var req := First(endpoint, slug);
    results := [];
    ghost var left := n;
    while true
      invariant Pages(fetch, req, left).Some?
      invariant Pages(fetch, First(endpoint, slug), n).value == results + Pages(fetch, req, left).value
      decreases left
    {
      var page := fetch(req);
      if page.next.Some? {
        assert Pages(fetch, req, left).value == page.items + Pages(fetch, Link(page.next.value), left - 1).value;
        results := results + page.items;
        req := Link(page.next.value);
        left := left - 1;
      } else {
        results := results + page.items;
        break;
      }
    }
  }

  /** scope_class.create(json=payload): the scope of that kind; a payload
      without `id` is replaced by the server's answer to saving it. */
  function Created(k: Kind, p: Json, saved: (Kind, Json) -> Json): (s: Scope)
    ensures s.kind == k
    ensures "id" in p ==> s.json == p
  {
    Scope(k, if "id" in p then p else saved(k, p))
  }

  function CreatedAll(k: Kind, ps: seq<Json>, saved: (Kind, Json) -> Json): (r: seq<Scope>)
    ensures |r| == |ps| && forall i :: 0 <= i < |ps| ==> r[i] == Created(k, ps[i], saved)
  {
    seq(|ps|, i requires 0 <= i < |ps| => Created(k, ps[i], saved))
  }

  /** The scope loop of restore_endpoint. */
  method CreateScopes(k: Kind, ps: seq<Json>, saved: (Kind, Json) -> Json) returns (scopes: seq<Scope>)
    ensures scopes == CreatedAll(k, ps, saved)
  {
    scopes := [];
    var i := 0;
    while i < |ps|
      invariant 0 <= i <= |ps| && scopes == CreatedAll(k, ps[..i], saved)
    {
      scopes := scopes + [Created(k, ps[i], saved)];
      i := i + 1;
      assert ps[..i] == ps[..i - 1] + [ps[i - 1]];
    }
    assert ps[..i] == ps;
  }

  /** The manager restore_endpoint is meant to return, from the fetched
      payloads: KeyError when a scope lacks its id or a filter attribute,
      ScopesNotLoaded when there are fewer slots than payloads.  This is the
      corrected restore; RestoredAsWritten is the code's. */
  function Restored(k: Kind, ps: seq<Json>, saved: (Kind, Json) -> Json): (r: Result<Manager>)
    ensures r.Err? ==> r.error == KeyError || r.error == ScopesNotLoaded
  {
    var ss := CreatedAll(k, ps, saved);
    if !AllIndexable(ss) then Err(KeyError)
    else
      var m := Build(ss);
      if |ps| != |m.order| then Err(ScopesNotLoaded) else Ok(m)
  }

  lemma {:induction false} ExtendAllKinds(m: Manager, args: seq<Scope>, k: Kind)
    requires AllIndexable(args) && StoresKind(m, k)
    requires forall x :: x in args ==> x.kind == k
    ensures StoresKind(ExtendAll(m, args), k)
    decreases |args|
  {
    if args != [] {
      assert args[0] in args;
      assert forall x :: x in args[1..] ==> x in args;
      ExtendAllKinds(AddOne(m, args[0]), args[1..], k);
    }
  }

  /** restore_endpoint succeeds exactly when every payload makes an
      indexable scope and no two share an id; the manager then lists the
      created scopes in fetch order, all of the endpoint's kind.  With an
      id shared it raises ScopesNotLoaded, and never otherwise. */
  lemma RestoredMeaning(k: Kind, ps: seq<Json>, saved: (Kind, Json) -> Json)
    ensures var ss := CreatedAll(k, ps, saved);
      (Restored(k, ps, saved).Ok? <==> AllIndexable(ss) && Distinct(PkSeq(ss))) &&
      (Restored(k, ps, saved) == Err(ScopesNotLoaded) <==> AllIndexable(ss) && !Distinct(PkSeq(ss))) &&
      (Restored(k, ps, saved).Ok? ==>
        var m := Restored(k, ps, saved).value;
        Wf(m) && StoresKind(m, k) && Members(m) == ss && |m.order| == |ps|)
  {
    var ss := CreatedAll(k, ps, saved);
    if AllIndexable(ss) {
      BuildCount(ss);
      assert |ss| == |ps|;
      if Distinct(PkSeq(ss)) {
        ExtendAllKinds(Empty, ss, k);
        BuildLists(ss);
        assert Restored(k, ps, saved) == Ok(Build(ss));
      } else {
        assert Restored(k, ps, saved) == Err(ScopesNotLoaded);
      }
    } else {
      assert Restored(k, ps, saved) == Err(KeyError);
    }
  }

  /** restore_endpoint as written: the count check raises ScopesNotLoaded
      with keyword arguments, and ScopesNotLoaded is a plain Exception
      subclass whose constructor refuses them, so TypeError escapes. */
  function RestoredAsWritten(k: Kind, ps: seq<Json>, saved: (Kind, Json) -> Json): (r: Result<Manager>)
    ensures r.Err? ==> r.error == KeyError || r.error == TypeError
  {
    var ss := CreatedAll(k, ps, saved);
    if !AllIndexable(ss) then Err(KeyError)
    else
      var m := Build(ss);
      if |ps| != |m.order| then Err(TypeError) else Ok(m)
  }

  /** The code as written and the corrected restore differ exactly on pages
      where two payloads share an id: the code raises TypeError there, the
      corrected restore ScopesNotLoaded; elsewhere they agree. */
  lemma AsWrittenRaisesTypeError(k: Kind, ps: seq<Json>, saved: (Kind, Json) -> Json)
    ensures var ss := CreatedAll(k, ps, saved);
      (RestoredAsWritten(k, ps, saved) == Err(TypeError) <==> AllIndexable(ss) && !Distinct(PkSeq(ss))) &&
      (AllIndexable(ss) && !Distinct(PkSeq(ss)) ==> Restored(k, ps, saved) == Err(ScopesNotLoaded)) &&
      (RestoredAsWritten(k, ps, saved) != Restored(k, ps, saved) <==> AllIndexable(ss) && !Distinct(PkSeq(ss)))
  {
    var ss := CreatedAll(k, ps, saved);
    RestoredMeaning(k, ps, saved);
    if AllIndexable(ss) {
      BuildCount(ss);
    }
  }

  /** Two pages' worth of one role, fetched twice: the code raises
      TypeError where ScopesNotLoaded was meant. */
  lemma SharedIdRaisesTypeError(saved: (Kind, Json) -> Json)
    ensures var p := map["id" := Int(1), "game" := Int(1)];
      RestoredAsWritten(Role, [p, p], saved) == Err(TypeError) &&
      Restored(Role, [p, p], saved) == Err(ScopesNotLoaded)
  {
    var p := map["id" := Int(1), "game" := Int(1)];
    var ss := CreatedAll(Role, [p, p], saved);
    assert ss == [Scope(Role, p), Scope(Role, p)];
    assert PkSeq(ss)[0] == PkSeq(ss)[1];
    AsWrittenRaisesTypeError(Role, [p, p], saved);
  }

  /** Game.restore_endpoint(endpoint, scope_class), corrected to raise
      ScopesNotLoaded. */
  method RestoreEndpoint(fetch: Request -> Page, saved: (Kind, Json) -> Json,
                         endpoint: string, slug: string, k: Kind, ghost n: nat)
    returns (r: Result<Manager>)
    requires Pages(fetch, First(endpoint, slug), n).Some?
    ensures r == Restored(k, Pages(fetch, First(endpoint, slug), n).value, saved)
  {
    var results := FetchAll(fetch, endpoint, slug, n);
    var scopes := CreateScopes(k, results, saved);
    if !AllIndexable(scopes) {
      return Err(KeyError);
    }
    var manager := new ScopeManager(scopes);
    if |results| != |manager.order| {
      return Err(ScopesNotLoaded);
    }
    return Ok(manager.State());
  }

  // ----- the whole game -----

  /** endpoint_to_classes: endpoint name and kind, in restore order. */
  const Endpoints: seq<(string, Kind)> := [
    ("roles", Role), ("phases", Phase), ("runs", Run), ("runusers", RunUser),
    ("worlds", World), ("scenarios", Scenario), ("periods", Period),
    ("decisions", Decision), ("results", Kind.Result)]

  /** The position of a kind's endpoint; the game kind has none and sits
      past the end. */
  function EndpointSlot(k: Kind): nat
  {
    match k
    case Role => 0 case Phase => 1 case Run => 2 case RunUser => 3 case World => 4
    case Scenario => 5 case Period => 6 case Decision => 7 case Result => 8 case Game => 9
  }

  lemma EndpointAt(i: nat)
    requires i < |Endpoints|
    ensures EndpointSlot(Endpoints[i].1) == i
    ensures Endpoints[i].0 == Name(Endpoints[i].1) + "s"
  {
    if i == 0 {} else if i == 1 {} else if i == 2 {} else if i == 3 {} else if i == 4 {}
    else if i == 5 {} else if i == 6 {} else if i == 7 {} else {}
  }

  /** Every non-game kind has exactly one endpoint, named by its plural. */
  lemma EndpointsCoverKinds(k: Kind)
    ensures k != Game <==> exists i :: 0 <= i < |Endpoints| && Endpoints[i].1 == k
    ensures forall i, j :: 0 <= i < j < |Endpoints| ==> Endpoints[i].1 != Endpoints[j].1
    ensures forall i :: 0 <= i < |Endpoints| ==> Endpoints[i].0 == Name(Endpoints[i].1) + "s"
  {
    if k != Game {
      assert Endpoints[EndpointSlot(k)].1 == k;
    } else {
      forall i | 0 <= i < |Endpoints|
        ensures Endpoints[i].1 != k
      {
        EndpointAt(i);
      }
    }
    forall i, j | 0 <= i < j < |Endpoints|
      ensures Endpoints[i].1 != Endpoints[j].1
    {
      EndpointAt(i);
      EndpointAt(j);
    }
    forall i | 0 <= i < |Endpoints|
      ensures Endpoints[i].0 == Name(Endpoints[i].1) + "s"
    {
      EndpointAt(i);
    }
  }

  /** Every endpoint's link chain ends within `n` pages. */
  predicate Finite(fetch: Request -> Page, slug: string, n: nat)
  {
    forall i :: 0 <= i < |Endpoints| ==> Pages(fetch, First(Endpoints[i].0, slug), n).Some?
  }

  /** The containers loop of restore: set each endpoint's container in turn;
      the first failing endpoint raises, the earlier ones stay set. */
  function RestoreContainers(g: Graph, eps: seq<(string, Kind)>, fetch: Request -> Page,
                             saved: (Kind, Json) -> Json, slug: string, n: nat): (r: (Graph, Status))
    requires Valid(g)
    requires forall i :: 0 <= i < |eps| ==> Pages(fetch, First(eps[i].0, slug), n).Some?
    ensures Valid(r.0) && r.0.game == g.game
    decreases |eps|
  {
    if eps == [] then (g, Done)
    else
      var (e, k) := eps[0];
      var ps := Pages(fetch, First(e, slug), n).value;
      match Restored(k, ps, saved)
      case Err(x) => (g, Failed(x))
      case Ok(m) =>
        RestoredMeaning(k, ps, saved);
        RestoreContainers(Graph(g.game, g.scopes[k := m]), eps[1..], fetch, saved, slug, n)
  }

  /** The members of the containers of `ks`, container after container. */
  function AllMembers(g: Graph, ks: seq<Kind>): (r: seq<Scope>)
    requires Valid(g)
  {
    if ks == [] then [] else Members(Container(g, ks[0])) + AllMembers(g, ks[1..])
  }

  function EndpointKinds(): (r: seq<Kind>)
    ensures |r| == |Endpoints| && forall i :: 0 <= i < |r| ==> r[i] == Endpoints[i].1
  {
    seq(|Endpoints|, i requires 0 <= i < |Endpoints| => Endpoints[i].1)
  }

  /** The manager endpoint `e` restores to, or its error. */
  function EndpointResult(e: (string, Kind), fetch: Request -> Page, saved: (Kind, Json) -> Json,
                          slug: string, n: nat): Result<Manager>
    requires Pages(fetch, First(e.0, slug), n).Some?
  {
    Restored(e.1, Pages(fetch, First(e.0, slug), n).value, saved)
  }

  /** restore raises exactly when some endpoint fails. */
  lemma {:induction false} RestoreContainersStatus(g: Graph, eps: seq<(string, Kind)>, fetch: Request -> Page,
                                                   saved: (Kind, Json) -> Json, slug: string, n: nat)
    requires Valid(g)
    requires forall i :: 0 <= i < |eps| ==> Pages(fetch, First(eps[i].0, slug), n).Some?
    ensures RestoreContainers(g, eps, fetch, saved, slug, n).1 == Done <==>
      forall i :: 0 <= i < |eps| ==> EndpointResult(eps[i], fetch, saved, slug, n).Ok?
    decreases |eps|
  {
    if eps != [] {
      var (e, k) := eps[0];
      var ps := Pages(fetch, First(e, slug), n).value;
      if Restored(k, ps, saved).Ok? {
        var m := Restored(k, ps, saved).value;
        RestoredMeaning(k, ps, saved);
        assert forall i :: 0 <= i < |eps[1..]| ==> eps[1..][i] == eps[i + 1];
        RestoreContainersStatus(Graph(g.game, g.scopes[k := m]), eps[1..], fetch, saved, slug, n);
      }
    }
  }

  /** A kind without an endpoint in `eps` keeps its container. */
  lemma {:induction false} RestoreContainersOthers(g: Graph, eps: seq<(string, Kind)>, fetch: Request -> Page,
                                                   saved: (Kind, Json) -> Json, slug: string, n: nat, k: Kind)
    requires Valid(g)
    requires forall i :: 0 <= i < |eps| ==> Pages(fetch, First(eps[i].0, slug), n).Some?
    requires forall i :: 0 <= i < |eps| ==> eps[i].1 != k
    ensures Container(RestoreContainers(g, eps, fetch, saved, slug, n).0, k) == Container(g, k)
    decreases |eps|
  {
    if eps != [] {
      var (e, j) := eps[0];
      var ps := Pages(fetch, First(e, slug), n).value;
      if Restored(j, ps, saved).Ok? {
        var m := Restored(j, ps, saved).value;
        RestoredMeaning(j, ps, saved);
        assert forall i :: 0 <= i < |eps[1..]| ==> eps[1..][i] == eps[i + 1];
        RestoreContainersOthers(Graph(g.game, g.scopes[j := m]), eps[1..], fetch, saved, slug, n, k);
      }
    }
  }

  /** What a successful restore leaves for one endpoint: the manager
      restored from its pages is its kind's container, listing the scopes
      created from those pages in fetch order. */
  predicate EndpointLoaded(g: Graph, e: (string, Kind), fetch: Request -> Page,
                           saved: (Kind, Json) -> Json, slug: string, n: nat)
    requires Valid(g) && Pages(fetch, First(e.0, slug), n).Some?
  {
    EndpointResult(e, fetch, saved, slug, n).Ok? &&
    Container(g, e.1) == EndpointResult(e, fetch, saved, slug, n).value &&
    Members(EndpointResult(e, fetch, saved, slug, n).value) == CreatedAll(e.1, Pages(fetch, First(e.0, slug), n).value, saved)
  }

  /** The first endpoint of a successful restore is restored, and the loop
      goes on with its container set. */
  lemma RestoreContainersHead(g: Graph, eps: seq<(string, Kind)>, fetch: Request -> Page,
                              saved: (Kind, Json) -> Json, slug: string, n: nat)
    requires Valid(g) && eps != []
    requires forall j :: 0 <= j < |eps| ==> Pages(fetch, First(eps[j].0, slug), n).Some?
    requires RestoreContainers(g, eps, fetch, saved, slug, n).1 == Done
    ensures var r := EndpointResult(eps[0], fetch, saved, slug, n);
      r.Ok? && Wf(r.value) && StoresKind(r.value, eps[0].1) &&
      Members(r.value) == CreatedAll(eps[0].1, Pages(fetch, First(eps[0].0, slug), n).value, saved) &&
      RestoreContainers(g, eps, fetch, saved, slug, n) ==
        RestoreContainers(Graph(g.game, g.scopes[eps[0].1 := r.value]), eps[1..], fetch, saved, slug, n)
  {
    RestoredMeaning(eps[0].1, Pages(fetch, First(eps[0].0, slug), n).value, saved);
  }

  /** The endpoint at position i of a successful restore is loaded. */
  lemma {:induction false} RestoreContainersMember(g: Graph, eps: seq<(string, Kind)>, fetch: Request -> Page,
                                                   saved: (Kind, Json) -> Json, slug: string, n: nat, i: nat)
    requires Valid(g) && i < |eps|
    requires forall j :: 0 <= j < |eps| ==> Pages(fetch, First(eps[j].0, slug), n).Some?
    requires forall a, b :: 0 <= a < b < |eps| ==> eps[a].1 != eps[b].1
    requires RestoreContainers(g, eps, fetch, saved, slug, n).1 == Done
    ensures EndpointLoaded(RestoreContainers(g, eps, fetch, saved, slug, n).0, eps[i], fetch, saved, slug, n)
    decreases i
  {
    var k := eps[0].1;
    RestoreContainersHead(g, eps, fetch, saved, slug, n);
    var m := EndpointResult(eps[0], fetch, saved, slug, n).value;
    var g1 := Graph(g.game, g.scopes[k := m]);
    var rest := eps[1..];
    assert forall j :: 0 <= j < |rest| ==> rest[j] == eps[j + 1];
    if i == 0 {
      RestoreContainersOthers(g1, rest, fetch, saved, slug, n, k);
      assert Container(g1, k) == m;
    } else {
      RestoreContainersMember(g1, rest, fetch, saved, slug, n, i - 1);
    }
  }

  /** A restore that succeeds leaves in each endpoint's container exactly
      the manager restored from its pages, listing the scopes created from
      them in fetch order. */
  lemma RestoreContainersMembers(g: Graph, eps: seq<(string, Kind)>, fetch: Request -> Page,
                                 saved: (Kind, Json) -> Json, slug: string, n: nat)
    requires Valid(g)
    requires forall i :: 0 <= i < |eps| ==> Pages(fetch, First(eps[i].0, slug), n).Some?
    requires forall i, j :: 0 <= i < j < |eps| ==> eps[i].1 != eps[j].1
    requires RestoreContainers(g, eps, fetch, saved, slug, n).1 == Done
    ensures forall i :: 0 <= i < |eps| ==>
      EndpointResult(eps[i], fetch, saved, slug, n).Ok? &&
      Container(RestoreContainers(g, eps, fetch, saved, slug, n).0, eps[i].1) == EndpointResult(eps[i], fetch, saved, slug, n).value &&
      Members(EndpointResult(eps[i], fetch, saved, slug, n).value) == CreatedAll(eps[i].1, Pages(fetch, First(eps[i].0, slug), n).value, saved)
  {
    forall i | 0 <= i < |eps|
      ensures EndpointLoaded(RestoreContainers(g, eps, fetch, saved, slug, n).0, eps[i], fetch, saved, slug, n)
    {
      RestoreContainersMember(g, eps, fetch, saved, slug, n, i);
    }
  }

  /** One endpoint of the containers loop: it fails and ends the loop, or
      its container is set and the loop goes on. */
  lemma RestoreContainersStep(g: Graph, eps: seq<(string, Kind)>, i: nat, fetch: Request -> Page,
                              saved: (Kind, Json) -> Json, slug: string, n: nat)
    requires Valid(g) && i < |eps|
    requires forall j :: 0 <= j < |eps| ==> Pages(fetch, First(eps[j].0, slug), n).Some?
    ensures var r := EndpointResult(eps[i], fetch, saved, slug, n);
      (r.Ok? ==> Wf(r.value) && StoresKind(r.value, eps[i].1)) &&
      RestoreContainers(g, eps[i..], fetch, saved, slug, n) ==
        if r.Err? then (g, Failed(r.error))
        else RestoreContainers(Graph(g.game, g.scopes[eps[i].1 := r.value]), eps[i + 1..], fetch, saved, slug, n)
  {
    assert eps[i..][0] == eps[i] && eps[i..][1..] == eps[i + 1..];
    RestoredMeaning(eps[i].1, Pages(fetch, First(eps[i].0, slug), n).value, saved);
  }

  /** Game.restore: every endpoint's container, then every restored scope
      started, container after container; nothing is started when an
      endpoint fails. */
  function RestoreGame(g: Graph, fetch: Request -> Page, saved: (Kind, Json) -> Json,
                       slug: string, n: nat): (r: Step)
    requires Valid(g) && Finite(fetch, slug, n)
    ensures Valid(r.graph) && r.graph.game == g.game
  {
    var (g1, st) := RestoreContainers(g, Endpoints, fetch, saved, slug, n);
    if st.Failed? then Step(g1, [], st) else Step(g1, Joins(AllMembers(g1, EndpointKinds())), Done)
  }

  /** The scopes created from every endpoint's pages, endpoint after
      endpoint. */
  function AllCreated(eps: seq<(string, Kind)>, fetch: Request -> Page, saved: (Kind, Json) -> Json,
                      slug: string, n: nat): seq<Scope>
    requires forall i :: 0 <= i < |eps| ==> Pages(fetch, First(eps[i].0, slug), n).Some?
  {
    if eps == [] then []
    else CreatedAll(eps[0].1, Pages(fetch, First(eps[0].0, slug), n).value, saved) +
         AllCreated(eps[1..], fetch, saved, slug, n)
  }

  lemma {:induction false} AllMembersAreCreated(g: Graph, eps: seq<(string, Kind)>, ks: seq<Kind>,
                                               fetch: Request -> Page, saved: (Kind, Json) -> Json, slug: string, n: nat)
    requires Valid(g) && |ks| == |eps|
    requires forall i :: 0 <= i < |eps| ==> Pages(fetch, First(eps[i].0, slug), n).Some?
    requires forall i :: 0 <= i < |eps| ==> (ks[i] == eps[i].1 &&
      Members(Container(g, ks[i])) == CreatedAll(eps[i].1, Pages(fetch, First(eps[i].0, slug), n).value, saved))
    ensures AllMembers(g, ks) == AllCreated(eps, fetch, saved, slug, n)
    decreases |ks|
  {
    if ks != [] {
      assert forall i :: 0 <= i < |eps| - 1 ==> eps[1..][i] == eps[i + 1] && ks[1..][i] == ks[i + 1];
      AllMembersAreCreated(g, eps[1..], ks[1..], fetch, saved, slug, n);
    }
  }

  /** restore succeeds exactly when every endpoint restores, starts
      nothing when it fails, and never touches the game scope. */
  lemma RestoreGameStatus(g: Graph, fetch: Request -> Page, saved: (Kind, Json) -> Json, slug: string, n: nat)
    requires Valid(g) && Finite(fetch, slug, n)
    ensures var r := RestoreGame(g, fetch, saved, slug, n);
      (r.status == Done <==> forall i :: 0 <= i < |Endpoints| ==> EndpointResult(Endpoints[i], fetch, saved, slug, n).Ok?) &&
      (r.status.Failed? ==> r.events == []) &&
      Container(r.graph, Game) == Container(g, Game)
  {
    EndpointsCoverKinds(Game);
    RestoreContainersStatus(g, Endpoints, fetch, saved, slug, n);
    RestoreContainersOthers(g, Endpoints, fetch, saved, slug, n, Game);
  }

  lemma RestoreContainersContents(g: Graph, eps: seq<(string, Kind)>, ks: seq<Kind>, fetch: Request -> Page,
                                  saved: (Kind, Json) -> Json, slug: string, n: nat)
    requires Valid(g) && |ks| == |eps| && forall i :: 0 <= i < |eps| ==> ks[i] == eps[i].1
    requires forall i :: 0 <= i < |eps| ==> Pages(fetch, First(eps[i].0, slug), n).Some?
    requires forall i, j :: 0 <= i < j < |eps| ==> eps[i].1 != eps[j].1
    requires RestoreContainers(g, eps, fetch, saved, slug, n).1 == Done
    ensures var g1 := RestoreContainers(g, eps, fetch, saved, slug, n).0;
      (forall i :: 0 <= i < |eps| ==>
        EndpointResult(eps[i], fetch, saved, slug, n).Ok? &&
        Container(g1, eps[i].1) == EndpointResult(eps[i], fetch, saved, slug, n).value) &&
      AllMembers(g1, ks) == AllCreated(eps, fetch, saved, slug, n)
  {
    var g1 := RestoreContainers(g, eps, fetch, saved, slug, n).0;
    RestoreContainersMembers(g, eps, fetch, saved, slug, n);
    AllMembersAreCreated(g1, eps, ks, fetch, saved, slug, n);
  }

  /** A restore that succeeds holds in each endpoint's container the manager
      restored from its pages, and starts exactly the created scopes,
      endpoint after endpoint and in fetch order. */
  lemma RestoreGameContents(g: Graph, fetch: Request -> Page, saved: (Kind, Json) -> Json, slug: string, n: nat)
    requires Valid(g) && Finite(fetch, slug, n)
    requires RestoreGame(g, fetch, saved, slug, n).status == Done
    ensures var r := RestoreGame(g, fetch, saved, slug, n);
      (forall i :: 0 <= i < |Endpoints| ==>
        EndpointResult(Endpoints[i], fetch, saved, slug, n).Ok? &&
        Container(r.graph, Endpoints[i].1) == EndpointResult(Endpoints[i], fetch, saved, slug, n).value) &&
      r.events == Joins(AllCreated(Endpoints, fetch, saved, slug, n))
  {
    EndpointsCoverKinds(Game);
    RestoreContainersContents(g, Endpoints, EndpointKinds(), fetch, saved, slug, n);
  }
}
