// The scope kinds, their parent graph and their filter (index) attributes.

module Constants {
  import opened Exceptions

  /** The resource kinds of a game, one per scope class. */
  datatype Kind = Game | Run | Phase | Role | World | RunUser | Scenario | Period | Decision | Result

  /** resource_name */
  function Name(k: Kind): string
  {
    match k
    case Game => "game"
    case Run => "run"
    case Phase => "phase"
    case Role => "role"
    case World => "world"
    case RunUser => "runuser"
    case Scenario => "scenario"
    case Period => "period"
    case Decision => "decision"
    case Result => "result"
  }

  /** The kind whose resource_name is `s`, if any. */
  function KindNamed(s: string): Option<Kind>
  {
    if s == "game" then Some(Game)
    else if s == "run" then Some(Run)
    else if s == "phase" then Some(Phase)
    else if s == "role" then Some(Role)
    else if s == "world" then Some(World)
    else if s == "runuser" then Some(RunUser)
    else if s == "scenario" then Some(Scenario)
    else if s == "period" then Some(Period)
    else if s == "decision" then Some(Decision)
    else if s == "result" then Some(Result)
    else None
  }

  /** Resource names identify kinds: the two functions are inverse. */
  lemma NamesIdentifyKinds(k: Kind, s: string)
    ensures KindNamed(Name(k)) == Some(k)
    ensures KindNamed(s) == Some(k) <==> Name(k) == s
    ensures |Name(k)| > 0 && '.' !in Name(k)
  {
  }

  /** Candidate parent fields of each kind, in the order they are tried. */
  const SCOPE_PARENT_GRAPH: map<Kind, seq<Kind>> := map[
    Result := [Period],
    Decision := [Period],
    Period := [Scenario],
    Scenario := [World, RunUser],
    World := [Run],
    RunUser := [Run],
    Run := [Game],
    Phase := [Game],
    Role := [Game]
  ]

  /** Candidate parent fields, as a total function (none for the game). */
  function ParentKinds(k: Kind): seq<Kind>
  {
    match k
    case Game => []
    case Run => [Game]
    case Phase => [Game]
    case Role => [Game]
    case World => [Run]
    case RunUser => [Run]
    case Scenario => [World, RunUser]
    case Period => [Scenario]
    case Decision => [Period]
    case Result => [Period]
  }

  /** Attributes each kind is indexed by in a scope container. */
  const SCOPE_FILTER_ATTRIBUTES: map<Kind, seq<Kind>> := map[
    Result := [Period],
    Decision := [Period],
    Period := [Scenario],
    Scenario := [World, RunUser],
    World := [Run],
    RunUser := [Run, World],
    Run := [Game],
    Phase := [Game],
    Role := [Game]
  ]

  /** Filter attributes, as a total function (none for the game). */
  function FilterKinds(k: Kind): seq<Kind>
  {
    if k == RunUser then [Run, World] else ParentKinds(k)
  }

  /** The two tables hold exactly the total functions on every kind but the
      game, which neither table lists. */
  lemma TablesAgree(k: Kind)
    ensures k in SCOPE_PARENT_GRAPH <==> k != Game
    ensures k in SCOPE_FILTER_ATTRIBUTES <==> k != Game
    ensures k != Game ==> SCOPE_PARENT_GRAPH[k] == ParentKinds(k) && |ParentKinds(k)| >= 1
    ensures k != Game ==> SCOPE_FILTER_ATTRIBUTES[k] == FilterKinds(k)
  {
  }

  /** Distance from the game along the parent graph. */
  function Depth(k: Kind): nat
  {
    match k
    case Game => 0
    case Run => 1
    case Phase => 1
    case Role => 1
    case World => 2
    case RunUser => 2
    case Scenario => 3
    case Period => 4
    case Decision => 5
    case Result => 5
  }

  /** Each candidate parent lies exactly one level closer to the game. */
  lemma ParentsAreShallower(k: Kind, p: Kind)
    requires p in ParentKinds(k)
    ensures Depth(p) + 1 == Depth(k)
  {
  }

  /** Following parent fields from `k` reaches the game within `n` steps,
      whichever candidate is taken at each step. */
  ghost predicate ReachesGameWithin(k: Kind, n: nat)
    decreases n
  {
    k == Game ||
    (n > 0 && |ParentKinds(k)| > 0 &&
     forall p :: p in ParentKinds(k) ==> ReachesGameWithin(p, n - 1))
  }

  /** The parent graph is acyclic and rooted at the game: every path ends at
      the game after at most five steps. */
  lemma {:induction false} ParentGraphIsRooted(k: Kind)
    ensures ReachesGameWithin(k, Depth(k))
    ensures Depth(k) <= 5
    decreases Depth(k)
  {
    if k != Game {
      forall p | p in ParentKinds(k)
        ensures ReachesGameWithin(p, Depth(k) - 1)
      {
        ParentsAreShallower(k, p);
        ParentGraphIsRooted(p);
      }
    }
  }

  /** The filter attributes are the parent fields, except that a runuser is
      also indexed by its world. */
  lemma FilterAttributesExtendParents(k: Kind)
    ensures k != RunUser ==> FilterKinds(k) == ParentKinds(k)
    ensures FilterKinds(RunUser) == ParentKinds(RunUser) + [World]
  {
  }

  /** Field names of the filter attributes of `k`. */
  function IndexNames(k: Kind): (r: seq<string>)
    ensures |r| == |FilterKinds(k)|
    ensures forall i :: 0 <= i < |r| ==> r[i] == Name(FilterKinds(k)[i])
  {
    match k
    case Game => []
    case Run => ["game"]
    case Phase => ["game"]
    case Role => ["game"]
    case World => ["run"]
    case RunUser => ["run", "world"]
    case Scenario => ["world", "runuser"]
    case Period => ["scenario"]
    case Decision => ["period"]
    case Result => ["period"]
  }
}
