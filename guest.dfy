// ModelComponent, the guest session of the model service: the authorizer
// the router asks about every URI a browser touches, the leader test of chat
// URIs, and the topics a user is given at start.
//
// The game is the first installed one (`games[0]`), passed as its graph;
// ROOT_TOPIC is the parameter `root`.  The decision's `disclose` flag is
// True on every path and is not recorded.

module Guest {
  import opened Exceptions
  import opened Payload
  import opened Strings
  import opened Managers
  import opened Traversing
  import opened Constants

  /** {"allow": allow, "cache": cache, "disclose": True} */
  datatype Verdict = Verdict(allow: bool, cache: bool)

  const Allow := Verdict(true, true)
  const Deny := Verdict(false, true)
  /** The deny at the very end of authorize, the only one not cached. */
  const FinalDeny := Verdict(false, false)

  // ----- the caller's runuser in a run -----

  /** manager.get(**criteria) for criteria other than the pk, on a manager
      listing `ms`: exactly one scan match. */
  function Pick(ms: seq<Scope>, c: Criteria): (r: Result<Scope>)
    ensures r.Ok? ==> r.value in ms && Matches(r.value, c)
    ensures r.Err? ==> r.error in {ValueError, ScopeNotFound, MultipleScopesFound}
  {
    ScanMeaning(ms, c);
    var found :- Scan(ms, c);
    if |found| == 0 then Err(ScopeNotFound)
    else if |found| > 1 then Err(MultipleScopesFound)
    else Ok(found[0])
  }

  /** game_run.runusers.get(email=authid) */
  function MeIn(g: Graph, run: Scope, authid: string): (r: Result<Scope>)
    requires Valid(g)
    ensures r.Ok? ==> "email" in r.value.json && r.value.json["email"] == Str(authid)
    ensures r.Err? ==> r.error in {ValueError, ScopeNotFound, MultipleScopesFound}
  {
    var rus := Filter(Container(g, RunUser), [("run", Pk(run))]);
    if rus.Err? then
      ScanMeaning(Members(Container(g, RunUser)), [("run", Pk(run))]);
      Err(rus.error)
    else
      var c := [("email", Str(authid))];
      var me := Pick(rus.value, c);
      assert me.Ok? ==> c[0].0 in me.value.json && me.value.json[c[0].0] == c[0].1;
      me
  }

  /** The try block of either loop over game.runs: ScopeNotFound skips the
      run, any other error escapes; `leader is True` is the flag. */
  function Me(g: Graph, run: Scope, authid: string): (r: Result<Option<(Scope, bool)>>)
    requires Valid(g)
  {
    match MeIn(g, run, authid)
    case Err(e) => if Catches(ScopeNotFound, e) then Ok(None) else Err(e)
    case Ok(me) =>
      var leader :- Field(me.json, "leader");
      Ok(Some((me, leader == Bool(true))))
  }

  predicate Leads(ru: Scope)
  {
    "leader" in ru.json && ru.json["leader"] == Bool(true)
  }

  /** Me skips exactly the runs without the caller and answers the one
      runuser found otherwise. */
  lemma MeMeaning(g: Graph, run: Scope, authid: string)
    requires Valid(g)
    ensures Me(g, run, authid) == Ok(None) <==> MeIn(g, run, authid) == Err(ScopeNotFound)
    ensures Me(g, run, authid).Ok? && Me(g, run, authid).value.Some? ==>
      var m := Me(g, run, authid).value.value;
      MeIn(g, run, authid) == Ok(m.0) && "leader" in m.0.json && (m.1 <==> Leads(m.0))
  {
    if MeIn(g, run, authid).Err? {
      var e := MeIn(g, run, authid).error;
      assert e in {ValueError, ScopeNotFound, MultipleScopesFound};
    }
  }

  // ----- _is_authid_leader -----

  /** The loop of _is_authid_leader: True at the first run where the caller
      leads, without looking further. */
  function LeaderAmong(g: Graph, rs: seq<Scope>, authid: string): (r: Result<bool>)
    requires Valid(g)
    decreases |rs|
  {
    if rs == [] then Ok(false)
    else
      var m :- Me(g, rs[0], authid);
      if m.Some? && m.value.1 then Ok(true) else LeaderAmong(g, rs[1..], authid)
  }

  /** One run of the loop of _is_authid_leader. */
  lemma LeaderAmongStep(g: Graph, rs: seq<Scope>, i: nat, authid: string)
    requires Valid(g) && i < |rs|
    ensures LeaderAmong(g, rs[i..], authid) ==
      match Me(g, rs[i], authid)
      case Err(e) => Err(e)
      case Ok(m) => if m.Some? && m.value.1 then Ok(true) else LeaderAmong(g, rs[i + 1..], authid)
  {
    assert rs[i..][0] == rs[i] && rs[i..][1..] == rs[i + 1..];
  }

  method IsAuthidLeader(g: Graph, authid: string) returns (r: Result<bool>)
    requires Valid(g)
    ensures r == LeaderAmong(g, Members(Container(g, Run)), authid)
  {
    var runs := Members(Container(g, Run));
    var i := 0;
    while i < |runs|
      invariant 0 <= i <= |runs|
      invariant LeaderAmong(g, runs[i..], authid) == LeaderAmong(g, runs, authid)
    {
      LeaderAmongStep(g, runs, i, authid);
      var m := Me(g, runs[i], authid);
      if m.Err? {
        return Err(m.error);
      }
      if m.value.Some? && m.value.value.1 {
        return Ok(true);
      }
      i := i + 1;
    }
    return Ok(false);
  }

  // ----- the runusers loop of authorize -----

  /** runusers, runs and is_leader after the loop of authorize. */
  datatype Mine = Mine(runusers: seq<Scope>, runs: seq<Scope>, isLeader: bool)

  const NoneMine := Mine([], [], false)

  /** One pass of the loop, given what the try block found in `run`. */
  function Next(acc: Mine, run: Scope, m: Option<(Scope, bool)>): Mine
  {
    match m
    case None => acc
    case Some((me, leads)) => Mine(acc.runusers + [me], acc.runs + [run], acc.isLeader || leads)
  }

  function Collected(g: Graph, acc: Mine, rs: seq<Scope>, authid: string): (r: Result<Mine>)
    requires Valid(g)
    decreases |rs|
  {
    if rs == [] then Ok(acc)
    else
      var m :- Me(g, rs[0], authid);
      Collected(g, Next(acc, rs[0], m), rs[1..], authid)
  }

  method CollectMine(g: Graph, authid: string) returns (r: Result<Mine>)
    requires Valid(g)
    ensures r == Collected(g, NoneMine, Members(Container(g, Run)), authid)
  {
    var gameRuns := Members(Container(g, Run));
    var runusers: seq<Scope> := [];
    var runs: seq<Scope> := [];
    var isLeader := false;
    var i := 0;
    while i < |gameRuns|
      invariant 0 <= i <= |gameRuns|
      invariant Collected(g, Mine(runusers, runs, isLeader), gameRuns[i..], authid)
        == Collected(g, NoneMine, gameRuns, authid)
    {
      assert gameRuns[i..][1..] == gameRuns[i + 1..];
      var m := Me(g, gameRuns[i], authid);
      if m.Err? {
        return Err(m.error);
      }
      if m.value.Some? {
        if m.value.value.1 {
          isLeader := true;
        }
        runusers := runusers + [m.value.value.0];
        runs := runs + [gameRuns[i]];
      }
      i := i + 1;
    }
    return Ok(Mine(runusers, runs, isLeader));
  }

  /** A pass keeps what was there and adds at most the runuser found, with
      its run. */
  lemma NextMeaning(g: Graph, acc: Mine, run: Scope, authid: string)
    requires Valid(g) && Me(g, run, authid).Ok?
    ensures var n := Next(acc, run, Me(g, run, authid).value);
      (MeIn(g, run, authid).Err? ==> n == acc) &&
      (MeIn(g, run, authid).Ok? ==>
        n == Mine(acc.runusers + [MeIn(g, run, authid).value], acc.runs + [run], acc.isLeader || Leads(MeIn(g, run, authid).value)) &&
        "leader" in MeIn(g, run, authid).value.json)
  {
    MeMeaning(g, run, authid);
  }

  /** The loop appends, in order, the runuser of every run that has one for
      the caller, paired with its run. */
  lemma {:induction false} CollectedShape(g: Graph, acc: Mine, rs: seq<Scope>, authid: string)
    requires Valid(g) && |acc.runusers| == |acc.runs|
    requires Collected(g, acc, rs, authid).Ok?
    ensures var r := Collected(g, acc, rs, authid).value;
      |r.runusers| == |r.runs| && |acc.runs| <= |r.runs| &&
      r.runusers[..|acc.runs|] == acc.runusers && r.runs[..|acc.runs|] == acc.runs &&
      forall i :: |acc.runs| <= i < |r.runs| ==>
        r.runs[i] in rs && MeIn(g, r.runs[i], authid) == Ok(r.runusers[i]) && "leader" in r.runusers[i].json
    decreases |rs|
  {
    CollectedPrefix(g, acc, rs, authid);
    if rs != [] {
      var next := Next(acc, rs[0], Me(g, rs[0], authid).value);
      NextMeaning(g, acc, rs[0], authid);
      CollectedShape(g, next, rs[1..], authid);
      var r := Collected(g, acc, rs, authid).value;
      assert r == Collected(g, next, rs[1..], authid).value;
      forall i | |acc.runs| <= i < |r.runs|
        ensures r.runs[i] in rs && MeIn(g, r.runs[i], authid) == Ok(r.runusers[i]) && "leader" in r.runusers[i].json
      {
        if i >= |next.runs| {
          assert r.runs[i] in rs[1..];
        } else {
          assert r.runs[i] == r.runs[..|next.runs|][i] == rs[0];
          assert r.runusers[i] == r.runusers[..|next.runs|][i];
        }
      }
    }
  }


  /** Every run in which the caller has a runuser is kept. */
  lemma {:induction false} CollectedComplete(g: Graph, acc: Mine, rs: seq<Scope>, authid: string)
    requires Valid(g)
    requires Collected(g, acc, rs, authid).Ok?
    ensures forall x :: x in acc.runs ==> x in Collected(g, acc, rs, authid).value.runs
    ensures forall x :: x in rs && MeIn(g, x, authid).Ok? ==> x in Collected(g, acc, rs, authid).value.runs
    decreases |rs|
  {
    if rs != [] {
      var next := Next(acc, rs[0], Me(g, rs[0], authid).value);
      NextMeaning(g, acc, rs[0], authid);
      CollectedComplete(g, next, rs[1..], authid);
      assert forall x :: x in rs ==> x == rs[0] || x in rs[1..];
    }
  }

  /** The loop only appends, a runuser and its run together. */
  lemma {:induction false} CollectedPrefix(g: Graph, acc: Mine, rs: seq<Scope>, authid: string)
    requires Valid(g) && |acc.runusers| == |acc.runs| && Collected(g, acc, rs, authid).Ok?
    ensures var r := Collected(g, acc, rs, authid).value;
      |r.runusers| == |r.runs| && |acc.runs| <= |r.runs| &&
      r.runusers[..|acc.runs|] == acc.runusers && r.runs[..|acc.runs|] == acc.runs
    decreases |rs|
  {
    if rs != [] {
      var next := Next(acc, rs[0], Me(g, rs[0], authid).value);
      CollectedPrefix(g, next, rs[1..], authid);
      var r := Collected(g, acc, rs, authid).value;
      assert r == Collected(g, next, rs[1..], authid).value;
      var n := |acc.runs|;
      assert next.runusers[..n] == acc.runusers && next.runs[..n] == acc.runs;
      assert r.runusers[..|next.runs|][..n] == r.runusers[..n];
      assert r.runs[..|next.runs|][..n] == r.runs[..n];
    }
  }

  /** A pass adds at most one runuser, and raises the flag exactly when
      that one leads. */
  lemma NextLeads(g: Graph, acc: Mine, run: Scope, authid: string)
    requires Valid(g) && Me(g, run, authid).Ok?
    ensures var n := Next(acc, run, Me(g, run, authid).value);
      n == acc ||
      (n.runusers == acc.runusers + [n.runusers[|acc.runusers|]] && |n.runs| == |acc.runs| + 1 &&
       (n.isLeader <==> acc.isLeader || Leads(n.runusers[|acc.runusers|])))
  {
    MeMeaning(g, run, authid);
  }

  /** The flag tells whether one of the runusers kept leads. */
  lemma {:induction false} CollectedLeader(g: Graph, acc: Mine, rs: seq<Scope>, authid: string)
    requires Valid(g) && |acc.runusers| == |acc.runs|
    requires Collected(g, acc, rs, authid).Ok?
    ensures var r := Collected(g, acc, rs, authid).value;
      |acc.runs| <= |r.runusers| &&
      (r.isLeader <==> acc.isLeader || exists i :: |acc.runs| <= i < |r.runusers| && Leads(r.runusers[i]))
    decreases |rs|
  {
    if rs != [] {
      var next := Next(acc, rs[0], Me(g, rs[0], authid).value);
      NextLeads(g, acc, rs[0], authid);
      CollectedPrefix(g, next, rs[1..], authid);
      CollectedLeader(g, next, rs[1..], authid);
      var r := Collected(g, acc, rs, authid).value;
      assert r == Collected(g, next, rs[1..], authid).value;
      if next != acc {
        LeaderStep(acc, next, r);
      }
    }
  }

  /** The flag after a pass that added a runuser, in terms of the flag
      before it. */
  lemma LeaderStep(acc: Mine, next: Mine, r: Mine)
    requires |acc.runusers| == |acc.runs| && |next.runs| == |acc.runs| + 1
    requires |next.runusers| == |acc.runs| + 1 && next.runusers[..|acc.runs|] == acc.runusers
    requires next.isLeader <==> acc.isLeader || Leads(next.runusers[|acc.runs|])
    requires |next.runs| <= |r.runusers| && r.runusers[..|next.runs|] == next.runusers
    requires r.isLeader <==> next.isLeader || exists i :: |next.runs| <= i < |r.runusers| && Leads(r.runusers[i])
    ensures r.isLeader <==> acc.isLeader || exists i :: |acc.runs| <= i < |r.runusers| && Leads(r.runusers[i])
  {
    var n := |acc.runs|;
    assert r.runusers[n] == r.runusers[..|next.runs|][n];
    if r.isLeader && !acc.isLeader && !Leads(r.runusers[n]) {
      var i :| |next.runs| <= i < |r.runusers| && Leads(r.runusers[i]);
    }
    if exists i :: n <= i < |r.runusers| && Leads(r.runusers[i]) {
      var i :| n <= i < |r.runusers| && Leads(r.runusers[i]);
      if i > n {
        assert |next.runs| <= i;
      }
    }
  }

  /** Where the loop of authorize completes, _is_authid_leader answers its
      flag. */
  lemma {:induction false} LeaderAmongAgrees(g: Graph, acc: Mine, rs: seq<Scope>, authid: string)
    requires Valid(g)
    requires Collected(g, acc, rs, authid).Ok?
    ensures LeaderAmong(g, rs, authid).Ok?
    ensures Collected(g, acc, rs, authid).value.isLeader <==> acc.isLeader || LeaderAmong(g, rs, authid).value
    decreases |rs|
  {
    if rs != [] {
      var m := Me(g, rs[0], authid).value;
      var next := Next(acc, rs[0], m);
      LeaderAmongAgrees(g, next, rs[1..], authid);
      if m.Some? && m.value.1 {
        LeaderStays(g, next, rs[1..], authid);
      }
    }
  }

  lemma {:induction false} LeaderStays(g: Graph, acc: Mine, rs: seq<Scope>, authid: string)
    requires Valid(g) && acc.isLeader
    requires Collected(g, acc, rs, authid).Ok?
    ensures Collected(g, acc, rs, authid).value.isLeader
    decreases |rs|
  {
    if rs != [] {
      LeaderStays(g, Next(acc, rs[0], Me(g, rs[0], authid).value), rs[1..], authid);
    }
  }

  // ----- the per-resource checks -----

  /** `pk = int(parts[1])`, None where int() raises ValueError. */
  function PkValue(part: string): Value
  {
    match ParseInt(part)
    case Some(i) => Int(i)
    case None => Null
  }

  /** The run check: the first runuser with `run == pk` decides by its
      leader flag; None when there is none. */
  function RunCheck(rus: seq<Scope>, pk: Value): (r: Result<Option<Verdict>>)
    decreases |rus|
  {
    if rus == [] then Ok(None)
    else
      var run :- Field(rus[0].json, "run");
      if run == pk then
        var leader :- Field(rus[0].json, "leader");
        Ok(Some(Verdict(Truthy(leader), true)))
      else RunCheck(rus[1..], pk)
  }

  /** The runuser check: allowed at the first runuser whose email is the
      caller's. */
  function RunUserCheck(rus: seq<Scope>, authid: string): (r: Result<bool>)
    decreases |rus|
  {
    if rus == [] then Ok(false)
    else
      var email :- Field(rus[0].json, "email");
      if email == Str(authid) then Ok(true) else RunUserCheck(rus[1..], authid)
  }

  /** The world check on the caller's runusers: some one lies in world pk. */
  function WorldCheck(rus: seq<Scope>, pk: Value): (r: Result<bool>)
    decreases |rus|
  {
    if rus == [] then Ok(false)
    else
      var w :- Field(rus[0].json, "world");
      if w == pk then Ok(true) else WorldCheck(rus[1..], pk)
  }

  /** Some world of `ws` has id pk. */
  function WorldIdCheck(ws: seq<Scope>, pk: Value): (r: Result<bool>)
    decreases |ws|
  {
    if ws == [] then Ok(false)
    else
      var id :- Field(ws[0].json, "id");
      if id == pk then Ok(true) else WorldIdCheck(ws[1..], pk)
  }

  /** The leader branch of the world check: `game_run` is the loop variable
      of the runusers loop, so it is the last run of the game, whatever
      `runs` holds; `runs` only decides how often the same worlds are
      scanned. */
  function LeaderWorldCheck(g: Graph, mine: Mine, pk: Value): (r: Result<bool>)
    requires Valid(g)
  {
    var gameRuns := Members(Container(g, Run));
    if !mine.isLeader || mine.runs == [] || gameRuns == [] then Ok(false)
    else
      var ws :- Filter(Container(g, World), [("run", Pk(gameRuns[|gameRuns| - 1]))]);
      WorldIdCheck(ws, pk)
  }

  /** What follows the runusers loop, for a resource other than a phase or
      a role. */
  function Decided(g: Graph, mine: Mine, resource: string, pk: Value, authid: string): (r: Result<Verdict>)
    requires Valid(g)
  {
    if resource == "run" then
      var v :- RunCheck(mine.runusers, pk);
      Ok(if v.Some? then v.value else FinalDeny)
    else if resource == "runuser" then
      var mineToo :- RunUserCheck(mine.runusers, authid);
      Ok(if mineToo then Allow else Deny)
    else if resource == "world" then
      var inWorld :- WorldCheck(mine.runusers, pk);
      if inWorld then Ok(Allow)
      else
        var led :- LeaderWorldCheck(g, mine, pk);
        Ok(if led then Allow else FinalDeny)
    else Ok(FinalDeny)
  }

  // ----- authorize -----

  /** The prefix checks of authorize, up to the runusers loop: Some verdict
      when one of them decides, None when the loop's outcome is needed. */
  function Screened(root: string, g: Graph, authid: string, uri: string, action: string): (r: Result<Option<Verdict>>)
    requires Valid(g)
  {
    if StartsWith(uri, root + ".init_user_scopes") then Ok(Some(Allow))
    else if StartsWith(uri, root + ".error." + authid) then Ok(Some(Allow))
    else if StartsWith(uri, root + ".chat.") then
      var leader :- LeaderAmong(g, Members(Container(g, Run)), authid);
      Ok(Some(if leader then Allow else Deny))
    else
      var parts := Split(ReplaceAll(uri, root + ".model."), '.');
      if |parts| < 2 then Err(IndexError)
      else if parts[0] == "game" && (parts[1] == "get_phases" || parts[1] == "get_roles") then Ok(Some(Allow))
      else if parts[0] == "game" && action == "call" then Ok(Some(Allow))
      else if action == "register" then Ok(Some(Deny))
      else if parts[0] == "phase" || parts[0] == "role" then Ok(Some(Allow))
      else Ok(None)
  }

  /** The resource name and pk of a model URI. */
  function Parts(root: string, uri: string): seq<string>
  {
    Split(ReplaceAll(uri, root + ".model."), '.')
  }

  /** ModelComponent.authorize(session, uri, action, options) */
  function Authorized(root: string, g: Graph, authid: string, uri: string, action: string): (r: Result<Verdict>)
    requires Valid(g)
  {
    var screened :- Screened(root, g, authid, uri, action);
    if screened.Some? then Ok(screened.value)
    else
      var mine :- Collected(g, NoneMine, Members(Container(g, Run)), authid);
      var parts := Parts(root, uri);
      Decided(g, mine, parts[0], PkValue(parts[1]), authid)
  }

  method Authorize(root: string, g: Graph, authid: string, uri: string, action: string) returns (r: Result<Verdict>)
    requires Valid(g)
    ensures r == Authorized(root, g, authid, uri, action)
  {
    if StartsWith(uri, root + ".init_user_scopes") {
      return Ok(Allow);
    }
    if StartsWith(uri, root + ".error." + authid) {
      return Ok(Allow);
    }
    if StartsWith(uri, root + ".chat.") {
      var leader := IsAuthidLeader(g, authid);
      if leader.Err? {
        return Err(leader.error);
      }
      return Ok(if leader.value then Allow else Deny);
    }
    var parts := Parts(root, uri);
    if |parts| < 2 {
      return Err(IndexError);
    }
    var resource := parts[0];
    if resource == "game" && (parts[1] == "get_phases" || parts[1] == "get_roles") {
      return Ok(Allow);
    }
    if resource == "game" && action == "call" {
      return Ok(Allow);
    }
    var pk := PkValue(parts[1]);
    if action == "register" {
      return Ok(Deny);
    }
    if resource == "phase" || resource == "role" {
      return Ok(Allow);
    }
    var mine := CollectMine(g, authid);
    if mine.Err? {
      return Err(mine.error);
    }
    r := Decided(g, mine.value, resource, pk, authid);
  }

  // ----- properties of the decision -----

  /** The caller's own init and error URIs are allowed before anything is
      looked at. */
  lemma InitAndErrorAllowed(root: string, g: Graph, authid: string, uri: string, action: string)
    requires Valid(g)
    requires StartsWith(uri, root + ".init_user_scopes") || StartsWith(uri, root + ".error." + authid)
    ensures Authorized(root, g, authid, uri, action) == Ok(Allow)
  {
  }

  /** `or "check_user"` is always true: every chat URI, whatever follows the
      prefix, is allowed exactly to a leader, and cached either way. */
  lemma ChatIsLeaderOnly(root: string, g: Graph, authid: string, uri: string, action: string)
    requires Valid(g)
    requires !StartsWith(uri, root + ".init_user_scopes") && !StartsWith(uri, root + ".error." + authid)
    requires StartsWith(uri, root + ".chat.")
    ensures var l := LeaderAmong(g, Members(Container(g, Run)), authid);
      (l.Err? ==> Authorized(root, g, authid, uri, action) == Err(l.error)) &&
      (l.Ok? ==> Authorized(root, g, authid, uri, action) == Ok(Verdict(l.value, true)))
  {
  }

  /** Any URI that is not an init, error or chat one: the game helpers and
      any call on the game are allowed, then any register is denied, then
      phases and roles are allowed, all before the runusers are looked at. */
  lemma ModelUriScreening(root: string, g: Graph, authid: string, uri: string, action: string)
    requires Valid(g)
    requires !StartsWith(uri, root + ".init_user_scopes") && !StartsWith(uri, root + ".error." + authid)
    requires !StartsWith(uri, root + ".chat.")
    ensures var parts := Parts(root, uri);
      (|parts| < 2 ==> Authorized(root, g, authid, uri, action) == Err(IndexError)) &&
      (|parts| >= 2 && parts[0] == "game" && (parts[1] == "get_phases" || parts[1] == "get_roles" || action == "call") ==>
        Authorized(root, g, authid, uri, action) == Ok(Allow)) &&
      (|parts| >= 2 && !(parts[0] == "game" && (parts[1] == "get_phases" || parts[1] == "get_roles" || action == "call")) ==>
        (action == "register" ==> Authorized(root, g, authid, uri, action) == Ok(Deny)) &&
        (action != "register" && (parts[0] == "phase" || parts[0] == "role") ==> Authorized(root, g, authid, uri, action) == Ok(Allow)))
  {
  }

  /** The runuser check never compares the pk: every runuser the loop keeps
      carries the caller's email, so the check at its first one allows. */
  lemma {:induction false} RunUserCheckIgnoresPk(g: Graph, acc: Mine, rs: seq<Scope>, authid: string)
    requires Valid(g) && |acc.runusers| == |acc.runs|
    requires forall i :: 0 <= i < |acc.runusers| ==> "email" in acc.runusers[i].json && acc.runusers[i].json["email"] == Str(authid)
    requires Collected(g, acc, rs, authid).Ok?
    ensures RunUserCheck(Collected(g, acc, rs, authid).value.runusers, authid) == Ok(Collected(g, acc, rs, authid).value.runusers != [])
  {
    var r := Collected(g, acc, rs, authid).value;
    CollectedShape(g, acc, rs, authid);
    forall i | 0 <= i < |r.runusers|
      ensures "email" in r.runusers[i].json && r.runusers[i].json["email"] == Str(authid)
    {
      if i < |acc.runs| {
        assert r.runusers[i] == r.runusers[..|acc.runs|][i];
      }
    }
    if r.runusers != [] {
      assert r.runusers[0].json["email"] == Str(authid);
    }
  }

  /** A runuser URI is allowed whenever the caller has a runuser in some
      run, for every pk; otherwise it is denied, cached. */
  lemma RunUserUriAllowsAnyPk(root: string, g: Graph, authid: string, uri: string, action: string)
    requires Valid(g)
    requires Screened(root, g, authid, uri, action) == Ok(None)
    requires Parts(root, uri)[0] == "runuser"
    requires Collected(g, NoneMine, Members(Container(g, Run)), authid).Ok?
    ensures var mine := Collected(g, NoneMine, Members(Container(g, Run)), authid).value;
      Authorized(root, g, authid, uri, action) == Ok(if mine.runusers != [] then Allow else Deny)
  {
    RunUserCheckIgnoresPk(g, NoneMine, Members(Container(g, Run)), authid);
  }

  /** For a run URI the first runuser of the caller in that run decides by
      its leader flag; with none, the final uncached deny. */
  lemma {:induction false} RunCheckMeaning(rus: seq<Scope>, pk: Value)
    requires forall i :: 0 <= i < |rus| ==> "run" in rus[i].json && "leader" in rus[i].json
    ensures RunCheck(rus, pk).Ok?
    ensures RunCheck(rus, pk).value.None? <==> forall i :: 0 <= i < |rus| ==> rus[i].json["run"] != pk
    ensures RunCheck(rus, pk).value.Some? ==>
      exists j :: 0 <= j < |rus| && rus[j].json["run"] == pk &&
        (forall i :: 0 <= i < j ==> rus[i].json["run"] != pk) &&
        RunCheck(rus, pk).value.value == Verdict(Truthy(rus[j].json["leader"]), true)
    decreases |rus|
  {
    if rus != [] {
      RunCheckMeaning(rus[1..], pk);
      if rus[0].json["run"] != pk {
        if RunCheck(rus, pk).value.Some? {
          var j :| 0 <= j < |rus[1..]| && rus[1..][j].json["run"] == pk &&
            (forall i :: 0 <= i < j ==> rus[1..][i].json["run"] != pk) &&
            RunCheck(rus[1..], pk).value.value == Verdict(Truthy(rus[1..][j].json["leader"]), true);
          assert rus[j + 1] == rus[1..][j];
          assert forall i :: 1 <= i < j + 1 ==> rus[i] == rus[1..][i - 1];
        } else {
          assert forall i :: 1 <= i < |rus| ==> rus[i] == rus[1..][i - 1];
        }
      }
    }
  }

  /** A leader flag after the loop means a run was kept, so the game has
      runs. */
  lemma LeaderHasRun(g: Graph, rs: seq<Scope>, authid: string)
    requires Valid(g) && Collected(g, NoneMine, rs, authid).Ok?
    ensures var mine := Collected(g, NoneMine, rs, authid).value;
      mine.isLeader ==> mine.runs != [] && rs != []
  {
    var mine := Collected(g, NoneMine, rs, authid).value;
    CollectedShape(g, NoneMine, rs, authid);
    CollectedLeader(g, NoneMine, rs, authid);
    if mine.isLeader {
      assert mine.runs != [];
      assert mine.runs[0] in rs;
    }
  }

  /** The world check allows a world the caller is placed in; otherwise a
      leader anywhere is allowed exactly the worlds of the game's last run. */
  lemma WorldUriMeaning(root: string, g: Graph, authid: string, uri: string, action: string)
    requires Valid(g)
    requires Screened(root, g, authid, uri, action) == Ok(None)
    requires Parts(root, uri)[0] == "world"
    requires Collected(g, NoneMine, Members(Container(g, Run)), authid).Ok?
    ensures var mine := Collected(g, NoneMine, Members(Container(g, Run)), authid).value;
      var pk := PkValue(Parts(root, uri)[1]);
      var gameRuns := Members(Container(g, Run));
      (WorldCheck(mine.runusers, pk) == Ok(true) ==> Authorized(root, g, authid, uri, action) == Ok(Allow)) &&
      (WorldCheck(mine.runusers, pk) == Ok(false) && !mine.isLeader ==> Authorized(root, g, authid, uri, action) == Ok(FinalDeny)) &&
      (WorldCheck(mine.runusers, pk) == Ok(false) && mine.isLeader ==>
        gameRuns != [] &&
        var ws := Filter(Container(g, World), [("run", Pk(gameRuns[|gameRuns| - 1]))]);
        (ws.Ok? && WorldIdCheck(ws.value, pk).Ok? ==>
          Authorized(root, g, authid, uri, action) == Ok(if WorldIdCheck(ws.value, pk).value then Allow else FinalDeny)))
  {
    LeaderHasRun(g, Members(Container(g, Run)), authid);
  }

  // ----- init_user_scopes -----

  /** is_leader and the three sets of init_user_scopes. */
  datatype UserScopes = UserScopes(isLeader: bool, runs: set<Value>, worlds: set<Value>, runusers: set<Value>)

  const NoScopes := UserScopes(false, {}, {}, {})

  /** One pass of the loop: once a leader has been seen, every later run
      the caller is in adds its pk; before that, the runuser's id and its
      world, when that is truthy. */
  function ScopesStep(g: Graph, acc: UserScopes, run: Scope, authid: string): (r: Result<UserScopes>)
    requires Valid(g)
  {
    match MeIn(g, run, authid)
    case Err(e) => if Catches(ScopeNotFound, e) then Ok(acc) else Err(e)
    case Ok(ru) =>
      var id :- Field(ru.json, "id");
      var leader :- Field(ru.json, "leader");
      var isLeader := acc.isLeader || leader == Bool(true);
      if isLeader then Ok(UserScopes(true, acc.runs + {Pk(run)}, acc.worlds, acc.runusers))
      else
        var w :- Field(ru.json, "world");
        Ok(UserScopes(false, acc.runs, acc.worlds + (if Truthy(w) then {w} else {}), acc.runusers + {id}))
  }

  function ScopesFrom(g: Graph, acc: UserScopes, rs: seq<Scope>, authid: string): (r: Result<UserScopes>)
    requires Valid(g)
    decreases |rs|
  {
    if rs == [] then Ok(acc)
    else
      var next :- ScopesStep(g, acc, rs[0], authid);
      ScopesFrom(g, next, rs[1..], authid)
  }

  /** The topics: a leader's runs, or else the runusers and worlds. */
  function Topics(u: UserScopes): (r: set<string>)
    ensures u.isLeader ==> forall t :: t in r ==> StartsWith(t, "model:model.run.")
    ensures !u.isLeader ==> forall t :: t in r ==> !StartsWith(t, "model:model.run.")
  {
    if u.isLeader then set x | x in u.runs :: "model:model.run." + Show(x)
    else
      assert forall x :: ("model:model.runuser." + Show(x))[..16] == "model:model.runu" && ("model:model.world." + Show(x))[..16] == "model:model.worl";
      (set x | x in u.runusers :: "model:model.runuser." + Show(x)) +
      (set x | x in u.worlds :: "model:model.world." + Show(x))
  }

  /** ModelComponent.init_user_scopes(details): (topics, is_leader). */
  method InitUserScopes(g: Graph, authid: string) returns (r: Result<(set<string>, bool)>)
    requires Valid(g)
    ensures var u := ScopesFrom(g, NoScopes, Members(Container(g, Run)), authid);
      (u.Err? ==> r == Err(u.error)) && (u.Ok? ==> r == Ok((Topics(u.value), u.value.isLeader)))
  {
    var gameRuns := Members(Container(g, Run));
    var isLeader := false;
    var runs: set<Value> := {};
    var worlds: set<Value> := {};
    var runusers: set<Value> := {};
    var i := 0;
    while i < |gameRuns|
      invariant 0 <= i <= |gameRuns|
      invariant ScopesFrom(g, UserScopes(isLeader, runs, worlds, runusers), gameRuns[i..], authid)
        == ScopesFrom(g, NoScopes, gameRuns, authid)
    {
      assert gameRuns[i..][1..] == gameRuns[i + 1..];
      ghost var before := UserScopes(isLeader, runs, worlds, runusers);
      var found := MeIn(g, gameRuns[i], authid);
      if found.Err? {
        if !Catches(ScopeNotFound, found.error) {
          return Err(found.error);
        }
      } else {
        var runuser := found.value;
        if "id" !in runuser.json {
          return Err(KeyError);
        }
        var runuserId := runuser.json["id"];
        if "leader" !in runuser.json {
          return Err(KeyError);
        }
        if runuser.json["leader"] == Bool(true) {
          isLeader := true;
        }
        if isLeader {
          runs := runs + {Pk(gameRuns[i])};
        } else {
          runusers := runusers + {runuserId};
          if "world" !in runuser.json {
            return Err(KeyError);
          }
          if Truthy(runuser.json["world"]) {
            worlds := worlds + {runuser.json["world"]};
          } else {
            assert worlds == worlds + {};
          }
        }
      }
      assert ScopesStep(g, before, gameRuns[i], authid) == Ok(UserScopes(isLeader, runs, worlds, runusers));
      i := i + 1;
    }
    return Ok((Topics(UserScopes(isLeader, runs, worlds, runusers)), isLeader));
  }

  /** A pass adds the run's pk once the caller has led, and otherwise the
      runuser's id and truthy world; a run without the caller changes
      nothing. */
  lemma ScopesStepMeaning(g: Graph, acc: UserScopes, run: Scope, authid: string)
    requires Valid(g) && ScopesStep(g, acc, run, authid).Ok?
    ensures var n := ScopesStep(g, acc, run, authid).value;
      (MeIn(g, run, authid).Err? ==> n == acc) &&
      (MeIn(g, run, authid).Ok? ==>
        var ru := MeIn(g, run, authid).value;
        "id" in ru.json && (n.isLeader <==> acc.isLeader || Leads(ru)) &&
        (n.isLeader ==> n == UserScopes(true, acc.runs + {Pk(run)}, acc.worlds, acc.runusers)) &&
        (!n.isLeader ==>
          "world" in ru.json &&
          n == UserScopes(false, acc.runs, acc.worlds + (if Truthy(ru.json["world"]) then {ru.json["world"]} else {}), acc.runusers + {ru.json["id"]})))
  {
  }

  /** Once a leader is seen the user topics are frozen and every later run
      the caller is in contributes its pk, and nothing else does. */
  lemma {:induction false} LeaderCollectsRuns(g: Graph, acc: UserScopes, rs: seq<Scope>, authid: string)
    requires Valid(g) && acc.isLeader
    requires ScopesFrom(g, acc, rs, authid).Ok?
    ensures var r := ScopesFrom(g, acc, rs, authid).value;
      r.isLeader && r.worlds == acc.worlds && r.runusers == acc.runusers &&
      r.runs == acc.runs + set x | x in rs && MeIn(g, x, authid).Ok? :: Pk(x)
    decreases |rs|
  {
    if rs != [] {
      var next := ScopesStep(g, acc, rs[0], authid).value;
      ScopesStepMeaning(g, acc, rs[0], authid);
      LeaderCollectsRuns(g, next, rs[1..], authid);
      assert forall x :: x in rs <==> x == rs[0] || x in rs[1..];
    }
  }

  /** A caller who leads nowhere gets no run topic; every run it is in
      adds its runuser's id, and its world when that is truthy. */
  lemma {:induction false} NonLeaderCollectsRunUsers(g: Graph, acc: UserScopes, rs: seq<Scope>, authid: string)
    requires Valid(g)
    requires ScopesFrom(g, acc, rs, authid).Ok?
    requires !ScopesFrom(g, acc, rs, authid).value.isLeader
    ensures var r := ScopesFrom(g, acc, rs, authid).value;
      !acc.isLeader && r.runs == acc.runs &&
      acc.runusers <= r.runusers && acc.worlds <= r.worlds &&
      forall x :: x in rs && MeIn(g, x, authid).Ok? ==>
        var ru := MeIn(g, x, authid).value;
        !Leads(ru) && "id" in ru.json && ru.json["id"] in r.runusers &&
        "world" in ru.json && (Truthy(ru.json["world"]) ==> ru.json["world"] in r.worlds)
    decreases |rs|
  {
    if rs != [] {
      var next := ScopesStep(g, acc, rs[0], authid).value;
      ScopesStepMeaning(g, acc, rs[0], authid);
      NonLeaderCollectsRunUsers(g, next, rs[1..], authid);
      assert forall x :: x in rs ==> x == rs[0] || x in rs[1..];
    }
  }
}
