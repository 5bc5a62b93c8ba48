// The profiler worker: topic names, the group roster the leader builds,
// the group filter of start_task and the leader's bookkeeping of done and
// failed tasks and of pushed stats.  Sessions are WAMP session ids; the
// session list the router reports is a parameter; publishes go to the
// outbox `outbox`.

module Worker {
  import opened Exceptions
  import opened Strings
  import opened Payload
  import opened Instruments

  // ----- topic helpers -----

  function StartTopic(name: string): string { name + ".start" }

  function DoneTopic(name: string): string { name + ".done" }

  function ErrorTopic(name: string): string { name + ".error" }

  /** The three topics of one task differ, and each names its task. */
  lemma TaskTopicsDistinct(a: string, b: string)
    ensures StartTopic(a) != DoneTopic(b) && StartTopic(a) != ErrorTopic(b) && DoneTopic(a) != ErrorTopic(b)
    ensures StartTopic(a) == StartTopic(b) ==> a == b
    ensures DoneTopic(a) == DoneTopic(b) ==> a == b
    ensures ErrorTopic(a) == ErrorTopic(b) ==> a == b
    ensures StartsWith(StartTopic(a), a) && StartsWith(DoneTopic(a), a) && StartsWith(ErrorTopic(a), a)
  {
    assert StartTopic(a)[|StartTopic(a)| - 1] == 't';
    assert DoneTopic(b)[|DoneTopic(b)| - 1] == 'e';
    assert ErrorTopic(b)[|ErrorTopic(b)| - 1] == 'r';
    assert DoneTopic(a)[|DoneTopic(a)| - 1] == 'e';
    if StartTopic(a) == StartTopic(b) {
      assert a == StartTopic(a)[..|a|] && b == StartTopic(b)[..|b|];
    }
    if DoneTopic(a) == DoneTopic(b) {
      assert a == DoneTopic(a)[..|a|] && b == DoneTopic(b)[..|b|];
    }
    if ErrorTopic(a) == ErrorTopic(b) {
      assert a == ErrorTopic(a)[..|a|] && b == ErrorTopic(b)[..|b|];
    }
  }

  function JoinTopic(session: int): string
  {
    "worker." + IntToString(session) + ".join_groups"
  }

  // ----- the roster -----

  /** list(range(n)) */
  function Range(n: nat): (r: seq<int>)
    ensures |r| == n && forall i :: 0 <= i < n ==> r[i] == i
  {
    seq(n, i => i)
  }

  /** The members of a slice of list(range(n)). */
  lemma RangeFrom(n: nat, lo: nat)
    requires lo <= n
    ensures forall k :: k in Range(n)[lo..] <==> lo <= k < n
  {
    forall k | lo <= k < n
      ensures k in Range(n)[lo..]
    {
      assert Range(n)[lo..][k - lo] == k;
    }
  }

  /** Whether the session at position p of the session list joins group k:
      the first joins all; with a single group everyone joins it; the
      others join from group (p - 1) mod (groups - 1) + 1 up. */
  predicate InGroup(g: nat, p: nat, k: int)
  {
    0 <= k < g && (p == 0 || g == 1 || (p - 1) % (g - 1) + 1 <= k)
  }

  /** The groups build_roster publishes to the session at position p. */
  function JoinedGroups(g: nat, p: nat): (r: seq<int>)
    ensures forall k :: k in r <==> InGroup(g, p, k)
  {
    if p == 0 || g == 1 then
      RangeFrom(g, 0);
      assert Range(g)[0..] == Range(g);
      Range(g)
    else
      var step := (p - 1) % (g - 1);
      if step + 1 <= g then
        RangeFrom(g, step + 1);
        Range(g)[step + 1..]
      else []
  }

  /** The sessions of `ss` that join group k. */
  function Joiners(ss: seq<int>, g: nat, k: int): (r: set<int>)
    decreases |ss|
  {
    if ss == [] then {}
    else Joiners(ss[..|ss| - 1], g, k) + (if InGroup(g, |ss| - 1, k) then {ss[|ss| - 1]} else {})
  }

  lemma {:induction false} JoinersMeaning(ss: seq<int>, g: nat, k: int, x: int)
    ensures x in Joiners(ss, g, k) <==> exists p :: 0 <= p < |ss| && InGroup(g, p, k) && ss[p] == x
    decreases |ss|
  {
    if ss != [] {
      var init := ss[..|ss| - 1];
      JoinersMeaning(init, g, k, x);
      if x in Joiners(init, g, k) {
        var p :| 0 <= p < |init| && InGroup(g, p, k) && init[p] == x;
        assert ss[p] == x;
      }
      if exists p :: 0 <= p < |ss| && InGroup(g, p, k) && ss[p] == x {
        var p :| 0 <= p < |ss| && InGroup(g, p, k) && ss[p] == x;
        if p < |init| {
          assert init[p] == x;
        }
      }
    }
  }

  /** The first session is in every group. */
  lemma FirstJoinsAll(ss: seq<int>, g: nat, k: int)
    requires ss != [] && 0 <= k < g
    ensures ss[0] in Joiners(ss, g, k)
  {
    JoinersMeaning(ss, g, k, ss[0]);
    assert InGroup(g, 0, k);
  }

  /** With one group every session joins it. */
  lemma SingleGroupHoldsAll(ss: seq<int>, x: int)
    ensures x in Joiners(ss, 1, 0) <==> x in ss
  {
    JoinersMeaning(ss, 1, 0, x);
    if x in ss {
      var p :| 0 <= p < |ss| && ss[p] == x;
      assert InGroup(1, p, 0);
    }
  }

  /** With several groups, group 0 holds the first session only, when the
      sessions are distinct. */
  lemma GroupZeroIsSolo(ss: seq<int>, g: nat)
    requires ss != [] && g > 1
    requires forall i, j :: 0 <= i < j < |ss| ==> ss[i] != ss[j]
    ensures Joiners(ss, g, 0) == {ss[0]}
  {
    forall x
      ensures x in Joiners(ss, g, 0) <==> x == ss[0]
    {
      JoinersMeaning(ss, g, 0, x);
      assert InGroup(g, 0, 0);
      if x in Joiners(ss, g, 0) {
        var p :| 0 <= p < |ss| && InGroup(g, p, 0) && ss[p] == x;
        assert p == 0;
      }
    }
  }

  /** Every session joins the last group. */
  lemma LastGroupHoldsAll(ss: seq<int>, g: nat, x: int)
    requires g > 0
    ensures x in Joiners(ss, g, g - 1) <==> x in ss
  {
    JoinersMeaning(ss, g, g - 1, x);
    if x in ss {
      var p :| 0 <= p < |ss| && ss[p] == x;
      assert InGroup(g, p, g - 1);
    }
  }

  /** A group holds every session of a lower group, so group sizes never
      decrease with the group index. */
  lemma {:induction false} GroupsGrow(ss: seq<int>, g: nat, k: int, k2: int)
    requires 0 <= k <= k2 < g
    ensures Joiners(ss, g, k) <= Joiners(ss, g, k2)
    ensures |Joiners(ss, g, k)| <= |Joiners(ss, g, k2)|
    decreases |ss|
  {
    if ss != [] {
      GroupsGrow(ss[..|ss| - 1], g, k, k2);
    }
    SubsetSize(Joiners(ss, g, k), Joiners(ss, g, k2));
  }

  lemma SubsetSize(a: set<int>, b: set<int>)
    requires a <= b
    ensures |a| <= |b|
  {
    assert b == a + (b - a);
    assert a * (b - a) == {};
  }

  /** What the roster leaves in group k: what was there, plus its joiners. */
  function Members(groups: map<int, set<int>>, k: int): set<int>
  {
    if k in groups then groups[k] else {}
  }

  /** `now` is `before` with `s` added to each group of `groups`. */
  ghost predicate Added(before: map<int, set<int>>, now: map<int, set<int>>, s: int, groups: seq<int>)
  {
    forall k :: Members(now, k) == Members(before, k) + (if k in groups then {s} else {})
  }

  /** `now` is `start` with each session of the roster `ss` added to the
      groups its position puts it in. */
  ghost predicate Rostered(start: map<int, set<int>>, now: map<int, set<int>>, ss: seq<int>, g: nat)
  {
    forall k :: Members(now, k) == Members(start, k) + Joiners(ss, g, k)
  }

  datatype Publication =
    | Groups(topic: string, groups: seq<int>)
    | Report(topic: string, task: string, session: int, group: Value)

  /** The join_groups messages of a roster, one per session in order. */
  function Invitations(ss: seq<int>, g: nat): seq<Publication>
  {
    seq(|ss|, p requires 0 <= p < |ss| => Groups(JoinTopic(ss[p]), JoinedGroups(g, p)))
  }

  // ----- the leader's bookkeeping -----

  /** A StatAggregator, as a value. */
  datatype Aggregate = Aggregate(attribute: string, stats: seq<Sample>)

  /** done_tasks[task][group] / error_tasks[task][group], empty by default. */
  function Sessions(m: map<(Value, Value), seq<Value>>, key: (Value, Value)): seq<Value>
  {
    if key in m then m[key] else []
  }

  /** worker_done / worker_error: read task, session and group, KeyError
      when one is missing, and append the session. */
  function Recorded(m: map<(Value, Value), seq<Value>>, message: Json): (r: Result<map<(Value, Value), seq<Value>>>)
    ensures r.Err? <==> !("task" in message && "session" in message && "group" in message)
    ensures r.Ok? ==>
      Sessions(r.value, (message["task"], message["group"])) == Sessions(m, (message["task"], message["group"])) + [message["session"]] &&
      forall key :: key != (message["task"], message["group"]) ==> Sessions(r.value, key) == Sessions(m, key)
  {
    var task :- Field(message, "task");
    var session :- Field(message, "session");
    var group :- Field(message, "group");
    Ok(m[(task, group) := Sessions(m, (task, group)) + [session]])
  }

  /** receive_stat: setdefault creates the aggregator on the first value for
      (task, group, stat id), with the attribute of that call; every value
      is pushed into it. */
  function StatReceived(stats: map<(Value, Value, Value), Aggregate>, statId: Value, value: Sample, attribute: Option<string>, task: Value, group: Value): (r: map<(Value, Value, Value), Aggregate>)
    ensures (task, group, statId) in r && r.Keys == stats.Keys + {(task, group, statId)}
    ensures (task, group, statId) in stats ==>
      r[(task, group, statId)] == Aggregate(stats[(task, group, statId)].attribute, stats[(task, group, statId)].stats + [value])
    ensures (task, group, statId) !in stats ==>
      r[(task, group, statId)] == Aggregate(if attribute.None? then "__value__" else attribute.value, [value])
    ensures forall key :: key in stats && key != (task, group, statId) ==> r[key] == stats[key]
  {
    var key := (task, group, statId);
    var agg := if key in stats then stats[key] else Aggregate(if attribute.None? then "__value__" else attribute.value, []);
    stats[key := Aggregate(agg.attribute, agg.stats + [value])]
  }

  /** setdefault keeps the first aggregator: a later call's attribute is
      ignored, and the values pile up in order. */
  lemma SetdefaultKeepsFirst(stats: map<(Value, Value, Value), Aggregate>, statId: Value, v1: Sample, v2: Sample, a1: Option<string>, a2: Option<string>, task: Value, group: Value)
    requires (task, group, statId) !in stats
    ensures var once := StatReceived(stats, statId, v1, a1, task, group);
      StatReceived(once, statId, v2, a2, task, group)[(task, group, statId)] == Aggregate(if a1.None? then "__value__" else a1.value, [v1, v2])
  {
  }

  /** One more session in the roster: group k gains it exactly when the
      session's position puts it there. */
  lemma JoinersStep(ss: seq<int>, i: nat, g: nat)
    requires i < |ss|
    ensures forall k :: Joiners(ss[..i + 1], g, k) == Joiners(ss[..i], g, k) + (if InGroup(g, i, k) then {ss[i]} else {})
  {
    assert ss[..i + 1][..i] == ss[..i];
  }

  /** The groups' members after the session at position i is added to the
      groups it joins. */
  lemma RosterStep(start: map<int, set<int>>, before: map<int, set<int>>, after: map<int, set<int>>, ss: seq<int>, i: nat, g: nat)
    requires i < |ss|
    requires Rostered(start, before, ss[..i], g) && Added(before, after, ss[i], JoinedGroups(g, i))
    ensures Rostered(start, after, ss[..i + 1], g)
  {
    JoinersStep(ss, i, g);
    forall k
      ensures Members(after, k) == Members(start, k) + Joiners(ss[..i + 1], g, k)
    {
      assert Members(before, k) == Members(start, k) + Joiners(ss[..i], g, k);
      assert (k in JoinedGroups(g, i)) == InGroup(g, i, k);
    }
  }

  /** The join_groups message of the session at position i follows those of
      the sessions before it. */
  lemma InvitationsStep(start: seq<Publication>, prior: seq<Publication>, ss: seq<int>, i: nat, g: nat, groups: seq<int>)
    requires i < |ss| && prior == start + Invitations(ss[..i], g) && groups == JoinedGroups(g, i)
    ensures prior + [Groups(JoinTopic(ss[i]), groups)] == start + Invitations(ss[..i + 1], g)
  {
    assert Invitations(ss[..i + 1], g) == Invitations(ss[..i], g) + [Groups(JoinTopic(ss[i]), groups)];
  }

  /** The first session alone. */
  lemma RosterStart(ss: seq<int>, g: nat)
    requires ss != []
    ensures forall k :: Joiners(ss[..1], g, k) == (if k in Range(g) then {ss[0]} else {})
    ensures Invitations(ss[..1], g) == [Groups(JoinTopic(ss[0]), Range(g))]
  {
    assert ss[..1][..0] == [];
    RangeFrom(g, 0);
    assert Range(g)[0..] == Range(g);
  }

  /** The WorkerComponent state the core touches: the class-level tables
      and the instance's groups. */
  class WorkerComponent {
    var allGroups: map<int, set<int>>
    var workerGroups: seq<int>
    var doneTasks: map<(Value, Value), seq<Value>>
    var errorTasks: map<(Value, Value), seq<Value>>
    var stats: map<(Value, Value, Value), Aggregate>
    var outbox: seq<Publication>
    const session: int
    const groupsCount: nat

    constructor (session: int, groupsCount: nat)
      ensures allGroups == map[] && workerGroups == [] && doneTasks == map[] && errorTasks == map[] && stats == map[] && outbox == []
      ensures this.session == session && this.groupsCount == groupsCount
    {
      this.session := session;
      this.groupsCount := groupsCount;
      allGroups := map[];
      workerGroups := [];
      doneTasks := map[];
      errorTasks := map[];
      stats := map[];
      outbox := [];
    }

    /** for group in groups: all_groups[group].add(s) */
    method AddToGroups(s: int, groups: seq<int>)
      modifies this
      ensures Added(old(allGroups), allGroups, s, groups)
      ensures outbox == old(outbox) && workerGroups == old(workerGroups)
      ensures doneTasks == old(doneTasks) && errorTasks == old(errorTasks) && stats == old(stats)
    {
      var i := 0;
      while i < |groups|
        invariant 0 <= i <= |groups|
        invariant forall k :: Members(allGroups, k) == Members(old(allGroups), k) + (if k in groups[..i] then {s} else {})
        invariant outbox == old(outbox) && workerGroups == old(workerGroups)
        invariant doneTasks == old(doneTasks) && errorTasks == old(errorTasks) && stats == old(stats)
      {
        assert groups[..i + 1] == groups[..i] + [groups[i]];
        allGroups := allGroups[groups[i] := Members(allGroups, groups[i]) + {s}];
        i := i + 1;
      }
      assert groups[..i] == groups;
    }

    /** build_roster over the given session list: IndexError when it is
        empty; otherwise every session is told its groups, in order, and
        recorded in each of them. */
    method BuildRoster(sessions: seq<int>) returns (status: Status)
      modifies this
      ensures sessions == [] ==> status == Failed(IndexError) && allGroups == old(allGroups) && outbox == old(outbox)
      ensures sessions != [] ==> status == Done && outbox == old(outbox) + Invitations(sessions, groupsCount)
      ensures sessions != [] ==> forall k :: Members(allGroups, k) == Members(old(allGroups), k) + Joiners(sessions, groupsCount, k)
      ensures workerGroups == old(workerGroups) && doneTasks == old(doneTasks) && errorTasks == old(errorTasks) && stats == old(stats)
    {
      var groupNames := Range(groupsCount);
      if |sessions| == 0 {
        return Failed(IndexError);
      }
      var singleRunner := sessions[0];
      outbox := outbox + [Groups(JoinTopic(singleRunner), groupNames)];
      AddToGroups(singleRunner, groupNames);
      RosterStart(sessions, groupsCount);
      var i := 1;
      while i < |sessions|
        invariant 1 <= i <= |sessions|
        invariant outbox == old(outbox) + Invitations(sessions[..i], groupsCount)
        invariant Rostered(old(allGroups), allGroups, sessions[..i], groupsCount)
        invariant workerGroups == old(workerGroups) && doneTasks == old(doneTasks) && errorTasks == old(errorTasks) && stats == old(stats)
      {
        var s := sessions[i];
        var sessionGroups: seq<int>;
        if groupsCount == 1 {
          sessionGroups := groupNames;
        } else {
          var idx := i - 1;
          var step := idx % (groupsCount - 1);
          sessionGroups := if step + 1 <= |groupNames| then groupNames[step + 1..] else [];
        }
        assert sessionGroups == JoinedGroups(groupsCount, i);
        InvitationsStep(old(outbox), outbox, sessions, i, groupsCount, sessionGroups);
        outbox := outbox + [Groups(JoinTopic(s), sessionGroups)];
        ghost var before := allGroups;
        AddToGroups(s, sessionGroups);
        RosterStep(old(allGroups), before, allGroups, sessions, i, groupsCount);
        i := i + 1;
      }
      assert sessions[..i] == sessions;
      return Done;
    }

    /** join_groups */
    method JoinGroups(groups: seq<int>)
      modifies this
      ensures workerGroups == groups
      ensures allGroups == old(allGroups) && outbox == old(outbox)
      ensures doneTasks == old(doneTasks) && errorTasks == old(errorTasks) && stats == old(stats)
    {
      workerGroups := groups;
    }

    /** start_task: a message for a group this worker is not in is
        ignored; otherwise `workers` must be present, the profiler task runs with
        outcome `outcome`, a failure is published to the error topic and
        re-raised, and the done topic is published either way. */
    method StartTask(taskName: string, message: Json, outcome: Status) returns (status: Status)
      modifies this
      ensures var group := FieldOrNull(message, "group");
        (!(group.Int? && group.i in workerGroups) ==> status == Done && outbox == old(outbox)) &&
        (group.Int? && group.i in workerGroups && "workers" !in message ==> status == Failed(KeyError) && outbox == old(outbox)) &&
        (group.Int? && group.i in workerGroups && "workers" in message ==>
          status == outcome &&
          outbox == old(outbox) +
            (if outcome.Failed? then [Report(ErrorTopic(taskName), taskName, session, group)] else []) +
            [Report(DoneTopic(taskName), taskName, session, group)])
      ensures allGroups == old(allGroups) && workerGroups == old(workerGroups)
      ensures doneTasks == old(doneTasks) && errorTasks == old(errorTasks) && stats == old(stats)
    {
      var group := FieldOrNull(message, "group");
      if !(group.Int? && group.i in workerGroups) {
        return Done;
      }
      if "workers" !in message {
        return Failed(KeyError);
      }
      if outcome.Failed? {
        outbox := outbox + [Report(ErrorTopic(taskName), taskName, session, group)];
      }
      outbox := outbox + [Report(DoneTopic(taskName), taskName, session, group)];
      return outcome;
    }

    /** worker_done */
    method WorkerDone(message: Json) returns (status: Status)
      modifies this
      ensures var r := Recorded(old(doneTasks), message);
        (r.Ok? ==> status == Done && doneTasks == r.value) && (r.Err? ==> status == Failed(KeyError) && doneTasks == old(doneTasks))
      ensures allGroups == old(allGroups) && workerGroups == old(workerGroups) && outbox == old(outbox)
      ensures errorTasks == old(errorTasks) && stats == old(stats)
    {
      if !("task" in message && "session" in message && "group" in message) {
        return Failed(KeyError);
      }
      var key := (message["task"], message["group"]);
      doneTasks := doneTasks[key := Sessions(doneTasks, key) + [message["session"]]];
      return Done;
    }

    /** worker_error */
    method WorkerError(message: Json) returns (status: Status)
      modifies this
      ensures var r := Recorded(old(errorTasks), message);
        (r.Ok? ==> status == Done && errorTasks == r.value) && (r.Err? ==> status == Failed(KeyError) && errorTasks == old(errorTasks))
      ensures allGroups == old(allGroups) && workerGroups == old(workerGroups) && outbox == old(outbox)
      ensures doneTasks == old(doneTasks) && stats == old(stats)
    {
      if !("task" in message && "session" in message && "group" in message) {
        return Failed(KeyError);
      }
      var key := (message["task"], message["group"]);
      errorTasks := errorTasks[key := Sessions(errorTasks, key) + [message["session"]]];
      return Done;
    }

    /** receive_stat */
    method ReceiveStat(statId: Value, value: Sample, attribute: Option<string>, task: Value, group: Value)
      modifies this
      ensures stats == StatReceived(old(stats), statId, value, attribute, task, group)
      ensures allGroups == old(allGroups) && workerGroups == old(workerGroups) && outbox == old(outbox)
      ensures doneTasks == old(doneTasks) && errorTasks == old(errorTasks)
    {
      var key := (task, group, statId);
      var stat: Aggregate;
      if key in stats {
        stat := stats[key];
      } else {
        stat := Aggregate(if attribute.None? then "__value__" else attribute.value, []);
      }
      stats := stats[key := Aggregate(stat.attribute, stat.stats + [value])];
    }
  }
}
