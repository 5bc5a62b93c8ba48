// ScopeWamp: the bus presence of one scope.  join registers the scope's
// callees, then its subscribers, then its hooks, once; leave releases the
// handles collected so far.  The session's register/subscribe answers are
// the parameter `accepts`; every attempt and every release goes to the
// outbox `bus` in the order the session sees them.

module Wamp {
  import opened Managers
  import opened Scopes

  /** A registered procedure or a subscribed topic. */
  datatype HandleKind = Procedure | Topic

  datatype Handle = Handle(kind: HandleKind, uri: string)

  /** What the session is asked: to register or subscribe, or to
      unregister or unsubscribe a handle it granted. */
  datatype BusOp = Attempt(handle: Handle) | Release(handle: Handle)

  datatype WampState = WampState(callees: seq<Handle>, subscriptions: seq<Handle>, started: bool, bus: seq<BusOp>)

  /** The handles the session grants, in attempt order. */
  function Kept(hs: seq<Handle>, accepts: Handle -> bool): (r: seq<Handle>)
    ensures |r| <= |hs|
  {
    if hs == [] then []
    else Kept(hs[..|hs| - 1], accepts) + (if accepts(hs[|hs| - 1]) then [hs[|hs| - 1]] else [])
  }

  function Attempts(hs: seq<Handle>): seq<BusOp>
  {
    seq(|hs|, i requires 0 <= i < |hs| => Attempt(hs[i]))
  }

  function Releases(hs: seq<Handle>): seq<BusOp>
  {
    seq(|hs|, i requires 0 <= i < |hs| => Release(hs[i]))
  }

  /** scope.get_routing(name) for each exposed callee or subscriber name. */
  function Routes(root: string, s: Scope, k: HandleKind, names: seq<string>): seq<Handle>
  {
    seq(|names|, i requires 0 <= i < |names| => Handle(k, Route(root, s, names[i])))
  }

  /** ROOT_TOPIC.webhooks.<hooked> for each hook. */
  function HookTopics(root: string, hooked: seq<string>): seq<Handle>
  {
    seq(|hooked|, i requires 0 <= i < |hooked| => Handle(Topic, root + ".webhooks." + hooked[i]))
  }

  /** The scope's decorated methods, by exposed name, in inspector order. */
  datatype Methods = Methods(callees: seq<string>, subscribers: seq<string>, hooks: seq<string>)

  /** Everything join asks for: callees, subscribers, hooks. */
  function Requests(root: string, s: Scope, m: Methods): seq<Handle>
  {
    Routes(root, s, Procedure, m.callees) + Routes(root, s, Topic, m.subscribers) + HookTopics(root, m.hooks)
  }

  /** join: register_methods when not started, then started. */
  function Joined(w: WampState, root: string, s: Scope, m: Methods, accepts: Handle -> bool): WampState
  {
    if w.started then w
    else
      var cs := Routes(root, s, Procedure, m.callees);
      var ss := Routes(root, s, Topic, m.subscribers);
      var hs := HookTopics(root, m.hooks);
      WampState(w.callees + Kept(cs, accepts),
                w.subscriptions + Kept(ss, accepts) + Kept(hs, accepts),
                true,
                w.bus + Attempts(cs) + Attempts(ss) + Attempts(hs))
  }

  /** leave: unregister_methods when started, then not started; the lists
      stay as they are. */
  function Left(w: WampState): WampState
  {
    if !w.started then w
    else WampState(w.callees, w.subscriptions, false, w.bus + Releases(w.callees) + Releases(w.subscriptions))
  }

  const Fresh := WampState([], [], false, [])

  /** A granted handle was asked for and accepted; every accepted request
      is kept. */
  lemma {:induction false} KeptMeaning(hs: seq<Handle>, accepts: Handle -> bool, h: Handle)
    ensures h in Kept(hs, accepts) <==> h in hs && accepts(h)
  {
    if hs != [] {
      var init := hs[..|hs| - 1];
      KeptMeaning(init, accepts, h);
      assert hs == init + [hs[|hs| - 1]];
    }
  }

  /** Nothing refused is kept, so with every request accepted the lists
      hold all of them. */
  lemma {:induction false} KeptAll(hs: seq<Handle>, accepts: Handle -> bool)
    requires forall h :: h in hs ==> accepts(h)
    ensures Kept(hs, accepts) == hs
  {
    if hs != [] {
      var init := hs[..|hs| - 1];
      KeptAll(init, accepts);
      assert hs == init + [hs[|hs| - 1]];
    }
  }

  /** join and leave act once: a second join, or a second leave, changes
      nothing. */
  lemma JoinLeaveIdempotent(w: WampState, root: string, s: Scope, m: Methods, accepts: Handle -> bool)
    ensures Joined(Joined(w, root, s, m, accepts), root, s, m, accepts) == Joined(w, root, s, m, accepts)
    ensures Left(Left(w)) == Left(w)
    ensures Joined(w, root, s, m, accepts).started && !Left(w).started
  {
  }

  /** From a fresh wamp, join asks for every callee, subscriber and hook in
      that order, and leave then releases exactly the granted ones, callees
      first; hook handles are released with the subscriptions. */
  lemma FirstCycle(root: string, s: Scope, m: Methods, accepts: Handle -> bool)
    ensures var j := Joined(Fresh, root, s, m, accepts);
      j.bus == Attempts(Requests(root, s, m)) &&
      j.callees == Kept(Routes(root, s, Procedure, m.callees), accepts) &&
      (forall h :: h in HookTopics(root, m.hooks) && accepts(h) ==> h in j.subscriptions) &&
      Left(j).bus == j.bus + Releases(j.callees) + Releases(j.subscriptions)
  {
    var cs := Routes(root, s, Procedure, m.callees);
    var ss := Routes(root, s, Topic, m.subscribers);
    var hs := HookTopics(root, m.hooks);
    var j := Joined(Fresh, root, s, m, accepts);
    assert Attempts(cs) + Attempts(ss) + Attempts(hs) == Attempts(cs + ss + hs);
    assert [] + Attempts(cs) == Attempts(cs);
    forall h | h in hs && accepts(h)
      ensures h in j.subscriptions
    {
      KeptMeaning(hs, accepts, h);
    }
  }

  /** The handle lists are never cleared: after a second join the lists
      hold the first join's handles followed by the second's, and the next
      leave releases the first ones again. */
  lemma SecondCycleReleasesAgain(root: string, s: Scope, m: Methods, accepts: Handle -> bool)
    ensures var j1 := Joined(Fresh, root, s, m, accepts);
      var j2 := Joined(Left(j1), root, s, m, accepts);
      j2.callees == j1.callees + j1.callees &&
      j2.subscriptions == j1.subscriptions + j1.subscriptions &&
      Left(j2).bus == j2.bus + Releases(j1.callees + j1.callees) + Releases(j1.subscriptions + j1.subscriptions)
  {
    var cs := Kept(Routes(root, s, Procedure, m.callees), accepts);
    var ss := Kept(Routes(root, s, Topic, m.subscribers), accepts);
    var hs := Kept(HookTopics(root, m.hooks), accepts);
    assert [] + cs == cs;
    assert [] + ss + hs == ss + hs;
    assert (ss + hs) + ss + hs == (ss + hs) + (ss + hs);
  }

  class ScopeWamp {
    var callees: seq<Handle>
    var subscriptions: seq<Handle>
    var started: bool
    var bus: seq<BusOp>
    const root: string
    const scope: Scope
    const accepts: Handle -> bool

    function State(): WampState
      reads this
    {
      WampState(callees, subscriptions, started, bus)
    }

    constructor (root: string, scope: Scope, accepts: Handle -> bool)
      ensures State() == Fresh
      ensures this.root == root && this.scope == scope && this.accepts == accepts
    {
      this.root := root;
      this.scope := scope;
      this.accepts := accepts;
      callees := [];
      subscriptions := [];
      started := false;
      bus := [];
    }

    /** The loop of _register_callees over ready-made URIs: a refused
        registration is only logged. */
    method RegisterCallees(hs: seq<Handle>)
      modifies this
      ensures callees == old(callees) + Kept(hs, accepts)
      ensures bus == old(bus) + Attempts(hs)
      ensures subscriptions == old(subscriptions) && started == old(started)
    {
      var i := 0;
      while i < |hs|
        invariant 0 <= i <= |hs|
        invariant callees == old(callees) + Kept(hs[..i], accepts)
        invariant bus == old(bus) + Attempts(hs[..i])
        invariant subscriptions == old(subscriptions) && started == old(started)
      {
        assert hs[..i + 1][..i] == hs[..i];
        assert Attempts(hs[..i + 1]) == Attempts(hs[..i]) + [Attempt(hs[i])];
        bus := bus + [Attempt(hs[i])];
        if accepts(hs[i]) {
          callees := callees + [hs[i]];
        }
        i := i + 1;
      }
      assert hs[..i] == hs;
    }

    /** The loop of _register_subscribers and _register_hooks. */
    method SubscribeAll(hs: seq<Handle>)
      modifies this
      ensures subscriptions == old(subscriptions) + Kept(hs, accepts)
      ensures bus == old(bus) + Attempts(hs)
      ensures callees == old(callees) && started == old(started)
    {
      var i := 0;
      while i < |hs|
        invariant 0 <= i <= |hs|
        invariant subscriptions == old(subscriptions) + Kept(hs[..i], accepts)
        invariant bus == old(bus) + Attempts(hs[..i])
        invariant callees == old(callees) && started == old(started)
      {
        assert hs[..i + 1][..i] == hs[..i];
        assert Attempts(hs[..i + 1]) == Attempts(hs[..i]) + [Attempt(hs[i])];
        bus := bus + [Attempt(hs[i])];
        if accepts(hs[i]) {
          subscriptions := subscriptions + [hs[i]];
        }
        i := i + 1;
      }
      assert hs[..i] == hs;
    }

    /** _unregister_callees and _unregister_subscribers: every handle of
        the list, in order. */
    method ReleaseAll(hs: seq<Handle>)
      modifies this
      ensures bus == old(bus) + Releases(hs)
      ensures callees == old(callees) && subscriptions == old(subscriptions) && started == old(started)
    {
      var i := 0;
      while i < |hs|
        invariant 0 <= i <= |hs|
        invariant bus == old(bus) + Releases(hs[..i])
        invariant callees == old(callees) && subscriptions == old(subscriptions) && started == old(started)
      {
        assert Releases(hs[..i + 1]) == Releases(hs[..i]) + [Release(hs[i])];
        bus := bus + [Release(hs[i])];
        i := i + 1;
      }
      assert hs[..i] == hs;
    }

    /** join */
    method Join(m: Methods)
      modifies this
      ensures State() == Joined(old(State()), root, scope, m, accepts)
    {
      if started == false {
        RegisterCallees(Routes(root, scope, Procedure, m.callees));
        SubscribeAll(Routes(root, scope, Topic, m.subscribers));
        SubscribeAll(HookTopics(root, m.hooks));
        started := true;
      }
    }

    /** leave */
    method Leave()
      modifies this
      ensures State() == Left(old(State()))
    {
      if started == true {
        ReleaseAll(callees);
        ReleaseAll(subscriptions);
        started := false;
      }
    }
  }
}
