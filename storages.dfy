// SIMPLStorage: the read-through cache in front of the games API, the save
// of a scope's payload, the load of a scope, and the user lookup that
// attaches the runuser of the scope's run.
//
// The games API is a set of function parameters: `remote` answers a get,
// `remoteList` a filter, `createOrUpdate` a save.  encode_dict (base64 of
// the JSON text) is the parameter `encode`; all the model needs of it is
// that its output, like every base64 text, holds no colon.

module Storages {
  import opened Exceptions
  import opened Payload
  import opened Constants
  import opened Strings
  import opened Managers
  import opened Traversing
  import opened Restoring

  /** What the cache holds: a get's payload or a filter's list. */
  datatype Cached = One(json: Json) | Many(items: seq<Json>)

  datatype CacheEntry = CacheEntry(value: Cached, timeout: int)

  type Entries = map<string, CacheEntry>

  // ----- cache keys -----

  /** _get_cache_key(method, endpoint, lookup), with `encoded` the
      encode_dict of the lookup. */
  function CacheKey(meth: string, endpoint: string, encoded: string): string
  {
    endpoint + "." + meth + ":" + encoded
  }

  /** The key read back: the encoded lookup after the last colon, the
      method after the last dot before it, the endpoint before that. */
  function ParseKey(key: string): Option<(string, string, string)>
  {
    var a := RSplit(key, ':', 1);
    if |a| != 2 then None
    else
      var b := RSplit(a[0], '.', 1);
      if |b| != 2 then None else Some((b[0], b[1], a[1]))
  }

  /** A key gives back its endpoint, method and encoded lookup, whatever
      dots or colons the endpoint holds. */
  lemma KeyRoundTrip(meth: string, endpoint: string, encoded: string)
    requires ':' !in encoded && '.' !in meth
    ensures ParseKey(CacheKey(meth, endpoint, encoded)) == Some((endpoint, meth, encoded))
  {
    var front := endpoint + "." + meth;
    assert CacheKey(meth, endpoint, encoded) == front + [':'] + encoded;
    RSplitJoin(front, ':', encoded, 1);
    assert front == endpoint + ['.'] + meth;
    RSplitJoin(endpoint, '.', meth, 1);
  }

  /** So a get and a filter never share a key, for any endpoints and
      lookups. */
  lemma GetAndFilterKeysDiffer(e1: string, e2: string, enc1: string, enc2: string)
    requires ':' !in enc1 && ':' !in enc2
    ensures CacheKey("get", e1, enc1) != CacheKey("filter", e2, enc2)
  {
    KeyRoundTrip("get", e1, enc1);
    KeyRoundTrip("filter", e2, enc2);
  }

  /** encode_dict never writes a colon. */
  ghost predicate Base64Like(encode: Json -> string)
  {
    forall l :: ':' !in encode(l)
  }

  /** Every key of a get holds a payload and every key of a filter a list,
      as only get and filter write the cache. */
  ghost predicate Typed(entries: Entries)
  {
    forall k :: k in entries && ParseKey(k).Some? ==>
      (ParseKey(k).value.1 == "get" ==> entries[k].value.One?) &&
      (ParseKey(k).value.1 == "filter" ==> entries[k].value.Many?)
  }

  // ----- get and filter -----

  /** get(endpoint, timeout, **lookup): a cached payload is returned as it
      is; on a miss the remote payload is fetched once and stored with the
      timeout.  The last component says whether the remote was asked. */
  function CachedGet(entries: Entries, endpoint: string, timeout: int, lookup: Json,
                     encode: Json -> string, remote: (string, Json) -> Json): (r: (Json, Entries, bool))
    requires Typed(entries) && Base64Like(encode)
    ensures Typed(r.1)
  {
    var key := CacheKey("get", endpoint, encode(lookup));
    KeyRoundTrip("get", endpoint, encode(lookup));
    if key in entries then (entries[key].value.json, entries, false)
    else
      var payload := remote(endpoint, lookup);
      (payload, entries[key := CacheEntry(One(payload), timeout)], true)
  }

  /** filter(endpoint, timeout, **lookup): the same for lists, which keep
      the remote order. */
  function CachedFilter(entries: Entries, endpoint: string, timeout: int, lookup: Json,
                        encode: Json -> string, remoteList: (string, Json) -> seq<Json>): (r: (seq<Json>, Entries, bool))
    requires Typed(entries) && Base64Like(encode)
    ensures Typed(r.1)
  {
    var key := CacheKey("filter", endpoint, encode(lookup));
    KeyRoundTrip("filter", endpoint, encode(lookup));
    if key in entries then (entries[key].value.items, entries, false)
    else
      var payloads := remoteList(endpoint, lookup);
      (payloads, entries[key := CacheEntry(Many(payloads), timeout)], true)
  }

  /** A hit asks nothing of the remote and leaves the cache alone; a miss
      asks once, stores exactly that answer under the key, and the next get
      is a hit returning it. */
  lemma CachedGetMeaning(entries: Entries, endpoint: string, timeout: int, lookup: Json,
                         encode: Json -> string, remote: (string, Json) -> Json)
    requires Typed(entries) && Base64Like(encode)
    ensures var key := CacheKey("get", endpoint, encode(lookup));
      var r := CachedGet(entries, endpoint, timeout, lookup, encode, remote);
      (r.2 <==> key !in entries) &&
      (key in entries ==> One(r.0) == entries[key].value && r.1 == entries) &&
      (key !in entries ==> r.0 == remote(endpoint, lookup) && r.1 == entries[key := CacheEntry(One(r.0), timeout)]) &&
      forall other :: CachedGet(r.1, endpoint, timeout, lookup, encode, other) == (r.0, r.1, false)
  {
    KeyRoundTrip("get", endpoint, encode(lookup));
  }

  /** The same for filter; a filter never disturbs the entry of a get. */
  lemma CachedFilterMeaning(entries: Entries, endpoint: string, timeout: int, lookup: Json,
                            encode: Json -> string, remoteList: (string, Json) -> seq<Json>, e2: string, l2: Json)
    requires Typed(entries) && Base64Like(encode)
    ensures var key := CacheKey("filter", endpoint, encode(lookup));
      var r := CachedFilter(entries, endpoint, timeout, lookup, encode, remoteList);
      (r.2 <==> key !in entries) &&
      (key in entries ==> Many(r.0) == entries[key].value && r.1 == entries) &&
      (key !in entries ==> r.0 == remoteList(endpoint, lookup) && r.1 == entries[key := CacheEntry(Many(r.0), timeout)]) &&
      (forall other :: CachedFilter(r.1, endpoint, timeout, lookup, encode, other) == (r.0, r.1, false)) &&
      var gk := CacheKey("get", e2, encode(l2));
      (gk in r.1 <==> gk in entries) && (gk in entries ==> r.1[gk] == entries[gk])
  {
    KeyRoundTrip("filter", endpoint, encode(lookup));
    GetAndFilterKeysDiffer(e2, endpoint, encode(l2), encode(lookup));
  }

  // ----- save -----

  /** update_json: {parent kind: parent pk}, updated with the scope's
      payload, then with the argument. */
  function SaveRequest(parent: Scope, current: Json, arg: Json): Json
  {
    map[Name(parent.kind) := Pk(parent)] + current + arg
  }

  /** Later sources win: the argument's fields, then the payload's, then the
      parent's pk; nothing else is sent. */
  lemma SaveRequestMeaning(parent: Scope, current: Json, arg: Json)
    ensures SaveRequest(parent, current, arg).Keys == {Name(parent.kind)} + current.Keys + arg.Keys
    ensures forall a :: a in arg ==> SaveRequest(parent, current, arg)[a] == arg[a]
    ensures forall a :: a in current && a !in arg ==> SaveRequest(parent, current, arg)[a] == current[a]
    ensures Name(parent.kind) !in current && Name(parent.kind) !in arg ==>
      SaveRequest(parent, current, arg)[Name(parent.kind)] == Pk(parent)
  {
  }

  /** resource_name_plural */
  function Plural(k: Kind): string
  {
    Name(k) + "s"
  }

  /** save(json): the request goes to the scope's endpoint; the game has no
      parent, and `None.resource_name` raises AttributeError. */
  function Saved(g: Graph, s: Scope, arg: Option<Json>, createOrUpdate: (string, Json) -> Json): (r: Result<Json>)
    requires Valid(g)
  {
    var parent :- ParentOf(g, s);
    if parent.None? then Err(AttributeError)
    else Ok(createOrUpdate(Plural(s.kind), SaveRequest(parent.value, s.json, if arg.None? then map[] else arg.value)))
  }

  /** A scope other than the game whose parent resolves saves through its
      own endpoint with its parent's pk, its payload and the argument. */
  lemma SavedMeaning(g: Graph, s: Scope, arg: Option<Json>, createOrUpdate: (string, Json) -> Json)
    requires Valid(g)
    ensures s.kind == Game ==> Saved(g, s, arg, createOrUpdate) == Err(AttributeError)
    ensures ParentOf(g, s).Ok? && s.kind != Game ==>
      var p := ParentOf(g, s).value.value;
      Name(p.kind) in s.json && s.json[Name(p.kind)] == Pk(p) &&
      Saved(g, s, arg, createOrUpdate) == Ok(createOrUpdate(Plural(s.kind), SaveRequest(p, s.json, if arg.None? then map[] else arg.value)))
    ensures ParentOf(g, s).Err? ==> Saved(g, s, arg, createOrUpdate) == Err(ParentOf(g, s).error)
  {
  }

  // ----- json_to_scope -----

  /** The kind an endpoint name of endpoint_to_classes stands for. */
  function EndpointKind(name: string): (r: Option<Kind>)
    ensures r.Some? ==> r.value != Game && name == Plural(r.value)
  {
    if |name| > 0 && name[|name| - 1] == 's' then
      match KindNamed(name[..|name| - 1])
      case Some(k) =>
        NamesIdentifyKinds(k, name[..|name| - 1]);
        if k != Game then Some(k) else None
      case None => None
    else None
  }

  /** Every endpoint Game.restore walks names its own kind. */
  lemma EndpointKindOfEndpoints(i: nat)
    requires i < |Endpoints|
    ensures EndpointKind(Endpoints[i].0) == Some(Endpoints[i].1)
  {
    EndpointsCoverKinds(Endpoints[i].1);
    var k := Endpoints[i].1;
    NamesIdentifyKinds(k, Name(k));
    assert Endpoints[i].0[..|Endpoints[i].0| - 1] == Name(k);
  }

  /** The scopes of kind `k` over the payloads, in order. */
  function ScopesOf(k: Kind, items: seq<Json>): (r: seq<Scope>)
    ensures |r| == |items| && forall i :: 0 <= i < |items| ==> r[i] == Scope(k, items[i])
  {
    seq(|items|, i requires 0 <= i < |items| => Scope(k, items[i]))
  }

  /** json_to_scope(plural, items): KeyError for a name without a class or
      an item without an id or filter field, else ScopeManager of the
      items. */
  function JsonToScope(plural: string, items: seq<Json>): (r: Result<Manager>)
  {
    match EndpointKind(plural)
    case None => Err(KeyError)
    case Some(k) =>
      var ss := ScopesOf(k, items);
      if !AllIndexable(ss) then Err(KeyError) else Ok(Build(ss))
  }

  /** It succeeds exactly for an endpoint's name and items that all index;
      the manager then holds one slot per distinct id, and lists the items in
      order, all of the endpoint's kind, when no id repeats. */
  lemma JsonToScopeMeaning(plural: string, items: seq<Json>)
    ensures JsonToScope(plural, items).Ok? <==>
      EndpointKind(plural).Some? && AllIndexable(ScopesOf(EndpointKind(plural).value, items))
    ensures JsonToScope(plural, items).Err? ==> JsonToScope(plural, items).error == KeyError
    ensures JsonToScope(plural, items).Ok? ==>
      var k := EndpointKind(plural).value;
      var m := JsonToScope(plural, items).value;
      Wf(m) && k != Game && plural == Plural(k) && |m.order| <= |items| &&
      (Distinct(PkSeq(ScopesOf(k, items))) ==> Members(m) == ScopesOf(k, items))
  {
    if JsonToScope(plural, items).Ok? {
      var ss := ScopesOf(EndpointKind(plural).value, items);
      BuildCount(ss);
      if Distinct(PkSeq(ss)) {
        BuildLists(ss);
      }
    }
  }

  // ----- the storage object -----

  /** The cache shared by every storage. */
  class Cache {
    var entries: Entries

    constructor ()
      ensures entries == map[]
    {
      entries := map[];
    }
  }

  /** What get_user returns: the user's payload and, when the scope has a
      run, the runuser attached to it. */
  datatype FetchedUser = FetchedUser(json: Json, runuser: Option<Json>)

  class Storage {
    const cache: Cache
    const encode: Json -> string

    constructor (cache: Cache, encode: Json -> string)
      ensures this.cache == cache && this.encode == encode
    {
      this.cache := cache;
      this.encode := encode;
    }

    method Get(endpoint: string, timeout: int, lookup: Json, remote: (string, Json) -> Json)
      returns (payload: Json, fetched: bool)
      requires Typed(cache.entries) && Base64Like(encode)
      modifies cache
      ensures (payload, cache.entries, fetched) == CachedGet(old(cache.entries), endpoint, timeout, lookup, encode, remote)
    {
      var key := CacheKey("get", endpoint, encode(lookup));
      KeyRoundTrip("get", endpoint, encode(lookup));
      if key in cache.entries {
        return cache.entries[key].value.json, false;
      }
      payload := remote(endpoint, lookup);
      cache.entries := cache.entries[key := CacheEntry(One(payload), timeout)];
      fetched := true;
    }

    method Filter(endpoint: string, timeout: int, lookup: Json, remoteList: (string, Json) -> seq<Json>)
      returns (payloads: seq<Json>, fetched: bool)
      requires Typed(cache.entries) && Base64Like(encode)
      modifies cache
      ensures (payloads, cache.entries, fetched) == CachedFilter(old(cache.entries), endpoint, timeout, lookup, encode, remoteList)
    {
      var key := CacheKey("filter", endpoint, encode(lookup));
      KeyRoundTrip("filter", endpoint, encode(lookup));
      if key in cache.entries {
        return cache.entries[key].value.items, false;
      }
      payloads := remoteList(endpoint, lookup);
      cache.entries := cache.entries[key := CacheEntry(Many(payloads), timeout)];
      fetched := true;
    }

    /** load(**kwargs): get on the scope's endpoint with timeout 1. */
    method Load(s: Scope, lookup: Json, remote: (string, Json) -> Json) returns (payload: Json)
      requires Typed(cache.entries) && Base64Like(encode)
      modifies cache
      ensures var r := CachedGet(old(cache.entries), Plural(s.kind), 1, lookup, encode, remote);
        payload == r.0 && cache.entries == r.1
    {
      var fetched;
      payload, fetched := Get(Plural(s.kind), 1, lookup, remote);
    }

    /** save(json): build update_json by successive updates, then send it. */
    method Save(g: Graph, s: Scope, arg: Option<Json>, createOrUpdate: (string, Json) -> Json) returns (r: Result<Json>)
      requires Valid(g)
      ensures r == Saved(g, s, arg, createOrUpdate)
    {
      var json := if arg.None? then map[] else arg.value;
      var parent := ParentOf(g, s);
      if parent.Err? {
        return Err(parent.error);
      }
      if parent.value.None? {
        return Err(AttributeError);
      }
      var update: Json := map[Name(parent.value.value.kind) := Pk(parent.value.value)];
      update := update + s.json;
      update := update + json;
      return Ok(createOrUpdate(Plural(s.kind), update));
    }

    /** get_user(**lookup) */
    method GetUser(g: Graph, s: Scope, lookup: Json, remote: (string, Json) -> Json) returns (r: Result<FetchedUser>)
      requires Valid(g) && Typed(cache.entries) && Base64Like(encode)
      modifies cache
      ensures var u := UserLookup(old(cache.entries), g, s, lookup, encode, remote);
        r == u.0 && cache.entries == u.1
    {
      var userJson, userFetched := Get("users", 1, lookup, remote);
      var run := RunOf(g, s);
      if run.Err? {
        return Err(run.error);
      }
      if run.value.None? {
        return Ok(FetchedUser(userJson, None));
      }
      if s.kind == RunUser {
        return Ok(FetchedUser(userJson, Some(s.json)));
      }
      var upk := FieldOrNull(userJson, "id");
      var rpk := Pk(run.value.value);
      var loaded := Managers.Get(Container(g, RunUser), [("user", upk), ("run", rpk)]);
      if loaded.Ok? {
        return Ok(FetchedUser(userJson, Some(loaded.value.json)));
      }
      if !Catches(ScopeNotFound, loaded.error) {
        return Err(loaded.error);
      }
      var runuserJson, runuserFetched := Get("runusers", 1, map["user" := upk, "run" := rpk], remote);
      return Ok(FetchedUser(userJson, Some(runuserJson)));
    }
  }

  /** get_user: the user is fetched through the cache first; a scope with no
      run gets no runuser, a runuser scope its own payload, any other the
      loaded runuser of (user, run), fetched through the cache only when
      none is loaded. */
  function UserLookup(entries: Entries, g: Graph, s: Scope, lookup: Json, encode: Json -> string,
                      remote: (string, Json) -> Json): (r: (Result<FetchedUser>, Entries))
    requires Valid(g) && Typed(entries) && Base64Like(encode)
    ensures Typed(r.1)
  {
    var (userJson, e1, _) := CachedGet(entries, "users", 1, lookup, encode, remote);
    match RunOf(g, s)
    case Err(e) => (Err(e), e1)
    case Ok(run) =>
      if run.None? then (Ok(FetchedUser(userJson, None)), e1)
      else if s.kind == RunUser then (Ok(FetchedUser(userJson, Some(s.json))), e1)
      else
        var upk := FieldOrNull(userJson, "id");
        var rpk := Pk(run.value);
        match Managers.Get(Container(g, RunUser), [("user", upk), ("run", rpk)])
        case Ok(ru) => (Ok(FetchedUser(userJson, Some(ru.json))), e1)
        case Err(e) =>
          if !Catches(ScopeNotFound, e) then (Err(e), e1)
          else
            var (ruJson, e2, _) := CachedGet(e1, "runusers", 1, map["user" := upk, "run" := rpk], encode, remote);
            (Ok(FetchedUser(userJson, Some(ruJson))), e2)
  }

  /** A runuser is attached exactly when the scope has a run; a runuser
      scope attaches its own payload; the runusers endpoint is asked only
      when no loaded runuser matches. */
  lemma UserLookupMeaning(entries: Entries, g: Graph, s: Scope, lookup: Json, encode: Json -> string,
                          remote: (string, Json) -> Json)
    requires Valid(g) && Typed(entries) && Base64Like(encode)
    ensures var u := UserLookup(entries, g, s, lookup, encode, remote);
      var first := CachedGet(entries, "users", 1, lookup, encode, remote);
      (RunOf(g, s).Err? ==> u == (Err(RunOf(g, s).error), first.1)) &&
      (u.0.Ok? ==>
        u.0.value.json == first.0 && RunOf(g, s).Ok? &&
        (u.0.value.runuser.Some? <==> RunOf(g, s).value.Some?)) &&
      (u.0.Ok? && s.kind == RunUser && RunOf(g, s).value.Some? ==> u.0.value.runuser == Some(s.json)) &&
      (RunOf(g, s).Ok? && RunOf(g, s).value.Some? && s.kind != RunUser &&
        Managers.Get(Container(g, RunUser), [("user", FieldOrNull(first.0, "id")), ("run", Pk(RunOf(g, s).value.value))]).Ok? ==>
        u.1 == first.1 &&
        u.0 == Ok(FetchedUser(first.0, Some(Managers.Get(Container(g, RunUser), [("user", FieldOrNull(first.0, "id")), ("run", Pk(RunOf(g, s).value.value))]).value.json))))
  {
  }
}
