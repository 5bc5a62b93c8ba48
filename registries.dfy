// The registries: a dictionary keyed by name that refuses a key twice, its
// wamp flavour that stores the function with its options, the decorator that
// registers through one, and the per-scope lists of decorated methods.
//
// Registry._registry is a class attribute: every subclass that does not
// rebind it writes into the very same dictionary.  Here that dictionary is an
// object of its own (`Dict`) and each registry holds a reference to it, so
// two registries built on one `Dict` share their keys as the subclasses do.
// Functions are named by strings.

module Registries {
  import opened Exceptions

  /** The options class a wamp registry instantiates: autobahn's
      RegisterOptions for callees, SubscribeOptions for subscribers, and
      None on the base WampRegistry. */
  datatype OptionsClass = NoOptionsClass | RegisterOptions | SubscribeOptions

  /** OptionsClass(**kwargs) */
  datatype Options = Options(cls: OptionsClass, kwargs: map<string, string>)

  /** What a registry stores under a key: the bare function, or the wamp
      record {'func', 'options', 'name'}. */
  datatype Entry = Plain(func: string) | Wamp(func: string, options: Options, name: string)

  type Table = map<string, Entry>

  // ----- the dictionary operations -----

  /** register(func, key): ValueError on a key already there. */
  function Registered(t: Table, key: string, e: Entry): (r: Result<Table>)
  {
    if key in t then Err(ValueError) else Ok(t[key := e])
  }

  /** unregister(key): dict.pop, KeyError on a missing key. */
  function Unregistered(t: Table, key: string): (r: Result<Table>)
  {
    if key in t then Ok(t - {key}) else Err(KeyError)
  }

  /** registry[key] */
  function Lookup(t: Table, key: string): (r: Result<Entry>)
  {
    if key in t then Ok(t[key]) else Err(KeyError)
  }

  /** A fresh key is stored and then read back as registered; every other
      key reads as before.  A key already there is refused and nothing
      changes, so the first registration stands. */
  lemma RegisterThenLookup(t: Table, key: string, e: Entry)
    ensures key !in t <==> Registered(t, key, e).Ok?
    ensures Registered(t, key, e).Ok? ==>
      Lookup(Registered(t, key, e).value, key) == Ok(e) &&
      forall k :: k != key ==> Lookup(Registered(t, key, e).value, k) == Lookup(t, k)
    ensures key in t ==> Registered(t, key, e) == Err(ValueError) && Lookup(t, key) == Ok(t[key])
  {
  }

  /** Registering a fresh key and unregistering it gives the dictionary back;
      afterwards the key can be registered again. */
  lemma RegisterUnregisterRoundTrip(t: Table, key: string, e: Entry, e2: Entry)
    requires key !in t
    ensures Unregistered(Registered(t, key, e).value, key) == Ok(t)
    ensures Registered(Unregistered(Registered(t, key, e).value, key).value, key, e2).Ok?
  {
    assert Registered(t, key, e).value - {key} == t;
  }

  /** Unregistering drops exactly the key; a second unregister raises. */
  lemma UnregisterDropsKey(t: Table, key: string)
    requires key in t
    ensures Lookup(Unregistered(t, key).value, key) == Err(KeyError)
    ensures Unregistered(Unregistered(t, key).value, key) == Err(KeyError)
    ensures forall k :: k != key ==> Lookup(Unregistered(t, key).value, k) == Lookup(t, k)
  {
  }

  /** The record WampRegistry.register stores, or the TypeError of calling
      a missing options class. */
  function WampEntry(cls: OptionsClass, func: string, key: string, kwargs: map<string, string>): (r: Result<Entry>)
    ensures r.Ok? <==> cls != NoOptionsClass
    ensures r.Ok? ==> r.value == Wamp(func, Options(cls, kwargs), key)
  {
    if cls == NoOptionsClass then Err(TypeError) else Ok(Wamp(func, Options(cls, kwargs), key))
  }

  /** WampRegistry.register(func, key, **kwargs): the duplicate check comes
      first, then the record is built. */
  function WampRegistered(t: Table, cls: OptionsClass, func: string, key: string, kwargs: map<string, string>): Result<Table>
  {
    if key in t then Err(ValueError)
    else
      var e :- WampEntry(cls, func, key, kwargs);
      Ok(t[key := e])
  }

  /** A wamp registration of a fresh key stores {'func', 'options', 'name':
      key}; a repeated key raises ValueError whatever the options class. */
  lemma WampRegisterStores(t: Table, cls: OptionsClass, func: string, key: string, kwargs: map<string, string>)
    ensures key in t ==> WampRegistered(t, cls, func, key, kwargs) == Err(ValueError)
    ensures key !in t && cls != NoOptionsClass ==>
      WampRegistered(t, cls, func, key, kwargs) == Registered(t, key, Wamp(func, Options(cls, kwargs), key))
    ensures WampRegistered(t, cls, func, key, kwargs).Ok? ==>
      Lookup(WampRegistered(t, cls, func, key, kwargs).value, key).value.name == key
  {
  }

  // ----- the objects -----

  /** A dictionary object that several registries may share. */
  class Dict {
    var entries: Table

    constructor ()
      ensures entries == map[]
    {
      entries := map[];
    }
  }

  /** Registry, and GameRegistry, whose register is the same. */
  class Registry {
    const store: Dict

    constructor (store: Dict)
      ensures this.store == store
    {
      this.store := store;
    }

    method Register(func: string, key: string) returns (status: Status)
      modifies store
      ensures Registered(old(store.entries), key, Plain(func)).Ok? ==>
        status == Done && store.entries == Registered(old(store.entries), key, Plain(func)).value
      ensures Registered(old(store.entries), key, Plain(func)).Err? ==>
        status == Failed(ValueError) && store.entries == old(store.entries)
    {
      if key in store.entries {
        return Failed(ValueError);
      }
      store.entries := store.entries[key := Plain(func)];
      return Done;
    }

    method Unregister(key: string) returns (status: Status)
      modifies store
      ensures Unregistered(old(store.entries), key).Ok? ==>
        status == Done && store.entries == Unregistered(old(store.entries), key).value
      ensures Unregistered(old(store.entries), key).Err? ==>
        status == Failed(KeyError) && store.entries == old(store.entries)
    {
      if key !in store.entries {
        return Failed(KeyError);
      }
      store.entries := store.entries - {key};
      return Done;
    }

    /** __getitem__ */
    function Get(key: string): (r: Result<Entry>)
      reads store
      ensures r.Ok? <==> key in store.entries
      ensures r.Ok? ==> r.value == store.entries[key]
    {
      Lookup(store.entries, key)
    }
  }

  /** WampRegistry, and CalleeRegistry and PubSubRegistry, which only set
      the options class. */
  class WampRegistry {
    const store: Dict
    const optionsClass: OptionsClass

    constructor (store: Dict, optionsClass: OptionsClass)
      ensures this.store == store && this.optionsClass == optionsClass
    {
      this.store := store;
      this.optionsClass := optionsClass;
    }

    method Register(func: string, key: string, kwargs: map<string, string>) returns (status: Status)
      modifies store
      ensures var r := WampRegistered(old(store.entries), optionsClass, func, key, kwargs);
        (r.Ok? ==> status == Done && store.entries == r.value) &&
        (r.Err? ==> status == Failed(r.error) && store.entries == old(store.entries))
    {
      if key in store.entries {
        return Failed(ValueError);
      }
      var e := WampEntry(optionsClass, func, key, kwargs);
      if e.Err? {
        return Failed(e.error);
      }
      store.entries := store.entries[key := e.value];
      return Done;
    }
  }

  /** RegisterDecorator(*args, **kwargs): registers the decorated function
      with the saved key and options, and returns the function itself. */
  class RegisterDecorator {
    const registry: WampRegistry
    const key: string
    const kwargs: map<string, string>

    constructor (registry: WampRegistry, key: string, kwargs: map<string, string>)
      ensures this.registry == registry && this.key == key && this.kwargs == kwargs
    {
      this.registry := registry;
      this.key := key;
      this.kwargs := kwargs;
    }

    /** __call__(func) */
    method Call(func: string) returns (r: Result<string>)
      modifies registry.store
      ensures var w := WampRegistered(old(registry.store.entries), registry.optionsClass, func, key, kwargs);
        (w.Ok? ==> r == Ok(func) && registry.store.entries == w.value) &&
        (w.Err? ==> r == Err(w.error) && registry.store.entries == old(registry.store.entries))
    {
      var status := registry.Register(func, key, kwargs);
      if status.Failed? {
        return Err(status.error);
      }
      return Ok(func);
    }
  }

  /** The class-level dictionary at work: the callee registry, the pubsub
      registry and the game registry are built on one dictionary, so a key
      taken through one is refused through another. */
  method SharedKeyClash(key: string, f: string, g: string) returns (first: Status, second: Status, third: Status)
    ensures first == Done && second == Failed(ValueError) && third == Failed(ValueError)
  {
    var shared := new Dict();
    var callees := new WampRegistry(shared, RegisterOptions);
    var pubsub := new WampRegistry(shared, SubscribeOptions);
    var games := new Registry(shared);
    first := callees.Register(f, key, map[]);
    second := pubsub.Register(g, key, map[]);
    third := games.Register(g, key);
  }

  // ----- games/registry.py -----

  /** A value passed to MethodRegistration, as far as its validators see it. */
  datatype Arg = FunctionArg(f: string) | StrArg(s: string) | DictArg(d: map<string, string>) | OtherArg

  datatype MethodRegistration = MethodRegistration(meth: string, name: string, options: map<string, string>)

  /** MethodRegistration(method, name, options): each attribute's
      instance_of validator raises TypeError on a value of another type. */
  function MakeRegistration(meth: Arg, name: Arg, options: Arg): (r: Result<MethodRegistration>)
    ensures r.Ok? <==> meth.FunctionArg? && name.StrArg? && options.DictArg?
    ensures r.Err? ==> r.error == TypeError
    ensures r.Ok? ==> r.value == MethodRegistration(meth.f, name.s, options.d)
  {
    if !meth.FunctionArg? then Err(TypeError)
    else if !name.StrArg? then Err(TypeError)
    else if !options.DictArg? then Err(TypeError)
    else Ok(MethodRegistration(meth.f, name.s, options.d))
  }

  /** MethodRegistry: a list of registrations that add() appends to. */
  class MethodRegistry {
    var items: seq<MethodRegistration>

    constructor ()
      ensures items == []
    {
      items := [];
    }

    method Add(meth: Arg, name: Arg, options: Arg) returns (status: Status)
      modifies this
      ensures MakeRegistration(meth, name, options).Ok? ==>
        status == Done && items == old(items) + [MakeRegistration(meth, name, options).value]
      ensures MakeRegistration(meth, name, options).Err? ==>
        status == Failed(TypeError) && items == old(items)
    {
      var r := MakeRegistration(meth, name, options);
      if r.Err? {
        return Failed(r.error);
      }
      items := items + [r.value];
      return Done;
    }
  }

  /** ScopeRegistration: three lists of their own, all empty. */
  class ScopeRegistration {
    const registered: MethodRegistry
    const subscribed: MethodRegistry
    const hooked: MethodRegistry

    constructor ()
      ensures fresh(registered) && fresh(subscribed) && fresh(hooked)
      ensures registered != subscribed && subscribed != hooked && registered != hooked
      ensures registered.items == [] && subscribed.items == [] && hooked.items == []
    {
      registered := new MethodRegistry();
      subscribed := new MethodRegistry();
      hooked := new MethodRegistry();
    }
  }
}
