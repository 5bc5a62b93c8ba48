// The scope method decorators: mark(attr, *args, **kwargs) and its three
// names subscribe, register and hook, which record a decorated method in the
// module-wide ScopeRegistration; and `wrap`, which resolves the calling user
// before the method runs.
//
// Functions are known by their __name__; `wraps` gives the wrapper the same
// name.  storage.get_user is the parameter `getUser`, the decorated method
// the parameter `f`.

module Decorators {
  import opened Exceptions
  import opened Payload
  import opened Registries
  import opened Storages

  // ----- get_user_details -----

  /** An attribute of the details object: absent, or holding a value that
      may be None. */
  datatype Attr = Missing | Has(value: Option<string>)

  /** CallDetails carry caller_*, EventDetails publisher_*. */
  datatype Details = Details(callerAuthid: Attr, callerAuthrole: Attr, publisherAuthid: Attr, publisherAuthrole: Attr)

  /** details.caller_x, falling back to details.publisher_x on
      AttributeError. */
  function Either(caller: Attr, publisher: Attr): (r: Result<Option<string>>)
    ensures caller.Has? ==> r == Ok(caller.value)
    ensures caller.Missing? && publisher.Has? ==> r == Ok(publisher.value)
    ensures caller.Missing? && publisher.Missing? ==> r == Err(AttributeError)
  {
    if caller.Has? then Ok(caller.value)
    else if publisher.Has? then Ok(publisher.value)
    else Err(AttributeError)
  }

  /** get_user_details(details): (user_id, role) */
  function UserDetails(d: Details): (r: Result<(Option<string>, Option<string>)>)
    ensures r.Ok? <==> (d.callerAuthid.Has? || d.publisherAuthid.Has?) && (d.callerAuthrole.Has? || d.publisherAuthrole.Has?)
    ensures r.Ok? ==> r.value == (Either(d.callerAuthid, d.publisherAuthid).value, Either(d.callerAuthrole, d.publisherAuthrole).value)
  {
    var id :- Either(d.callerAuthid, d.publisherAuthid);
    var role :- Either(d.callerAuthrole, d.publisherAuthrole);
    Ok((id, role))
  }

  // ----- mark -----

  /** A positional argument of the decorator: a function or a topic text. */
  datatype MarkArg = FuncArg(name: string) | TopicArg(topic: string)

  /** Python truthiness: a function always, a text when not empty. */
  predicate Truthy(a: MarkArg)
  {
    a.FuncArg? || a.topic != ""
  }

  /** The three lists of the methods registry. */
  datatype MarkAttr = Subscribed | Registered | Hooked

  function AttrName(a: MarkAttr): string
  {
    match a
    case Subscribed => "subscribed"
    case Registered => "registered"
    case Hooked => "hooked"
  }

  /** (function, topic) as mark picks them from *args; args[0] raises
      IndexError when there are none. */
  function MarkArgs(args: seq<MarkArg>): (r: Result<(Option<string>, Option<MarkArg>)>)
    ensures args == [] <==> r == Err(IndexError)
    ensures args != [] && args[0].FuncArg? ==>
      r == Ok((Some(args[0].name), if |args| > 1 then Some(args[1]) else None))
    ensures args != [] && args[0].TopicArg? ==> r == Ok((None, Some(args[0])))
  {
    if |args| == 0 then Err(IndexError)
    else if args[0].FuncArg? then Ok((Some(args[0].name), if |args| > 1 then Some(args[1]) else None))
    else Ok((None, Some(args[0])))
  }

  /** `topic or func.__name__` */
  function Exposed(topic: Option<MarkArg>, funcName: string): (r: MarkArg)
    ensures topic.Some? && Truthy(topic.value) ==> r == topic.value
    ensures !(topic.Some? && Truthy(topic.value)) ==> r == TopicArg(funcName)
  {
    if topic.Some? && Truthy(topic.value) then topic.value else TopicArg(funcName)
  }

  const DefaultOptions: map<string, string> := map["match" := "prefix", "details_arg" := "details"]

  /** default_registration_options.copy() updated with **kwargs. */
  function RegistrationOptions(kwargs: map<string, string>): map<string, string>
  {
    DefaultOptions + kwargs
  }

  /** The keyword arguments win; a default stands only where no keyword
      names it; nothing else appears. */
  lemma RegistrationOptionsMeaning(kwargs: map<string, string>)
    ensures RegistrationOptions(kwargs).Keys == kwargs.Keys + {"match", "details_arg"}
    ensures forall k :: k in kwargs ==> RegistrationOptions(kwargs)[k] == kwargs[k]
    ensures "match" !in kwargs ==> RegistrationOptions(kwargs)["match"] == "prefix"
    ensures "details_arg" !in kwargs ==> RegistrationOptions(kwargs)["details_arg"] == "details"
    ensures RegistrationOptions(map[]) == DefaultOptions
  {
  }

  /** The wrapper mark returns: its name, the attribute it carries with the
      exposed name as value, and its registration_options. */
  datatype Wrapped = Wrapped(name: string, attr: MarkAttr, value: MarkArg, options: map<string, string>)

  /** methods_registry.<attr> */
  function ListOf(reg: ScopeRegistration, a: MarkAttr): MethodRegistry
  {
    match a
    case Subscribed => reg.subscribed
    case Registered => reg.registered
    case Hooked => reg.hooked
  }

  predicate Separate(reg: ScopeRegistration)
  {
    reg.registered != reg.subscribed && reg.subscribed != reg.hooked && reg.registered != reg.hooked
  }

  /** The registration one decoration appends. */
  function RegistrationOf(funcName: string, kwargs: map<string, string>): MethodRegistration
  {
    MethodRegistration(funcName, funcName, RegistrationOptions(kwargs))
  }

  /** decorator(func): wrap, set the attribute and the options, append one
      registration to the list of `attr`, leaving the other two alone. */
  method Decorate(reg: ScopeRegistration, attr: MarkAttr, topic: Option<MarkArg>, kwargs: map<string, string>, func: string)
    returns (w: Wrapped)
    requires Separate(reg)
    modifies ListOf(reg, attr)
    ensures w == Wrapped(func, attr, Exposed(topic, func), RegistrationOptions(kwargs))
    ensures ListOf(reg, attr).items == old(ListOf(reg, attr).items) + [RegistrationOf(func, kwargs)]
    ensures forall b :: b != attr ==> ListOf(reg, b).items == old(ListOf(reg, b).items)
  {
    var value := if topic.Some? && Truthy(topic.value) then topic.value else TopicArg(func);
    var options := DefaultOptions;
    options := options + kwargs;
    w := Wrapped(func, attr, value, options);
    var status := ListOf(reg, attr).Add(FunctionArg(func), StrArg(func), DictArg(options));
  }

  /** What mark returns: the wrapper when it was handed the function, or
      the decorator still waiting for it. */
  datatype Marked = Decorated(wrapped: Wrapped) | Decorator(topic: Option<MarkArg>)

  /** mark(attr, *args, **kwargs) */
  method Mark(reg: ScopeRegistration, attr: MarkAttr, args: seq<MarkArg>, kwargs: map<string, string>)
    returns (r: Result<Marked>)
    requires Separate(reg)
    modifies ListOf(reg, attr)
    ensures var p := MarkArgs(args);
      (p.Err? ==> r == Err(IndexError) && unchanged(ListOf(reg, attr))) &&
      (p.Ok? && p.value.0.None? ==> r == Ok(Decorator(p.value.1)) && unchanged(ListOf(reg, attr))) &&
      (p.Ok? && p.value.0.Some? ==>
        r == Ok(Decorated(Wrapped(p.value.0.value, attr, Exposed(p.value.1, p.value.0.value), RegistrationOptions(kwargs)))) &&
        ListOf(reg, attr).items == old(ListOf(reg, attr).items) + [RegistrationOf(p.value.0.value, kwargs)])
    ensures forall b :: b != attr ==> ListOf(reg, b).items == old(ListOf(reg, b).items)
  {
    if |args| == 0 {
      return Err(IndexError);
    }
    var fn: Option<string>;
    var topic: Option<MarkArg>;
    if args[0].FuncArg? {
      fn := Some(args[0].name);
      topic := if |args| > 1 then Some(args[1]) else None;
    } else {
      fn := None;
      topic := Some(args[0]);
    }
    if fn.Some? {
      var w := Decorate(reg, attr, topic, kwargs, fn.value);
      return Ok(Decorated(w));
    }
    return Ok(Decorator(topic));
  }

  /** subscribe(*args, **kwargs): mark on the subscribed list. */
  method Subscribe(reg: ScopeRegistration, args: seq<MarkArg>, kwargs: map<string, string>) returns (r: Result<Marked>)
    requires Separate(reg)
    modifies reg.subscribed
    ensures args != [] && args[0].FuncArg? ==>
      r == Ok(Decorated(Wrapped(args[0].name, Subscribed, Exposed(if |args| > 1 then Some(args[1]) else None, args[0].name), RegistrationOptions(kwargs)))) &&
      reg.subscribed.items == old(reg.subscribed.items) + [RegistrationOf(args[0].name, kwargs)]
    ensures reg.registered.items == old(reg.registered.items) && reg.hooked.items == old(reg.hooked.items)
  {
    r := Mark(reg, Subscribed, args, kwargs);
    assert ListOf(reg, Registered) == reg.registered && ListOf(reg, Hooked) == reg.hooked;
  }

  /** register(*args, **kwargs): mark on the registered list. */
  method Register(reg: ScopeRegistration, args: seq<MarkArg>, kwargs: map<string, string>) returns (r: Result<Marked>)
    requires Separate(reg)
    modifies reg.registered
    ensures args != [] && args[0].FuncArg? ==>
      r == Ok(Decorated(Wrapped(args[0].name, Registered, Exposed(if |args| > 1 then Some(args[1]) else None, args[0].name), RegistrationOptions(kwargs)))) &&
      reg.registered.items == old(reg.registered.items) + [RegistrationOf(args[0].name, kwargs)]
    ensures reg.subscribed.items == old(reg.subscribed.items) && reg.hooked.items == old(reg.hooked.items)
  {
    r := Mark(reg, Registered, args, kwargs);
    assert ListOf(reg, Subscribed) == reg.subscribed && ListOf(reg, Hooked) == reg.hooked;
  }

  /** hook(*args, **kwargs): mark on the hooked list. */
  method Hook(reg: ScopeRegistration, args: seq<MarkArg>, kwargs: map<string, string>) returns (r: Result<Marked>)
    requires Separate(reg)
    modifies reg.hooked
    ensures args != [] && args[0].FuncArg? ==>
      r == Ok(Decorated(Wrapped(args[0].name, Hooked, Exposed(if |args| > 1 then Some(args[1]) else None, args[0].name), RegistrationOptions(kwargs)))) &&
      reg.hooked.items == old(reg.hooked.items) + [RegistrationOf(args[0].name, kwargs)]
    ensures reg.registered.items == old(reg.registered.items) && reg.subscribed.items == old(reg.subscribed.items)
  {
    r := Mark(reg, Hooked, args, kwargs);
    assert ListOf(reg, Registered) == reg.registered && ListOf(reg, Subscribed) == reg.subscribed;
  }

  /** Decorating the methods `fs` in order, without a topic, leaves their
      registrations in declaration order. */
  method DecorateAll(reg: ScopeRegistration, attr: MarkAttr, fs: seq<string>, kwargs: map<string, string>)
    requires Separate(reg)
    modifies ListOf(reg, attr)
    ensures ListOf(reg, attr).items == old(ListOf(reg, attr).items) + seq(|fs|, i requires 0 <= i < |fs| => RegistrationOf(fs[i], kwargs))
  {
    var i := 0;
    while i < |fs|
      invariant 0 <= i <= |fs|
      invariant ListOf(reg, attr).items == old(ListOf(reg, attr).items) + seq(i, j requires 0 <= j < i => RegistrationOf(fs[j], kwargs))
    {
      var w := Decorate(reg, attr, None, kwargs, fs[i]);
      i := i + 1;
    }
  }

  // ----- wrap -----

  /** Which get_user call wrap makes, if any. */
  datatype UserQuery = NoUser | ByEmail(email: Value) | ById(id: string)

  /** The user lookup of wrap and the keyword arguments left for the
      method: no details, no user; a profiler names its user by the popped
      `user_email`; anyone else by its id, when it has one. */
  function Resolution(details: Option<Details>, kwargs: map<string, Value>): (r: Result<(UserQuery, map<string, Value>)>)
  {
    if details.None? then Ok((NoUser, kwargs))
    else
      var (userId, role) :- UserDetails(details.value);
      if role == Some("profiler") then
        if "user_email" in kwargs then Ok((ByEmail(kwargs["user_email"]), kwargs - {"user_email"}))
        else Ok((NoUser, kwargs))
      else if userId.Some? then Ok((ById(userId.value), kwargs))
      else Ok((NoUser, kwargs))
  }

  /** How a call of the wrapper ends: the method's value, an error raised
      while resolving the user, or the method's error with `.user` set. */
  datatype Outcome = Returned(value: Value) | RaisedEarly(error: Exception) | Raised(error: Exception, user: Option<FetchedUser>)

  /** wrap(scope, *_args, **_kwargs): the method receives the keyword
      arguments with `user` set to the resolved user.  `details` is read
      with `get` and stays among the keyword arguments in Python; here it is
      a parameter of its own, so `kwargs` holds the other keyword arguments. */
  function WrapCall(details: Option<Details>, kwargs: map<string, Value>,
                    getUser: UserQuery -> Result<FetchedUser>,
                    f: (map<string, Value>, Option<FetchedUser>) -> Result<Value>): Outcome
  {
    match Resolution(details, kwargs)
    case Err(e) => RaisedEarly(e)
    case Ok((q, rest)) =>
      var user := if q.NoUser? then Ok(None) else match getUser(q) case Ok(u) => Ok(Some(u)) case Err(e) => Err(e);
      match user
      case Err(e) => RaisedEarly(e)
      case Ok(u) =>
        match f(rest - {"user"}, u)
        case Ok(v) => Returned(v)
        case Err(e) => Raised(e, u)
  }

  /** The user is looked up only with details: a profiler's by the popped
      email, which the method then does not see; anyone else's by id. */
  lemma ResolutionMeaning(details: Option<Details>, kwargs: map<string, Value>)
    ensures details.None? ==> Resolution(details, kwargs) == Ok((NoUser, kwargs))
    ensures details.Some? && UserDetails(details.value).Err? ==> Resolution(details, kwargs) == Err(AttributeError)
    ensures details.Some? && UserDetails(details.value).Ok? ==>
      var (userId, role) := UserDetails(details.value).value;
      (role == Some("profiler") && "user_email" in kwargs ==>
        Resolution(details, kwargs) == Ok((ByEmail(kwargs["user_email"]), kwargs - {"user_email"})) &&
        "user_email" !in Resolution(details, kwargs).value.1) &&
      (role == Some("profiler") && "user_email" !in kwargs ==> Resolution(details, kwargs) == Ok((NoUser, kwargs))) &&
      (role != Some("profiler") ==>
        Resolution(details, kwargs) == Ok((if userId.Some? then ById(userId.value) else NoUser, kwargs)))
  {
  }

  /** Every error of the method itself leaves with the resolved user
      attached; the method always sees that user and never a `user` of the
      caller's own. */
  lemma WrapAttachesUser(details: Option<Details>, kwargs: map<string, Value>,
                         getUser: UserQuery -> Result<FetchedUser>,
                         f: (map<string, Value>, Option<FetchedUser>) -> Result<Value>)
    requires Resolution(details, kwargs).Ok?
    ensures var (q, rest) := Resolution(details, kwargs).value;
      (q.NoUser? ==>
        (f(rest - {"user"}, None).Err? ==> WrapCall(details, kwargs, getUser, f) == Raised(f(rest - {"user"}, None).error, None)) &&
        (f(rest - {"user"}, None).Ok? ==> WrapCall(details, kwargs, getUser, f) == Returned(f(rest - {"user"}, None).value))) &&
      (!q.NoUser? && getUser(q).Ok? ==>
        var u := Some(getUser(q).value);
        (f(rest - {"user"}, u).Err? ==> WrapCall(details, kwargs, getUser, f) == Raised(f(rest - {"user"}, u).error, u))) &&
      (!q.NoUser? && getUser(q).Err? ==> WrapCall(details, kwargs, getUser, f) == RaisedEarly(getUser(q).error))
  {
  }
}
