// The profiler's measuring instruments: Timer (new, running, paused,
// stopped), Counter and StatAggregator.  time.time() is the integer
// parameter `now` of each call; times are whole clock ticks.

module Instruments {
  import opened Exceptions
  import opened Strings

  // ----- Timer -----

  datatype TimerState = New | Running | Paused | Stopped

  /** The fields of a Timer: state, elapsed and start_time, which exists
      only after a first start. */
  datatype TimerRec = TimerRec(state: TimerState, elapsed: int, startTime: Option<int>)

  const NewTimer := TimerRec(New, 0, None)

  datatype TimerEvent = StartAt(at: int) | PauseAt(at: int) | StopAt(at: int)

  /** One call of start, pause or stop.  stop sets the state before it
      reads start_time, so stopping a timer never started still leaves it
      stopped, with an AttributeError. */
  function TimerStep(t: TimerRec, e: TimerEvent): (r: (Status, TimerRec))
    ensures e.StopAt? ==> r.1.state == Stopped
    ensures e.StartAt? ==> (r.0 == Done <==> t.state != Stopped)
    ensures e.PauseAt? && t.state != Running ==> r == (Failed(RuntimeWarning), t)
    ensures r.0.Failed? && !e.StopAt? ==> r.1 == t
  {
    match e
    case StartAt(now) =>
      if t.state == Stopped then (Failed(RuntimeWarning), t)
      else (Done, TimerRec(Running, t.elapsed, Some(now)))
    case PauseAt(now) =>
      if t.state != Running then (Failed(RuntimeWarning), t)
      else if t.startTime.None? then (Failed(AttributeError), t)
      else (Done, TimerRec(Paused, t.elapsed + (now - t.startTime.value), t.startTime))
    case StopAt(now) =>
      if t.startTime.None? then (Failed(AttributeError), TimerRec(Stopped, t.elapsed, None))
      else (Done, TimerRec(Stopped, t.elapsed + (now - t.startTime.value), t.startTime))
  }

  /** A sequence of calls, up to the first one that raises. */
  function TimerRun(t: TimerRec, es: seq<TimerEvent>): (Status, TimerRec)
    decreases |es|
  {
    if es == [] then (Done, t)
    else
      var (status, next) := TimerStep(t, es[0]);
      if status.Failed? then (status, next) else TimerRun(next, es[1..])
  }

  /** `with Timer() as timer:` times the block from entry to exit. */
  lemma ContextManagerTimesBlock(enter: int, exit: int)
    ensures TimerRun(NewTimer, [StartAt(enter), StopAt(exit)]) == (Done, TimerRec(Stopped, exit - enter, Some(enter)))
  {
    var es := [StartAt(enter), StopAt(exit)];
    var running := TimerRec(Running, 0, Some(enter));
    assert TimerStep(NewTimer, StartAt(enter)) == (Done, running);
    assert es[1..] == [StopAt(exit)];
    assert TimerRun(NewTimer, es) == TimerRun(running, [StopAt(exit)]);
    var stopped := TimerRec(Stopped, exit - enter, Some(enter));
    assert TimerStep(running, StopAt(exit)) == (Done, stopped);
    assert [StopAt(exit)][1..] == [];
    assert TimerRun(running, [StopAt(exit)]) == TimerRun(stopped, []);
  }

  /** A pause leaves its interval out: start at a, pause at b, start at c,
      stop at d measures (b - a) + (d - c). */
  lemma PauseExcludesInterval(a: int, b: int, c: int, d: int)
    ensures TimerRun(NewTimer, [StartAt(a), PauseAt(b), StartAt(c), StopAt(d)]) == (Done, TimerRec(Stopped, (b - a) + (d - c), Some(c)))
  {
    var es := [StartAt(a), PauseAt(b), StartAt(c), StopAt(d)];
    var es1, es2, es3 := [PauseAt(b), StartAt(c), StopAt(d)], [StartAt(c), StopAt(d)], [StopAt(d)];
    assert es[1..] == es1 && es1[1..] == es2 && es2[1..] == es3 && es3[1..] == [];
    assert TimerRun(NewTimer, es) == TimerRun(TimerRec(Running, 0, Some(a)), es1);
    assert TimerRun(TimerRec(Running, 0, Some(a)), es1) == TimerRun(TimerRec(Paused, b - a, Some(a)), es2);
    assert TimerRun(TimerRec(Paused, b - a, Some(a)), es2) == TimerRun(TimerRec(Running, b - a, Some(c)), es3);
    assert TimerRun(TimerRec(Running, b - a, Some(c)), es3) == TimerRun(TimerRec(Stopped, (b - a) + (d - c), Some(c)), []);
  }

  /** A stopped timer never runs again, whatever comes next. */
  lemma {:induction false} StoppedStaysStopped(t: TimerRec, es: seq<TimerEvent>)
    requires t.state == Stopped
    ensures TimerRun(t, es).1.state == Stopped
    decreases |es|
  {
    if es != [] {
      var (status, next) := TimerStep(t, es[0]);
      if status.Done? {
        StoppedStaysStopped(next, es[1..]);
      }
    }
  }

  /** All call times, in order, come no earlier than the last start. */
  predicate Clocked(t: TimerRec, es: seq<TimerEvent>)
  {
    (forall i :: 0 <= i < |es| && t.startTime.Some? ==> t.startTime.value <= es[i].at) &&
    (forall i, j :: 0 <= i < j < |es| ==> es[i].at <= es[j].at)
  }

  /** With a clock that never goes back, elapsed never shrinks. */
  lemma {:induction false} ElapsedNeverShrinks(t: TimerRec, es: seq<TimerEvent>)
    requires Clocked(t, es)
    ensures TimerRun(t, es).1.elapsed >= t.elapsed
    decreases |es|
  {
    if es != [] {
      var (status, next) := TimerStep(t, es[0]);
      assert next.elapsed >= t.elapsed;
      if status.Done? {
        assert next.startTime.Some? ==> next.startTime.value <= es[0].at;
        assert forall i :: 0 <= i < |es[1..]| ==> es[1..][i] == es[i + 1];
        ElapsedNeverShrinks(next, es[1..]);
      }
    }
  }

  class Timer {
    var state: TimerState
    var elapsed: int
    var startTime: Option<int>
    const name: Option<string>

    function Rec(): TimerRec
      reads this
    {
      TimerRec(state, elapsed, startTime)
    }

    constructor (name: Option<string>)
      ensures Rec() == NewTimer && this.name == name
    {
      this.name := name;
      state := New;
      elapsed := 0;
      startTime := None;
    }

    method Start(now: int) returns (status: Status)
      modifies this
      ensures (status, Rec()) == TimerStep(old(Rec()), StartAt(now))
    {
      if state == Stopped {
        return Failed(RuntimeWarning);
      }
      state := Running;
      startTime := Some(now);
      return Done;
    }

    method Pause(now: int) returns (status: Status)
      modifies this
      ensures (status, Rec()) == TimerStep(old(Rec()), PauseAt(now))
    {
      if state != Running {
        return Failed(RuntimeWarning);
      }
      if startTime.None? {
        return Failed(AttributeError);
      }
      state := Paused;
      elapsed := elapsed + (now - startTime.value);
      return Done;
    }

    method Stop(now: int) returns (status: Status)
      modifies this
      ensures (status, Rec()) == TimerStep(old(Rec()), StopAt(now))
    {
      state := Stopped;
      if startTime.None? {
        return Failed(AttributeError);
      }
      elapsed := elapsed + (now - startTime.value);
      return Done;
    }
  }

  // ----- Counter -----

  /** The fields of a Counter that `on` reads and writes. */
  datatype CounterRec = CounterRec(duration: Option<int>, count: Option<int>, clicks: nat, startTime: Option<int>, endTime: Option<int>)

  /** What the constructor guarantees and `on` keeps: a duration or a
      count, and an end time once a duration counter is started. */
  predicate CounterValid(c: CounterRec)
  {
    (c.duration.Some? || c.count.Some?) && (c.startTime.Some? && c.duration.Some? ==> c.endTime.Some?)
  }

  /** Counter(duration, count) */
  function NewCounter(duration: Option<int>, count: Option<int>): (r: Result<CounterRec>)
    ensures r.Err? <==> duration.None? && count.None?
    ensures r.Err? ==> r.error == ValueError
    ensures r.Ok? ==> CounterValid(r.value) && r.value.clicks == 0 && r.value.startTime.None?
  {
    if duration.None? && count.None? then Err(ValueError)
    else Ok(CounterRec(duration, count, 0, None, None))
  }

  /** start(): a duration counter ends `duration` ticks after it starts. */
  function CounterStarted(c: CounterRec, now: int): (r: CounterRec)
    ensures r.startTime == Some(now) && r.clicks == c.clicks && r.duration == c.duration && r.count == c.count
    ensures c.duration.Some? ==> r.endTime == Some(now + c.duration.value)
  {
    CounterRec(c.duration, c.count, c.clicks, Some(now),
               if c.duration.Some? then Some(now + c.duration.value) else c.endTime)
  }

  /** One read of `on`: it starts the counter on first use; a duration
      counter is on until its end time, a count counter while it has
      clicked fewer than `count` times.  The first time it is off it
      records the end time and the measured duration. */
  function OnStep(c: CounterRec, now: int): (r: (bool, CounterRec))
    requires CounterValid(c)
    ensures CounterValid(r.1)
    ensures r.1.clicks == c.clicks + (if r.0 then 1 else 0)
    ensures c.duration.None? ==> r.0 == (c.clicks < c.count.value)
    ensures c.duration.Some? && c.startTime.Some? ==> r.0 == (now <= c.endTime.value)
  {
    var s := if c.startTime.None? then CounterStarted(c, now) else c;
    var on := if s.duration.Some? then now <= s.endTime.value else s.clicks < s.count.value;
    if on then (true, CounterRec(s.duration, s.count, s.clicks + 1, s.startTime, s.endTime))
    else if s.endTime.None? then (false, CounterRec(Some(now - s.startTime.value), s.count, s.clicks, s.startTime, Some(now)))
    else (false, s)
  }

  /** `on` read at each of the given times. */
  function Ons(c: CounterRec, times: seq<int>): (r: (seq<bool>, CounterRec))
    requires CounterValid(c)
    ensures |r.0| == |times| && CounterValid(r.1)
    decreases |times|
  {
    if times == [] then ([], c)
    else
      var (on, next) := OnStep(c, times[0]);
      var (rest, last) := Ons(next, times[1..]);
      ([on] + rest, last)
  }

  /** In count mode `on` is true exactly `count - clicks` more times and
      then false, and the clicks end at `count`: a `while counter.on` loop
      runs its body `count` times. */
  lemma {:induction false} CountModeClicks(c: CounterRec, times: seq<int>)
    requires c.duration.None? && c.count.Some? && c.endTime.None? && c.clicks <= c.count.value
    requires |times| == c.count.value - c.clicks + 1
    ensures Ons(c, times).0 == seq(c.count.value - c.clicks, i => true) + [false]
    ensures Ons(c, times).1.clicks == c.count.value
    decreases |times|
  {
    var (on, next) := OnStep(c, times[0]);
    if c.clicks == c.count.value {
      assert !on && next.clicks == c.clicks;
      assert times[1..] == [];
    } else {
      assert on && next.duration.None? && next.endTime.None? && next.clicks == c.clicks + 1;
      CountModeClicks(next, times[1..]);
      assert [true] + seq(c.count.value - next.clicks, i => true) == seq(c.count.value - c.clicks, i => true);
    }
  }

  /** Once a count counter has turned off, it has a duration, so a later
      read is on exactly when it comes no later than the recorded end. */
  lemma CountModeAfterOff(c: CounterRec, off: int, now: int)
    requires c.duration.None? && c.count.Some? && c.endTime.None? && c.startTime.Some?
    requires c.clicks >= c.count.value
    ensures var (on, next) := OnStep(c, off);
      !on && next.endTime == Some(off) && next.duration == Some(off - c.startTime.value) &&
      OnStep(next, now).0 == (now <= off)
  {
  }

  class Counter {
    var duration: Option<int>
    var count: Option<int>
    var clicks: nat
    var startTime: Option<int>
    var endTime: Option<int>

    function Rec(): CounterRec
      reads this
    {
      CounterRec(duration, count, clicks, startTime, endTime)
    }

    constructor (duration: Option<int>, count: Option<int>)
      requires duration.Some? || count.Some?
      ensures Rec() == NewCounter(duration, count).value
    {
      this.duration := duration;
      this.count := count;
      clicks := 0;
      startTime := None;
      endTime := None;
    }

    /** The `on` property. */
    method On(now: int) returns (on: bool)
      requires CounterValid(Rec())
      modifies this
      ensures (on, Rec()) == OnStep(old(Rec()), now)
    {
      if startTime.None? {
        startTime := Some(now);
        if duration.Some? {
          endTime := Some(now + duration.value);
        }
      }
      if duration.Some? {
        on := now <= endTime.value;
      } else {
        on := clicks < count.value;
      }
      if on {
        clicks := clicks + 1;
      } else if endTime.None? {
        endTime := Some(now);
        duration := Some(now - startTime.value);
      }
    }
  }

  /** The constructor's argument check: ValueError unless a duration or a
      count is given. */
  method MakeCounter(duration: Option<int>, count: Option<int>) returns (r: Result<Counter>)
    ensures r.Err? <==> NewCounter(duration, count).Err?
    ensures r.Err? ==> r.error == ValueError
    ensures r.Ok? ==> fresh(r.value) && r.value.Rec() == NewCounter(duration, count).value
  {
    if duration.None? && count.None? {
      return Err(ValueError);
    }
    var c := new Counter(duration, count);
    return Ok(c);
  }

  // ----- StatAggregator -----

  /** A pushed stat or one of its values: a number; a text; an object, with
      its numeric attributes, its text attributes and the names of the other
      attributes its class adds to `object`'s (methods, None, dicts); or
      some other value, such as a bound method or None, that has no order. */
  datatype Sample =
    | Number(n: int)
    | Text(s: string)
    | Object(attrs: map<string, int>, texts: map<string, string>, others: set<string>)
    | Other

  /** The attributes of Python 3.6's `object`, which every object has and
      none of which is a number or, on an object whose class has no
      docstring, a text. */
  const ObjectNames: set<string> := {
    "__class__", "__delattr__", "__dir__", "__doc__", "__eq__", "__format__", "__ge__",
    "__getattribute__", "__gt__", "__hash__", "__init__", "__init_subclass__", "__le__",
    "__lt__", "__ne__", "__new__", "__reduce__", "__reduce_ex__", "__repr__", "__setattr__",
    "__sizeof__", "__str__", "__subclasshook__"}

  /** The attributes Python 3.6's `int` adds to those of `object` whose value
      is not a number: its operators, conversions and methods. */
  const IntMethodNames: set<string> := {
    "__abs__", "__add__", "__and__", "__bool__", "__ceil__", "__divmod__", "__float__",
    "__floor__", "__floordiv__", "__getnewargs__", "__index__", "__int__", "__invert__",
    "__lshift__", "__mod__", "__mul__", "__neg__", "__or__", "__pos__", "__pow__", "__radd__",
    "__rand__", "__rdivmod__", "__rfloordiv__", "__rlshift__", "__rmod__", "__rmul__",
    "__ror__", "__round__", "__rpow__", "__rrshift__", "__rshift__", "__rsub__",
    "__rtruediv__", "__rxor__", "__sub__", "__truediv__", "__trunc__", "__xor__",
    "bit_length", "conjugate", "from_bytes", "to_bytes"}

  /** The numeric data attributes every Python int has. */
  predicate IntAttribute(attribute: string)
  {
    attribute == "real" || attribute == "imag" || attribute == "numerator" || attribute == "denominator"
  }

  /** The attributes every Python int has whose value is neither a number
      nor a text: all but its docstring `__doc__`. */
  predicate IntOtherAttribute(attribute: string)
  {
    attribute != "__doc__" && (attribute in ObjectNames || attribute in IntMethodNames)
  }

  /** int.__doc__, abbreviated to its first line. */
  const IntDoc: string := "int(x=0) -> integer"

  /** getattr(n, attribute) for an int n and one of its data attributes. */
  function IntAttributeOf(n: int, attribute: string): int
    requires IntAttribute(attribute)
  {
    if attribute == "imag" then 0 else if attribute == "denominator" then 1 else n
  }

  /** getattr(stat, attribute, stat) */
  function ValueOf(s: Sample, attribute: string): (r: Sample)
    ensures s.Object? && attribute in s.attrs ==> r == Number(s.attrs[attribute])
    ensures s.Object? && attribute !in s.attrs && attribute in s.texts ==> r == Text(s.texts[attribute])
    ensures (s.Object? && attribute !in s.attrs && attribute !in s.texts &&
             (attribute in s.others || attribute in ObjectNames)) ==> r == Other
    ensures s.Number? && IntAttribute(attribute) ==> r == Number(IntAttributeOf(s.n, attribute))
    ensures s.Number? && attribute == "__doc__" ==> r == Text(IntDoc)
    ensures s.Number? && IntOtherAttribute(attribute) ==> r == Other
    ensures r.Number? <==>
      (s.Object? && attribute in s.attrs) || (s.Number? && attribute != "__doc__" && !IntOtherAttribute(attribute))
    ensures r.Text? <==>
      (s.Object? && attribute !in s.attrs && attribute in s.texts) || (s.Number? && attribute == "__doc__") || s.Text?
    ensures ((s.Object? && attribute !in s.attrs && attribute !in s.texts && attribute !in s.others && attribute !in ObjectNames) ||
             (s.Number? && !IntAttribute(attribute) && attribute != "__doc__" && !IntOtherAttribute(attribute)) ||
             s.Text? || s.Other?) ==> r == s
  {
    if s.Object? && attribute in s.attrs then Number(s.attrs[attribute])
    else if s.Object? && attribute in s.texts then Text(s.texts[attribute])
    else if s.Object? && (attribute in s.others || attribute in ObjectNames) then Other
    else if s.Number? && IntAttribute(attribute) then Number(IntAttributeOf(s.n, attribute))
    else if s.Number? && attribute == "__doc__" then Text(IntDoc)
    else if s.Number? && IntOtherAttribute(attribute) then Other
    else s
  }

  function ValuesOf(stats: seq<Sample>, attribute: string): (r: seq<Sample>)
    ensures |r| == |stats|
    ensures forall i :: 0 <= i < |stats| ==> r[i] == ValueOf(stats[i], attribute)
  {
    seq(|stats|, i requires 0 <= i < |stats| => ValueOf(stats[i], attribute))
  }

  /** The state attribute of a Timer. */
  function StateName(state: TimerState): string
  {
    match state
    case New => "new"
    case Running => "running"
    case Paused => "paused"
    case Stopped => "stopped"
  }

  /** Timer.__doc__, abbreviated to its first line. */
  const TimerDoc: string := "Tracks how long an operation took."

  /** A Timer, named or not, as a stat: its __value__ and elapsed are its
      elapsed time, start_time exists once it has started, its state, its
      module, its docstring and a given name are texts, and its methods and
      a missing name (None) are neither numbers nor texts. */
  function TimerSample(t: TimerRec, name: Option<string>): Sample
  {
    var attrs := map["__value__" := t.elapsed, "elapsed" := t.elapsed];
    var texts := map["state" := StateName(t.state), "__module__" := "modelservice.utils.instruments", "__doc__" := TimerDoc];
    var others := {"__dict__", "__weakref__", "__enter__", "__exit__", "get_name", "start", "pause", "stop"};
    Object(if t.startTime.Some? then attrs["start_time" := t.startTime.value] else attrs,
      if name.Some? then texts["name" := name.value] else texts,
      if name.Some? then others else others + {"name"})
  }

  predicate AllNumbers(vs: seq<Sample>)
  {
    forall i :: 0 <= i < |vs| ==> vs[i].Number?
  }

  /** The least of a non-empty list of numbers. */
  function Least(vs: seq<Sample>): (r: int)
    requires |vs| > 0 && AllNumbers(vs)
    ensures exists i :: 0 <= i < |vs| && vs[i].n == r
    ensures forall i :: 0 <= i < |vs| ==> r <= vs[i].n
  {
    if |vs| == 1 then vs[0].n
    else
      var rest := Least(vs[1..]);
      assert forall i :: 1 <= i < |vs| ==> vs[i] == vs[1..][i - 1];
      if vs[0].n <= rest then vs[0].n else rest
  }

  predicate AllTexts(vs: seq<Sample>)
  {
    forall i :: 0 <= i < |vs| ==> vs[i].Text?
  }

  lemma BelowAll(a: string, b: string, vs: seq<Sample>)
    requires AllTexts(vs) && LessEq(a, b) && forall i :: 0 <= i < |vs| ==> LessEq(b, vs[i].s)
    ensures forall i :: 0 <= i < |vs| ==> LessEq(a, vs[i].s)
  {
    forall i | 0 <= i < |vs| ensures LessEq(a, vs[i].s) {
      if a != b && b != vs[i].s {
        LessTransitive(a, b, vs[i].s);
      }
    }
  }

  lemma AboveAll(a: string, b: string, vs: seq<Sample>)
    requires AllTexts(vs) && LessEq(b, a) && forall i :: 0 <= i < |vs| ==> LessEq(vs[i].s, b)
    ensures forall i :: 0 <= i < |vs| ==> LessEq(vs[i].s, a)
  {
    forall i | 0 <= i < |vs| ensures LessEq(vs[i].s, a) {
      if a != b && b != vs[i].s {
        LessTransitive(vs[i].s, b, a);
      }
    }
  }

  /** The least of a non-empty list of texts, in Python's string order;
      the first of them on a tie, as min keeps. */
  function LeastText(vs: seq<Sample>): (r: string)
    requires |vs| > 0 && AllTexts(vs)
    ensures exists i :: 0 <= i < |vs| && vs[i].s == r
    ensures forall i :: 0 <= i < |vs| ==> LessEq(r, vs[i].s)
  {
    if |vs| == 1 then vs[0].s
    else
      var rest := LeastText(vs[1..]);
      assert forall i :: 1 <= i < |vs| ==> vs[i] == vs[1..][i - 1];
      if !Less(rest, vs[0].s) then
        LessTotal(rest, vs[0].s);
        BelowAll(vs[0].s, rest, vs[1..]);
        vs[0].s
      else
        rest
  }

  /** The greatest of a non-empty list of texts, the first on a tie. */
  function GreatestText(vs: seq<Sample>): (r: string)
    requires |vs| > 0 && AllTexts(vs)
    ensures exists i :: 0 <= i < |vs| && vs[i].s == r
    ensures forall i :: 0 <= i < |vs| ==> LessEq(vs[i].s, r)
  {
    if |vs| == 1 then vs[0].s
    else
      var rest := GreatestText(vs[1..]);
      assert forall i :: 1 <= i < |vs| ==> vs[i] == vs[1..][i - 1];
      if !Less(vs[0].s, rest) then
        LessTotal(rest, vs[0].s);
        AboveAll(vs[0].s, rest, vs[1..]);
        vs[0].s
      else
        rest
  }

  /** The greatest of a non-empty list of numbers. */
  function Greatest(vs: seq<Sample>): (r: int)
    requires |vs| > 0 && AllNumbers(vs)
    ensures exists i :: 0 <= i < |vs| && vs[i].n == r
    ensures forall i :: 0 <= i < |vs| ==> vs[i].n <= r
  {
    if |vs| == 1 then vs[0].n
    else
      var rest := Greatest(vs[1..]);
      assert forall i :: 1 <= i < |vs| ==> vs[i] == vs[1..][i - 1];
      if vs[0].n >= rest then vs[0].n else rest
  }

  /** min(values): ValueError when empty, the only value when there is one,
      the least of numbers or of texts, and TypeError when a number meets a
      text or an unordered value has to be compared. */
  function MinOf(vs: seq<Sample>): (r: Result<Sample>)
    ensures vs == [] <==> r == Err(ValueError)
    ensures |vs| == 1 ==> r == Ok(vs[0])
    ensures |vs| > 1 ==> (r.Ok? <==> AllNumbers(vs) || AllTexts(vs))
    ensures r.Err? && vs != [] ==> r.error == TypeError
    ensures r.Ok? ==> r.value in vs
    ensures r.Ok? && AllNumbers(vs) ==> forall i :: 0 <= i < |vs| ==> r.value.n <= vs[i].n
    ensures r.Ok? && AllTexts(vs) ==> forall i :: 0 <= i < |vs| ==> LessEq(r.value.s, vs[i].s)
  {
    if vs == [] then Err(ValueError)
    else if |vs| == 1 then Ok(vs[0])
    else if AllNumbers(vs) then Ok(Number(Least(vs)))
    else if AllTexts(vs) then Ok(Text(LeastText(vs)))
    else Err(TypeError)
  }

  /** max(values), in the same way. */
  function MaxOf(vs: seq<Sample>): (r: Result<Sample>)
    ensures vs == [] <==> r == Err(ValueError)
    ensures |vs| == 1 ==> r == Ok(vs[0])
    ensures |vs| > 1 ==> (r.Ok? <==> AllNumbers(vs) || AllTexts(vs))
    ensures r.Err? && vs != [] ==> r.error == TypeError
    ensures r.Ok? ==> r.value in vs
    ensures r.Ok? && AllNumbers(vs) ==> forall i :: 0 <= i < |vs| ==> vs[i].n <= r.value.n
    ensures r.Ok? && AllTexts(vs) ==> forall i :: 0 <= i < |vs| ==> LessEq(vs[i].s, r.value.s)
  {
    if vs == [] then Err(ValueError)
    else if |vs| == 1 then Ok(vs[0])
    else if AllNumbers(vs) then Ok(Number(Greatest(vs)))
    else if AllTexts(vs) then Ok(Text(GreatestText(vs)))
    else Err(TypeError)
  }

  /** The sum of numbers. */
  function SumOf(vs: seq<Sample>): int
    requires AllNumbers(vs)
  {
    if vs == [] then 0 else SumOf(vs[..|vs| - 1]) + vs[|vs| - 1].n
  }

  /** sum(values): 0 when empty, TypeError once a text or an object is
      added. */
  function TotalOf(vs: seq<Sample>): (r: Result<int>)
    ensures r.Ok? <==> AllNumbers(vs)
    ensures vs == [] ==> r == Ok(0)
    ensures r.Err? ==> r.error == TypeError
  {
    if AllNumbers(vs) then Ok(SumOf(vs)) else Err(TypeError)
  }

  /** Adding one number to the values adds it to the total. */
  lemma TotalAppend(vs: seq<Sample>, n: int)
    requires AllNumbers(vs)
    ensures TotalOf(vs + [Number(n)]) == Ok(TotalOf(vs).value + n)
  {
    assert (vs + [Number(n)])[..|vs|] == vs;
  }

  /** The total of timer stats is the sum of their elapsed times, and the
      count is how many were pushed. */
  lemma {:induction false} TimersTotal(ts: seq<(TimerRec, Option<string>)>)
    ensures var vs := ValuesOf(seq(|ts|, i requires 0 <= i < |ts| => TimerSample(ts[i].0, ts[i].1)), "__value__");
      |vs| == |ts| && AllNumbers(vs) && TotalOf(vs).Ok?
    ensures ts != [] ==>
      var vs := ValuesOf(seq(|ts|, i requires 0 <= i < |ts| => TimerSample(ts[i].0, ts[i].1)), "__value__");
      var init := ValuesOf(seq(|ts| - 1, i requires 0 <= i < |ts| - 1 => TimerSample(ts[i].0, ts[i].1)), "__value__");
      TotalOf(vs).value == TotalOf(init).value + ts[|ts| - 1].0.elapsed
  {
    var vs := ValuesOf(seq(|ts|, i requires 0 <= i < |ts| => TimerSample(ts[i].0, ts[i].1)), "__value__");
    forall i | 0 <= i < |ts| ensures vs[i] == Number(ts[i].0.elapsed) {
      TimerValue(ts[i].0, ts[i].1);
    }
    if ts != [] {
      var init := ValuesOf(seq(|ts| - 1, i requires 0 <= i < |ts| - 1 => TimerSample(ts[i].0, ts[i].1)), "__value__");
      forall i | 0 <= i < |ts| - 1 ensures init[i] == Number(ts[i].0.elapsed) {
        TimerValue(ts[i].0, ts[i].1);
      }
      assert vs == init + [Number(ts[|ts| - 1].0.elapsed)];
      TotalAppend(init, ts[|ts| - 1].0.elapsed);
    }
  }

  /** A timer's `__value__` is its elapsed time. */
  lemma TimerValue(t: TimerRec, name: Option<string>)
    ensures ValueOf(TimerSample(t, name), "__value__") == Number(t.elapsed)
  {
    assert "__value__" in TimerSample(t, name).attrs;
  }

  class StatAggregator {
    var stats: seq<Sample>
    const attribute: string

    constructor (attribute: Option<string>)
      ensures stats == []
      ensures this.attribute == (if attribute.None? then "__value__" else attribute.value)
    {
      this.attribute := if attribute.None? then "__value__" else attribute.value;
      stats := [];
    }

    method Push(value: Sample)
      modifies this
      ensures stats == old(stats) + [value]
    {
      stats := stats + [value];
    }

    function Values(): (r: seq<Sample>)
      reads this
    {
      ValuesOf(stats, attribute)
    }

    function Count(): (r: nat)
      reads this
      ensures r == |stats|
    {
      |Values()|
    }

    function Min(): Result<Sample>
      reads this
    {
      MinOf(Values())
    }

    function Max(): Result<Sample>
      reads this
    {
      MaxOf(Values())
    }

    function Total(): Result<int>
      reads this
    {
      TotalOf(Values())
    }
  }

  /** The default attribute `__value__` is not an attribute of an int. */
  lemma DefaultAttributeIsPlain()
    ensures !IntAttribute("__value__") && "__value__" != "__doc__" && !IntOtherAttribute("__value__")
  {
    assert "__value__" !in ObjectNames;
    assert "__value__" !in IntMethodNames;
  }

  /** Plain numbers are their own values under an attribute ints lack,
      such as the default `__value__`: their minimum, maximum and total are
      those of the numbers pushed. */
  lemma PlainNumbersAreValues(stats: seq<Sample>, attribute: string)
    requires AllNumbers(stats) && !IntAttribute(attribute) && attribute != "__doc__" && !IntOtherAttribute(attribute)
    ensures ValuesOf(stats, attribute) == stats
    ensures stats != [] ==> MinOf(ValuesOf(stats, attribute)).Ok? && MaxOf(ValuesOf(stats, attribute)).Ok?
    ensures TotalOf(ValuesOf(stats, attribute)) == Ok(SumOf(stats))
  {
  }

  /** Under an attribute ints have, plain numbers are not their own values:
      `imag` makes every one 0, so the total is 0 whatever was pushed, and
      `denominator` makes every one 1, so the total is the count. */
  lemma {:induction false} IntAttributesOfNumbers(stats: seq<Sample>)
    requires AllNumbers(stats)
    ensures TotalOf(ValuesOf(stats, "imag")) == Ok(0)
    ensures TotalOf(ValuesOf(stats, "denominator")) == Ok(|stats|)
    ensures ValuesOf(stats, "real") == stats
  {
    if stats != [] {
      var init := stats[..|stats| - 1];
      IntAttributesOfNumbers(init);
      assert ValuesOf(stats, "imag") == ValuesOf(init, "imag") + [Number(0)];
      TotalAppend(ValuesOf(init, "imag"), 0);
      assert ValuesOf(stats, "denominator") == ValuesOf(init, "denominator") + [Number(1)];
      TotalAppend(ValuesOf(init, "denominator"), 1);
    }
  }

  /** Under an attribute whose value on an int is neither a number nor a
      text, such as `bit_length`, every value is such a value: one of them
      is its own min and max, and two or more make min, max and sum raise
      TypeError. */
  lemma OtherAttributesOfNumbers(stats: seq<Sample>, attribute: string)
    requires AllNumbers(stats) && IntOtherAttribute(attribute) && stats != []
    ensures forall i :: 0 <= i < |stats| ==> ValuesOf(stats, attribute)[i] == Other
    ensures TotalOf(ValuesOf(stats, attribute)) == Err(TypeError)
    ensures |stats| == 1 ==> MinOf(ValuesOf(stats, attribute)) == Ok(Other) && MaxOf(ValuesOf(stats, attribute)) == Ok(Other)
    ensures |stats| > 1 ==>
      MinOf(ValuesOf(stats, attribute)) == Err(TypeError) && MaxOf(ValuesOf(stats, attribute)) == Err(TypeError)
  {
    assert !ValuesOf(stats, attribute)[0].Number? && !ValuesOf(stats, attribute)[0].Text?;
  }

  /** Under `__doc__` every int gives the same text, int's docstring: it is
      the min and the max, and sum raises TypeError. */
  lemma DocOfNumbers(stats: seq<Sample>)
    requires AllNumbers(stats) && stats != []
    ensures forall i :: 0 <= i < |stats| ==> ValuesOf(stats, "__doc__")[i] == Text(IntDoc)
    ensures MinOf(ValuesOf(stats, "__doc__")) == Ok(Text(IntDoc)) && MaxOf(ValuesOf(stats, "__doc__")) == Ok(Text(IntDoc))
    ensures TotalOf(ValuesOf(stats, "__doc__")) == Err(TypeError)
  {
    var vs := ValuesOf(stats, "__doc__");
    assert AllTexts(vs) && !vs[0].Number?;
    assert Text(IntDoc) in vs;
  }

  /** A timer's method is not a value: aggregating timers under `start`
      raises TypeError from min, max and sum. */
  lemma TimerMethodIsNotAValue(t1: TimerRec, n1: Option<string>, t2: TimerRec, n2: Option<string>)
    ensures var vs := ValuesOf([TimerSample(t1, n1), TimerSample(t2, n2)], "start");
      vs == [Other, Other] && MinOf(vs) == Err(TypeError) && MaxOf(vs) == Err(TypeError) && TotalOf(vs) == Err(TypeError)
  {
    var vs := ValuesOf([TimerSample(t1, n1), TimerSample(t2, n2)], "start");
    assert "start" !in TimerSample(t1, n1).attrs && "start" !in TimerSample(t2, n2).attrs;
    assert "start" !in TimerSample(t1, n1).texts && "start" !in TimerSample(t2, n2).texts;
    assert vs[0] == Other && !vs[0].Number? && !vs[0].Text?;
  }

  /** A timer's state is a text: aggregating two timers under `state`
      gives their states, min and max order them as strings, and sum
      raises TypeError. */
  lemma TimerStatesAreTexts(t1: TimerRec, n1: Option<string>, t2: TimerRec, n2: Option<string>)
    ensures var vs := ValuesOf([TimerSample(t1, n1), TimerSample(t2, n2)], "state");
      var a, b := StateName(t1.state), StateName(t2.state);
      vs == [Text(a), Text(b)] &&
      MinOf(vs) == Ok(Text(if Less(b, a) then b else a)) &&
      MaxOf(vs) == Ok(Text(if Less(a, b) then b else a)) &&
      TotalOf(vs) == Err(TypeError)
  {
    var vs := ValuesOf([TimerSample(t1, n1), TimerSample(t2, n2)], "state");
    var a, b := StateName(t1.state), StateName(t2.state);
    assert "state" !in TimerSample(t1, n1).attrs && "state" in TimerSample(t1, n1).texts;
    assert "state" !in TimerSample(t2, n2).attrs && "state" in TimerSample(t2, n2).texts;
    assert vs == [Text(a), Text(b)];
    assert vs[1..] == [Text(b)];
    assert AllTexts(vs) && !vs[0].Number?;
  }

  /** A new timer and a running one: min of their states is 'new' and max
      is 'running'. */
  lemma NewAndRunningStates(start: int)
    ensures var vs := ValuesOf([TimerSample(NewTimer, None), TimerSample(TimerRec(Running, 0, Some(start)), None)], "state");
      MinOf(vs) == Ok(Text("new")) && MaxOf(vs) == Ok(Text("running"))
  {
    TimerStatesAreTexts(NewTimer, None, TimerRec(Running, 0, Some(start)), None);
    FirstDifferenceDecides([], 'n', 'r', "ew", "unning");
    assert Less("new", "running");
    LessTotal("new", "running");
  }
}
