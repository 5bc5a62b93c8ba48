// Task discovery for the profiler: a unittest suite is a tree whose leaves
// are test cases, each naming one task method; pull_tasks flattens it into
// (import path, task) pairs.  Loading the suite from the file system is
// not part of this model.

module Discovery {
  import opened Exceptions
  import opened Strings

  /** A node of a suite: a test case (it has _testMethodName), with its
      class's module and name and the attribute names of the case, or a
      suite of further nodes. */
  datatype Node =
    | Case(moduleName: string, cls: string, methodName: string, attributes: set<string>)
    | Suite(tests: seq<Node>)

  /** _testMethod_path: module.class.method */
  function MethodPath(t: Node): string
    requires t.Case?
  {
    t.moduleName + "." + t.cls + "." + t.methodName
  }

  /** Cut from the right, a path gives back its three parts, as long as the
      class and method names carry no dot (the module name may). */
  lemma MethodPathParts(t: Node)
    requires t.Case? && '.' !in t.cls && '.' !in t.methodName
    ensures RSplit(MethodPath(t), '.', 2) == [t.moduleName, t.cls, t.methodName]
  {
    assert MethodPath(t) == (t.moduleName + "." + t.cls) + ['.'] + t.methodName;
    RSplitJoin(t.moduleName + "." + t.cls, '.', t.methodName, 2);
    assert t.moduleName + "." + t.cls == t.moduleName + ['.'] + t.cls;
    RSplitJoin(t.moduleName, '.', t.cls, 1);
  }

  /** task_method: getattr(task, task._testMethodName), AttributeError when
      the case has no such attribute. */
  function TaskMethod(t: Node): (r: Result<string>)
    requires t.Case?
    ensures r.Ok? <==> t.methodName in t.attributes
    ensures r.Ok? ==> r.value == t.methodName
    ensures r.Err? ==> r.error == AttributeError
  {
    if t.methodName in t.attributes then Ok(t.methodName) else Err(AttributeError)
  }

  /** The (path, task) pairs below a node, depth first, left to right. */
  function Leaves(n: Node): seq<(string, Node)>
    decreases n
  {
    match n
    case Case(_, _, _, _) => [(MethodPath(n), n)]
    case Suite(ts) => LeavesOf(ts)
  }

  function LeavesOf(ns: seq<Node>): seq<(string, Node)>
    decreases ns
  {
    if ns == [] then [] else LeavesOf(ns[..|ns| - 1]) + Leaves(ns[|ns| - 1])
  }

  /** Every pair is a test case under its own path. */
  lemma {:induction false} LeavesAreCases(ns: seq<Node>)
    ensures forall i :: 0 <= i < |LeavesOf(ns)| ==>
      LeavesOf(ns)[i].1.Case? && LeavesOf(ns)[i].0 == MethodPath(LeavesOf(ns)[i].1)
    decreases ns
  {
    if ns != [] {
      var init := ns[..|ns| - 1];
      LeavesAreCases(init);
      var last := ns[|ns| - 1];
      if last.Suite? {
        LeavesAreCases(last.tests);
        assert Leaves(last) == LeavesOf(last.tests);
      }
      var a: seq<(string, Node)>, b: seq<(string, Node)> := LeavesOf(init), Leaves(last);
      assert LeavesOf(ns) == a + b;
      forall i | |a| <= i < |a + b|
        ensures (a + b)[i].1.Case? && (a + b)[i].0 == MethodPath((a + b)[i].1)
      {
        assert (a + b)[i] == b[i - |a|];
      }
    }
  }

  /** Flattening works piecewise: the leaves of two lists of nodes are the
      leaves of the first followed by those of the second. */
  lemma {:induction false} LeavesOfAppend(a: seq<Node>, b: seq<Node>)
    ensures LeavesOf(a + b) == LeavesOf(a) + LeavesOf(b)
    decreases |b|
  {
    if b == [] {
      assert a + b == a;
    } else {
      var init := b[..|b| - 1];
      assert (a + b)[..|a + b| - 1] == a + init;
      assert (a + b)[|a + b| - 1] == b[|b| - 1];
      LeavesOfAppend(a, init);
    }
  }

  /** Nesting does not show: a suite wrapped in a suite has the same
      leaves. */
  lemma NestingFlattens(ts: seq<Node>, before: seq<Node>, after: seq<Node>)
    ensures LeavesOf(before + [Suite(ts)] + after) == LeavesOf(before) + LeavesOf(ts) + LeavesOf(after)
  {
    LeavesOfAppend(before + [Suite(ts)], after);
    LeavesOfAppend(before, [Suite(ts)]);
    assert [Suite(ts)][..0] == [];
  }

  /** A suite of test cases alone yields each of them, in order. */
  lemma {:induction false} FlatSuite(ns: seq<Node>)
    requires forall i :: 0 <= i < |ns| ==> ns[i].Case?
    ensures |LeavesOf(ns)| == |ns|
    ensures forall i :: 0 <= i < |ns| ==> LeavesOf(ns)[i] == (MethodPath(ns[i]), ns[i])
    decreases |ns|
  {
    if ns != [] {
      FlatSuite(ns[..|ns| - 1]);
    }
  }

  /** The list pull_tasks appends to. */
  class Memo {
    var items: seq<(string, Node)>

    constructor ()
      ensures items == []
    {
      items := [];
    }

    method Append(x: (string, Node))
      modifies this
      ensures items == old(items) + [x]
    {
      items := items + [x];
    }
  }

  /** pull_tasks(suite, memo): the leaves of the suite are appended to the
      given memo, which is returned, or to a new list.  A case passed as the
      suite has no _tests. */
  method PullTasks(suite: Node, memo: Option<Memo>) returns (r: Result<Memo>)
    modifies if memo.Some? then {memo.value} else {}
    ensures suite.Case? ==> r == Err(AttributeError)
    ensures suite.Suite? && memo.Some? ==> r == Ok(memo.value) && memo.value.items == old(memo.value.items) + LeavesOf(suite.tests)
    ensures suite.Suite? && memo.None? ==> r.Ok? && fresh(r.value) && r.value.items == LeavesOf(suite.tests)
    decreases suite
  {
    var m: Memo;
    if memo.None? {
      m := new Memo();
    } else {
      m := memo.value;
    }
    if suite.Case? {
      return Err(AttributeError);
    }
    var tasks := suite.tests;
    ghost var start := m.items;
    var i := 0;
    while i < |tasks|
      invariant 0 <= i <= |tasks|
      invariant m.items == start + LeavesOf(tasks[..i])
      invariant memo.None? ==> fresh(m)
    {
      var task := tasks[i];
      assert tasks[..i + 1][..i] == tasks[..i];
      if task.Case? {
        m.Append((MethodPath(task), task));
      } else {
        var sub := PullTasks(task, Some(m));
      }
      i := i + 1;
    }
    assert tasks[..i] == tasks;
    return Ok(m);
  }
}
