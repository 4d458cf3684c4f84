/** The test extractor of `main.py`, the loosest of the four: classes are
    walked whatever their name, a class block visits only its decorated
    definitions, and a decorated definition visits only its function. A
    failed `assert` raises `AssertionError`; an unknown top-level kind
    raises `NotImplementedError`. The walk functions, `ChildrenStep` and
    `Visitor` repeat the shape of the other extractor modules on purpose:
    one copy per snapshot. */
module LooseVisitor {
  import opened Common
  import opened Syntax
  import LenientVisitor

  /** `handle_function_definition` is the same in both scripts. */
  function Function(file: string, n: Node, cls: Option<string>): Walk {
    LenientVisitor.Function(file, n, cls)
  }

  /** `handle_class_definition`: the name is checked but not filtered. */
  function Class(file: string, n: Node): Walk
    decreases n, |n.children| + 1
  {
    if |n.children| < 2 || n.children[1].kind != Identifier then
      Walk([], Raise(LenientVisitor.AssertionError))
    else Children(file, ClassDef(n.children[1].text), n, 2)
  }

  /** What the handler running in `role` does with one child `c`; the
      `match` statements below the top level have no catch-all error. */
  function Dispatch(file: string, role: Role, c: Node): Walk
    decreases c, |c.children| + 2
  {
    match role
    case Module =>
      if c.kind == DecoratedDefinition then Children(file, Decorated(None), c, 0)
      else if c.kind == ClassDefinition then Class(file, c)
      else if c.kind == FunctionDefinition then Function(file, c, None)
      else if SkippedAtTop(c.kind) then Quiet
      else Walk([], Raise(LenientVisitor.NotImplementedError))
    case Decorated(cls) =>
      if c.kind == FunctionDefinition then Function(file, c, cls) else Quiet
    case ClassDef(path) =>
      if c.kind == Block then Children(file, ClassBlock(Some(path)), c, 0) else Quiet
    case ClassBlock(cls) =>
      if c.kind == DecoratedDefinition then Children(file, Decorated(cls), c, 0) else Quiet
  }

  /** The handler loop for `role` over `n.children[i..]`. */
  function Children(file: string, role: Role, n: Node, i: nat): Walk
    decreases n, |n.children| - i
  {
    if i >= |n.children| then Quiet
    else
      var h := Dispatch(file, role, n.children[i]);
      if h.stop.Continue? then Prepend(h.records, Children(file, role, n, i + 1)) else h
  }

  /** `extract_tests` on an already parsed file. */
  function Extract(file: string, root: Node): (r: Result<seq<TestCase>>)
    ensures r.Ok? <==> Children(file, Module, root, 0).stop.Continue?
    ensures r.Err? ==> r.error in {LenientVisitor.AssertionError, LenientVisitor.NotImplementedError}
  {
    var w := Children(file, Module, root, 0);
    ChildrenOnlyAssert(file, Module, root, 0);
    if w.stop.Raise? then Err(w.stop.exception) else Ok(w.records)
  }

  /** As in `testsearch.py`, only the top-level loop raises
      `NotImplementedError`; below it a walk continues or fails an
      `assert`. */
  lemma {:induction false} ChildrenOnlyAssert(file: string, role: Role, n: Node, i: nat)
    ensures LenientVisitor.Raises(role, Children(file, role, n, i).stop)
    decreases n, |n.children| - i
  {
    if i < |n.children| {
      DispatchOnlyAssert(file, role, n.children[i]);
      if Dispatch(file, role, n.children[i]).stop.Continue? {
        ChildrenOnlyAssert(file, role, n, i + 1);
      }
    }
  }

  /** Below the top level a child continues or fails an `assert`, and a
      child of any kind but the one the handler visits is passed over. */
  lemma {:induction false} DispatchOnlyAssert(file: string, role: Role, c: Node)
    ensures LenientVisitor.Raises(role, Dispatch(file, role, c).stop)
    ensures !role.Module? && c.kind != Visited(role) ==> Dispatch(file, role, c) == Quiet
    decreases c, |c.children| + 2
  {
    match role
    case Module =>
      if c.kind == DecoratedDefinition { ChildrenOnlyAssert(file, Decorated(None), c, 0); }
      else if c.kind == ClassDefinition { ClassOnlyAssert(file, c); }
    case Decorated(cls) =>
    case ClassDef(path) =>
      if c.kind == Block { ChildrenOnlyAssert(file, ClassBlock(Some(path)), c, 0); }
    case ClassBlock(cls) =>
      if c.kind == DecoratedDefinition { ChildrenOnlyAssert(file, Decorated(cls), c, 0); }
  }

  lemma {:induction false} ClassOnlyAssert(file: string, n: Node)
    ensures LenientVisitor.Raises(Decorated(None), Class(file, n).stop)
    decreases n, |n.children| + 1
  {
    if |n.children| >= 2 && n.children[1].kind == Identifier {
      ChildrenOnlyAssert(file, ClassDef(n.children[1].text), n, 2);
    }
  }

  /** Every record carries this file and the name of a `test_` function
      defined in the walked subtree; unlike the other extractors, any class
      name may come with it. */
  lemma {:induction false} ChildrenEmitsTests(file: string, role: Role, n: Node, i: nat)
    ensures AllTests(file, Children(file, role, n, i).records)
    ensures AllDeclared(n, Children(file, role, n, i).records)
    decreases n, |n.children| - i
  {
    if i < |n.children| {
      DispatchEmitsTests(file, role, n.children[i]);
      var h := Dispatch(file, role, n.children[i]);
      DeclaredInParent(n, i, h.records);
      if h.stop.Continue? {
        ChildrenEmitsTests(file, role, n, i + 1);
        var rest := Children(file, role, n, i + 1).records;
        ConcatTests(file, h.records, rest);
        ConcatDeclared(n, h.records, rest);
      }
    }
  }

  lemma {:induction false} DispatchEmitsTests(file: string, role: Role, c: Node)
    ensures AllTests(file, Dispatch(file, role, c).records)
    ensures AllDeclared(c, Dispatch(file, role, c).records)
    decreases c, |c.children| + 2
  {
    match role
    case Module =>
      if c.kind == DecoratedDefinition { ChildrenEmitsTests(file, Decorated(None), c, 0); }
      else if c.kind == ClassDefinition { ClassEmitsTests(file, c); }
    case Decorated(cls) =>
    case ClassDef(path) =>
      if c.kind == Block { ChildrenEmitsTests(file, ClassBlock(Some(path)), c, 0); }
    case ClassBlock(cls) =>
      if c.kind == DecoratedDefinition { ChildrenEmitsTests(file, Decorated(cls), c, 0); }
  }

  lemma {:induction false} ClassEmitsTests(file: string, n: Node)
    ensures AllTests(file, Class(file, n).records)
    ensures AllDeclared(n, Class(file, n).records)
    decreases n, |n.children| + 1
  {
    if |n.children| >= 2 && n.children[1].kind == Identifier {
      ChildrenEmitsTests(file, ClassDef(n.children[1].text), n, 2);
    }
  }

  /** The class context a handler below the top level carries. */
  function Context(role: Role): Option<string>
    requires !role.Module?
  {
    match role
    case Decorated(cls) => cls
    case ClassDef(path) => Some(path)
    case ClassBlock(cls) => cls
  }

  /** Every record has class context `cls`. */
  ghost predicate AllInClass(records: seq<TestCase>, cls: Option<string>) {
    forall k :: 0 <= k < |records| ==> records[k].className == cls
  }

  lemma ConcatInClass(a: seq<TestCase>, b: seq<TestCase>, cls: Option<string>)
    requires AllInClass(a, cls) && AllInClass(b, cls)
    ensures AllInClass(a + b, cls)
  {
    forall k | 0 <= k < |a + b| ensures (a + b)[k].className == cls {
      if k >= |a| { assert (a + b)[k] == b[k - |a|]; }
    }
  }

  /** Below the top level the class context never changes: a class's
      records all carry that class's own name, since neither a decorated
      definition nor a class block starts a new class. */
  lemma {:induction false} ChildrenKeepContext(file: string, role: Role, n: Node, i: nat)
    requires !role.Module?
    ensures AllInClass(Children(file, role, n, i).records, Context(role))
    decreases n, |n.children| - i
  {
    if i < |n.children| {
      DispatchKeepsContext(file, role, n.children[i]);
      var h := Dispatch(file, role, n.children[i]);
      if h.stop.Continue? {
        ChildrenKeepContext(file, role, n, i + 1);
        ConcatInClass(h.records, Children(file, role, n, i + 1).records, Context(role));
      }
    }
  }

  lemma {:induction false} DispatchKeepsContext(file: string, role: Role, c: Node)
    requires !role.Module?
    ensures AllInClass(Dispatch(file, role, c).records, Context(role))
    decreases c, |c.children| + 2
  {
    match role
    case Decorated(cls) =>
    case ClassDef(path) =>
      if c.kind == Block { ChildrenKeepContext(file, ClassBlock(Some(path)), c, 0); }
    case ClassBlock(cls) =>
      if c.kind == DecoratedDefinition { ChildrenKeepContext(file, Decorated(cls), c, 0); }
  }

  /** A well-formed class yields records that all carry its name, whether
      or not that name starts with `Test`. */
  lemma ClassRecordsCarryName(file: string, n: Node)
    requires |n.children| >= 2 && n.children[1].kind == Identifier
    ensures AllInClass(Class(file, n).records, Some(n.children[1].text))
  {
    ChildrenKeepContext(file, ClassDef(n.children[1].text), n, 2);
  }

  /** The only child kind a handler below the top level descends into. */
  function Visited(role: Role): Kind
    requires !role.Module?
  {
    match role
    case Decorated(_) => FunctionDefinition
    case ClassDef(_) => Block
    case ClassBlock(_) => DecoratedDefinition
  }

  /** Children of any other kind are passed over: a class block without
      decorated definitions yields nothing (undecorated methods and nested
      classes included), and a decorated definition without a function
      (a decorated class) yields nothing. */
  lemma {:induction false} OthersAreQuiet(file: string, role: Role, n: Node, i: nat)
    requires !role.Module?
    requires forall k :: i <= k < |n.children| ==> n.children[k].kind != Visited(role)
    ensures Children(file, role, n, i) == Quiet
    decreases |n.children| - i
  {
    if i < |n.children| {
      assert Dispatch(file, role, n.children[i]) == Quiet;
      OthersAreQuiet(file, role, n, i + 1);
    }
  }

  /** A module holding one class `Helper` whose block holds a decorated
      `def test_y(self)` (source texts other than names left empty). */
  function HelperModule(): Node {
    var def := Node(FunctionDefinition, "", [Node(Other("def"), "", []), Node(Identifier, "test_y", [])]);
    var decorated := Node(DecoratedDefinition, "", [Node(Decorator, "", []), def]);
    var block := Node(Block, "", [decorated]);
    Node(Other("module"), "", [Node(ClassDefinition, "", [Node(Other("class"), "", []),
                                    Node(Identifier, "Helper", []), Node(Colon, "", []), block])])
  }

  /** This script reports `Helper`'s decorated `test_y` ... */
  lemma HelperClassIsReported()
    ensures Extract("f.py", HelperModule()) == Ok([TestCase("test_y", "f.py", Some("Helper"))])
  {
    var root := HelperModule();
    var cls := root.children[0];
    var block := cls.children[3];
    var decorated := block.children[0];
    var tc := TestCase("test_y", "f.py", Some("Helper"));
    assert StartsWith("test_y", "test_");
    assert Children("f.py", Decorated(Some("Helper")), decorated, 1) == Walk([tc], Continue);
    assert Children("f.py", Decorated(Some("Helper")), decorated, 0) == Walk([tc], Continue);
    assert Children("f.py", ClassBlock(Some("Helper")), block, 0) == Walk([tc], Continue);
    assert Children("f.py", ClassDef("Helper"), cls, 3) == Walk([tc], Continue);
    assert Children("f.py", ClassDef("Helper"), cls, 2) == Walk([tc], Continue);
    assert Children("f.py", Module, root, 0) == Walk([tc], Continue);
  }

  /** ... while `testsearch.py` skips the class for its name. */
  lemma HelperClassIsSkippedByLenient()
    ensures LenientVisitor.Extract("f.py", HelperModule()) == Ok([])
  {
    assert "Helper"[0] != "Test"[0];
  }

  lemma ChildrenStep(file: string, role: Role, n: Node, i: nat, done: seq<TestCase>)
    requires i < |n.children|
    ensures var h := Dispatch(file, role, n.children[i]);
            Prepend(done, Children(file, role, n, i))
            == if h.stop.Continue? then Prepend(done + h.records, Children(file, role, n, i + 1))
               else Walk(done + h.records, h.stop)
  {
    PrependTwice(done, Dispatch(file, role, n.children[i]).records, Children(file, role, n, i + 1));
  }

  /** The script's `Visitor`: `tests` is `self.tests`. */
  class Visitor {
    const filename: string
    var tests: seq<TestCase>

    constructor (filename: string)
      ensures this.filename == filename && tests == []
    {
      this.filename := filename;
      tests := [];
    }

    method Visit(root: Node) returns (stop: Stop)
      modifies this
      ensures tests == old(tests) + Children(filename, Module, root, 0).records
      ensures stop == Children(filename, Module, root, 0).stop
    {
      var i := 0;
      while i < |root.children|
        invariant 0 <= i <= |root.children|
        invariant Prepend(old(tests), Children(filename, Module, root, 0)) == Prepend(tests, Children(filename, Module, root, i))
      {
        ChildrenStep(filename, Module, root, i, tests);
        var s := HandleChild(Module, root.children[i]);
        if !s.Continue? {
          return s;
        }
        i := i + 1;
      }
      return Continue;
    }

    /** The `match child.type` of the handler running in `role`. */
    method HandleChild(role: Role, child: Node) returns (stop: Stop)
      modifies this
      ensures tests == old(tests) + Dispatch(filename, role, child).records
      ensures stop == Dispatch(filename, role, child).stop
      decreases child, 3
    {
      match role
      case Module =>
        if child.kind == DecoratedDefinition {
          stop := HandleDecoratedDefinition(child, None);
        } else if child.kind == ClassDefinition {
          stop := HandleClassDefinition(child);
        } else if child.kind == FunctionDefinition {
          stop := HandleFunctionDefinition(child, None);
        } else if SkippedAtTop(child.kind) {
          stop := Continue;
        } else {
          stop := Raise(LenientVisitor.NotImplementedError);
        }
      case Decorated(cls) =>
        if child.kind == FunctionDefinition {
          stop := HandleFunctionDefinition(child, cls);
        } else {
          stop := Continue;
        }
      case ClassDef(path) =>
        if child.kind == Block {
          stop := HandleClassBlock(child, path);
        } else {
          stop := Continue;
        }
      case ClassBlock(cls) =>
        if child.kind == DecoratedDefinition {
          stop := HandleDecoratedDefinition(child, cls);
        } else {
          stop := Continue;
        }
    }

    method HandleDecoratedDefinition(n: Node, cls: Option<string>) returns (stop: Stop)
      modifies this
      ensures tests == old(tests) + Children(filename, Decorated(cls), n, 0).records
      ensures stop == Children(filename, Decorated(cls), n, 0).stop
      decreases n, 2
    {
      var i := 0;
      while i < |n.children|
        invariant 0 <= i <= |n.children|
        invariant Prepend(old(tests), Children(filename, Decorated(cls), n, 0)) == Prepend(tests, Children(filename, Decorated(cls), n, i))
      {
        ChildrenStep(filename, Decorated(cls), n, i, tests);
        var s := HandleChild(Decorated(cls), n.children[i]);
        if !s.Continue? {
          return s;
        }
        i := i + 1;
      }
      return Continue;
    }

    method HandleClassDefinition(n: Node) returns (stop: Stop)
      modifies this
      ensures tests == old(tests) + Class(filename, n).records
      ensures stop == Class(filename, n).stop
      decreases n, 2
    {
      if |n.children| < 2 || n.children[1].kind != Identifier {
        return Raise(LenientVisitor.AssertionError);
      }
      var className := n.children[1].text;
      var i := 2;
      while i < |n.children|
        invariant 2 <= i <= |n.children|
        invariant Prepend(old(tests), Class(filename, n)) == Prepend(tests, Children(filename, ClassDef(className), n, i))
      {
        ChildrenStep(filename, ClassDef(className), n, i, tests);
        var s := HandleChild(ClassDef(className), n.children[i]);
        if !s.Continue? {
          return s;
        }
        i := i + 1;
      }
      return Continue;
    }

    method HandleClassBlock(n: Node, className: string) returns (stop: Stop)
      modifies this
      ensures tests == old(tests) + Children(filename, ClassBlock(Some(className)), n, 0).records
      ensures stop == Children(filename, ClassBlock(Some(className)), n, 0).stop
      decreases n, 2
    {
      var i := 0;
      while i < |n.children|
        invariant 0 <= i <= |n.children|
        invariant Prepend(old(tests), Children(filename, ClassBlock(Some(className)), n, 0)) == Prepend(tests, Children(filename, ClassBlock(Some(className)), n, i))
      {
        ChildrenStep(filename, ClassBlock(Some(className)), n, i, tests);
        var s := HandleChild(ClassBlock(Some(className)), n.children[i]);
        if !s.Continue? {
          return s;
        }
        i := i + 1;
      }
      return Continue;
    }

    method HandleFunctionDefinition(n: Node, cls: Option<string>) returns (stop: Stop)
      modifies this
      ensures tests == old(tests) + Function(filename, n, cls).records
      ensures stop == Function(filename, n, cls).stop
      decreases n, 1
    {
      if |n.children| < 2 {
        return Raise(LenientVisitor.AssertionError);
      }
      var identifier := n.children[1].text;
      if !StartsWith(identifier, "test_") {
        return Continue;
      }
      tests := tests + [TestCase(identifier, filename, cls)];
      return Continue;
    }
  }

  /** `extract_tests`: a fresh visitor over the parsed file; its list, or
      the exception that escaped the walk. */
  method ExtractTests(path: string, root: Node) returns (r: Result<seq<TestCase>>)
    ensures r == Extract(path, root)
    ensures r.Ok? ==> AllTests(path, r.value) && AllDeclared(root, r.value)
  {
    var visitor := new Visitor(path);
    var stop := visitor.Visit(root);
    ChildrenOnlyAssert(path, Module, root, 0);
    ChildrenEmitsTests(path, Module, root, 0);
    if stop.Raise? {
      return Err(stop.exception);
    }
    var tests := visitor.tests;
    assert tests == Children(path, Module, root, 0).records;
    return Ok(tests);
  }
}
