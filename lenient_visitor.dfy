/** The test extractor of `testsearch.py`. It follows the Rust extractors
    (one-level class names, as in `testsearch-core`) but is lenient below
    the top level: a kind that a decorated definition, a class definition or
    a class block has no case for is logged and skipped. A failed `assert`
    raises `AssertionError`; an unknown top-level kind raises
    `NotImplementedError`. Both end the walk, and `extract_tests` then
    raises instead of returning the list.

    Each extractor module keeps its own copy of the walk functions, of
    `ChildrenStep` and of the `Visitor` class on purpose: one copy per
    snapshot, so that each can be read against its own source file. */
module LenientVisitor {
  import opened Common
  import opened Syntax
  import CoreVisitor
  import NestedVisitor

  const AssertionError := "AssertionError"
  const NotImplementedError := "NotImplementedError"

  /** `handle_function_definition`: `node.child(1)` is `None` when the node
      has fewer than two children, which fails the `assert`. */
  function Function(file: string, n: Node, cls: Option<string>): (r: Walk)
    ensures |r.records| <= 1
    ensures r.stop == (if |n.children| < 2 then Raise(AssertionError) else Continue)
    ensures |r.records| == 1 <==>
              |n.children| >= 2 && StartsWith(n.children[1].text, "test_")
    ensures |r.records| == 1 ==> r.records[0] == TestCase(n.children[1].text, file, cls)
  {
    if |n.children| < 2 then Walk([], Raise(AssertionError))
    else if StartsWith(n.children[1].text, "test_") then
      Walk([TestCase(n.children[1].text, file, cls)], Continue)
    else Quiet
  }

  /** `handle_class_definition`: a missing or non-identifier name fails an
      `assert`; a class not named `Test...` is skipped. */
  function Class(file: string, n: Node): Walk
    decreases n, |n.children| + 1
  {
    if |n.children| < 2 || n.children[1].kind != Identifier then Walk([], Raise(AssertionError))
    else if !StartsWith(n.children[1].text, "Test") then Quiet
    else Children(file, ClassDef(n.children[1].text), n, 2)
  }

  /** What the handler running in `role` does with one child `c`. */
  function Dispatch(file: string, role: Role, c: Node): Walk
    decreases c, |c.children| + 2
  {
    match role
    case Module =>
      if c.kind == DecoratedDefinition then Children(file, Decorated(None), c, 0)
      else if c.kind == ClassDefinition then Class(file, c)
      else if c.kind == FunctionDefinition then Function(file, c, None)
      else if SkippedAtTop(c.kind) then Quiet
      else Walk([], Raise(NotImplementedError))
    case Decorated(cls) =>
      if c.kind == FunctionDefinition then Function(file, c, cls)
      else if c.kind == ClassDefinition then Class(file, c)
      else Quiet
    case ClassDef(path) =>
      if c.kind == Block then Children(file, ClassBlock(Some(path)), c, 0)
      else Quiet
    case ClassBlock(cls) =>
      if c.kind == DecoratedDefinition then Children(file, Decorated(cls), c, 0)
      else if c.kind == FunctionDefinition then Function(file, c, cls)
      else Quiet
  }

  /** The handler loop for `role` over `n.children[i..]`. */
  function Children(file: string, role: Role, n: Node, i: nat): Walk
    decreases n, |n.children| - i
  {
    if i >= |n.children| then Quiet
    else
      var h := Dispatch(file, role, n.children[i]);
      if h.stop.Continue? then Prepend(h.records, Children(file, role, n, i + 1)) else h
  }

  /** `extract_tests` on an already parsed file: the list the visitor
      built, or the exception that escaped it. */
  function Extract(file: string, root: Node): (r: Result<seq<TestCase>>)
    ensures r.Ok? <==> Children(file, Module, root, 0).stop.Continue?
    ensures r.Err? ==> r.error in {AssertionError, NotImplementedError}
  {
    var w := Children(file, Module, root, 0);
    ChildrenOnlyAssert(file, Module, root, 0);
    if w.stop.Raise? then Err(w.stop.exception) else Ok(w.records)
  }

  /** How a walk in `role` can end. */
  predicate Raises(role: Role, stop: Stop) {
    stop == Continue || stop == Raise(AssertionError)
    || (role.Module? && stop == Raise(NotImplementedError))
  }

  /** Only the top-level loop raises `NotImplementedError`: below it a walk
      either continues or fails an `assert`. */
  lemma {:induction false} ChildrenOnlyAssert(file: string, role: Role, n: Node, i: nat)
    ensures Raises(role, Children(file, role, n, i).stop)
    decreases n, |n.children| - i
  {
    if i < |n.children| {
      DispatchOnlyAssert(file, role, n.children[i]);
      if Dispatch(file, role, n.children[i]).stop.Continue? {
        ChildrenOnlyAssert(file, role, n, i + 1);
      }
    }
  }

  /** The child kinds a handler below the top level has a case for. */
  predicate Descends(role: Role, kind: Kind) {
    match role
    case Module => true
    case Decorated(_) => kind == FunctionDefinition || kind == ClassDefinition
    case ClassDef(_) => kind == Block
    case ClassBlock(_) => kind == DecoratedDefinition || kind == FunctionDefinition
  }

  /** Below the top level a child continues or fails an `assert`, and a
      child of a kind the handler has no case for is logged and passed
      over. */
  lemma {:induction false} DispatchOnlyAssert(file: string, role: Role, c: Node)
    ensures Raises(role, Dispatch(file, role, c).stop)
    ensures !Descends(role, c.kind) ==> Dispatch(file, role, c) == Quiet
    decreases c, |c.children| + 2
  {
    match role
    case Module =>
      if c.kind == DecoratedDefinition { ChildrenOnlyAssert(file, Decorated(None), c, 0); }
      else if c.kind == ClassDefinition { ClassOnlyAssert(file, c); }
    case Decorated(cls) =>
      if c.kind == ClassDefinition { ClassOnlyAssert(file, c); }
    case ClassDef(path) =>
      if c.kind == Block { ChildrenOnlyAssert(file, ClassBlock(Some(path)), c, 0); }
    case ClassBlock(cls) =>
      if c.kind == DecoratedDefinition { ChildrenOnlyAssert(file, Decorated(cls), c, 0); }
  }

  lemma {:induction false} ClassOnlyAssert(file: string, n: Node)
    ensures Raises(Decorated(None), Class(file, n).stop)
    decreases n, |n.children| + 1
  {
    if |n.children| >= 2 && n.children[1].kind == Identifier
       && StartsWith(n.children[1].text, "Test") {
      ChildrenOnlyAssert(file, ClassDef(n.children[1].text), n, 2);
    }
  }

  /** Every record carries this file and the name of a `test_` function
      defined in the walked subtree, and no class or a `Test` class. */
  lemma {:induction false} ChildrenEmitsTests(file: string, role: Role, n: Node, i: nat)
    requires RoleOk(role)
    ensures AllTests(file, Children(file, role, n, i).records)
    ensures AllInTestClasses(Children(file, role, n, i).records)
    ensures AllDeclared(n, Children(file, role, n, i).records)
    decreases n, |n.children| - i
  {
    if i < |n.children| {
      DispatchEmitsTests(file, role, n.children[i]);
      var h := Dispatch(file, role, n.children[i]);
      DeclaredInParent(n, i, h.records);
      if h.stop.Continue? {
        ChildrenEmitsTests(file, role, n, i + 1);
        var rest := Children(file, role, n, i + 1).records;
        ConcatTests(file, h.records, rest);
        ConcatInTestClasses(h.records, rest);
        ConcatDeclared(n, h.records, rest);
      }
    }
  }

  lemma {:induction false} DispatchEmitsTests(file: string, role: Role, c: Node)
    requires RoleOk(role)
    ensures AllTests(file, Dispatch(file, role, c).records)
    ensures AllInTestClasses(Dispatch(file, role, c).records)
    ensures AllDeclared(c, Dispatch(file, role, c).records)
    decreases c, |c.children| + 2
  {
    match role
    case Module =>
      if c.kind == DecoratedDefinition { ChildrenEmitsTests(file, Decorated(None), c, 0); }
      else if c.kind == ClassDefinition { ClassEmitsTests(file, c); }
    case Decorated(cls) =>
      if c.kind == ClassDefinition { ClassEmitsTests(file, c); }
    case ClassDef(path) =>
      if c.kind == Block { ChildrenEmitsTests(file, ClassBlock(Some(path)), c, 0); }
    case ClassBlock(cls) =>
      if c.kind == DecoratedDefinition { ChildrenEmitsTests(file, Decorated(cls), c, 0); }
  }

  lemma {:induction false} ClassEmitsTests(file: string, n: Node)
    ensures AllTests(file, Class(file, n).records)
    ensures AllInTestClasses(Class(file, n).records)
    ensures AllDeclared(n, Class(file, n).records)
    decreases n, |n.children| + 1
  {
    if |n.children| >= 2 && n.children[1].kind == Identifier
       && StartsWith(n.children[1].text, "Test") {
      ChildrenEmitsTests(file, ClassDef(n.children[1].text), n, 2);
    }
  }

  /** Wherever `testsearch-core` neither panics nor bails, this script
      collects the same records; where the Rust code bails on a malformed
      definition, the script fails an `assert` after the same records. */
  lemma {:induction false} ChildrenAgreeWithCore(file: string, role: Role, n: Node, i: nat)
    requires !CoreVisitor.Children(file, role, n, i).stop.Panic?
    ensures Children(file, role, n, i).records == CoreVisitor.Children(file, role, n, i).records
    ensures Children(file, role, n, i).stop
            == if CoreVisitor.Children(file, role, n, i).stop.Continue? then Continue
               else Raise(AssertionError)
    decreases n, |n.children| - i
  {
    if i < |n.children| {
      DispatchAgreesWithCore(file, role, n.children[i]);
      if CoreVisitor.Dispatch(file, role, n.children[i]).stop.Continue? {
        ChildrenAgreeWithCore(file, role, n, i + 1);
      }
    }
  }

  lemma {:induction false} DispatchAgreesWithCore(file: string, role: Role, c: Node)
    requires !CoreVisitor.Dispatch(file, role, c).stop.Panic?
    ensures Dispatch(file, role, c).records == CoreVisitor.Dispatch(file, role, c).records
    ensures Dispatch(file, role, c).stop
            == if CoreVisitor.Dispatch(file, role, c).stop.Continue? then Continue
               else Raise(AssertionError)
    decreases c, |c.children| + 2
  {
    match role
    case Module =>
      if c.kind == DecoratedDefinition { ChildrenAgreeWithCore(file, Decorated(None), c, 0); }
      else if c.kind == ClassDefinition { ClassAgreesWithCore(file, c); }
    case Decorated(cls) =>
      if c.kind == ClassDefinition { ClassAgreesWithCore(file, c); }
    case ClassDef(path) =>
      if c.kind == Block { ChildrenAgreeWithCore(file, ClassBlock(Some(path)), c, 0); }
    case ClassBlock(cls) =>
      if c.kind == DecoratedDefinition { ChildrenAgreeWithCore(file, Decorated(cls), c, 0); }
  }

  lemma {:induction false} ClassAgreesWithCore(file: string, n: Node)
    requires !CoreVisitor.Class(file, n).stop.Panic?
    ensures Class(file, n).records == CoreVisitor.Class(file, n).records
    ensures Class(file, n).stop
            == if CoreVisitor.Class(file, n).stop.Continue? then Continue
               else Raise(AssertionError)
    decreases n, |n.children| + 1
  {
    if |n.children| >= 2 && n.children[1].kind == Identifier
       && StartsWith(n.children[1].text, "Test") {
      ChildrenAgreeWithCore(file, ClassDef(n.children[1].text), n, 2);
    }
  }

  /** Below the top level an unknown kind is logged and passed over: a
      class nested in a class block and a `pass` statement yield nothing,
      so methods carry their class's name one level deep only. */
  lemma NestedClassIsSkipped(file: string, cls: Option<string>, c: Node)
    requires c.kind == ClassDefinition || c.kind == PassStatement
    ensures Dispatch(file, ClassBlock(cls), c) == Quiet
  {
  }

  /** A class not named `Test...` yields nothing, its `test_` methods
      included, and does not stop the walk. */
  lemma NonTestClassIsQuiet(file: string, n: Node)
    requires |n.children| >= 2 && n.children[1].kind == Identifier
    requires !StartsWith(n.children[1].text, "Test")
    ensures Class(file, n) == Quiet
  {
  }

  /** A `test_` function in the block of class `name` is reported with
      that class name. */
  lemma MethodCarriesClassName(file: string, name: string, c: Node)
    requires c.kind == FunctionDefinition && |c.children| >= 2
    requires StartsWith(c.children[1].text, "test_")
    ensures Dispatch(file, ClassBlock(Some(name)), c)
            == Walk([TestCase(c.children[1].text, file, Some(name))], Continue)
  {
  }

  /** `class <name>: def <fn>(self): ...` yields `fn` under the class name
      when the class is named `Test...`, and nothing otherwise. */
  lemma ClassWithMethodExample(file: string, name: string, fn: string)
    requires StartsWith(fn, "test_")
    ensures Class(file, NestedVisitor.ClassWithMethod(name, fn))
            == if StartsWith(name, "Test") then Walk([TestCase(fn, file, Some(name))], Continue)
               else Quiet
  {
    var n := NestedVisitor.ClassWithMethod(name, fn);
    if StartsWith(name, "Test") {
      var block := n.children[3];
      var tc := TestCase(fn, file, Some(name));
      MethodCarriesClassName(file, name, block.children[0]);
      assert Children(file, ClassBlock(Some(name)), block, 1) == Quiet;
      assert [tc] + [] == [tc];
      assert Children(file, ClassBlock(Some(name)), block, 0) == Walk([tc], Continue);
      assert Children(file, ClassDef(name), n, 4) == Quiet;
      assert Children(file, ClassDef(name), n, 3) == Walk([tc], Continue);
      assert Children(file, ClassDef(name), n, 2) == Walk([tc], Continue);
    }
  }

  /** A decorated class is handled afresh, with no enclosing class, even
      inside a class body. */
  lemma DecoratedClassResetsContext(file: string, cls: Option<string>, c: Node)
    requires c.kind == ClassDefinition
    ensures Dispatch(file, Decorated(cls), c) == Class(file, c)
  {
  }

  lemma ChildrenStep(file: string, role: Role, n: Node, i: nat, done: seq<TestCase>)
    requires i < |n.children|
    ensures var h := Dispatch(file, role, n.children[i]);
            Prepend(done, Children(file, role, n, i))
            == if h.stop.Continue? then Prepend(done + h.records, Children(file, role, n, i + 1))
               else Walk(done + h.records, h.stop)
  {
    PrependTwice(done, Dispatch(file, role, n.children[i]).records, Children(file, role, n, i + 1));
  }

  /** The script's `Visitor`: `tests` is `self.tests`. A raised exception
      is the `raised` result of a handler; the list keeps what was appended
      before it. */
  class Visitor {
    const filename: string
    var tests: seq<TestCase>

    constructor (filename: string)
      ensures this.filename == filename && tests == []
    {
      this.filename := filename;
      tests := [];
    }

    method Visit(root: Node) returns (stop: Stop)
      modifies this
      ensures tests == old(tests) + Children(filename, Module, root, 0).records
      ensures stop == Children(filename, Module, root, 0).stop
    {
      var i := 0;
      while i < |root.children|
        invariant 0 <= i <= |root.children|
        invariant Prepend(old(tests), Children(filename, Module, root, 0)) == Prepend(tests, Children(filename, Module, root, i))
      {
        ChildrenStep(filename, Module, root, i, tests);
        var s := HandleChild(Module, root.children[i]);
        if !s.Continue? {
          return s;
        }
        i := i + 1;
      }
      return Continue;
    }

    /** The `match child.type` of the handler running in `role`. */
    method HandleChild(role: Role, child: Node) returns (stop: Stop)
      modifies this
      ensures tests == old(tests) + Dispatch(filename, role, child).records
      ensures stop == Dispatch(filename, role, child).stop
      decreases child, 3
    {
      match role
      case Module =>
        if child.kind == DecoratedDefinition {
          stop := HandleDecoratedDefinition(child, None);
        } else if child.kind == ClassDefinition {
          stop := HandleClassDefinition(child);
        } else if child.kind == FunctionDefinition {
          stop := HandleFunctionDefinition(child, None);
        } else if SkippedAtTop(child.kind) {
          stop := Continue;
        } else {
          stop := Raise(NotImplementedError);
        }
      case Decorated(cls) =>
        if child.kind == FunctionDefinition {
          stop := HandleFunctionDefinition(child, cls);
        } else if child.kind == ClassDefinition {
          stop := HandleClassDefinition(child);
        } else {
          stop := Continue;
        }
      case ClassDef(path) =>
        if child.kind == Block {
          stop := HandleClassBlock(child, path);
        } else {
          stop := Continue;
        }
      case ClassBlock(cls) =>
        if child.kind == DecoratedDefinition {
          stop := HandleDecoratedDefinition(child, cls);
        } else if child.kind == FunctionDefinition {
          stop := HandleFunctionDefinition(child, cls);
        } else {
          stop := Continue;
        }
    }

    method HandleDecoratedDefinition(n: Node, cls: Option<string>) returns (stop: Stop)
      modifies this
      ensures tests == old(tests) + Children(filename, Decorated(cls), n, 0).records
      ensures stop == Children(filename, Decorated(cls), n, 0).stop
      decreases n, 2
    {
      var i := 0;
      while i < |n.children|
        invariant 0 <= i <= |n.children|
        invariant Prepend(old(tests), Children(filename, Decorated(cls), n, 0)) == Prepend(tests, Children(filename, Decorated(cls), n, i))
      {
        ChildrenStep(filename, Decorated(cls), n, i, tests);
        var s := HandleChild(Decorated(cls), n.children[i]);
        if !s.Continue? {
          return s;
        }
        i := i + 1;
      }
      return Continue;
    }

    method HandleClassDefinition(n: Node) returns (stop: Stop)
      modifies this
      ensures tests == old(tests) + Class(filename, n).records
      ensures stop == Class(filename, n).stop
      decreases n, 2
    {
      if |n.children| < 2 || n.children[1].kind != Identifier {
        return Raise(AssertionError);
      }
      var className := n.children[1].text;
      if !StartsWith(className, "Test") {
        return Continue;
      }
      var i := 2;
      while i < |n.children|
        invariant 2 <= i <= |n.children|
        invariant Prepend(old(tests), Class(filename, n)) == Prepend(tests, Children(filename, ClassDef(className), n, i))
      {
        ChildrenStep(filename, ClassDef(className), n, i, tests);
        var s := HandleChild(ClassDef(className), n.children[i]);
        if !s.Continue? {
          return s;
        }
        i := i + 1;
      }
      return Continue;
    }

    method HandleClassBlock(n: Node, className: string) returns (stop: Stop)
      modifies this
      ensures tests == old(tests) + Children(filename, ClassBlock(Some(className)), n, 0).records
      ensures stop == Children(filename, ClassBlock(Some(className)), n, 0).stop
      decreases n, 2
    {
      var i := 0;
      while i < |n.children|
        invariant 0 <= i <= |n.children|
        invariant Prepend(old(tests), Children(filename, ClassBlock(Some(className)), n, 0)) == Prepend(tests, Children(filename, ClassBlock(Some(className)), n, i))
      {
        ChildrenStep(filename, ClassBlock(Some(className)), n, i, tests);
        var s := HandleChild(ClassBlock(Some(className)), n.children[i]);
        if !s.Continue? {
          return s;
        }
        i := i + 1;
      }
      return Continue;
    }

    method HandleFunctionDefinition(n: Node, cls: Option<string>) returns (stop: Stop)
      modifies this
      ensures tests == old(tests) + Function(filename, n, cls).records
      ensures stop == Function(filename, n, cls).stop
      decreases n, 1
    {
      if |n.children| < 2 {
        return Raise(AssertionError);
      }
      var identifier := n.children[1].text;
      if !StartsWith(identifier, "test_") {
        return Continue;
      }
      tests := tests + [TestCase(identifier, filename, cls)];
      return Continue;
    }
  }

  /** `extract_tests`: a fresh visitor over the parsed file; its list, or
      the exception that escaped the walk. */
  method ExtractTests(path: string, root: Node) returns (r: Result<seq<TestCase>>)
    ensures r == Extract(path, root)
    ensures r.Ok? ==> AllTests(path, r.value) && AllInTestClasses(r.value)
    ensures r.Ok? ==> AllDeclared(root, r.value)
  {
    var visitor := new Visitor(path);
    var stop := visitor.Visit(root);
    ChildrenOnlyAssert(path, Module, root, 0);
    if stop.Raise? {
      return Err(stop.exception);
    }
    ChildrenEmitsTests(path, Module, root, 0);
    var tests := visitor.tests;
    assert tests == Children(path, Module, root, 0).records;
    return Ok(tests);
  }
}
