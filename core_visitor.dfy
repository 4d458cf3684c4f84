/** The test extractor of `testsearch-core/src/lib.rs`. It is the extractor
    of `src/main.rs` without nested classes: a class always gets its own
    name as its path, and a `class_definition` inside a class block is not
    one of the kinds the block handler knows, so it reaches `todo!`.

    `Children`/`Dispatch`/`Class` specify the walk as in `NestedVisitor`;
    `Visitor` is the imperative walk, proved to send what they specify.
    The copy of this shape per snapshot is deliberate. */
module CoreVisitor {
  import opened Common
  import opened Syntax
  import NestedVisitor

  /** `handle_function_definition` is the same in both Rust snapshots. */
  function Function(file: string, n: Node, cls: Option<string>): Walk {
    NestedVisitor.Function(file, n, cls)
  }

  /** `handle_class_definition`: the path is the class's own name. */
  function Class(file: string, n: Node): Walk
    decreases n, |n.children| + 1
  {
    if |n.children| < 2 then Walk([], Bail("no class name found"))
    else if n.children[1].kind != Identifier then
      Walk([], Bail("invalid class name node type, expected 'identifier', got '"
                    + KindName(n.children[1].kind) + "'"))
    else if !StartsWith(n.children[1].text, "Test") then Quiet
    else Children(file, ClassDef(n.children[1].text), n, 2)
  }

  /** What the handler running in `role` does with one child `c`. */
  function Dispatch(file: string, role: Role, c: Node): Walk
    decreases c, |c.children| + 2
  {
    match role
    case Module =>
      if c.kind == DecoratedDefinition then Children(file, Decorated(None), c, 0)
      else if c.kind == ClassDefinition then Class(file, c)
      else if c.kind == FunctionDefinition then Function(file, c, None)
      else if SkippedAtTop(c.kind) then Quiet
      else Walk([], Panic(c.kind))
    case Decorated(cls) =>
      if c.kind == FunctionDefinition then Function(file, c, cls)
      else if c.kind == ClassDefinition then Class(file, c)
      else if c.kind in {Decorator, Comment} then Quiet
      else Walk([], Panic(c.kind))
    case ClassDef(path) =>
      if c.kind == Block then Children(file, ClassBlock(Some(path)), c, 0)
      else if c.kind in {Colon, ArgumentList, Comment} then Quiet
      else Walk([], Panic(c.kind))
    case ClassBlock(cls) =>
      if c.kind == DecoratedDefinition then Children(file, Decorated(cls), c, 0)
      else if c.kind == FunctionDefinition then Function(file, c, cls)
      else if c.kind in {ExpressionStatement, Comment, PassStatement} then Quiet
      else Walk([], Panic(c.kind))
  }

  /** The handler loop for `role` over `n.children[i..]`. */
  function Children(file: string, role: Role, n: Node, i: nat): Walk
    decreases n, |n.children| - i
  {
    if i >= |n.children| then Quiet
    else
      var h := Dispatch(file, role, n.children[i]);
      if h.stop.Continue? then Prepend(h.records, Children(file, role, n, i + 1)) else h
  }

  /** `Visitor::visit` on an already parsed file. */
  function Extract(file: string, root: Node): Walk {
    Children(file, Module, root, 0)
  }

  /** Every record carries this file and the name of a `test_` function
      defined in the walked subtree, and no class or a `Test` class. */
  lemma {:induction false} ChildrenEmitsTests(file: string, role: Role, n: Node, i: nat)
    requires RoleOk(role)
    ensures AllTests(file, Children(file, role, n, i).records)
    ensures AllInTestClasses(Children(file, role, n, i).records)
    ensures AllDeclared(n, Children(file, role, n, i).records)
    decreases n, |n.children| - i
  {
    if i < |n.children| {
      DispatchEmitsTests(file, role, n.children[i]);
      var h := Dispatch(file, role, n.children[i]);
      DeclaredInParent(n, i, h.records);
      if h.stop.Continue? {
        ChildrenEmitsTests(file, role, n, i + 1);
        var rest := Children(file, role, n, i + 1).records;
        ConcatTests(file, h.records, rest);
        ConcatInTestClasses(h.records, rest);
        ConcatDeclared(n, h.records, rest);
      }
    }
  }

  lemma {:induction false} DispatchEmitsTests(file: string, role: Role, c: Node)
    requires RoleOk(role)
    ensures AllTests(file, Dispatch(file, role, c).records)
    ensures AllInTestClasses(Dispatch(file, role, c).records)
    ensures AllDeclared(c, Dispatch(file, role, c).records)
    decreases c, |c.children| + 2
  {
    match role
    case Module =>
      if c.kind == DecoratedDefinition { ChildrenEmitsTests(file, Decorated(None), c, 0); }
      else if c.kind == ClassDefinition { ClassEmitsTests(file, c); }
    case Decorated(cls) =>
      if c.kind == ClassDefinition { ClassEmitsTests(file, c); }
    case ClassDef(path) =>
      if c.kind == Block { ChildrenEmitsTests(file, ClassBlock(Some(path)), c, 0); }
    case ClassBlock(cls) =>
      if c.kind == DecoratedDefinition { ChildrenEmitsTests(file, Decorated(cls), c, 0); }
  }

  lemma {:induction false} ClassEmitsTests(file: string, n: Node)
    ensures AllTests(file, Class(file, n).records)
    ensures AllInTestClasses(Class(file, n).records)
    ensures AllDeclared(n, Class(file, n).records)
    decreases n, |n.children| + 1
  {
    if |n.children| >= 2 && n.children[1].kind == Identifier
       && StartsWith(n.children[1].text, "Test") {
      ChildrenEmitsTests(file, ClassDef(n.children[1].text), n, 2);
    }
  }

  /** Wherever this extractor does not reach a `todo!`, the nested-class
      extractor of `src/main.rs` sends exactly the same records and ends the
      same way: the two differ only on inputs that are fatal here. */
  lemma {:induction false} ChildrenAgreeWithNested(file: string, role: Role, n: Node, i: nat)
    requires !Children(file, role, n, i).stop.Panic?
    ensures NestedVisitor.Children(file, role, n, i) == Children(file, role, n, i)
    decreases n, |n.children| - i
  {
    if i < |n.children| {
      var h := Dispatch(file, role, n.children[i]);
      if h.stop.Continue? {
        DispatchAgreesWithNested(file, role, n.children[i]);
        ChildrenAgreeWithNested(file, role, n, i + 1);
      } else {
        DispatchAgreesWithNested(file, role, n.children[i]);
      }
    }
  }

  lemma {:induction false} DispatchAgreesWithNested(file: string, role: Role, c: Node)
    requires !Dispatch(file, role, c).stop.Panic?
    ensures NestedVisitor.Dispatch(file, role, c) == Dispatch(file, role, c)
    decreases c, |c.children| + 2
  {
    match role
    case Module =>
      if c.kind == DecoratedDefinition { ChildrenAgreeWithNested(file, Decorated(None), c, 0); }
      else if c.kind == ClassDefinition { ClassAgreesWithNested(file, c); }
    case Decorated(cls) =>
      if c.kind == ClassDefinition { ClassAgreesWithNested(file, c); }
    case ClassDef(path) =>
      if c.kind == Block { ChildrenAgreeWithNested(file, ClassBlock(Some(path)), c, 0); }
    case ClassBlock(cls) =>
      if c.kind == DecoratedDefinition { ChildrenAgreeWithNested(file, Decorated(cls), c, 0); }
  }

  lemma {:induction false} ClassAgreesWithNested(file: string, n: Node)
    requires !Class(file, n).stop.Panic?
    ensures NestedVisitor.Class(file, n, None) == Class(file, n)
    decreases n, |n.children| + 1
  {
    if |n.children| >= 2 && n.children[1].kind == Identifier
       && StartsWith(n.children[1].text, "Test") {
      ChildrenAgreeWithNested(file, ClassDef(n.children[1].text), n, 2);
    }
  }

  /** A class nested in a qualifying class's block is fatal here, while
      `src/main.rs` walks it. */
  lemma NestedClassIsFatal(file: string, path: string, c: Node)
    requires c.kind == ClassDefinition
    ensures Dispatch(file, ClassBlock(Some(path)), c) == Walk([], Panic(ClassDefinition))
    ensures NestedVisitor.Dispatch(file, ClassBlock(Some(path)), c)
            == NestedVisitor.Class(file, c, Some(path))
  {
  }

  /** The nested example of `src/main.rs` is fatal here, before anything
      is sent. */
  lemma NestedExampleIsFatal(file: string, outer: string, inner: string, fn: string)
    requires StartsWith(outer, "Test")
    ensures Extract(file, NestedVisitor.NestedModule(outer, inner, fn)) == Walk([], Panic(ClassDefinition))
  {
    var root := NestedVisitor.NestedModule(outer, inner, fn);
    var cls := root.children[0];
    assert Children(file, ClassBlock(Some(outer)), cls.children[3], 0) == Walk([], Panic(ClassDefinition));
    assert Children(file, ClassDef(outer), cls, 3) == Walk([], Panic(ClassDefinition));
    assert Children(file, ClassDef(outer), cls, 2) == Walk([], Panic(ClassDefinition));
    assert Class(file, cls) == Walk([], Panic(ClassDefinition));
    assert Dispatch(file, Module, cls) == Walk([], Panic(ClassDefinition));
    assert Children(file, Module, root, 0) == Walk([], Panic(ClassDefinition));
  }

  lemma ChildrenStep(file: string, role: Role, n: Node, i: nat, done: seq<TestCase>)
    requires i < |n.children|
    ensures var h := Dispatch(file, role, n.children[i]);
            Prepend(done, Children(file, role, n, i))
            == if h.stop.Continue? then Prepend(done + h.records, Children(file, role, n, i + 1))
               else Walk(done + h.records, h.stop)
  {
    PrependTwice(done, Dispatch(file, role, n.children[i]).records, Children(file, role, n, i + 1));
  }

  /** The imperative walk; `sent` is what went into the channel, in order. */
  class Visitor {
    const filename: string
    var sent: seq<TestCase>

    constructor (filename: string)
      ensures this.filename == filename && sent == []
    {
      this.filename := filename;
      sent := [];
    }

    method Visit(root: Node) returns (stop: Stop)
      modifies this
      ensures sent == old(sent) + Extract(filename, root).records
      ensures stop == Extract(filename, root).stop
    {
      var i := 0;
      while i < |root.children|
        invariant 0 <= i <= |root.children|
        invariant Prepend(old(sent), Extract(filename, root)) == Prepend(sent, Children(filename, Module, root, i))
      {
        ChildrenStep(filename, Module, root, i, sent);
        var s := HandleChild(Module, root.children[i]);
        if !s.Continue? {
          return s;
        }
        i := i + 1;
      }
      return Continue;
    }

    /** The `match child.kind()` of the handler running in `role`. */
    method HandleChild(role: Role, child: Node) returns (stop: Stop)
      modifies this
      ensures sent == old(sent) + Dispatch(filename, role, child).records
      ensures stop == Dispatch(filename, role, child).stop
      decreases child, 3
    {
      match role
      case Module =>
        if child.kind == DecoratedDefinition {
          stop := HandleDecoratedDefinition(child, None);
        } else if child.kind == ClassDefinition {
          stop := HandleClassDefinition(child);
        } else if child.kind == FunctionDefinition {
          stop := HandleFunctionDefinition(child, None);
        } else if SkippedAtTop(child.kind) {
          stop := Continue;
        } else {
          stop := Panic(child.kind);
        }
      case Decorated(cls) =>
        if child.kind == FunctionDefinition {
          stop := HandleFunctionDefinition(child, cls);
        } else if child.kind == ClassDefinition {
          stop := HandleClassDefinition(child);
        } else if child.kind == Decorator || child.kind == Comment {
          stop := Continue;
        } else {
          stop := Panic(child.kind);
        }
      case ClassDef(path) =>
        if child.kind == Block {
          stop := HandleClassBlock(child, Some(path));
        } else if child.kind == Colon || child.kind == ArgumentList || child.kind == Comment {
          stop := Continue;
        } else {
          stop := Panic(child.kind);
        }
      case ClassBlock(cls) =>
        if child.kind == DecoratedDefinition {
          stop := HandleDecoratedDefinition(child, cls);
        } else if child.kind == FunctionDefinition {
          stop := HandleFunctionDefinition(child, cls);
        } else if child.kind == ExpressionStatement || child.kind == Comment
                  || child.kind == PassStatement {
          stop := Continue;
        } else {
          stop := Panic(child.kind);
        }
    }

    method HandleDecoratedDefinition(n: Node, cls: Option<string>) returns (stop: Stop)
      modifies this
      ensures sent == old(sent) + Children(filename, Decorated(cls), n, 0).records
      ensures stop == Children(filename, Decorated(cls), n, 0).stop
      decreases n, 2
    {
      var i := 0;
      while i < |n.children|
        invariant 0 <= i <= |n.children|
        invariant Prepend(old(sent), Children(filename, Decorated(cls), n, 0)) == Prepend(sent, Children(filename, Decorated(cls), n, i))
      {
        ChildrenStep(filename, Decorated(cls), n, i, sent);
        var s := HandleChild(Decorated(cls), n.children[i]);
        if !s.Continue? {
          return s;
        }
        i := i + 1;
      }
      return Continue;
    }

    method HandleClassDefinition(n: Node) returns (stop: Stop)
      modifies this
      ensures sent == old(sent) + Class(filename, n).records
      ensures stop == Class(filename, n).stop
      decreases n, 2
    {
      if |n.children| < 2 {
        return Bail("no class name found");
      }
      var nameNode := n.children[1];
      if nameNode.kind != Identifier {
        return Bail("invalid class name node type, expected 'identifier', got '"
                    + KindName(nameNode.kind) + "'");
      }
      var className := nameNode.text;
      if !StartsWith(className, "Test") {
        return Continue;
      }
      var i := 2;
      while i < |n.children|
        invariant 2 <= i <= |n.children|
        invariant Prepend(old(sent), Class(filename, n)) == Prepend(sent, Children(filename, ClassDef(className), n, i))
      {
        ChildrenStep(filename, ClassDef(className), n, i, sent);
        var s := HandleChild(ClassDef(className), n.children[i]);
        if !s.Continue? {
          return s;
        }
        i := i + 1;
      }
      return Continue;
    }

    method HandleClassBlock(n: Node, cls: Option<string>) returns (stop: Stop)
      modifies this
      ensures sent == old(sent) + Children(filename, ClassBlock(cls), n, 0).records
      ensures stop == Children(filename, ClassBlock(cls), n, 0).stop
      decreases n, 2
    {
      var i := 0;
      while i < |n.children|
        invariant 0 <= i <= |n.children|
        invariant Prepend(old(sent), Children(filename, ClassBlock(cls), n, 0)) == Prepend(sent, Children(filename, ClassBlock(cls), n, i))
      {
        ChildrenStep(filename, ClassBlock(cls), n, i, sent);
        var s := HandleChild(ClassBlock(cls), n.children[i]);
        if !s.Continue? {
          return s;
        }
        i := i + 1;
      }
      return Continue;
    }

    method HandleFunctionDefinition(n: Node, cls: Option<string>) returns (stop: Stop)
      modifies this
      ensures sent == old(sent) + Function(filename, n, cls).records
      ensures stop == Function(filename, n, cls).stop
      decreases n, 1
    {
      if |n.children| < 2 {
        return Bail("no identifier node found");
      }
      var identifier := n.children[1].text;
      if !StartsWith(identifier, "test_") {
        return Continue;
      }
      Emit(identifier, cls);
      return Continue;
    }

    method Emit(testName: string, cls: Option<string>)
      modifies this
      ensures sent == old(sent) + [TestCase(testName, filename, cls)]
    {
      sent := sent + [TestCase(testName, filename, cls)];
    }
  }

  /** `parse_file`: a file the parser rejects is an error for that file
      alone; otherwise the visitor's walk decides what is sent. */
  method ParseFile(path: string, tree: Option<Node>) returns (sent: seq<TestCase>, stop: Stop)
    ensures tree.None? ==> sent == [] && stop == Bail("parsing file")
    ensures tree.Some? ==> sent == Extract(path, tree.value).records
    ensures tree.Some? ==> stop == Extract(path, tree.value).stop
    ensures AllTests(path, sent) && AllInTestClasses(sent)
    ensures tree.Some? ==> AllDeclared(tree.value, sent)
  {
    if tree.None? {
      return [], Bail("parsing file");
    }
    var visitor := new Visitor(path);
    stop := visitor.Visit(tree.value);
    sent := visitor.sent;
    ChildrenEmitsTests(path, Module, tree.value, 0);
  }
}
