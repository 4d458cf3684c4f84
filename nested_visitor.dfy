/** The test extractor of `src/main.rs`: a tree-sitter walk that sends one
    record per `test_` function, where classes nested in the block of a
    qualifying `Test` class get the path `Outer::Inner`.

    The functions below specify the walk: `Children` is one handler's loop
    over a node's children (from index `i` on), `Dispatch` that handler's
    `match child.kind()`. The class `Visitor` is the imperative walk, proved
    to send exactly what they specify. The other three extractor modules
    repeat this shape on purpose, one copy per snapshot. */
module NestedVisitor {
  import opened Common
  import opened Syntax

  /** `handle_function_definition`: the name is `child(1)`; the function
      body is never looked at. */
  function Function(file: string, n: Node, cls: Option<string>): (r: Walk)
    ensures |r.records| <= 1
    ensures r.stop == if |n.children| < 2 then Bail("no identifier node found") else Continue
    ensures |r.records| == 1 <==>
              |n.children| >= 2 && StartsWith(n.children[1].text, "test_")
    ensures |r.records| == 1 ==> r.records[0] == TestCase(n.children[1].text, file, cls)
  {
    if |n.children| < 2 then Walk([], Bail("no identifier node found"))
    else if StartsWith(n.children[1].text, "test_") then
      Walk([TestCase(n.children[1].text, file, cls)], Continue)
    else Quiet
  }

  /** The path a qualifying class gets: its parent's path and its own name
      joined by `::` when the parent qualifies, else its own name. */
  function ClassPath(parent: Option<string>, name: string): (p: string)
    ensures StartsWith(name, "Test") ==> StartsWith(p, "Test")
    ensures parent.None? ==> p == name
  {
    if parent.Some? && StartsWith(parent.value, "Test") then
      StartsWithAppend(parent.value, "Test", "::" + name);
      parent.value + "::" + name
    else name
  }

  /** `handle_class_definition`. */
  function Class(file: string, n: Node, parent: Option<string>): Walk
    decreases n, |n.children| + 1
  {
    if |n.children| < 2 then Walk([], Bail("no class name found"))
    else if n.children[1].kind != Identifier then
      Walk([], Bail("invalid class name node type, expected 'identifier', got '"
                    + KindName(n.children[1].kind) + "'"))
    else if !StartsWith(n.children[1].text, "Test") then Quiet
    else Children(file, ClassDef(ClassPath(parent, n.children[1].text)), n, 2)
  }

  /** What the handler running in `role` does with one child `c`. */
  function Dispatch(file: string, role: Role, c: Node): Walk
    decreases c, |c.children| + 2
  {
    match role
    case Module =>
      if c.kind == DecoratedDefinition then Children(file, Decorated(None), c, 0)
      else if c.kind == ClassDefinition then Class(file, c, None)
      else if c.kind == FunctionDefinition then Function(file, c, None)
      else if SkippedAtTop(c.kind) then Quiet
      else Walk([], Panic(c.kind))
    case Decorated(cls) =>
      if c.kind == FunctionDefinition then Function(file, c, cls)
      else if c.kind == ClassDefinition then Class(file, c, None)
      else if c.kind in {Decorator, Comment} then Quiet
      else Walk([], Panic(c.kind))
    case ClassDef(path) =>
      if c.kind == Block then Children(file, ClassBlock(Some(path)), c, 0)
      else if c.kind in {Colon, ArgumentList, Comment} then Quiet
      else Walk([], Panic(c.kind))
    case ClassBlock(cls) =>
      if c.kind == DecoratedDefinition then Children(file, Decorated(cls), c, 0)
      else if c.kind == FunctionDefinition then Function(file, c, cls)
      else if c.kind in {ExpressionStatement, Comment, PassStatement} then Quiet
      else if c.kind == ClassDefinition then Class(file, c, cls)
      else Walk([], Panic(c.kind))
  }

  /** The handler loop for `role` over `n.children[i..]`: it stops at the
      first child whose handling does not continue. */
  function Children(file: string, role: Role, n: Node, i: nat): Walk
    decreases n, |n.children| - i
  {
    if i >= |n.children| then Quiet
    else
      var h := Dispatch(file, role, n.children[i]);
      if h.stop.Continue? then Prepend(h.records, Children(file, role, n, i + 1)) else h
  }

  /** `Visitor::visit` on an already parsed file. */
  function Extract(file: string, root: Node): Walk {
    Children(file, Module, root, 0)
  }

  /** Every record sent carries this file and the name of a `test_`
      function defined in the walked subtree, and every class path it
      carries starts with `Test`. */
  lemma {:induction false} ChildrenEmitsTests(file: string, role: Role, n: Node, i: nat)
    requires RoleOk(role)
    ensures AllTests(file, Children(file, role, n, i).records)
    ensures AllInTestClasses(Children(file, role, n, i).records)
    ensures AllDeclared(n, Children(file, role, n, i).records)
    decreases n, |n.children| - i
  {
    if i < |n.children| {
      DispatchEmitsTests(file, role, n.children[i]);
      var h := Dispatch(file, role, n.children[i]);
      if h.stop.Continue? {
        ChildrenEmitsTests(file, role, n, i + 1);
        var rest := Children(file, role, n, i + 1).records;
        ConcatTests(file, h.records, rest);
        ConcatInTestClasses(h.records, rest);
        DeclaredInParent(n, i, h.records);
        ConcatDeclared(n, h.records, rest);
      } else {
        DeclaredInParent(n, i, h.records);
      }
    }
  }

  lemma {:induction false} DispatchEmitsTests(file: string, role: Role, c: Node)
    requires RoleOk(role)
    ensures AllTests(file, Dispatch(file, role, c).records)
    ensures AllInTestClasses(Dispatch(file, role, c).records)
    ensures AllDeclared(c, Dispatch(file, role, c).records)
    decreases c, |c.children| + 2
  {
    match role
    case Module =>
      if c.kind == DecoratedDefinition { ChildrenEmitsTests(file, Decorated(None), c, 0); }
      else if c.kind == ClassDefinition { ClassEmitsTests(file, c, None); }
    case Decorated(cls) =>
      if c.kind == ClassDefinition { ClassEmitsTests(file, c, None); }
    case ClassDef(path) =>
      if c.kind == Block { ChildrenEmitsTests(file, ClassBlock(Some(path)), c, 0); }
    case ClassBlock(cls) =>
      if c.kind == DecoratedDefinition { ChildrenEmitsTests(file, Decorated(cls), c, 0); }
      else if c.kind == FunctionDefinition { }
      else if c.kind == ClassDefinition { ClassEmitsTests(file, c, cls); }
  }

  lemma {:induction false} ClassEmitsTests(file: string, n: Node, parent: Option<string>)
    ensures AllTests(file, Class(file, n, parent).records)
    ensures AllInTestClasses(Class(file, n, parent).records)
    ensures AllDeclared(n, Class(file, n, parent).records)
    decreases n, |n.children| + 1
  {
    if |n.children| >= 2 && n.children[1].kind == Identifier
       && StartsWith(n.children[1].text, "Test") {
      ChildrenEmitsTests(file, ClassDef(ClassPath(parent, n.children[1].text)), n, 2);
    }
  }

  /** A class nested directly in the block of a qualifying class continues
      its parent's path, so paths grow one `::Name` per level of nesting. */
  lemma NestedClassExtendsPath(file: string, parentPath: string, c: Node)
    requires StartsWith(parentPath, "Test")
    requires c.kind == ClassDefinition && |c.children| >= 2
    requires c.children[1].kind == Identifier && StartsWith(c.children[1].text, "Test")
    ensures Dispatch(file, ClassBlock(Some(parentPath)), c)
            == Children(file, ClassDef(parentPath + "::" + c.children[1].text), c, 2)
  {
  }

  /** A class not named `Test...` yields nothing, its `test_` methods
      included, and does not stop the walk. */
  lemma NonTestClassIsQuiet(file: string, n: Node, parent: Option<string>)
    requires |n.children| >= 2 && n.children[1].kind == Identifier
    requires !StartsWith(n.children[1].text, "Test")
    ensures Class(file, n, parent) == Quiet
  {
  }

  /** A decorated class starts a fresh path, whatever class it sits in. */
  lemma DecoratedClassRestartsPath(file: string, cls: Option<string>, c: Node)
    requires c.kind == ClassDefinition
    ensures Dispatch(file, Decorated(cls), c) == Class(file, c, None)
  {
  }

  /** `class <name>: def <fn>(self): ...` (source texts other than names
      left empty). */
  function ClassWithMethod(name: string, fn: string): Node {
    var def := Node(FunctionDefinition, "", [Node(Other("def"), "", []), Node(Identifier, fn, [])]);
    Node(ClassDefinition, "", [Node(Other("class"), "", []), Node(Identifier, name, []),
                               Node(Colon, "", []), Node(Block, "", [def])])
  }

  /** A module holding `class <outer>:` whose block holds
      `ClassWithMethod(inner, fn)`. */
  function NestedModule(outer: string, inner: string, fn: string): Node {
    Node(Other("module"), "", [Node(ClassDefinition, "", [Node(Other("class"), "", []),
                                    Node(Identifier, outer, []), Node(Colon, "", []),
                                    Node(Block, "", [ClassWithMethod(inner, fn)])])])
  }

  lemma ClassWithMethodWalk(file: string, path: string, name: string, fn: string)
    requires StartsWith(fn, "test_")
    ensures Children(file, ClassDef(path), ClassWithMethod(name, fn), 2)
            == Walk([TestCase(fn, file, Some(path))], Continue)
  {
    ClassBody(file, path, ClassWithMethod(name, fn));
  }

  /** A test method of a `Test` class nested in a `Test` class is reported
      once, under the path `Outer::Inner`. */
  lemma NestedExample(file: string, outer: string, inner: string, fn: string)
    requires StartsWith(outer, "Test") && StartsWith(inner, "Test") && StartsWith(fn, "test_")
    ensures Extract(file, NestedModule(outer, inner, fn))
            == Walk([TestCase(fn, file, Some(outer + "::" + inner))], Continue)
  {
    var root := NestedModule(outer, inner, fn);
    var tc := TestCase(fn, file, Some(outer + "::" + inner));
    ClassWithMethodWalk(file, outer + "::" + inner, inner, fn);
    assert Dispatch(file, ClassBlock(Some(outer)), ClassWithMethod(inner, fn)) == Walk([tc], Continue);
    assert Children(file, ClassBlock(Some(outer)), root.children[0].children[3], 0) == Walk([tc], Continue);
    ClassBody(file, outer, root.children[0]);
    assert Class(file, root.children[0], None) == Walk([tc], Continue);
    assert Dispatch(file, Module, root.children[0]) == Walk([tc], Continue);
    assert Children(file, Module, root, 1) == Quiet;
    assert [tc] + [] == [tc];
    assert Children(file, Module, root, 0) == Walk([tc], Continue);
  }

  /** A class written `class Name: <block>` walks just its block. */
  lemma ClassBody(file: string, path: string, n: Node)
    requires |n.children| == 4 && n.children[2].kind == Colon && n.children[3].kind == Block
    ensures Children(file, ClassDef(path), n, 2) == Children(file, ClassBlock(Some(path)), n.children[3], 0)
  {
    var h := Children(file, ClassBlock(Some(path)), n.children[3], 0);
    assert Dispatch(file, ClassDef(path), n.children[3]) == h;
    assert Children(file, ClassDef(path), n, 4) == Quiet;
    assert h.records + [] == h.records;
    assert Children(file, ClassDef(path), n, 3) == h;
    assert Dispatch(file, ClassDef(path), n.children[2]) == Quiet;
  }

  /** One turn of a handler loop: handle child `i`, then either go on with
      the next child or stop with what that child produced. */
  lemma ChildrenStep(file: string, role: Role, n: Node, i: nat, done: seq<TestCase>)
    requires i < |n.children|
    ensures var h := Dispatch(file, role, n.children[i]);
            Prepend(done, Children(file, role, n, i))
            == if h.stop.Continue? then Prepend(done + h.records, Children(file, role, n, i + 1))
               else Walk(done + h.records, h.stop)
  {
    PrependTwice(done, Dispatch(file, role, n.children[i]).records, Children(file, role, n, i + 1));
  }

  /** The imperative walk. `sent` is what the receiving end of the channel
      has been sent so far, in order. */
  class Visitor {
    const filename: string
    var sent: seq<TestCase>

    constructor (filename: string)
      ensures this.filename == filename && sent == []
    {
      this.filename := filename;
      sent := [];
    }

    method Visit(root: Node) returns (stop: Stop)
      modifies this
      ensures sent == old(sent) + Extract(filename, root).records
      ensures stop == Extract(filename, root).stop
    {
      var i := 0;
      while i < |root.children|
        invariant 0 <= i <= |root.children|
        invariant Prepend(old(sent), Extract(filename, root)) == Prepend(sent, Children(filename, Module, root, i))
      {
        ChildrenStep(filename, Module, root, i, sent);
        var s := HandleChild(Module, root.children[i]);
        if !s.Continue? {
          return s;
        }
        i := i + 1;
      }
      return Continue;
    }

    /** The `match child.kind()` of the handler running in `role`. */
    method HandleChild(role: Role, child: Node) returns (stop: Stop)
      modifies this
      ensures sent == old(sent) + Dispatch(filename, role, child).records
      ensures stop == Dispatch(filename, role, child).stop
      decreases child, 3
    {
      match role
      case Module =>
        if child.kind == DecoratedDefinition {
          stop := HandleDecoratedDefinition(child, None);
        } else if child.kind == ClassDefinition {
          stop := HandleClassDefinition(child, None);
        } else if child.kind == FunctionDefinition {
          stop := HandleFunctionDefinition(child, None);
        } else if SkippedAtTop(child.kind) {
          stop := Continue;
        } else {
          stop := Panic(child.kind);
        }
      case Decorated(cls) =>
        if child.kind == FunctionDefinition {
          stop := HandleFunctionDefinition(child, cls);
        } else if child.kind == ClassDefinition {
          stop := HandleClassDefinition(child, None);
        } else if child.kind == Decorator || child.kind == Comment {
          stop := Continue;
        } else {
          stop := Panic(child.kind);
        }
      case ClassDef(path) =>
        if child.kind == Block {
          stop := HandleClassBlock(child, Some(path));
        } else if child.kind == Colon || child.kind == ArgumentList || child.kind == Comment {
          stop := Continue;
        } else {
          stop := Panic(child.kind);
        }
      case ClassBlock(cls) =>
        if child.kind == DecoratedDefinition {
          stop := HandleDecoratedDefinition(child, cls);
        } else if child.kind == FunctionDefinition {
          stop := HandleFunctionDefinition(child, cls);
        } else if child.kind == ExpressionStatement || child.kind == Comment
                  || child.kind == PassStatement {
          stop := Continue;
        } else if child.kind == ClassDefinition {
          stop := HandleClassDefinition(child, cls);
        } else {
          stop := Panic(child.kind);
        }
    }

    method HandleDecoratedDefinition(n: Node, cls: Option<string>) returns (stop: Stop)
      modifies this
      ensures sent == old(sent) + Children(filename, Decorated(cls), n, 0).records
      ensures stop == Children(filename, Decorated(cls), n, 0).stop
      decreases n, 2
    {
      var i := 0;
      while i < |n.children|
        invariant 0 <= i <= |n.children|
        invariant Prepend(old(sent), Children(filename, Decorated(cls), n, 0)) == Prepend(sent, Children(filename, Decorated(cls), n, i))
      {
        ChildrenStep(filename, Decorated(cls), n, i, sent);
        var s := HandleChild(Decorated(cls), n.children[i]);
        if !s.Continue? {
          return s;
        }
        i := i + 1;
      }
      return Continue;
    }

    method HandleClassDefinition(n: Node, parent: Option<string>) returns (stop: Stop)
      modifies this
      ensures sent == old(sent) + Class(filename, n, parent).records
      ensures stop == Class(filename, n, parent).stop
      decreases n, 2
    {
      if |n.children| < 2 {
        return Bail("no class name found");
      }
      var nameNode := n.children[1];
      if nameNode.kind != Identifier {
        return Bail("invalid class name node type, expected 'identifier', got '"
                    + KindName(nameNode.kind) + "'");
      }
      var className := nameNode.text;
      if !StartsWith(className, "Test") {
        return Continue;
      }
      if parent.Some? && StartsWith(parent.value, "Test") {
        className := parent.value + "::" + className;
      }
      assert className == ClassPath(parent, nameNode.text);
      var i := 2;
      while i < |n.children|
        invariant 2 <= i <= |n.children|
        invariant Prepend(old(sent), Class(filename, n, parent)) == Prepend(sent, Children(filename, ClassDef(className), n, i))
      {
        ChildrenStep(filename, ClassDef(className), n, i, sent);
        var s := HandleChild(ClassDef(className), n.children[i]);
        if !s.Continue? {
          return s;
        }
        i := i + 1;
      }
      return Continue;
    }

    method HandleClassBlock(n: Node, cls: Option<string>) returns (stop: Stop)
      modifies this
      ensures sent == old(sent) + Children(filename, ClassBlock(cls), n, 0).records
      ensures stop == Children(filename, ClassBlock(cls), n, 0).stop
      decreases n, 2
    {
      var i := 0;
      while i < |n.children|
        invariant 0 <= i <= |n.children|
        invariant Prepend(old(sent), Children(filename, ClassBlock(cls), n, 0)) == Prepend(sent, Children(filename, ClassBlock(cls), n, i))
      {
        ChildrenStep(filename, ClassBlock(cls), n, i, sent);
        var s := HandleChild(ClassBlock(cls), n.children[i]);
        if !s.Continue? {
          return s;
        }
        i := i + 1;
      }
      return Continue;
    }

    method HandleFunctionDefinition(n: Node, cls: Option<string>) returns (stop: Stop)
      modifies this
      ensures sent == old(sent) + Function(filename, n, cls).records
      ensures stop == Function(filename, n, cls).stop
      decreases n, 1
    {
      if |n.children| < 2 {
        return Bail("no identifier node found");
      }
      var identifier := n.children[1].text;
      if !StartsWith(identifier, "test_") {
        return Continue;
      }
      Emit(identifier, cls);
      return Continue;
    }

    method Emit(testName: string, cls: Option<string>)
      modifies this
      ensures sent == old(sent) + [TestCase(testName, filename, cls)]
    {
      sent := sent + [TestCase(testName, filename, cls)];
    }
  }

  /** `parse_file`: a file the parser rejects is an error for that file
      alone; otherwise the visitor's walk decides what is sent. */
  method ParseFile(path: string, tree: Option<Node>) returns (sent: seq<TestCase>, stop: Stop)
    ensures tree.None? ==> sent == [] && stop == Bail("parsing file")
    ensures tree.Some? ==> sent == Extract(path, tree.value).records
    ensures tree.Some? ==> stop == Extract(path, tree.value).stop
    ensures AllTests(path, sent) && AllInTestClasses(sent)
    ensures tree.Some? ==> AllDeclared(tree.value, sent)
  {
    if tree.None? {
      return [], Bail("parsing file");
    }
    var visitor := new Visitor(path);
    stop := visitor.Visit(tree.value);
    sent := visitor.sent;
    ChildrenEmitsTests(path, Module, tree.value, 0);
  }
}
