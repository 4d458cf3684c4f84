/** The parsed Python file as the visitors see it, the test-case record they
    emit, and the two display forms of that record (Rust's `Display` and
    Python's `TestCase.for_pytest`). */
module Syntax {
  import opened Common

  /** The node kinds of the Python grammar that some visitor names;
      `Other` stands for every kind none of them has a case for. */
  datatype Kind =
    | DecoratedDefinition | ClassDefinition | FunctionDefinition
    | ImportStatement | ImportFromStatement | ExpressionStatement | Comment
    | IfStatement | TryStatement | AssertStatement | PassStatement
    | Decorator | Block | Colon | ArgumentList | Identifier
    | Other(name: string)

  /** The kind's name as the grammar spells it (`node.kind()` / `node.type`). */
  function KindName(k: Kind): string {
    match k
    case DecoratedDefinition => "decorated_definition"
    case ClassDefinition => "class_definition"
    case FunctionDefinition => "function_definition"
    case ImportStatement => "import_statement"
    case ImportFromStatement => "import_from_statement"
    case ExpressionStatement => "expression_statement"
    case Comment => "comment"
    case IfStatement => "if_statement"
    case TryStatement => "try_statement"
    case AssertStatement => "assert_statement"
    case PassStatement => "pass_statement"
    case Decorator => "decorator"
    case Block => "block"
    case Colon => ":"
    case ArgumentList => "argument_list"
    case Identifier => "identifier"
    case Other(name) => name
  }

  /** A tree-sitter node: its kind, its source text and its children in
      source order. `children[1]` is what `node.child(1)` returns: the
      name of a class or function definition. */
  datatype Node = Node(kind: Kind, text: string, children: seq<Node>)

  /** One discovered test: the test file, the enclosing class path
      (`None` at module level) and the function name. */
  datatype TestCase = TestCase(name: string, file: string, className: Option<string>)

  /** How a walk ended. `Bail` is an `eyre::bail!` error (the caller logs it
      and skips the file), `Panic` a `todo!` on an unhandled node kind (fatal
      for the run), `Raise` a Python exception escaping the visitor. */
  datatype Stop = Continue | Bail(message: string) | Panic(kind: Kind) | Raise(exception: string)

  /** The records a walk emitted, in emission order, and how it ended. A
      walk that stops early keeps what it emitted before stopping. */
  datatype Walk = Walk(records: seq<TestCase>, stop: Stop)

  /** Which handler is looping over a node's children, with the class
      context it carries. */
  datatype Role =
    | Module                            // `visit`, over the root's children
    | Decorated(cls: Option<string>)    // `handle_decorated_definition`
    | ClassDef(path: string)            // `handle_class_definition`, after the name
    | ClassBlock(cls: Option<string>)   // `handle_class_block`

  /** Nothing emitted, keep going. */
  const Quiet := Walk([], Continue)

  function Prepend(done: seq<TestCase>, w: Walk): Walk {
    Walk(done + w.records, w.stop)
  }

  /** The node kinds every visitor skips at module level. */
  predicate SkippedAtTop(kind: Kind) {
    || kind.ImportStatement? || kind.ImportFromStatement? || kind.ExpressionStatement?
    || kind.Comment? || kind.IfStatement? || kind.TryStatement? || kind.AssertStatement?
  }

  /** Every record carries the file `file` and a name starting with `test_`. */
  ghost predicate AllTests(file: string, records: seq<TestCase>) {
    forall k :: 0 <= k < |records| ==>
      records[k].file == file && StartsWith(records[k].name, "test_")
  }

  /** Every record's class path is absent or starts with the `Test` marker. */
  ghost predicate AllInTestClasses(records: seq<TestCase>) {
    forall k :: 0 <= k < |records| ==>
      records[k].className.None? || StartsWith(records[k].className.value, "Test")
  }

  /** Some `function_definition` node in the subtree of `n` (`n` itself
      included) has `name` as the text of its `child(1)`. */
  ghost predicate Declares(n: Node, name: string)
    decreases n
  {
    || (n.kind == FunctionDefinition && |n.children| >= 2 && n.children[1].text == name)
    || exists k :: 0 <= k < |n.children| && Declares(n.children[k], name)
  }

  /** Every record names a function defined in the subtree of `n`. */
  ghost predicate AllDeclared(n: Node, records: seq<TestCase>) {
    forall k :: 0 <= k < |records| ==> Declares(n, records[k].name)
  }

  /** The class context a handler may carry: absent, or a `Test` name or
      path. */
  predicate RoleOk(role: Role) {
    match role
    case Module => true
    case Decorated(cls) => cls.None? || StartsWith(cls.value, "Test")
    case ClassDef(path) => StartsWith(path, "Test")
    case ClassBlock(cls) => cls.None? || StartsWith(cls.value, "Test")
  }

  lemma ConcatTests(file: string, a: seq<TestCase>, b: seq<TestCase>)
    requires AllTests(file, a) && AllTests(file, b)
    ensures AllTests(file, a + b)
  {
    forall k | 0 <= k < |a + b|
      ensures (a + b)[k].file == file && StartsWith((a + b)[k].name, "test_")
    {
      if k >= |a| { assert (a + b)[k] == b[k - |a|]; }
    }
  }

  lemma ConcatInTestClasses(a: seq<TestCase>, b: seq<TestCase>)
    requires AllInTestClasses(a) && AllInTestClasses(b)
    ensures AllInTestClasses(a + b)
  {
    forall k | 0 <= k < |a + b|
      ensures (a + b)[k].className.None? || StartsWith((a + b)[k].className.value, "Test")
    {
      if k >= |a| { assert (a + b)[k] == b[k - |a|]; }
    }
  }

  lemma ConcatDeclared(n: Node, a: seq<TestCase>, b: seq<TestCase>)
    requires AllDeclared(n, a) && AllDeclared(n, b)
    ensures AllDeclared(n, a + b)
  {
    forall k | 0 <= k < |a + b| ensures Declares(n, (a + b)[k].name) {
      if k >= |a| { assert (a + b)[k] == b[k - |a|]; }
    }
  }

  /** What is declared in a child is declared in its parent. */
  lemma DeclaredInParent(n: Node, i: nat, records: seq<TestCase>)
    requires i < |n.children| && AllDeclared(n.children[i], records)
    ensures AllDeclared(n, records)
  {
    forall k | 0 <= k < |records| ensures Declares(n, records[k].name) {
      assert Declares(n.children[i], records[k].name);
    }
  }

  lemma PrependTwice(done: seq<TestCase>, records: seq<TestCase>, w: Walk)
    ensures Prepend(done, Prepend(records, w)) == Prepend(done + records, w)
  {
    assert done + (records + w.records) == (done + records) + w.records;
  }

  /** The display form used by both Rust snapshots:
      `file::class::name` with a class path, `file::name` without. */
  function Display(tc: TestCase): string {
    match tc.className
    case Some(c) => tc.file + "::" + c + "::" + tc.name
    case None => tc.file + "::" + tc.name
  }

  /** `TestCase.for_pytest` of both Python scripts: a class name that is
      `None` or empty (falsy) is left out. */
  function ForPytest(tc: TestCase): string {
    if tc.className.Some? && tc.className.value != "" then
      Join([tc.file, tc.className.value, tc.name], "::")
    else
      Join([tc.file, tc.name], "::")
  }

  /** The text after the last `::` of an identifier (all of it if there is
      none): how a pytest node id names its function. */
  function LastSegment(s: string): string
    decreases |s|
  {
    if |s| < 2 then s
    else if s[|s| - 2..] == "::" then ""
    else LastSegment(s[..|s| - 1]) + [s[|s| - 1]]
  }

  lemma {:induction false} LastSegmentAfterSeparator(prefix: string, name: string)
    requires ':' !in name
    ensures LastSegment(prefix + "::" + name) == name
    decreases |name|
  {
    var s := prefix + "::" + name;
    if name == [] {
      assert s[|s| - 2..] == "::";
    } else {
      var init := name[..|name| - 1];
      assert s[..|s| - 1] == prefix + "::" + init;
      assert s[|s| - 1] == name[|name| - 1];
      assert s[|s| - 2..] != "::" by {
        assert s[|s| - 2..][1] == name[|name| - 1];
      }
      LastSegmentAfterSeparator(prefix, init);
      assert init + [name[|name| - 1]] == name;
    }
  }

  /** The Rust identifier starts with the file and a separator and, when the
      function name holds no `:`, its last segment gives the name back. */
  lemma DisplayRecoversName(tc: TestCase)
    ensures StartsWith(Display(tc), tc.file + "::")
    ensures ':' !in tc.name ==> LastSegment(Display(tc)) == tc.name
  {
    var pre := if tc.className.Some? then tc.file + "::" + tc.className.value else tc.file;
    assert Display(tc) == pre + "::" + tc.name;
    if tc.className.Some? {
      assert Display(tc) == (tc.file + "::") + (tc.className.value + "::" + tc.name);
    }
    StartsWithPrefixOf(tc.file + "::", Display(tc)[|tc.file| + 2..]);
    assert (tc.file + "::") + Display(tc)[|tc.file| + 2..] == Display(tc);
    if ':' !in tc.name {
      LastSegmentAfterSeparator(pre, tc.name);
    }
  }

  /** The Python and Rust display forms agree except on an empty class
      name, which Python's truthiness test drops and Rust keeps as an empty
      segment. */
  lemma ForPytestMatchesDisplay(tc: TestCase)
    ensures tc.className != Some("") ==> ForPytest(tc) == Display(tc)
    ensures tc.className == Some("") ==> ForPytest(tc) != Display(tc)
  {
    JoinSmall(tc.file, tc.name, "");
    if tc.className.Some? {
      JoinSmall(tc.file, tc.name, tc.className.value);
    }
    if tc.className == Some("") {
      assert |Display(tc)| == |tc.file| + |tc.name| + 4;
      assert |ForPytest(tc)| == |tc.file| + |tc.name| + 2;
    }
  }

  lemma JoinSmall(a: string, b: string, c: string)
    ensures Join([a, b], "::") == a + "::" + b
    ensures Join([a, c, b], "::") == a + "::" + c + "::" + b
  {
    assert [a, b][1..] == [b];
    assert [a, c, b][1..] == [c, b];
  }

  /** The pytest identifier ends in the function name as well. */
  lemma ForPytestRecoversName(tc: TestCase)
    requires ':' !in tc.name
    ensures LastSegment(ForPytest(tc)) == tc.name
  {
    ForPytestMatchesDisplay(tc);
    if tc.className == Some("") {
      JoinSmall(tc.file, tc.name, "");
      LastSegmentAfterSeparator(tc.file, tc.name);
    } else {
      DisplayRecoversName(tc);
    }
  }
}
