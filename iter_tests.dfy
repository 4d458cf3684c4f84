/** `iter_tests` of `testsearch.py`: validate the pool type, then run the
    extractor over every file and yield one pytest identifier per test.

    The generator is modelled by what it has yielded when it stops: the
    lines, and the exception that escaped it, if any. A file is given with
    the tree the parser produced for it. Of the three methods only `serial`
    is modelled; `map` and `apply` hand the files to a thread or process
    pool. */
module IterTests {
  import opened Common
  import opened Syntax
  import LenientVisitor

  /** A test file: its path and its parse tree. */
  datatype SourceFile = SourceFile(path: string, tree: Node)

  /** The lines yielded and the class name of the exception that ended the
      generator (`None` when it ran to the end). */
  datatype Outcome = Outcome(lines: seq<string>, raised: Option<string>)

  const NotImplementedError := LenientVisitor.NotImplementedError

  /** `extract_tests(file)`. */
  function Batch(f: SourceFile): Result<seq<TestCase>> {
    LenientVisitor.Extract(f.path, f.tree)
  }

  function Batches(files: seq<SourceFile>): seq<Result<seq<TestCase>>> {
    seq(|files|, k requires 0 <= k < |files| => Batch(files[k]))
  }

  /** The pytest identifiers of one batch, in order. */
  function Lines(tests: seq<TestCase>): seq<string> {
    seq(|tests|, k requires 0 <= k < |tests| => ForPytest(tests[k]))
  }

  function After(done: seq<string>, o: Outcome): Outcome {
    Outcome(done + o.lines, o.raised)
  }

  /** Yield every test of each batch in turn; a failed batch raises its
      exception when it is reached. */
  function Drain(batches: seq<Result<seq<TestCase>>>): Outcome {
    if batches == [] then Outcome([], None)
    else match batches[0]
      case Err(e) => Outcome([], Some(e))
      case Ok(tests) => After(Lines(tests), Drain(batches[1..]))
  }

  /** What the generator yields for these files, in this order. */
  function Yielded(files: seq<SourceFile>): Outcome {
    Drain(Batches(files))
  }

  predicate ValidPool(pool: string) {
    pool == "threads" || pool == "processes"
  }

  predicate Pooled(methodName: string) {
    methodName == "map" || methodName == "apply"
  }

  /** `iter_tests(files, method, pool_type)`: an unknown pool type raises
      before anything else, an unknown method after the pool check. `None`
      stands for the pooled methods, which this model does not follow. */
  function IterTestsSpec(files: seq<SourceFile>, methodName: string, pool: string): Option<Outcome> {
    if !ValidPool(pool) then Some(Outcome([], Some(NotImplementedError)))
    else if methodName == "serial" then Some(Yielded(files))
    else if Pooled(methodName) then None
    else Some(Outcome([], Some(NotImplementedError)))
  }

  lemma DrainStep(batches: seq<Result<seq<TestCase>>>, i: nat)
    requires i < |batches|
    ensures Drain(batches[i..]) ==
              match batches[i]
              case Err(e) => Outcome([], Some(e))
              case Ok(tests) => After(Lines(tests), Drain(batches[i + 1..]))
  {
    assert batches[i..][1..] == batches[i + 1..];
  }

  /** The `serial` method: one file at a time, its tests yielded before the
      next file is read. */
  method YieldSerial(files: seq<SourceFile>) returns (out: Outcome)
    ensures out == Yielded(files)
  {
    var lines: seq<string> := [];
    var i := 0;
    while i < |files|
      invariant i <= |files|
      invariant Yielded(files) == After(lines, Drain(Batches(files)[i..]))
    {
      DrainStep(Batches(files), i);
      var r := LenientVisitor.ExtractTests(files[i].path, files[i].tree);
      if r.Err? {
        return Outcome(lines, Some(r.error));
      }
      lines := YieldBatch(lines, r.value);
      i := i + 1;
    }
    assert Batches(files)[i..] == [];
    return Outcome(lines, None);
  }

  /** `for test in batch: yield test.for_pytest()`. */
  method YieldBatch(lines: seq<string>, tests: seq<TestCase>) returns (out: seq<string>)
    ensures out == lines + Lines(tests)
  {
    out := lines;
    var j := 0;
    while j < |tests|
      invariant j <= |tests|
      invariant out == lines + Lines(tests)[..j]
    {
      assert Lines(tests)[..j + 1] == Lines(tests)[..j] + [ForPytest(tests[j])];
      out := out + [ForPytest(tests[j])];
      j := j + 1;
    }
    assert Lines(tests)[..j] == Lines(tests);
  }

  /** `iter_tests`: `None` when a pooled method takes over. */
  method IterTests(files: seq<SourceFile>, methodName: string, pool: string) returns (out: Option<Outcome>)
    ensures out == IterTestsSpec(files, methodName, pool)
  {
    if !ValidPool(pool) {
      return Some(Outcome([], Some(NotImplementedError)));
    }
    if methodName == "serial" {
      var o := YieldSerial(files);
      out := Some(o);
    } else if Pooled(methodName) {
      out := None;
    } else {
      out := Some(Outcome([], Some(NotImplementedError)));
    }
  }

  /** The pool type is checked first: an unknown one raises
      `NotImplementedError` before any file is read, even for `serial`,
      which uses no pool. A valid pool with an unknown method raises the
      same exception, again before any file is read. */
  lemma ValidationOrder(files: seq<SourceFile>, methodName: string, pool: string)
    ensures !ValidPool(pool) ==> IterTestsSpec(files, methodName, pool) == Some(Outcome([], Some(NotImplementedError)))
    ensures ValidPool(pool) && methodName != "serial" && !Pooled(methodName) ==>
              IterTestsSpec(files, methodName, pool) == Some(Outcome([], Some(NotImplementedError)))
    ensures ValidPool(pool) && methodName == "serial" ==> IterTestsSpec(files, methodName, pool) == Some(Yielded(files))
  {
  }

  lemma BatchesAppend(a: seq<SourceFile>, b: seq<SourceFile>)
    ensures Batches(a + b) == Batches(a) + Batches(b)
  {
  }

  /** Draining two runs of batches is draining the first, then (if it did
      not raise) the second. */
  lemma {:induction false} DrainAppend(a: seq<Result<seq<TestCase>>>, b: seq<Result<seq<TestCase>>>)
    ensures Drain(a + b) ==
              if Drain(a).raised.Some? then Drain(a) else After(Drain(a).lines, Drain(b))
    decreases |a|
  {
    if a != [] {
      assert (a + b)[0] == a[0];
      assert (a + b)[1..] == a[1..] + b;
      DrainAppend(a[1..], b);
      if a[0].Ok? {
        assert Lines(a[0].value) + Drain(a[1..]).lines + Drain(b).lines
               == Lines(a[0].value) + (Drain(a[1..]).lines + Drain(b).lines);
      }
    } else {
      assert a + b == b;
    }
  }

  /** Files yield their tests in order, and the run stops at the first file
      whose extraction raises. */
  lemma YieldedAppend(a: seq<SourceFile>, b: seq<SourceFile>)
    ensures Yielded(a + b) ==
              if Yielded(a).raised.Some? then Yielded(a) else After(Yielded(a).lines, Yielded(b))
  {
    BatchesAppend(a, b);
    DrainAppend(Batches(a), Batches(b));
  }

  /** The first file's batch comes first. */
  lemma YieldedCons(files: seq<SourceFile>)
    requires files != []
    ensures Yielded(files) ==
              match Batch(files[0])
              case Err(e) => Outcome([], Some(e))
              case Ok(tests) => After(Lines(tests), Yielded(files[1..]))
  {
    assert Batches(files)[1..] == Batches(files[1..]);
  }

  /** The generator raises exactly when some file's extraction raises, and
      only the two exceptions the visitor can raise. */
  lemma {:induction false} RaisesIffSomeFileRaises(files: seq<SourceFile>)
    ensures Yielded(files).raised.Some? <==> exists k :: 0 <= k < |files| && Batch(files[k]).Err?
    ensures Yielded(files).raised.Some? ==>
              Yielded(files).raised.value in {LenientVisitor.AssertionError, NotImplementedError}
    decreases |files|
  {
    if files != [] {
      YieldedCons(files);
      RaisesIffSomeFileRaises(files[1..]);
      if Batch(files[0]).Ok? {
        if exists k :: 0 <= k < |files| && Batch(files[k]).Err? {
          var k :| 0 <= k < |files| && Batch(files[k]).Err?;
          assert Batch(files[1..][k - 1]).Err?;
        }
        if exists k :: 0 <= k < |files[1..]| && Batch(files[1..][k]).Err? {
          var k :| 0 <= k < |files[1..]| && Batch(files[1..][k]).Err?;
          assert Batch(files[k + 1]).Err?;
        }
      }
    }
  }

  /** `tc` is a `test_` function defined in one of the files. */
  ghost predicate TestOf(files: seq<SourceFile>, tc: TestCase) {
    StartsWith(tc.name, "test_")
    && exists f :: f in files && f.path == tc.file && Declares(f.tree, tc.name)
  }

  /** `line` is the pytest identifier of such a function. */
  ghost predicate TestLine(files: seq<SourceFile>, line: string) {
    exists tc :: TestOf(files, tc) && line == ForPytest(tc)
  }

  /** Every yielded line is the pytest identifier of a `test_` function of
      one of the files. */
  lemma {:induction false} YieldedLinesAreTests(files: seq<SourceFile>)
    ensures forall k :: 0 <= k < |Yielded(files).lines| ==> TestLine(files, Yielded(files).lines[k])
    decreases |files|
  {
    if files != [] {
      YieldedCons(files);
      YieldedLinesAreTests(files[1..]);
      var f := files[0];
      if Batch(f).Ok? {
        var tests := Batch(f).value;
        LenientVisitor.ChildrenEmitsTests(f.path, Module, f.tree, 0);
        assert tests == LenientVisitor.Children(f.path, Module, f.tree, 0).records;
        var rest := Yielded(files[1..]).lines;
        var all := Yielded(files).lines;
        assert all == Lines(tests) + rest;
        forall k | 0 <= k < |all|
          ensures TestLine(files, all[k])
        {
          if k < |tests| {
            assert f in files;
            assert TestOf(files, tests[k]);
            assert all[k] == ForPytest(tests[k]);
          } else {
            var j := k - |tests|;
            assert all[k] == rest[j];
            assert TestLine(files[1..], rest[j]);
            var tc :| TestOf(files[1..], tc) && rest[j] == ForPytest(tc);
            var g :| g in files[1..] && g.path == tc.file && Declares(g.tree, tc.name);
            assert g in files;
            assert TestOf(files, tc);
          }
        }
      } else {
        assert Yielded(files).lines == [];
      }
    } else {
      assert Batches(files) == [];
      assert Yielded(files).lines == [];
    }
  }
}
