# testsearch, modelled in Dafny

testsearch finds pytest tests in a source tree and lets the user pick one.
It parses each `test_*.py` file with tree-sitter and walks the tree. Every
function whose name starts with `test_` becomes an identifier:
`file::Class::test_name` inside a `Test...` class, `file::test_name` at
module level. The picked test is remembered per directory in a JSON cache,
so it can be run again later.

This project models the two sequential parts of that program and proves
properties of them.

- **The history store** (`history_store.dfy`).
  - `PersistedState`: two optional maps keyed by directory. `test_history`
    maps a directory to a list of tests. The legacy `last_test` maps it to
    one test.
  - Operations: `history`, `clear`, the start-up `migrate_settings` and
    `State::set_last_test`.
  - `src/main.rs` and `testsearch-core/src/lib.rs` hold the same code.
    The table cites `src/main.rs`.
- **The test extractors**, one module per snapshot. They differ in which
  nodes they walk and how they fail.
  - `nested_visitor.dfy` models `src/main.rs`. Nested `Test` classes get
    the path `Outer::Inner`.
  - `core_visitor.dfy` models `testsearch-core/src/lib.rs`. There is no
    nesting, and a class inside a class block hits `todo!`.
  - `lenient_visitor.dfy` models `testsearch.py`. Unknown nodes below the
    top level are skipped.
  - `loose_visitor.dfy` models `main.py`. It has no `Test` filter and walks
    only decorated methods.
  - Each module has two parts. Recursive functions (`Dispatch`, `Class`
    and `Children`, one handler loop from child `i` on) specify the walk.
    An imperative `Visitor` class, with the handler methods and their
    loops, is proved to emit exactly what those functions specify.
  - Records go to a sequence field: the channel's receiving end in Rust,
    `self.tests` in Python.
  - Lemmas relate the variants to each other.
- **Shared definitions** (`syntax.dfy`): the tree, the `TestCase` record,
  its Rust `Display` and its Python `for_pytest`.
- **The file-name test** of the directory walk (`file_filter.dfy`).
- **`iter_tests` of `testsearch.py`** (`iter_tests.dfy`): argument
  validation, and the `serial` method as nested loops.

Outcomes are values, not crashes:

- A Rust `eyre::bail!` is `Bail(message)`.
- A `todo!` is `Panic(kind)`.
- A Python exception is `Raise(class name)`.
- The `panic!` in `history` is an `Err` result.

Inputs the program takes from its environment are parameters: the current
directory, whether an entry is a regular file, and the parse tree.

## Model

| member | source | states |
|---|---|---|
| Syntax.Display | src/main.rs:774-787 | Definition: `file::class::name` with a class path, `file::name` without. Its properties are `DisplayRecoversName` and `ForPytestMatchesDisplay`. |
| Syntax.ForPytest | testsearch.py:45-60 | Definition: the `::` join of file, class and name, leaving out a class that is `None` or empty. Its properties are `ForPytestMatchesDisplay` and `ForPytestRecoversName`. |
| Syntax.DisplayRecoversName | src/main.rs:774-787 | The Rust identifier starts with `file::`. When the function name holds no `:`, its last `::` segment is that name. |
| Syntax.ForPytestMatchesDisplay | testsearch.py:45-60 | `for_pytest` equals the Rust display exactly when the class name is not `Some("")`. Python's truthiness test drops an empty class name. |
| Syntax.ForPytestRecoversName | main.py:37-52 | The last `::` segment of a pytest identifier is the function name. |
| NestedVisitor.Class | src/main.rs:642-687 | Definition of `handle_class_definition`: a missing name bails with "no class name found", a non-identifier name bails naming its kind, a non-`Test` name yields nothing, and otherwise the children from index 2 are walked under `ClassPath`. |
| NestedVisitor.Dispatch | src/main.rs:603-705 | Definition of each handler's `match`: the kinds it descends into, the kinds it skips, and `todo!` (`Panic`) for every other kind. |
| NestedVisitor.Children | src/main.rs:590-705 | Definition of a handler loop: the records of each child in order, stopping at the first child that does not continue. |
| NestedVisitor.Extract | src/main.rs:590-621 | Definition of `visit`: the top-level loop over the root's children. Its properties are the `*EmitsTests` lemmas and `NestedExample`. |
| NestedVisitor.Function | src/main.rs:707-729 | At most one record. It bails with "no identifier node found" exactly when the node has no name child, and otherwise continues. A record appears exactly when the name starts with `test_`, and it carries that name, the file and the class context. The body is never looked at. |
| NestedVisitor.ClassPath | src/main.rs:671-675 | A `Test` name gives a `Test` path. Without a parent, the path is the class's own name. |
| NestedVisitor.ChildrenEmitsTests | src/main.rs:590-729 | Every record from any handler loop carries this file and the name of a `test_` function defined in the walked subtree (a `function_definition` node whose `child(1)` has that text). Its class path is absent or starts with `Test`. |
| NestedVisitor.DispatchEmitsTests | src/main.rs:603-618 | The same, for one child under any handler. |
| NestedVisitor.ClassEmitsTests | src/main.rs:642-687 | The same, for a class, under any parent path. |
| NestedVisitor.NonTestClassIsQuiet | src/main.rs:666-669 | A well-named class that is not `Test...` yields nothing, its `test_` methods included, and does not stop the walk. |
| NestedVisitor.NestedClassExtendsPath | src/main.rs:689-705 | A `Test` class in the block of a `Test` class walks its body under `Parent::Child`, so paths grow one level per nesting. |
| NestedVisitor.DecoratedClassRestartsPath | src/main.rs:623-640 | A decorated class is handled with no parent path. |
| NestedVisitor.NestedExample | src/main.rs:642-705 | For any `Test` names `A`, `B` and `test_` name `f`, a module holding `class A: class B: def f` yields exactly one record: `f` with path `A::B`. |
| NestedVisitor.Visitor.constructor | src/main.rs:577-587 | A new visitor for `filename` has sent nothing. |
| NestedVisitor.Visitor.Visit | src/main.rs:590-621 | The top-level loop appends exactly the records of `Extract` to what was sent, and ends as `Extract` does. |
| NestedVisitor.Visitor.HandleChild | src/main.rs:603-705 | Each handler's `match child.kind()` sends what `Dispatch` specifies for that handler. |
| NestedVisitor.Visitor.HandleDecoratedDefinition | src/main.rs:623-640 | The decorated-definition loop sends what `Children(Decorated(cls))` specifies. |
| NestedVisitor.Visitor.HandleClassDefinition | src/main.rs:642-687 | The class handler sends what `Class` specifies: name checks, `Test` filter, path, then the loop over the remaining children. |
| NestedVisitor.Visitor.HandleClassBlock | src/main.rs:689-705 | The class-block loop sends what `Children(ClassBlock(cls))` specifies. |
| NestedVisitor.Visitor.HandleFunctionDefinition | src/main.rs:707-729 | Sends what `Function` specifies. |
| NestedVisitor.Visitor.Emit | src/main.rs:731-749 | Appends one record with the visitor's file name. |
| NestedVisitor.ParseFile | src/main.rs:752-759 | An unparsable file bails with "parsing file" and sends nothing. Otherwise it sends what `Extract` specifies, and every record sent carries the file and the name of a `test_` function defined in its tree, in a `Test` class or none. |
| CoreVisitor.Class | testsearch-core/src/lib.rs:254-288 | Definition of `handle_class_definition`: as in `src/main.rs`, but the path is always the class's own name. |
| CoreVisitor.Dispatch | testsearch-core/src/lib.rs:216-305 | Definition of each handler's `match`; a class block has no case for a class definition, which reaches `todo!`. |
| CoreVisitor.Children | testsearch-core/src/lib.rs:202-305 | Definition of a handler loop, stopping at the first child that does not continue. |
| CoreVisitor.Extract | testsearch-core/src/lib.rs:202-233 | Definition of `visit` on a parsed file. Its properties are the `*EmitsTests` and `*AgreesWithNested` lemmas. |
| CoreVisitor.ChildrenEmitsTests | testsearch-core/src/lib.rs:202-329 | Every record carries this file and the name of a `test_` function defined in the walked subtree (a `function_definition` node whose `child(1)` has that text). Its class is absent or a `Test` name. |
| CoreVisitor.DispatchEmitsTests | testsearch-core/src/lib.rs:216-229 | The same, for one child under any handler. |
| CoreVisitor.ClassEmitsTests | testsearch-core/src/lib.rs:254-288 | The same, for a class. |
| CoreVisitor.ChildrenAgreeWithNested | testsearch-core/src/lib.rs:202-329 | A walk that does not reach `todo!` sends the same records and ends the same way as the `src/main.rs` walk. |
| CoreVisitor.DispatchAgreesWithNested | testsearch-core/src/lib.rs:216-229 | The same, for one child. |
| CoreVisitor.ClassAgreesWithNested | testsearch-core/src/lib.rs:254-288 | The same, for a class, whose path is always its own name. |
| CoreVisitor.NestedClassIsFatal | testsearch-core/src/lib.rs:290-305 | A class definition in a class block is `todo!`, where `src/main.rs` walks it as a nested class. |
| CoreVisitor.NestedExampleIsFatal | testsearch-core/src/lib.rs:254-305 | The nested example above panics here before anything is sent. |
| CoreVisitor.Visitor.constructor | testsearch-core/src/lib.rs:189-200 | A new visitor has sent nothing. |
| CoreVisitor.Visitor.Visit | testsearch-core/src/lib.rs:202-233 | The top-level loop sends what `Extract` specifies. |
| CoreVisitor.Visitor.HandleChild | testsearch-core/src/lib.rs:216-305 | Each handler's `match` sends what `Dispatch` specifies. |
| CoreVisitor.Visitor.HandleDecoratedDefinition | testsearch-core/src/lib.rs:235-252 | The decorated-definition loop sends what `Children(Decorated(cls))` specifies. |
| CoreVisitor.Visitor.HandleClassDefinition | testsearch-core/src/lib.rs:254-288 | The class handler sends what `Class` specifies. |
| CoreVisitor.Visitor.HandleClassBlock | testsearch-core/src/lib.rs:290-305 | The class-block loop sends what `Children(ClassBlock(cls))` specifies. |
| CoreVisitor.Visitor.HandleFunctionDefinition | testsearch-core/src/lib.rs:307-329 | Sends what `Function` specifies. |
| CoreVisitor.Visitor.Emit | testsearch-core/src/lib.rs:331-349 | Appends one record with the visitor's file name. |
| CoreVisitor.ParseFile | testsearch-core/src/lib.rs:352-359 | An unparsable file bails and sends nothing. Otherwise it sends what `Extract` specifies. Every record carries the file and the name of a `test_` function defined in its tree, in a `Test` class or none. |
| LenientVisitor.Class | testsearch.py:96-113 | Definition of `handle_class_definition`: a missing or non-identifier name raises `AssertionError`, a non-`Test` name yields nothing, and otherwise the children from index 2 are walked with the class's name. |
| LenientVisitor.Dispatch | testsearch.py:80-153 | Definition of each handler's `match`: below the top level unknown kinds are skipped; at the top level they raise `NotImplementedError`. |
| LenientVisitor.Children | testsearch.py:80-153 | Definition of a handler loop, stopping at the first child that raises. |
| LenientVisitor.Function | testsearch.py:68-78 | At most one record. A missing name child fails an `assert`. A record appears exactly when the name starts with `test_`. |
| LenientVisitor.Extract | testsearch.py:156-159 | Returns the list exactly when the walk runs to the end. Otherwise it raises, and only `AssertionError` or `NotImplementedError`. |
| LenientVisitor.ChildrenOnlyAssert | testsearch.py:127-153 | Only the top-level loop raises `NotImplementedError`. Below it a walk continues or fails an `assert`. |
| LenientVisitor.DispatchOnlyAssert | testsearch.py:80-125 | Below the top level a child continues or fails an `assert`. A child whose kind a decorated definition, class or class block has no case for yields nothing and the walk continues. |
| LenientVisitor.ClassOnlyAssert | testsearch.py:96-113 | A class handler either continues or fails one of its `assert`s. |
| LenientVisitor.ChildrenEmitsTests | testsearch.py:127-153 | Every record carries this file and the name of a `test_` function defined in the walked subtree (a `function_definition` node whose `child(1)` has that text), in a `Test` class or none. |
| LenientVisitor.DispatchEmitsTests | testsearch.py:80-125 | The same, for one child. |
| LenientVisitor.ClassEmitsTests | testsearch.py:96-113 | The same, for a class. |
| LenientVisitor.NonTestClassIsQuiet | testsearch.py:103-109 | A well-named class that is not `Test...` yields nothing, its `test_` methods included, and does not stop the walk. |
| LenientVisitor.MethodCarriesClassName | testsearch.py:115-121 | A `test_` function in the block of class `C` yields exactly one record, with class name `C`, and the walk continues. |
| LenientVisitor.ClassWithMethodExample | testsearch.py:96-125 | For any `test_` name `f`, `class C: def f` yields exactly `f` with class `C` when `C` starts with `Test`, and nothing otherwise. |
| LenientVisitor.ChildrenAgreeWithCore | testsearch.py:127-153 | Where the Rust library walk does not panic, this walk collects the same records. It ends normally when that walk does, and with `AssertionError` where that walk bails. |
| LenientVisitor.DispatchAgreesWithCore | testsearch.py:80-125 | The same, for one child. |
| LenientVisitor.ClassAgreesWithCore | testsearch.py:96-113 | The same, for a class. |
| LenientVisitor.NestedClassIsSkipped | testsearch.py:115-125 | A class or `pass` in a class block yields nothing, so class context is one level deep. |
| LenientVisitor.DecoratedClassResetsContext | testsearch.py:85-87 | A decorated class is handled with no enclosing class. |
| LenientVisitor.Visitor.constructor | testsearch.py:64-66 | A new visitor has an empty `tests` list. |
| LenientVisitor.Visitor.Visit | testsearch.py:127-153 | The top-level loop appends what `Children(Module)` specifies, and ends as it does. |
| LenientVisitor.Visitor.HandleChild | testsearch.py:80-153 | Each handler's `match child.type` appends what `Dispatch` specifies. |
| LenientVisitor.Visitor.HandleDecoratedDefinition | testsearch.py:80-94 | The decorated-definition loop appends what `Children(Decorated(cls))` specifies. |
| LenientVisitor.Visitor.HandleClassDefinition | testsearch.py:96-113 | The class handler appends what `Class` specifies. |
| LenientVisitor.Visitor.HandleClassBlock | testsearch.py:115-125 | The class-block loop appends what `Children(ClassBlock)` specifies. |
| LenientVisitor.Visitor.HandleFunctionDefinition | testsearch.py:68-78 | Appends what `Function` specifies. |
| LenientVisitor.ExtractTests | testsearch.py:156-159 | Returns `Extract`'s result. On success every test carries the file and the name of a `test_` function defined in the tree, in a `Test` class or none. |
| LooseVisitor.Class | main.py:80-90 | Definition of `handle_class_definition`: a missing or non-identifier name raises `AssertionError`; every other class is walked with its name. |
| LooseVisitor.Dispatch | main.py:72-124 | Definition of each handler's `match`: below the top level only a decorated function, a class's block and a block's decorated definitions are visited. |
| LooseVisitor.Children | main.py:72-124 | Definition of a handler loop, stopping at the first child that raises. |
| LooseVisitor.Extract | main.py:127-130 | Returns the list exactly when the walk runs to the end. Otherwise it raises, and only `AssertionError` or `NotImplementedError`. |
| LooseVisitor.ChildrenOnlyAssert | main.py:98-124 | Only the top level raises `NotImplementedError`. |
| LooseVisitor.DispatchOnlyAssert | main.py:72-96 | Below the top level a child continues or fails an `assert`, and a child of any kind but the one the handler visits yields nothing and the walk continues. |
| LooseVisitor.ClassOnlyAssert | main.py:80-90 | A class handler continues or fails an `assert`. |
| LooseVisitor.ChildrenEmitsTests | main.py:60-124 | Every record carries this file and the name of a `test_` function defined in the walked subtree (a `function_definition` node whose `child(1)` has that text). |
| LooseVisitor.DispatchEmitsTests | main.py:72-96 | The same, for one child. |
| LooseVisitor.ClassEmitsTests | main.py:80-90 | The same, for a class, whatever its name. |
| LooseVisitor.ChildrenKeepContext | main.py:72-96 | Below the top level the class context never changes. |
| LooseVisitor.DispatchKeepsContext | main.py:72-96 | The same, for one child. |
| LooseVisitor.ClassRecordsCarryName | main.py:80-90 | Every record of a class carries that class's name, `Test` or not. |
| LooseVisitor.OthersAreQuiet | main.py:72-96 | Children other than a class's block, a block's decorated definitions and a decorated function yield nothing. Undecorated methods, nested classes and decorated classes are never emitted. |
| LooseVisitor.HelperClassIsReported | main.py:80-96 | A decorated `test_y` in class `Helper` is reported with class `Helper`. |
| LooseVisitor.HelperClassIsSkippedByLenient | testsearch.py:96-125 | The same module yields nothing in `testsearch.py`. |
| LooseVisitor.Visitor.constructor | main.py:56-58 | A new visitor has an empty `tests` list. |
| LooseVisitor.Visitor.Visit | main.py:98-124 | The top-level loop appends what `Children(Module)` specifies. |
| LooseVisitor.Visitor.HandleChild | main.py:72-124 | Each handler's `match` appends what `Dispatch` specifies. |
| LooseVisitor.Visitor.HandleDecoratedDefinition | main.py:72-78 | Appends what `Children(Decorated(cls))` specifies. |
| LooseVisitor.Visitor.HandleClassDefinition | main.py:80-90 | Appends what `Class` specifies. |
| LooseVisitor.Visitor.HandleClassBlock | main.py:92-96 | Appends what `Children(ClassBlock)` specifies. |
| LooseVisitor.Visitor.HandleFunctionDefinition | main.py:60-70 | Appends what `Function` specifies. |
| LooseVisitor.ExtractTests | main.py:127-130 | Returns `Extract`'s result. On success every test carries the file and the name of a `test_` function defined in the tree. |
| IterTests.YieldSerial | testsearch.py:192-195 | The nested `serial` loops yield what `Yielded` specifies: file by file, each file's tests in extraction order, stopping at the first exception. |
| IterTests.YieldBatch | testsearch.py:194-195 | The inner loop appends each test's `for_pytest` in order. |
| IterTests.IterTests | testsearch.py:181-213 | Returns what `IterTestsSpec` specifies: pool check, then method dispatch. |
| IterTests.ValidationOrder | testsearch.py:184-213 | An unknown pool type raises `NotImplementedError` before any file is read, whatever the method, `serial` included. A valid pool with an unknown method raises the same. `serial` with a valid pool yields `Yielded(files)`. |
| IterTests.DrainAppend | testsearch.py:192-195 | Draining two runs of batches is draining the first and, if it did not raise, then the second. |
| IterTests.YieldedAppend | testsearch.py:192-195 | Files are processed in input order: the output for `a + b` is that of `a`, followed by that of `b` unless `a` raised. |
| IterTests.RaisesIffSomeFileRaises | testsearch.py:192-195 | The generator raises exactly when some file's extraction raises, and only `AssertionError` or `NotImplementedError`. |
| IterTests.YieldedLinesAreTests | testsearch.py:192-195 | Every yielded line is the `for_pytest` identifier of a record whose file is one of the input paths and whose name starts with `test_` and is the name of a function defined in that file's tree. |
| FileFilter.IsTestFileName | src/main.rs:230-235 | Definition: the name starts with `test_` and ends with `.py`. Its shape is `TestFileNameShape`. |
| FileFilter.Accepts | src/main.rs:230-235 | Definition: a regular file whose name could be read and passes `IsTestFileName`. Its properties are `AcceptsEveryStem` and `RejectsNearMisses`. |
| FileFilter.TestFileNameShape | src/main.rs:230-235 | A name passes exactly when it is `test_`, a stem and `.py`, with length at least 8. |
| FileFilter.AcceptsEveryStem | src/main.rs:230-235 | Every regular file `test_<stem>.py` is accepted, and no such entry that is not a regular file is. |
| FileFilter.RejectsNearMisses | testsearch-core/src/lib.rs:157-162 | `Test_…py`, `test_….pyc` and an unreadable name are rejected. |
| HistoryStore.ParseClearOption | src/main.rs:34-40 | A parsed option's name is the input. Any other input gives "invalid cache clear option: " followed by the input. |
| HistoryStore.ParseClearOptionRoundTrip | src/main.rs:25-41 | Each option's name parses back to the option. |
| HistoryStore.PersistedState.constructor | src/main.rs:111-125 | `Default`: both maps absent. |
| HistoryStore.PersistedState.History | src/main.rs:127-134 | Returns what `HistoryOf` specifies for the current maps. |
| HistoryStore.PersistedState.Clear | src/main.rs:136-152 | The new maps are `ClearOf` of the old ones. |
| HistoryStore.PersistedState.MigrateSettings | src/main.rs:154-164 | The loop builds the singleton map: the new state is `MigrateOf` of the old. |
| HistoryStore.PersistedState.SetLastTest | src/main.rs:191-200 | The new state is `SetLastTestOf` of the old: only the legacy map changes. |
| HistoryStore.PersistedState.RecordTest | src/main.rs:191-200 | The intended `set_last_test`: the new state is `RecordTestOf` of the old. |
| HistoryStore.HistoryFailsOnlyWhenInconsistent | src/main.rs:127-134 | `history` panics exactly when `last_test` is present and `test_history` is absent. On a fresh cache it returns `None`. |
| HistoryStore.MigratedIsConsistent | src/main.rs:154-164 | After migration `last_test` is absent, so `history` cannot panic. |
| HistoryStore.MigrateIdempotent | src/main.rs:154-164 | Migrating twice equals migrating once. |
| HistoryStore.MigrateKeepsLegacyTests | src/main.rs:154-164 | With legacy data, each directory's history becomes its one legacy test, or none. Without legacy data nothing changes. |
| HistoryStore.MigrateDropsEarlierHistory | src/main.rs:154-161 | A directory with history but no legacy entry loses its history in the migration. |
| HistoryStore.ClearCurrentForgetsHere | src/main.rs:136-152 | `clear(Current)` removes the current directory from whichever maps exist. No map appears or disappears, other keys keep their values, and `history` elsewhere is unchanged. |
| HistoryStore.ClearAllForgetsEverything | src/main.rs:146-148 | `clear(All)` gives the default state, where no directory has history. |
| HistoryStore.ClearIdempotent | src/main.rs:136-152 | Clearing twice equals clearing once. |
| HistoryStore.SetLastTestOverwrites | src/main.rs:191-200 | `set_last_test` creates the legacy map if needed and sets or overwrites this directory's entry. Other entries and `test_history` are untouched. |
| HistoryStore.PickOnFreshCacheBreaksHistory | src/main.rs:191-200 | As written: after a pick on a fresh cache, `history` for that directory panics. |
| HistoryStore.PickIsInvisibleToHistory | src/main.rs:191-200 | As written: with a history map present, a pick does not change what `history` reports in the same session. |
| HistoryStore.PickThenRestartKeepsOnlyIt | src/main.rs:154-200 | As written: after the next start-up, the pick is its directory's whole history and every other directory's history is gone. |
| HistoryStore.RecordTestAppends | src/main.rs:191-200 | Intended: the pick is appended to the directory's history. Other directories are unchanged. |
| HistoryStore.RecordTestSurvivesRestart | src/main.rs:191-200 | Intended: recording never makes `history` panic, and on a migrated state it survives the next migration. |
| HistoryStore.RecordTestIsRerun | src/main.rs:441-452 | Intended: the last entry of the history, which `rerun --last` prints, is the test just recorded. |

## Left out

- Files and the parser:
  - Reading files (`Visitor::new`, `open(...)`) and the tree-sitter parser are not modelled. A file is given with its tree. In Rust, a tree the parser could not build is `None`.
  - Decoding node text as UTF-8 is not modelled (`utf8_text` and its "reading class name" errors, `.decode()`). Node text is already a string.
  - Python's `assert ….text is not None` is not modelled. A tree built from source always has text.
- The message `todo!` prints is not modelled: `Panic(kind)` keeps only the kind. Python exceptions are kept by class name only, without their messages.
- A failed channel send in `emit` ("sending test case to closed receiver") is not modelled. The receiving end is taken to stay open.
- Node kinds that no visitor names are one `Other(name)` kind. Nothing stops `Other` from carrying the name of a listed kind (`Other("function_definition")`); such a node is treated as an unknown kind, and trees are taken to use the listed constructor for every listed kind.
- Directory keys (`Dir`) are compared as strings. Rust keys the maps by `PathBuf`, which compares paths component by component, so `/a/b` and `/a/b/` are one key there and two in the model.
- Cache I/O is not modelled: `State::new`, `State::flush` and the JSON encoding of the cache. Neither are the failure of `current_dir()` and the `State` wrapper methods, which only add a flush.
- The parallel directory walk, channels and threads are not modelled, only the file-name test. Neither is the `fd` search of the Python scripts, whose regular expression is a different filter.
- The skim fuzzy finder, the REPL, clap, colour detection and shell completions are not modelled.
- `perform_search` and `rerun_test` are not modelled. The properties above state what they would see through `history`.
- IterTests.IterTests: the `map` and `apply` methods hand the files to a thread or process pool. The model returns `None` for them and does not follow them.
- `main()` of the Python scripts, argparse and the paths hard-coded in `main.py` are not modelled.
- The CLI wrapper `testsearch/src/main.rs`, the Python binding stub, the benchmark script and the end-to-end comparison test are not part of this model.

## Findings

| source | as written | input that shows it | evidently intended | confidence | as-written member | corrected member |
|---|---|---|---|---|---|---|
| src/main.rs:191-200 (and testsearch-core/src/lib.rs:118-127) | `set_last_test` inserts the picked test into the legacy `last_test` map, which `history` never reads while `test_history` exists. | Fresh cache, REPL: press `f`, pick `t`, press `r`. `history` finds `last_test` set and `test_history` absent, and panics. Otherwise the pick is invisible until the next start-up, whose migration replaces every directory's history with just the legacy entries. | Append the pick to `test_history[cwd]`, creating the map or the entry when missing. | medium, not executed | HistoryStore.PickOnFreshCacheBreaksHistory | HistoryStore.RecordTestAppends |
