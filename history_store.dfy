/** The persisted test history: per directory, the tests picked there, kept
    in two optional maps. `test_history` (directory to list of tests) is the
    current format; `last_test` (directory to one test) is the legacy one,
    converted into `test_history` by `migrate_settings` at start-up.

    `Snapshot` is the value of the two maps and the functions on it specify
    each operation; `PersistedState` is the object the program updates in
    place. The current directory, which the source asks the operating
    system for, is a parameter. */
module HistoryStore {
  import opened Common

  /** A directory, the key of both maps. */
  type Dir = string

  /** Which part of the cache `clear` forgets. */
  datatype ClearOption = Current | All

  function OptionName(o: ClearOption): string {
    match o
    case Current => "current"
    case All => "all"
  }

  /** `CacheClearOption::from_str`. */
  function ParseClearOption(s: string): (r: Result<ClearOption>)
    ensures r.Ok? ==> OptionName(r.value) == s
    ensures r.Err? ==> r.error == "invalid cache clear option: " + s
  {
    if s == "current" then Ok(Current)
    else if s == "all" then Ok(All)
    else Err("invalid cache clear option: " + s)
  }

  /** Every option's name parses back to it. */
  lemma ParseClearOptionRoundTrip(o: ClearOption)
    ensures ParseClearOption(OptionName(o)) == Ok(o)
  {
  }

  datatype Snapshot = Snapshot(testHistory: Option<map<Dir, seq<string>>>,
                               lastTest: Option<map<Dir, string>>)

  /** `PersistedState::default()`: a fresh cache. */
  const Empty := Snapshot(None, None)

  /** The one state `history` refuses: legacy data with no history map. */
  predicate Inconsistent(s: Snapshot) {
    s.testHistory.None? && s.lastTest.Some?
  }

  /** `history(path)`; the `panic!` is the error result. */
  function HistoryOf(s: Snapshot, path: Dir): Result<Option<seq<string>>> {
    if s.testHistory.Some? then
      Ok(if path in s.testHistory.value then Some(s.testHistory.value[path]) else None)
    else if s.lastTest.Some? then
      Err("we should never have last_test but not test_history")
    else Ok(None)
  }

  function Without<V>(m: Option<map<Dir, V>>, d: Dir): Option<map<Dir, V>> {
    match m
    case Some(entries) => Some(entries - {d})
    case None => None
  }

  /** `clear(option)` run in directory `here`. */
  function ClearOf(s: Snapshot, option: ClearOption, here: Dir): Snapshot {
    match option
    case Current => Snapshot(Without(s.testHistory, here), Without(s.lastTest, here))
    case All => Empty
  }

  /** Each legacy entry as a history of one test. */
  function Singletons(legacy: map<Dir, string>): map<Dir, seq<string>> {
    map d | d in legacy :: [legacy[d]]
  }

  /** `migrate_settings`: legacy data, when there is any, replaces the
      history map wholesale and is taken out. */
  function MigrateOf(s: Snapshot): Snapshot {
    if s.lastTest.Some? then Snapshot(Some(Singletons(s.lastTest.value)), None)
    else s
  }

  /** `State::set_last_test` as written: it records the test in the legacy
      map, which `history` does not read. */
  function SetLastTestOf(s: Snapshot, here: Dir, test: string): Snapshot {
    s.(lastTest := Some(s.lastTest.GetOr(map[])[here := test]))
  }

  /** The evidently intended `set_last_test`: append the test to this
      directory's history, creating the map or the entry when missing. */
  function RecordTestOf(s: Snapshot, here: Dir, test: string): Snapshot {
    var h := s.testHistory.GetOr(map[]);
    var before := if here in h then h[here] else [];
    s.(testHistory := Some(h[here := before + [test]]))
  }

  /** The persisted state, updated in place. */
  class PersistedState {
    var testHistory: Option<map<Dir, seq<string>>>
    var lastTest: Option<map<Dir, string>>

    function Snap(): Snapshot
      reads this
    {
      Snapshot(testHistory, lastTest)
    }

    /** `PersistedState::default()`. */
    constructor ()
      ensures Snap() == Empty
    {
      testHistory := None;
      lastTest := None;
    }

    method History(path: Dir) returns (r: Result<Option<seq<string>>>)
      ensures r == HistoryOf(Snap(), path)
    {
      if testHistory.Some? {
        var h := testHistory.value;
        if path in h {
          return Ok(Some(h[path]));
        }
        return Ok(None);
      } else if lastTest.Some? {
        return Err("we should never have last_test but not test_history");
      }
      return Ok(None);
    }

    method Clear(option: ClearOption, here: Dir)
      modifies this
      ensures Snap() == ClearOf(old(Snap()), option, here)
    {
      match option
      case Current =>
        if lastTest.Some? {
          lastTest := Some(lastTest.value - {here});
        }
        if testHistory.Some? {
          testHistory := Some(testHistory.value - {here});
        }
      case All =>
        testHistory := None;
        lastTest := None;
    }

    method MigrateSettings()
      modifies this
      ensures Snap() == MigrateOf(old(Snap()))
    {
      if lastTest.Some? {
        var legacy := lastTest.value;
        lastTest := None;
        var history: map<Dir, seq<string>> := map[];
        var rest := legacy.Keys;
        while rest != {}
          invariant rest <= legacy.Keys
          invariant history.Keys == legacy.Keys - rest
          invariant forall d :: d in history ==> history[d] == [legacy[d]]
          decreases |rest|
        {
          var d :| d in rest;
          history := history[d := [legacy[d]]];
          rest := rest - {d};
        }
        assert history == Singletons(legacy);
        testHistory := Some(history);
      }
    }

    /** `State::set_last_test`, as written. */
    method SetLastTest(here: Dir, test: string)
      modifies this
      ensures Snap() == SetLastTestOf(old(Snap()), here, test)
    {
      var entries := if lastTest.Some? then lastTest.value else map[];
      lastTest := Some(entries[here := test]);
    }

    /** `set_last_test` as evidently intended. */
    method RecordTest(here: Dir, test: string)
      modifies this
      ensures Snap() == RecordTestOf(old(Snap()), here, test)
    {
      var h := if testHistory.Some? then testHistory.value else map[];
      var before := if here in h then h[here] else [];
      testHistory := Some(h[here := before + [test]]);
    }
  }

  /** `history` fails exactly on legacy data with no history map. */
  lemma HistoryFailsOnlyWhenInconsistent(s: Snapshot, path: Dir)
    ensures HistoryOf(s, path).Err? <==> Inconsistent(s)
    ensures s == Empty ==> HistoryOf(s, path) == Ok(None)
  {
  }

  /** After migration no legacy data is left, so `history` cannot fail. */
  lemma MigratedIsConsistent(s: Snapshot, path: Dir)
    ensures MigrateOf(s).lastTest.None?
    ensures HistoryOf(MigrateOf(s), path).Ok?
  {
  }

  /** Migrating twice is migrating once. */
  lemma MigrateIdempotent(s: Snapshot)
    ensures MigrateOf(MigrateOf(s)) == MigrateOf(s)
  {
  }

  /** Each legacy test becomes a history of that one test; without legacy
      data nothing changes. */
  lemma MigrateKeepsLegacyTests(s: Snapshot, path: Dir)
    ensures s.lastTest.Some? ==>
              HistoryOf(MigrateOf(s), path)
              == Ok(if path in s.lastTest.value then Some([s.lastTest.value[path]]) else None)
    ensures s.lastTest.None? ==> MigrateOf(s) == s
  {
  }

  /** Migration discards whatever history map was there before: a
      directory with history but no legacy entry loses it. */
  lemma MigrateDropsEarlierHistory(s: Snapshot, path: Dir)
    requires s.testHistory.Some? && path in s.testHistory.value
    requires s.lastTest.Some? && path !in s.lastTest.value
    ensures HistoryOf(s, path) == Ok(Some(s.testHistory.value[path]))
    ensures HistoryOf(MigrateOf(s), path) == Ok(None)
  {
  }

  /** Clearing the current directory removes its key from whichever maps
      exist and changes nothing else: no map appears or disappears, and
      every other key keeps its value. */
  lemma ClearCurrentForgetsHere(s: Snapshot, here: Dir, path: Dir)
    ensures var c := ClearOf(s, Current, here);
            && c.testHistory.Some? == s.testHistory.Some?
            && c.lastTest.Some? == s.lastTest.Some?
            && (c.testHistory.Some? ==> here !in c.testHistory.value)
            && (c.lastTest.Some? ==> here !in c.lastTest.value)
    ensures var c := ClearOf(s, Current, here);
            path != here ==>
              && (c.testHistory.Some? ==> c.testHistory.value.Keys - {here} == s.testHistory.value.Keys - {here})
              && (c.testHistory.Some? && path in c.testHistory.value ==> c.testHistory.value[path] == s.testHistory.value[path])
              && (c.lastTest.Some? ==> c.lastTest.value.Keys - {here} == s.lastTest.value.Keys - {here})
              && (c.lastTest.Some? && path in c.lastTest.value ==> c.lastTest.value[path] == s.lastTest.value[path])
    ensures !Inconsistent(s) ==> HistoryOf(ClearOf(s, Current, here), here) == Ok(None)
    ensures path != here ==> HistoryOf(ClearOf(s, Current, here), path) == HistoryOf(s, path)
  {
  }

  /** Clearing everything leaves a fresh cache, in which no directory has
      history. */
  lemma ClearAllForgetsEverything(s: Snapshot, here: Dir, path: Dir)
    ensures ClearOf(s, All, here) == Empty
    ensures HistoryOf(ClearOf(s, All, here), path) == Ok(None)
  {
  }

  /** Clearing twice is clearing once. */
  lemma ClearIdempotent(s: Snapshot, option: ClearOption, here: Dir)
    ensures ClearOf(ClearOf(s, option, here), option, here) == ClearOf(s, option, here)
  {
    if option == Current {
      if s.testHistory.Some? {
        assert s.testHistory.value - {here} - {here} == s.testHistory.value - {here};
      }
      if s.lastTest.Some? {
        assert s.lastTest.value - {here} - {here} == s.lastTest.value - {here};
      }
    }
  }

  /** `set_last_test` creates the legacy map when it is absent and sets this
      directory's entry, overwriting an earlier one; other entries and the
      history map are untouched. */
  lemma SetLastTestOverwrites(s: Snapshot, here: Dir, test: string, path: Dir)
    ensures var t := SetLastTestOf(s, here, test);
            t.testHistory == s.testHistory && t.lastTest.Some? && t.lastTest.value[here] == test
    ensures var t := SetLastTestOf(s, here, test);
            path != here ==>
              (path in t.lastTest.value <==> s.lastTest.Some? && path in s.lastTest.value)
              && (path in t.lastTest.value ==> t.lastTest.value[path] == s.lastTest.value[path])
  {
  }

  /** As written, a test picked on a fresh cache makes the next `history`
      call on it fail: the legacy map is set while the history map is
      still absent. */
  lemma PickOnFreshCacheBreaksHistory(here: Dir, test: string)
    ensures Inconsistent(SetLastTestOf(Empty, here, test))
    ensures HistoryOf(SetLastTestOf(Empty, here, test), here).Err?
  {
  }

  /** As written, once there is a history map, picking a test does not
      change what `history` reports in the same session. */
  lemma PickIsInvisibleToHistory(s: Snapshot, here: Dir, test: string, path: Dir)
    requires s.testHistory.Some?
    ensures HistoryOf(SetLastTestOf(s, here, test), path) == HistoryOf(s, path)
  {
  }

  /** As written, after the next start-up's migration the picked test is
      the whole history of its directory, and every other directory's
      history is gone. */
  lemma PickThenRestartKeepsOnlyIt(s: Snapshot, here: Dir, test: string, path: Dir)
    requires s.lastTest.None?
    ensures HistoryOf(MigrateOf(SetLastTestOf(s, here, test)), here) == Ok(Some([test]))
    ensures path != here ==> HistoryOf(MigrateOf(SetLastTestOf(s, here, test)), path) == Ok(None)
  {
  }

  /** Intended: a recorded test is appended to its directory's history,
      which is readable afterwards whatever the state before; other
      directories keep theirs. */
  lemma RecordTestAppends(s: Snapshot, here: Dir, test: string, path: Dir)
    requires !Inconsistent(s)
    ensures HistoryOf(s, here).Ok?
    ensures HistoryOf(RecordTestOf(s, here, test), here)
            == Ok(Some(HistoryOf(s, here).value.GetOr([]) + [test]))
    ensures path != here ==> HistoryOf(RecordTestOf(s, here, test), path) == HistoryOf(s, path)
  {
  }

  /** Intended: recording never makes `history` fail, and on a migrated
      state the record survives the next start-up's migration. */
  lemma RecordTestSurvivesRestart(s: Snapshot, here: Dir, test: string)
    ensures !Inconsistent(RecordTestOf(s, here, test))
    ensures s.lastTest.None? ==> MigrateOf(RecordTestOf(s, here, test)) == RecordTestOf(s, here, test)
  {
  }

  /** Intended: the last test of the history, which `rerun --last` prints,
      is the test just recorded. */
  lemma RecordTestIsRerun(s: Snapshot, here: Dir, test: string)
    ensures var h := HistoryOf(RecordTestOf(s, here, test), here);
            h.Ok? && h.value.Some? && |h.value.value| > 0 && h.value.value[|h.value.value| - 1] == test
  {
  }
}
