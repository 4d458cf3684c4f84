/** The test of the directory walk in `find_test_files` (both Rust
    snapshots): which entries are sent on as test files. */
module FileFilter {
  import opened Common

  /** A test file's name: starts with `test_` and ends with `.py`. */
  predicate IsTestFileName(name: string) {
    StartsWith(name, "test_") && EndsWith(name, ".py")
  }

  /** An entry is sent when it is a regular file and its file name exists,
      is valid UTF-8 and is a test file's name; a missing or undecodable
      name (`None`) is rejected. */
  predicate Accepts(isFile: bool, fileName: Option<string>) {
    isFile && fileName.Some? && IsTestFileName(fileName.value)
  }

  /** The prefix and the suffix cannot share characters, so a test file's
      name is `test_`, a (possibly empty) stem and `.py`. */
  lemma TestFileNameShape(name: string)
    ensures IsTestFileName(name) <==>
              |name| >= 8 && name == "test_" + name[5..|name| - 3] + ".py"
  {
    if IsTestFileName(name) {
      // The dot of `.py` cannot lie inside `test_`.
      var dot := |name| - 3;
      assert name[dot] == '.' by { assert name[dot..][0] == name[dot]; }
      forall j | 0 <= j < 5
        ensures name[j] != '.'
      {
        assert name[..5][j] == name[j];
      }
      assert dot >= 5;
      assert name == name[..5] + name[5..|name| - 3] + name[|name| - 3..];
    }
    if |name| >= 8 && name == "test_" + name[5..|name| - 3] + ".py" {
      StartsWithPrefixOf("test_", name[5..|name| - 3] + ".py");
      assert "test_" + name[5..|name| - 3] + ".py" == "test_" + (name[5..|name| - 3] + ".py");
    }
  }

  /** Every `test_<stem>.py` is accepted, the empty stem included, when it
      names a regular file. */
  lemma AcceptsEveryStem(stem: string)
    ensures Accepts(true, Some("test_" + stem + ".py"))
    ensures !Accepts(false, Some("test_" + stem + ".py"))
  {
    var name := "test_" + stem + ".py";
    assert name[..5] == "test_";
    assert name[|name| - 3..] == ".py";
  }

  /** The test is case-sensitive, needs the exact suffix and rejects an
      entry whose name could not be read. */
  lemma RejectsNearMisses(stem: string)
    ensures !Accepts(true, Some("Test_" + stem + ".py"))
    ensures !Accepts(true, Some("test_" + stem + ".pyc"))
    ensures !Accepts(true, None)
  {
    var a := "Test_" + stem + ".py";
    assert a[0] == 'T';
    var b := "test_" + stem + ".pyc";
    assert b[|b| - 3..][2] == 'c';
  }
}
