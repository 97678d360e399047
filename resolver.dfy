/** Interpreter resolution: `StubLoader.getInterpreter`, a case-sensitive
    suffix test on the last element of the stub file's path. */
module Resolver {
  import opened Wrappers
  import opened Paths

  /** `String.endsWith`. */
  predicate EndsWith(s: string, suffix: string): (b: bool)
    ensures b <==> |suffix| <= |s| && forall i :: 0 <= i < |suffix| ==> s[|s| - |suffix| + i] == suffix[i]
  {
    |suffix| <= |s| && s[|s| - |suffix|..] == suffix
  }

  /** `s.endsWith(suffix)` holds exactly when `s` is some stem followed by
      `suffix`. */
  lemma EndsWithIffStem(s: string, suffix: string)
    ensures EndsWith(s, suffix) <==> exists stem :: s == stem + suffix
  {
    if EndsWith(s, suffix) {
      var stem := s[..|s| - |suffix|];
      assert s == stem + suffix;
    }
    forall stem | s == stem + suffix
      ensures EndsWith(s, suffix)
    {
      assert s[|stem|..] == suffix;
    }
  }

  /** No name ends both in `.py` and in `.json`: the last characters differ. */
  lemma SuffixesExclusive(s: string)
    ensures EndsWith(s, ".py") ==> !EndsWith(s, ".json")
  {
    if EndsWith(s, ".py") {
      assert s[|s| - 1] == s[|s| - 3..][2] == 'y';
      if |s| >= 5 {
        assert s[|s| - 5..][4] == s[|s| - 1];
      }
    }
  }

  /** `getInterpreter`: "python" for a file name ending in `.py`, "json" for
      one ending in `.json`, None where the source throws
      IllegalArgumentException. Only the file name is looked at. */
  function GetInterpreter(scriptPath: Path): (r: Option<string>)
    requires HasFileName(scriptPath)
    ensures r == Some("python") <==> exists stem :: FileName(scriptPath) == stem + ".py"
    ensures r == Some("json") <==> exists stem :: FileName(scriptPath) == stem + ".json"
    ensures r == None || r == Some("python") || r == Some("json")
  {
    var scriptName := FileName(scriptPath);
    EndsWithIffStem(scriptName, ".py");
    EndsWithIffStem(scriptName, ".json");
    SuffixesExclusive(scriptName);
    if EndsWith(scriptName, ".py") then Some("python")
    else if EndsWith(scriptName, ".json") then Some("json")
    else None
  }

  /** The recognised suffixes as a table: suffix to interpreter. */
  const Registry: map<string, string> := map[".py" := "python", ".json" := "json"]

  /** The if-chain agrees with a lookup in the table, whatever order the
      suffixes are tried in: a recognised name matches exactly one entry and
      resolves to that entry's interpreter, and an unrecognised one matches
      none. */
  lemma GetInterpreterMatchesRegistry(p: Path)
    requires HasFileName(p)
    ensures GetInterpreter(p).Some? <==> exists suffix :: suffix in Registry && EndsWith(FileName(p), suffix)
    ensures forall suffix :: suffix in Registry && EndsWith(FileName(p), suffix) ==>
              GetInterpreter(p) == Some(Registry[suffix])
  {
    var name := FileName(p);
    SuffixesExclusive(name);
    assert Registry.Keys == {".py", ".json"};
    if EndsWith(name, ".py") {
      assert ".py" in Registry;
    } else if EndsWith(name, ".json") {
      assert ".json" in Registry;
    }
  }

  /** Directory names never influence the result: two paths with the same
      file name resolve alike. */
  lemma OnlyFileNameMatters(p: Path, q: Path)
    requires HasFileName(p) && HasFileName(q) && FileName(p) == FileName(q)
    ensures GetInterpreter(p) == GetInterpreter(q)
  {
  }

  /** Case variants and look-alikes are rejected; multi-dot names are judged
      by their last suffix; a directory called `x.py` does not make its
      content a script. */
  lemma ResolutionExamples()
    ensures GetInterpreter(Path(false, ["src", "python", "sample.py"])) == Some("python")
    ensures GetInterpreter(Path(true, ["stubs", "a.json"])) == Some("json")
    ensures GetInterpreter(Path(false, ["foo.sample.py"])) == Some("python")
    ensures GetInterpreter(Path(false, ["X.PY"])) == None
    ensures GetInterpreter(Path(false, ["X.Json"])) == None
    ensures GetInterpreter(Path(false, ["a.json.bak"])) == None
    ensures GetInterpreter(Path(false, ["x.py", "data"])) == None
  {
    assert FileName(Path(false, ["src", "python", "sample.py"])) == "sample.py";
    assert FileName(Path(true, ["stubs", "a.json"])) == "a.json";
    assert FileName(Path(false, ["x.py", "data"])) == "data";
    assert EndsWith("sample.py", ".py") && EndsWith("foo.sample.py", ".py");
    assert !EndsWith("a.json", ".py") && EndsWith("a.json", ".json");
    assert !EndsWith("X.PY", ".py") by { assert "X.PY"[1..] != ".py"; }
    assert !EndsWith("X.PY", ".json") && !EndsWith("X.Json", ".py") && !EndsWith("X.Json", ".json");
    assert !EndsWith("a.json.bak", ".py") && !EndsWith("a.json.bak", ".json");
    assert !EndsWith("data", ".py") && !EndsWith("data", ".json");
  }
}
