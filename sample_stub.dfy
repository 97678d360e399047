/** The sample stub script `sample.py`: it parses its stdin as a JSON object,
    parses `a.json` from its working directory, merges the second into the
    first with `dict.update` and prints the result. File contents and the
    Python runtime's json module are parameters. */
module SampleStub {
  import opened Wrappers
  import opened Paths
  import opened JsonValues
  import opened Resolver
  import opened Processes
  import opened StubLoading

  /** `obj.update(other)`: every key of `other` with its value there, every
      other key of `obj` with its old value, and no key of neither. */
  function Merge(obj: map<string, Json>, other: map<string, Json>): (merged: map<string, Json>)
    ensures merged.Keys == obj.Keys + other.Keys
    ensures forall k :: k in other ==> merged[k] == other[k]
    ensures forall k :: k in obj && k !in other ==> merged[k] == obj[k]
  {
    obj + other
  }

  /** An empty `a.json` leaves the input object as it is. */
  lemma MergeEmptyIsIdentity(obj: map<string, Json>)
    ensures Merge(obj, map[]) == obj
  {
  }

  /** Applying the same update twice is the same as applying it once. */
  lemma MergeIdempotent(obj: map<string, Json>, other: map<string, Json>)
    ensures Merge(Merge(obj, other), other) == Merge(obj, other)
  {
  }

  /** An uncaught Python exception: a traceback on stderr, nothing on
      stdout, exit status 1. */
  const Crashed := ChildRun(1, [])

  /** The script's run, given the bytes on its stdin and the contents of
      `a.json` (None: the file cannot be opened). `legacyJsonLoad` says
      whether the runtime's `json.load` still accepts the `encoding` keyword
      (Python 3.0 to 3.8); newer ones raise TypeError on the first call.
      A Python 2 `python` accepts the keyword but fails at `open(...,
      encoding=...)`; it ends the same way, with exit status 1, and is
      covered by the `false` setting. */
  function SampleScript(python: Codec, legacyJsonLoad: bool, stdin: Bytes, aJson: Option<Bytes>): (run: ChildRun)
    ensures run.exitCode == 0 <==>
      && legacyJsonLoad
      && python.read(stdin).Some? && python.read(stdin).value.JObject?
      && aJson.Some? && python.read(aJson.value).Some? && python.read(aJson.value).value.JObject?
    ensures run.exitCode == 0 ==>
      run.stdout == python.write(JObject(Merge(python.read(stdin).value.members, python.read(aJson.value).value.members)))
  {
    if !legacyJsonLoad then Crashed
    else match python.read(stdin)
      case None => Crashed
      case Some(obj) =>
        match aJson
        case None => Crashed
        case Some(text) =>
          match python.read(text)
          case None => Crashed
          case Some(obj2) =>
            if obj.JObject? && obj2.JObject? then
              ChildRun(0, python.write(JObject(Merge(obj.members, obj2.members))))
            else
              Crashed
  }

  /** The path `open('a.json')` names inside a child run with `command`. */
  function AJsonPath(command: Command): (p: Path)
    ensures HasFileName(p) && FileName(p) == "a.json"
    ensures command.workdir.Some? && (command.workdir.value.rooted || |command.workdir.value.names| > 0) ==>
              HasParent(p) && Parent(p) == command.workdir.value
    ensures command.workdir.None? ==> p == Path(false, ["a.json"])
  {
    Resolve(if command.workdir.Some? then command.workdir.value else Path(false, []), "a.json")
  }

  /** A world whose children all run `sample.py`, reading `a.json` from
      their own working directory. */
  ghost predicate RunsSample(world: World, python: Codec, legacyJsonLoad: bool) {
    forall command, stdin :: world.child(command, stdin) ==
      SampleScript(python, legacyJsonLoad, stdin,
                   if AJsonPath(command) in world.files then Some(world.files[AJsonPath(command)]) else None)
  }

  /** Loading `sample.py` merges the `a.json` next to it into the input
      object: the working directory the loader sets is the one the script
      reads `a.json` from. */
  lemma SampleStubMergesNeighbour(jackson: Codec, python: Codec, world: World, dir: Path,
                                  x: map<string, Json>, y: map<string, Json>)
    requires dir.rooted || |dir.names| > 0
    requires RunsSample(world, python, true)
    requires world.launchable(ScriptCommand("python", Resolve(dir, "sample.py")))
    requires Resolve(dir, "a.json") in world.files
    requires python.read(world.files[Resolve(dir, "a.json")]) == Some(JObject(y))
    requires python.read(jackson.write(JObject(x))) == Some(JObject(x))
    requires jackson.read(python.write(JObject(Merge(x, y)))) == Some(JObject(Merge(x, y)))
    ensures LoadableStub(Resolve(dir, "sample.py"))
    ensures LoadRun(jackson, world, Resolve(dir, "sample.py"), JObject(x)).result == Success(Some(JObject(Merge(x, y))))
  {
    var path := Resolve(dir, "sample.py");
    ResolveParentRoundTrip(dir, "sample.py");
    assert EndsWith("sample.py", ".py");
    ScriptStubRunsPython(jackson, world, path, JObject(x));
    var command := ScriptCommand("python", path);
    assert command.workdir == Some(dir);
    assert AJsonPath(command) == Resolve(dir, "a.json");
  }

  /** On a runtime whose `json.load` rejects `encoding`, loading `sample.py`
      answers `null` for every input. */
  lemma SampleStubNullOnNewerPython(jackson: Codec, python: Codec, world: World, dir: Path, x: Json)
    requires dir.rooted || |dir.names| > 0
    requires RunsSample(world, python, false)
    requires world.launchable(ScriptCommand("python", Resolve(dir, "sample.py")))
    ensures LoadableStub(Resolve(dir, "sample.py"))
    ensures LoadRun(jackson, world, Resolve(dir, "sample.py"), x).result == Success(None)
  {
    var path := Resolve(dir, "sample.py");
    ResolveParentRoundTrip(dir, "sample.py");
    assert EndsWith("sample.py", ".py");
    ScriptStubRunsPython(jackson, world, path, x);
  }

  /** An input that is not a JSON object has no `update`: the script crashes
      and `load` answers `null`. */
  lemma SampleStubNullOnNonObjectInput(jackson: Codec, python: Codec, world: World, dir: Path, x: Json)
    requires dir.rooted || |dir.names| > 0
    requires RunsSample(world, python, true)
    requires world.launchable(ScriptCommand("python", Resolve(dir, "sample.py")))
    requires python.read(jackson.write(x)) == Some(x) && !x.JObject?
    ensures LoadableStub(Resolve(dir, "sample.py"))
    ensures LoadRun(jackson, world, Resolve(dir, "sample.py"), x).result == Success(None)
  {
    var path := Resolve(dir, "sample.py");
    ResolveParentRoundTrip(dir, "sample.py");
    assert EndsWith("sample.py", ".py");
    ScriptStubRunsPython(jackson, world, path, x);
  }
}
