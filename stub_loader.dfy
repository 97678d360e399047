/** `StubLoader`: resolve the stub file's interpreter, then either parse the
    file as JSON or run it as a script that reads the input bean as JSON on
    stdin and answers with JSON on stdout. `LoadRun` and `ExecRun` give the
    outcome and the effects of a call; the class's methods are proved to
    perform exactly those. */
module StubLoading {
  import opened Wrappers
  import opened Paths
  import opened JsonValues
  import opened Resolver
  import opened Processes

  /** What `load` can throw: IllegalArgumentException for an unknown suffix;
      IOException for a missing stub file, a child that cannot be started,
      or output that does not parse. */
  datatype LoadError = UnrecognizedStubKind | StubNotFound | SpawnFailed | MalformedStubData

  /** The result of a call (None is Java's `null`) and the effects it had. */
  datatype Run = Run(result: Result<Option<Json>, LoadError>, events: seq<Event>)

  /** Jackson binds a JSON `null` document to a Java `null` bean. */
  function AsBean(v: Json): (bean: Option<Json>)
    ensures bean.None? <==> v == JNull
    ensures bean.Some? ==> bean.value == v
  {
    if v.JNull? then None else Some(v)
  }

  /** `mapper.readValue(bytes, Out)`. */
  function ParseBean(mapper: Codec, bytes: Bytes): (r: Result<Option<Json>, LoadError>)
    ensures r.Failure? <==> mapper.read(bytes).None?
    ensures r.Failure? ==> r.error == MalformedStubData
    ensures r == Success(None) <==> mapper.read(bytes) == Some(JNull)
    ensures r.Success? && r.value.Some? ==> mapper.read(bytes) == Some(r.value.value)
  {
    match mapper.read(bytes)
    case None => Failure(MalformedStubData)
    case Some(v) => Success(AsBean(v))
  }

  /** The command `constructScriptProcessBuilder` configures: two tokens,
      the interpreter and a single name element which, resolved in the
      working directory, is the script itself; standard error shared with
      the parent. */
  function ScriptCommand(interpreter: string, scriptPath: Path): (c: Command)
    requires HasParent(scriptPath)
    ensures |c.argv| == 2 && c.argv[0] == interpreter
    ensures c.workdir.Some? && Resolve(c.workdir.value, c.argv[1]) == scriptPath
    ensures c.stderr == Inherit
  {
    ParentResolveRoundTrip(scriptPath);
    Command([interpreter, FileName(scriptPath)], Some(Parent(scriptPath)), Inherit)
  }

  /** `exec`: start, write the serialised input, wait, then parse stdout on
      exit code 0 or answer `null` on any other exit code. */
  function ExecRun(mapper: Codec, world: World, interpreter: string, scriptPath: Path, inputBean: Json): (run: Run)
    requires HasParent(scriptPath)
    ensures run.result.Failure? ==> run.result.error == SpawnFailed || run.result.error == MalformedStubData
    ensures run.result == Failure(SpawnFailed) <==> !world.launchable(ScriptCommand(interpreter, scriptPath))
    ensures |run.events| > 0 && run.events[0] == Launch(ScriptCommand(interpreter, scriptPath))
  {
    var command := ScriptCommand(interpreter, scriptPath);
    if !world.launchable(command) then
      Run(Failure(SpawnFailed), [Launch(command)])
    else
      var input := mapper.write(inputBean);
      var child := world.child(command, input);
      var awaited := [Launch(command), InputWritten(input), Waited(child.exitCode)];
      if child.exitCode == 0 then
        Run(ParseBean(mapper, child.stdout), awaited + [OutputRead(child.stdout)])
      else
        Run(Success(None), awaited)
  }

  /** The paths `load` is defined for: a file name to test and, for a
      script, a parent directory to run it in. */
  predicate LoadableStub(p: Path) {
    HasFileName(p) && (GetInterpreter(p) == Some("python") ==> HasParent(p))
  }

  /** `load`: dispatch on the interpreter. */
  function LoadRun(mapper: Codec, world: World, stubFilePath: Path, inputBean: Json): (run: Run)
    requires LoadableStub(stubFilePath)
    ensures run.result == Failure(UnrecognizedStubKind) <==> GetInterpreter(stubFilePath).None?
    ensures run.result == Failure(UnrecognizedStubKind) ==> run.events == []
    ensures run.result == Failure(StubNotFound) <==>
              GetInterpreter(stubFilePath) == Some("json") && stubFilePath !in world.files
  {
    match GetInterpreter(stubFilePath)
    case None => Run(Failure(UnrecognizedStubKind), [])
    case Some(interpreter) =>
      if interpreter == "json" then
        if stubFilePath in world.files then
          Run(ParseBean(mapper, world.files[stubFilePath]), [FileRead(stubFilePath)])
        else
          Run(Failure(StubNotFound), [FileRead(stubFilePath)])
      else
        ExecRun(mapper, world, interpreter, stubFilePath, inputBean)
  }

  /** Effects ranked by the order `load` may perform them in. */
  function Phase(e: Event): nat {
    match e
    case FileRead(_) => 0
    case Launch(_) => 1
    case InputWritten(_) => 2
    case Waited(_) => 3
    case OutputRead(_) => 4
  }

  /** Every effect happens at most once and in phase order: start before
      the input is written, the input before the wait, the wait before
      stdout is read. */
  ghost predicate InProtocolOrder(events: seq<Event>) {
    forall i, j :: 0 <= i < j < |events| ==> Phase(events[i]) < Phase(events[j])
  }

  /** Stdout is read only right after a wait that saw exit code 0, and such
      a wait is always followed by the read. */
  ghost predicate OutputReadExactlyOnSuccess(events: seq<Event>) {
    (forall i :: 0 <= i < |events| && events[i].OutputRead? ==> 0 < i && events[i - 1] == Waited(0))
    && (forall i :: 0 <= i < |events| && events[i] == Waited(0) ==> i + 1 < |events| && events[i + 1].OutputRead?)
  }

  predicate LaunchesNothing(events: seq<Event>) {
    forall e :: e in events ==> !e.Launch?
  }

  /** The script branch follows its protocol: it starts with the launch of
      the script command, a launched child always gets the serialised input
      and is waited for, in that order, and stdout is read exactly when the
      exit code is 0. No file is read by the loader itself. */
  lemma ExecFollowsProtocol(mapper: Codec, world: World, interpreter: string, scriptPath: Path, inputBean: Json)
    requires HasParent(scriptPath)
    ensures var events := ExecRun(mapper, world, interpreter, scriptPath, inputBean).events;
      && InProtocolOrder(events)
      && OutputReadExactlyOnSuccess(events)
      && |events| > 0 && events[0] == Launch(ScriptCommand(interpreter, scriptPath))
      && (world.launchable(ScriptCommand(interpreter, scriptPath)) ==>
            |events| >= 3 && events[1] == InputWritten(mapper.write(inputBean)) && events[2].Waited?)
      && (forall e :: e in events ==> !e.FileRead?)
  {
    var events := ExecRun(mapper, world, interpreter, scriptPath, inputBean).events;
    forall i, j | 0 <= i < j < |events|
      ensures Phase(events[i]) < Phase(events[j])
    {
      assert Phase(events[i]) == i + 1 && Phase(events[j]) == j + 1;
    }
  }

  /** An unrecognised suffix fails with IllegalArgumentException before
      anything is read or started. */
  lemma UnrecognisedSuffixFailsFirst(mapper: Codec, world: World, stubFilePath: Path, inputBean: Json)
    requires HasFileName(stubFilePath)
    requires !EndsWith(FileName(stubFilePath), ".py") && !EndsWith(FileName(stubFilePath), ".json")
    ensures LoadableStub(stubFilePath)
    ensures LoadRun(mapper, world, stubFilePath, inputBean) == Run(Failure(UnrecognizedStubKind), [])
  {
    EndsWithIffStem(FileName(stubFilePath), ".py");
    EndsWithIffStem(FileName(stubFilePath), ".json");
  }

  /** A `.json` stub is read once and parsed; the input bean plays no part
      and no process is started. */
  lemma JsonStubIgnoresInput(mapper: Codec, world: World, stubFilePath: Path, x: Json, y: Json)
    requires HasFileName(stubFilePath) && EndsWith(FileName(stubFilePath), ".json")
    ensures LoadableStub(stubFilePath)
    ensures LoadRun(mapper, world, stubFilePath, x) == LoadRun(mapper, world, stubFilePath, y)
    ensures LoadRun(mapper, world, stubFilePath, x).events == [FileRead(stubFilePath)]
    ensures LoadRun(mapper, world, stubFilePath, x).result ==
      if stubFilePath !in world.files then Failure(StubNotFound)
      else if mapper.read(world.files[stubFilePath]).None? then Failure(MalformedStubData)
      else Success(AsBean(mapper.read(world.files[stubFilePath]).value))
  {
    EndsWithIffStem(FileName(stubFilePath), ".json");
  }

  /** A `.py` stub is run with the interpreter "python". */
  lemma ScriptStubRunsPython(mapper: Codec, world: World, scriptPath: Path, inputBean: Json)
    requires HasParent(scriptPath) && EndsWith(FileName(scriptPath), ".py")
    ensures LoadableStub(scriptPath)
    ensures LoadRun(mapper, world, scriptPath, inputBean) == ExecRun(mapper, world, "python", scriptPath, inputBean)
  {
    EndsWithIffStem(FileName(scriptPath), ".py");
  }

  /** Every call of `load` keeps the protocol order, and only a `.py` stub
      ever launches anything. */
  lemma LoadFollowsProtocol(mapper: Codec, world: World, stubFilePath: Path, inputBean: Json)
    requires LoadableStub(stubFilePath)
    ensures InProtocolOrder(LoadRun(mapper, world, stubFilePath, inputBean).events)
    ensures OutputReadExactlyOnSuccess(LoadRun(mapper, world, stubFilePath, inputBean).events)
    ensures !EndsWith(FileName(stubFilePath), ".py") ==>
              LaunchesNothing(LoadRun(mapper, world, stubFilePath, inputBean).events)
  {
    var events := LoadRun(mapper, world, stubFilePath, inputBean).events;
    EndsWithIffStem(FileName(stubFilePath), ".py");
    if GetInterpreter(stubFilePath) == Some("python") {
      ExecFollowsProtocol(mapper, world, "python", stubFilePath, inputBean);
    } else {
      assert events == [] || events == [FileRead(stubFilePath)];
    }
  }

  /** A non-zero exit code yields `null`, never an exception, whatever the
      child wrote to stdout; exit code 0 yields the parse of stdout. */
  lemma ExitCodeDecides(mapper: Codec, world: World, interpreter: string, scriptPath: Path, inputBean: Json)
    requires HasParent(scriptPath)
    requires world.launchable(ScriptCommand(interpreter, scriptPath))
    ensures var child := world.child(ScriptCommand(interpreter, scriptPath), mapper.write(inputBean));
      ExecRun(mapper, world, interpreter, scriptPath, inputBean).result ==
        if child.exitCode == 0 then ParseBean(mapper, child.stdout) else Success(None)
    ensures var child := world.child(ScriptCommand(interpreter, scriptPath), mapper.write(inputBean));
      var run := ExecRun(mapper, world, interpreter, scriptPath, inputBean);
      child.exitCode != 0 <==> run.result == Success(None) && forall e :: e in run.events ==> !e.OutputRead?
  {
    var events := ExecRun(mapper, world, interpreter, scriptPath, inputBean).events;
    var child := world.child(ScriptCommand(interpreter, scriptPath), mapper.write(inputBean));
    if child.exitCode == 0 {
      assert events[3].OutputRead?;
    }
  }

  /** A child that cannot be started ends the call with IOException right
      after the launch attempt: no input is written, nothing is waited for,
      nothing is retried. */
  lemma SpawnFailureEndsCall(mapper: Codec, world: World, interpreter: string, scriptPath: Path, inputBean: Json)
    requires HasParent(scriptPath)
    requires !world.launchable(ScriptCommand(interpreter, scriptPath))
    ensures ExecRun(mapper, world, interpreter, scriptPath, inputBean)
              == Run(Failure(SpawnFailed), [Launch(ScriptCommand(interpreter, scriptPath))])
  {
  }

  /** A script that echoes its stdin and exits 0 gives back the input bean,
      provided the mapper reads back what it wrote. */
  lemma EchoScriptRoundTrip(mapper: Codec, world: World, scriptPath: Path, x: Json)
    requires HasParent(scriptPath) && EndsWith(FileName(scriptPath), ".py")
    requires world.launchable(ScriptCommand("python", scriptPath))
    requires forall data :: world.child(ScriptCommand("python", scriptPath), data) == ChildRun(0, data)
    requires mapper.read(mapper.write(x)) == Some(x)
    ensures LoadableStub(scriptPath)
    ensures LoadRun(mapper, world, scriptPath, x).result == Success(AsBean(x))
  {
    ScriptStubRunsPython(mapper, world, scriptPath, x);
  }

  class StubLoader {
    const mapper: Codec

    constructor (mapper: Codec)
      ensures this.mapper == mapper
    {
      this.mapper := mapper;
    }

    method Load(host: Host, stubFilePath: Path, inputBean: Json) returns (r: Result<Option<Json>, LoadError>)
      requires LoadableStub(stubFilePath)
      modifies host
      ensures r == LoadRun(mapper, host.world, stubFilePath, inputBean).result
      ensures host.events == old(host.events) + LoadRun(mapper, host.world, stubFilePath, inputBean).events
    {
      var interpreter := GetInterpreter(stubFilePath);
      if interpreter.None? {
        return Failure(UnrecognizedStubKind);
      }
      if interpreter.value == "json" {
        var contents := host.ReadFile(stubFilePath);
        if contents.None? {
          return Failure(StubNotFound);
        }
        return ParseBean(mapper, contents.value);
      }
      r := Exec(host, interpreter.value, stubFilePath, inputBean);
    }

    method Exec(host: Host, interpreter: string, scriptPath: Path, inputBean: Json)
      returns (r: Result<Option<Json>, LoadError>)
      requires HasParent(scriptPath)
      modifies host
      ensures r == ExecRun(mapper, host.world, interpreter, scriptPath, inputBean).result
      ensures host.events == old(host.events) + ExecRun(mapper, host.world, interpreter, scriptPath, inputBean).events
    {
      var builder := ConstructScriptProcessBuilder(interpreter, scriptPath);
      var started := host.Start(builder);
      if started.None? {
        return Failure(SpawnFailed);
      }
      var process := started.value;
      process.WriteInput(mapper.write(inputBean));
      assert process.written == mapper.write(inputBean);
      var exitCode := process.WaitFor();
      if exitCode == 0 {
        var out := process.ReadOutput();
        r := ParseBean(mapper, out);
      } else {
        r := Success(None);
      }
      ghost var command := ScriptCommand(interpreter, scriptPath);
      ghost var input := mapper.write(inputBean);
      assert host.events == old(host.events) + [Launch(command), InputWritten(input), Waited(exitCode)]
        + (if exitCode == 0 then [OutputRead(process.Outcome().stdout)] else []);
    }

    method ConstructScriptProcessBuilder(interpreter: string, scriptPath: Path) returns (builder: ProcessBuilder)
      requires HasParent(scriptPath)
      ensures fresh(builder) && builder.Configured() == ScriptCommand(interpreter, scriptPath)
    {
      builder := new ProcessBuilder([interpreter, FileName(scriptPath)]);
      builder.Directory(Parent(scriptPath));
      builder.RedirectError(Inherit);
    }
  }
}
