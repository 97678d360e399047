/** The operating system as the loader sees it: `ProcessBuilder`, `Process`
    and the file system, reduced to an event log and oracle values. What a
    child process does is not visible to the loader; `World` fixes it as a
    function of the command and of the bytes written to the child's stdin. */
module Processes {
  import opened Wrappers
  import opened Paths
  import opened JsonValues

  /** Where a child's standard error goes: a pipe the parent could read
      (ProcessBuilder's default), or the parent's own standard error. */
  datatype Redirect = Pipe | Inherit

  /** What a configured ProcessBuilder launches. `workdir` None means the
      parent's working directory. */
  datatype Command = Command(argv: seq<string>, workdir: Option<Path>, stderr: Redirect)

  /** The observable outcome of a child: its exit code and everything it
      wrote to standard output. */
  datatype ChildRun = ChildRun(exitCode: int, stdout: Bytes)

  /** The environment: readable files with their contents, which commands
      can be launched at all, and how a launched child behaves. */
  datatype World = World(
    files: map<Path, Bytes>,
    launchable: Command -> bool,
    child: (Command, Bytes) -> ChildRun)

  /** The effects the loader performs, in the order it performs them. */
  datatype Event =
    | FileRead(path: Path)
    | Launch(command: Command)
    | InputWritten(data: Bytes)
    | Waited(exitCode: int)
    | OutputRead(data: Bytes)

  /** `java.lang.ProcessBuilder`: a command line plus settings changed by
      setter calls before `start`. */
  class ProcessBuilder {
    var command: seq<string>
    var directory: Option<Path>
    var errorRedirect: Redirect

    /** The command this builder would launch now. */
    function Configured(): Command
      reads this
    {
      Command(command, directory, errorRedirect)
    }

    constructor (command: seq<string>)
      ensures Configured() == Command(command, None, Pipe)
    {
      this.command := command;
      directory := None;
      errorRedirect := Pipe;
    }

    /** `directory(dir)`: only the working directory changes. */
    method Directory(dir: Path)
      modifies this
      ensures Configured() == old(Configured()).(workdir := Some(dir))
    {
      directory := Some(dir);
    }

    /** `redirectError(destination)`: only the error routing changes. */
    method RedirectError(destination: Redirect)
      modifies this
      ensures Configured() == old(Configured()).(stderr := destination)
    {
      errorRedirect := destination;
    }
  }

  /** The host: the world's fixed behaviour plus the log of effects so far. */
  class Host {
    const world: World
    var events: seq<Event>

    constructor (world: World)
      ensures this.world == world && events == []
    {
      this.world := world;
      events := [];
    }

    /** Reads a whole file; None where the read throws IOException. */
    method ReadFile(path: Path) returns (contents: Option<Bytes>)
      modifies this
      ensures events == old(events) + [FileRead(path)]
      ensures contents == if path in world.files then Some(world.files[path]) else None
    {
      events := events + [FileRead(path)];
      contents := if path in world.files then Some(world.files[path]) else None;
    }

    /** `ProcessBuilder.start`: launches the configured command, or fails
        (None) where `start` throws IOException. */
    method Start(builder: ProcessBuilder) returns (process: Option<Process>)
      modifies this
      ensures events == old(events) + [Launch(builder.Configured())]
      ensures process.Some? <==> world.launchable(builder.Configured())
      ensures process.Some? ==> fresh(process.value) && process.value.host == this
      ensures process.Some? ==> process.value.command == builder.Configured()
      ensures process.Some? ==> process.value.written == [] && process.value.exitCode == None
    {
      var command := builder.Configured();
      events := events + [Launch(command)];
      if world.launchable(command) {
        var p := new Process(this, command);
        process := Some(p);
      } else {
        process := None;
      }
    }
  }

  /** `java.lang.Process`: a running child with the bytes written to its
      stdin so far and, once waited for, its exit code. */
  class Process {
    const host: Host
    const command: Command
    var written: Bytes
    var exitCode: Option<int>

    /** The child's behaviour given everything written to it. */
    function Outcome(): ChildRun
      reads this
    {
      host.world.child(command, written)
    }

    constructor (host: Host, command: Command)
      ensures this.host == host && this.command == command
      ensures written == [] && exitCode == None
    {
      this.host := host;
      this.command := command;
      written := [];
      exitCode := None;
    }

    /** Writes `data` to the child's stdin. */
    method WriteInput(data: Bytes)
      modifies this, host
      ensures written == old(written) + data && exitCode == old(exitCode)
      ensures host.events == old(host.events) + [InputWritten(data)]
    {
      written := written + data;
      host.events := host.events + [InputWritten(data)];
    }

    /** `waitFor()`: blocks until the child exits and returns its exit code. */
    method WaitFor() returns (code: int)
      modifies this, host
      ensures code == Outcome().exitCode && exitCode == Some(code) && written == old(written)
      ensures host.events == old(host.events) + [Waited(code)]
    {
      code := host.world.child(command, written).exitCode;
      exitCode := Some(code);
      host.events := host.events + [Waited(code)];
    }

    /** Reads the child's stdout to the end. */
    method ReadOutput() returns (out: Bytes)
      modifies host
      ensures out == Outcome().stdout
      ensures host.events == old(host.events) + [OutputRead(out)]
    {
      out := host.world.child(command, written).stdout;
      host.events := host.events + [OutputRead(out)];
    }
  }
}
