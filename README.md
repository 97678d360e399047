# Stub loader model

A Dafny model of a small test-stub loader. `StubLoader.load(path, inputBean)`
takes a stub file and an input bean. A `.json` stub is parsed and returned
as it is. A `.py` stub is run as `python <file name>` in the script's own
directory. The input bean goes to the script's stdin as JSON, and the
script's stdout is parsed as JSON once it exits with code 0. Any other exit
code makes `load` return `null`, not throw. The model also covers the sample
stub `sample.py`. That script merges the object in its neighbouring
`a.json` into the object it reads on stdin.

Modules, one per concern:

- `Wrappers`: `Option` (a Java reference that may be `null`) and `Result` (a call that returns or throws).
- `Paths`: `java.nio.file.Path` as a root flag plus name elements, with `getFileName`, `getParent` and `resolve`.
- `JsonValues`: JSON values and byte streams, plus `Codec`. `Codec` is a serialiser and parser pair left abstract. It stands for Jackson's `ObjectMapper` and for Python's `json` module.
- `Resolver`: `getInterpreter`, the case-sensitive suffix test on the file name.
- `Processes`: `ProcessBuilder`, `Process` and the host as classes. Their effects go into an event log. The child's behaviour is an oracle: `World.launchable` and `World.child`, where `child` maps the command and the stdin bytes to an exit code and stdout.
- `StubLoading`: `LoadRun` and `ExecRun` give the result and the effects of `load` and `exec`. The `StubLoader` class's methods are proved to perform exactly those. The lemmas state the loader's contracts.
- `SampleStub`: `sample.py` as a function of its stdin and the contents of `a.json`, with lemmas that run it under the loader end to end.

The sample calls `json.load(..., encoding='utf-8')`. Python 3.9 removed that
keyword, so on 3.9 and newer the script raises `TypeError` and exits 1. The
model takes the runtime's behaviour as the parameter `legacyJsonLoad`.
`SampleStubNullOnNewerPython` shows that `load` then returns `null` for
every input. A Python 2 `python` accepts the keyword but fails at
`open('a.json', encoding='utf-8')`; it also exits 1, so it is covered by
`legacyJsonLoad` set to false.

## Model

| member | source | states |
|---|---|---|
| `Resolver.GetInterpreter` | src/main/java/StubLoader.java:113-123 | the result is "python" exactly when the file name is some stem followed by `.py`, and "json" exactly when it is a stem followed by `.json`; every other name is rejected (IllegalArgumentException) |
| `Resolver.EndsWith` | src/main/java/StubLoader.java:116-118 | `String.endsWith`: the suffix is no longer than the name and matches the name's last characters one by one |
| `Resolver.EndsWithIffStem` | src/main/java/StubLoader.java:116-118 | `endsWith(suffix)` holds exactly when the name is some stem followed by the suffix |
| `Resolver.SuffixesExclusive` | src/main/java/StubLoader.java:116-121 | no name ends in both `.py` and `.json`, so the order of the two tests does not matter |
| `Resolver.GetInterpreterMatchesRegistry` | src/main/java/StubLoader.java:116-121 | the if-chain equals a lookup in the suffix table: a name is accepted exactly when some table suffix ends it, and it then resolves to that suffix's interpreter |
| `Resolver.OnlyFileNameMatters` | src/main/java/StubLoader.java:114 | two paths with the same last name element resolve alike; directories play no part |
| `Resolver.ResolutionExamples` | src/main/java/StubLoader.java:116-121 | `X.PY`, `X.Json` and `a.json.bak` are rejected, `foo.sample.py` is a python script, and a directory named `x.py` does not make its contents a script |
| `Paths.HasFileName` | src/main/java/StubLoader.java:114 | `getFileName()` is null exactly for a path with no name element: a bare root or the empty name list |
| `Paths.FileName` | src/main/java/StubLoader.java:114 | `getFileName()` is the last name element: the path's names are the others followed by it |
| `Paths.HasParent` | src/main/java/StubLoader.java:94 | `getParent()` is non-null exactly when the path has a file name and something before it (another name or the root); it is null for a bare relative name such as `sample.py` |
| `Paths.Parent` | src/main/java/StubLoader.java:94 | `getParent()` keeps the root flag, and its names followed by the file name are the path's names |
| `Paths.ParentResolveRoundTrip` | src/main/java/StubLoader.java:89-94 | the parent directory with the file name resolved in it is the script path again |
| `Paths.ResolveParentRoundTrip` | src/main/java/StubLoader.java:94 | a name resolved in a directory has that directory as parent and that name as file name |
| `StubLoading.AsBean` | src/main/java/StubLoader.java:38 | a JSON `null` document binds to a Java `null` bean; every other document binds to itself |
| `StubLoading.ParseBean` | src/main/java/StubLoader.java:71 | `readValue` fails with MalformedStubData exactly when the bytes do not parse; a parse of `null` gives Java `null`, any other parse gives that value |
| `StubLoading.ScriptCommand` | src/main/java/StubLoader.java:87-100 | the command has exactly two tokens, the interpreter and a single name element which, resolved in the working directory, is the script itself; stderr is inherited |
| `Processes.ProcessBuilder.constructor` | src/main/java/StubLoader.java:91 | a new builder holds the command, the parent's working directory and a piped stderr |
| `Processes.ProcessBuilder.Directory` | src/main/java/StubLoader.java:94 | only the working directory changes |
| `Processes.ProcessBuilder.RedirectError` | src/main/java/StubLoader.java:97 | only the stderr routing changes |
| `StubLoading.StubLoader.ConstructScriptProcessBuilder` | src/main/java/StubLoader.java:87-100 | the fresh builder is configured with exactly `ScriptCommand(interpreter, scriptPath)` |
| `Processes.Host.ReadFile` | src/main/java/StubLoader.java:38 | logs the read and returns the file's contents, or None where the read throws IOException |
| `Processes.Host.Start` | src/main/java/StubLoader.java:62 | logs the launch and returns a fresh process running the configured command exactly when it can be launched; otherwise None (IOException) |
| `Processes.Process.WriteInput` | src/main/java/StubLoader.java:65 | appends the bytes to the child's stdin and logs the write |
| `Processes.Process.WaitFor` | src/main/java/StubLoader.java:68 | returns and records the exit code the child produces for what it was sent, and logs the wait |
| `Processes.Process.ReadOutput` | src/main/java/StubLoader.java:71 | returns the child's whole stdout and logs the read |
| `StubLoading.StubLoader.constructor` | src/main/java/StubLoader.java:15 | the loader keeps the given mapper |
| `StubLoading.ExecRun` | src/main/java/StubLoader.java:59-76 | the script branch fails only with SpawnFailed or MalformedStubData; it fails with SpawnFailed exactly when the command cannot be launched; its first effect is always the launch of the script command |
| `StubLoading.LoadRun` | src/main/java/StubLoader.java:33-43 | `load` fails with UnrecognizedStubKind exactly when `getInterpreter` rejects the name, and then has no effect; it fails with StubNotFound exactly for a `.json` stub that cannot be read |
| `StubLoading.StubLoader.Load` | src/main/java/StubLoader.java:33-43 | the result and the effects appended to the host's log are those of `LoadRun` |
| `StubLoading.StubLoader.Exec` | src/main/java/StubLoader.java:59-76 | the result and the effects appended to the host's log are those of `ExecRun` |
| `StubLoading.ExecFollowsProtocol` | src/main/java/StubLoader.java:61-75 | the script branch launches first; a launched child gets the serialised input and then is waited for; every effect happens at most once and in that order; stdout is read exactly after a wait that saw exit code 0; the loader reads no file |
| `StubLoading.UnrecognisedSuffixFailsFirst` | src/main/java/StubLoader.java:33-34 | a name ending in neither suffix fails with UnrecognizedStubKind and no effect at all |
| `StubLoading.JsonStubIgnoresInput` | src/main/java/StubLoader.java:36-38 | a `.json` stub gives the same run for any two input beans; its only effect is one read of the file; the result is the parse of the file, StubNotFound or MalformedStubData |
| `StubLoading.ScriptStubRunsPython` | src/main/java/StubLoader.java:39-41 | a `.py` stub with a parent directory is executed with the interpreter "python" |
| `StubLoading.LoadFollowsProtocol` | src/main/java/StubLoader.java:33-43 | every call keeps the protocol order and reads stdout exactly on exit code 0; a stub not ending in `.py` launches nothing |
| `StubLoading.SpawnFailureEndsCall` | src/main/java/StubLoader.java:62 | a command that cannot be started ends the call with SpawnFailed right after the launch attempt: no input is written, nothing is waited for, nothing is retried |
| `StubLoading.ExitCodeDecides` | src/main/java/StubLoader.java:68-74 | exit code 0 gives the parse of stdout; a non-zero exit code gives `null`, never an error, and then stdout is never read; the converse also holds |
| `StubLoading.EchoScriptRoundTrip` | src/main/java/StubLoader.java:59-74 | a script that echoes stdin and exits 0 gives back the input bean, if the mapper reads back what it writes |
| `SampleStub.Merge` | src/python/sample.py:10 | the merged keys are exactly the union; keys of `a.json` carry `a.json`'s values; other stdin keys keep their values |
| `SampleStub.MergeEmptyIsIdentity` | src/python/sample.py:10 | an empty `a.json` object leaves the input unchanged |
| `SampleStub.MergeIdempotent` | src/python/sample.py:10 | applying the same update twice equals applying it once |
| `SampleStub.SampleScript` | src/python/sample.py:4-12 | the script exits 0 exactly when the runtime accepts the `encoding` keyword, stdin parses to an object and `a.json` opens and parses to an object; it then prints the merge (a non-object `a.json` is taken as a crash, see Left out) |
| `SampleStub.AJsonPath` | src/python/sample.py:7 | `open('a.json')` names a file called `a.json` whose parent is the child's working directory; with no working directory set, it is the relative name `a.json` |
| `SampleStub.SampleStubMergesNeighbour` | src/python/sample.py:7-12 | loading `dir/sample.py` with object `x`, where `dir/a.json` holds object `y`, returns the merge of `y` into `x`; the working directory the loader sets is where the script finds `a.json` |
| `SampleStub.SampleStubNullOnNewerPython` | src/python/sample.py:5 | when `json.load` rejects the `encoding` keyword, loading the sample returns `null` for every input |
| `SampleStub.SampleStubNullOnNonObjectInput` | src/python/sample.py:10 | an input bean that is not an object makes `update` fail, and loading the sample returns `null` |

## Left out

- Process spawning, OS pipes, blocking in `waitFor` and its `InterruptedException` are effects. A child is an oracle (`World.child`) from its command and stdin bytes to its exit code and stdout.
- The deadlock that a child filling the stdout pipe before exit would cause (the wait comes before the read) is a concurrency matter and is not modelled.
- Jackson serialisation and parsing, and `TypeReference` binding, are library code. `Codec.write` and `Codec.read` stand for them. Only the binding of a JSON `null` document to a Java `null` bean is modelled (`AsBean`).
- Closing of streams by Jackson after writing or reading is not modelled. The written bytes are taken to be the child's whole stdin.
- JSON numbers are integers only. Floating point is not modelled.
- `StubLoading.StubLoader.Exec`: a write to the child's stdin never fails. The IOException Java raises when the child has already closed its stdin is not modelled.
- A script path without a parent (a bare `sample.py`) makes `getParent()` return null and `load` throw NullPointerException. This is a precondition here (`LoadableStub`), not modelled behaviour. So is a path without a file name (a bare root).
- SampleStub.SampleScript: a non-object `a.json` is treated as a crash (exit 1). In Python, `update` also accepts an empty list, an empty string or a list of key/value pairs, and the script then exits 0; that case is not modelled.
- File reading and `print` in `sample.py` are I/O. The contents of stdin and `a.json` are parameters, and the printed text is the Python codec's rendering of the merged object. Key order in the output is not modelled.
- `RunsSample` is an assumption, not a derived fact: it says every child in the world runs `sample.py` and reads `a.json` through `AJsonPath`. The lemmas about the sample rest on it, because the interpreter itself is outside the model.
- The test class `StubLoadingProcessTest` asserts nothing. It also calls a `StubLoader(Class)` constructor that the loader does not declare, so it is not modelled.
