# AiSmokeTest decision rules, modelled in Dafny

`AiSmokeTest` is the base class of the Application Insights Java smoke tests. For
each combination of application server, OS and JRE, it does the following:

- starts a Docker container from the matching image;
- deploys a test WAR into it;
- waits for the server and the application to answer;
- issues the test's HTTP request;
- checks that telemetry reached a mocked ingestion server.

That ingestion server filters out telemetry still arriving from containers started
earlier. At the end of the run, every container started is stopped.

This project models the decision rules inside that plumbing. Docker, HTTP, the clock
and JUnit become inputs. What is modelled:

- **Test matrix** (`Parameters`): `parameterGenerator` and `getAppServerJres`.
  Runtime tags are normalised (`:` and `/` become `_`). The (server, tag) pairs
  are collected as a HashMultimap, that is, a set of entries. One `{server, os, tag}`
  case is produced per distinct entry.
- **Names and URLs** (`Naming`, `Text`): the image name `server_os_tag`, the
  application context (`warFileName.replace(".war", "")`), and the server and
  application base URLs. The Java string operations are modelled on `seq<char>`.
- **Test metadata** (`Metadata`): how `theWatchman.starting` turns the
  `@TargetUri` and `@ExpectSomeTelemetry` annotations into the request to make
  and the telemetry expectation.
- **Container state** (`Containers`): the static container stack, the `short`
  port counter starting at 28080, and the LIFO drain of `destroyAllContainers`.
  Stop calls are recorded in a ghost sequence.
- **Ingestion filter** (`Ingestion`): the predicate installed by
  `startMockedIngestion`, which uses `lastContainerId()`.
- **Readiness poll** (`Readiness`): `waitForUrl`, over a sequence of stopwatch
  readings and a sequence of attempt outcomes.
- **Request step** (`Request`): `callTargetUriAndWaitForTelemetry`.
- **Per-test instance** (`SmokeTest`): the fields and `@Before` steps of one test,
  up to `setupEnvironment`.

Behaviour the code has, which the model keeps:

- `warFileName.replace(".war", "")` removes every occurrence of `.war`, not only the
  suffix. `Naming.AppContextOfWarName` states the usual case, `x.war` giving `x`;
  `Naming.AppContextDropsFirstWar` and `Naming.AppContextOfDoubledWar` state the rest.
  The output is not scanned again, so it can still contain `.war`
  (`Naming.AppContextDoesNotRescan`).
- An unset `applicationinsights.smoketest.os` property gives the OS `linux`.
- With `@ExpectSomeTelemetry(false)`, no absence check is made: the presence of
  telemetry is simply not checked (`Request.NoAbsenceCheck`).
- A test without `@TargetUri` returns before any telemetry check.
- `waitForUrl` checks the timeout before each attempt. It then sleeps and fetches. A
  fetch exception skips straight to the loop condition, where `rval` is still null.

## Model

| member | source | states |
|---|---|---|
| Parameters.NormaliseTag | test/smoke/framework/testCore/src/main/java/com/microsoft/applicationinsights/smoketest/AiSmokeTest.java:71 | the normalised tag has the input's length, contains no `:` or `/`, has `_` where those were and every other character unchanged |
| Parameters.NormaliseTagIdempotent | test/smoke/framework/testCore/src/main/java/com/microsoft/applicationinsights/smoketest/AiSmokeTest.java:71 | normalising a normalised tag changes nothing |
| Parameters.NormaliseTagFixesSafeTags | test/smoke/framework/testCore/src/main/java/com/microsoft/applicationinsights/smoketest/AiSmokeTest.java:71 | a tag with no `:` or `/` is left unchanged |
| Parameters.AppServerJres | test/smoke/framework/testCore/src/main/java/com/microsoft/applicationinsights/smoketest/AiSmokeTest.java:66-74 | the per-server list keeps its length and order, each tag normalised |
| Parameters.Entries | test/smoke/framework/testCore/src/main/java/com/microsoft/applicationinsights/smoketest/AiSmokeTest.java:50-54 | the multimap's entry set, one `ServerEntries` per `putAll`; its meaning is stated by `EntriesMembership` |
| Parameters.EntriesMembership | test/smoke/framework/testCore/src/main/java/com/microsoft/applicationinsights/smoketest/AiSmokeTest.java:50-54 | a (server, tag) entry is in the multimap iff the server is listed and the tag is one of its normalised tags |
| Parameters.EnumerateEntries | test/smoke/framework/testCore/src/main/java/com/microsoft/applicationinsights/smoketest/AiSmokeTest.java:59-61 | iterating the entries visits each entry exactly once: as many items as entries, all of them entries, none missed, none repeated |
| Parameters.CasesOf | test/smoke/framework/testCore/src/main/java/com/microsoft/applicationinsights/smoketest/AiSmokeTest.java:59-61 | one case per visited entry, in visiting order, each carrying `os`; distinct entries give distinct cases |
| Parameters.OsSetting | test/smoke/framework/testCore/src/main/java/com/microsoft/applicationinsights/smoketest/AiSmokeTest.java:49 | the `applicationinsights.smoketest.os` system property, or `linux` when it is unset; its use is stated by `ParameterGenerator` |
| Parameters.ParameterGenerator | test/smoke/framework/testCore/src/main/java/com/microsoft/applicationinsights/smoketest/AiSmokeTest.java:47-64 | a missing `appServers.txt` fails naming it; otherwise fails iff some listed server has no JRE resource, naming the first such server in list order; on success the cases are those of `ExpandServers`, each carrying the configured OS (`linux` by default) |
| Parameters.ExpandServers | test/smoke/framework/testCore/src/main/java/com/microsoft/applicationinsights/smoketest/AiSmokeTest.java:50-63 | fails iff a listed server has no JRE resource (`JreResourceName`, `<server>.jre.txt`), naming the first; otherwise one case per distinct entry: no duplicates, every case carries `os`, every entry covered, count equals the number of entries |
| Naming.ImageName | test/smoke/framework/testCore/src/main/java/com/microsoft/applicationinsights/smoketest/AiSmokeTest.java:298 | the image name `server_os_tag` splits back into its three parts when server and OS contain no `_` |
| Naming.AppContext | test/smoke/framework/testCore/src/main/java/com/microsoft/applicationinsights/smoketest/AiSmokeTest.java:246-248 | a name without `.war` is its own context; a name with one loses at least four characters |
| Naming.AppContextDropsFirstWar | test/smoke/framework/testCore/src/main/java/com/microsoft/applicationinsights/smoketest/AiSmokeTest.java:247 | the first `.war` is dropped and the scan resumes after it, so every non-overlapping occurrence found left to right in the input is removed; the output is not rescanned |
| Naming.AppContextOfWarName | test/smoke/framework/testCore/src/main/java/com/microsoft/applicationinsights/smoketest/AiSmokeTest.java:246-248 | the context of `x.war` is `x` when `x` contains no other `.war` |
| Naming.AppContextOfDoubledWar | test/smoke/framework/testCore/src/main/java/com/microsoft/applicationinsights/smoketest/AiSmokeTest.java:247 | `x.war.war` also gives `x`: occurrences after the first are removed as well |
| Naming.AppContextDoesNotRescan | test/smoke/framework/testCore/src/main/java/com/microsoft/applicationinsights/smoketest/AiSmokeTest.java:247 | the result may still contain `.war`: `.w.warar` gives `.war` |
| Naming.UrlParsesBack | test/smoke/framework/testCore/src/main/java/com/microsoft/applicationinsights/smoketest/AiSmokeTest.java:250-252 | a `http://localhost:<port>/<context>` URL gives back its port, negative ones included, and its context |
| Naming.ServerUrl | test/smoke/framework/testCore/src/main/java/com/microsoft/applicationinsights/smoketest/AiSmokeTest.java:338 | the app server root URL names the port and an empty context |
| Naming.BaseUrl | test/smoke/framework/testCore/src/main/java/com/microsoft/applicationinsights/smoketest/AiSmokeTest.java:250-252 | the application base URL names the port and, after the first `/`, the app context |
| Text.RemoveAll | test/smoke/framework/testCore/src/main/java/com/microsoft/applicationinsights/smoketest/AiSmokeTest.java:247 | `replace(pat, "")` never lengthens a string and leaves one shorter than `pat` as it is; the lemmas below give its whole effect |
| Text.Contains | test/smoke/framework/testCore/src/main/java/com/microsoft/applicationinsights/smoketest/AiSmokeTest.java:430 | `contains`: some position starts with the substring; its use in `replace` is stated by the `RemoveAll` lemmas and in the poll by `Retryable` |
| Text.RemoveAllWithoutPattern | test/smoke/framework/testCore/src/main/java/com/microsoft/applicationinsights/smoketest/AiSmokeTest.java:247 | a string in which `pat` does not occur is unchanged |
| Text.RemoveAllShrinks | test/smoke/framework/testCore/src/main/java/com/microsoft/applicationinsights/smoketest/AiSmokeTest.java:247 | a string in which `pat` occurs loses at least one whole occurrence |
| Text.RemoveAllSkipsPrefix | test/smoke/framework/testCore/src/main/java/com/microsoft/applicationinsights/smoketest/AiSmokeTest.java:247 | a prefix in which no occurrence starts is kept as it is |
| Text.RemoveAllPastHead | test/smoke/framework/testCore/src/main/java/com/microsoft/applicationinsights/smoketest/AiSmokeTest.java:247 | one more character of a match-free prefix is kept |
| Text.RemoveAllKeepsHead | test/smoke/framework/testCore/src/main/java/com/microsoft/applicationinsights/smoketest/AiSmokeTest.java:247 | unfolding step of `RemoveAll`, used by the lemmas above: where `pat` does not start at the head, the head character is kept |
| Text.RemoveAllStep | test/smoke/framework/testCore/src/main/java/com/microsoft/applicationinsights/smoketest/AiSmokeTest.java:247 | the first occurrence, after a prefix with none, is dropped and the scan continues after it |
| Text.RemoveAllDropsHead | test/smoke/framework/testCore/src/main/java/com/microsoft/applicationinsights/smoketest/AiSmokeTest.java:247 | unfolding step of `RemoveAll`, used by the lemmas above: an occurrence at the head is dropped |
| Text.RemoveAllOfAppended | test/smoke/framework/testCore/src/main/java/com/microsoft/applicationinsights/smoketest/AiSmokeTest.java:247 | appending `pat` where no occurrence of `pat` starts earlier is undone by the removal |
| Text.ToUpper | test/smoke/framework/testCore/src/main/java/com/microsoft/applicationinsights/smoketest/AiSmokeTest.java:186 | ASCII upper-casing, one `UpperChar` per character, keeps the length, leaves no lower-case letter, changes only lower-case letters |
| Text.ToUpperIdempotent | test/smoke/framework/testCore/src/main/java/com/microsoft/applicationinsights/smoketest/AiSmokeTest.java:186 | upper-casing twice equals upper-casing once |
| Text.DigitsRoundTrip | test/smoke/framework/testCore/src/main/java/com/microsoft/applicationinsights/smoketest/AiSmokeTest.java:251 | the decimal digits of a natural number read back as that number |
| Text.DecimalString | test/smoke/framework/testCore/src/main/java/com/microsoft/applicationinsights/smoketest/AiSmokeTest.java:251 | the rendering of any integer (sign, then `Digits` of its magnitude) parses back to it, starts with `-` iff it is negative, and has no leading zero |
| Metadata.NormaliseUri | test/smoke/framework/testCore/src/main/java/com/microsoft/applicationinsights/smoketest/AiSmokeTest.java:181-184 | the target URI always starts with `/`, one that did is unchanged, otherwise one `/` is prefixed |
| Metadata.NormaliseUriIdempotent | test/smoke/framework/testCore/src/main/java/com/microsoft/applicationinsights/smoketest/AiSmokeTest.java:181-184 | normalising the URI twice equals normalising once |
| Metadata.TargetOf | test/smoke/framework/testCore/src/main/java/com/microsoft/applicationinsights/smoketest/AiSmokeTest.java:175-187 | no annotation gives no target (URI and method both null); otherwise the URI is the value when it starts with `/` and `/` + value when not, and the method is the annotation's method with each character upper-cased |
| Metadata.LowerCaseGetIsGet | test/smoke/framework/testCore/src/main/java/com/microsoft/applicationinsights/smoketest/AiSmokeTest.java:181-186 | `@TargetUri(value = "x", method = "get")` requests `/x` with `GET` |
| Metadata.TargetOfIdempotent | test/smoke/framework/testCore/src/main/java/com/microsoft/applicationinsights/smoketest/AiSmokeTest.java:181-186 | reading an already normalised annotation gives the same target |
| Metadata.ExpectSomeTelemetry | test/smoke/framework/testCore/src/main/java/com/microsoft/applicationinsights/smoketest/AiSmokeTest.java:189-190 | telemetry is not expected iff the annotation is present with value false |
| Containers.NextPort | test/smoke/framework/testCore/src/main/java/com/microsoft/applicationinsights/smoketest/AiSmokeTest.java:299 | the `short` post-increment adds one below 32767 and wraps to -32768 at it |
| Containers.Ports | test/smoke/framework/testCore/src/main/java/com/microsoft/applicationinsights/smoketest/AiSmokeTest.java:299 | the ports of n successive allocations: exactly n of them, in order, as `PortsCountUp` states |
| Containers.PortsCountUp | test/smoke/framework/testCore/src/main/java/com/microsoft/applicationinsights/smoketest/AiSmokeTest.java:299 | below the wrap, the k-th allocation from a start value returns start + k |
| Containers.PortsIncreasing | test/smoke/framework/testCore/src/main/java/com/microsoft/applicationinsights/smoketest/AiSmokeTest.java:142 | ports handed out from 28080 are strictly increasing, so never repeat, while below the wrap |
| Containers.LastContainerId | test/smoke/framework/testCore/src/main/java/com/microsoft/applicationinsights/smoketest/AiSmokeTest.java:223-225 | `peek` gives the id of the most recently pushed container and fails iff the stack is empty |
| Containers.PopOrder | test/smoke/framework/testCore/src/main/java/com/microsoft/applicationinsights/smoketest/AiSmokeTest.java:97-98 | the order in which the drain pops the stack: one entry per stack entry, top first, as `PopOrderAt` states |
| Containers.PopOrderAt | test/smoke/framework/testCore/src/main/java/com/microsoft/applicationinsights/smoketest/AiSmokeTest.java:97-98 | the k-th container popped is the k-th from the top |
| Containers.PopOrderIsPermutation | test/smoke/framework/testCore/src/main/java/com/microsoft/applicationinsights/smoketest/AiSmokeTest.java:97-110 | draining hands each pushed entry to stop exactly as many times as it was pushed |
| Containers.StopBudgetSeconds | test/smoke/framework/testCore/src/main/java/com/microsoft/applicationinsights/smoketest/AiSmokeTest.java:113 | 15 seconds per container; the wait is stated by `Statics.DestroyAllContainers` |
| Containers.Statics.constructor | test/smoke/framework/testCore/src/main/java/com/microsoft/applicationinsights/smoketest/AiSmokeTest.java:141-142 | the stack starts empty and the counter at 28080 |
| Containers.Statics.AllocatePort | test/smoke/framework/testCore/src/main/java/com/microsoft/applicationinsights/smoketest/AiSmokeTest.java:299 | the port returned is the counter before the call, and the counter advances by one `short` increment |
| Containers.Statics.Push | test/smoke/framework/testCore/src/main/java/com/microsoft/applicationinsights/smoketest/AiSmokeTest.java:336 | push appends the container, which becomes the current one |
| Containers.Statics.Pop | test/smoke/framework/testCore/src/main/java/com/microsoft/applicationinsights/smoketest/AiSmokeTest.java:98 | pop returns the top entry and removes it |
| Containers.Statics.StopContainer | test/smoke/framework/testCore/src/main/java/com/microsoft/applicationinsights/smoketest/AiSmokeTest.java:127-139 | the stop of one container is recorded once |
| Containers.Statics.DrainStack | test/smoke/framework/testCore/src/main/java/com/microsoft/applicationinsights/smoketest/AiSmokeTest.java:97-110 | the drain leaves the stack empty, with the stops recorded in pop order |
| Containers.Statics.DestroyAllContainers | test/smoke/framework/testCore/src/main/java/com/microsoft/applicationinsights/smoketest/AiSmokeTest.java:88-125 | no-op on an empty stack; otherwise leaves it empty, hands every entry to stop in LIFO order, and waits up to 15 s per container |
| Ingestion.Accepts | test/smoke/framework/testCore/src/main/java/com/microsoft/applicationinsights/smoketest/AiSmokeTest.java:303-316 | no device-id tag: accepted; tag and empty stack: `peek` fails; tag: accepted iff the current container id starts with it |
| Ingestion.EmptyDeviceIdAccepted | test/smoke/framework/testCore/src/main/java/com/microsoft/applicationinsights/smoketest/AiSmokeTest.java:306-310 | an empty device id is accepted whenever a container is current |
| Ingestion.NewContainerFiltersStale | test/smoke/framework/testCore/src/main/java/com/microsoft/applicationinsights/smoketest/AiSmokeTest.java:306-314 | after a push, tagged telemetry is accepted iff its tag is a prefix of the new container's id |
| Readiness.AcceptBody | test/smoke/framework/testCore/src/main/java/com/microsoft/applicationinsights/smoketest/AiSmokeTest.java:434 | an accepted body is returned iff it is non-empty, else the empty-response failure names the URL |
| Readiness.Retryable | test/smoke/framework/testCore/src/main/java/com/microsoft/applicationinsights/smoketest/AiSmokeTest.java:427-433 | an attempt goes round again when the fetch threw, returned null or returned a body containing "404"; its effect on the poll is stated by `PollIsFirstDecisive` |
| Readiness.Poll | test/smoke/framework/testCore/src/main/java/com/microsoft/applicationinsights/smoketest/AiSmokeTest.java:412-435 | the poll from attempt `i` on; its meaning is stated by the `Poll…` lemmas below and `WaitForUrl` |
| Readiness.PollIsFirstDecisive | test/smoke/framework/testCore/src/main/java/com/microsoft/applicationinsights/smoketest/AiSmokeTest.java:415-433 | the poll's outcome is decided by the first attempt that passes the limit, is interrupted, or fetches a non-null body without "404" |
| Readiness.PollReadyOnlyOnAcceptableBody | test/smoke/framework/testCore/src/main/java/com/microsoft/applicationinsights/smoketest/AiSmokeTest.java:412-435 | the poll returns only a non-empty body without "404", fetched within the limit after earlier attempts all retried |
| Readiness.PollTimeoutIff | test/smoke/framework/testCore/src/main/java/com/microsoft/applicationinsights/smoketest/AiSmokeTest.java:416-418 | the timeout is thrown iff the limit is passed before any attempt decides the poll |
| Readiness.PollEmptyBodyFails | test/smoke/framework/testCore/src/main/java/com/microsoft/applicationinsights/smoketest/AiSmokeTest.java:434 | an accepted empty body is an assertion failure, not a return |
| Readiness.WaitForUrl | test/smoke/framework/testCore/src/main/java/com/microsoft/applicationinsights/smoketest/AiSmokeTest.java:412-435 | the loop computes the poll outcome over the readings and attempts |
| Request.RequestStep | test/smoke/framework/testCore/src/main/java/com/microsoft/applicationinsights/smoketest/AiSmokeTest.java:260-287 | no target: no request; a method other than GET is rejected; a GET that throws fails naming the URL; success iff GET, a non-null non-empty response and, when telemetry is expected, data present; the URL requested is base URL + URI |
| Request.NoAbsenceCheck | test/smoke/framework/testCore/src/main/java/com/microsoft/applicationinsights/smoketest/AiSmokeTest.java:284-286 | when no telemetry is expected, whether data is present does not change the outcome |
| SmokeTest.SmokeTest.constructor | test/smoke/framework/testCore/src/main/java/com/microsoft/applicationinsights/smoketest/AiSmokeTest.java:76-78 | a new instance holds its test case, has no target yet and expects telemetry |
| SmokeTest.UsableId | test/smoke/framework/testCore/src/main/java/com/microsoft/applicationinsights/smoketest/AiSmokeTest.java:332 | `!Strings.isNullOrEmpty(containerId)`: the returned id is present and non-empty; its use is stated by `StartDockerContainer` |
| SmokeTest.SmokeTest.Starting | test/smoke/framework/testCore/src/main/java/com/microsoft/applicationinsights/smoketest/AiSmokeTest.java:174-191 | the instance's target and telemetry expectation become those read from the annotations |
| SmokeTest.SmokeTest.SetupProperties | test/smoke/framework/testCore/src/main/java/com/microsoft/applicationinsights/smoketest/AiSmokeTest.java:296-300 | a missing `testInfo.properties` fails before anything is set; otherwise the properties are loaded, the image name is `server_os_tag`, the port is the counter's old value, and the counter advances |
| SmokeTest.SmokeTest.GetProperty | test/smoke/framework/testCore/src/main/java/com/microsoft/applicationinsights/smoketest/AiSmokeTest.java:406-410 | returns the property's value, or fails naming the missing key |
| SmokeTest.SmokeTest.StartDockerContainer | test/smoke/framework/testCore/src/main/java/com/microsoft/applicationinsights/smoketest/AiSmokeTest.java:329-360 | a null or empty id fails and registers nothing; a usable id is pushed before the server poll and deployment, so it stays registered when they fail |
| SmokeTest.SmokeTest.WaitForApplicationToStart | test/smoke/framework/testCore/src/main/java/com/microsoft/applicationinsights/smoketest/AiSmokeTest.java:254-258 | polls the application base URL for 120 s, named by its app context |
| SmokeTest.SmokeTest.CallTargetUriAndWaitForTelemetry | test/smoke/framework/testCore/src/main/java/com/microsoft/applicationinsights/smoketest/AiSmokeTest.java:260-287 | the request step over the instance's target, base URL and expectation |
| SmokeTest.SmokeTest.SetupEnvironment | test/smoke/framework/testCore/src/main/java/com/microsoft/applicationinsights/smoketest/AiSmokeTest.java:233-243 | the `@Before` sequence, with a frame of only the fields its steps set: a missing properties file changes nothing; otherwise image and port are set, the container is pushed iff ingestion was healthy and the id usable, and an unusable id fails with `ContainerStartFailed`; once the container is pushed, each failing step (server poll, missing WAR property, deployment, application poll, request) gives that step's own error, the WAR name is set exactly when the property was read after the server poll and is otherwise unchanged, and the result passes iff every step succeeded |

## Left out

- Docker (`AiDockerClient`): starting, stopping, copying and deploying, exec and log printing are foreign I/O. The container id and deployment success are inputs, and stop calls are recorded in `Statics.stopped`.
- `HttpHelper.get`/`post` and the mocked ingestion server's internals: storage, `hasData`, `getItemCount`, `getBaseDataForType`/`getTelemetryDataForType`, start/stop/reset and the ping/pong self-check. This is network code in classes that are not part of this model. Responses, `hasData` and the self-check verdict are inputs.
- Sleeps and `Stopwatch`: elapsed time is a sequence of readings, and the fixed 10-second settle wait is not modelled.
- The thread pool, `awaitTermination` and the shutdown hook: the stops run in parallel in the code. The model drains the stack sequentially and returns the wait budget instead of waiting.
- JUnit plumbing: `@Rule`/`failed` log gathering (except `lastContainerId`), `@After` `resetMockedIngestion`, and reading `appServers.txt`, the `.jre.txt` lists and `testInfo.properties`. Their contents are parameters, with a missing resource as `None` (`appServers.txt`, `testInfo.properties`) or as a server absent from the map of tag lists; the OS system property is a parameter too.
- `Properties.load` parsing: the loaded file is given as a map of keys to values, merged into `testProps`.
- `checkParams`: the three parameters are non-null strings by construction, so it cannot fail.
- `doCalcSendsData`: it repeats the poll and request logic with concrete HTTP calls.
- web/src/main/java/com/microsoft/applicationinsights/web/internal/correlation/CorrelationContext.java: it holds an empty list and map, with getters, and has no behaviour to verify.
- Text.ToUpper: maps only the ASCII letters `a`-`z` and so always keeps the length; Java's `toUpperCase()` also maps other letters and can lengthen a string (`ß` becomes `SS`), which is not modelled.
- Metadata.TargetOf: upper-cases ASCII letters only, because Java's locale-dependent Unicode case mapping is not modelled.
- Containers.PortsIncreasing: proved only while ports stay at or below 32767. The `short` wrap after that point is modelled by `NextPort` but produces non-increasing ports.
- Readiness.WaitForUrl: requires the supplied readings to pass the limit by the last attempt. A real stopwatch always gets there, since each attempt sleeps a second.
