/**
 * The per-test part of `AiSmokeTest`: the fields a test instance carries and the
 * `@Before` steps that fill them, sharing the process-wide container state.
 */
module SmokeTest {
  import opened Wrappers
  import opened Errors
  import opened Parameters
  import opened Naming
  import opened Metadata
  import opened Containers
  import opened Readiness
  import opened Request

  /** The property that names the WAR file to deploy. */
  const WarFileProperty: string := "ai.smoketest.testAppWarFile"

  /** Limits, in seconds, of the two readiness polls. */
  const AppServerReadyTimeoutSeconds: int := 90
  const ApplicationReadyTimeoutSeconds: int := 120

  const AppServerLabel: string := "app server"

  /** The resource `setupProperties` loads the test properties from. */
  const TestConfigFileName: string := "testInfo.properties"

  /** The container id the engine returned is usable: `!Strings.isNullOrEmpty(containerId)`. */
  predicate UsableId(returnedId: Option<string>)
  {
    returnedId.Some? && returnedId.value != ""
  }

  /**
   * What the outside world does during one `setupEnvironment`: the loaded test
   * properties (`None` when the resource is missing), the ingestion self-check,
   * the engine's container id, the two readiness polls, the WAR deployment, what
   * the target request did and whether the ingestion server holds data after the
   * settle wait.
   */
  datatype Environment = Environment(
    props: Option<map<string, string>>,
    ingestionHealthy: bool,
    returnedId: Option<string>,
    serverReadings: seq<int>, serverAttempts: seq<Attempt>,
    deployed: bool,
    appReadings: seq<int>, appAttempts: seq<Attempt>,
    response: Response,
    hasData: bool)

  predicate WellFormedEnvironment(env: Environment)
  {
    && WellFormedRun(env.serverReadings, env.serverAttempts, AppServerReadyTimeoutSeconds)
    && WellFormedRun(env.appReadings, env.appAttempts, ApplicationReadyTimeoutSeconds)
  }

  class SmokeTest {
    /** The process-wide static fields. */
    const statics: Statics
    /** The three `@Parameter` fields, set by the parameterised runner. */
    const appServer: string
    const os: string
    const jreVersion: string

    var testProps: map<string, string>
    var currentImageName: string
    var warFileName: Option<string>
    var appServerPort: int
    var target: Option<Target>
    var expectSomeTelemetry: bool

    /** A fresh instance for one test case; reference fields still null, telemetry expected. */
    constructor (statics: Statics, testCase: TestCase)
      ensures this.statics == statics
      ensures appServer == testCase.appServer && os == testCase.os && jreVersion == testCase.jreVersion
      ensures testProps == map[] && warFileName == None && target == None && expectSomeTelemetry
    {
      this.statics := statics;
      appServer := testCase.appServer;
      os := testCase.os;
      jreVersion := testCase.jreVersion;
      testProps := map[];
      currentImageName := "";
      warFileName := None;
      appServerPort := 0;
      target := None;
      expectSomeTelemetry := true;
    }

    /** `theWatchman.starting`: read the test method's `@TargetUri` and `@ExpectSomeTelemetry`. */
    method Starting(targetUri: Option<TargetUriAnnotation>, expectAnnotation: Option<bool>)
      modifies this`target, this`expectSomeTelemetry
      ensures target == TargetOf(targetUri)
      ensures expectSomeTelemetry == ExpectSomeTelemetry(expectAnnotation)
    {
      target := TargetOf(targetUri);
      expectSomeTelemetry := ExpectSomeTelemetry(expectAnnotation);
    }

    /**
     * `setupProperties`: load the test properties into `testProps`, name the image,
     * and take the next port from the shared counter. `loaded` is `None` when
     * `testInfo.properties` is missing; the load then throws before anything is set.
     */
    method SetupProperties(loaded: Option<map<string, string>>) returns (r: Outcome<Error>)
      requires statics.Valid()
      modifies this`testProps, this`currentImageName, this`appServerPort, statics`currentPortNumber
      ensures statics.Valid()
      ensures r.Fail? <==> loaded.None?
      ensures loaded.None? ==>
                && r == Fail(MissingResource(TestConfigFileName))
                && testProps == old(testProps) && currentImageName == old(currentImageName)
                && appServerPort == old(appServerPort)
                && statics.currentPortNumber == old(statics.currentPortNumber)
      ensures loaded.Some? ==>
                && testProps == old(testProps) + loaded.value
                && currentImageName == ImageName(appServer, os, jreVersion)
                && appServerPort == old(statics.currentPortNumber)
                && statics.currentPortNumber == NextPort(old(statics.currentPortNumber))
    {
      if loaded.None? {
        return Fail(MissingResource(TestConfigFileName));
      }
      testProps := testProps + loaded.value;
      currentImageName := ImageName(appServer, os, jreVersion);
      appServerPort := statics.AllocatePort();
      r := Pass;
    }

    /** `getProperty`: the value, or a failure naming the missing key. */
    function GetProperty(key: string): (r: Result<string, Error>)
      reads this
      ensures r.Success? <==> key in testProps
      ensures r.Success? ==> r.value == testProps[key]
      ensures r.Failure? ==> r.error == PropertyNotFound(key)
    {
      if key in testProps then Success(testProps[key]) else Failure(PropertyNotFound(key))
    }

    /**
     * `startDockerContainer`. `returnedId` is what the engine returned, the poll
     * inputs describe the wait for the app server's root URL, and `deployed` says
     * whether copying and deploying the WAR succeeded. The container is pushed as
     * soon as its id is known, so a later failure leaves it registered for teardown.
     */
    method StartDockerContainer(returnedId: Option<string>, readings: seq<int>, attempts: seq<Attempt>, deployed: bool)
      returns (r: Outcome<Error>)
      requires WellFormedRun(readings, attempts, AppServerReadyTimeoutSeconds)
      modifies this`warFileName, statics`containerStack
      ensures !UsableId(returnedId) ==>
                r == Fail(ContainerStartFailed(currentImageName))
                && statics.containerStack == old(statics.containerStack) && warFileName == old(warFileName)
      ensures UsableId(returnedId) ==>
                statics.containerStack == old(statics.containerStack) + [ContainerInfo(returnedId.value, currentImageName)]
      ensures UsableId(returnedId) ==>
                var ready := Poll(readings, attempts, AppServerReadyTimeoutSeconds, ServerUrl(appServerPort), AppServerLabel, 0);
                var war := GetProperty(WarFileProperty);
                && (ready.Failure? ==> r == Fail(ready.error) && warFileName == old(warFileName))
                && (ready.Success? && war.Failure? ==> r == Fail(war.error) && warFileName == old(warFileName))
                && (ready.Success? && war.Success? ==>
                      warFileName == Some(war.value)
                      && r == (if deployed then Pass else Fail(DeployFailed(war.value))))
    {
      if !UsableId(returnedId) {
        return Fail(ContainerStartFailed(currentImageName));
      }
      var containerId := returnedId.value;
      statics.Push(ContainerInfo(containerId, currentImageName));

      var url := ServerUrl(appServerPort);
      var ready := WaitForUrl(url, AppServerReadyTimeoutSeconds, AppServerLabel, readings, attempts);
      if ready.Failure? {
        return Fail(ready.error);
      }

      var war := GetProperty(WarFileProperty);
      if war.Failure? {
        return Fail(war.error);
      }
      warFileName := Some(war.value);
      if !deployed {
        return Fail(DeployFailed(war.value));
      }
      r := Pass;
    }

    /** `waitForApplicationToStart`: poll the application's base URL for up to 120 seconds. */
    method WaitForApplicationToStart(readings: seq<int>, attempts: seq<Attempt>) returns (r: Result<string, Error>)
      requires warFileName.Some?
      requires WellFormedRun(readings, attempts, ApplicationReadyTimeoutSeconds)
      ensures r == Poll(readings, attempts, ApplicationReadyTimeoutSeconds,
                        BaseUrl(appServerPort, warFileName.value), AppContext(warFileName.value), 0)
    {
      r := WaitForUrl(BaseUrl(appServerPort, warFileName.value), ApplicationReadyTimeoutSeconds,
                      AppContext(warFileName.value), readings, attempts);
    }

    /** `callTargetUriAndWaitForTelemetry`; `response` is what the GET did. */
    method CallTargetUriAndWaitForTelemetry(response: Response, hasData: bool)
      returns (r: Result<Option<string>, Error>)
      requires target.Some? ==> warFileName.Some?
      ensures r == RequestStep(target, if warFileName.Some? then BaseUrl(appServerPort, warFileName.value) else "",
                               response, expectSomeTelemetry, hasData)
    {
      var baseUrl := if warFileName.Some? then BaseUrl(appServerPort, warFileName.value) else "";
      r := RequestStep(target, baseUrl, response, expectSomeTelemetry, hasData);
    }

    /**
     * `setupEnvironment`: the `@Before` sequence. The parameters are non-null by
     * construction, so `checkParams` always passes; the ingestion filter installed
     * by `startMockedIngestion` is `Ingestion.Accepts` over the shared stack.
     */
    method SetupEnvironment(env: Environment) returns (r: Outcome<Error>)
      requires statics.Valid() && WellFormedEnvironment(env)
      modifies this`testProps, this`currentImageName, this`appServerPort, this`warFileName
      modifies statics`currentPortNumber, statics`containerStack
      ensures statics.Valid()
      ensures env.props.None? ==>
                && r == Fail(MissingResource(TestConfigFileName))
                && testProps == old(testProps) && currentImageName == old(currentImageName)
                && appServerPort == old(appServerPort)
                && statics.currentPortNumber == old(statics.currentPortNumber)
      ensures env.props.Some? ==>
                && testProps == old(testProps) + env.props.value
                && currentImageName == ImageName(appServer, os, jreVersion)
                && appServerPort == old(statics.currentPortNumber)
                && statics.currentPortNumber == NextPort(old(statics.currentPortNumber))
      ensures env.props.Some? && !env.ingestionHealthy ==> r == Fail(IngestionUnhealthy)
      ensures env.props.Some? && env.ingestionHealthy && UsableId(env.returnedId) ==>
                statics.containerStack == old(statics.containerStack) + [ContainerInfo(env.returnedId.value, currentImageName)]
      ensures !(env.props.Some? && env.ingestionHealthy && UsableId(env.returnedId)) ==>
                statics.containerStack == old(statics.containerStack) && warFileName == old(warFileName)
      ensures env.props.Some? && env.ingestionHealthy && !UsableId(env.returnedId) ==>
                r == Fail(ContainerStartFailed(currentImageName))
      ensures env.props.Some? && env.ingestionHealthy && UsableId(env.returnedId) ==>
                var ready := Poll(env.serverReadings, env.serverAttempts, AppServerReadyTimeoutSeconds,
                                  ServerUrl(appServerPort), AppServerLabel, 0);
                && (ready.Failure? ==> r == Fail(ready.error) && warFileName == old(warFileName))
                && (ready.Success? && WarFileProperty !in testProps ==>
                      r == Fail(PropertyNotFound(WarFileProperty)) && warFileName == old(warFileName))
                && (ready.Success? && WarFileProperty in testProps ==>
                      && warFileName == Some(testProps[WarFileProperty])
                      && (!env.deployed ==> r == Fail(DeployFailed(testProps[WarFileProperty]))))
      ensures env.props.Some? && env.ingestionHealthy && UsableId(env.returnedId)
              && Poll(env.serverReadings, env.serverAttempts, AppServerReadyTimeoutSeconds,
                      ServerUrl(appServerPort), AppServerLabel, 0).Success?
              && WarFileProperty in testProps && env.deployed ==>
                var app := Poll(env.appReadings, env.appAttempts, ApplicationReadyTimeoutSeconds,
                                BaseUrl(appServerPort, testProps[WarFileProperty]), AppContext(testProps[WarFileProperty]), 0);
                var requested := RequestStep(target, BaseUrl(appServerPort, testProps[WarFileProperty]), env.response,
                                             expectSomeTelemetry, env.hasData);
                && (app.Failure? ==> r == Fail(app.error))
                && (app.Success? && requested.Failure? ==> r == Fail(requested.error))
      ensures r.Pass? ==> WarFileProperty in testProps && warFileName == Some(testProps[WarFileProperty])
      ensures r.Pass? <==>
                && env.props.Some? && env.ingestionHealthy && UsableId(env.returnedId)
                && Poll(env.serverReadings, env.serverAttempts, AppServerReadyTimeoutSeconds,
                        ServerUrl(appServerPort), AppServerLabel, 0).Success?
                && WarFileProperty in testProps && env.deployed
                && Poll(env.appReadings, env.appAttempts, ApplicationReadyTimeoutSeconds,
                        BaseUrl(appServerPort, testProps[WarFileProperty]), AppContext(testProps[WarFileProperty]), 0).Success?
                && RequestStep(target, BaseUrl(appServerPort, testProps[WarFileProperty]), env.response,
                               expectSomeTelemetry, env.hasData).Success?
    {
      r := SetupProperties(env.props);
      if r.Fail? {
        return;
      }
      if !env.ingestionHealthy {
        return Fail(IngestionUnhealthy);
      }
      var started := StartDockerContainer(env.returnedId, env.serverReadings, env.serverAttempts, env.deployed);
      if started.Fail? {
        return started;
      }
      var ready := WaitForApplicationToStart(env.appReadings, env.appAttempts);
      if ready.Failure? {
        return Fail(ready.error);
      }
      var requested := CallTargetUriAndWaitForTelemetry(env.response, env.hasData);
      if requested.Failure? {
        return Fail(requested.error);
      }
      r := Pass;
    }
  }
}
