/** The exceptions and assertion failures the smoke-test harness can raise. */
module Errors {

  datatype Error =
    /** `Resources.getResource` found no resource of that name. */
    | MissingResource(name: string)
    /** The container engine returned a null or empty container id. */
    | ContainerStartFailed(imageName: string)
    /** `waitForUrl` saw the elapsed time pass its limit. */
    | ReadinessTimeout(appName: string)
    /** `waitForUrl` accepted a response that was empty. */
    | EmptyHealthResponse(url: string)
    /** The thread was interrupted while sleeping or fetching. */
    | Interrupted
    /** `getProperty` found no value for the key. */
    | PropertyNotFound(key: string)
    /** Copying or deploying the WAR into the container threw. */
    | DeployFailed(warFileName: string)
    /** The target request named a method other than GET. */
    | UnsupportedMethod(httpMethod: string)
    /** `HttpHelper.get` threw while requesting the target URL. */
    | RequestFailed(url: string)
    /** The target request returned null. */
    | NullResponse(targetUri: string)
    /** The target request returned an empty body. */
    | EmptyResponse(targetUri: string)
    /** Telemetry was expected and the mocked ingestion holds none. */
    | NoTelemetry
    /** The mocked ingestion server failed its health or ping self-check. */
    | IngestionUnhealthy
    /** `Stack.peek` on an empty container stack. */
    | EmptyStack
}
