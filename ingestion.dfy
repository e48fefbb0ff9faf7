/**
 * The ingestion filter the harness installs on the mocked ingestion server: it keeps
 * telemetry from the container under test and drops telemetry that a container
 * started earlier is still sending.
 */
module Ingestion {
  import opened Wrappers
  import opened Errors
  import opened Containers

  /** A telemetry envelope; only its tag map matters to the filter. */
  datatype Envelope = Envelope(tags: map<string, string>)

  const DeviceIdTag: string := "ai.device.id"

  /**
   * The filter predicate: an envelope without a device id is kept; otherwise it is
   * kept when the current container's id starts with that device id. Looking up the
   * current container throws when no container has been pushed.
   */
  function Accepts(envelope: Envelope, stack: seq<ContainerInfo>): (r: Result<bool, Error>)
    ensures DeviceIdTag !in envelope.tags ==> r == Success(true)
    ensures DeviceIdTag in envelope.tags && stack == [] ==> r == Failure(EmptyStack)
    ensures DeviceIdTag in envelope.tags && stack != [] ==>
              r == Success(envelope.tags[DeviceIdTag] <= stack[|stack| - 1].containerId)
  {
    if DeviceIdTag !in envelope.tags then
      Success(true)
    else
      match LastContainerId(stack)
      case Failure(e) => Failure(e)
      case Success(containerId) => Success(envelope.tags[DeviceIdTag] <= containerId)
  }

  /** An empty device id is a prefix of every id: kept whenever some container is current. */
  lemma EmptyDeviceIdAccepted(envelope: Envelope, stack: seq<ContainerInfo>)
    requires DeviceIdTag in envelope.tags && envelope.tags[DeviceIdTag] == ""
    requires stack != []
    ensures Accepts(envelope, stack) == Success(true)
  {
  }

  /**
   * Once a new container is pushed, telemetry tagged by an earlier container is
   * dropped unless that container's device id is also a prefix of the new id,
   * and telemetry tagged with a prefix of the new id is kept.
   */
  lemma NewContainerFiltersStale(stack: seq<ContainerInfo>, started: ContainerInfo, envelope: Envelope)
    requires DeviceIdTag in envelope.tags
    ensures Accepts(envelope, stack + [started]) == Success(envelope.tags[DeviceIdTag] <= started.containerId)
  {
  }
}
