/** The Docker Swarm service record as the updater decodes it
    (src/services/docker/types.rs). Only the fields the updater reads or
    writes are spelled out; every other declared sub-record is kept here as
    its JSON text. The record is the decoded one: keys of the daemon's reply
    that the typed record does not declare are already gone, so they are
    absent from the update body as well. */
module DockerTypes {
  import opened Wrappers

  /** A sub-record the updater never looks inside (mounts, health check,
      placement, endpoint, update status, ...). */
  datatype Opaque = Opaque(json: string)

  /** A `DateTime<Utc>` carried through without interpretation. */
  datatype Timestamp = Timestamp(rfc3339: string)

  datatype ContainerSpec = ContainerSpec(
    image: string,
    labels: Option<map<string, string>>,
    args: Option<seq<string>>,
    env: Option<seq<string>>,
    privileges: Option<Opaque>,
    mounts: Option<seq<Opaque>>,
    configs: Option<seq<Opaque>>,
    healthCheck: Option<Opaque>,
    isolation: Option<string>)

  datatype TaskTemplate = TaskTemplate(
    containerSpec: ContainerSpec,
    resources: Option<Opaque>,
    placement: Option<Opaque>,
    networks: Option<seq<Opaque>>,
    forceUpdate: Option<nat>,
    runtime: Option<string>)

  datatype ServiceSpec = ServiceSpec(
    name: string,
    labels: Option<map<string, string>>,
    taskTemplate: TaskTemplate,
    mode: Option<Opaque>,
    endpointSpec: Option<Opaque>)
  {
    /** The container image reference, `repository:tag[@digest]`. */
    function Image(): string {
      taskTemplate.containerSpec.image
    }
  }

  /** The optimistic-concurrency token; only ever read and echoed back. */
  datatype ServiceVersion = ServiceVersion(index: nat)

  /** `serviceUrl` is the service's own API address, filled in after listing
      (`service_http_url` in the source). */
  datatype Service = Service(
    id: string,
    version: ServiceVersion,
    createdAt: Timestamp,
    updatedAt: Timestamp,
    spec: ServiceSpec,
    previousSpec: Option<ServiceSpec>,
    endpoint: Option<Opaque>,
    updateStatus: Option<Opaque>,
    serviceUrl: string)
  {
    function Image(): string {
      spec.Image()
    }
  }
}
