/** The Docker API client (src/services/docker/mod.rs): the builder that
    fixes the daemon's base URL, the service listing, the image rewrite of a
    service together with the update request it sends, the reading of the
    daemon's answer, and the `ServiceResume` summary.

    The two HTTP exchanges are not performed here: the list reply and the
    answer to an update request are given as values. */
module Docker {
  import opened Wrappers
  import opened Strings
  import opened ImageRef
  import opened DockerTypes

  /** `DockerError`: a transport failure, an undecodable reply, or an update
      the daemon refused (with the body of its answer). */
  datatype DockerError =
    | DockerApiError(message: string)
    | ParsingError(message: string)
    | ServiceUpdateError(body: string)

  const DefaultHttpUrl: string := "http://localhost:8080"

  /** The service label that mirrors the image for stack tooling. */
  const StackImageLabel: string := "com.docker.stack.image"

  datatype DockerBuilder = DockerBuilder(httpUrl: string)

  datatype Docker = Docker(httpUrl: string)

  /** `DockerBuilder::builder()`. */
  function Builder(): DockerBuilder {
    DockerBuilder(DefaultHttpUrl)
  }

  /** `DockerBuilder::default()`. */
  function DefaultBuilder(): DockerBuilder {
    Builder()
  }

  /** `with_http_url`. */
  function WithHttpUrl(b: DockerBuilder, httpUrl: string): DockerBuilder {
    b.(httpUrl := httpUrl)
  }

  /** `build`, which hands the URL to `Docker::new`. */
  function Build(b: DockerBuilder): Docker {
    Docker(b.httpUrl)
  }

  /** A builder left alone talks to the local default address; one given a
      URL talks to exactly that URL, whatever it held before. */
  lemma BuildUsesUrl(b: DockerBuilder, httpUrl: string)
    ensures Build(Builder()).httpUrl == "http://localhost:8080"
    ensures Build(DefaultBuilder()) == Build(Builder())
    ensures Build(WithHttpUrl(b, httpUrl)).httpUrl == httpUrl
  {
  }

  /** The address of the service collection, `{http_url}/services`. */
  function ServicesUrl(d: Docker): string {
    d.httpUrl + "/services"
  }

  /** `Service::with_service_http`: record the service's own address. */
  function WithServiceHttp(s: Service, httpUrl: string): (r: Service)
    ensures r.serviceUrl == httpUrl + "/services/" + s.id
    ensures r.(serviceUrl := s.serviceUrl) == s
  {
    s.(serviceUrl := httpUrl + "/services/" + s.id)
  }

  /** `Docker::services_list`, given the decoded reply of `GET {http_url}/services`:
      an error is passed on, and every listed service, in the daemon's order,
      gets its address under the collection and is otherwise unchanged. */
  function ServicesList(d: Docker, reply: Result<seq<Service>, DockerError>): (r: Result<seq<Service>, DockerError>)
    ensures reply.Failure? ==> r == Failure(reply.error)
    ensures reply.Success? ==> r.Success? && |r.value| == |reply.value|
    ensures reply.Success? ==> forall i :: 0 <= i < |r.value| ==>
      && r.value[i].(serviceUrl := reply.value[i].serviceUrl) == reply.value[i]
      && r.value[i].serviceUrl == ServicesUrl(d) + "/" + reply.value[i].id
  {
    match reply
    case Failure(e) => Failure(e)
    case Success(services) =>
      Success(seq(|services|, i requires 0 <= i < |services| => WithServiceHttp(services[i], d.httpUrl)))
  }

  /** An update request: the URL with the version token and the spec body. */
  datatype PostRequest = PostRequest(url: string, body: ServiceSpec)

  /** What `update_image` leaves behind: the rewritten service and the
      request it posts. */
  datatype Rewrite = Rewrite(service: Service, post: PostRequest)

  /** The labels after the rewrite: a present map gains (or overwrites) the
      stack-image label and keeps every other entry; an absent map stays absent. */
  predicate StackLabelSynced(before: Option<map<string, string>>, after: Option<map<string, string>>, image: string) {
    match before
    case None => after.None?
    case Some(m) =>
      && after.Some?
      && after.value.Keys == m.Keys + {StackImageLabel}
      && after.value[StackImageLabel] == image
      && forall k :: k in m && k != StackImageLabel ==> after.value[k] == m[k]
  }

  /** `after` is `before` with at most the container image and the service
      labels replaced. */
  predicate ChangesOnlyImageAndLabels(before: Service, after: Service) {
    var spec := before.spec;
    var container := spec.taskTemplate.containerSpec.(image := after.Image());
    after == before.(spec := spec.(labels := after.spec.labels, taskTemplate := spec.taskTemplate.(containerSpec := container)))
  }

  function SyncStackLabel(labels: Option<map<string, string>>, image: string): (r: Option<map<string, string>>)
    ensures StackLabelSynced(labels, r, image)
  {
    match labels
    case None => None
    case Some(m) => Some(m[StackImageLabel := image])
  }

  /** The query the update is posted to: `{service url}/update?version={index}`. */
  function UpdateUrl(serviceUrl: string, index: nat): string {
    serviceUrl + "/update?version=" + NatToString(index)
  }

  /** The spec `update_image` sends: the container image replaced by
      `image:tag`, the stack-image label kept in step, nothing else touched. */
  function RewriteSpec(spec: ServiceSpec, image: string, tag: string): ServiceSpec {
    var newImage := FormatImage(image, tag);
    spec.(
      labels := SyncStackLabel(spec.labels, newImage),
      taskTemplate := spec.taskTemplate.(containerSpec := spec.taskTemplate.containerSpec.(image := newImage)))
  }

  /** The request `update_image` posts for a listed service. */
  function UpdatePost(s: Service, image: string, tag: string): PostRequest {
    PostRequest(UpdateUrl(s.serviceUrl, s.version.index), RewriteSpec(s.spec, image, tag))
  }

  /** `Service::update_image` up to the send: point the container at
      `image:tag`, keep the stack-image label in step, and post the whole
      spec with the version token the service was listed with. */
  function UpdateImage(s: Service, image: string, tag: string): (r: Rewrite)
    ensures r.service.Image() == FormatImage(image, tag)
    ensures StackLabelSynced(s.spec.labels, r.service.spec.labels, FormatImage(image, tag))
    ensures ChangesOnlyImageAndLabels(s, r.service)
    ensures r.post.url == UpdateUrl(s.serviceUrl, s.version.index)
    ensures r.post.body == r.service.spec
  {
    Rewrite(s.(spec := RewriteSpec(s.spec, image, tag)), UpdatePost(s, image, tag))
  }

  /** The version token can be read back from the update URL, and the URL
      starts with the service's own address. */
  lemma UpdateUrlCarriesVersion(serviceUrl: string, index: nat)
    ensures StartsWith(UpdateUrl(serviceUrl, index), serviceUrl + "/update?version=")
    ensures AllDigits(UpdateUrl(serviceUrl, index)[|serviceUrl + "/update?version="|..])
    ensures DigitsValue(UpdateUrl(serviceUrl, index)[|serviceUrl + "/update?version="|..]) == index
  {
    var prefix := serviceUrl + "/update?version=";
    assert UpdateUrl(serviceUrl, index)[|prefix|..] == NatToString(index);
    DigitsValueOfNatToString(index);
  }

  /** Rewriting twice with the same image changes nothing more. */
  lemma UpdateImageIdempotent(s: Service, image: string, tag: string)
    ensures UpdateImage(UpdateImage(s, image, tag).service, image, tag).service == UpdateImage(s, image, tag).service
  {
    var once := UpdateImage(s, image, tag).service;
    var twice := UpdateImage(once, image, tag).service;
    match s.spec.labels
    case None =>
    case Some(m) =>
      assert twice.spec.labels.value == once.spec.labels.value;
  }

  /** The image written by the rewrite reads back as the requested
      repository and tag, provided they hold no separator. */
  lemma UpdateImageReadsBack(s: Service, image: string, tag: string)
    requires ':' !in image
    requires ':' !in tag && '@' !in tag
    ensures ParseImage(UpdateImage(s, image, tag).service.Image()) == Some(ImageParts(image, tag))
  {
    ParseFormatImage(image, tag);
  }

  /** The daemon's answer to an update request: a status and body, or a
      failure before any answer arrived. */
  datatype HttpReply = Answered(status: nat, body: string) | TransportFailed(error: DockerError)

  /** `StatusCode::is_success`. */
  predicate IsSuccessStatus(status: nat) {
    200 <= status <= 299
  }

  /** The end of `update_image`: a 2xx answer is `Ok("Service updated")`,
      any other answer is a `ServiceUpdateError` carrying the body, and a
      transport failure is passed on. */
  function ReadUpdateAnswer(reply: HttpReply): (r: Result<string, DockerError>)
    ensures r.Success? <==> reply.Answered? && IsSuccessStatus(reply.status)
    ensures r.Success? ==> r.value == "Service updated"
    ensures reply.Answered? && !IsSuccessStatus(reply.status) ==> r == Failure(ServiceUpdateError(reply.body))
    ensures reply.TransportFailed? ==> r == Failure(reply.error)
  {
    match reply
    case TransportFailed(e) => Failure(e)
    case Answered(status, body) =>
      if IsSuccessStatus(status) then Success("Service updated") else Failure(ServiceUpdateError(body))
  }

  /** `ServiceResume`, the short description of a service. */
  datatype ServiceResume = ServiceResume(
    id: string,
    version: nat,
    createdAt: Timestamp,
    updatedAt: Timestamp,
    name: string,
    image: string,
    tag: string)

  /** `From<Service> for ServiceResume`; `None` where the image has no `:`
      and the conversion panics. */
  function ToResume(s: Service): (r: Option<ServiceResume>)
    ensures r.Some? <==> ':' in s.Image()
    ensures r.Some? ==> && r.value.id == s.id
                        && r.value.version == s.version.index
                        && r.value.name == s.spec.name
                        && r.value.createdAt == s.createdAt
                        && r.value.updatedAt == s.updatedAt
                        && IsParseOf(s.Image(), ImageParts(r.value.image, r.value.tag))
  {
    match ParseImage(s.Image())
    case None => None
    case Some(parts) =>
      Some(ServiceResume(s.id, s.version.index, s.createdAt, s.updatedAt, s.spec.name, parts.repository, parts.tag))
  }
}
