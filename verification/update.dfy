/** The `POST /update` handler (src/controllers/update.rs): list the
    services, keep those the request names, summarise each one, post one
    image update per kept service in list order, and answer with the
    summaries.

    Every failure on the way is an `unwrap` in the source, so it ends the
    request as a panic; updates already posted by then stay posted. */
module Update {
  import opened Wrappers
  import opened Strings
  import opened ImageRef
  import opened DockerTypes
  import opened Docker

  /** The request body: target repository, target tag, optional service name. */
  datatype UpdateServiceRequest = UpdateServiceRequest(image: string, tag: string, service: Option<string>)

  /** `UpdateServiceResponseData`: one kept service as it was listed. */
  datatype ResponseData = ResponseData(
    id: string,
    version: nat,
    createdAt: Timestamp,
    updatedAt: Timestamp,
    name: string,
    image: string,
    fromTag: string)

  datatype UpdateServiceResponse = UpdateServiceResponse(
    code: string,
    transaction: string,
    message: string,
    args: seq<string>,
    data: seq<ResponseData>)

  /** What the handler panicked on. */
  datatype Panic =
    | ListFailed(error: DockerError)
    | ImageWithoutTag(image: string)
    | UpdateFailed(error: DockerError)

  /** The handler's end: a response, or a panic; either way, the update
      requests posted to the daemon, in order. */
  datatype HandlerOutcome =
    | Responded(response: UpdateServiceResponse, calls: seq<PostRequest>)
    | Panicked(panic: Panic, calls: seq<PostRequest>)

  /** `format!("{}:", payload.image)`. */
  function ImageFilter(req: UpdateServiceRequest): string {
    req.image + ":"
  }

  /** The filter closure: a given name must equal the service's name exactly
      (the image is then ignored); otherwise the image must start with the
      requested repository followed by `:`. */
  predicate Selects(req: UpdateServiceRequest, s: Service) {
    match req.service
    case Some(name) => s.spec.name == name
    case None => StartsWith(s.Image(), ImageFilter(req))
  }

  /** The filtered list. */
  function Select(services: seq<Service>, req: UpdateServiceRequest): (selected: seq<Service>)
    ensures |selected| <= |services|
    ensures forall s :: s in selected <==> s in services && Selects(req, s)
  {
    if |services| == 0 then []
    else (if Selects(req, services[0]) then [services[0]] else []) + Select(services[1..], req)
  }

  /** `a` can be obtained from `b` by deleting elements. */
  ghost predicate IsSubsequence<T>(a: seq<T>, b: seq<T>)
    decreases |b|
  {
    if |a| == 0 then true
    else if |b| == 0 then false
    else if a[0] == b[0] then IsSubsequence(a[1..], b[1..])
    else IsSubsequence(a, b[1..])
  }

  /** Filtering keeps the listed order. */
  lemma {:induction false} SelectIsSubsequence(services: seq<Service>, req: UpdateServiceRequest)
    ensures IsSubsequence(Select(services, req), services)
    decreases |services|
  {
    if |services| > 0 {
      var rest := Select(services[1..], req);
      SelectIsSubsequence(services[1..], req);
      if Selects(req, services[0]) {
        assert Select(services, req) == [services[0]] + rest;
        assert ([services[0]] + rest)[1..] == rest;
      } else {
        assert Select(services, req) == rest;
        if |rest| > 0 {
          assert rest[0] in rest;
          assert rest[0] != services[0];
        }
      }
    }
  }

  /** Filtering a concatenation filters each part. */
  lemma {:induction false} SelectAppend(a: seq<Service>, b: seq<Service>, req: UpdateServiceRequest)
    ensures Select(a + b, req) == Select(a, req) + Select(b, req)
    decreases |a|
  {
    if |a| == 0 {
      assert a + b == b;
    } else {
      assert (a + b)[0] == a[0];
      assert (a + b)[1..] == a[1..] + b;
      SelectAppend(a[1..], b, req);
    }
  }

  /** With a name: kept exactly when the name matches, whatever the image. */
  lemma NameModeSelects(services: seq<Service>, req: UpdateServiceRequest, s: Service)
    requires req.service.Some?
    ensures s in Select(services, req) <==> s in services && s.spec.name == req.service.value
  {
  }

  /** Without a name: kept exactly when the image is `{image}:` followed by
      anything, so the repository must end where the `:` stands. */
  lemma PrefixModeSelects(services: seq<Service>, req: UpdateServiceRequest, s: Service)
    requires req.service.None?
    ensures s in Select(services, req) <==>
      && s in services
      && |req.image| < |s.Image()|
      && s.Image()[..|req.image|] == req.image
      && s.Image()[|req.image|] == ':'
  {
    if |req.image| < |s.Image()| && s.Image()[..|req.image|] == req.image && s.Image()[|req.image|] == ':' {
      assert s.Image()[..|req.image| + 1] == req.image + ":";
    }
  }

  /** `foo:anything` is kept for `foo`, `foobar:1.0` never is. */
  lemma PrefixModeRespectsTagBoundary(s: Service, t: Service, tag: string)
    requires s.Image() == "foo:" + tag
    requires t.Image() == "foobar:1.0"
    ensures Selects(UpdateServiceRequest("foo", tag, None), s)
    ensures !Selects(UpdateServiceRequest("foo", tag, None), t)
  {
    assert t.Image()[..4] != "foo:" by {
      assert t.Image()[3] == 'b';
    }
  }

  /** The summary kept for a listed service. */
  predicate RecordsListed(d: ResponseData, s: Service) {
    && d.id == s.id
    && d.version == s.version.index
    && d.createdAt == s.createdAt
    && d.updatedAt == s.updatedAt
    && d.name == s.spec.name
    && IsParseOf(s.Image(), ImageParts(d.image, d.fromTag))
  }

  /** The `map` closure; `None` where an image without `:` makes it panic. */
  function Summarize(s: Service): (r: Option<ResponseData>)
    ensures r.Some? <==> ':' in s.Image()
    ensures r.Some? ==> RecordsListed(r.value, s)
  {
    match ParseImage(s.Image())
    case None => None
    case Some(parts) =>
      Some(ResponseData(s.id, s.version.index, s.createdAt, s.updatedAt, s.spec.name, parts.repository, parts.tag))
  }

  /** The handler's summary and `ServiceResume` read a service the same way. */
  lemma SummarizeAgreesWithResume(s: Service)
    ensures Summarize(s).Some? <==> ToResume(s).Some?
    ensures Summarize(s).Some? ==>
      var d := Summarize(s).value;
      var r := ToResume(s).value;
      d.id == r.id && d.version == r.version && d.name == r.name && d.image == r.image && d.fromTag == r.tag
  {
  }

  /** A kept service with its summary. */
  datatype Match = Match(data: ResponseData, service: Service)

  /** `.map(...).collect()` over the kept services: summaries in order, or
      the panic of the first service whose image has no `:`. */
  function SummarizeAll(selected: seq<Service>): (r: Result<seq<Match>, Panic>)
    ensures r.Success? <==> forall k :: 0 <= k < |selected| ==> ':' in selected[k].Image()
    ensures r.Success? ==> |r.value| == |selected|
    ensures r.Success? ==> forall k :: 0 <= k < |selected| ==>
      r.value[k].service == selected[k] && RecordsListed(r.value[k].data, selected[k])
    ensures r.Failure? ==> r.error.ImageWithoutTag? && ':' !in r.error.image
    decreases |selected|
  {
    if |selected| == 0 then Success([])
    else
      match Summarize(selected[0])
      case None => Failure(ImageWithoutTag(selected[0].Image()))
      case Some(d) =>
        match SummarizeAll(selected[1..])
        case Failure(p) => Failure(p)
        case Success(rest) => Success([Match(d, selected[0])] + rest)
  }

  /** The update requests posted by the loop, and the error of the last one
      when it failed. */
  datatype UpdateRun = UpdateRun(calls: seq<PostRequest>, failure: Option<DockerError>)

  /** The daemon accepts `post`. */
  predicate Accepted(server: PostRequest -> HttpReply, post: PostRequest) {
    ReadUpdateAnswer(server(post)).Success?
  }

  /** The `for` loop over the planned update requests: each is posted in
      turn until the first refused one, whose error is `unwrap`ped and stops
      the loop. `server` is the daemon. */
  function RunUpdates(posts: seq<PostRequest>, server: PostRequest -> HttpReply): (run: UpdateRun)
    ensures run.calls <= posts
    ensures forall k :: 0 <= k < |run.calls| - 1 ==> Accepted(server, run.calls[k])
    ensures run.failure.None? <==>
      run.calls == posts && forall k :: 0 <= k < |posts| ==> Accepted(server, posts[k])
    ensures run.failure.Some? ==>
      |run.calls| >= 1 && ReadUpdateAnswer(server(run.calls[|run.calls| - 1])) == Failure(run.failure.value)
    decreases |posts|
  {
    if |posts| == 0 then UpdateRun([], None)
    else
      var answer := ReadUpdateAnswer(server(posts[0]));
      if answer.Failure? then
        UpdateRun([posts[0]], Some(answer.error))
      else
        var rest := RunUpdates(posts[1..], server);
        var calls := [posts[0]] + rest.calls;
        assert calls[1..] == rest.calls;
        assert rest.failure.Some? ==> calls[|calls| - 1] == rest.calls[|rest.calls| - 1];
        UpdateRun(calls, rest.failure)
  }

  /** The loop stops at the first refused update and posts nothing after it. */
  lemma {:induction false} RunUpdatesStopsAt(posts: seq<PostRequest>, server: PostRequest -> HttpReply, k: nat)
    requires k < |posts|
    requires forall j :: 0 <= j < k ==> Accepted(server, posts[j])
    requires !Accepted(server, posts[k])
    ensures RunUpdates(posts, server).failure == Some(ReadUpdateAnswer(server(posts[k])).error)
    ensures RunUpdates(posts, server).calls == posts[..k + 1]
    decreases k
  {
    if k > 0 {
      RunUpdatesStopsAt(posts[1..], server, k - 1);
      assert posts[..k + 1] == [posts[0]] + posts[1..][..k];
    }
  }

  /** One update request per kept service, in order: `services_update_image`
      with the service's id and listed version, which is `update_image`. */
  function PlanUpdates(matches: seq<Match>, image: string, tag: string): (posts: seq<PostRequest>)
    ensures |posts| == |matches|
    ensures forall i :: 0 <= i < |matches| ==> posts[i] == UpdateImage(matches[i].service, image, tag).post
  {
    seq(|matches|, i requires 0 <= i < |matches| => UpdatePost(matches[i].service, image, tag))
  }

  /** The services a successful listing offers to the filter. */
  function Selection(docker: Docker, req: UpdateServiceRequest, listed: seq<Service>): seq<Service> {
    Select(ServicesList(docker, Success(listed)).value, req)
  }

  /** `update_service` against the daemon at `docker`: `listed` is the
      decoded list reply, `server` answers each update request, and
      `transaction` is the request's fresh identifier. */
  function UpdateService(
    docker: Docker,
    req: UpdateServiceRequest,
    listed: Result<seq<Service>, DockerError>,
    server: PostRequest -> HttpReply,
    transaction: string): (out: HandlerOutcome)
    ensures listed.Failure? ==> out == Panicked(ListFailed(listed.error), [])
    ensures listed.Success? &&
      (exists k :: 0 <= k < |Selection(docker, req, listed.value)| && ':' !in Selection(docker, req, listed.value)[k].Image())
      ==> out.Panicked? && out.panic.ImageWithoutTag? && out.calls == []
    ensures out.Responded? ==>
      && out.response.code == "200"
      && out.response.message == "Service updated"
      && out.response.transaction == transaction
      && out.response.args == []
  {
    match ServicesList(docker, listed)
    case Failure(e) => Panicked(ListFailed(e), [])
    case Success(services) =>
      match SummarizeAll(Select(services, req))
      case Failure(p) => Panicked(p, [])
      case Success(matches) =>
        var run := RunUpdates(PlanUpdates(matches, req.image, req.tag), server);
        match run.failure
        case Some(e) => Panicked(UpdateFailed(e), run.calls)
        case None =>
          var data := seq(|matches|, i requires 0 <= i < |matches| => matches[i].data);
          Responded(UpdateServiceResponse("200", transaction, "Service updated", [], data), run.calls)
  }

  /** A response lists every kept service as it was listed, in list order,
      and comes after exactly one accepted update per kept service, posted
      in the same order with the version token of that listing. */
  lemma UpdateServiceAnswer(
    docker: Docker, req: UpdateServiceRequest, listed: seq<Service>,
    server: PostRequest -> HttpReply, transaction: string)
    requires UpdateService(docker, req, Success(listed), server, transaction).Responded?
    ensures
      var out := UpdateService(docker, req, Success(listed), server, transaction);
      var selected := Selection(docker, req, listed);
      && |out.response.data| == |selected|
      && |out.calls| == |selected|
      && forall k :: 0 <= k < |selected| ==>
        && RecordsListed(out.response.data[k], selected[k])
        && out.calls[k] == UpdatePost(selected[k], req.image, req.tag)
        && out.calls[k].url == UpdateUrl(selected[k].serviceUrl, out.response.data[k].version)
        && Accepted(server, out.calls[k])
  {
  }

  /** The request is answered exactly when every kept service has a tagged
      image and the daemon accepts every update. */
  lemma UpdateServiceRespondsIff(
    docker: Docker, req: UpdateServiceRequest, listed: seq<Service>,
    server: PostRequest -> HttpReply, transaction: string)
    ensures
      var selected := Selection(docker, req, listed);
      UpdateService(docker, req, Success(listed), server, transaction).Responded? <==>
        && (forall k :: 0 <= k < |selected| ==> ':' in selected[k].Image())
        && (forall k :: 0 <= k < |selected| ==> Accepted(server, UpdatePost(selected[k], req.image, req.tag)))
  {
    var selected := Selection(docker, req, listed);
    var summaries := SummarizeAll(selected);
    if summaries.Success? {
      var posts := PlanUpdates(summaries.value, req.image, req.tag);
      assert forall k :: 0 <= k < |selected| ==> posts[k] == UpdatePost(selected[k], req.image, req.tag);
    }
  }

  /** No kept service: no update is posted and the answer lists nothing. */
  lemma UpdateServiceNoMatch(
    docker: Docker, req: UpdateServiceRequest, listed: seq<Service>,
    server: PostRequest -> HttpReply, transaction: string)
    requires |Selection(docker, req, listed)| == 0
    ensures UpdateService(docker, req, Success(listed), server, transaction)
      == Responded(UpdateServiceResponse("200", transaction, "Service updated", [], []), [])
  {
  }

  /** Without a service name, no kept image lacks a tag, so the handler can
      only panic on the list or on an update. */
  lemma PrefixModeNeverPanicsOnTag(
    docker: Docker, req: UpdateServiceRequest, listed: Result<seq<Service>, DockerError>,
    server: PostRequest -> HttpReply, transaction: string)
    requires req.service.None?
    ensures !UpdateService(docker, req, listed, server, transaction).Panicked?
         || !UpdateService(docker, req, listed, server, transaction).panic.ImageWithoutTag?
  {
    if listed.Success? {
      var selected := Selection(docker, req, listed.value);
      forall k | 0 <= k < |selected|
        ensures ':' in selected[k].Image()
      {
        assert selected[k] in selected;
        RequestedPrefixParses(selected[k].Image(), req.image);
      }
    }
  }

  /** A refused update ends the request: the services before it were
      updated, the ones after it are never posted, and no response is sent. */
  lemma UpdateServiceStopsAtFailedUpdate(
    docker: Docker, req: UpdateServiceRequest, listed: seq<Service>,
    server: PostRequest -> HttpReply, transaction: string, k: nat)
    requires
      var selected := Selection(docker, req, listed);
      && k < |selected|
      && (forall j :: 0 <= j < |selected| ==> ':' in selected[j].Image())
      && (forall j :: 0 <= j < k ==> Accepted(server, UpdatePost(selected[j], req.image, req.tag)))
      && !Accepted(server, UpdatePost(selected[k], req.image, req.tag))
    ensures
      var selected := Selection(docker, req, listed);
      var out := UpdateService(docker, req, Success(listed), server, transaction);
      && out == Panicked(UpdateFailed(ReadUpdateAnswer(server(UpdatePost(selected[k], req.image, req.tag))).error), out.calls)
      && |out.calls| == k + 1
      && forall j :: 0 <= j <= k ==> out.calls[j] == UpdatePost(selected[j], req.image, req.tag)
  {
    var selected := Selection(docker, req, listed);
    var posts := PlanUpdates(SummarizeAll(selected).value, req.image, req.tag);
    assert forall j :: 0 <= j < |selected| ==> posts[j] == UpdatePost(selected[j], req.image, req.tag);
    RunUpdatesStopsAt(posts, server, k);
  }

  /** The worked example: one service `web` running `app:1.0` at version 5. */
  function ExampleWeb(created: Timestamp, updated: Timestamp): Service {
    var container := ContainerSpec("app:1.0", None, None, None, None, None, None, None, None);
    var spec := ServiceSpec("web", None, TaskTemplate(container, None, None, None, None, None), None, None);
    Service("w1", ServiceVersion(5), created, updated, spec, None, None, None, "")
  }

  /** The example's listing keeps `web` for a request for `app`. */
  lemma ExampleSelection(created: Timestamp, updated: Timestamp, tag: string)
    ensures
      var web := ExampleWeb(created, updated);
      Selection(Build(Builder()), UpdateServiceRequest("app", tag, None), [web])
        == [WithServiceHttp(web, DefaultHttpUrl)]
  {
    var web := ExampleWeb(created, updated);
    var req := UpdateServiceRequest("app", tag, None);
    var listedWeb := WithServiceHttp(web, DefaultHttpUrl);
    assert ServicesList(Build(Builder()), Success([web])).value == [listedWeb];
    assert Selects(req, listedWeb) by {
      assert "app:1.0"[..4] == "app:";
    }
    assert Select([listedWeb], req) == [listedWeb];
  }

  /** The example's summary reads `app` and `1.0` out of `app:1.0`. */
  lemma ExampleSummary(created: Timestamp, updated: Timestamp)
    ensures
      var listedWeb := WithServiceHttp(ExampleWeb(created, updated), DefaultHttpUrl);
      var d := ResponseData("w1", 5, created, updated, "web", "app", "1.0");
      SummarizeAll([listedWeb]) == Success([Match(d, listedWeb)])
  {
    var listedWeb := WithServiceHttp(ExampleWeb(created, updated), DefaultHttpUrl);
    var d := ResponseData("w1", 5, created, updated, "web", "app", "1.0");
    assert ParseImage("app:1.0") == Some(ImageParts("app", "1.0")) by {
      assert FormatImage("app", "1.0") == "app:1.0";
      assert ':' !in "app" && ':' !in "1.0" && '@' !in "1.0";
      ParseFormatImage("app", "1.0");
    }
    assert Summarize(listedWeb) == Some(d);
    assert [listedWeb][1..] == [];
    assert [Match(d, listedWeb)] + [] == [Match(d, listedWeb)];
  }

  /** The example's update request: the service's update address with
      version 5, and the container image `app:2.0`. */
  lemma ExamplePost(created: Timestamp, updated: Timestamp)
    ensures
      var post := UpdatePost(WithServiceHttp(ExampleWeb(created, updated), DefaultHttpUrl), "app", "2.0");
      && post.url == "http://localhost:8080" + "/services/" + "w1" + "/update?version=" + "5"
      && post.body.Image() == "app:2.0"
  {
    assert NatToString(5) == "5" by {
      assert DigitChar(5) == '5';
    }
  }

  /** The example's handler run: one accepted request and one summary. */
  lemma ExampleRun(created: Timestamp, updated: Timestamp, server: PostRequest -> HttpReply)
    requires forall p :: server(p).Answered? && IsSuccessStatus(server(p).status)
    ensures
      var listedWeb := WithServiceHttp(ExampleWeb(created, updated), DefaultHttpUrl);
      var d := ResponseData("w1", 5, created, updated, "web", "app", "1.0");
      UpdateService(Build(Builder()), UpdateServiceRequest("app", "2.0", None),
                    Success([ExampleWeb(created, updated)]), server, "t")
        == Responded(UpdateServiceResponse("200", "t", "Service updated", [], [d]), [UpdatePost(listedWeb, "app", "2.0")])
  {
    var listedWeb := WithServiceHttp(ExampleWeb(created, updated), DefaultHttpUrl);
    var d := ResponseData("w1", 5, created, updated, "web", "app", "1.0");
    ExampleSelection(created, updated, "2.0");
    ExampleSummary(created, updated);
    var post := UpdatePost(listedWeb, "app", "2.0");
    assert PlanUpdates([Match(d, listedWeb)], "app", "2.0") == [post];
    assert RunUpdates([post], server) == UpdateRun([post], None);
  }

  /** `app` to `2.0` against the example service, with a daemon that accepts
      every update: one request to the service's update address with
      version 5 and image `app:2.0`, and one summary with tag `1.0`. */
  lemma UpdateServiceExample(created: Timestamp, updated: Timestamp, server: PostRequest -> HttpReply)
    requires forall p :: server(p).Answered? && IsSuccessStatus(server(p).status)
    ensures
      var out := UpdateService(Build(Builder()), UpdateServiceRequest("app", "2.0", None),
                               Success([ExampleWeb(created, updated)]), server, "t");
      && out.Responded?
      && |out.calls| == 1
      && out.calls[0].url == "http://localhost:8080" + "/services/" + "w1" + "/update?version=" + "5"
      && out.calls[0].body.Image() == "app:2.0"
      && out.response.data == [ResponseData("w1", 5, created, updated, "web", "app", "1.0")]
  {
    ExampleRun(created, updated, server);
    ExamplePost(created, updated);
  }
}
