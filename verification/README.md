# Swarm service updater — Dafny model

The updater is a small HTTP service that moves Docker Swarm services to a new
image tag. A `POST /update` request names a repository and a tag, and
optionally one service by name. The handler then:

- lists the services from the Docker API;
- keeps every service with the requested name, or else every service whose image starts with
  `repository:`;
- summarises each kept service by reading the repository and the current tag
  out of its image reference;
- posts one update per kept service, in list order. Each update carries the
  spec with the image replaced and the version token from the listing;
- answers with the summaries.

This project models that request path and the pieces it uses, and proves
properties of them:

- the image-reference split;
- the Docker client: its builder, the service listing, the image rewrite and
  its update URL, the reading of the daemon's answer, and the `ServiceResume`
  summary;
- the configuration defaults and the log-level mapping.

Modules, one per file:

- `Wrappers` (`wrappers.dfy`): `Option` and `Result`.
- `Strings` (`strings.dfy`): the Rust `str` operations the source uses.
  These are `starts_with` and `split` on one character, together with its
  inverse `Join`. They also include ASCII lower-casing and the decimal
  rendering of an integer, together with its inverse `DigitsValue`.
- `ImageRef` (`image_ref.dfy`): `split(':')` then `split('@')` on an image
  reference. `IsParseOf` describes the result independently of the code.
- `DockerTypes` (`docker_types.dfy`): the service record. The sub-records
  the updater never reads are kept opaque.
- `Docker` (`docker.dfy`): `DockerBuilder`, `Docker::services_list`,
  `Service::with_service_http`, `Service::update_image` and `ServiceResume`.
- `Update` (`update.dfy`): the `update_service` handler.
- `Config` (`config.dfy`): `Config::default` and
  `Config::log_level`.

How the model treats the outside world:

- **HTTP.** The two HTTP exchanges are parameters:
  - the list reply is a `Result` value;
  - the daemon's answer to an update request is a total function
    `PostRequest -> HttpReply`.
- **Panics.** Every `unwrap` that can fail becomes a `Panicked` outcome.
  That outcome records the update requests already sent, in order.
- **Transaction identifier.** The request's fresh UUID is a parameter.

### Behaviour of the handler worth knowing

- **A refused update ends the request.** The handler `unwrap`s each update
  result (`src/controllers/update.rs:79-92`). The first refused update
  panics, and the services after it are never posted.
- **An image without `:` panics before any update is sent.** The second
  `unwrap` at `src/controllers/update.rs:63` fails on such an image, and
  `collect()` at line 77 runs it for every kept service before the loop
  starts. With a service name given, such an image can be kept. Without a
  name it never is (`PrefixModeNeverPanicsOnTag`).
- **Updates run one after another.** Each update is awaited before the next
  one is posted (`src/controllers/update.rs:79-92`).
- **With a service name, only the name is compared.** A name that matches
  no service gives an empty answer; the image is not consulted
  (`src/controllers/update.rs:50-52`).
- **`services_update_image` is missing.** The handler calls
  `Docker::services_update_image(id, version, image, tag, service)`
  (`src/controllers/update.rs:81-88`), which `src/services/docker/mod.rs`
  does not define. It is modelled as `Service::update_image` on the listed
  service. That service's `version` field is the `version` the handler passes.
- **`service_http_url` and `ServiceResume` are added to the model.**
  `Service` carries a `service_http_url` field, and `ServiceResume` is a
  record. `src/services/docker/types.rs` declares neither. The model adds the
  field as `serviceUrl` and declares `ServiceResume` with the fields its
  conversion fills.

## Model

| member | source | states |
|---|---|---|
| Strings.Split | src/controllers/update.rs:61-63 | `split` always yields at least one piece, and no piece contains the separator |
| Strings.SplitFirstPiece | src/controllers/update.rs:62 | the first piece of `split` is the whole text up to the first separator, or all of it when there is none |
| Strings.SplitHasSecondPiece | src/controllers/update.rs:63 | `split` has a second piece exactly when the separator occurs, so the second `unwrap` fails exactly on text without it |
| Strings.SplitTail | src/controllers/update.rs:61-63 | the pieces after the first are the pieces of the text after the first separator |
| Strings.JoinSplit | src/controllers/update.rs:61 | gluing the pieces of `split` back together with the separator gives back the original text |
| Strings.SplitJoin | src/controllers/update.rs:61 | splitting pieces that are free of the separator, once joined, gives back those pieces |
| Strings.NatToString | src/services/docker/mod.rs:100-103 | the rendered version token is a non-empty string of decimal digits, and it has a leading zero only for 0 |
| Strings.DigitsValueOfNatToString | src/services/docker/mod.rs:100-103 | reading the rendered version digits back gives the version number |
| Strings.NatToStringInjective | src/services/docker/mod.rs:100-103 | distinct versions render as distinct tokens |
| Strings.LowerAscii | src/config.rs:52 | The result has the input's length, contains no upper-case ASCII letter, and equals the input character by character up to ASCII case. |
| ImageRef.ParseImage | src/controllers/update.rs:61-63 | the repository and tag are read out of an image; this fails exactly when the image has no `:`; when it succeeds, the parts are the text before the first `:` and the text after it up to the next `:` or `@` |
| ImageRef.ParseImageUnique | src/controllers/update.rs:61-63 | any repository/tag pair that fits that description is the parse |
| ImageRef.ParseFormatImage | src/services/docker/mod.rs:104 | an image written as `repository:tag` reads back as that repository and tag, provided neither holds a separator |
| ImageRef.ParseDropsDigest | src/controllers/update.rs:63 | a digest after `@` is dropped from the tag, even when the digest contains `:` |
| ImageRef.RequestedPrefixParses | src/controllers/update.rs:45-63 | an image kept by the `{image}:` filter always has a tag, and its repository is the requested one when that name has no `:` |
| ImageRef.RegistryPortIsMisread | src/controllers/update.rs:61-63 | in `registry:5000/app:1`, the registry port is taken as the tag separator |
| Config.LogLevel | src/config.rs:51-60 | the level whose name matches `log_level` in any ASCII case; INFO for any other text |
| Config.LogLevelIff | src/config.rs:51-60 | a level is chosen exactly when its name is given, or when it is INFO and no level is named |
| Config.LogLevelIgnoresCase | src/config.rs:52 | two spellings that differ only in case select the same level |
| Config.LogLevelOfName | src/config.rs:53-57 | each level's name selects that level, whether written in lower or upper case |
| Config.DefaultConfig | src/config.rs:19-30 | the default port is 3000, the host 0.0.0.0, there are no tokens, the unix socket is on at `/var/run/docker.sock`, and the log level is DEBUG |
| Docker.BuildUsesUrl | src/services/docker/mod.rs:21-39 | a fresh or default builder targets `http://localhost:8080`; `with_http_url` makes the client use exactly the given URL |
| Docker.WithServiceHttp | src/services/docker/mod.rs:119-122 | the service address becomes `{url}/services/{id}`, and no other field changes |
| Docker.ServicesList | src/services/docker/mod.rs:79-89 | a list failure is passed on; otherwise each listed service, in the daemon's order, gets its address under `{url}/services` and is otherwise unchanged |
| Docker.SyncStackLabel | src/services/docker/mod.rs:105-110 | present labels gain the stack-image label set to the new image and keep every other entry; absent labels stay absent |
| Docker.UpdateImage | src/services/docker/mod.rs:99-112 | the container image becomes `image:tag` and the stack label follows it; nothing else in the service changes; the whole new spec is posted to `{service url}/update?version={listed index}` |
| Docker.UpdateUrlCarriesVersion | src/services/docker/mod.rs:100-103 | the update URL starts with the service address, and the listed version index can be read back from it |
| Docker.UpdateImageIdempotent | src/services/docker/mod.rs:104-110 | rewriting a service a second time with the same image changes nothing more |
| Docker.UpdateImageReadsBack | src/services/docker/mod.rs:104 | the written image reads back as the requested repository and tag, when they hold no separator |
| Docker.ReadUpdateAnswer | src/services/docker/mod.rs:112-117 | a 2xx answer is success with "Service updated"; any other status is a `ServiceUpdateError` carrying the body; a transport error is passed on |
| Docker.ToResume | src/services/docker/mod.rs:125-140 | a resume exists exactly when the image has a `:`; it copies id, version index, timestamps and name, and splits the image as described by `IsParseOf` |
| Update.Select | src/controllers/update.rs:47-59 | the kept services are exactly the listed services that pass the filter, and there are never more of them than were listed |
| Update.SelectIsSubsequence | src/controllers/update.rs:47-59 | filtering keeps the listed order |
| Update.SelectAppend | src/controllers/update.rs:47-59 | filtering a concatenation is the concatenation of the filtered parts |
| Update.NameModeSelects | src/controllers/update.rs:50-52 | with a service name, a service is kept exactly when its name matches, whatever its image |
| Update.PrefixModeSelects | src/controllers/update.rs:45-58 | without a name, a service is kept exactly when its image is the requested repository followed by `:` |
| Update.PrefixModeRespectsTagBoundary | src/controllers/update.rs:45 | for `foo`, `foo:…` is kept and `foobar:1.0` is not |
| Update.Summarize | src/controllers/update.rs:60-76 | a summary exists exactly when the image has a `:`; it records the listed id, version, timestamps and name, and the split image |
| Update.SummarizeAgreesWithResume | src/controllers/update.rs:60-76 | the handler's summary and `ServiceResume` read a service identically |
| Update.SummarizeAll | src/controllers/update.rs:60-77 | collecting succeeds exactly when every kept image has a `:`, with one summary per kept service in order; otherwise it panics on an image without `:` |
| Update.RunUpdates | src/controllers/update.rs:79-92 | the requests sent are a prefix of the plan; all but the last were accepted; the run completes exactly when every request is sent and accepted; otherwise the last request's refusal is the error |
| Update.RunUpdatesStopsAt | src/controllers/update.rs:79-92 | when the k-th request is the first refused one, exactly the first k+1 are sent, and the failure is its error |
| Update.PlanUpdates | src/controllers/update.rs:79-88 | one update request per kept service, in order, and request i is the one `update_image` posts for kept service i |
| Update.UpdateService | src/controllers/update.rs:39-104 | a failed listing panics before any update is sent; a kept image without `:` panics with `ImageWithoutTag` before any update is sent; a response always has code "200", message "Service updated", the request's transaction id and no args |
| Update.UpdateServiceAnswer | src/controllers/update.rs:79-103 | a response lists every kept service as it was listed, in order, and follows exactly one accepted update per kept service, sent in the same order with that listing's version token |
| Update.UpdateServiceRespondsIff | src/controllers/update.rs:39-104 | the request is answered exactly when every kept image has a `:` and the daemon accepts every update |
| Update.UpdateServiceNoMatch | src/controllers/update.rs:47-103 | with no kept service, nothing is sent and the answer lists nothing |
| Update.PrefixModeNeverPanicsOnTag | src/controllers/update.rs:45-63 | without a service name, the handler never panics on an image without a tag |
| Update.UpdateServiceStopsAtFailedUpdate | src/controllers/update.rs:79-92 | a refused update ends the request with a panic; the services before it were updated and none after it is sent |
| Update.UpdateServiceExample | src/controllers/update.rs:39-104 | `app` → `2.0` on one service `web` running `app:1.0` at version 5: one request to `…/services/w1/update?version=5` with image `app:2.0`, and one summary with tag `1.0` |

## Left out

- HTTP transport, JSON (de)serialisation and the `reqwest` client are not
  modelled. The list reply and the daemon's answers are inputs. A failure to
  read the answer body is folded into `TransportFailed`.
- `Config::load` is not modelled: it reads files and the environment, and
  exits the process on error.
- `src/main.rs` is not part of this model (axum routing, the tracing setup
  and the socket listener). Neither is `src/controllers/echo.rs`, nor the
  `src/controllers/types.rs` envelope.
- The handler builds its client with `DockerBuilder::builder().build()`. The
  model takes the client as a parameter `docker`, and the example passes
  exactly that default client.
- The logging calls (`info!`, `debug!`) and the UUID generation are not
  modelled; the transaction id is a parameter.
- Sub-records the updater never inspects are kept as opaque JSON text
  (`Opaque`), and timestamps as text (`Timestamp`).
- UpdateImage (`Docker.UpdateImage`): "nothing else changes" is relative to the decoded record.
  The source decodes the list reply into the typed structs of
  `src/services/docker/types.rs` and re-encodes `self.spec` as the update
  body (`src/services/docker/mod.rs:112`). That round trip drops every key
  the structs do not declare (for example `RestartPolicy`, `UpdateConfig`,
  `Secrets`) and every `None` field marked `skip_serializing_if`. The model
  does not represent JSON, so it does not show that loss.
- `u64` version indices and `force_update` are modelled as `nat`. The
  source never does arithmetic on them, so no wrap-around can occur.
- LowerAscii (`Strings.LowerAscii`): models ASCII lower-casing, not Rust's Unicode
  `to_lowercase`. For the five level names the two agree. They differ only on
  non-ASCII text, such as U+212A KELVIN SIGN, which Unicode lowers to `k`.
- The `services_list` unit test needs a live daemon and is not modelled.
