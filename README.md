# docker-monitor, modelled in Dafny

This project models the decision logic of docker-monitor. docker-monitor is a small service that watches the containers of one Docker host. It has three parts:

- **Metrics service** (`metrics.dfy`, module `Metrics`). For one container, it derives CPU and memory percentages from the runtime's statistics snapshot. It builds the per-container result dictionary: `status` always, and `cpu` and `mem` only for a running container. It maps Docker client exceptions to HTTP abort codes, using except clauses tried in order. It also queries all running containers with a worker pool of `min(25, n)`.
- **Alarm service** (`alarms.dfy`, module `Alarms`). It classifies container lifecycle events (`die`, `stop`, `start`, `pause`, `unpause`) into alarm records. It consumes the event stream in a loop that subscribes again after an API error.
- **Helpers** (`utils.dfy`, module `Utils`). These cover the default message of a status response, the `=` padding done before base64 decoding, and reading the `service` field from an authentication token.

`options.dfy` holds the `Option` and `Result` wrappers the three modules share.

Calls into the Docker client, the base64 decoder and the JSON parser are not modelled. What they return, a value or a failure, is an input to the model:

- the `DockerClient` record holds the listing, `get` by name and `stats`;
- each `Subscription` holds the events it delivered and how it ended;
- `b64decode` and `parseJson` are function parameters.

Percentages are exact reals.

### Behaviour worth knowing

- The bulk query returns a list of single-key dictionaries in listing order, not one merged mapping.
- The bulk query fails as a whole when any single container fails.
- A failed listing that raises `NotFound` is answered with 500, because that except block names only `ReadTimeout` and `APIError`.
- The CPU percentage is not clamped, so a decreasing CPU counter gives a negative value whenever at least one per-CPU entry is reported.
- The alarm loop catches only `APIError`. Any other exception raised while consuming the stream ends the monitoring thread, so the loop can stop (`Alarms.StopsOnOtherError`).

## Model

| member | source | states |
|---|---|---|
| `Metrics.CpuPercent` | dockermon/metric_handler.py:90-109 | 0 when the system delta is ≤ 0, whatever the CPU delta; otherwise percent × system delta = CPU delta × 100 × number of per-CPU entries; ≥ 0 when the CPU counter did not decrease, and negative (not clamped) when it decreased and at least one per-CPU entry is reported |
| `Metrics.MemPercent` | dockermon/metric_handler.py:111-127 | 0 when the limit is ≤ 0; otherwise percent × limit = usage × 100; between 0 and 100 when 0 ≤ usage ≤ limit |
| `Metrics.WorkedFigures` | dockermon/metric_handler.py:96-127 | total 200/100, system 1100/1000 on two cores gives 200; 512000000 of 1024000000 bytes gives 50 |
| `Metrics.Dispatch` | dockermon/metric_handler.py:62-70 | an exception is handled by the first except clause, in order, whose class it is an instance of; none handles it exactly when no clause's class matches |
| `Metrics.ContainerErrorCodes` | dockermon/metric_handler.py:62-70 | for one container: NotFound → 404 (before the generic APIError clause), ReadTimeout → 408, other APIError → 500, any other exception propagates |
| `Metrics.ListingErrorCodes` | dockermon/metric_handler.py:135-142 | for the listing: ReadTimeout → 408, every APIError including NotFound → 500, any other exception propagates |
| `Metrics.PollShape` | dockermon/metric_handler.py:41-58 | a successful result is keyed by the container's own name only; its entry always holds `status`, holds `cpu` and `mem` exactly when the status is `running`, and these are the derived percentages of the fetched snapshot |
| `Metrics.PollFailure` | dockermon/metric_handler.py:42-70 | one container's query fails exactly when the lookup raises, or when the container runs and fetching its stats raises; either failure, of the lookup or of the statistics call, is that exception passed through the container's except clauses (NotFound → 404, ReadTimeout → 408, other APIError → 500) |
| `Metrics.GetMetricsByContainer` | dockermon/metric_handler.py:31-72 | building the dictionary key by key (entry, status, then cpu and mem when running) gives exactly the specified per-container outcome `Poll` |
| `Metrics.PoolSize` | dockermon/metric_handler.py:85 | the pool size never exceeds 25 nor the number of containers, and equals one of them |
| `Metrics.ListNames` | dockermon/metric_handler.py:129-144 | a successful listing gives the containers' names in listing order; a failed one gives that exception through the listing's except clauses |
| `Metrics.GetMetrics` | dockermon/metric_handler.py:74-88 | a failed listing fails the call with the listing's outcome; otherwise the call returns one result per listed name, in list order, exactly when every query succeeds; if not, there are no partial results, only the failure of some container |
| `Alarms.Classify` | dockermon/alarm_handler.py:40-76 | an alarm exists exactly for die/stop/start/pause/unpause; it has namespace `dojot.docker.container`, domain `docker container status change`, the event's time unchanged and primarySubject {container: actor name, image: actor image}; severity is Major exactly for die, stop and pause |
| `Alarms.ClassificationTable` | dockermon/alarm_handler.py:50-76 | die and stop → "container went down"/Major; start → "container went up"/Clear; pause → "container processes were paused"/Major; unpause → "container processes were unpaused"/Clear |
| `Alarms.StreamAlarms` | dockermon/alarm_handler.py:38-79 | one subscription yields as many alarms as it has monitored events |
| `Alarms.StreamAlarmsAppend` | dockermon/alarm_handler.py:38-79 | consuming a stream in two parts yields the alarms of the first part followed by those of the second |
| `Alarms.AlarmOfEvent` | dockermon/alarm_handler.py:38-79 | the monitored event at position i yields the alarm whose index counts the monitored events before it, so there is one alarm per qualifying event, in stream order |
| `Alarms.AlarmHasEvent` | dockermon/alarm_handler.py:38-79 | every alarm emitted is the classification of some event of the stream |
| `Alarms.Consume` | dockermon/alarm_handler.py:38-79 | the per-subscription for-loop emits exactly the filter-map of `Classify` over the events, in order |
| `Alarms.SurvivesIffNoFatal` | dockermon/alarm_handler.py:36-81 | the loop survives a run of subscriptions exactly when none of them raised an exception other than APIError |
| `Alarms.OpenedUpToFatal` | dockermon/alarm_handler.py:36-81 | every subscription is opened while none raised a non-APIError exception; otherwise the last one opened is the first that did |
| `Alarms.MonitorSplit` | dockermon/alarm_handler.py:36-81 | while the thread survives, the logged alarms split at any subscription boundary into those before and those after it |
| `Alarms.ResubscribeAfterApiError` | dockermon/alarm_handler.py:36-81 | after a subscription ends with APIError, a new one is opened and its events are still classified, their alarms following those logged so far |
| `Alarms.MonitorAcrossReconnects` | dockermon/alarm_handler.py:36-81 | while no subscription raised an exception other than APIError, the log across reconnects is exactly one alarm per monitored event of all streams concatenated, in delivery order |
| `Alarms.StopsOnOtherError` | dockermon/alarm_handler.py:36-81 | a subscription ending with an exception other than APIError is the last one whose alarms are logged |
| `Alarms.Run` | dockermon/alarm_handler.py:29-81 | the loop logs exactly `Monitor(subs)`, opens `Opened(subs)` subscriptions, and stops exactly when some subscription raised a non-APIError exception |
| `Utils.FormatResponse` | dockermon/utils.py:8-15 | a non-empty message is used verbatim with the status; with no or an empty message the message is `ok` for a status in [200, 300) and `Request failed` otherwise; the status is always kept |
| `Utils.DefaultMessage` | dockermon/utils.py:10-15 | the message is never empty, and with no message it reads `ok` exactly when the status is in [200, 300) |
| `Utils.PadBase64` | dockermon/utils.py:27-29 | the padded data keeps the input as prefix, appends only `=`, at most 3 of them, and has a length that is a multiple of 4 |
| `Utils.PadBase64Shortest` | dockermon/utils.py:27-29 | no padding of the input to a multiple of 4 is shorter; input whose length is already a multiple of 4 is passed through unchanged |
| `Utils.PadBase64Idempotent` | dockermon/utils.py:27-29 | padding already padded data changes nothing |
| `Utils.DecodeBase64` | dockermon/utils.py:20-30 | the decoder receives the input padded with `=` to the next multiple of 4 characters |
| `Utils.Split` | dockermon/utils.py:45 | `str.split('.')`: at least one piece, no piece contains the separator, exactly one piece when the string has none |
| `Utils.SplitJoin` | dockermon/utils.py:45 | joining the pieces with the separator gives the string back |
| `Utils.SecondPiece` | dockermon/utils.py:45 | `token.split('.')[1]` is missing exactly when the token has no dot; otherwise it is the text from just after the first dot up to the next dot or the end |
| `Utils.ServiceField` | dockermon/utils.py:48 | `data['service']` succeeds exactly on a JSON object that has the key, and gives its value |
| `Utils.GetAllowedService` | dockermon/utils.py:33-50 | a missing or empty token is a ValueError; a non-empty token without a dot fails with an IndexError that is not converted; a decode, parse or lookup failure is a ValueError; on success the result is `data['service']` of the JSON decoded from the second piece |

## Left out

- Flask routes, error handlers, `jsonify`, `make_response` and `abort` internals (dockermon/metric_handler.py:147-180, dockermon/utils.py:17). Only the chosen status code and the payload's message are modelled.
- Docker client calls (`from_env`, `containers.get`, `containers.list`, `stats`, `events`). They are foreign I/O; their answers are the `DockerClient` and `Subscription` inputs. The client timeout of 3 seconds is not modelled; it surfaces only as a `ReadTimeout` answer.
- ThreadPool concurrency and the daemon thread. The bulk query is modelled as the sequential `map` in list order. When several containers fail at once, the pool re-raises one of their exceptions, depending on timing. `Metrics.GetMetrics` therefore only promises the failure of some container. The model's loop takes the first in list order.
- Metrics.GetMetrics: when the listing is empty, the pool is requested with size 0. The model returns the marker `NoWorkers` and claims no further behaviour for this case.
- The non-termination of `while True`. The model takes a finite sequence of subscriptions instead.
- Float arithmetic. The `float()` conversions of the counters and the rounding of the percentages are replaced by exact reals.
- Malformed statistics or event payloads. A statistics dictionary missing a key (such as `percpu_usage`) raises `KeyError`, and `StatSnapshot` is a well-formed record. An event missing an actor attribute would end its subscription with a non-APIError exception. That case is covered only as an `OtherErrorRaised` ending.
- `base64.decodestring` and `json.loads`. They are library internals, passed in as functions that may fail. The token is treated as a byte string, as `decode_base64`'s docstring expects. Under Python 3 every token with a dot ends in ValueError instead: appending `b'='` to a `str` raises, `decodestring` on a `str` raises `TypeError` when no padding is needed, and `decodestring` is gone from Python 3.9 on.
- `init_tenant_context` (dockermon/utils.py:53-61) refers to names that are not defined in the module, so it is not part of this model.
- dockermon/manager.py (schema glue that only logs) and dockermon/main.py (logging set-up and application start) are not part of this model.
- Logging calls. An alarm is "emitted" by being appended to the logged sequence.
