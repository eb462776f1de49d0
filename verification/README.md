# ClubLog HA Bridge — a Dafny model

ClubLog HA Bridge publishes amateur-radio logbook statistics from the
ClubLog web service to Home Assistant. It comes in two forms, and this
project models the core of both.

**The standalone bridge** (`clublog-ha-bridge.py` with `config.py`):
- Configuration is read from environment variables when the process starts.
  A missing credential or broker stops the process.
- One polling loop drives six ClubLog endpoints. Each endpoint has its own
  interval, jittered by up to ten percent, and the first fetches are
  staggered five seconds apart.
- The loop keeps a consecutive-error counter and a last-success time per
  endpoint.
- One HTTP 403 anywhere opens a circuit breaker. The breaker pauses every
  request for an hour and re-staggers all endpoints past the pause.
- Each fetch's result is reduced (DXCC totals, top-ten lists, row
  projections, band totals) and published as retained MQTT discovery
  messages.
- At the end of every wake cycle the loop publishes its own health: an
  `api_status` binary sensor and an `api_consecutive_errors` sensor.

**The Home Assistant integration** (`custom_components/clublog/`):
- A config flow checks the callsign against a regular expression and
  requires three credentials.
- A data-update coordinator runs four fetches per refresh and computes the
  DXCC totals.
- Twelve sensors project the coordinator's data into states and attributes.
- An API-status binary sensor reports whether some endpoint succeeded in the
  last two hours.

How the model is built:
- Pure code becomes functions and lemmas.
- The polling loop becomes the class `Scheduler.PollScheduler`. Its
  `WakeCycle` method changes the scheduler's fields in place and is proved
  against the specification function `Scheduler.Cycle`. The properties of
  the loop are proved about that function in `SchedulerProps`.
- The two DXCC reducers, the loops of the binary sensor's
  `extra_state_attributes` and the coordinator's refresh are methods with
  loops or early returns. Each is proved against a specification function.

Conventions used throughout:
- Time is in whole seconds.
- Python's `None` is `Option.None` or the JSON value `JNull`.
- An evaluation that may raise is an `Eval` value whose `Raised` case stands
  for the exception.
- Dicts of the integration keep insertion order as sequences of pairs. The
  bridge's attribute dicts are maps.

| file | module | what it holds |
|---|---|---|
| text.dfy | Text | ASCII whitespace, case mapping, `str.strip`, decimal digits |
| json.dfy | Json | decoded JSON values, truthiness, `dict.get`, indexing, `sum` |
| wrappers.dfy | Wrappers | `Option` |
| config.dfy | Config | `str_to_bool`, `str_to_int`, the settings read at start-up |
| config_flow.dfy | ConfigFlow | the callsign pattern and the user step of the flow |
| dxcc_stats.dfy | DxccStats | the bridge's and the coordinator's DXCC reducers |
| health.dfy | Health | the two-hour staleness rule and the attribute names |
| scheduler.dfy | Scheduler | the wake cycle: specification and in-place class |
| scheduler_props.dfy | SchedulerProps | what a wake cycle guarantees |
| bridge_status.dfy | BridgeStatus | the bridge's `api_status` and error-total values |
| mqtt.dfy | Mqtt | `publish_sensor` and `publish_binary_sensor` |
| projections.dfy | Projections | row projections shared by bridge and sensors |
| bridge_outputs.dfy | BridgeOutputs | the `_process_*` publishers and the health publishes |
| sensor.dfy | Sensor | the twelve integration sensors |
| binary_sensor.dfy | BinarySensor | the integration's API-status binary sensor |
| coordinator.dfy | Coordinator | one refresh of the integration's coordinator |
| config_examples.dfy, config_flow_examples.dfy, dxcc_examples.dfy | *Examples | the unit tests' inputs, as lemmas |

## Model

| member | source | states |
|---|---|---|
| Config.StrToBool | config.py:10-12 | true exactly when the stripped, lower-cased text is one of "true", "1", "yes", "on" |
| Config.StrToBoolIgnoresCase | config.py:10-12 | two texts equal up to case convert to the same flag |
| Config.StrToBoolIgnoresPadding | config.py:10-12 | surrounding whitespace never changes the flag |
| Config.StrToBoolOfUpper | config.py:10-12 | an upper-case spelling is accepted exactly when its lower-case one is |
| Config.AcceptsLowerCase | config.py:12 | each of "true", "1", "yes" and "on" is accepted |
| Config.RejectsLowerCase | config.py:12 | an unpadded text without upper-case letters and outside the four spellings is rejected |
| Config.DropUnderscores | config.py:18 | the digit group without its underscores is all digits, and a plain digit string is unchanged |
| Config.IntOf | config.py:18 | `int()` succeeds only on text that is not blank once stripped |
| Config.StrToInt | config.py:15-20 | an absent value or one `int()` rejects gives the default; otherwise the value `int()` reads |
| Config.StrToIntRoundTrip | config.py:15-20 | `str_to_int(str(n), d) == n` for every integer n and default d |
| Config.StrToIntIgnoresPadding | config.py:15-20 | whitespace around a decimal number does not change what is read |
| Config.StrToIntRejectsForeignCharacter | config.py:15-20 | a character other than a digit, `_`, `+` or `-` inside the stripped text gives the default |
| Config.IntSetting | config.py:44-50 | an integer variable (an interval or the MQTT port) that is absent or not an integer gives the default |
| Config.IntSettingReads | config.py:44-50 | a variable holding the decimal text of n, padded or not, sets the setting to n |
| Config.DebugDefaultIsOff | config.py:60 | the default "False" reads as debug off |
| Config.LoadConfig | config.py:23-60 | exits for missing credentials exactly when one of the four is empty; exits for the broker exactly when the credentials are present and the broker is empty; a start has non-empty credentials and broker, and the documented defaults for every absent interval, port, prefix, entity base and debug flag |
| Config.LoadConfigReads | config.py:23-60 | a start takes each credential and the broker from its variable, the MQTT user, password, prefix and entity base from theirs when present, the port and the intervals through `str_to_int` and the debug flag through `str_to_bool` |
| ConfigExamples.AcceptsTrue | config.py:12 | "true" is accepted |
| ConfigExamples.AcceptsOn | config.py:12 | "on" is accepted |
| ConfigExamples.AcceptsUpperOn | config.py:12 | "ON" is accepted |
| ConfigExamples.AcceptsUpperTrue | config.py:12 | "TRUE" is accepted |
| ConfigExamples.AcceptsPaddedTrue | config.py:12 | "  true  " is accepted |
| ConfigExamples.AcceptsTrueWithin | config.py:12 | "true" inside any whitespace is accepted |
| ConfigExamples.RejectsFalse | config.py:12 | "false", "0" and "off" are rejected |
| ConfigExamples.RejectsOthers | config.py:12 | "", blanks, "2" and "enabled" are rejected |
| ConfigExamples.ReadsPadded | config.py:15-20 | "  456  " reads as 456 |
| ConfigExamples.ReadsWithin | config.py:15-20 | "456" inside any whitespace reads as 456 |
| ConfigExamples.ReadsNegative | config.py:15-20 | "-1" reads as -1 |
| ConfigExamples.FallsBack | config.py:15-20 | "abc", "" and "3.14" give the default |
| ConfigFlow.DenotesSuffix | custom_components/clublog/config_flow.py:22 | `[A-Z0-9]{0,4}` matches exactly up to four letters and digits |
| ConfigFlow.DenotesDigitThenSuffix | custom_components/clublog/config_flow.py:22 | `[0-9][A-Z0-9]{0,4}` matches exactly a digit and up to four letters and digits |
| ConfigFlow.CallsignPatternShape | custom_components/clublog/config_flow.py:22 | the pattern matches exactly the 2-to-8-character callsigns of letters and digits with a digit at index 1, 2 or 3 followed by at most four characters |
| ConfigFlow.CallsignMatchOfUnpadded | custom_components/clublog/config_flow.py:22 | for text with no trailing whitespace, `match` succeeds exactly on that shape |
| ConfigFlow.CallsignMatchTakesLineFeed | custom_components/clublog/config_flow.py:22 | `$` also accepts a valid callsign followed by one line feed |
| ConfigFlow.Normalise | custom_components/clublog/config_flow.py:37 | the normalised callsign is no longer than the input and has no lower-case letter |
| ConfigFlow.NormaliseIdempotent | custom_components/clublog/config_flow.py:37 | normalising twice is normalising once |
| ConfigFlow.StepUser | custom_components/clublog/config_flow.py:30-67 | a first visit shows the empty form; errors only ever use the key "base"; an invalid callsign always reports `invalid_callsign`; an entry is created exactly when the callsign matches and all three credentials are present, with the normalised callsign as unique id, "ClubLog (<callsign>)" as title and the input as data |
| ConfigFlow.ErrorPriority | custom_components/clublog/config_flow.py:39-46 | each error is reported exactly when all earlier checks pass and its own check fails, in the order callsign, API key, email, app password |
| ConfigFlow.SubmittedFormHasOneError | custom_components/clublog/config_flow.py:36-46 | a submitted form that is shown again carries exactly one error |
| ConfigFlow.EntryIdIsCallsign | custom_components/clublog/config_flow.py:37-54 | a created entry's unique id has the callsign shape and is already normalised |
| ConfigFlow.StepUserIgnoresCallsignCase | custom_components/clublog/config_flow.py:37-54 | changing the callsign's case or surrounding whitespace changes neither the verdict, nor the error, nor the unique id and title |
| ConfigFlowExamples.AcceptsShortest | custom_components/clublog/config_flow.py:22 | "K5" matches |
| ConfigFlowExamples.AcceptsLeadingDigit | custom_components/clublog/config_flow.py:22 | "5B4AHJ" matches |
| ConfigFlowExamples.AcceptsLowerCase | custom_components/clublog/config_flow.py:22 | "kd5qlm" matches under IGNORECASE |
| ConfigFlowExamples.RejectsEmptyAndSingle | custom_components/clublog/config_flow.py:22 | "" and "A" do not match |
| ConfigFlowExamples.RejectsTooLong | custom_components/clublog/config_flow.py:22 | "ABCD1EFGH" does not match |
| ConfigFlowExamples.RejectsNoDigit | custom_components/clublog/config_flow.py:22 | "ABCD" does not match |
| ConfigFlowExamples.RejectsSlash | custom_components/clublog/config_flow.py:22 | "KD5/QLM" does not match |
| ConfigFlowExamples.AllEmptyReportsCallsign | custom_components/clublog/config_flow.py:39-40 | an all-empty form reports `invalid_callsign` |
| ConfigFlowExamples.MissingPasswordReported | custom_components/clublog/config_flow.py:45-46 | a valid form without app password reports `app_password_required` |
| ConfigFlowExamples.PaddedLowerCaseCreatesEntry | custom_components/clublog/config_flow.py:37-54 | "  kd5qlm  " creates the entry "KD5QLM" titled "ClubLog (KD5QLM)" |
| DxccStats.HasStatusSome | clublog-ha-bridge.py:272-277 | an entity has a counted status exactly when one of its bands does |
| DxccStats.EntitiesMembers | clublog-ha-bridge.py:271-277 | an id is in a reducer's set exactly when some row with that id has a band the rule counts |
| DxccStats.ComputeDxccStats | clublog-ha-bridge.py:263-278 | the three counts are the sizes of the worked (any status), confirmed (1 or 3) and verified (3) entity sets |
| DxccStats.CoordinatorStats | custom_components/clublog/coordinator.py:82-96 | the three counts are the sizes of the sets of entities with a status >= 2 (worked), >= 1 (confirmed) and >= 3 (verified) |
| DxccStats.EntitiesMonotone | clublog-ha-bridge.py:271-277 | a rule counting fewer statuses counts fewer entities, all of them ids of the matrix |
| DxccStats.IdsCard | clublog-ha-bridge.py:271 | a matrix of n rows names at most n entities |
| DxccStats.BridgeTotalsOrdered | clublog-ha-bridge.py:263-278 | verified <= confirmed <= worked <= number of entities |
| DxccStats.CoordinatorTotalsOrdered | custom_components/clublog/coordinator.py:82-96 | verified <= worked <= confirmed <= number of entities: worked and confirmed are the other way round |
| DxccStats.WorkedIffSomeBand | clublog-ha-bridge.py:272-273 | the bridge counts an entity as worked exactly when its band map is not empty |
| DxccStats.EmptyBandsNotCounted | clublog-ha-bridge.py:272 | an entity with no bands is counted by no rule |
| DxccStats.EntitiesSnoc | clublog-ha-bridge.py:271-277 | a further row adds exactly its own contribution |
| DxccExamples.SampleWorked | clublog-ha-bridge.py:263-278 | the four-entity test matrix has four worked entities |
| DxccExamples.SampleConfirmed | clublog-ha-bridge.py:263-278 | the test matrix has confirmed entities 1, 100 and 291 |
| DxccExamples.SampleVerified | clublog-ha-bridge.py:263-278 | the test matrix has verified entities 100 and 291 |
| DxccExamples.SampleTotals | clublog-ha-bridge.py:263-278 | the bridge's totals of the test matrix are (4, 3, 2) |
| DxccExamples.EmptyTotals | clublog-ha-bridge.py:263-278 | the empty matrix gives (0, 0, 0) |
| DxccExamples.SeveralBandsCountOnce | clublog-ha-bridge.py:271-277 | an entity with several bands is counted once |
| DxccExamples.ReducersDiverge | custom_components/clublog/coordinator.py:87-92 | a single status-1 band is worked for the bridge but not for the coordinator; a single status-2 band is confirmed for the coordinator but not for the bridge |
| Health.AnyFresh | custom_components/clublog/binary_sensor.py:74 | true exactly when some time stamp is less than two hours old |
| Health.FreshBoundary | custom_components/clublog/binary_sensor.py:24 | a success exactly 7200 s old is stale; one second younger is fresh |
| Health.AnyFreshMonotone | custom_components/clublog/binary_sensor.py:74 | moving a time stamp later never makes the result false |
| Health.AnyFreshExtend | custom_components/clublog/binary_sensor.py:74 | adding a time stamp never makes the result false, and one at `now` makes it true |
| Health.AnyFreshAppend | custom_components/clublog/binary_sensor.py:74 | two lists of time stamps together hold a fresh one exactly when one of them does |
| Health.AnyFreshAntitone | custom_components/clublog/binary_sensor.py:74 | what is fresh at a later time was fresh earlier |
| Health.KeyTextInjective | clublog-ha-bridge.py:386-397 | the texts `<ep>_errors`, `<ep>_last_success`, `<ep>_last_error` and `backoff_remaining_min` never collide for different keys |
| Scheduler.Index | clublog-ha-bridge.py:293-300 | every endpoint has its position in the fixed order |
| Scheduler.StaggerShape | clublog-ha-bridge.py:303-306 | every endpoint is scheduled, the k-th at `base + 5k` |
| Scheduler.StaggerIncreasing | clublog-ha-bridge.py:303-306 | a staggered schedule releases the endpoints strictly one after another, none before `base` |
| Scheduler.IsStagger | clublog-ha-bridge.py:360-361 | a map giving the k-th endpoint `base + 5k` is the staggered schedule |
| Scheduler.RunFrom | clublog-ha-bridge.py:341-371 | every endpoint keeps a due time through the loop |
| Scheduler.StaggerFrom | clublog-ha-bridge.py:303-306 | the enumerate loop produces the staggered schedule |
| Scheduler.PollScheduler.constructor | clublog-ha-bridge.py:293-324 | a new scheduler holds the intervals, the staggered schedule from start-up, no counters, no successes and a closed breaker |
| Scheduler.PollScheduler.TripBreaker | clublog-ha-bridge.py:350-362 | the breaker opens for 3600 s from now and every endpoint is re-staggered past it |
| Scheduler.PollScheduler.Settle | clublog-ha-bridge.py:345-377 | success resets the counter and records the wall time; another failure adds one; the endpoint is then due one jittered interval from now |
| Scheduler.PollScheduler.WakeCycle | clublog-ha-bridge.py:326-377 | the new state and the endpoints called are those of the specification `Scheduler.Cycle` |
| SchedulerProps.DueFromMembers | clublog-ha-bridge.py:341-343 | the endpoints listed are exactly the due ones from a position on |
| SchedulerProps.DueFromSorted | clublog-ha-bridge.py:341 | due endpoints are listed in the dict's key order |
| SchedulerProps.UpToForbiddenShape | clublog-ha-bridge.py:350-362 | cutting at the first 403 keeps a prefix in which only the last endpoint may answer 403, and it does exactly when some endpoint does |
| SchedulerProps.CycleAttemptsDueInOrder | clublog-ha-bridge.py:331-371 | outside a backoff a cycle calls the due endpoints in order, stopping right after the first 403, and reports a trip exactly when some due endpoint answers 403 |
| SchedulerProps.CycleCallsOnlyDue | clublog-ha-bridge.py:331-343 | only due endpoints are called, and only with the breaker closed |
| SchedulerProps.CycleCallsInOrder | clublog-ha-bridge.py:341 | each endpoint called comes later in the order than the previous one, so none is called twice |
| SchedulerProps.AfterFetchAt | clublog-ha-bridge.py:345-377 | one non-403 fetch changes only its own endpoint's bookkeeping and due time |
| SchedulerProps.CycleBookkeeping | clublog-ha-bridge.py:345-371 | after a cycle each counter and success time is reset and stamped on success, one more on a non-403 failure, and untouched when not called or on 403; no endpoint affects another's bookkeeping |
| SchedulerProps.CycleSchedule | clublog-ha-bridge.py:350-377 | a 403 opens the breaker for an hour and re-staggers every endpoint past it; otherwise the breaker is unchanged, called endpoints are due one jittered interval from now and the others keep their due times |
| SchedulerProps.BackoffFreezes | clublog-ha-bridge.py:331-340 | while the breaker is open a cycle changes nothing and calls nothing |
| SchedulerProps.TripSilencesOneHour | clublog-ha-bridge.py:350-362 | after a 403 every cycle of the next hour calls nothing, and every endpoint is due again only after the hour |
| SchedulerProps.StaggerReleasesMatrixFirst | clublog-ha-bridge.py:303-306 | in the first five seconds of a staggered schedule only the matrix is called |
| SchedulerProps.FirstCyclesCallMatrixOnly | clublog-ha-bridge.py:303-343 | the first cycle after start-up calls only the matrix endpoint |
| SchedulerProps.ResumeCallsMatrixOnly | clublog-ha-bridge.py:358-361 | the first cycle in the five seconds after a 403 pause ends calls only the matrix endpoint |
| SchedulerProps.CycleJitter | clublog-ha-bridge.py:66-69 | a rescheduled endpoint is due within a tenth of its interval of `now + interval`; a zero interval makes it due at once and a positive one strictly later than now |
| BridgeStatus.ApiOk | clublog-ha-bridge.py:379-385 | false with no recorded success; otherwise true exactly when some endpoint succeeded less than 7200 s ago |
| BridgeStatus.SuccessReportsApiUp | clublog-ha-bridge.py:345-385 | a cycle in which some endpoint succeeds leaves the API reported up |
| BridgeStatus.StaleReportsApiDown | clublog-ha-bridge.py:379-385 | once every success is two hours old the API is reported down |
| BridgeStatus.AttrNamesDistinct | clublog-ha-bridge.py:386-397 | distinct attribute keys have distinct texts, so no entry overwrites another |
| BridgeStatus.MinutesLeft | clublog-ha-bridge.py:395-397 | the whole minutes left, truncated |
| BridgeStatus.ErrorAttrsAt | clublog-ha-bridge.py:386-397 | a counter appears exactly when nonzero, every recorded success appears with its time, and the minutes left appear exactly while the breaker is open |
| BridgeStatus.StatusAttrs | clublog-ha-bridge.py:386-405 | the attributes are None exactly when no counter is nonzero, no success is recorded and the breaker is closed |
| BridgeStatus.TripShowsSixtyMinutes | clublog-ha-bridge.py:350-397 | right after a 403 the attributes show 60 minutes left; once the hour is over the key is gone |
| BridgeStatus.TotalErrors | clublog-ha-bridge.py:409 | the total is zero exactly when every counter is, and no counter exceeds it |
| BridgeStatus.ErrorSensorAttrs | clublog-ha-bridge.py:410-425 | None exactly when the total is zero; otherwise exactly the nonzero counters |
| BridgeStatus.SuccessesClearErrors | clublog-ha-bridge.py:345-348 | a cycle that calls every endpoint with a nonzero counter and in which every call succeeds leaves the total at zero |
| Mqtt.PublishSensor | clublog-ha-bridge.py:176-216 | attributes (when given), discovery payload on the sensor config topic, then the state, all retained |
| Mqtt.PublishBinarySensor | clublog-ha-bridge.py:219-255 | the same for a binary sensor, with the state "ON" or "OFF" |
| Mqtt.SensorConfigTopics | clublog-ha-bridge.py:190-216 | the payload names the topic the state goes to, and names an attributes topic exactly when attributes are published, the one they go to |
| Mqtt.BinaryConfigPayloads | clublog-ha-bridge.py:234-255 | the payload declares "ON" and "OFF", and the state published is the one `is_on` selects |
| Mqtt.TopicsDistinct | clublog-ha-bridge.py:188-212 | the state, attributes and config topics of one call differ |
| Mqtt.TopicsPerSensor | clublog-ha-bridge.py:190-212 | two sensor ids never share a state or attributes topic |
| Projections.RowShape | clublog-ha-bridge.py:499 | a row raises exactly when a column position is missing, and otherwise holds one entry per column, in order |
| Projections.Rows | clublog-ha-bridge.py:499 | the list raises exactly when some row does, and otherwise has one row per element, in order |
| Projections.FirstRowsShape | clublog-ha-bridge.py:497-501 | the projection describes the first min(20, n) elements in order, and raises exactly when one of those rows does |
| Projections.FirstRowsIgnoresTail | clublog-ha-bridge.py:499 | elements after the twentieth never change the projection |
| Projections.TopTen | clublog-ha-bridge.py:461 | the first min(10, n) entries, in insertion order |
| Projections.BandTotals | clublog-ha-bridge.py:528-535 | raises exactly when some band's total does; otherwise one `band_<b>` entry per band, in order |
| Projections.BandKeysDistinct | clublog-ha-bridge.py:528-535 | distinct bands give distinct attribute names |
| Projections.BandTotalOfHours | clublog-ha-bridge.py:530 | a list of hours totals to its sum; a number passes through |
| BridgeOutputs.ToMapShape | clublog-ha-bridge.py:528-535 | the dict built from the entries has exactly their keys, and each key holds the value of its last entry |
| BridgeOutputs.MatrixStates | clublog-ha-bridge.py:439-455 | six messages with no attributes; the states are worked, confirmed and verified, non-increasing |
| BridgeOutputs.MostWantedOutput | clublog-ha-bridge.py:458-466 | the count is the number of entries; `top_10` always goes out with the first ten entries in order |
| BridgeOutputs.WatchValues | clublog-ha-bridge.py:469-492 | raises exactly when `watch` is not a dict or holds a `clublog_info` that is not one; otherwise four values |
| BridgeOutputs.WatchInfoValues | clublog-ha-bridge.py:472-491 | with a dict `clublog_info`, the total is its `total_qsos` or 0, the last upload its `last_clublog_upload` or "Unknown", and the flags read "Yes" exactly when truthy |
| BridgeOutputs.WatchStates | clublog-ha-bridge.py:469-492 | the four states are total QSOs, expedition flag, OQRS flag and last upload, in that order |
| BridgeOutputs.WatchDefaults | clublog-ha-bridge.py:471-491 | without `clublog_info` the total is 0 and the upload "Unknown"; a flag reads "Yes" exactly when truthy |
| BridgeOutputs.RowsOutput | clublog-ha-bridge.py:495-522 | the count is the full length; the attribute lists the first twenty rows reduced to their columns; nothing is published when one of those rows lacks a column |
| BridgeOutputs.ActivityOutput | clublog-ha-bridge.py:525-541 | the count is the number of bands; attributes always go out, one `band_<b>` per band holding that band's total, empty with no bands |
| BridgeOutputs.BandTotalsToMap | clublog-ha-bridge.py:528-535 | with one entry per band, each `band_<b>` attribute holds the band's sum of hours or its single value |
| BridgeOutputs.StatusPayloadAt | clublog-ha-bridge.py:386-406 | each text key of the status attributes names exactly one entry |
| BridgeOutputs.HealthStatusOutput | clublog-ha-bridge.py:379-406 | `api_status` is "ON" exactly when some endpoint succeeded in the last two hours, and `backoff_remaining_min` is published exactly while the breaker is open |
| BridgeOutputs.HealthErrorsOutput | clublog-ha-bridge.py:409-425 | the error sensor's state is the counter sum, and its attributes go out exactly when the sum is not zero |
| Sensor.NoDataNoState | custom_components/clublog/sensor.py:228-240 | without data every sensor's value and attributes are None and nothing raises |
| Sensor.ExpeditionsSensor | custom_components/clublog/sensor.py:60-75 | the value counts the expeditions; the one attribute lists the first min(20, n) reduced to call, date and QSO count; empty input gives an empty list |
| Sensor.ExpeditionRowFields | custom_components/clublog/sensor.py:68-72 | an expedition of at least three values keeps its first three as call, date and qso_count |
| Sensor.LivestreamRowFields | custom_components/clublog/sensor.py:142-146 | positions 0, 1 and 3 become call, dxcc and url; a three-value stream raises |
| Sensor.LivestreamsSensor | custom_components/clublog/sensor.py:134-149 | the value counts the streams; the attribute lists the first min(20, n), and raises exactly when one of those rows does |
| Sensor.MostWantedSensor | custom_components/clublog/sensor.py:77-89 | the value counts the entries; `top_10` holds the first min(10, n) in order; no attributes for an empty dict |
| Sensor.WatchEmpty | custom_components/clublog/sensor.py:91-132 | with empty watch data all four watch sensors are None |
| Sensor.FlagYesIffTruthy | custom_components/clublog/sensor.py:107-121 | a flag is "Yes" exactly when truthy, otherwise "No" |
| Sensor.WatchFlags | custom_components/clublog/sensor.py:103-122 | the two flags read `is_expedition` and `has_oqrs` |
| Sensor.InfoFieldCases | custom_components/clublog/sensor.py:97-131 | a missing `clublog_info` gives None; a non-dict one raises; inside a dict the field's value or None |
| Sensor.WatchInfo | custom_components/clublog/sensor.py:97-131 | the total reads `total_qsos` and the upload `last_clublog_upload` in `clublog_info` |
| Sensor.BandActivitySensor | custom_components/clublog/sensor.py:151-164 | the value counts the bands; attributes are `band_<b>` with each band's total, None with no activity, and their names are distinct |
| Sensor.NonzeroErrorsSound | custom_components/clublog/sensor.py:174-179 | every attribute is `<ep>_errors` of an endpoint with a positive count, with that count |
| Sensor.NonzeroErrorsComplete | custom_components/clublog/sensor.py:174-179 | every endpoint with a positive count appears |
| Sensor.NonzeroErrorsEmpty | custom_components/clublog/sensor.py:174-179 | no attributes exactly when no count is positive |
| Sensor.TotalZeroIff | custom_components/clublog/sensor.py:173 | a sum of non-negative counters is zero exactly when each is |
| Sensor.ErrorsSensor | custom_components/clublog/sensor.py:166-180 | the value is the sum of the counters; the attributes hold exactly the positive counts, and are None when there are none |
| Sensor.ErrorsQuietIffZero | custom_components/clublog/sensor.py:166-180 | with non-negative counters, no attributes exactly when the value is 0 |
| BinarySensor.IsOn | custom_components/clublog/binary_sensor.py:65-74 | None exactly without data; False with no recorded fetch; True exactly when some fetch is under two hours old |
| BinarySensor.IsOnStaleBoundary | custom_components/clublog/binary_sensor.py:24 | a fetch exactly two hours old turns the sensor off; one second younger keeps it on |
| BinarySensor.IsOnMonotone | custom_components/clublog/binary_sensor.py:74 | moving a success later never turns the sensor off |
| BinarySensor.IsOnExtend | custom_components/clublog/binary_sensor.py:74 | recording one more success never turns it off, and one at `now` turns it on |
| BinarySensor.PutNew | custom_components/clublog/binary_sensor.py:84-89 | assigning a key the dict does not hold appends it at the end |
| BinarySensor.PutKeepsPlace | custom_components/clublog/binary_sensor.py:84-89 | assigning a key the dict already holds keeps the keys and their order |
| BinarySensor.PutLookup | custom_components/clublog/binary_sensor.py:84-89 | after the assignment the key maps to the new value |
| BinarySensor.StatusAttrsComplete | custom_components/clublog/binary_sensor.py:83-89 | every success, every positive count and every recorded error appears under its endpoint's name |
| BinarySensor.StatusAttrsErrorsPositive | custom_components/clublog/binary_sensor.py:85-87 | an `_errors` attribute only carries a positive count recorded for that endpoint |
| BinarySensor.StatusAttrsEmpty | custom_components/clublog/binary_sensor.py:83-90 | None exactly when no success, no positive count and no error is recorded |
| BinarySensor.PutSuccesses | custom_components/clublog/binary_sensor.py:83-84 | the first loop yields one `_last_success` entry per success, in order |
| BinarySensor.PutErrors | custom_components/clublog/binary_sensor.py:85-87 | the second loop appends exactly the positive counts |
| BinarySensor.PutLastErrors | custom_components/clublog/binary_sensor.py:88-89 | the third loop appends one `_last_error` entry per recorded error |
| BinarySensor.ExtraStateAttributes | custom_components/clublog/binary_sensor.py:76-90 | None without data; otherwise the three loops' dict `StatusAttrs`, or None when it is empty |
| Coordinator.UpdateData | custom_components/clublog/coordinator.py:72-116 | fetches run in order, the totals are computed right after the matrix, and the refresh stops at the first failure; data comes back exactly when all four fetches succeed, holding every body and the coordinator's totals; otherwise the failure carries the first failing status, a 403 included |

## Left out

- HTTP and MQTT transport are not modelled: sessions, requests, timeouts, authentication parameters, broker connection and the client's network loop. A fetch is its outcome, and a publish is the message it appends to a log.
- `_jittered` draws a random float. The model takes the drawn offset as a parameter bounded by a tenth of the interval (`Scheduler.JitterBounded`). Floating point is not modelled: times are whole seconds.
- `time.sleep(30)`, signal handling, `RUNNING`, the start-up banner and all logging are left out. This includes the backoff log line printed when the remaining seconds are a multiple of 300.
- `json.dumps` encoding is not modelled, and neither is the key order of the bridge's attribute dicts. Those dicts are maps.
- Home Assistant machinery is left out: `async_setup_entry`, `DeviceInfo`, entity naming, the form schema, the unique-id abort and the coordinator's update interval. `sys.exit` and `print` at start-up become the `Exited` result of `Config.LoadConfig`.
- Text is ASCII. Python's Unicode whitespace, case mapping and digits are not modelled. Neither are `int()`'s other bases and prefixes.
- Some `ClubLogData` fields are read by the sensors and the binary sensor but never defined in `custom_components/clublog/coordinator.py:33-52`: `livestreams`, `activity`, `consecutive_errors`, `last_successful_fetch` and `last_error`. The model takes them as input records (`Sensor.SensorData`, `BinarySensor.StatusData`). It does not model how they would be filled.
- `most_wanted` is declared a list in the coordinator, but the sensor reads it with `.items()`. `Sensor.SensorData` takes it as a dict. The list shape, on which `.items()` raises, is not modelled.
- Coordinator.UpdateData: exceptions other than `aiohttp.ClientError` are not modelled. For example, a body that is not valid JSON would leave the refresh with that exception rather than `UpdateFailed`. The reducer's errors on a malformed matrix are not modelled either: the matrix is taken as a dict of dicts of integers.
- The bridge code records no per-endpoint `last_error` and has no "all endpoints failed" escalation. Neither is modelled.
- Within one wake cycle, the order of the messages published by successive `_process_*` calls is not modelled as one log. Each publisher's log is modelled on its own, and the cycle's bookkeeping separately.
- BinarySensor.ExtraStateAttributes: requires each of the three source dicts to have distinct keys. This is what a Python dict guarantees, and it is how the model's sequences of pairs stand for dicts.
- Scheduler.PollScheduler.WakeCycle: an exception raised by a publish inside a fetcher counts as that endpoint's failure (outcome `Other`). Which messages of that call were already published is not modelled.
- Sensor.ExpeditionsSensor: a row of an expedition that is not a list is modelled only through the indexing rule of `Json.At` (strings index by character, other values raise). Other indexable types are not modelled.

## Findings

The DXCC status codes are fixed by `custom_components/clublog/const.py:52-55` and by the bridge's reducer: 1 = confirmed, 2 = worked but not confirmed, 3 = verified. The coordinator's reducer treats the codes as a ranking instead.

| source | as written | input that shows it | evidently intended | confidence | as-written member | corrected member |
|---|---|---|---|---|---|---|
| custom_components/clublog/coordinator.py:87-92 | status >= 1 counts an entity as confirmed, >= 2 as worked, >= 3 as verified | matrix `{"1": {"20m": 1}}`: confirmed 1, worked 0. Matrix `{"1": {"20m": 2}}`: confirmed 1 for a worked-only entity | any band counts as worked, status 1 or 3 as confirmed and 3 as verified, so verified <= confirmed <= worked | not executed | DxccStats.CoordinatorStats, with DxccStats.CoordinatorTotalsOrdered and DxccExamples.ReducersDiverge | DxccStats.ComputeDxccStats, with DxccStats.BridgeTotalsOrdered |

`Coordinator.UpdateData` models the refresh as written, so it uses `DxccStats.CoordinatorStats`. The corrected rule is the bridge's `DxccStats.ComputeDxccStats`, whose totals satisfy verified <= confirmed <= worked as the status meanings require.
