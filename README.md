# entservices-infra core, modelled in Dafny

This project models the decision logic and data-structure operations of
a set of Thunder plugins for RDK devices. It also proves properties of
them. Each source file of the core becomes one Dafny module. Shared
helpers live in four modules:

- `Core`: result codes and `Option`.
- `Text`: ASCII `tolower`, `std::string::find` and decimal rendering.
- `JsonTree`: parsed JSON as an inductive datatype, with the jsoncpp and
  Thunder rules for reading absent members and writing into null nodes.
- `Lifecycle`: the lifecycle states.

The modules and what they cover:

- `Bootstrap` and `OverrideKeys`: the test widget's boot-time
  reachability gate, with its 1-to-5-second back-off, the key remap and
  the launch-argument patch.
- `PreinstallManager`: semantic-version validation and comparison of
  the `major.minor.patch` core (section 11 of Semantic Versioning 2.0.0;
  a pre-release or build suffix, sections 9 and 10, is cut off), the
  filter against installed packages, and the install loop.
- `SystemDelegate`, `UserSettingsDelegate`, `EventDelegate`: the
  FbSettings delegates. This covers the ISO 3166-1 alpha-3 to alpha-2
  territory tables, case-insensitive comparison, the SKU split, the
  defaults, and the case-insensitive event registries with their
  dispatch.
- `ContextUtils`, `App2AppProvider`, `AppGatewayImplementation`,
  `WsManager`: context conversions, the provider and transaction
  registries, request resolution and routing, and the WebSocket pending
  queue. That queue holds at most 10 requests, evicts the oldest and
  drains in FIFO order.
- `GatewayAuthenticator` and `LifecycleAuthenticator`: the appId-to-session
  maps driven by lifecycle notifications.
- `GatewayTelemetry`, `TelemetryMetrics`, `TelemetryImplementation`,
  `AppManagerReporting`, `LifecycleReporting`: telemetry counters
  (as `uint32_t`, with wrap-around), error maps, the threshold flush,
  the metrics store, profile-status validation, the power-mode rule, the
  marker-selection tables and the 32-bit elapsed times.
- `Migration`, `ResourceManager`: status validation, file and RFC
  result codes, the AV blacklist and TTS reservation.
- `PackageManager`: the download queue, pause/resume/cancel/delete, the
  downloader's retry loop and the lock counts.
- `RuntimeManager`: container request bookkeeping, the Wake and Annotate
  guards, Run and event fan-out.
- `NetFilterUtils`, `NetFilter`: the iptables rule encoder and decoder
  over an abstract record layout, rule deletion, hole punching and its
  listing, and the C++ wrappers.
- `RalfSupport`, `RuntimeRalfSupport`, `RalfPackageBuilder`,
  `RuntimeRalfPackageBuilder`, `RalfOciConfigGenerator`: recursive
  directory creation, the package list, the overlay `lowerdir` string
  and the OCI `config.json` edits.

External calls become function-typed parameters or input values. This
covers the file system, RFC, ERM, libiptc, COM-RPC interfaces, HTTP, the
clock and JSON parsing. Writes to sockets, T2 and worker pools become
recorded output sequences. Objects whose fields the source updates in
place are classes with `modifies` clauses; pure code is functions and
lemmas.

Where the code and its documentation disagree, the model follows the
code. The ResourceManager RFC switches are an example: the AV blacklist
and TTS reservation are off when the RFC parameter cannot be read, and
also when it is boolean and reads "false" ignoring case
(`ResourceManager.RfcDisables`). Where a header and its `.cpp` disagree
(both `RalfPackageBuilder` files, `RalfOCIConfigGenerator.h`,
`AppGatewayImplementation.h`), the `.cpp` bodies are modelled. Two
names used in `Telemetry/TelemetryMetrics.cpp` are never declared:

- `markerName` is a parameter of `RecordMetrics` and `PublishMetrics`,
  as the header `Telemetry/TelemetryMetrics.h` declares it. It names
  the T2 event.
- `otherRecordId` appears only in a log message, so the model does not
  need it.

## Model

| member | source | states |
|---|---|---|
| App2AppProvider.Lookup | App2AppProvider/App2AppProviderImplementation.h:83-91 | a registry lookup finds a value exactly for a stored key, and then the stored value |
| App2AppProvider.AddThenGet | App2AppProvider/App2AppProviderImplementation.h:73-91 | after `Add` the key reads back the new value and every other key reads as before |
| App2AppProvider.RemoveThenGet | App2AppProvider/App2AppProviderImplementation.h:78-91 | after `Remove` the key is gone, every other key reads as before, and removing a missing key changes nothing |
| App2AppProvider.RegistryMap.constructor | App2AppProvider/App2AppProviderImplementation.h:73-91 | a registry starts empty |
| App2AppProvider.RegistryMap.Add | App2AppProvider/App2AppProviderImplementation.h:73-76 | the key is mapped to the value, replacing any earlier one |
| App2AppProvider.RegistryMap.Remove | App2AppProvider/App2AppProviderImplementation.h:78-81 | the key is removed and nothing else |
| App2AppProvider.RegistryMap.Get | App2AppProvider/App2AppProviderImplementation.h:83-91 | true with the stored value exactly for a stored key; otherwise the out-parameter is untouched |
| App2AppProvider.CombinedKey | App2AppProvider/App2AppProviderImplementation.cpp:70-73 | the app-specific key is the lower-cased capability, a dot, and the lower-cased appId, with no upper-case letter left |
| App2AppProvider.RequestedAppId | App2AppProvider/App2AppProviderImplementation.cpp:101-107 | the params name an app exactly when "appId" is a non-empty string, and then it is that string |
| App2AppProvider.ProviderFor | App2AppProvider/App2AppProviderImplementation.cpp:93-122 | unparseable params find nothing; a registered app-specific key wins; any answer is a registered provider |
| App2AppProvider.ProviderForFallback | App2AppProvider/App2AppProviderImplementation.cpp:110-119 | without a usable app-specific entry the lookup falls back to the bare lower-cased capability |
| App2AppProvider.ProviderForIgnoresCase | App2AppProvider/App2AppProviderImplementation.cpp:62-122 | registering and invoking give the same results for capabilities that differ only in case |
| App2AppProvider.RegisteredProviderIsFound | App2AppProvider/App2AppProviderImplementation.cpp:62-122 | a provider just registered is what an invocation of the same capability finds, with no appId or with its own appId in any case |
| App2AppProvider.DeregisteredCapabilityIsGone | App2AppProvider/App2AppProviderImplementation.cpp:75-88 | deregistering removes the bare capability key and, for a named app, its app-specific key |
| App2AppProvider.ExtractCorrelationIdAndKey | App2AppProvider/App2AppProviderImplementation.cpp:140-156 | succeeds exactly when the payload parses with a non-null "correlationId" and the requested key present, giving both |
| App2AppProvider.ForwardJobDispatch | App2AppProvider/App2AppProviderImplementation.h:127-134 | a job goes to the gateway exactly when the origin is the gateway, otherwise to the launch delegate; it is delivered only when that receiver is available, with the converted context and the payload unchanged |
| App2AppProvider.BrokerThenAnswer | App2AppProvider/App2AppProviderImplementation.cpp:124-179 | a brokered transaction holds its requester until the answer removes it, restoring the table |
| App2AppProvider.App2AppProviderImplementation.constructor | App2AppProvider/App2AppProviderImplementation.cpp:33-38 | both registries empty and nothing forwarded |
| App2AppProvider.App2AppProviderImplementation.RegisterProvider | App2AppProvider/App2AppProviderImplementation.cpp:62-91 | always ERROR_NONE; the provider registry becomes `AfterRegister` of the old one and the transactions are untouched |
| App2AppProvider.App2AppProviderImplementation.BrokerProvider | App2AppProvider/App2AppProviderImplementation.cpp:124-138 | the requester is stored under the new correlation id and one job carrying the id and the params is forwarded to the provider |
| App2AppProvider.App2AppProviderImplementation.InvokeProvider | App2AppProvider/App2AppProviderImplementation.cpp:93-122 | a found provider is brokered and the result is ERROR_NONE; otherwise ERROR_GENERAL with nothing stored or forwarded |
| App2AppProvider.App2AppProviderImplementation.HandleProviderResponse | App2AppProvider/App2AppProviderImplementation.cpp:159-179 | an unreadable response is ERROR_GENERAL; a known correlation id is removed and its result forwarded to the requester; an unknown one is still ERROR_NONE with nothing changed |
| App2AppProvider.App2AppProviderImplementation.HandleProviderError | App2AppProvider/App2AppProviderImplementation.cpp:181-185 | always ERROR_NONE |
| App2AppProvider.App2AppProviderImplementation.Cleanup | App2AppProvider/App2AppProviderImplementation.cpp:187-191 | always ERROR_NONE |
| GatewayAuthenticator.SessionAfterStateChange | AppGateway/AppGatewayAuthenticator.cpp:148-176 | a lifecycle notification removes its app on TERMINATING and otherwise records its instance id as the app's session id; every other app's session id is unchanged |
| GatewayAuthenticator.TerminatingUnknownIsNoOp | AppGateway/AppGatewayAuthenticator.cpp:155-170 | a TERMINATING notification for an app that is not in the map leaves the map as it was |
| GatewayAuthenticator.AfterStateChangeKeepsNoTerminated | AppGateway/AppGatewayAuthenticator.cpp:148-176 | no stored context is ever in the TERMINATING state, whatever notifications arrive |
| GatewayAuthenticator.AppForSession | AppGateway/AppGatewayAuthenticator.cpp:66-78 | the corrected lookup: the app whose stored instance id is the session id, or none when no stored context carries it |
| GatewayAuthenticator.AppForSessionInvertsSessionOf | AppGateway/AppGatewayAuthenticator.cpp:66-92 | with unique instance ids, the session id `GetSessionId` hands out authenticates back to its own app |
| GatewayAuthenticator.AuthenticateIgnoresSession | AppGateway/AppGatewayAuthenticator.cpp:66-78 | a known session presented with an empty appId is refused as written, though the map knows its app |
| GatewayAuthenticator.Authenticator.constructor | AppGateway/AppGatewayAuthenticator.cpp:26-44 | the context map starts empty |
| GatewayAuthenticator.Authenticator.OnAppLifecycleStateChanged | AppGateway/AppGatewayAuthenticator.cpp:148-176 | the map becomes `AfterStateChange` of the old map |
| GatewayAuthenticator.Authenticator.GetSessionId | AppGateway/AppGatewayAuthenticator.cpp:80-92 | a known app gets ERROR_NONE and its instance id; an unknown one ERROR_NOT_EXIST with the out-parameter untouched |
| GatewayAuthenticator.Authenticator.Authenticate | AppGateway/AppGatewayAuthenticator.cpp:66-78 | as written: ERROR_NONE exactly when the incoming appId is a key, otherwise ERROR_NOT_EXIST; the appId comes back unchanged |
| GatewayAuthenticator.Authenticator.CheckPermissionGroup | AppGateway/AppGatewayAuthenticator.cpp:94-100 | every permission group is allowed |
| GatewayAuthenticator.Authenticator.HandleAppEventNotifier | AppGateway/AppGatewayAuthenticator.cpp:178-185 | always succeeds with status true |
| GatewayAuthenticator.Authenticator.HandleAppGatewayRequest | AppGateway/AppGatewayAuthenticator.cpp:187-195 | always succeeds with the response "{}" |
| LifecycleAuthenticator.AfterAppStateChangedEffect | LifecycleManager/AppGatewayAuthenticator.cpp:117-137 | LOADING and INITIALIZING map the app to itself, UNLOADED and TERMINATING remove it, the other states change nothing; other apps are untouched |
| LifecycleAuthenticator.AfterAppStateChangedKeepsSessionIsAppId | LifecycleManager/AppGatewayAuthenticator.cpp:117-137 | every stored session id stays equal to its app id |
| LifecycleAuthenticator.Authenticator.constructor | LifecycleManager/AppGatewayAuthenticator.cpp:28-41 | the session map starts empty |
| LifecycleAuthenticator.Authenticator.OnAppStateChanged | LifecycleManager/AppGatewayAuthenticator.cpp:117-137 | the map becomes `AfterAppStateChanged` of the old map and the result is ERROR_NONE |
| LifecycleAuthenticator.Authenticator.GetSessionId | LifecycleManager/AppGatewayAuthenticator.cpp:73-85 | a known app gets ERROR_NONE and its own id as session; an unknown one ERROR_NOT_EXIST with the out-parameter untouched |
| LifecycleAuthenticator.Authenticator.Authenticate | LifecycleManager/AppGatewayAuthenticator.cpp:58-71 | ERROR_NONE exactly when the incoming appId is a key, otherwise ERROR_NOT_EXIST; the appId comes back unchanged |
| LifecycleAuthenticator.Authenticator.CheckPermissionGroup | LifecycleManager/AppGatewayAuthenticator.cpp:87-93 | no permission group is allowed |
| EventDelegate.AddRegistersEveryCasing | helpers/BaseEventDelegate.h:107-121 | after adding an event, every spelling that differs only in case reads as registered |
| EventDelegate.AddTwice | helpers/BaseEventDelegate.h:107-112 | adding the same event twice is the same as adding it once |
| EventDelegate.AddOnlyThat | helpers/BaseEventDelegate.h:107-121 | adding an event changes the answer for no other event |
| EventDelegate.RemoveEveryCasing | helpers/BaseEventDelegate.h:115-128 | removing an event unregisters every spelling of it and keeps every other event's answer |
| EventDelegate.BaseEventDelegate.constructor | helpers/BaseEventDelegate.h:63-74 | no event registered and no job submitted |
| EventDelegate.BaseEventDelegate.AddNotification | helpers/BaseEventDelegate.h:107-112 | the lower-cased event joins the registered set; no job is submitted |
| EventDelegate.BaseEventDelegate.IsNotificationRegistered | helpers/BaseEventDelegate.h:115-121 | true exactly when the lower-cased event is registered |
| EventDelegate.BaseEventDelegate.RemoveNotification | helpers/BaseEventDelegate.h:124-128 | the lower-cased event leaves the registered set; no job is submitted |
| EventDelegate.BaseEventDelegate.Dispatch | helpers/BaseEventDelegate.h:79-91 | reports whether the event is registered and submits one dispatch job exactly then; the registered set is unchanged |
| EventDelegate.BaseEventDelegate.DispatchToAppNotifications | helpers/BaseEventDelegate.h:93-103 | true exactly when emitting the event with an empty appId returns ERROR_NONE |
| UserSettingsDelegate.NineEvents | FbSettings/delegate/UserSettingsDelegate.h:30-40 | the table of accepted events has nine distinct entries |
| UserSettingsDelegate.PresentationLanguageAllRegistered | FbSettings/delegate/UserSettingsDelegate.h:115-127 | with both localization events registered, a presentation language change dispatches the locale event and, for "lang-REGION", the language part |
| UserSettingsDelegate.PresentationLanguageSplit | FbSettings/delegate/UserSettingsDelegate.h:115-127 | for every tag: one with a '-' dispatches the locale and then the language, the part before the first '-'; one without dispatches only the locale |
| UserSettingsDelegate.PresentationLanguageExamples | FbSettings/delegate/UserSettingsDelegate.h:115-127 | "en-US" dispatches ("en-US", "en"); "en" dispatches only the locale |
| UserSettingsDelegate.UserSettingsDelegate.constructor | FbSettings/delegate/UserSettingsDelegate.h:44-52 | nothing registered, no handler, no user-settings interface |
| UserSettingsDelegate.UserSettingsDelegate.HandleSubscription | FbSettings/delegate/UserSettingsDelegate.h:54-89 | unsubscribing removes the event; subscribing without a shell or a UserSettings interface fails and changes nothing; otherwise the event is added, the handler registered once and the result says whether this call registered it |
| UserSettingsDelegate.UserSettingsDelegate.HandleEvent | FbSettings/delegate/UserSettingsDelegate.h:91-100 | handled exactly when the lower-cased event is in the accepted table; an unhandled event changes nothing and keeps the caller's registrationError; a handled one sets registrationError to the HandleSubscription result and applies its state change in each of its four cases (unsubscribe, no shell, no interface, subscribe) |
| UserSettingsDelegate.UserSettingsDelegate.OnPresentationLanguageChanged | FbSettings/delegate/UserSettingsDelegate.h:115-127 | submits exactly the jobs of the registered events among the locale and language events, and registers nothing |
| ContextUtils.ConvertNotificationToAppGatewayContext | helpers/ContextUtils.h:33-40 | request id, connection id and app id are copied |
| ContextUtils.ConvertAppGatewayToNotificationContext | helpers/ContextUtils.h:44-52 | the three ids are copied and the origin is the given one |
| ContextUtils.ConvertAppGatewayToProviderContext | helpers/ContextUtils.h:56-64 | the three ids are copied and the origin is the given one |
| ContextUtils.ConvertProviderToAppGatewayContext | helpers/ContextUtils.h:66-73 | the three ids are copied |
| ContextUtils.ConvertProviderToLaunchDelegateContext | helpers/ContextUtils.h:75-82 | the three ids are copied |
| ContextUtils.NotificationRoundTrip | helpers/ContextUtils.h:33-52 | gateway to notification and back gives the original gateway context |
| ContextUtils.ProviderRoundTrip | helpers/ContextUtils.h:56-73 | gateway to provider and back gives the original gateway context |
| ContextUtils.NotificationContextRoundTrip | helpers/ContextUtils.h:33-52 | notification to gateway and back, with its own origin, gives the original notification context |
| ContextUtils.LaunchDelegateEqualsGateway | helpers/ContextUtils.h:66-82 | the launch-delegate context carries exactly the fields of the gateway context |
| ContextUtils.ProviderConversionForgetsOnlyOrigin | helpers/ContextUtils.h:66-73 | two provider contexts convert to the same gateway context exactly when they differ at most in origin |
| AppGatewayImplementation.AppIdRegistry.constructor | AppGateway/AppGatewayImplementation.h:156-174 | the connection-to-app registry starts empty |
| AppGatewayImplementation.AppIdRegistry.Add | AppGateway/AppGatewayImplementation.h:156-159 | the connection is mapped to the app id, replacing any earlier one |
| AppGatewayImplementation.AppIdRegistry.Remove | AppGateway/AppGatewayImplementation.h:161-164 | the connection is removed and nothing else |
| AppGatewayImplementation.AppIdRegistry.Get | AppGateway/AppGatewayImplementation.h:166-174 | true with the stored app id exactly for a registered connection; otherwise the out-parameter is untouched |
| AppGatewayImplementation.RemoveOnlyThatConnection | AppGateway/AppGatewayImplementation.h:161-174 | removing a connection forgets it, keeps every other connection with its app id, and is a no-op for an unknown one |
| AppGatewayImplementation.InternalResolutionConfigure | AppGateway/AppGatewayImplementation.cpp:209-238 | every path is tried in order; ERROR_NONE exactly when at least one loads, otherwise ERROR_GENERAL |
| AppGatewayImplementation.Configure | AppGateway/AppGatewayImplementation.cpp:169-207 | missing paths are ERROR_BAD_REQUEST, a missing resolver ERROR_GENERAL, an empty list ERROR_BAD_REQUEST, all without loading; otherwise every path is tried and the result is ERROR_NONE exactly when one loads |
| AppGatewayImplementation.ContextObject | AppGateway/AppGatewayImplementation.cpp:316-321 | the "context" object carries the app id, the connection id and the request id |
| AppGatewayImplementation.UpdateContext | AppGateway/AppGatewayImplementation.cpp:306-334 | without includeContext the params pass through as text; with it "context" is the caller's context, "additionalContext" the configured extra when there is one, and every other member is kept |
| AppGatewayImplementation.HandleEvent | AppGateway/AppGatewayImplementation.cpp:383-393 | without a subscriber ERROR_GENERAL; otherwise the subscriber's answer for the notification context, listen flag, alias and event |
| AppGatewayImplementation.PreProcessEvent | AppGateway/AppGatewayImplementation.cpp:357-381 | no params or no boolean "listen" are bad requests with their messages; otherwise the event is subscribed or unsubscribed and answered with the listening object |
| AppGatewayImplementation.ProcessComRpcRequest | AppGateway/AppGatewayImplementation.cpp:336-354 | without a handler ERROR_GENERAL and "not available"; a handler's success gives its text, its failure an internal error |
| AppGatewayImplementation.CallThunder | AppGateway/AppGatewayImplementation.cpp:289-301 | a failed plugin call gives its error code and an internal error text; a success gives its text, "null" when empty |
| AppGatewayImplementation.RouteOf | AppGateway/AppGatewayImplementation.cpp:284-301 | events take precedence, then COM-RPC support, then the Thunder call |
| AppGatewayImplementation.FetchResolvedData | AppGateway/AppGatewayImplementation.cpp:256-304 | no resolver, an unconfigured resolver and an unknown alias each fail with their own error text |
| AppGatewayImplementation.RoutingPriority | AppGateway/AppGatewayImplementation.cpp:284-301 | with a configured resolver and an alias, the answer is the event, COM-RPC or Thunder route's answer in that precedence |
| AppGatewayImplementation.EmptyResolutionOnlyFromHandler | AppGateway/AppGatewayImplementation.cpp:256-354 | an empty resolution comes only from a successful COM-RPC handler |
| AppGatewayImplementation.ErrorsAreAnswered | AppGateway/AppGatewayImplementation.cpp:256-393 | every failure carries a non-empty resolution, so the caller is always answered |
| AppGatewayImplementation.RespondJobDispatch | AppGateway/AppGatewayImplementation.h:131-144 | a respond job for a gateway origin goes back on the socket with its ids and payload; any other goes to the launch delegate with a context built from the ids |
| AppGatewayImplementation.AppGatewayImplementation.constructor | AppGateway/AppGatewayImplementation.cpp:69-77 | no respond job submitted yet |
| AppGatewayImplementation.AppGatewayImplementation.Resolve | AppGateway/AppGatewayImplementation.cpp:240-254 | the result is `FetchResolvedData`'s, and one respond job with the resolution is submitted exactly when the resolution is not empty |
| WsManager.ParamsOf | helpers/WsManager.h:254-258 | the parameters passed on are the message's own when set and non-empty, "{}" otherwise, never empty |
| WsManager.Caught | helpers/WsManager.h:262-275 | a handler that returns is not answered; a `std::exception` is answered "Processing exception" with its `what()` text, anything else "Unknown processing exception" |
| WsManager.Dispatched | helpers/WsManager.h:239-275 | a message without a method is answered with an error; one with a method goes to the handler with its parameters and the connection's id, followed by the answer to any exception it throws, or is answered "handler not set" |
| WsManager.Pending | helpers/WsManager.h:283-299 | the pending queue appends the message, dropping the oldest when it is full |
| WsManager.Evicted | helpers/WsManager.h:283-299 | a full queue answers its oldest message with an error as it drops it; otherwise nothing is sent |
| WsManager.PendingBounded | helpers/WsManager.h:283-299 | the queue never exceeds its capacity, grows by one until full, and ends with the new message |
| WsManager.DrainOutputs | helpers/WsManager.h:200-215 | draining gives one or two outputs per queued message |
| WsManager.DrainOutputsConcat | helpers/WsManager.h:200-215 | draining two queues in turn outputs the two drains in turn |
| WsManager.DrainStep | helpers/WsManager.h:204-213 | one more turn of the drain loop appends the dispatch of the next queued message |
| WsManager.DrainOutputsInOrder | helpers/WsManager.h:200-215 | the outputs of the i-th queued message, dispatched with the new id, come after those of every earlier message and before those of every later one |
| WsManager.IdZeroTurns | helpers/WsManager.h:204-213 | after any number of turns of the loop in `Id(0)` the queue is non-empty and within capacity |
| WsManager.IdZeroNeverDrains | helpers/WsManager.h:200-215 | as written, `Id(0)` with a queued message never leaves its loop: the queue keeps its length, or nine once it was full |
| WsManager.StateChange | helpers/WsManager.h:150-174 | on open the connection closes exactly when the authorisation handler refuses, and proceeds without one; a suspended closed connection reports its disconnection |
| WsManager.WebSocketServer.constructor | helpers/WsManager.h:116-122 | no id, an empty queue and no output |
| WsManager.WebSocketServer.AddToPending | helpers/WsManager.h:283-299 | the queue becomes `Pending` of the old one and an evicted message is answered |
| WsManager.WebSocketServer.ProcessMessage | helpers/WsManager.h:223-276 | a message without id is dropped; before an id is assigned it is queued; afterwards it is dispatched at once, an exception of the handler being answered as `Dispatched` says |
| WsManager.WebSocketServer.AssignId | helpers/WsManager.h:200-215 | a non-zero id is set, the queue emptied, and every queued message dispatched in order; the corrected id 0 keeps the queue pending |
| WsManager.WebSocketConnectionManager.constructor | helpers/WsManager.h:39-44 | nothing submitted |
| WsManager.WebSocketConnectionManager.SendMessageToConnection | helpers/WsManager.h:347-368 | an error response when code and text are both given, otherwise a result response; always true |
| WsManager.WebSocketConnectionManager.DispatchNotificationToConnection | helpers/WsManager.h:370-379 | one notification with the designator and payload is submitted; always true |
| WsManager.WebSocketConnectionManager.SendRequestToConnection | helpers/WsManager.h:381-392 | one request with the id, designator and params is submitted; always true |
| SystemAppBootstrap.CheckUrlBeforeLoading | Tests/L2Tests/tests/testPackage/myWidget/systemAppBootstrap.js:1-17 | true for an ok response, false for an error status, undefined when the fetch throws, and each of these only then |
| SystemAppBootstrap.NextIntervalFalsy | Tests/L2Tests/tests/testPackage/myWidget/systemAppBootstrap.js:29-34 | a missing or zero interval restarts at 1000 ms |
| SystemAppBootstrap.NextIntervalFixedPoint | Tests/L2Tests/tests/testPackage/myWidget/systemAppBootstrap.js:29-32 | at the 5000 ms cap the interval stays at the cap |
| SystemAppBootstrap.NextIntervalMonotone | Tests/L2Tests/tests/testPackage/myWidget/systemAppBootstrap.js:20-32 | from within [1000, 5000] the interval never shrinks and never passes the cap, and grows by exactly 1000 while that stays under the cap |
| SystemAppBootstrap.Bootstrap | Tests/L2Tests/tests/testPackage/myWidget/systemAppBootstrap.js:19-38 | a reachable URL redirects; anything else schedules a retry of the same URL after the next interval, passing that interval on and logging it in seconds |
| SystemAppBootstrap.Chain | Tests/L2Tests/tests/testPackage/myWidget/systemAppBootstrap.js:19-38 | a chain of attempts waits only after failed checks and redirects at the first successful one |
| SystemAppBootstrap.ChainRedirectsIffSomeSuccess | Tests/L2Tests/tests/testPackage/myWidget/systemAppBootstrap.js:23-37 | the chain redirects exactly when some check in it succeeds |
| SystemAppBootstrap.NextIntervalAfter | Tests/L2Tests/tests/testPackage/myWidget/systemAppBootstrap.js:29-34 | after k retries the next wait is min(1000·(k+1), 5000) |
| SystemAppBootstrap.ChainDelaysClosedForm | Tests/L2Tests/tests/testPackage/myWidget/systemAppBootstrap.js:29-37 | every wait of a chain that has already retried k times follows the closed form |
| SystemAppBootstrap.ChainDelaysFromStart | Tests/L2Tests/tests/testPackage/myWidget/systemAppBootstrap.js:19-38 | from a first call without interval the i-th wait is min(1000·(i+1), 5000): in [1000, 5000] and non-decreasing |
| KeyOverride.KeyCode | Tests/L2Tests/tests/testPackage/myWidget/override.js:1-9 | "keyCode" reports Escape (27) as Backspace (8) and every other key as its own code |
| KeyOverride.KeyCodeIdempotent | Tests/L2Tests/tests/testPackage/myWidget/override.js:4-7 | applying the mapping twice gives the same code as once |
| KeyOverride.LaunchArgs.constructor | Tests/L2Tests/tests/testPackage/myWidget/override.js:11-17 | the launch arguments object holds the given members and writability |
| KeyOverride.OverrideLaunchArgs | Tests/L2Tests/tests/testPackage/myWidget/override.js:11-17 | the same object comes back; a writable object gets "durableAppId" set to "com.xumo.ipa" and nothing else changed, a null or frozen one is left as it was |
| Migration.EightStatuses | Migration/MigrationImplementation.cpp:68 | the accepted migration statuses are eight distinct names |
| Migration.GetBootTypeInfo | Migration/MigrationImplementation.cpp:48-64 | ERROR_NONE with the BOOT_TYPE property when it can be read, otherwise ERROR_FILE_IO |
| Migration.GetMigrationStatus | Migration/MigrationImplementation.cpp:94-108 | ERROR_NONE with the RFC value when the parameter can be read, otherwise ERROR_FILE_IO |
| Migration.MigrationImplementation.constructor | Migration/MigrationImplementation.cpp:38-41 | the status file starts as it is on the device |
| Migration.MigrationImplementation.SetMigrationStatus | Migration/MigrationImplementation.cpp:66-92 | an unknown status gives ERROR_INVALID_PARAMETER, an unopenable file ERROR_FILE_IO, both with nothing written; otherwise the file holds exactly the status and success is set |
| ResourceManager.RfcDisables | ResourceManager/ResourceManagerImplementation.cpp:72-81 | a feature is disabled when its RFC cannot be read, or when it is boolean and starts with "false" in any case; a readable non-boolean RFC enables it |
| ResourceManager.RfcExamples | ResourceManager/ResourceManagerImplementation.cpp:77-80 | only the first five characters are compared, without regard to case, and only for boolean parameters |
| ResourceManager.AccessList | ResourceManager/ResourceManagerImplementation.cpp:389-495 | the setACL parameters grant "speak" to exactly the given apps, in order |
| ResourceManager.BlockedAfterSet | ResourceManager/ResourceManagerImplementation.cpp:130-191 | blocking adds the app to the reported list and unblocking removes it, leaving the others |
| ResourceManager.ResourceManagerImplementation.constructor | ResourceManager/ResourceManagerImplementation.cpp:53-88 | the two disable flags come from their RFCs and the blacklist table starts empty |
| ResourceManager.ResourceManagerImplementation.SetAVBlocked | ResourceManager/ResourceManagerImplementation.cpp:106-159 | ERROR_UNAVAILABLE without the resource manager or with the blacklist disabled; ERROR_GENERAL when it refuses; otherwise the app's status is recorded |
| ResourceManager.ResourceManagerImplementation.GetBlockedAVApplications | ResourceManager/ResourceManagerImplementation.cpp:161-220 | ERROR_UNAVAILABLE with no iterator without the resource manager; otherwise exactly the blocked apps, possibly none |
| ResourceManager.ResourceManagerImplementation.ReserveTTSResource | ResourceManager/ResourceManagerImplementation.cpp:373-445 | ERROR_NONE without success when disabled; otherwise success exactly when the service is present and setACL answers success true |
| ResourceManager.ResourceManagerImplementation.ReserveTTSResourceForApps | ResourceManager/ResourceManagerImplementation.cpp:447-540 | a null iterator gives ERROR_BAD_REQUEST; disabled gives success; otherwise success exactly when setACL for all the apps succeeds |
| NetFilterUtils.XtAlign | RuntimeManager/Gateway/NetFilterUtils.c:353-448 | `XT_ALIGN` rounds a size up by less than the alignment |
| NetFilterUtils.Truncated | RuntimeManager/Gateway/NetFilterUtils.c:117-118 | a bounded copy keeps the first `n` characters, or all of a shorter string |
| NetFilterUtils.TruncatedTwice | RuntimeManager/Gateway/NetFilterUtils.c:93-94 | reading back with a larger bound does not shorten a comment written with a smaller one |
| NetFilterUtils.MatchPorts | RuntimeManager/Gateway/NetFilterUtils.c:218-241 | a tcp or udp match yields its protocol and its lower source and destination ports; any other match yields nothing |
| NetFilterUtils.MatchComment | RuntimeManager/Gateway/NetFilterUtils.c:75-96 | only a "comment" match at least as large as the comment structure yields its text, at most the comment limit long |
| NetFilterUtils.AppendTcpUdpMatch | RuntimeManager/Gateway/NetFilterUtils.c:346-398 | fails exactly for a protocol other than tcp or udp or when the match does not fit the space left; otherwise writes a match of the computed size with both port ranges, which reads back as that protocol and those ports |
| NetFilterUtils.AppendStateMatch | RuntimeManager/Gateway/NetFilterUtils.c:412-432 | fails exactly when it does not fit; otherwise writes a revision-3 conntrack match with the state flags and mask, which is neither a port nor a comment match |
| NetFilterUtils.AppendCommentMatch | RuntimeManager/Gateway/NetFilterUtils.c:445-463 | fails exactly when it does not fit; otherwise writes a comment match that reads back as the comment cut to one less than the limit |
| NetFilterUtils.MatchesSizeAppend | RuntimeManager/Gateway/NetFilterUtils.c:503-535 | appending a match advances the write position by its size |
| NetFilterUtils.Assemble | RuntimeManager/Gateway/NetFilterUtils.c:479-564 | a rule is built exactly when header, matches and target fit the 1024-byte buffer; its target offset is the end of the matches and its next offset the end of the target |
| NetFilterUtils.MatchesSizeConcat | RuntimeManager/Gateway/NetFilterUtils.c:503-535 | the size of consecutive match runs adds up |
| NetFilterUtils.Advance | RuntimeManager/Gateway/NetFilterUtils.c:509-533 | after each append the pointer stands at the header plus the matches written so far |
| NetFilterUtils.TooLarge | RuntimeManager/Gateway/NetFilterUtils.c:503-535 | a match that would overflow the buffer makes the whole rule fail |
| NetFilterUtils.CreateInputFilterRule | RuntimeManager/Gateway/NetFilterUtils.c:479-564 | the writer builds exactly the input rule: protocol with any source and the given destination port, NEW/ESTABLISHED state, the optional comment, ACCEPT |
| NetFilterUtils.CreateOutputFilterRule | RuntimeManager/Gateway/NetFilterUtils.c:580-663 | the writer builds exactly the output rule: the given source port, ESTABLISHED state, the optional comment, ACCEPT |
| NetFilterUtils.CreateDnatRule | RuntimeManager/Gateway/NetFilterUtils.c:760-856 | the writer builds exactly the DNAT rule: not from the bridge, the external port, the optional comment, and a DNAT to the container address and port |
| NetFilterUtils.CreateForwardingRule | RuntimeManager/Gateway/NetFilterUtils.c:872-960 | the writer builds exactly the forwarding rule: from outside into the bridge, to the container address and port, ACCEPT |
| NetFilterUtils.RulesFit | RuntimeManager/Gateway/NetFilterUtils.c:479-960 | each rule is built exactly when its protocol is tcp or udp and the sum of its parts fits the buffer |
| NetFilterUtils.Visited | RuntimeManager/Gateway/NetFilterUtils.c:67-209 | the reader walks a prefix of the matches in order |
| NetFilterUtils.FirstCommentIndex | RuntimeManager/Gateway/NetFilterUtils.c:69-97 | the reader stops at the first comment match, after only non-comment matches |
| NetFilterUtils.FirstPortsIndex | RuntimeManager/Gateway/NetFilterUtils.c:207-242 | the reader stops at the first tcp or udp match, after only other matches |
| NetFilterUtils.VisitedCount | RuntimeManager/Gateway/NetFilterUtils.c:67-209 | the walk stops at an index between its start and the number of matches |
| NetFilterUtils.VisitedIsPrefix | RuntimeManager/Gateway/NetFilterUtils.c:67-209 | the matches the walk visits are exactly those before the index where it stops |
| NetFilterUtils.CommentSkip | RuntimeManager/Gateway/NetFilterUtils.c:74-88 | a match the reader skips cannot be the first comment it finds |
| NetFilterUtils.CommentFound | RuntimeManager/Gateway/NetFilterUtils.c:90-96 | the first qualifying comment match the reader reaches is the first comment of the walk |
| NetFilterUtils.PortsSkip | RuntimeManager/Gateway/NetFilterUtils.c:211-241 | a match the reader skips cannot be the first tcp or udp match it finds |
| NetFilterUtils.PortsFound | RuntimeManager/Gateway/NetFilterUtils.c:215-240 | the first tcp or udp match the reader reaches is the first one of the walk |
| NetFilterUtils.GetEntryComment | RuntimeManager/Gateway/NetFilterUtils.c:56-101 | finds a comment exactly when the rule has a qualifying comment match and returns that comment, and "" otherwise |
| NetFilterUtils.GetEntryTcpUdpMatchPort | RuntimeManager/Gateway/NetFilterUtils.c:197-246 | finds ports exactly when the rule has a tcp or udp match and returns the first one's protocol and ports |
| NetFilterUtils.EntryInterface | RuntimeManager/Gateway/NetFilterUtils.c:110-137 | the in or out interface name cut to the interface-name limit, with its inversion flag |
| NetFilterUtils.DnatDestinationOf | RuntimeManager/Gateway/NetFilterUtils.c:147-185 | a DNAT destination is read exactly from a large enough DNAT target with one range mapping a single address; it is that address and port |
| NetFilterUtils.VisitedAll | RuntimeManager/Gateway/NetFilterUtils.c:67-72 | with non-empty matches the reader visits every match a built rule holds |
| NetFilterUtils.WalkedBuilt | RuntimeManager/Gateway/NetFilterUtils.c:539 | the matches the reader walks in a built rule are exactly the ones written |
| NetFilterUtils.StateRulePorts | RuntimeManager/Gateway/NetFilterUtils.c:204-246 | a rule whose first match is the tcp or udp record reads back that protocol, its first source port and its first destination port |
| NetFilterUtils.StateRuleComment | RuntimeManager/Gateway/NetFilterUtils.c:56-96 | the same rule reads back no comment when none was written, else the written comment cut to 255 characters |
| NetFilterUtils.FilterRulesReadBack | RuntimeManager/Gateway/NetFilterUtils.c:479-663 | the input and output rules read back their protocol, port and (cut) comment |
| NetFilterUtils.PunchedEntry | RuntimeManager/Gateway/NetFilterUtils.c:1117-1151 | a rule is listed exactly when it comes in not from the bridge, DNATs to the container (or any address for 0), and has a tcp or udp port; the entry holds protocol, public and container port |
| NetFilterUtils.DnatRuleReadBack | RuntimeManager/Gateway/NetFilterUtils.c:760-856 | a DNAT rule for a bridge name within the interface limit is listed back as its own hole punch |
| NetFilterUtils.ChainIndex | RuntimeManager/Gateway/NetFilterUtils.c:704 | a chain is found by name: the first chain with that name, or none |
| NetFilterUtils.InsertEntry | RuntimeManager/Gateway/NetFilterUtils.c:704 | inserting at a rule number succeeds exactly for an existing chain with at least that many rules, and changes only that chain |
| NetFilterUtils.AppendEntry | RuntimeManager/Gateway/NetFilterUtils.c:751-757 | appending succeeds exactly for an existing chain, puts the rule last there, and changes no other chain |
| NetFilterUtils.ChainIndexKept | RuntimeManager/Gateway/NetFilterUtils.c:704-727 | inserting into one chain does not move the others |
| NetFilterUtils.ExternalPortPlacementAsWritten | RuntimeManager/Gateway/NetFilterUtils.c:704-727 | as written: opening a port puts the input rule at libiptc position 1 of INPUT and the output rule at position 1 of OUTPUT, the second place of each, and changes no other chain; an empty INPUT chain makes the insert fail |
| NetFilterUtils.ExternalPortPlacement | RuntimeManager/Gateway/NetFilterUtils.c:668-744 | corrected: opening a port puts the input rule first in INPUT and the output rule first in OUTPUT and changes no other chain; it fails exactly when a rule cannot be built or a chain is missing |
| NetFilterUtils.HolePunchPlacementAsWritten | RuntimeManager/Gateway/NetFilterUtils.c:1015-1055 | as written: the DNAT rule goes to position 1 of PREROUTING and the forwarding rule to position 1 of FORWARD; an empty chain makes either insert fail |
| NetFilterUtils.HolePunchPlacement | RuntimeManager/Gateway/NetFilterUtils.c:965-1078 | corrected: the DNAT rule is appended to PREROUTING and the forwarding rule goes first in FORWARD, no other chain changing; each fails exactly when its rule cannot be built or its chain is missing |
| NetFilterUtils.PunchedInHas | RuntimeManager/Gateway/NetFilterUtils.c:1114-1153 | every qualifying rule of a chain is collected |
| NetFilterUtils.PunchedInChainsHas | RuntimeManager/Gateway/NetFilterUtils.c:1106-1158 | the qualifying rules of every PREROUTING chain are collected |
| NetFilterUtils.HolePunchListed | RuntimeManager/Gateway/NetFilterUtils.c:989-1168 | a hole punch whose DNAT rule was appended is listed afterwards |
| NetFilterUtils.PunchedInSnoc | RuntimeManager/Gateway/NetFilterUtils.c:1114-1153 | one more rule of the chain adds its hole-punch entry when it qualifies and nothing otherwise |
| NetFilterUtils.CollectHolePunches | RuntimeManager/Gateway/NetFilterUtils.c:1114-1153 | the chain loop sees every qualifying rule in order and stores only the first `maxEntries` |
| NetFilterUtils.Take | RuntimeManager/Gateway/NetFilterUtils.c:1145-1151 | the stored entries are the first ones, at most the bound |
| NetFilterUtils.CommentBuffer | RuntimeManager/Gateway/NetFilterUtils.c:285-286 | the comment buffer holds the rule's comment, or stays empty |
| NetFilterUtils.Kept | RuntimeManager/Gateway/NetFilterUtils.c:280-315 | the deletion pass never adds rules |
| NetFilterUtils.KeptExactly | RuntimeManager/Gateway/NetFilterUtils.c:280-315 | a rule survives exactly when it is not matched and deleted |
| NetFilterUtils.KeptStep | RuntimeManager/Gateway/NetFilterUtils.c:280-315 | each rule is kept or dropped on its own |
| NetFilterUtils.KeptAll | RuntimeManager/Gateway/NetFilterUtils.c:280-315 | when nothing is dropped the chain is unchanged |
| NetFilterUtils.DeleteMatchingRules | RuntimeManager/Gateway/NetFilterUtils.c:278-315 | the chain loop leaves exactly the surviving rules, deleting at the running index, and counts one change per deletion |
| NetFilterUtils.DropStep | RuntimeManager/Gateway/NetFilterUtils.c:293-313 | deleting at the index keeps the index on the next rule; a skipped or undeletable rule advances it |
| NetFilterUtils.Pruned | RuntimeManager/Gateway/NetFilterUtils.c:273-318 | every chain of a table is pruned the same way and keeps its name |
| NetFilterUtils.NoDeletionInChain | RuntimeManager/Gateway/NetFilterUtils.c:320-325 | when the table counts no deletion, every chain keeps all its rules |
| NetFilterUtils.NoDeletionNoChange | RuntimeManager/Gateway/NetFilterUtils.c:320-325 | a table with no deletion is left as it was |
| NetFilterUtils.DeleteMatchingRulesInTable | RuntimeManager/Gateway/NetFilterUtils.c:270-318 | the table loop prunes every chain and counts all deletions |
| NetFilterUtils.RemovalOutcome | RuntimeManager/Gateway/NetFilterUtils.c:254-332 | only the filter and nat tables change, and only when their commit succeeds; a table with nothing deleted stays |
| NetFilterUtils.RemovedRulesGone | RuntimeManager/Gateway/NetFilterUtils.c:280-315 | no rule that matched and could be deleted is left |
| NetFilterUtils.IpTables.constructor | RuntimeManager/Gateway/NetFilterUtils.c:262 | the tables are those of the running ruleset |
| NetFilterUtils.IpTables.OpenExternalPort | RuntimeManager/Gateway/NetFilterUtils.c:683-744 | corrected placement: 0 exactly when the filter table opens, both rules go in and the commit succeeds, and then the filter table changes as `ExternalPortTable` says; -1 otherwise with nothing changed |
| NetFilterUtils.IpTables.AddContainerHolePunch | RuntimeManager/Gateway/NetFilterUtils.c:989-1078 | corrected placement: 0 exactly when both the nat and the filter rule go in; a committed nat rule stays when the filter half fails; the tables change as `HolePunchNatTable` and `HolePunchFilterTable` say |
| NetFilterUtils.IpTables.RemoveAllRulesMatchingComment | RuntimeManager/Gateway/NetFilterUtils.c:254-332 | always 0; the tables become the result of the removal steps over filter then nat |
| NetFilterUtils.IpTables.GetContainerHolePunchedPorts | RuntimeManager/Gateway/NetFilterUtils.c:1090-1168 | -1 and no entry without a nat table; otherwise 0 and the first `maxEntries` hole punches of its PREROUTING chains |
| NetFilter.ProtocolNumber | RuntimeManager/Gateway/NetFilter.cpp:112-122 | the enumerators carry the tcp and udp protocol numbers |
| NetFilter.Converted | RuntimeManager/Gateway/NetFilter.cpp:190-208 | tcp and udp entries convert and convert back to the same entry; any other protocol is dropped |
| NetFilter.PortForwards | RuntimeManager/Gateway/NetFilter.cpp:188-209 | the conversion never yields more forwards than entries |
| NetFilter.TcpUdpEntries | RuntimeManager/Gateway/NetFilter.cpp:188-209 | selecting tcp and udp entries never yields more than were given |
| NetFilter.BackAll | RuntimeManager/Gateway/NetFilter.cpp:188-209 | each forward maps back to its entry, one for one |
| NetFilter.PortForwardsFaithful | RuntimeManager/Gateway/NetFilter.cpp:188-209 | conversion loses exactly the entries of other protocols and keeps order |
| NetFilter.TcpUdpEntriesAll | RuntimeManager/Gateway/NetFilter.cpp:188-209 | a list of tcp and udp entries only is kept whole |
| NetFilter.PunchedInTcpUdp | RuntimeManager/Gateway/NetFilterUtils.c:1141-1151 | every entry collected from a chain carries tcp or udp |
| NetFilter.PunchedInChainsTcpUdp | RuntimeManager/Gateway/NetFilterUtils.c:1106-1158 | every entry collected from the table carries tcp or udp |
| NetFilter.PortForwardListExact | RuntimeManager/Gateway/NetFilter.cpp:177-212 | each reported forward is one listed hole punch, in order, none dropped and at most 32 |
| NetFilter.ConvertEntries | RuntimeManager/Gateway/NetFilter.cpp:188-209 | the conversion loop builds exactly `PortForwards` |
| NetFilter.RemoveAllRulesMatchingComment | RuntimeManager/Gateway/NetFilter.cpp:80-90 | the body is commented out, so the ruleset is left as it is |
| NetFilter.OpenExternalPort | RuntimeManager/Gateway/NetFilter.cpp:112-122 | corrected placement: true exactly when the C function returns 0, with the ruleset it leaves |
| NetFilter.AddContainerPortForwarding | RuntimeManager/Gateway/NetFilter.cpp:151-166 | corrected placement: true exactly when both the nat and the filter rule went in; the nat rule stays committed when only the filter half fails |
| NetFilter.GetContainerPortForwardList | RuntimeManager/Gateway/NetFilter.cpp:177-212 | the first 32 hole punches, converted, and none when the nat table cannot be opened |
| PackageManager.FileLocatorFor | PackageManager/PackageManagerImplementation.cpp:193 | a download is written to the download directory, "package" and its id, and the id can be read back off the end |
| PackageManager.Run | PackageManager/PackageManagerImplementation.cpp:697-722 | the retry loop makes at most `retries` downloads and reports the last status and code |
| PackageManager.RunStopsForAReason | PackageManager/PackageManagerImplementation.cpp:697-722 | the loop ends early only after a success or a 404, or when a retry finds the download cancelled; every earlier attempt was neither |
| PackageManager.RunReportsLastAttempt | PackageManager/PackageManagerImplementation.cpp:714-722 | the status and code reported are those of the last download made |
| PackageManager.ReasonOf | PackageManager/PackageManagerImplementation.cpp:726-734 | a 404 is a download failure; otherwise a disk error is a persistence failure, an HTTP error a download failure and success no failure |
| PackageManager.RetryDownload | PackageManager/PackageManagerImplementation.cpp:697-722 | the retry loop ends with exactly the outcome `Run` describes |
| PackageManager.LockAsWritten | PackageManager/PackageManagerImplementation.cpp:537-560 | as written: the count goes up only with success; ERROR_GENERAL only when the package is unlocked and the library lock fails |
| PackageManager.LockAsWrittenSucceedsWithoutLock | PackageManager/PackageManagerImplementation.cpp:543-560 | when `GetLockedInfo` fails, `Lock` returns ERROR_NONE without taking a lock or setting the lock id |
| PackageManager.LockOutcome | PackageManager/PackageManagerImplementation.cpp:537-560 | corrected: ERROR_NONE exactly when a lock is taken (already locked, or the library lock succeeds), and then the count goes up by one |
| PackageManager.LockThenUnlock | PackageManager/PackageManagerImplementation.cpp:547-634 | an unlock after a successful lock returns the count to its old value |
| PackageManager.PackageManagerImplementation.constructor | PackageManager/PackageManagerImplementation.cpp:32-41 | the id counter starts at 1000, the queue and the in-progress slot are empty |
| PackageManager.PackageManagerImplementation.Download | PackageManager/PackageManagerImplementation.cpp:183-205 | each download gets the next counter value as its id; a priority download goes to the front of the queue, any other to the back |
| PackageManager.PackageManagerImplementation.GetNext | PackageManager/PackageManagerImplementation.cpp:783-792 | the front of the queue moves into the slot only when the slot is free; the slot's download is returned |
| PackageManager.PackageManagerImplementation.SlotCheck | PackageManager/PackageManagerImplementation.cpp:207-266 | ERROR_GENERAL with nothing in progress, ERROR_UNKNOWN_KEY for another id, ERROR_NONE for the id in progress |
| PackageManager.PackageManagerImplementation.PauseDownload | PackageManager/PackageManagerImplementation.cpp:207-225 | the client is paused exactly when the id is the one in progress |
| PackageManager.PackageManagerImplementation.ResumeDownload | PackageManager/PackageManagerImplementation.cpp:227-245 | the client is resumed exactly when the id is the one in progress |
| PackageManager.PackageManagerImplementation.CancelDownload | PackageManager/PackageManagerImplementation.cpp:247-266 | the download in progress is marked cancelled and the client cancelled exactly when the id matches |
| PackageManager.PackageManagerImplementation.Delete | PackageManager/PackageManagerImplementation.cpp:268-285 | the file in progress cannot be deleted; any other gives ERROR_NONE exactly when it is removed |
| PackageManager.PackageManagerImplementation.DownloaderStep | PackageManager/PackageManagerImplementation.cpp:687-739 | one turn of the downloader takes the next download, runs the retry loop on it, reports its reason and frees the slot |
| PackageManager.PackageManagerImplementation.LockAsWrittenMethod | PackageManager/PackageManagerImplementation.cpp:529-569 | as written: an unknown package gives ERROR_BAD_REQUEST; otherwise result and count follow `LockAsWritten` |
| PackageManager.PackageManagerImplementation.Lock | PackageManager/PackageManagerImplementation.cpp:529-569 | corrected: an unknown package gives ERROR_BAD_REQUEST; otherwise result and count follow `LockOutcome` |
| PackageManager.PackageManagerImplementation.Unlock | PackageManager/PackageManagerImplementation.cpp:617-644 | an unknown package gives ERROR_BAD_REQUEST; a zero count stays zero with ERROR_NONE; otherwise the count goes down by one and the result reports the library unlock |
| PackageManager.DownloadIdsDistinct | PackageManager/PackageManagerImplementation.cpp:192 | downloads with different counter values have different ids |
| PreinstallManager.StoredInt | PreinstallManager/PreinstallManagerImplementation.cpp:214-215 | `%d` stores a 32-bit `int`: values that fit are kept, larger ones saturate at `LONG_MAX` and keep their low 32 bits |
| PreinstallManager.Stored | PreinstallManager/PreinstallManagerImplementation.cpp:214-215 | the stored triple equals the written one when every component fits in an `int` |
| PreinstallManager.LeadingDigits | PreinstallManager/PreinstallManagerImplementation.cpp:215 | `%d` consumes the longest run of leading digits |
| PreinstallManager.LeadingDigitsOfDigits | PreinstallManager/PreinstallManagerImplementation.cpp:215 | a digit string followed by a non-digit is read whole |
| PreinstallManager.ScanNatRender | PreinstallManager/PreinstallManagerImplementation.cpp:215 | reading a rendered number back gives the `int` it is stored as and leaves the rest |
| PreinstallManager.DigitsAndDotsConcat | PreinstallManager/PreinstallManagerImplementation.cpp:219-225 | the digits-and-dots check holds for a concatenation of strings that pass it |
| PreinstallManager.ScanDotNatRender | PreinstallManager/PreinstallManagerImplementation.cpp:215 | a '.' followed by a rendered number is read back as the `int` it is stored as |
| PreinstallManager.RenderScans | PreinstallManager/PreinstallManagerImplementation.cpp:215 | scanning "maj.min.patch" rendered from a triple gives the stored triple |
| PreinstallManager.RenderDigitsAndDots | PreinstallManager/PreinstallManagerImplementation.cpp:219-225 | a rendered triple holds only digits and dots |
| PreinstallManager.RenderRoundTrip | PreinstallManager/PreinstallManagerImplementation.cpp:212-227 | every rendered triple of non-negative `int`s is a valid version and scans back to itself |
| PreinstallManager.TwoPartsInvalid | PreinstallManager/PreinstallManagerImplementation.cpp:214-218 | a two-part version is rejected, since the scan needs three numbers |
| PreinstallManager.LetterInvalid | PreinstallManager/PreinstallManagerImplementation.cpp:219-225 | a version holding a letter is rejected by the character check |
| PreinstallManager.EmptyComponentInvalid | PreinstallManager/PreinstallManagerImplementation.cpp:214-218 | a version with an empty component is rejected |
| PreinstallManager.FourPartsValid | PreinstallManager/PreinstallManagerImplementation.cpp:212-227 | a fourth numeric part is accepted, since the check stops after three |
| PreinstallManager.Base | PreinstallManager/PreinstallManagerImplementation.cpp:231-236 | the base version is the prefix before the first '-' or '+', or the whole string |
| PreinstallManager.BaseIgnoresSuffix | PreinstallManager/PreinstallManagerImplementation.cpp:231-236 | whatever follows a '-' or '+' does not change the base version |
| PreinstallManager.FindInPrefix | PreinstallManager/PreinstallManagerImplementation.cpp:232-233 | `find` in a string with something appended returns the same position when the prefix has the character, and a position past the prefix otherwise |
| PreinstallManager.TripleGreaterTrichotomy | PreinstallManager/PreinstallManagerImplementation.cpp:248-255 | the lexicographic comparison of triples is irreflexive, asymmetric and total on distinct triples |
| PreinstallManager.TripleGreaterTransitive | PreinstallManager/PreinstallManagerImplementation.cpp:248-255 | the lexicographic comparison of triples is transitive |
| PreinstallManager.NewerIsStrictOrder | PreinstallManager/PreinstallManagerImplementation.cpp:229-256 | "newer" is a strict order: a version is not newer than itself, never in both directions, and transitive |
| PreinstallManager.NewerIgnoresSuffix | PreinstallManager/PreinstallManagerImplementation.cpp:231-236 | a pre-release or build suffix on either side does not change the comparison |
| PreinstallManager.BaseOfDigitsAndDots | PreinstallManager/PreinstallManagerImplementation.cpp:231-236 | a version of digits and dots is its own base: nothing is cut |
| PreinstallManager.NewerRendered | PreinstallManager/PreinstallManagerImplementation.cpp:229-256 | on rendered triples of non-negative `int`s, "newer" is exactly the lexicographic comparison of major, minor and patch |
| PreinstallManager.ValidOfScanned | PreinstallManager/PreinstallManagerImplementation.cpp:212-227 | once the scan is known, a version is valid exactly when it holds only digits and dots and no stored component is negative |
| PreinstallManager.NewerOfScanned | PreinstallManager/PreinstallManagerImplementation.cpp:229-256 | on versions of digits and dots, "newer" is validity of both and the comparison of the stored triples |
| PreinstallManager.OverflowingComponentRefused | PreinstallManager/PreinstallManagerImplementation.cpp:212-227 | a major version from 2^31 to 2^32 - 1 is stored negative, so the version is refused although it has only digits and dots |
| PreinstallManager.WrappedMajorCompares | PreinstallManager/PreinstallManagerImplementation.cpp:243-255 | a major version 2^32 above another compares exactly as that one, on either side |
| PreinstallManager.IsValidSemVer | PreinstallManager/PreinstallManagerImplementation.cpp:212-227 | the loop accepts exactly the versions that scan as three numbers, contain only digits and dots, and store no negative component |
| PreinstallManager.IsNewerVersion | PreinstallManager/PreinstallManagerImplementation.cpp:229-256 | returns exactly `Newer`: false when either base is invalid, else the comparison of the stored 32-bit triples |
| PreinstallManager.DirectoryPackages | PreinstallManager/PreinstallManagerImplementation.cpp:270-295 | one package per entry other than "." and "..", with empty id and version since the configuration lookup is commented out |
| PreinstallManager.ReadPreinstallDirectory | PreinstallManager/PreinstallManagerImplementation.cpp:258-300 | false with the list untouched when the directory cannot be opened; otherwise its packages are appended |
| PreinstallManager.FindInstalled | PreinstallManager/PreinstallManagerImplementation.cpp:357-364 | the first installed package with the same id, or none when there is none |
| PreinstallManager.Filtered | PreinstallManager/PreinstallManagerImplementation.cpp:353-385 | the filter only drops packages |
| PreinstallManager.FilteredOnlyKeeps | PreinstallManager/PreinstallManagerImplementation.cpp:366-384 | every kept package was a candidate that is not installed or is strictly newer than the installed one |
| PreinstallManager.FilteredKeepsAll | PreinstallManager/PreinstallManagerImplementation.cpp:366-384 | every candidate that is not installed or is strictly newer is kept |
| PreinstallManager.FilteredNothingInstalled | PreinstallManager/PreinstallManagerImplementation.cpp:353-385 | with nothing installed, every candidate is kept in order |
| PreinstallManager.ShouldRemove | PreinstallManager/PreinstallManagerImplementation.cpp:357-375 | a candidate is removed exactly when an installed package with its id is not older |
| PreinstallManager.FilterProgressStep | PreinstallManager/PreinstallManagerImplementation.cpp:353-385 | erasing or skipping the current candidate keeps the loop's account of what it has kept |
| PreinstallManager.FilterProgressDone | PreinstallManager/PreinstallManagerImplementation.cpp:353-385 | when the loop reaches the end, the remaining list is exactly the filter |
| PreinstallManager.FilterInstalled | PreinstallManager/PreinstallManagerImplementation.cpp:353-385 | the in-place erase loop leaves exactly the filtered list, in order |
| PreinstallManager.CountFailuresZero | PreinstallManager/PreinstallManagerImplementation.cpp:411-417 | no failure is counted exactly when every install succeeds |
| PreinstallManager.InstallAll | PreinstallManager/PreinstallManagerImplementation.cpp:388-428 | every package is attempted, packages with empty fields included; the failures and skips are counted, and the error flag is set exactly when some install fails |
| PreinstallManager.ListGuardAsWrittenDereferencesNull | PreinstallManager/PreinstallManagerImplementation.cpp:338-343 | as written, the guard goes on to iterate a null list when `ListPackages` fails or returns no list |
| PreinstallManager.ListGuard | PreinstallManager/PreinstallManagerImplementation.cpp:338-343 | corrected: the filter goes ahead exactly when `ListPackages` succeeds with a list, and never with a null one |
| PreinstallManager.ListGuardAgreesOffNull | PreinstallManager/PreinstallManagerImplementation.cpp:338-343 | the corrected and the as-written guard agree whenever a list is returned |
| PreinstallManager.InstallResults | PreinstallManager/PreinstallManagerImplementation.cpp:407 | the i-th install result is the installer's answer for the i-th package |
| PreinstallManager.StartPreinstall | PreinstallManager/PreinstallManagerImplementation.cpp:308-432 | no installer, an unreadable directory or a failed listing gives ERROR_GENERAL with nothing installed; otherwise the filtered packages are installed in order, with ERROR_NONE exactly when all succeed |
| RalfSupport.DirsWellFormed | RuntimeManager/ralf/RalfSupport.cpp:63-66 | every directory name taken from a path is non-empty and holds no slash |
| RalfSupport.FindDrop | RuntimeManager/ralf/RalfSupport.cpp:63 | `find` in a suffix is `find` in the whole path counted from where the suffix starts |
| RalfSupport.DirsUnfold | RuntimeManager/ralf/RalfSupport.cpp:63-85 | the directories of a path are the piece before its first slash, when non-empty, then those after that slash |
| RalfSupport.DirsAtSlash | RuntimeManager/ralf/RalfSupport.cpp:63-84 | a slash at the scan position names no directory and the scan goes on after it |
| RalfSupport.DirsAtLast | RuntimeManager/ralf/RalfSupport.cpp:63-83 | with no slash left, the rest of the path is the last directory and the loop stops |
| RalfSupport.DirsAtPiece | RuntimeManager/ralf/RalfSupport.cpp:63-84 | the piece up to the next slash is the next directory and the scan resumes after that slash |
| RalfSupport.DirsFromStart | RuntimeManager/ralf/RalfSupport.cpp:53-58 | skipping one leading slash of an absolute path does not change the directories named |
| RalfSupport.Attempts | RuntimeManager/ralf/RalfSupport.cpp:66-80 | one `mkdir` path per directory |
| RalfSupport.CreateDirectories | RuntimeManager/ralf/RalfSupport.cpp:43-89 | the loop gives exactly the outcome and the `mkdir` calls of `CreateOutcome` |
| RalfSupport.RunDirsStep | RuntimeManager/ralf/RalfSupport.cpp:68-79 | for one directory `mkdir` is called on the extended path; a failure other than EEXIST ends the loop with false, otherwise it goes on |
| RalfSupport.RunDirsLast | RuntimeManager/ralf/RalfSupport.cpp:68-88 | for the last directory the result is whether its `mkdir` succeeded or found it existing |
| RalfSupport.AddDir | RuntimeManager/ralf/RalfSupport.cpp:68-70 | one more directory extends the current path and adds it to the attempts |
| RalfSupport.RunDirsMeaning | RuntimeManager/ralf/RalfSupport.cpp:60-88 | the calls made are a prefix of the plan, no call before the last one failed, and success means the whole plan was tried with no failure |
| RalfSupport.CreateOutcomeMeaning | RuntimeManager/ralf/RalfSupport.cpp:43-89 | an empty path fails with no call; otherwise `mkdir` is called on a prefix of the cumulative paths, stopping at the first error other than EEXIST, and true means every one was created or already there |
| RalfSupport.AttemptsPrefix | RuntimeManager/ralf/RalfSupport.cpp:68-80 | the attempts for fewer directories are a prefix of those for more |
| RalfSupport.JoinPathLast | RuntimeManager/ralf/RalfSupport.cpp:68-70 | a joined path ends with the last character of its last directory |
| RalfSupport.ReachedJoined | RuntimeManager/ralf/RalfSupport.cpp:68-70 | the current path is the base followed by the directories joined with single slashes |
| RalfSupport.MkdirPlanCumulative | RuntimeManager/ralf/RalfSupport.cpp:53-80 | the k-th `mkdir` path is the base and the first k+1 directories joined |
| RalfSupport.FindShift | RuntimeManager/ralf/RalfSupport.cpp:63 | `find` after a prefix is `find` in the rest, shifted |
| RalfSupport.FindAppend | RuntimeManager/ralf/RalfSupport.cpp:63 | appending text does not move a slash already found, and otherwise `find` continues into the appended text |
| RalfSupport.DirsConcat | RuntimeManager/ralf/RalfSupport.cpp:60-85 | joining two paths with a slash names the directories of both |
| RalfSupport.DirsConcatName | RuntimeManager/ralf/RalfSupport.cpp:60-85 | the same for a first part without a slash |
| RalfSupport.MkdirPlanTrailingSlash | RuntimeManager/ralf/RalfSupport.cpp:65-84 | a trailing slash does not change the calls made |
| RalfSupport.DirsSlashPrefix | RuntimeManager/ralf/RalfSupport.cpp:53-65 | a leading slash names no directory |
| RalfSupport.MkdirPlanRepeatedSlash | RuntimeManager/ralf/RalfSupport.cpp:65 | a doubled slash does not change the calls made |
| RalfSupport.DirsSingle | RuntimeManager/ralf/RalfSupport.cpp:60-85 | a name without a slash is one directory |
| RalfSupport.PackagePairs | RuntimeManager/ralf/RalfSupport.cpp:100-105 | one (metadata path, mount path) pair per element of "packages", in order |
| RalfSupport.PackagePairsRoundTrip | RuntimeManager/ralf/RalfSupport.cpp:91-107 | a package list document reads back as its own pairs |
| RalfSupport.ParseRalPkgInfo | RuntimeManager/ralf/RalfSupport.cpp:91-107 | false with the list untouched exactly when the loaded document has no "packages"; otherwise its pairs are appended |
| RalfSupport.AppendPackagePairs | RuntimeManager/ralf/RalfSupport.cpp:100-105 | the loop appends exactly `PackagePairs` |
| RalfSupport.OverlayMount | RuntimeManager/ralf/RalfSupport.cpp:139-157 | the overlay is mounted at the work directory's rootfs with the lowerdir and workdir options |
| RalfSupport.GenerateOciRootfs | RuntimeManager/ralf/RalfSupport.cpp:139-157 | creates the rootfs directories (ignoring the result), mounts the overlay, and sets the rootfs path exactly when the mount succeeds |
| RalfSupport.DirsCons | RuntimeManager/ralf/RalfSupport.cpp:60-85 | a leading name is the first directory |
| RalfSupport.DirsConsKnown | RuntimeManager/ralf/RalfSupport.cpp:63-85 | a name and a slash before a path add that name in front of the path's directories |
| RalfSupport.DirsOfFourNames | RuntimeManager/ralf/RalfSupport.cpp:53-85 | an absolute path of four slash-free names names exactly those four directories |
| RalfSupport.RootfsDirs | RuntimeManager/ralf/RalfSupport.cpp:143-144 | the app rootfs path names tmp, ralf, the instance id and rootfs |
| RalfSupport.ExtendName | RuntimeManager/ralf/RalfSupport.cpp:68-70 | adding a name to a path that does not end in a slash puts exactly one slash between them, and the result does not end in a slash |
| RalfSupport.AttemptsSnoc | RuntimeManager/ralf/RalfSupport.cpp:68-72 | one more directory after such a path adds one `mkdir` call on the path, a slash and the name |
| RalfSupport.AttemptsOfThreeNames | RuntimeManager/ralf/RalfSupport.cpp:53-80 | an absolute path of three names is created by `mkdir` on its three cumulative prefixes |
| RalfSupport.AttemptsOfFourNames | RuntimeManager/ralf/RalfSupport.cpp:53-80 | an absolute path of four names is created by `mkdir` on its four cumulative prefixes |
| RalfSupport.RootfsDirectories | RuntimeManager/ralf/RalfSupport.cpp:143-145 | creating the app rootfs calls `mkdir` on /tmp, /tmp/ralf, the work directory and its rootfs |
| RalfSupport.DevTypeChar | RuntimeManager/ralf/RalfSupport.cpp:167 | 'b' exactly for a block device and 'c' exactly for a character device |
| RalfSupport.GetDevNodeMajorMinorAsWritten | RuntimeManager/ralf/RalfSupport.cpp:159-170 | always true; the numbers come from `stat` when it succeeds and stay as passed in otherwise |
| RalfSupport.GetDevNodeMajorMinorAsWrittenHidesFailure | RuntimeManager/ralf/RalfSupport.cpp:163-169 | a failed `stat` still reports success with zeroed numbers |
| RalfSupport.GetDevNodeMajorMinor | RuntimeManager/ralf/RalfSupport.cpp:159-170 | a result exactly when `stat` succeeds, holding its major, minor and type |
| RalfSupport.GetDevNodeMajorMinorAgrees | RuntimeManager/ralf/RalfSupport.cpp:159-170 | when `stat` succeeds the code as written and the corrected one agree |
| RuntimeRalfSupport.ParseConfig | RuntimeManager/RalfSupport.h:104-120 | false with the list untouched exactly when the text does not parse; otherwise the "packages" pairs are appended |
| RuntimeRalfSupport.MissingPackagesAccepted | RuntimeManager/RalfSupport.h:104-120 | a document without "packages" gives no pairs here, where the ralf copy refuses it |
| RuntimeRalfSupport.ParseConfigRoundTrip | RuntimeManager/RalfSupport.h:112-117 | a package list document reads back as its own pairs |
| RalfPackageBuilder.BuildPackageLayers | RuntimeManager/ralf/RalfPackageBuilder.cpp:37-41 | the loop builds the graphics layer followed by ":" and each mount path |
| RalfPackageBuilder.SplitLayers | RuntimeManager/ralf/RalfPackageBuilder.cpp:37-41 | a layer list always has at least one layer |
| RalfPackageBuilder.MountPaths | RuntimeManager/ralf/RalfPackageBuilder.cpp:38-41 | the mount path of each package, in order |
| RalfPackageBuilder.SplitLayersAppend | RuntimeManager/ralf/RalfPackageBuilder.cpp:40 | appending ":" and a layer without a colon adds exactly that layer |
| RalfPackageBuilder.PackageLayersRoundTrip | RuntimeManager/ralf/RalfPackageBuilder.cpp:34-45 | splitting the lowerdir list at colons gives back the graphics layer and each package's mount path, in order |
| RalfPackageBuilder.GraphicsLayerIsOneLayer | RuntimeManager/ralf/RalfConstants.h:8-9 | the graphics layer path holds no colon, so it is one layer |
| RalfPackageBuilder.GenerateOciRootfsPackage | RuntimeManager/ralf/RalfPackageBuilder.cpp:34-45 | mounts the overlay over the graphics layer and the package layers, with the rootfs path set exactly when the mount succeeds |
| RalfPackageBuilder.ConfigFilePath | RuntimeManager/ralf/RalfPackageBuilder.cpp:88 | the config file sits in the app's work directory as config.json |
| RalfPackageBuilder.ConfigBesideRootfs | RuntimeManager/ralf/RalfPackageBuilder.cpp:88 | the config file is not the mounted rootfs |
| RalfPackageBuilder.GenerateRalfPackageConfig | RuntimeManager/ralf/RalfPackageBuilder.cpp:46-70 | an existing config is reused with nothing written; otherwise the generated configuration is saved, and the result says whether that worked |
| RalfPackageBuilder.GenerateOciRootfsPackageForAppInstance | RuntimeManager/ralf/RalfPackageBuilder.cpp:30-96 | true exactly when the package list loads, the overlay mounts and the config is reused or saved; each step runs only after the one before succeeded |
| RalfPackageBuilder.GenerateRalfDobbySpec | RuntimeManager/ralf/RalfPackageBuilder.cpp:98-102 | not implemented: always false |
| RuntimeRalfPackageBuilder.SameGraphicsLayer | RuntimeManager/RalfPackageBuilder.cpp:27 | the RuntimeManager copy uses the same graphics layer path as the ralf copy |
| RuntimeRalfPackageBuilder.ExtractRalfPackagesFromConfig | RuntimeManager/RalfPackageBuilder.cpp:29-42 | false with the list untouched when the file cannot be opened or does not parse; otherwise the "packages" pairs are appended |
| RuntimeRalfPackageBuilder.GenerateOciRootfsPackage | RuntimeManager/RalfPackageBuilder.cpp:43-54 | mounts the overlay over the graphics layer and the package layers, with the rootfs path set exactly when the mount succeeds |
| RuntimeRalfPackageBuilder.GenerateRalfPackageConfig | RuntimeManager/RalfPackageBuilder.cpp:55-59 | not implemented: always true |
| RuntimeRalfPackageBuilder.GenerateOciRootfsPackageForAppInstance | RuntimeManager/RalfPackageBuilder.cpp:61-83 | true exactly when the package list is read and the overlay mounts, with the rootfs path set only then |
| RalfOciConfigGenerator.AppendedAllFrame | RuntimeManager/ralf/RalfOCIConfigGenerator.cpp:102-142 | appending values to the list at a path adds them at its end and leaves every path off it alone |
| RalfOciConfigGenerator.AppendEach | RuntimeManager/ralf/RalfOCIConfigGenerator.cpp:317-342 | the append loop gives exactly `AppendedAll` |
| RalfOciConfigGenerator.TopKept | RuntimeManager/ralf/RalfOCIConfigGenerator.cpp:82-145 | a change below one top-level member leaves the other top-level members as they were |
| RalfOciConfigGenerator.AddMountEntryFrame | RuntimeManager/ralf/RalfOCIConfigGenerator.cpp:190-206 | adds one bind mount with rbind and rw at the end of "mounts" and changes no other member |
| RalfOciConfigGenerator.GenerateHook | RuntimeManager/ralf/RalfOCIConfigGenerator.cpp:154-189 | the hook list of the operation becomes one DobbyPluginLauncher entry naming the operation and the config file; nothing else changes |
| RalfOciConfigGenerator.GenerateHooksInstalled | RuntimeManager/ralf/RalfOCIConfigGenerator.cpp:146-153 | all four hooks, createRuntime, createContainer, poststart and poststop, hold their launcher entry |
| RalfOciConfigGenerator.GenerateHooksKeepsOthers | RuntimeManager/ralf/RalfOCIConfigGenerator.cpp:146-153 | a hook of any other operation is left as it was |
| RalfOciConfigGenerator.GenerateHooksKeepsTop | RuntimeManager/ralf/RalfOCIConfigGenerator.cpp:146-153 | no top-level member but "hooks" changes |
| RalfOciConfigGenerator.UserAppliedMeaning | RuntimeManager/ralf/RalfOCIConfigGenerator.cpp:86-89 | the process runs as uid 0 and gid 0 with only the video group 44 added; nothing else changes |
| RalfOciConfigGenerator.InterleavedEnv | RuntimeManager/ralf/RalfOCIConfigGenerator.cpp:119-142 | the interleaved appends add exactly their four environment values, in order |
| RalfOciConfigGenerator.InterleavedMounts | RuntimeManager/ralf/RalfOCIConfigGenerator.cpp:119-142 | the interleaved appends add exactly their three mount values, in order |
| RalfOciConfigGenerator.InterleavedFrame | RuntimeManager/ralf/RalfOCIConfigGenerator.cpp:119-142 | the interleaved appends change no path off the environment and the mounts |
| RalfOciConfigGenerator.EnvAndMountsEnv | RuntimeManager/ralf/RalfOCIConfigGenerator.cpp:119-140 | the environment gains WAYLAND_DISPLAY, XDG_RUNTIME_DIR, HOME and RIALTO_SOCKET_PATH, in that order |
| RalfOciConfigGenerator.EnvAndMountsMounts | RuntimeManager/ralf/RalfOCIConfigGenerator.cpp:124-142 | the mounts gain the Wayland socket, the app storage at /home/root and the Rialto socket, in that order |
| RalfOciConfigGenerator.EnvAndMountsFrame | RuntimeManager/ralf/RalfOCIConfigGenerator.cpp:118-143 | no path off the environment and the mounts changes |
| RalfOciConfigGenerator.MappingsLists | RuntimeManager/ralf/RalfOCIConfigGenerator.cpp:97-116 | the uid mappings gain the app user at 0; the gid mappings gain the app group at 0 and video 44 at 44 |
| RalfOciConfigGenerator.MappingsFrame | RuntimeManager/ralf/RalfOCIConfigGenerator.cpp:97-116 | no path off the two mapping lists changes |
| RalfOciConfigGenerator.RuntimeAfterCwd | RuntimeManager/ralf/RalfOCIConfigGenerator.cpp:97-143 | the mappings, environment and mounts steps change nothing but their lists |
| RalfOciConfigGenerator.UserHostCwdMeaning | RuntimeManager/ralf/RalfOCIConfigGenerator.cpp:85-95 | user, hostname (the app id) and working directory (/home/root) are set as stated |
| RalfOciConfigGenerator.RuntimeAndAppUser | RuntimeManager/ralf/RalfOCIConfigGenerator.cpp:82-145 | after the whole step the user, hostname and working directory are still as set |
| RalfOciConfigGenerator.UserHostCwdFrame | RuntimeManager/ralf/RalfOCIConfigGenerator.cpp:85-95 | nothing but the user, the hostname and the working directory changes |
| RalfOciConfigGenerator.RuntimeAndAppFrame | RuntimeManager/ralf/RalfOCIConfigGenerator.cpp:82-145 | nothing outside the set values and the extended lists changes |
| RalfOciConfigGenerator.RuntimeListsApart | RuntimeManager/ralf/RalfOCIConfigGenerator.cpp:82-145 | the environment, mounts and id mapping lists lie apart from one another and from the user, hostname and working directory |
| RalfOciConfigGenerator.RuntimeAndAppLists | RuntimeManager/ralf/RalfOCIConfigGenerator.cpp:82-145 | every extended list gains exactly its runtime entries in source order |
| RalfOciConfigGenerator.Resolved | RuntimeManager/ralf/RalfOCIConfigGenerator.cpp:259-265 | every device kept was read by `stat`, with its numbers |
| RalfOciConfigGenerator.ResolvedAll | RuntimeManager/ralf/RalfOCIConfigGenerator.cpp:259-265 | if every node can be read, all are kept in order |
| RalfOciConfigGenerator.DeviceEntries | RuntimeManager/ralf/RalfOCIConfigGenerator.cpp:266-272 | one device entry (path, type, major, minor) per resolved node |
| RalfOciConfigGenerator.ResourceEntries | RuntimeManager/ralf/RalfOCIConfigGenerator.cpp:275-281 | one "rwm" allowed resource entry per resolved node |
| RalfOciConfigGenerator.DeviceListsApart | RuntimeManager/ralf/RalfOCIConfigGenerator.cpp:272-281 | the device list and the resource device list are separate paths |
| RalfOciConfigGenerator.DeviceAddedForDevices | RuntimeManager/ralf/RalfOCIConfigGenerator.cpp:264-272 | a readable node adds exactly one device entry, an unreadable one none |
| RalfOciConfigGenerator.DeviceAddedForResources | RuntimeManager/ralf/RalfOCIConfigGenerator.cpp:274-281 | a readable node adds exactly one resource entry allowing read, write and mknod, an unreadable one none |
| RalfOciConfigGenerator.DeviceAddedForElsewhere | RuntimeManager/ralf/RalfOCIConfigGenerator.cpp:264-283 | one iteration changes nothing outside the two device lists |
| RalfOciConfigGenerator.DevicesAddedDevices | RuntimeManager/ralf/RalfOCIConfigGenerator.cpp:259-288 | the device loop appends a device entry for exactly the resolved nodes, in order |
| RalfOciConfigGenerator.DevicesAddedResources | RuntimeManager/ralf/RalfOCIConfigGenerator.cpp:259-288 | the device loop appends a resource entry for exactly the resolved nodes, in order |
| RalfOciConfigGenerator.DevicesAddedFrame | RuntimeManager/ralf/RalfOCIConfigGenerator.cpp:259-288 | the device loop changes nothing outside the two device lists |
| RalfOciConfigGenerator.DeviceEntriesConcat | RuntimeManager/ralf/RalfOCIConfigGenerator.cpp:264-283 | the entries of two runs of resolved nodes are the entries of each run, one after the other |
| RalfOciConfigGenerator.GraphicsApplied | RuntimeManager/ralf/RalfOCIConfigGenerator.cpp:256-295 | corrected: the graphics step succeeds exactly when vendorGpuSupport has devNodes; a device node that cannot be stat-ed is skipped rather than added as a NUL 0/0 device |
| RalfOciConfigGenerator.ApplyGraphicsConfig | RuntimeManager/ralf/RalfOCIConfigGenerator.cpp:235-296 | corrected: false with the tree untouched without devNodes; otherwise the tree becomes `GraphicsApplied`, which leaves out device nodes that cannot be stat-ed |
| RalfOciConfigGenerator.DeviceAddedAsWrittenAddsUnreadableNode | RuntimeManager/ralf/RalfOCIConfigGenerator.cpp:262-272 | as written, a node `stat` cannot read is added with a NUL type and numbers 0; the corrected step adds nothing |
| RalfOciConfigGenerator.EnvEntries | RuntimeManager/ralf/RalfOCIConfigGenerator.cpp:332-342 | no more environment entries than configurations |
| RalfOciConfigGenerator.EnvEntriesAll | RuntimeManager/ralf/RalfOCIConfigGenerator.cpp:336-339 | configurations that all have key and value give one "key=value" each, in order |
| RalfOciConfigGenerator.EnvEntriesSkips | RuntimeManager/ralf/RalfOCIConfigGenerator.cpp:336 | a configuration without key or value adds nothing |
| RalfOciConfigGenerator.AppendConfigurations | RuntimeManager/ralf/RalfOCIConfigGenerator.cpp:329-343 | the configurations loop appends exactly `EnvEntries` |
| RalfOciConfigGenerator.PackageConfigLists | RuntimeManager/ralf/RalfOCIConfigGenerator.cpp:297-350 | a package adds its entryPoint to the args when present, its permissions to the capabilities and its key/value configurations to the environment |
| RalfOciConfigGenerator.PackageConfigFrame | RuntimeManager/ralf/RalfOCIConfigGenerator.cpp:297-350 | a package changes nothing but those three lists |
| RalfOciConfigGenerator.ApplyRalfPackageConfig | RuntimeManager/ralf/RalfOCIConfigGenerator.cpp:297-350 | always true, and the tree becomes `PackageConfigApplied` |
| RalfOciConfigGenerator.PackagesAppliedSucceeds | RuntimeManager/ralf/RalfOCIConfigGenerator.cpp:54-67 | the package loop fails exactly when one package configuration file cannot be loaded |
| RalfOciConfigGenerator.OciConfigSucceeds | RuntimeManager/ralf/RalfOCIConfigGenerator.cpp:29-78 | the configuration is built exactly when the base spec and the graphics config load, the graphics config lists devNodes, and every package file loads |
| RalfOciConfigGenerator.HooksApartFromRuntime | RuntimeManager/ralf/RalfOCIConfigGenerator.cpp:82-153 | the four hook lists lie apart from every path the runtime step writes |
| RalfOciConfigGenerator.FinishedContent | RuntimeManager/ralf/RalfOCIConfigGenerator.cpp:68-153 | after hooks and runtime settings the four hooks hold their launcher entry, the user is root with the video group, the host is named after the app, the working directory is HOME, and environment and mounts end with the runtime entries |
| RalfOciConfigGenerator.OciConfigContent | RuntimeManager/ralf/RalfOCIConfigGenerator.cpp:29-189 | every configuration the generator builds has that generated content, whatever the packages contributed |
| RalfOciConfigGenerator.ApplyPackages | RuntimeManager/ralf/RalfOCIConfigGenerator.cpp:54-67 | true exactly when every package file loads, and then the tree is `PackagesApplied` |
| RalfOciConfigGenerator.GenerateRalfOciConfig | RuntimeManager/ralf/RalfOCIConfigGenerator.cpp:29-81 | corrected: writes exactly the built configuration when the output file opens, nothing otherwise, and reports whether it wrote; the configuration leaves out device nodes that cannot be stat-ed |
| AppManagerReporting.AppMarker | AppManager/AppManagerTelemetryReporting.cpp:137 | the record key is the app id, a ':' and the marker name |
| AppManagerReporting.AppMarkerInjective | AppManager/AppManagerTelemetryReporting.cpp:137-269 | for app ids without ':' the key determines both the app and the marker |
| AppManagerReporting.ActionMarker | AppManager/AppManagerTelemetryReporting.cpp:106-127 | LAUNCH and PRELOAD give the launch marker; TERMINATE, KILL and a CLOSE not aimed at SUSPENDED or HIBERNATED give the close marker; nothing else gives one |
| AppManagerReporting.DataRecord | AppManager/AppManagerTelemetryReporting.cpp:84-146 | a record is made exactly when the app is known, its current action is the argument, the telemetry object exists and the action has a marker; it is keyed by app and marker, names the marker, and holds under appManagerLaunchTime or appManagerCloseTime the milliseconds since the action started, cut to a 32-bit `int` |
| AppManagerReporting.Elapsed | AppManager/AppManagerTelemetryReporting.cpp:110 | the reported duration is the exact millisecond difference whenever it is below 2^31 |
| AppManagerReporting.ElapsedWraps | AppManager/AppManagerTelemetryReporting.cpp:110 | from 2^31 ms (about 24.8 days) to 2^32 ms after the action started, the reported duration is negative: the difference minus 2^32 |
| AppManagerReporting.StateChangeMarker | AppManager/AppManagerTelemetryReporting.cpp:166-201 | only LAUNCH reaching ACTIVE, PRELOAD reaching PAUSED and CLOSE/TERMINATE/KILL reaching UNLOADED give a marker |
| AppManagerReporting.KindOf | AppManager/AppManagerTelemetryReporting.cpp:174-194 | launchType is LAUNCH_INTERACTIVE or PRELOAD_INTERACTIVE for an interactive app and START_SYSTEM otherwise; closeType names the action |
| AppManagerReporting.StateChangeRecord | AppManager/AppManagerTelemetryReporting.cpp:148-224 | a state-change record is made exactly when the app is known, the object exists and the change has a marker; it carries app id, instance id, version, secondary id, marker, and under totalLaunchTime or totalCloseTime the milliseconds since the action started, cut to a 32-bit `int` |
| AppManagerReporting.ErrorMarker | AppManager/AppManagerTelemetryReporting.cpp:244-260 | launch and preload failures use the launch-error marker, close, terminate and kill failures the close-error marker |
| AppManagerReporting.ErrorRecord | AppManager/AppManagerTelemetryReporting.cpp:226-274 | an error record is made for any action with a marker while the object exists, carrying exactly the error code, marker name, filter and the constant secondaryId "appInstanceId" |
| AppManagerReporting.LaunchKeysAgree | AppManager/AppManagerTelemetryReporting.cpp:137-214 | the launch-time record and the state-change record of the same launch share one key, so the store merges them |
| AppManagerReporting.AppManagerTelemetryReporting.constructor | AppManager/AppManagerTelemetryReporting.cpp:28-30 | starts without a telemetry object and with nothing recorded or published |
| AppManagerReporting.AppManagerTelemetryReporting.EnsureTelemetryObject | AppManager/AppManagerTelemetryReporting.cpp:62-99 | a missing telemetry object is looked up again; an existing one is kept |
| AppManagerReporting.AppManagerTelemetryReporting.ReportTelemetryData | AppManager/AppManagerTelemetryReporting.cpp:84-146 | records `DataRecord`, if any, and publishes nothing |
| AppManagerReporting.AppManagerTelemetryReporting.ReportTelemetryDataOnStateChange | AppManager/AppManagerTelemetryReporting.cpp:148-224 | records and publishes `StateChangeRecord`, if any, under its key |
| AppManagerReporting.AppManagerTelemetryReporting.ReportTelemetryErrorData | AppManager/AppManagerTelemetryReporting.cpp:226-274 | records and publishes `ErrorRecord`, if any, under its key |
| LifecycleReporting.MarkersDistinct | LifecycleManager/LifecycleManagerTelemetryReporting.h:24-29 | the six markers are distinct strings |
| LifecycleReporting.MarkerFor | LifecycleManager/LifecycleManagerTelemetryReporting.cpp:71-112 | each marker is chosen for exactly one request kind and resulting state (launch reaching its ACTIVE or PAUSED target, terminate to UNLOADED, suspend, resume, hibernate, terminate to SUSPENDED for wake) |
| LifecycleReporting.ElapsedMs | LifecycleManager/LifecycleManagerTelemetryReporting.cpp:51-52 | `(int)(currentTime - requestTime)` on `uint64_t`: always a 32-bit signed value, equal to the low 32 bits of the difference, and the exact difference (negative included) whenever that fits in 32 bits |
| LifecycleReporting.ElapsedMsWraps | LifecycleManager/LifecycleManagerTelemetryReporting.cpp:76 | from 2^31 to 2^32 ms after the request the recorded time is the difference minus 2^32, a negative number |
| LifecycleReporting.MetricsFor | LifecycleManager/LifecycleManagerTelemetryReporting.cpp:71-95 | launch records the spawn time, close the set-target-state time, the other markers that time with the app and instance ids; each time is `(int)` of the `uint64_t` difference of the clock and the request time (ElapsedMs) |
| LifecycleReporting.NotifiedAppId | LifecycleManager/LifecycleManagerTelemetryReporting.cpp:60 | the app id is the notification's "appId" field, empty when absent |
| LifecycleReporting.PublishedMarkers | LifecycleManager/LifecycleManagerTelemetryReporting.cpp:119-123 | a recorded change is also published exactly for the suspend, resume, hibernate and wake markers |
| LifecycleReporting.LifecycleManagerTelemetryReporting.constructor | LifecycleManager/LifecycleManagerTelemetryReporting.cpp:29-31 | nothing recorded or published |
| LifecycleReporting.LifecycleManagerTelemetryReporting.ReportTelemetryDataOnStateChange | LifecycleManager/LifecycleManagerTelemetryReporting.cpp:47-132 | nothing happens without an app id, a context or a marker; otherwise the metrics are recorded under the marker and published when `PublishesAt` says so |
| RuntimeManager.ContainerId | RuntimeManager/RuntimeManagerImplementation.cpp:27-158 | a container id is the "com.sky.as.apps" prefix followed by the app instance id |
| RuntimeManager.InstanceOf | RuntimeManager/RuntimeManagerImplementation.cpp:282-286 | the prefix is stripped when the container id starts with it; any other id is kept whole |
| RuntimeManager.InstanceOfContainerId | RuntimeManager/RuntimeManagerImplementation.cpp:158-286 | stripping the prefix from a container id gives back the instance id it was made from |
| RuntimeManager.Execute | RuntimeManager/RuntimeManagerImplementation.cpp:363-530 | the worker answers ERROR_GENERAL without the container plugin or for a request it does not serve (mount, unmount, any other), and otherwise passes on the plugin's result |
| RuntimeManager.UpdatedInfo | RuntimeManager/RuntimeManagerImplementation.cpp:114-150 | terminate and kill mark the app terminating, hibernate hibernating, wake waking; getinfo and run store the answer; unknown apps and other apps are left as they were |
| RuntimeManager.RuntimeStateOf | RuntimeManager/RuntimeManagerImplementation.cpp:755-778 | the recorded container state of a known instance, RUNTIME_STATE_UNKNOWN for an empty or unknown id |
| RuntimeManager.HibernateEnablesWake | RuntimeManager/RuntimeManagerImplementation.cpp:127-129 | after an accepted hibernate the instance is hibernating, so a wake is let through |
| RuntimeManager.RunStatusAsWritten | RuntimeManager/RuntimeManagerImplementation.cpp:850-912 | as written: ERROR_GENERAL without display information, and otherwise the container request's status once both display names are set and the spec is generated |
| RuntimeManager.RunIgnoresDisplayFailure | RuntimeManager/RuntimeManagerImplementation.cpp:857-912 | a display that fails to be created still gives ERROR_NONE when the container starts |
| RuntimeManager.RunStatus | RuntimeManager/RuntimeManagerImplementation.cpp:850-912 | corrected: ERROR_NONE exactly when the display is created, both names are set, the spec is generated and the request succeeds |
| RuntimeManager.RunStatusAgreesWhenDisplayCreated | RuntimeManager/RuntimeManagerImplementation.cpp:850-912 | the corrected and the as-written status agree whenever the display is created |
| RuntimeManager.NoticeFor | RuntimeManager/RuntimeManagerImplementation.cpp:276-335 | every known event produces a notice for the stripped instance id; an unknown event produces none |
| RuntimeManager.Broadcast | RuntimeManager/RuntimeManagerImplementation.cpp:292-329 | a notice goes to every registered listener once, in registration order |
| RuntimeManager.RuntimeManagerImplementation.constructor | RuntimeManager/RuntimeManagerImplementation.cpp:36-49 | no app, request, listener or notice yet |
| RuntimeManager.RuntimeManagerImplementation.HandleContainerRequest | RuntimeManager/RuntimeManagerImplementation.cpp:152-200 | an empty instance id gives ERROR_GENERAL with nothing queued; otherwise one request for the container is queued and ERROR_NONE comes exactly with a successful answer, which alone updates the app table; a terminate or kill the plugin carries out clears the instance's user id |
| RuntimeManager.RuntimeManagerImplementation.GetRuntimeState | RuntimeManager/RuntimeManagerImplementation.cpp:755-778 | returns `RuntimeStateOf` the table, known only for a recorded instance |
| RuntimeManager.RuntimeManagerImplementation.Wake | RuntimeManager/RuntimeManagerImplementation.cpp:947-969 | a wake request is sent only for a hibernating or hibernated instance, otherwise ERROR_GENERAL with nothing changed; once sent, ERROR_NONE exactly when the container accepts it, and then the table is `UpdatedInfo` for WAKE (the instance WAKING); a refused wake leaves the table as it was |
| RuntimeManager.RuntimeManagerImplementation.Annotate | RuntimeManager/RuntimeManagerImplementation.cpp:1045-1065 | an empty key gives ERROR_GENERAL with nothing sent, as does an empty instance id; otherwise one annotate request for the container id is sent and ERROR_NONE exactly when it is accepted; the table is never changed |
| RuntimeManager.RuntimeManagerImplementation.GetInfo | RuntimeManager/RuntimeManagerImplementation.cpp:1026-1043 | on success the information is moved out of the table (left empty there) into the result; on failure the out-parameter is untouched |
| RuntimeManager.RunRequestsDespiteDisplayFailure | RuntimeManager/RuntimeManagerImplementation.cpp:857-912 | a display that was not created but has both names still leads, as written, to the run request when the spec is generated, and never once corrected |
| RuntimeManager.RuntimeManagerImplementation.StartContainer | RuntimeManager/RuntimeManagerImplementation.cpp:912-925 | the run request for the container is sent unless the instance id is empty; on success the instance is recorded as starting with the returned descriptor, on failure the table is unchanged and ERROR_GENERAL is returned |
| RuntimeManager.RuntimeManagerImplementation.RunAsWritten | RuntimeManager/RuntimeManagerImplementation.cpp:780-934 | as written: without display names or a generated spec nothing is sent and ERROR_GENERAL comes back; otherwise, created display or not, the run request is sent and its status returned, an empty instance id gives ERROR_GENERAL with nothing sent, and success records the instance as starting |
| RuntimeManager.RuntimeManagerImplementation.Run | RuntimeManager/RuntimeManagerImplementation.cpp:780-934 | corrected: no request is sent unless the display is created, both display names are set and the spec is generated; an empty instance id gives ERROR_GENERAL with nothing sent; a failed request leaves the table unchanged; on success the instance is recorded as starting with the returned descriptor |
| RuntimeManager.RuntimeManagerImplementation.Register | RuntimeManager/RuntimeManagerImplementation.cpp:229-244 | a new listener is appended, a registered one not added twice; always ERROR_NONE |
| RuntimeManager.RuntimeManagerImplementation.Unregister | RuntimeManager/RuntimeManagerImplementation.cpp:246-269 | an unknown listener gives ERROR_GENERAL; a known one is removed from its place and the others keep their order |
| RuntimeManager.RuntimeManagerImplementation.Dispatch | RuntimeManager/RuntimeManagerImplementation.cpp:276-335 | the event's notice, if any, is delivered to every listener, and nothing else changes |
| SystemDelegate.ToLower | FbSettings/delegate/SystemDelegate.h:250-257 | the loop yields the input with every character passed through C `tolower`, same length |
| SystemDelegate.EqualsIgnoreCase | FbSettings/delegate/SystemDelegate.h:285-293 | the loop answers exactly case-insensitive equality; strings of different length never match |
| SystemDelegate.FirstMatch | FbSettings/delegate/SystemDelegate.h:259-283 | the if-chain picks the first table row equal to the input ignoring case, or none |
| SystemDelegate.UpperEqualIgnoringCase | FbSettings/delegate/SystemDelegate.h:259-283 | two all-upper-case codes that match ignoring case are equal |
| SystemDelegate.DistinctUpperRows | FbSettings/delegate/SystemDelegate.h:259-283 | distinct all-upper-case rows are also distinct ignoring case |
| SystemDelegate.TablesUpper | FbSettings/delegate/SystemDelegate.h:259-283 | every Thunder territory and Firebolt country code in the chains is upper case |
| SystemDelegate.TablesDistinct | FbSettings/delegate/SystemDelegate.h:259-283 | no two rows of either chain match each other ignoring case, so at most one branch can apply |
| SystemDelegate.NoRowMatches | FbSettings/delegate/SystemDelegate.h:259-283 | an upper-case code that is not a row matches no row ignoring case |
| SystemDelegate.FirstMatchOfRow | FbSettings/delegate/SystemDelegate.h:259-283 | with distinct rows, an input matching row i is answered by row i |
| SystemDelegate.ThunderToFireboltTable | FbSettings/delegate/SystemDelegate.h:259-270 | a territory matching the i-th Thunder code maps to the i-th Firebolt code; one matching none gets the default |
| SystemDelegate.FireboltToThunderTable | FbSettings/delegate/SystemDelegate.h:272-283 | a country matching the i-th Firebolt code maps to the i-th Thunder code; one matching none gets the default |
| SystemDelegate.TerritoryRoundTrip | FbSettings/delegate/SystemDelegate.h:259-283 | converting a known code to the other table and back gives the canonical code of its row, in both directions |
| SystemDelegate.LowerCaseTerritoryMaps | FbSettings/delegate/SystemDelegate.h:259-270 | "gbr" maps to "GB": the comparison ignores case |
| SystemDelegate.UnknownTerritoryDefaults | FbSettings/delegate/SystemDelegate.h:259-270 | "FRA" is in no row and yields the default |
| SystemDelegate.GetDeviceMake | FbSettings/delegate/SystemDelegate.h:48-72 | without a link ERROR_UNAVAILABLE and "unknown"; otherwise ERROR_NONE with the reported make, or "unknown" when it is missing or empty |
| SystemDelegate.GetDeviceName | FbSettings/delegate/SystemDelegate.h:75-96 | without a link ERROR_UNAVAILABLE and the default name; otherwise ERROR_NONE with the friendly name, or the default when it is missing or empty |
| SystemDelegate.DefaultsNeverEmpty | FbSettings/delegate/SystemDelegate.h:48-96 | the fallback make and name are not empty, so the getters never answer with an empty string |
| SystemDelegate.SetDeviceName | FbSettings/delegate/SystemDelegate.h:99-115 | without a link ERROR_UNAVAILABLE; otherwise the name is sent as "friendlyName" and the call's success decides ERROR_NONE or ERROR_GENERAL |
| SystemDelegate.GetDeviceSku | FbSettings/delegate/SystemDelegate.h:118-147 | ERROR_NONE exactly when "stbVersion" is present with a non-empty part before the first '_', which is the sku; otherwise ERROR_UNAVAILABLE and an empty sku |
| SystemDelegate.GetCountryCode | FbSettings/delegate/SystemDelegate.h:150-170 | without a link ERROR_UNAVAILABLE and "US"; otherwise ERROR_NONE with the territory converted to a Firebolt code, "US" when unknown or missing |
| SystemDelegate.SetCountryCode | FbSettings/delegate/SystemDelegate.h:173-191 | the country is converted to a Thunder territory ("USA" when unknown) and sent; the call's success decides the result |
| SystemDelegate.UnmappedCountrySendsUsa | FbSettings/delegate/SystemDelegate.h:173-191 | a country matching no row is sent as "USA" |
| SystemDelegate.GetTimeZone | FbSettings/delegate/SystemDelegate.h:194-213 | ERROR_NONE exactly when the call succeeds and its body has "timeZone", which is returned; otherwise ERROR_UNAVAILABLE and an empty zone |
| SystemDelegate.SetTimeZone | FbSettings/delegate/SystemDelegate.h:216-232 | without a link ERROR_UNAVAILABLE; otherwise the zone is sent as "timeZone" and the call's success decides the result |
| SystemDelegate.GetSecondScreenFriendlyName | FbSettings/delegate/SystemDelegate.h:235-238 | answers exactly what the device name getter answers |
| GatewayTelemetry.Inc32 | AppGateway/AppGatewayTelemetry.h:191 | `++` on the `uint32_t` counters: one more, except that 2^32 - 1 wraps to 0 |
| GatewayTelemetry.Increment | AppGateway/AppGatewayTelemetry.cpp:180-193 | the named error count goes up by one in `uint32_t` (from zero when absent, 2^32 - 1 wrapping to 0); every other name keeps its count |
| GatewayTelemetry.Classify | AppGateway/AppGatewayTelemetry.cpp:222-238 | a name containing "ApiError" is an API error, otherwise one containing "ExternalServiceError" is a service error; the counted name is the "api"/"service" field when present, else the event name |
| GatewayTelemetry.ApiErrorWins | AppGateway/AppGatewayTelemetry.cpp:222-238 | an event name containing both markers, in either order, counts as an API error |
| GatewayTelemetry.AddMetric | AppGateway/AppGatewayTelemetry.cpp:274-285 | recording a metric adds one to its `uint32_t` count (wrapping past 2^32 - 1) and leaves every other metric as it was |
| GatewayTelemetry.MetricUnitIsFirstNonEmpty | AppGateway/AppGatewayTelemetry.cpp:283-285 | a metric keeps the first non-empty unit it was recorded with |
| GatewayTelemetry.FlushReport | AppGateway/AppGatewayTelemetry.cpp:337-445 | health stats are sent unless total calls and connections are both zero; error stats only when their map is non-empty; metrics only those with a non-zero count |
| GatewayTelemetry.Flushed | AppGateway/AppGatewayTelemetry.cpp:313-480 | the state after a flush: the report of the current counters appended, the call counters, error maps, metric cache and cached count reset, and every other field as before |
| GatewayTelemetry.EventCounted | AppGateway/AppGatewayTelemetry.cpp:240-251 | one more event: below the threshold only the cached count goes up by one (wrapping), at it the state is `Flushed`; afterwards the count is below the threshold unless that is 0 |
| GatewayTelemetry.AppGatewayTelemetry.constructor | AppGateway/AppGatewayTelemetry.cpp:37-49 | starts uninitialised, timer stopped, default interval and threshold, every counter and cache empty |
| GatewayTelemetry.AppGatewayTelemetry.Initialize | AppGateway/AppGatewayTelemetry.cpp:57-82 | a second call changes nothing; the first marks the object initialised with the timer running and changes no other field |
| GatewayTelemetry.AppGatewayTelemetry.FlushTelemetryData | AppGateway/AppGatewayTelemetry.cpp:313-480 | the new state is `Flushed` of the old one: exactly the FlushReport of the old counters is emitted, the call counters, both error maps, the metric cache and the cached count are reset, and every other field (connections, flags, threshold, interval) is kept |
| GatewayTelemetry.AppGatewayTelemetry.Deinitialize | AppGateway/AppGatewayTelemetry.cpp:84-105 | a no-op when not initialised; otherwise the new state is `Flushed` of the old one with the timer stopped and the initialised flag cleared: exactly the FlushReport of the old counters and maps is emitted and they are reset, every other field kept |
| GatewayTelemetry.AppGatewayTelemetry.IncrementWebSocketConnections | AppGateway/AppGatewayTelemetry.cpp:152-155 | the connection count goes up by one as a `uint32_t`, 2^32 - 1 wrapping to 0; every other field, the reports included, is unchanged |
| GatewayTelemetry.AppGatewayTelemetry.DecrementWebSocketConnections | AppGateway/AppGatewayTelemetry.cpp:157-163 | the connection count goes down by one but never below zero; every other field is unchanged |
| GatewayTelemetry.AppGatewayTelemetry.IncrementTotalCalls | AppGateway/AppGatewayTelemetry.cpp:165-168 | the total call count goes up by one as a `uint32_t`, 2^32 - 1 wrapping to 0; every other field, the reports included, is unchanged |
| GatewayTelemetry.AppGatewayTelemetry.IncrementSuccessfulCalls | AppGateway/AppGatewayTelemetry.cpp:170-173 | the successful call count goes up by one as a `uint32_t`, 2^32 - 1 wrapping to 0; every other field, the reports included, is unchanged |
| GatewayTelemetry.AppGatewayTelemetry.IncrementFailedCalls | AppGateway/AppGatewayTelemetry.cpp:175-178 | the failed call count goes up by one as a `uint32_t`, 2^32 - 1 wrapping to 0; every other field, the reports included, is unchanged |
| GatewayTelemetry.AppGatewayTelemetry.SetCacheThreshold | AppGateway/AppGatewayTelemetry.cpp:121-126 | the threshold is replaced; every other field, the cached count included, is unchanged |
| GatewayTelemetry.AppGatewayTelemetry.CountEvent | AppGateway/AppGatewayTelemetry.cpp:240-251 | the new state is `EventCounted` of the old one: below the threshold only the cached `uint32_t` count goes up by one (wrapping); reaching it gives `Flushed` (the FlushReport of the old counters and maps, which are then reset); afterwards the count is below the threshold unless that is 0 |
| GatewayTelemetry.AppGatewayTelemetry.RecordTelemetryEvent | AppGateway/AppGatewayTelemetry.cpp:200-254 | unavailable and no state change before initialisation; otherwise the new state is `EventCounted` of the old one with only the classified error count incremented: below the threshold no report is sent and nothing else changes; at it exactly the FlushReport of the old counters with this event counted is emitted and the call counters, maps, cache and cached count are reset |
| GatewayTelemetry.AppGatewayTelemetry.RecordTelemetryMetric | AppGateway/AppGatewayTelemetry.cpp:256-298 | unavailable and no state change before initialisation; otherwise the new state is `EventCounted` of the old one with only the metric cache updated by AddMetric: below the threshold nothing else changes; at it exactly the FlushReport of the old counters and of the cache with this metric added is emitted, so the metric is reported unless its count wrapped to 0 |
| GatewayTelemetry.AppGatewayTelemetry.OnTimerExpired | AppGateway/AppGatewayTelemetry.cpp:300-311 | the new state is `Flushed` of the old one: exactly the FlushReport of the old call counters, connection count, interval, error maps and metric cache is emitted, those counters, maps, cache and cached count are reset, and the connection count, threshold, interval and both flags are kept |
| TelemetryMetrics.GetlineItems | Telemetry/TelemetryMetrics.cpp:31-43 | the `getline` split on ',' gives no item exactly for the empty string and no item contains a comma |
| TelemetryMetrics.GetlineItemsJoin | Telemetry/TelemetryMetrics.cpp:31-43 | splitting the comma-join of comma-free items, the last non-empty, gives the items back |
| TelemetryMetrics.GenerateFilterSet | Telemetry/TelemetryMetrics.cpp:31-43 | the filter is the set of comma-free fields of the list, empty exactly for the empty list |
| TelemetryMetrics.FilterNeverEmpty | Telemetry/TelemetryMetrics.cpp:155-163 | a non-empty filter list never yields an empty key set, so the fallback to no filter is never taken |
| TelemetryMetrics.Allowed | Telemetry/TelemetryMetrics.cpp:165-175 | a key is copied exactly when the record has it and there is no filter or the filter lists it, with the record's value |
| TelemetryMetrics.AllowedStepIn | Telemetry/TelemetryMetrics.cpp:165-175 | one more key that passes the filter is copied with its value |
| TelemetryMetrics.AllowedStepOut | Telemetry/TelemetryMetrics.cpp:165-175 | one more key that fails the filter changes nothing copied |
| TelemetryMetrics.CopyAllowed | Telemetry/TelemetryMetrics.cpp:165-175 | the copy loop writes exactly the allowed keys over the target |
| TelemetryMetrics.FilterOf | Telemetry/TelemetryMetrics.cpp:148-163 | a record's filter is absent for an empty "markerFilters" and otherwise a non-empty key set |
| TelemetryMetrics.Publish | Telemetry/TelemetryMetrics.cpp:112-236 | an unknown id gives ERROR_GENERAL with the store unchanged and nothing sent; a known one sends one event under the marker name and is removed |
| TelemetryMetrics.PublishRemovesPublished | Telemetry/TelemetryMetrics.cpp:184-229 | after a publish another record survives unchanged exactly when it is not the matched alternate "<secondary>:<markerName>" record |
| TelemetryMetrics.PublishHonoursFilter | Telemetry/TelemetryMetrics.cpp:165-207 | with a filter, every published key is listed in it, from the record and from the merged record alike |
| TelemetryMetrics.PublishDropsControlKeys | Telemetry/TelemetryMetrics.cpp:151-152 | without a merged record carrying them, "secondaryId" and "markerFilters" are never published |
| TelemetryMetrics.Recorded | Telemetry/TelemetryMetrics.cpp:75-104 | a new record takes "markerName" from the metrics, an existing one keeps its own; every other new key is written over the record and old keys stay |
| TelemetryMetrics.MarkerNameStoredOnce | Telemetry/TelemetryMetrics.cpp:75-91 | a second record call never changes the marker name stored by the first |
| TelemetryMetrics.MetricsRecord.constructor | Telemetry/TelemetryMetrics.h:39-52 | the store starts with no records and no events sent |
| TelemetryMetrics.MetricsRecord.RecordMetrics | Telemetry/TelemetryMetrics.cpp:45-110 | unparseable or non-object metrics or an empty id give ERROR_GENERAL with the store unchanged; otherwise the record is merged in as `Recorded` says |
| TelemetryMetrics.MetricsRecord.PublishMetrics | Telemetry/TelemetryMetrics.cpp:112-236 | the store and status become those of `Publish`, and its event, if any, is appended to those sent |
| TelemetryImplementation.ReportProfileValue | Telemetry/TelemetryImplementation.cpp:424-442 | only "STARTED" and "COMPLETE" are accepted; "COMPLETE" writes "true" and "STARTED" writes "false" |
| TelemetryImplementation.PowerModeJobs | Telemetry/TelemetryImplementation.cpp:366-382 | an upload is queued exactly for ON to STANDBY or LIGHT_SLEEP, an abort exactly for any change to DEEP_SLEEP, and at most one job per change |
| TelemetryImplementation.UploadStatus | Telemetry/TelemetryImplementation.cpp:207-213 | "SUCCESS" maps to UPLOAD_SUCCESS and every other status to UPLOAD_FAILURE |
| TelemetryImplementation.Escaped | Telemetry/TelemetryImplementation.cpp:294-301 | escaping grows the profile by exactly one byte per double quote |
| TelemetryImplementation.EscapedCons | Telemetry/TelemetryImplementation.cpp:294-301 | a double quote becomes backslash-quote and every other byte is copied unchanged |
| TelemetryImplementation.EscapeRoundTrip | Telemetry/TelemetryImplementation.cpp:294-301 | removing the inserted backslashes gives the original profile back |
| TelemetryImplementation.EscapeQuotes | Telemetry/TelemetryImplementation.cpp:294-301 | the escaping loop builds exactly the escaped profile |
| TelemetryImplementation.TelemetryImplementation.constructor | Telemetry/TelemetryImplementation.cpp:63-76 | no notification registered, no job queued, no event sent |
| TelemetryImplementation.TelemetryImplementation.Register | Telemetry/TelemetryImplementation.cpp:105-125 | a new notification is appended and a registered one is not added twice; always ERROR_NONE |
| TelemetryImplementation.TelemetryImplementation.Unregister | Telemetry/TelemetryImplementation.cpp:127-151 | an unknown notification gives ERROR_GENERAL with nothing changed; a known one is removed from its place and the rest keep their order |
| TelemetryImplementation.TelemetryImplementation.SetReportProfileStatus | Telemetry/TelemetryImplementation.cpp:420-443 | an empty or unknown status gives ERROR_GENERAL; otherwise the result is ERROR_NONE exactly when the RFC value is set |
| TelemetryImplementation.TelemetryImplementation.LogApplicationEvent | Telemetry/TelemetryImplementation.cpp:445-457 | an empty name or value gives ERROR_GENERAL and sends nothing; otherwise exactly that event is sent |
| TelemetryImplementation.TelemetryImplementation.OnPowerModeChanged | Telemetry/TelemetryImplementation.cpp:366-382 | the jobs `PowerModeJobs` names are queued and nothing else changes |
| TelemetryImplementation.TelemetryImplementation.OnReportUploadStatus | Telemetry/TelemetryImplementation.cpp:207-213 | one upload-status job carrying the mapped status is queued |

## Left out

- I/O and the environment are inputs to each operation, not modelled behaviour. This covers fetch and `document.location`, files, RFC, rbus and T2, ERM, libiptc table I/O, mkdir/mount/stat/chown, COM-RPC plugin calls, HTTP (curl) and the clock. Each call's possible outcomes are what the model quantifies over.
- Threads, worker pools, semaphores, mutexes, critical sections, the `NetFilterLock` flock and timers (`Core::Timer` rescheduling, `setTimeout` timing) are not modelled. Each operation runs to completion in one step, and a scheduled job or timer is a recorded value.
- Logging is not modelled; comment text and log lines have no effect on results.
- JSON parsing and serialisation are inputs: whether a text parses, and to what, is given. Reading an absent member or a member of a non-object gives null.
- JsonTree.AsString: jsoncpp's `asString` throws for an array or an object; the model gives the empty string there. Null, strings, numbers and booleans convert as jsoncpp does.
- JsonTree: jsoncpp's `operator[]` throws on a value that is neither null nor an object, and `append` throws on a value that is neither null nor an array. The model replaces such a value with an empty object or array instead.
- GatewayTelemetry.AppGatewayTelemetry.RecordTelemetryMetric: does not keep the sum, minimum and maximum of metric values. They are floating point; only the count and the unit are tracked.
- AppGatewayTelemetry's `SetReportingInterval`, `SetTelemetryFormat`/`GetTelemetryFormat`, `RecordBootstrapTime`, `FormatTelemetryPayload` and `SendT2Event` are not modelled. They cover timer rescheduling, payload formatting and floating-point number formatting. A flush is recorded as the `Report` values it would send.
- Telemetry's `activateUserSettings`, `notifyT2PrivacyMode`, `Configure` and the file handling of `setRFCReportProfiles` are not modelled (file and RFC I/O). Only the quote escaping of that function is.
- TelemetryMetrics.Publish: the published object is a map of members; its JSON text is not modelled.
- AppManager's marker and filter strings are macros from a header that is not part of this model. They are carried as a `MarkerNames` value, and nothing is assumed about them.
- ResourceManager is modelled as built with ERM (`ENABLE_ERM` defined). C++ exceptions are not modelled, except a request handler's in the WebSocket server, which `Thrown` models.
- ResourceManager.ResourceManagerImplementation.GetBlockedAVApplications: lists exactly the blocked apps, each once, but not in the sorted key order of the blacklist map the source walks.
- Migration's status file is not read at a path. The constructor takes the file's current contents (`None` when it is missing), and a write is recorded as the new contents.
- PackageManager's `Install`, `Uninstall`, `ListPackages`, `Config`, `PackageState`, `Progress`, `GetStorageDetails`, `RateLimit` and notification registration are not modelled (package-library and storage calls with no decision logic of their own). `nextRetryDuration` and the downloader's sleeps are timing and are left out.
- RuntimeManager's `Hibernate`, `Suspend`, `Resume`, `Terminate` and `Kill` are thin wrappers that build a request for `handleContainerRequest`; that function is modelled. `Mount` and `Unmount` are stubs. `Configure` and the storage, window-manager and Dobby spec objects are I/O.
- PreinstallManager.IsValidSemVer: `sscanf %d` is modelled as glibc does it on an LP64 target. The digits are read by `strtol`, saturated at 2^63-1, and the low 32 bits are stored. On a 32-bit `long` target the value saturates at 2^31-1 instead; that is not modelled. The same holds for PreinstallManager.IsNewerVersion.
- AppManagerReporting.DataRecord: the `time_t` difference itself is taken not to overflow 64 bits; only its conversion to a 32-bit `int` is modelled (see `Elapsed`). The same holds for AppManagerReporting.StateChangeRecord.
- NetFilterUtils.Visited: the C loops over an entry's matches advance by each match's `match_size`, and a zero size would make them loop forever. The model walks the matches as a sequence, so this case is not modelled. The same holds for NetFilterUtils.VisitedCount.
- RuntimeManager.RuntimeManagerImplementation.Annotate: the annotation key and value the request carries to the container are not part of the request log, which records the kind and container id of every request.
- RuntimeManager.RuntimeManagerImplementation.Run: the contents of the container configuration it builds (environment, paths, spec text) are not modelled. Only the status and the instance record are.
- The iptables byte layout is abstract: records are values and structure sizes are symbolic (`Layout`), since they depend on the target ABI. Alignment padding enters only through `XT_ALIGN` on sizes.
- NetFilter.RemoveAllRulesMatchingComment models the C++ wrapper, whose body is commented out. The C function it would call is modelled as `NetFilterUtils.IpTables.RemoveAllRulesMatchingComment`, with the regex matcher as an input predicate.
- `generateRalfOCIConfig` is declared in its header with a configuration-file path and a package list, but the `.cpp` takes the application and runtime configuration. The model takes both the path and the package list, plus the application fields it reads. `ApplicationConfiguration.h` and `RuntimeConfig` are not part of this model; only the fields used are.
- `Text`, `Core` and `JsonTree` are helpers shared by the modules above and have no rows of their own.

## Findings

| source | as written | input that shows it | evidently intended | confidence | as-written member | corrected member |
|---|---|---|---|---|---|---|
| PreinstallManager/PreinstallManagerImplementation.cpp:338 | the guard after `ListPackages` returns only when the call failed and the list pointer is non-null | `ListPackages` fails and leaves the list null: the guard lets it through and `packageList->Next` dereferences null | return when the call failed or the list is null | high, not executed | PreinstallManager.ListGuardAsWrittenDereferencesNull | PreinstallManager.ListGuard |
| AppGateway/AppGatewayAuthenticator.cpp:70 | `Authenticate` looks up its out-parameter `appId` instead of `sessionId` | a stored app "a" with session "s", called with sessionId "s" and an empty appId: refused | find the app whose stored session id is `sessionId` | high, not executed | GatewayAuthenticator.AuthenticateIgnoresSession | GatewayAuthenticator.AppForSession |
| PackageManager/PackageManagerImplementation.cpp:543-560 | when `GetLockedInfo` fails, `Lock` logs and returns the initial ERROR_NONE without locking or setting a lock id | a package whose locked-info query fails: ERROR_NONE and no lock is taken | report the failure (ERROR_GENERAL) | medium, not executed | PackageManager.LockAsWrittenSucceedsWithoutLock | PackageManager.LockOutcome |
| RuntimeManager/RuntimeManagerImplementation.cpp:857-912 | the ERROR_GENERAL set when `createDisplay` fails is overwritten by the result of the later `handleContainerRequest`, so the run request is still sent and the instance recorded as starting (`RunAsWritten`) | a Run whose display creation fails but whose container request succeeds: ERROR_NONE | return ERROR_GENERAL and skip the container request when the display cannot be created | medium, not executed | RuntimeManager.RunIgnoresDisplayFailure | RuntimeManager.RunStatus |
| RuntimeManager/ralf/RalfSupport.cpp:159-170 | `getDevNodeMajorMinor` returns true even when `stat` fails, leaving its outputs as passed in | a device node path that does not exist: true with type NUL and numbers 0, and the OCI config gains that device | return false when `stat` fails, so the caller skips the node | high, not executed | RalfSupport.GetDevNodeMajorMinorAsWrittenHidesFailure | RalfSupport.GetDevNodeMajorMinor |
| RuntimeManager/Gateway/NetFilterUtils.c:704-722 | `openExternalPort` passes rule number 1 to `iptc_insert_entry`, which counts from 0, although its comment gives `iptables -I INPUT` and `-I OUTPUT` | a filter table whose INPUT chain is empty: the insert fails and -1 is returned; a non-empty one gets the rule second, after the chain's first rule | insert at the head of each chain (rule number 0) | medium, not executed | NetFilterUtils.ExternalPortPlacementAsWritten | NetFilterUtils.ExternalPortPlacement |
| RuntimeManager/Gateway/NetFilterUtils.c:1015-1055 | `addContainerHolePunch` inserts both rules at rule number 1, although its comments give `-A PREROUTING` (append) and `-I FORWARD 1` (head) | a nat table whose PREROUTING chain is empty: the insert fails; otherwise the DNAT rule goes second rather than last and the forwarding rule second rather than first | append the DNAT rule and put the forwarding rule first | medium, not executed | NetFilterUtils.HolePunchPlacementAsWritten | NetFilterUtils.HolePunchPlacement |
| helpers/WsManager.h:200-215 | a message queued before its connection has an id is replayed when the id is assigned, and one replayed under id 0 is put back in the queue | `AssignId(0)` with one queued message: the drain loop puts the message back each turn and never ends | leave the queue pending until a non-zero id is assigned | medium, not executed | WsManager.IdZeroNeverDrains | WsManager.WebSocketServer.AssignId |
