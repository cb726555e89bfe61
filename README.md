# eufy-security for Node-RED, modelled in Dafny

A model of the core of `node-red-contrib-eufy-security`. The package is a
Node-RED adapter in front of the `eufy-security-client` library and has two
nodes:

- The `eufy-config` node turns its settings and its stored credentials into
  the client's connection settings. It warns when a credential is missing.
- The `eufy-security` node does three things:
  - it creates and connects the client;
  - it forwards the client events the user selected, each as an output
    message with named fields;
  - it runs commands that arrive as input messages and answers each with a
    `command result` message.

The model has these modules:

- `JsValues`: the JavaScript values the adapter handles, with truthiness,
  field reads, and the `TypeError`s V8 raises.
- `Utils`: `getArgumentsTransformer`, which turns positional event
  arguments into a record.
- `Events`: the 35-entry event table and its exported definitions.
- `Constants`: the 20 command names.
- `ConfigNode`: the configuration node.
- `Dispatch`: the pure core of input handling:
  - the `switch` over command names;
  - result shaping;
  - credential stripping;
  - the response envelopes;
  - `InputEffect`, the effect of one input message.
- `SecurityNode`: the security node as a class. Its fields are the
  initialized flag, the attached listeners, the status badge, the sent
  messages and the logged warnings. A ghost log records the calls made to
  the client. Its methods follow the source's functions one by one.
  Every method keeps the invariant `Valid`: only a configured node gets a
  client, only a node with a client is initialized or has listeners.

Result shaping calls `transformProperties` on a property bag. What that
call does is the node's parameter `apply`:
- As the code is written, the name is `undefined` and the call throws (`Dispatch.TransformPropertiesAsImported`).
- As intended, it is a conversion `transform` (`Dispatch.Converting`).

Every statement about the node holds for any `apply`. `Dispatch.PropertyBagReplyReported` compares the two bindings on one input message.

The vendor client is abstract. Every call it gets is a `DriverCall` (an
operation plus its positional arguments). A `Driver` value says whether
that call returns a value or throws. Awaited and synchronous calls are
treated alike.

Where the adapter's tests (`test/utils.spec.js`, `test/events.spec.js`,
`test/01-eufy-security.spec.js`) differ from the code, the model follows
the code:

- `getArgumentsTransformer` does not collect surplus arguments under
  `other`.
- It binds every argument name, including names past the end of the
  arguments, which get `undefined`.
- It does not unwrap property bags. `test/utils.spec.js:49-55` expects the
  station's and the device's bags unwrapped, and `test/utils.spec.js:59` and
  `test/events.spec.js:21` expect `other`.
- A command whose result is `undefined` sends no message at all.
  `test/01-eufy-security.spec.js:225-239` expects an envelope with
  `result: undefined` for `close`.

## Model

| member | source | states |
|---|---|---|
| Utils.TransformArguments | eufy-security/utils.js:18-27 | the record's keys are exactly the argument names, whether or not an argument exists at that position |
| Utils.BindsLastOccurrence | eufy-security/utils.js:20-23 | a name is bound to the argument at the position of its last occurrence (later duplicates overwrite), or to undefined past the end of the arguments |
| Utils.GetArgumentsTransformer | eufy-security/utils.js:18-27 | the returned handler maps every argument list to the record built by the reduction |
| Utils.DistinctNamesBindByPosition | eufy-security/utils.js:20-23 | with distinct names, name i is bound to argument i, or to undefined when there is none |
| Utils.EmptyNamesGiveEmptyRecord | eufy-security/utils.js:18-27 | no names give the empty record for any arguments |
| Utils.SurplusArgumentsDropped | eufy-security/utils.js:19-25 | arguments beyond the names leave the record unchanged, and no `other` field appears |
| Utils.LaterDuplicateWins | eufy-security/utils.js:20-23 | a name listed twice keeps the second argument |
| Utils.TransformerExampleAsCoded | eufy-security/utils.js:18-27 | the test's names `station, device, a, b, c` with six arguments bind station and device to the first two arguments unchanged (no unwrapping), and the sixth argument adds no `other` field |
| Events.Table | eufy-security/events.js:3-145 | the table has 35 entries, entry i being the i-th literal of the source |
| Events.DefinitionsKeepEntries | eufy-security/events.js:147-150 | the export keeps each entry's event and argument names, in order, and attaches the transformer for those names |
| Events.EventNamesDistinct | eufy-security/events.js:3-145 | no two entries share an event name |
| Events.ArgumentNamesWellFormed | eufy-security/events.js:3-145 | within each entry the argument names are distinct, none is `event`, and there are at most five |
| Events.CaptchaRequestNotInTable | eufy-security/events.js:3-145 | no entry is for `captcha request` |
| Events.PushMessageHandler | eufy-security/events.js:20-23 | `push message` has the single argument `message`; its handler keeps the first argument and drops a second |
| Constants.CommandTableComplete | eufy-security/constants.js:2-23 | the table has 20 keys, all of them distinct |
| Constants.CommandNamesDistinct | eufy-security/constants.js:3-22 | two keys have the same string exactly when they are the same key |
| ConfigNode.MapConfig | eufy-security/01-eufy-security.js:23-35 | each setting is copied from the credentials or the config (numeric ones through `Number`), two are undefined, and invitations are accepted exactly when the field is the string "true" |
| ConfigNode.AcceptInvitationsOnlyForExactTrue | eufy-security/01-eufy-security.js:33 | only "true" turns invitations on; boolean true, "TRUE", "false" and a missing field do not |
| ConfigNode.Missing | eufy-security/01-eufy-security.js:37-39 | the missing keys are exactly the keys whose credential is falsy, as an ordered sublist of the keys |
| ConfigNode.MissingCredentialsWarning | eufy-security/01-eufy-security.js:37-43 | a warning is issued exactly when some credential is missing, and its text joins the missing names with ", " |
| ConfigNode.WarningIffCredentialFalsy | eufy-security/01-eufy-security.js:37-43 | a warning is issued exactly when the username or the password is falsy |
| ConfigNode.NoCredentialsWarning | eufy-security/01-eufy-security.js:41-43 | with no stored credentials the warning is "Missing credentials: username, password" |
| ConfigNode.EufyConfigNode.constructor | eufy-security/01-eufy-security.js:20-44 | the node holds the mapped settings and the one warning, if any |
| ConfigNode.EufyConfigNode.GetConfig | eufy-security/01-eufy-security.js:46-48 | returns the settings built by the constructor |
| Dispatch.CommandOf | eufy-security/01-eufy-security.js:168 | a command selects a key exactly when it is `===` to that key's string |
| Dispatch.CommandOfKey | eufy-security/01-eufy-security.js:168 | the string of key c selects c and no other key |
| Dispatch.RouteFollowsCommandTable | eufy-security/01-eufy-security.js:168-247 | a key's string reaches the client method that key names; every other value, string or not, reaches `default` |
| Dispatch.SelectCase | eufy-security/01-eufy-security.js:168-247 | comparing the cases one after another in source order selects the same branch as the key lookup |
| Dispatch.SelectCaseFrom4 | eufy-security/01-eufy-security.js:181-195 | for a command that matched none of the first four cases, the next four cases and the rest select the key lookup's branch |
| Dispatch.SelectCaseFrom8 | eufy-security/01-eufy-security.js:196-211 | likewise from the livestream cases on, both refresh keys landing in the one refresh case |
| Dispatch.SelectCaseFrom12 | eufy-security/01-eufy-security.js:212-232 | likewise from `is station connected` on |
| Dispatch.SelectCaseFrom16 | eufy-security/01-eufy-security.js:233-246 | likewise for the last three cases, every other command reaching `default` |
| Dispatch.GetImageIsUnknown | eufy-security/01-eufy-security.js:168-247 | `GET_IMAGE` is "get image", and that string reaches `default` because the switch has no case for it |
| Dispatch.RefreshKeysShareOperation | eufy-security/01-eufy-security.js:208-211 | "refresh data" and "refresh cloud data" both call `refreshCloudData` |
| Dispatch.CallFor | eufy-security/01-eufy-security.js:169-243 | each case calls the client method it names with at most three payload fields (never `command`); a setter passes the name it validated, then the value |
| Dispatch.StripCredentials | eufy-security/01-eufy-security.js:272-279 | an object loses exactly `username` and `password` and keeps every other field; null or undefined throw the V8 delete error; other values pass unchanged |
| Dispatch.ShapeItems | eufy-security/01-eufy-security.js:297-303 | mapping an array succeeds exactly when every element does, keeps the length and order, and otherwise fails with the first failing element's error |
| Dispatch.ShapeWith | eufy-security/01-eufy-security.js:292-304 | for any call `apply`, a truthy result with a truthy bag becomes what the call gives for the bag; an array succeeds exactly when every element does, keeps its length, and each element is what its own shaping gives, and a failing array fails with the error of its first failing element; any other value is kept |
| Dispatch.Shape | eufy-security/01-eufy-security.js:291-304 | a truthy result with a truthy bag becomes the converted bag; an array is mapped element by element and fails exactly when an element is null or undefined, with the error of reading `.properties` of the first such element; any other value is kept |
| Dispatch.ResultMessages | eufy-security/01-eufy-security.js:306-316 | `undefined` sends nothing; any other value, falsy ones included, sends one result envelope; a shaping error sends one error envelope |
| Dispatch.CommandEffect | eufy-security/01-eufy-security.js:167-250 | the try/catch never lets an error out; it makes at most one call, the routed case's, and sends at most one message or warning; every message is a response for the command; a setter never answers with a result, and only a setter with an unknown name warns; an unknown command makes no call and gets the `Unknown command` error |
| Dispatch.InputEffect | eufy-security/01-eufy-security.js:151-252 | the handler rejects exactly when the message or the payload is null or undefined; an uninitialized or rejecting node calls and sends nothing; at most one call and one message or warning, every message being a response for the command with exactly one of `result` and `error` |
| Dispatch.UnknownCommandReported | eufy-security/01-eufy-security.js:245-250 | a command that matches no case gets the `Unknown command` error envelope, with no call and no `result` field |
| Dispatch.GetImageReportedUnknown | eufy-security/01-eufy-security.js:168-250 | "get image" gets the `Unknown command` error envelope |
| Dispatch.SetterRejectsUnknownName | eufy-security/01-eufy-security.js:254-258 | a setter whose property name is not in the enumeration only warns: no call and no message |
| Dispatch.SetterCallsClient | eufy-security/01-eufy-security.js:169-174 | a setter with a known name makes exactly its call; it sends nothing on success and the error envelope on failure, never a result |
| Dispatch.DriverFailureReported | eufy-security/01-eufy-security.js:248-250 | whatever a routed call throws is sent back unchanged as the error of exactly one envelope |
| Dispatch.QueryResultReported | eufy-security/01-eufy-security.js:178-244 | a query makes its one call and sends what shaping with `apply` makes of the reply: nothing for undefined, one envelope each for false, 0, "" and null |
| Dispatch.CloseSendsNothing | eufy-security/01-eufy-security.js:193-195 | "close" on a client returning nothing calls `close` once and sends nothing |
| Dispatch.GetConfigOmitsCredentials | eufy-security/01-eufy-security.js:175-177 | for a configuration without a truthy `properties` field, "get config" answers with that configuration without `username` and `password`, every other field kept |
| Dispatch.GetConfigOfNothingReported | eufy-security/01-eufy-security.js:272-276 | a missing client configuration makes "get config" answer with the delete error |
| Dispatch.RefreshDataRefreshesCloud | eufy-security/01-eufy-security.js:208-211 | "refresh data" calls `refreshCloudData` |
| Dispatch.PropertyBagReplyReported | eufy-security/01-eufy-security.js:178-250 | a query whose reply carries a property bag is answered, as written, with the `transformProperties is not a function` error envelope; as intended, with the converted bag |
| Dispatch.EventCommandResultShared | eufy-security/utils.js:29 | the `event` value of responses declared by the utility module is the one the constants module declares, "command result" |
| Dispatch.PropertyBagShapingThrows | eufy-security/01-eufy-security.js:294-295 | as written, a result with a property bag throws `transformProperties is not a function`; as intended it becomes the converted bag |
| Dispatch.PropertyBagArrayShapingThrows | eufy-security/01-eufy-security.js:297-300 | likewise for an array holding such a result |
| SecurityNode.Subscribe | eufy-security/01-eufy-security.js:122-123 | the filter keeps exactly the table entries whose event is selected, and no more listeners than the table has entries |
| SecurityNode.EventMessage | eufy-security/01-eufy-security.js:281-289 | the payload has `event` plus the data's fields; the data's values are kept, and the event name stays unless the data has its own `event` |
| SecurityNode.SubscribeThenForward | eufy-security/01-eufy-security.js:122-129 | the attached listeners forward a selected event as the whole table would, and forward nothing for an unselected one |
| SecurityNode.ForwardedAbsent | eufy-security/01-eufy-security.js:124-128 | listeners for other events send nothing |
| SecurityNode.ForwardedOnce | eufy-security/01-eufy-security.js:124-128 | with distinct event names, an event is forwarded once, by its own listener |
| SecurityNode.SelectedEventForwarded | eufy-security/01-eufy-security.js:122-129 | a selected table event is forwarded in exactly one message, whose data bind the event's arguments to the entry's argument names |
| SecurityNode.UnselectedEventNotForwarded | eufy-security/01-eufy-security.js:122-129 | an unselected event is never forwarded |
| SecurityNode.CaptchaRequestNeverForwarded | eufy-security/01-eufy-security.js:109-129 | `captcha request` is never forwarded, even when it is selected |
| SecurityNode.ForwardedPayload | eufy-security/01-eufy-security.js:284-287 | a forwarded payload names its event and has exactly one field per argument name; no argument overwrites `event` |
| SecurityNode.HintsOnlyForUnselectedRequests | eufy-security/01-eufy-security.js:101-115 | a two-factor or captcha hint is logged exactly when that event is not selected; other events log nothing |
| SecurityNode.EufySecurityNode.constructor | eufy-security/01-eufy-security.js:59-80 | an unconfigured node shows `Not configured` and logs `Eufy config missing`; a configured node is initialized exactly when the client was created, and then listens to the selected entries, has made the calls of `connect()` and shows `Initialized`, or `Connecting` when it asked the client to connect |
| SecurityNode.EufySecurityNode.Initialize | eufy-security/01-eufy-security.js:82-136 | on success the node has the client, the selected listeners, is initialized and has connected; a failed creation leaves it uninitialized, showing `Initializing`, with no call made |
| SecurityNode.EufySecurityNode.ConnectCalls | eufy-security/01-eufy-security.js:138-143 | connecting always asks `isConnected` first, and then calls `connect` as the second and last call exactly when the answer was falsy |
| SecurityNode.EufySecurityNode.Connect | eufy-security/01-eufy-security.js:138-143 | only an initialized node makes those calls and shows `Connecting` before `connect`; the rejection is that of the failing call; the node's invariant is kept, and a call is made only once the client exists |
| SecurityNode.EufySecurityNode.Disconnect | eufy-security/01-eufy-security.js:145-149 | only an initialized node calls `close`, once, and so only once the client exists; the node's invariant is kept |
| SecurityNode.EufySecurityNode.OnNodeClose | eufy-security/01-eufy-security.js:330-332 | closing the node disconnects it: an initialized node calls `close` once and passes on what it throws; any other node does nothing |
| SecurityNode.EufySecurityNode.OnClientEvent | eufy-security/01-eufy-security.js:93-129 | once the client exists, an event sets the badge, logs the hints and sends the forwarded messages; before that nothing happens, since a node without a client has no listeners; the node's invariant is kept |
| SecurityNode.EufySecurityNode.OnNodeInput | eufy-security/01-eufy-security.js:151-252 | the calls, messages, warnings and rejection of one input are exactly those of `InputEffect`; the node's invariant is kept, and a call is made only once the client exists |
| SecurityNode.EufySecurityNode.RunCommand | eufy-security/01-eufy-security.js:167-247 | the try block, together with the catch's one error envelope, makes exactly the calls, messages and warnings of `CommandEffect` |
| SecurityNode.EufySecurityNode.SetStationProperty | eufy-security/01-eufy-security.js:254-261 | an unknown name is warned about and not set; a known name makes one `setStationProperty` call, whose error is passed on |
| SecurityNode.EufySecurityNode.SetDeviceProperty | eufy-security/01-eufy-security.js:263-270 | the same for `setDeviceProperty` |
| SecurityNode.EufySecurityNode.GetConfigWithoutCredentials | eufy-security/01-eufy-security.js:272-279 | one `getConfig` call; its configuration without credentials, or the error raised by the call or by the delete |
| SecurityNode.EufySecurityNode.SendCommandResult | eufy-security/01-eufy-security.js:291-317 | sends the shaped result unless it is undefined; a shaping error is passed to the caller and nothing is sent |
| SecurityNode.EufySecurityNode.SendCommandErrorResult | eufy-security/01-eufy-security.js:319-328 | sends exactly one error envelope for the command |

## Left out

- `safeStringify` (`utils.js:2-16`) is not part of this model. It is a `JSON.stringify` that drops repeated object references, and the node does not call it.
- The Node-RED host is reduced to three things:
  - a `configured` flag, which stands for whether the config node was found;
  - the node's message, warning and error logs;
  - the text of the status badge. Its colour and shape are left out.
- Node and type registration (`createNode`, `registerType`, the credential schema) is left out.
- Warnings of the security node are values such as `UnknownStationProperty(name)`, not formatted text. The config node's warning is modelled as text.
- `EufySecurity.initialize` is left out. The constructor gets its outcome as a parameter.
- `RED.log` is passed to the client as its logger, and that use is not modelled. The two-factor and captcha hints the node writes to it are kept, as values, in the node's `warnings`.
- Asynchrony is left out. Each handler runs to completion, and interleavings of overlapping inputs, events and initialization are not modelled. What a call of an un-awaited method returns, such as a promise, is just a value. Its later settlement is not modelled.
- Numbers are integers. `Number(...)` is an abstract function, and NaN and floating point are not modelled.
- Objects are maps. Key order, prototypes and getters are not modelled.
- `_getConfig` deletes the credentials from the object the client returned, in place. The model builds a new value, so the effect of that deletion on the client's own configuration, and on the config node's settings it may alias, is not modelled.
- `config.events` is either a list of event names or absent. A truthy value that is not an array, where `includes` would behave differently, is not modelled.
- `utils.js` neither defines nor exports `transformProperties` (`utils.js:31-35`), so the import at `01-eufy-security.js:6` gives `undefined`. The conversion it was meant to perform is unknown, so the intended binding is an abstract function `transform`.
- `PropertyName` from the vendor library is the abstract set `propertyNames`.

## Findings

| source | as written | input that shows it | evidently intended | confidence | as-written member | corrected member |
|---|---|---|---|---|---|---|
| eufy-security/01-eufy-security.js:6 | `transformProperties` is imported from `./utils`, which does not export it (`utils.js:31-35`), so the name is `undefined` and every call of it throws `TypeError: transformProperties is not a function` | a command whose client reply is `{ properties: { name: "x" } }`, or an array holding one: the shaping throws, and the node answers with that error instead of a result | the property bag is converted and sent as the result | not executed | Dispatch.ShapeAsWritten (shown by Dispatch.PropertyBagShapingThrows, Dispatch.PropertyBagArrayShapingThrows and, for a whole input message, Dispatch.PropertyBagReplyReported) | Dispatch.Shape |
