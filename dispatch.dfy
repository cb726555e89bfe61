/**
 * Command dispatch of the security node: the `switch` that maps a command
 * string to a vendor-client operation, the shaping of the operation's
 * result, and the response envelopes sent on the output port.
 *
 * The vendor client is abstract: each call it receives is a `DriverCall`,
 * and a `Driver` says what that call returns or throws.
 */
module Dispatch {
  import opened Wrappers
  import opened JsValues
  import C = Constants
  import U = Utils

  /** The vendor-client methods the node calls. */
  datatype Op =
    | SetStationProperty
    | SetDeviceProperty
    | GetConfig
    | GetVersion
    | IsPushConnected
    | IsConnected
    | Connect
    | Close
    | SetCameraMaxLivestreamDuration
    | GetCameraMaxLivestreamDuration
    | RefreshCloudData
    | IsStationConnected
    | ConnectToStation
    | GetStation
    | GetStations
    | GetStationDevice
    | GetDevice
    | GetDevices

  /** One call of a vendor-client method with its positional arguments. */
  datatype DriverCall = DriverCall(op: Op, args: seq<Value>)

  /** What a call did: returned a value (after `await`, where awaited) or threw. */
  datatype Reply = Returned(value: Value) | Threw(error: Value)

  /** The vendor client's answer to each call, left abstract. */
  type Driver = DriverCall -> Reply

  /** A message on the node's output port. */
  datatype Message = Message(topic: Value, payload: map<string, Value>)

  /** The node's local warnings (`this.warn` and the host log). */
  datatype Warning =
    | UnknownStationProperty(name: Value)
    | UnknownDeviceProperty(name: Value)
    | TfaHint
    | CaptchaHint(id: Value, captcha: Value)

  /** The error raised by the `default` branch of the switch. */
  const UnknownCommand: Value := Error("Error", "Unknown command")

  predicate Matches(command: Value, c: C.Command) {
    command == Str(C.Name(c))
  }

  /**
   * The key of the command table whose string is `command` (compared with
   * `===`). The 20 strings are pairwise distinct, so there is at most one.
   */
  ghost function CommandOf(command: Value): (r: Option<C.Command>)
    ensures r.Some? <==> exists c :: Matches(command, c)
    ensures r.Some? ==> Matches(command, r.value)
  {
    if exists c :: Matches(command, c) then Some(var c :| Matches(command, c); c) else None
  }

  /** A command equal to the string of key `c` selects `c`. */
  lemma CommandOfKey(command: Value, c: C.Command)
    requires Matches(command, c)
    ensures CommandOf(command) == Some(c)
  {
    C.CommandNamesDistinct(c, CommandOf(command).value);
  }

  /**
   * The `switch (command)` of onNodeInput: the client method the command's
   * case calls, or `None` for the `default` branch.
   */
  ghost function Route(command: Value): Option<Op> {
    match CommandOf(command)
    case None => None
    case Some(c) => OperationOf(c)
  }

  /**
   * The client method each key of the command table names: the method of
   * the same name, `refreshCloudData` for both refresh keys, and none for
   * `GET_IMAGE`.
   */
  function OperationOf(c: C.Command): Option<Op> {
    match c
    case SetStationProperty => Some(SetStationProperty)
    case SetDeviceProperty => Some(SetDeviceProperty)
    case GetConfig => Some(GetConfig)
    case GetVersion => Some(GetVersion)
    case IsPushConnected => Some(IsPushConnected)
    case IsConnected => Some(IsConnected)
    case Connect => Some(Connect)
    case Close => Some(Close)
    case SetCameraMaxLivestreamDuration => Some(SetCameraMaxLivestreamDuration)
    case GetCameraMaxLivestreamDuration => Some(GetCameraMaxLivestreamDuration)
    case RefreshCloudData => Some(RefreshCloudData)
    case RefreshData => Some(RefreshCloudData)
    case IsStationConnected => Some(IsStationConnected)
    case ConnectToStation => Some(ConnectToStation)
    case GetStation => Some(GetStation)
    case GetStations => Some(GetStations)
    case GetStationDevice => Some(GetStationDevice)
    case GetDevice => Some(GetDevice)
    case GetDevices => Some(GetDevices)
    case GetImage => None
  }

  /**
   * The switch selects, for the string of every key of the command table,
   * the client method that key names; every other value, including a
   * non-string command, takes the `default` branch.
   */
  lemma RouteFollowsCommandTable(command: Value)
    ensures forall c :: Matches(command, c) ==> Route(command) == OperationOf(c)
    ensures (forall c :: !Matches(command, c)) ==> Route(command) == None
  {
    forall c | Matches(command, c) ensures Route(command) == OperationOf(c) {
      CommandOfKey(command, c);
    }
  }

  /**
   * The position of each key's `case` in the switch; `GET_IMAGE`, which has
   * none, comes after all of them.
   */
  function CaseNumber(c: C.Command): nat {
    match c
    case SetStationProperty => 0
    case SetDeviceProperty => 1
    case GetConfig => 2
    case GetVersion => 3
    case IsPushConnected => 4
    case IsConnected => 5
    case Connect => 6
    case Close => 7
    case SetCameraMaxLivestreamDuration => 8
    case GetCameraMaxLivestreamDuration => 9
    case RefreshData => 10
    case RefreshCloudData => 11
    case IsStationConnected => 12
    case ConnectToStation => 13
    case GetStation => 14
    case GetStations => 15
    case GetStationDevice => 16
    case GetDevice => 17
    case GetDevices => 18
    case GetImage => 19
  }

  /** No case before the `n`-th one equals `command`. */
  ghost predicate ReachesCase(command: Value, n: nat) {
    CommandOf(command).None? || n <= CaseNumber(CommandOf(command).value)
  }

  /**
   * The `switch (command)` as the code writes it: the cases are compared
   * with `===` in order, both refresh keys fall into the same case, and a
   * command that equals none of them reaches `default`. The comparison
   * goes on four cases at a time in the methods below.
   */
  method SelectCase(command: Value) returns (op: Option<Op>)
    ensures op == Route(command)
  {
    if command == Str(C.Name(C.SetStationProperty)) {
      CommandOfKey(command, C.SetStationProperty);
      op := Some(SetStationProperty);
    } else if command == Str(C.Name(C.SetDeviceProperty)) {
      CommandOfKey(command, C.SetDeviceProperty);
      op := Some(SetDeviceProperty);
    } else if command == Str(C.Name(C.GetConfig)) {
      CommandOfKey(command, C.GetConfig);
      op := Some(GetConfig);
    } else if command == Str(C.Name(C.GetVersion)) {
      CommandOfKey(command, C.GetVersion);
      op := Some(GetVersion);
    } else {
      op := SelectCaseFrom4(command);
    }
  }

  /** The switch from its case number 4 on. */
  method SelectCaseFrom4(command: Value) returns (op: Option<Op>)
    requires ReachesCase(command, 4)
    ensures op == Route(command)
  {
    if command == Str(C.Name(C.IsPushConnected)) {
      CommandOfKey(command, C.IsPushConnected);
      op := Some(IsPushConnected);
    } else if command == Str(C.Name(C.IsConnected)) {
      CommandOfKey(command, C.IsConnected);
      op := Some(IsConnected);
    } else if command == Str(C.Name(C.Connect)) {
      CommandOfKey(command, C.Connect);
      op := Some(Connect);
    } else if command == Str(C.Name(C.Close)) {
      CommandOfKey(command, C.Close);
      op := Some(Close);
    } else {
      op := SelectCaseFrom8(command);
    }
  }

  /** The switch from its case number 8 on. */
  method SelectCaseFrom8(command: Value) returns (op: Option<Op>)
    requires ReachesCase(command, 8)
    ensures op == Route(command)
  {
    if command == Str(C.Name(C.SetCameraMaxLivestreamDuration)) {
      CommandOfKey(command, C.SetCameraMaxLivestreamDuration);
      op := Some(SetCameraMaxLivestreamDuration);
    } else if command == Str(C.Name(C.GetCameraMaxLivestreamDuration)) {
      CommandOfKey(command, C.GetCameraMaxLivestreamDuration);
      op := Some(GetCameraMaxLivestreamDuration);
    } else if command == Str(C.Name(C.RefreshData)) {
      CommandOfKey(command, C.RefreshData);
      op := Some(RefreshCloudData);
    } else if command == Str(C.Name(C.RefreshCloudData)) {
      CommandOfKey(command, C.RefreshCloudData);
      op := Some(RefreshCloudData);
    } else {
      op := SelectCaseFrom12(command);
    }
  }

  /** The switch from its case number 12 on. */
  method SelectCaseFrom12(command: Value) returns (op: Option<Op>)
    requires ReachesCase(command, 12)
    ensures op == Route(command)
  {
    if command == Str(C.Name(C.IsStationConnected)) {
      CommandOfKey(command, C.IsStationConnected);
      op := Some(IsStationConnected);
    } else if command == Str(C.Name(C.ConnectToStation)) {
      CommandOfKey(command, C.ConnectToStation);
      op := Some(ConnectToStation);
    } else if command == Str(C.Name(C.GetStation)) {
      CommandOfKey(command, C.GetStation);
      op := Some(GetStation);
    } else if command == Str(C.Name(C.GetStations)) {
      CommandOfKey(command, C.GetStations);
      op := Some(GetStations);
    } else {
      op := SelectCaseFrom16(command);
    }
  }

  /** The switch from its case number 16 on. */
  method SelectCaseFrom16(command: Value) returns (op: Option<Op>)
    requires ReachesCase(command, 16)
    ensures op == Route(command)
  {
    if command == Str(C.Name(C.GetStationDevice)) {
      CommandOfKey(command, C.GetStationDevice);
      op := Some(GetStationDevice);
    } else if command == Str(C.Name(C.GetDevice)) {
      CommandOfKey(command, C.GetDevice);
      op := Some(GetDevice);
    } else if command == Str(C.Name(C.GetDevices)) {
      CommandOfKey(command, C.GetDevices);
      op := Some(GetDevices);
    } else {
      op := None;
    }
  }

  /** `GET_IMAGE` is a key of the table, but its string takes the `default` branch. */
  lemma GetImageIsUnknown()
    ensures C.Name(C.GetImage) == "get image"
    ensures Route(Str("get image")) == None
  {
    CommandOfKey(Str("get image"), C.GetImage);
  }

  /** `refresh data` and `refresh cloud data` are different strings with one case. */
  lemma RefreshKeysShareOperation()
    ensures C.Name(C.RefreshData) != C.Name(C.RefreshCloudData)
    ensures Route(Str(C.Name(C.RefreshData))) == Some(RefreshCloudData)
    ensures Route(Str(C.Name(C.RefreshCloudData))) == Some(RefreshCloudData)
  {
    CommandOfKey(Str(C.Name(C.RefreshData)), C.RefreshData);
    CommandOfKey(Str(C.Name(C.RefreshCloudData)), C.RefreshCloudData);
  }

  /** The two setter cases, which validate the property name first. */
  predicate IsSetter(op: Op) {
    op == SetStationProperty || op == SetDeviceProperty
  }

  /**
   * The payload fields onNodeInput reads besides `command`: the only
   * values a case passes on to the client.
   */
  const ArgumentFields: set<string> :=
    {"loginOptions", "stationSN", "deviceSN", "name", "value", "seconds", "p2pConnectionType", "channel"}

  /**
   * The call the case for `op` makes, with the payload fields it passes.
   * The call is the operation the case names, it passes at most three
   * values and each of them is one of the payload's argument fields; a
   * setter passes the very name it validated, then the value.
   */
  function CallFor(op: Op, payload: Value): (call: DriverCall)
    ensures call.op == op && |call.args| <= 3
    ensures forall a :: a in call.args ==> exists f :: f in ArgumentFields && a == Get(payload, f)
    ensures IsSetter(op) ==> |call.args| == 3 && call.args[1] == Get(payload, "name")
                             && call.args[2] == Get(payload, "value")
  {
    var args := match op
      case SetStationProperty => [Get(payload, "stationSN"), Get(payload, "name"), Get(payload, "value")]
      case SetDeviceProperty => [Get(payload, "deviceSN"), Get(payload, "name"), Get(payload, "value")]
      case Connect => [Get(payload, "loginOptions")]
      case SetCameraMaxLivestreamDuration => [Get(payload, "seconds")]
      case IsStationConnected => [Get(payload, "stationSN")]
      case ConnectToStation => [Get(payload, "stationSN"), Get(payload, "p2pConnectionType")]
      case GetStation => [Get(payload, "stationSN")]
      case GetStationDevice => [Get(payload, "stationSN"), Get(payload, "channel")]
      case GetDevice => [Get(payload, "deviceSN")]
      case _ => [];
    DriverCall(op, args)
  }

  /** `Object.values(PropertyName).includes(name)`. */
  predicate IsPropertyName(propertyNames: set<string>, name: Value) {
    name.Str? && name.s in propertyNames
  }

  /** The warning a setter issues for a name outside the enumeration. */
  function UnknownPropertyWarning(op: Op, name: Value): Warning {
    if op == SetStationProperty then UnknownStationProperty(name) else UnknownDeviceProperty(name)
  }

  /**
   * `_getConfig`: `delete result.username; delete result.password`. An
   * object loses exactly those two keys and keeps every other key with its
   * value; deleting from `null` or `undefined` throws; any other value is
   * left as it is.
   */
  function StripCredentials(config: Value): (r: Result<Value, Value>)
    ensures Nullish(config) <==> r.Failure?
    ensures r.Failure? ==> r.error == DeleteError
    ensures config.Obj? ==> r.Success? && r.value.Obj?
    ensures config.Obj? && r.Success? && r.value.Obj? ==>
              r.value.fields.Keys == config.fields.Keys - {"username", "password"}
    ensures config.Obj? && r.Success? && r.value.Obj? ==>
              forall k :: k in r.value.fields ==> r.value.fields[k] == config.fields[k]
    ensures !config.Obj? && !Nullish(config) ==> r == Success(config)
  {
    match config
    case Undefined => Failure(DeleteError)
    case Null => Failure(DeleteError)
    case Obj(fields) => Success(Obj(fields - {"username", "password"}))
    case _ => Success(config)
  }

  /**
   * One element of `result.map(item => item.properties ? transformProperties(item.properties) : item)`,
   * where `apply` stands for the call of `transformProperties`. Reading
   * `.properties` of a null or undefined element throws.
   */
  function ShapeItem(apply: Value -> Result<Value, Value>, item: Value): Result<Value, Value> {
    if Nullish(item) then Failure(ReadError(item, "properties"))
    else if Truthy(Get(item, "properties")) then apply(Get(item, "properties"))
    else Success(item)
  }

  /**
   * The elementwise map over an array result. It succeeds when every
   * element does, with one shaped element per input element, in order; it
   * fails with the error of the first element that fails.
   */
  function ShapeItems(apply: Value -> Result<Value, Value>, items: seq<Value>): (r: Result<seq<Value>, Value>)
    ensures r.Success? <==> forall i :: 0 <= i < |items| ==> ShapeItem(apply, items[i]).Success?
    ensures r.Success? ==> |r.value| == |items|
    ensures r.Success? ==> forall i :: 0 <= i < |items| ==> ShapeItem(apply, items[i]) == Success(r.value[i])
    ensures r.Failure? ==>
              exists i :: (0 <= i < |items| && ShapeItem(apply, items[i]) == Failure(r.error)
                           && forall j :: 0 <= j < i ==> ShapeItem(apply, items[j]).Success?)
  {
    if items == [] then Success([])
    else match ShapeItem(apply, items[0])
      case Failure(e) => Failure(e)
      case Success(v) =>
        match ShapeItems(apply, items[1..])
        case Failure(e) =>
          assert forall i :: 1 <= i < |items| ==> items[1..][i - 1] == items[i];
          Failure(e)
        case Success(vs) => Success([v] + vs)
  }

  /**
   * The transformation at the top of `sendCommandResult`, where `apply` is
   * what calling `transformProperties` on a property bag does: a truthy
   * result with a truthy `.properties` is replaced by the call on its bag;
   * an array is mapped elementwise and fails exactly when one of its
   * elements does; anything else is kept.
   */
  function ShapeWith(apply: Value -> Result<Value, Value>, result: Value): (r: Result<Value, Value>)
    ensures Truthy(result) && Truthy(Get(result, "properties")) ==> r == apply(Get(result, "properties"))
    ensures result.Arr? ==>
      (r.Success? <==> forall i :: 0 <= i < |result.items| ==> ShapeItem(apply, result.items[i]).Success?)
    ensures result.Arr? && r.Success? ==> r.value.Arr? && |r.value.items| == |result.items|
    ensures result.Arr? && r.Success? && r.value.Arr? && |r.value.items| == |result.items| ==>
              forall i :: 0 <= i < |result.items| ==> ShapeItem(apply, result.items[i]) == Success(r.value.items[i])
    ensures result.Arr? && r.Failure? ==> ShapeItems(apply, result.items) == Failure(r.error)
    ensures !(Truthy(result) && Truthy(Get(result, "properties"))) && !result.Arr? ==> r == Success(result)
  {
    if Truthy(result) && Truthy(Get(result, "properties")) then apply(Get(result, "properties"))
    else if result.Arr? then
      match ShapeItems(apply, result.items)
      case Success(items) => Success(Arr(items))
      case Failure(e) => Failure(e)
    else Success(result)
  }

  /** The intended `transformProperties`: the conversion `transform`, which does not throw. */
  function Converting(transform: Value -> Value): Value -> Result<Value, Value> {
    bag => Success(transform(bag))
  }

  /**
   * Result shaping with `transformProperties` as the abstract function
   * `transform`. An object with a truthy property bag becomes
   * `transform(bag)`; an array keeps its length, each element with a truthy
   * bag becomes `transform` of that bag and every other element is kept,
   * and a null or undefined element makes the whole shaping throw; every
   * other value is returned unchanged.
   */
  function Shape(transform: Value -> Value, result: Value): (r: Result<Value, Value>)
    ensures Truthy(result) && Truthy(Get(result, "properties")) ==>
      r == Success(transform(Get(result, "properties")))
    ensures result.Arr? ==>
      (r.Success? <==> forall i :: 0 <= i < |result.items| ==> !Nullish(result.items[i]))
    ensures result.Arr? && r.Success? ==> r.value.Arr? && |r.value.items| == |result.items|
    ensures result.Arr? && r.Success? && r.value.Arr? && |r.value.items| == |result.items| ==>
              forall i :: 0 <= i < |result.items| ==>
                r.value.items[i] == (if Truthy(Get(result.items[i], "properties"))
                                     then transform(Get(result.items[i], "properties"))
                                     else result.items[i])
    ensures result.Arr? && r.Failure? ==>
              exists i :: (0 <= i < |result.items| && Nullish(result.items[i])
                           && r.error == ReadError(result.items[i], "properties")
                           && forall j :: 0 <= j < i ==> !Nullish(result.items[j]))
    ensures !(Truthy(result) && Truthy(Get(result, "properties"))) && !result.Arr? ==> r == Success(result)
  {
    ShapeWith(Converting(transform), result)
  }

  /**
   * The utility module and the constants module each declare the `event`
   * value of responses; the node takes it from the constants, and the two
   * agree.
   */
  lemma EventCommandResultShared()
    ensures U.EventCommandResult == C.EventCommandResult == "command result"
  {
  }

  /** A response envelope carrying a result. */
  function ResultEnvelope(topic: Value, command: Value, result: Value): Message {
    Message(topic, map["event" := Str(C.EventCommandResult), "command" := command, "result" := result])
  }

  /** `sendCommandErrorResult`: a response envelope carrying an error. */
  function ErrorEnvelope(topic: Value, command: Value, error: Value): Message {
    Message(topic, map["event" := Str(C.EventCommandResult), "command" := command, "error" := error])
  }

  /**
   * A command response: its event is `command result`, it names the
   * command, and it carries exactly one of `result` and `error`.
   */
  predicate IsResponse(m: Message, topic: Value, command: Value) {
    && m.topic == topic
    && "event" in m.payload && m.payload["event"] == Str(C.EventCommandResult)
    && "command" in m.payload && m.payload["command"] == command
    && (("result" in m.payload) != ("error" in m.payload))
  }

  /**
   * What a shaped result sends: an error envelope when shaping threw (the
   * `catch` of onNodeInput), nothing when the shaped result is `undefined`,
   * and otherwise one envelope with the shaped result.
   */
  function ResultMessages(topic: Value, command: Value, shaped: Result<Value, Value>): (ms: seq<Message>)
    ensures shaped.Failure? ==> ms == [ErrorEnvelope(topic, command, shaped.error)]
    ensures shaped == Success(Undefined) ==> ms == []
    ensures shaped.Success? && shaped.value != Undefined ==> ms == [ResultEnvelope(topic, command, shaped.value)]
    ensures forall m :: m in ms ==> IsResponse(m, topic, command)
  {
    match shaped
    case Failure(e) => [ErrorEnvelope(topic, command, e)]
    case Success(v) => if v == Undefined then [] else [ResultEnvelope(topic, command, v)]
  }

  /** What handling one input message does. */
  datatype Effect = Effect(
    calls: seq<DriverCall>,     // the vendor-client calls made, in order
    sent: seq<Message>,         // the messages sent on the output port
    warned: seq<Warning>,       // the local warnings issued
    rejected: Option<Value>)    // the error the handler's promise rejects with

  const NoEffect: Effect := Effect([], [], [], None)

  /**
   * The body of the `try` block for a command of an initialized node; every
   * error thrown inside it becomes one error envelope.
   */
  ghost function CommandEffect(topic: Value, payload: Value, propertyNames: set<string>,
                               apply: Value -> Result<Value, Value>, driver: Driver): (e: Effect)
    ensures e.rejected == None
    ensures |e.calls| <= 1 && |e.sent| + |e.warned| <= 1
    ensures forall m :: m in e.sent ==> IsResponse(m, topic, Get(payload, "command"))
    ensures e.calls != [] ==> Route(Get(payload, "command")).Some?
                              && e.calls == [CallFor(Route(Get(payload, "command")).value, payload)]
    ensures e.warned != [] ==> Route(Get(payload, "command")).Some? && IsSetter(Route(Get(payload, "command")).value)
                               && !IsPropertyName(propertyNames, Get(payload, "name"))
    ensures Route(Get(payload, "command")).Some? && IsSetter(Route(Get(payload, "command")).value) ==>
              forall m :: m in e.sent ==> "result" !in m.payload
    ensures Route(Get(payload, "command")).None? ==> e.calls == [] && e.warned == [] && |e.sent| == 1
                                                     && "error" in e.sent[0].payload && e.sent[0].payload["error"] == UnknownCommand
  {
    var command := Get(payload, "command");
    match Route(command)
    case None => Effect([], [ErrorEnvelope(topic, command, UnknownCommand)], [], None)
    case Some(op) =>
      var call := CallFor(op, payload);
      if IsSetter(op) then
        var name := Get(payload, "name");
        if !IsPropertyName(propertyNames, name) then Effect([], [], [UnknownPropertyWarning(op, name)], None)
        else match driver(call)
          case Threw(e) => Effect([call], [ErrorEnvelope(topic, command, e)], [], None)
          case Returned(_) => Effect([call], [], [], None)
      else match driver(call)
        case Threw(e) => Effect([call], [ErrorEnvelope(topic, command, e)], [], None)
        case Returned(v) =>
          var shaped := if op == GetConfig then
                          match StripCredentials(v)
                          case Failure(e) => Failure(e)
                          case Success(w) => ShapeWith(apply, w)
                        else ShapeWith(apply, v);
          Effect([call], ResultMessages(topic, command, shaped), [], None)
  }

  /**
   * `onNodeInput(msg)`: reading the payload's fields throws (outside the
   * `try`) when the payload is null or undefined; an uninitialized node does
   * nothing; otherwise the command is handled. At most one client call is
   * made and at most one message is sent, and only a command response; a
   * node that is not initialized, or whose payload cannot be read, calls
   * nothing and sends nothing.
   */
  ghost function InputEffect(initialized: bool, topic: Value, msg: Value, propertyNames: set<string>,
                             apply: Value -> Result<Value, Value>, driver: Driver): (e: Effect)
    ensures e.rejected.Some? <==> Nullish(msg) || Nullish(Get(msg, "payload"))
    ensures !initialized || e.rejected.Some? ==> e.calls == [] && e.sent == [] && e.warned == []
    ensures |e.calls| <= 1 && |e.sent| + |e.warned| <= 1
    ensures forall m :: m in e.sent ==> IsResponse(m, topic, Get(Get(msg, "payload"), "command"))
  {
    if Nullish(msg) then Effect([], [], [], Some(DestructureError(msg, "payload", "msg")))
    else
      var payload := Get(msg, "payload");
      if Nullish(payload) then Effect([], [], [], Some(ReadError(payload, "loginOptions")))
      else if !initialized then NoEffect
      else CommandEffect(topic, payload, propertyNames, apply, driver)
  }

  /**
   * A readable command for an initialized node that names no case of the
   * switch is answered with the `Unknown command` error, without a call.
   */
  lemma UnknownCommandReported(topic: Value, msg: Value, propertyNames: set<string>,
                               apply: Value -> Result<Value, Value>, driver: Driver)
    requires !Nullish(msg) && !Nullish(Get(msg, "payload"))
    requires Route(Get(Get(msg, "payload"), "command")) == None
    ensures var e := InputEffect(true, topic, msg, propertyNames, apply, driver);
      var command := Get(Get(msg, "payload"), "command");
      && e.calls == [] && e.warned == [] && e.rejected == None
      && e.sent == [ErrorEnvelope(topic, command, UnknownCommand)]
      && "result" !in e.sent[0].payload
  {
  }

  /**
   * `get image` is declared as a command but has no case in the switch, so
   * asking for it yields the `Unknown command` error.
   */
  lemma GetImageReportedUnknown(topic: Value, msg: Value, propertyNames: set<string>,
                                apply: Value -> Result<Value, Value>, driver: Driver)
    requires !Nullish(msg) && Get(Get(msg, "payload"), "command") == Str("get image")
    ensures InputEffect(true, topic, msg, propertyNames, apply, driver)
      == Effect([], [ErrorEnvelope(topic, Str("get image"), UnknownCommand)], [], None)
  {
    GetImageIsUnknown();
  }

  /**
   * A setter whose property name is not in the enumeration only warns: no
   * call is made and nothing is sent.
   */
  lemma SetterRejectsUnknownName(topic: Value, msg: Value, propertyNames: set<string>,
                                 apply: Value -> Result<Value, Value>, driver: Driver, op: Op)
    requires !Nullish(msg) && !Nullish(Get(msg, "payload"))
    requires Route(Get(Get(msg, "payload"), "command")) == Some(op) && IsSetter(op)
    requires !IsPropertyName(propertyNames, Get(Get(msg, "payload"), "name"))
    ensures InputEffect(true, topic, msg, propertyNames, apply, driver)
      == Effect([], [], [UnknownPropertyWarning(op, Get(Get(msg, "payload"), "name"))], None)
  {
  }

  /**
   * A setter with a known property name makes exactly its call; it sends
   * nothing when the call succeeds and an error envelope when it fails, and
   * never a result.
   */
  lemma SetterCallsClient(topic: Value, msg: Value, propertyNames: set<string>,
                          apply: Value -> Result<Value, Value>, driver: Driver, op: Op)
    requires !Nullish(msg) && !Nullish(Get(msg, "payload"))
    requires Route(Get(Get(msg, "payload"), "command")) == Some(op) && IsSetter(op)
    requires IsPropertyName(propertyNames, Get(Get(msg, "payload"), "name"))
    ensures var e := InputEffect(true, topic, msg, propertyNames, apply, driver);
      var call := CallFor(op, Get(msg, "payload"));
      && e.calls == [call] && e.warned == []
      && (driver(call).Returned? ==> e.sent == [])
      && (driver(call).Threw? ==> e.sent == [ErrorEnvelope(topic, Get(Get(msg, "payload"), "command"), driver(call).error)])
      && forall m :: m in e.sent ==> "result" !in m.payload
  {
  }

  /**
   * Whatever the client throws (or rejects with) for a routed command is
   * sent back verbatim as the error of one envelope.
   */
  lemma DriverFailureReported(topic: Value, msg: Value, propertyNames: set<string>,
                              apply: Value -> Result<Value, Value>, driver: Driver, op: Op, error: Value)
    requires !Nullish(msg) && !Nullish(Get(msg, "payload"))
    requires Route(Get(Get(msg, "payload"), "command")) == Some(op)
    requires IsSetter(op) ==> IsPropertyName(propertyNames, Get(Get(msg, "payload"), "name"))
    requires driver(CallFor(op, Get(msg, "payload"))) == Threw(error)
    ensures InputEffect(true, topic, msg, propertyNames, apply, driver)
      == Effect([CallFor(op, Get(msg, "payload"))],
                [ErrorEnvelope(topic, Get(Get(msg, "payload"), "command"), error)], [], None)
  {
  }

  /**
   * A query that returns a value sends what result shaping makes of it:
   * nothing for `undefined`, one result envelope for every other value,
   * falsy ones included, and an error envelope when shaping throws.
   */
  lemma QueryResultReported(topic: Value, msg: Value, propertyNames: set<string>,
                            apply: Value -> Result<Value, Value>, driver: Driver, op: Op, v: Value)
    requires !Nullish(msg) && !Nullish(Get(msg, "payload"))
    requires Route(Get(Get(msg, "payload"), "command")) == Some(op)
    requires !IsSetter(op) && op != GetConfig
    requires driver(CallFor(op, Get(msg, "payload"))) == Returned(v)
    ensures var e := InputEffect(true, topic, msg, propertyNames, apply, driver);
      var command := Get(Get(msg, "payload"), "command");
      && e.calls == [CallFor(op, Get(msg, "payload"))] && e.warned == []
      && e.sent == ResultMessages(topic, command, ShapeWith(apply, v))
      && (v == Undefined ==> e.sent == [])
      && (v in {Bool(false), Num(0), Str(""), Null} ==> e.sent == [ResultEnvelope(topic, command, v)])
  {
  }

  /**
   * `close` returns nothing, so a successful `close` command sends no
   * response at all.
   */
  lemma CloseSendsNothing(topic: Value, msg: Value, propertyNames: set<string>,
                          apply: Value -> Result<Value, Value>, driver: Driver)
    requires !Nullish(msg) && Get(Get(msg, "payload"), "command") == Str("close")
    requires driver(DriverCall(Close, [])) == Returned(Undefined)
    ensures InputEffect(true, topic, msg, propertyNames, apply, driver)
      == Effect([DriverCall(Close, [])], [], [], None)
  {
    CommandOfKey(Str("close"), C.Close);
  }

  /**
   * `get config` answers with the client's configuration without its
   * `username` and `password` fields, every other field kept.
   */
  lemma GetConfigOmitsCredentials(topic: Value, msg: Value, propertyNames: set<string>,
                                  apply: Value -> Result<Value, Value>, driver: Driver, config: map<string, Value>)
    requires !Nullish(msg) && !Nullish(Get(msg, "payload"))
    requires Route(Get(Get(msg, "payload"), "command")) == Some(GetConfig)
    requires driver(DriverCall(GetConfig, [])) == Returned(Obj(config))
    requires !Truthy(Get(Obj(config), "properties"))
    ensures var e := InputEffect(true, topic, msg, propertyNames, apply, driver);
      var stripped := config - {"username", "password"};
      && e.calls == [DriverCall(GetConfig, [])]
      && e.sent == [ResultEnvelope(topic, Get(Get(msg, "payload"), "command"), Obj(stripped))]
      && "username" !in stripped && "password" !in stripped
      && forall k :: k in config && k != "username" && k != "password" ==> k in stripped && stripped[k] == config[k]
  {
    assert Get(Obj(config - {"username", "password"}), "properties") == Get(Obj(config), "properties");
  }

  /**
   * When the client has no configuration to give, deleting its credential
   * fields throws, and that error is what `get config` answers with.
   */
  lemma GetConfigOfNothingReported(topic: Value, msg: Value, propertyNames: set<string>,
                                   apply: Value -> Result<Value, Value>, driver: Driver)
    requires !Nullish(msg) && !Nullish(Get(msg, "payload"))
    requires Route(Get(Get(msg, "payload"), "command")) == Some(GetConfig)
    requires driver(DriverCall(GetConfig, [])).Returned? && Nullish(driver(DriverCall(GetConfig, [])).value)
    ensures InputEffect(true, topic, msg, propertyNames, apply, driver)
      == Effect([DriverCall(GetConfig, [])], [ErrorEnvelope(topic, Get(Get(msg, "payload"), "command"), DeleteError)], [], None)
  {
  }

  /**
   * `refresh data` and `refresh cloud data` make the same call.
   */
  lemma RefreshDataRefreshesCloud(topic: Value, msg: Value, propertyNames: set<string>,
                                  apply: Value -> Result<Value, Value>, driver: Driver)
    requires !Nullish(msg) && Get(Get(msg, "payload"), "command") == Str("refresh data")
    ensures InputEffect(true, topic, msg, propertyNames, apply, driver).calls == [DriverCall(RefreshCloudData, [])]
  {
    CommandOfKey(Str("refresh data"), C.RefreshData);
  }

  /**
   * Result shaping as the code is written: `transformProperties` is not an
   * export of the utilities module, so the imported name is `undefined` and
   * every call of it throws.
   */
  function ShapeAsWritten(result: Value): Result<Value, Value> {
    ShapeWith(TransformPropertiesAsImported, result)
  }

  /** Calling the imported `transformProperties`, which is `undefined`. */
  function TransformPropertiesAsImported(bag: Value): Result<Value, Value> {
    Failure(NotAFunction("transformProperties"))
  }

  /**
   * A result carrying a property bag, which the code means to convert (it
   * calls `transformProperties` on the bag), is turned into a `TypeError` as
   * written, while the intended shaping returns the converted bag.
   */
  lemma PropertyBagShapingThrows(transform: Value -> Value, bag: Value)
    requires Truthy(bag)
    ensures ShapeAsWritten(Obj(map["properties" := bag])) == Failure(NotAFunction("transformProperties"))
    ensures Shape(transform, Obj(map["properties" := bag])) == Success(transform(bag))
  {
  }

  /**
   * A single-element array of such a result fails the same way as written
   * and maps elementwise as intended.
   */
  lemma PropertyBagArrayShapingThrows(transform: Value -> Value, bag: Value)
    requires Truthy(bag)
    ensures ShapeAsWritten(Arr([Obj(map["properties" := bag])])) == Failure(NotAFunction("transformProperties"))
    ensures Shape(transform, Arr([Obj(map["properties" := bag])])) == Success(Arr([transform(bag)]))
  {
    var item := Obj(map["properties" := bag]);
    assert ShapeItem(TransformPropertiesAsImported, item) == Failure(NotAFunction("transformProperties"));
    var r := Shape(transform, Arr([item]));
    assert !Nullish(Arr([item]).items[0]);
    assert r.value.items[0] == transform(bag);
    assert r.value.items == [transform(bag)];
  }

  /**
   * The same at the level of one input message: a query whose reply carries
   * a property bag is answered, as written, with the `TypeError` of calling
   * `transformProperties`, and, as intended, with the converted bag (with
   * nothing, should the conversion give `undefined`).
   */
  lemma PropertyBagReplyReported(topic: Value, msg: Value, propertyNames: set<string>,
                                 transform: Value -> Value, driver: Driver, op: Op, bag: Value)
    requires !Nullish(msg) && !Nullish(Get(msg, "payload"))
    requires Route(Get(Get(msg, "payload"), "command")) == Some(op)
    requires !IsSetter(op) && op != GetConfig && Truthy(bag)
    requires driver(CallFor(op, Get(msg, "payload"))) == Returned(Obj(map["properties" := bag]))
    ensures InputEffect(true, topic, msg, propertyNames, TransformPropertiesAsImported, driver)
      == Effect([CallFor(op, Get(msg, "payload"))],
                [ErrorEnvelope(topic, Get(Get(msg, "payload"), "command"), NotAFunction("transformProperties"))], [], None)
    ensures InputEffect(true, topic, msg, propertyNames, Converting(transform), driver)
      == Effect([CallFor(op, Get(msg, "payload"))],
                ResultMessages(topic, Get(Get(msg, "payload"), "command"), Success(transform(bag))), [], None)
  {
    var reply := Obj(map["properties" := bag]);
    assert ShapeWith(TransformPropertiesAsImported, reply) == Failure(NotAFunction("transformProperties"));
    assert ShapeWith(Converting(transform), reply) == Success(transform(bag));
  }
}
