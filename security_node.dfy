/**
 * The `eufy-security` node: its lifecycle (initialization, connection,
 * shutdown), the listeners it attaches to the vendor client, and the handler
 * of incoming messages.
 *
 * The Node-RED host is reduced to what the node does to it: the messages it
 * sends, the warnings and errors it logs, and the status badge it shows.
 * The vendor client is a `Driver`; the node keeps a log of the calls made
 * to it.
 */
module SecurityNode {
  import opened Wrappers
  import opened JsValues
  import opened Utils
  import opened Events
  import opened Dispatch

  /** The status badge (`this.status(...)`). */
  datatype Status =
    | Blank            // `this.status({})`
    | NotConfigured
    | Initializing
    | Initialized
    | Connecting
    | Connected
    | ConnectionError
    | AwaitingTfa
    | AwaitingCaptcha
    | Disconnected

  /**
   * `eventsDefinition.filter(item => this.events.includes(item.event))`:
   * the entries whose event was selected, in table order. It keeps
   * exactly the table entries whose event is selected.
   */
  function Subscribe(defs: seq<EventDefinition>, events: seq<string>): (r: seq<EventDefinition>)
    ensures |r| <= |defs|
    ensures forall k :: 0 <= k < |r| ==> r[k].event in events
    ensures forall k {:trigger r[k] in defs} :: 0 <= k < |r| ==> r[k] in defs
    ensures forall d {:trigger d in r} :: d in defs && d.event in events ==> d in r
  {
    if defs == [] then []
    else
      var rest := Subscribe(defs[1..], events);
      var kept := if defs[0].event in events then [defs[0]] else [];
      assert defs == [defs[0]] + defs[1..];
      assert forall d :: d in defs <==> d == defs[0] || d in defs[1..];
      assert forall k :: 0 <= k < |rest| ==> rest[k] in defs[1..];
      assert forall k :: 0 <= k < |kept + rest| ==>
        (kept + rest)[k] == if k < |kept| then defs[0] else rest[k - |kept|];
      kept + rest
  }

  /**
   * `sendPayload(event, data)`: the payload spreads `data` after the event
   * name, so a field of `data` called `event` would win.
   */
  function EventMessage(topic: Value, event: string, data: map<string, Value>): (m: Message)
    ensures m.topic == topic
    ensures m.payload.Keys == {"event"} + data.Keys
    ensures forall k :: k in data ==> m.payload[k] == data[k]
    ensures "event" !in data ==> m.payload["event"] == Str(event)
  {
    Message(topic, map["event" := Str(event)] + data)
  }

  /**
   * What the forwarding listeners `listeners` send when the client emits
   * `event` with `args`: one message per listener of that event, in the
   * order the listeners were attached.
   */
  function Forwarded(topic: Value, listeners: seq<EventDefinition>, event: string, args: seq<Value>): seq<Message> {
    if listeners == [] then []
    else
      var d := listeners[0];
      (if d.event == event then [EventMessage(topic, d.event, d.handler(args))] else [])
        + Forwarded(topic, listeners[1..], event, args)
  }

  /** The badge the status listeners show after `event`. */
  function StatusAfter(status: Status, event: string): Status {
    if event == "connect" then Connected
    else if event == "connection error" then ConnectionError
    else if event == "tfa request" then AwaitingTfa
    else if event == "captcha request" then AwaitingCaptcha
    else if event == "close" then Disconnected
    else status
  }

  /**
   * The hints the status listeners log: a two-factor or captcha request is
   * pointed out only when the node does not forward that event itself.
   */
  function Hints(events: seq<string>, event: string, args: seq<Value>): seq<Warning> {
    if event == "tfa request" && "tfa request" !in events then [TfaHint]
    else if event == "captcha request" && "captcha request" !in events then [CaptchaHint(ArgAt(args, 0), ArgAt(args, 1))]
    else []
  }

  /** No two listeners are for the same event. */
  predicate DistinctEvents(defs: seq<EventDefinition>) {
    forall i, j :: 0 <= i < j < |defs| ==> defs[i].event != defs[j].event
  }

  /**
   * Forwarding through the selected listeners is forwarding through the
   * whole table for a selected event, and sends nothing for any other.
   */
  lemma {:induction false} SubscribeThenForward(topic: Value, defs: seq<EventDefinition>, events: seq<string>,
                                                event: string, args: seq<Value>)
    ensures Forwarded(topic, Subscribe(defs, events), event, args)
      == if event in events then Forwarded(topic, defs, event, args) else []
  {
    if defs != [] {
      SubscribeThenForward(topic, defs[1..], events, event, args);
      var rest := Subscribe(defs[1..], events);
      if defs[0].event in events {
        var kept := [defs[0]] + rest;
        assert Subscribe(defs, events) == kept;
        assert kept[0] == defs[0] && kept[1..] == rest;
      } else {
        assert Subscribe(defs, events) == [] + rest == rest;
      }
    }
  }

  /** Listeners of other events send nothing. */
  lemma {:induction false} ForwardedAbsent(topic: Value, defs: seq<EventDefinition>, event: string, args: seq<Value>)
    requires forall i :: 0 <= i < |defs| ==> defs[i].event != event
    ensures Forwarded(topic, defs, event, args) == []
  {
    if defs != [] {
      ForwardedAbsent(topic, defs[1..], event, args);
    }
  }

  /** With distinct events, the event of listener `k` is forwarded once, by that listener. */
  lemma {:induction false} ForwardedOnce(topic: Value, defs: seq<EventDefinition>, k: nat, args: seq<Value>)
    requires k < |defs| && DistinctEvents(defs)
    ensures Forwarded(topic, defs, defs[k].event, args)
      == [EventMessage(topic, defs[k].event, defs[k].handler(args))]
  {
    if k == 0 {
      ForwardedAbsent(topic, defs[1..], defs[0].event, args);
    } else {
      assert defs[0].event != defs[k].event;
      assert defs[1..][k - 1] == defs[k];
      ForwardedOnce(topic, defs[1..], k - 1, args);
    }
  }

  /**
   * An event of the table that the node was configured with is forwarded in
   * exactly one message, whose data are the event's arguments bound to the
   * entry's argument names.
   */
  lemma SelectedEventForwarded(topic: Value, events: seq<string>, i: nat, args: seq<Value>)
    requires i < EventCount && Entry(i).event in events
    ensures Forwarded(topic, Subscribe(Definitions(), events), Entry(i).event, args)
      == [EventMessage(topic, Entry(i).event, TransformArguments(Entry(i).args, args))]
  {
    var d := Definitions()[i];
    assert d == Definition(i);
    assert d.handler(args) == TransformArguments(Entry(i).args, args);
    TableListenersDistinct();
    SubscribeThenForward(topic, Definitions(), events, Entry(i).event, args);
    ForwardedOnce(topic, Definitions(), i, args);
  }

  /** The table's listeners are for pairwise distinct events. */
  lemma TableListenersDistinct()
    ensures DistinctEvents(Definitions())
  {
    DefinitionsKeepEntries();
    EventNamesDistinct();
  }

  /** An event the node was not configured with is never forwarded. */
  lemma UnselectedEventNotForwarded(topic: Value, events: seq<string>, event: string, args: seq<Value>)
    requires event !in events
    ensures Forwarded(topic, Subscribe(Definitions(), events), event, args) == []
  {
    SubscribeThenForward(topic, Definitions(), events, event, args);
  }

  /**
   * `captcha request` is never forwarded, even when it is selected: the
   * table has no such entry.
   */
  lemma CaptchaRequestNeverForwarded(topic: Value, events: seq<string>, args: seq<Value>)
    ensures Forwarded(topic, Subscribe(Definitions(), events), "captcha request", args) == []
  {
    SubscribeThenForward(topic, Definitions(), events, "captcha request", args);
    DefinitionsKeepEntries();
    CaptchaRequestNotInTable();
    ForwardedAbsent(topic, Definitions(), "captcha request", args);
  }

  /**
   * A forwarded message names its event and carries one field per argument
   * name of the entry; no argument can overwrite the event name.
   */
  lemma ForwardedPayload(topic: Value, i: nat, args: seq<Value>)
    requires i < EventCount
    ensures var m := EventMessage(topic, Entry(i).event, TransformArguments(Entry(i).args, args));
      && m.payload["event"] == Str(Entry(i).event)
      && forall k :: k in m.payload <==> k == "event" || k in Entry(i).args
  {
    ArgumentNamesWellFormed();
    assert "event" !in Table()[i].args;
  }

  /**
   * A two-factor request is pointed out on the log exactly when the node
   * does not forward it; a captcha request likewise, with its id and image.
   */
  lemma HintsOnlyForUnselectedRequests(events: seq<string>, args: seq<Value>)
    ensures Hints(events, "tfa request", args) == (if "tfa request" in events then [] else [TfaHint])
    ensures Hints(events, "captcha request", args)
      == (if "captcha request" in events then [] else [CaptchaHint(ArgAt(args, 0), ArgAt(args, 1))])
    ensures forall event :: event != "tfa request" && event != "captcha request" ==> Hints(events, event, args) == []
  {
  }

  /** A node configured with a connection and a selection of events. */
  class EufySecurityNode {
    const topic: Value
    const events: seq<string>
    const configured: bool             // the referenced config node exists
    const propertyNames: set<string>   // the values of the vendor's property-name enumeration
    const apply: Value -> Result<Value, Value> // what calling `transformProperties` on a property bag does
    const definitions: seq<EventDefinition> // the events module's export

    var initialized: bool
    var hasDriver: bool                // `this.driver` has been created
    var listeners: seq<EventDefinition> // the forwarding listeners attached
    var status: Status
    var sent: seq<Message>
    var warnings: seq<Warning>
    var errors: seq<string>
    ghost var calls: seq<DriverCall>

    /**
     * Listeners exist only once the client does; a node is initialized only
     * with a client, and only a configured node gets one.
     */
    ghost predicate Valid()
      reads `hasDriver, `listeners, `initialized
    {
      && (hasDriver ==> configured)
      && (!hasDriver ==> listeners == [])
      && (initialized ==> hasDriver)
    }

    /**
     * The constructor. `selection` is `config.events`, absent when unset;
     * `created` is the error the client's creation rejects with, if any.
     * `exported` is the events module's export that the node subscribes from.
     * A configured node runs `initialize`; otherwise it shows
     * `Not configured` and logs `Eufy config missing`.
     */
    constructor(topic: Value, selection: Option<seq<string>>, configured: bool,
                propertyNames: set<string>, apply: Value -> Result<Value, Value>,
                created: Option<Value>, driver: Driver, exported: seq<EventDefinition>)
      requires exported == Definitions()
      ensures Valid()
      ensures this.topic == topic && this.configured == configured
      ensures this.propertyNames == propertyNames && this.apply == apply
      ensures events == (if selection.Some? then selection.value else [])
      ensures sent == [] && warnings == []
      ensures !configured ==> status == NotConfigured && errors == ["Eufy config missing"]
                              && !initialized && !hasDriver && calls == []
      ensures configured ==> errors == [] && (hasDriver <==> created.None?) && (initialized <==> created.None?)
      ensures configured && created.Some? ==> status == Initializing && calls == []
      ensures definitions == Definitions()
      ensures configured && created.None? ==> listeners == Subscribe(definitions, events)
      ensures configured && created.None? ==> calls == ConnectCalls(driver)
      ensures configured && created.None? ==>
                status == (if |ConnectCalls(driver)| == 1 then Initialized else Connecting)
    {
      this.topic := topic;
      this.events := if selection.Some? then selection.value else [];
      this.configured := configured;
      this.propertyNames := propertyNames;
      this.apply := apply;
      this.definitions := exported;
      initialized := false;
      hasDriver := false;
      listeners := [];
      status := Blank;
      sent := [];
      warnings := [];
      errors := [];
      calls := [];
      new;
      if configured {
        var _ := Initialize(created, driver);
      } else {
        status := NotConfigured;
        errors := errors + ["Eufy config missing"];
      }
    }

    /**
     * `initialize()`: creates the client, attaches the status listeners and
     * one forwarding listener per selected event, marks the node
     * initialized and connects. A creation failure stops it short, with the
     * node still uninitialized; the returned error is what the promise
     * rejects with.
     */
    method Initialize(created: Option<Value>, driver: Driver) returns (rejected: Option<Value>)
      requires Valid() && configured && !hasDriver
      modifies `initialized, `status, `hasDriver, `listeners, `calls
      ensures Valid()
      ensures created.Some? ==> !initialized && !hasDriver && status == Initializing
                                && calls == old(calls) && rejected == created
      ensures created.None? ==> initialized && hasDriver && listeners == Subscribe(definitions, events)
      ensures created.None? ==> calls == old(calls) + ConnectCalls(driver)
      ensures created.None? ==> status == (if |ConnectCalls(driver)| == 1
                                            then Initialized else Connecting)
      ensures created.None? ==> rejected == ConnectRejection(driver)
    {
      initialized := false;
      status := Initializing;
      if created.Some? {
        rejected := created;
      } else {
        hasDriver := true;
        listeners := Subscribe(definitions, events);
        status := Initialized;
        initialized := true;
        rejected := Connect(driver);
      }
    }

    /** The calls `connect()` makes on an initialized node. */
    static function ConnectCalls(driver: Driver): (cs: seq<DriverCall>)
      ensures 1 <= |cs| <= 2 && cs[0] == DriverCall(Op.IsConnected, [])
      ensures |cs| == 2 ==> cs[1] == DriverCall(Op.Connect, [])
      ensures |cs| == 2 <==> driver(DriverCall(Op.IsConnected, [])).Returned?
                             && !Truthy(driver(DriverCall(Op.IsConnected, [])).value)
    {
      match driver(DriverCall(Op.IsConnected, []))
      case Returned(v) =>
        if Truthy(v) then [DriverCall(Op.IsConnected, [])]
        else [DriverCall(Op.IsConnected, []), DriverCall(Op.Connect, [])]
      case Threw(_) => [DriverCall(Op.IsConnected, [])]
    }

    /** What `connect()` on an initialized node rejects with. */
    static function ConnectRejection(driver: Driver): Option<Value> {
      match driver(DriverCall(Op.IsConnected, []))
      case Threw(e) => Some(e)
      case Returned(v) =>
        if Truthy(v) then None
        else match driver(DriverCall(Op.Connect, []))
          case Threw(e) => Some(e)
          case Returned(_) => None
    }

    /**
     * `connect()`: an initialized node that is not yet connected shows
     * `Connecting` and asks the client to connect.
     */
    method Connect(driver: Driver) returns (rejected: Option<Value>)
      requires Valid()
      modifies `status, `calls
      ensures Valid()
      ensures calls != old(calls) ==> hasDriver
      ensures !initialized ==> status == old(status) && calls == old(calls) && rejected == None
      ensures initialized ==> calls == old(calls) + ConnectCalls(driver) && rejected == ConnectRejection(driver)
      ensures initialized ==> status == (if |ConnectCalls(driver)| == 2 then Connecting else old(status))
    {
      rejected := None;
      if initialized {
        var reply := CallClient(DriverCall(Op.IsConnected, []), driver);
        match reply
        case Threw(e) =>
          rejected := Some(e);
        case Returned(connected) =>
          if !Truthy(connected) {
            status := Connecting;
            var result := CallClient(DriverCall(Op.Connect, []), driver);
            if result.Threw? {
              rejected := Some(result.error);
            }
          }
      }
    }

    /** `disconnect()`: an initialized node closes the client. */
    method Disconnect(driver: Driver) returns (thrown: Option<Value>)
      requires Valid()
      modifies `calls
      ensures Valid()
      ensures calls != old(calls) ==> hasDriver
      ensures !initialized ==> calls == old(calls) && thrown == None
      ensures initialized ==> calls == old(calls) + [DriverCall(Op.Close, [])]
      ensures initialized ==> thrown == (if driver(DriverCall(Op.Close, [])).Threw?
                                           then Some(driver(DriverCall(Op.Close, [])).error) else None)
    {
      thrown := None;
      if initialized {
        var reply := CallClient(DriverCall(Op.Close, []), driver);
        if reply.Threw? {
          thrown := Some(reply.error);
        }
      }
    }

    /** `onNodeClose()`: the host closes the node, which disconnects. */
    method OnNodeClose(driver: Driver) returns (thrown: Option<Value>)
      requires Valid() && configured
      modifies `calls
      ensures Valid()
      ensures !initialized ==> calls == old(calls) && thrown == None
      ensures initialized ==> calls == old(calls) + [DriverCall(Op.Close, [])]
      ensures initialized ==> thrown == (if driver(DriverCall(Op.Close, [])).Threw?
                                           then Some(driver(DriverCall(Op.Close, [])).error) else None)
    {
      thrown := Disconnect(driver);
    }

    /** One call of the client and its outcome. */
    method CallClient(call: DriverCall, driver: Driver) returns (reply: Reply)
      modifies `calls
      ensures calls == old(calls) + [call] && reply == driver(call)
    {
      calls := calls + [call];
      reply := driver(call);
    }

    /**
     * The client emits `event` with `args`: the status listeners update the
     * badge (and log a hint for an unforwarded two-factor or captcha
     * request), then every forwarding listener of that event sends its
     * message. Before the client exists nothing listens.
     */
    method OnClientEvent(event: string, args: seq<Value>)
      requires Valid()
      modifies `status, `warnings, `sent
      ensures Valid()
      ensures sent == old(sent) + Forwarded(topic, listeners, event, args)
      ensures !hasDriver ==> status == old(status) && warnings == old(warnings) && sent == old(sent)
      ensures hasDriver ==> status == StatusAfter(old(status), event)
      ensures hasDriver ==> warnings == old(warnings) + Hints(events, event, args)
      ensures hasDriver ==> sent == old(sent) + Forwarded(topic, listeners, event, args)
    {
      if !hasDriver {
        return;
      }
      if event == "connect" {
        status := Connected;
      } else if event == "connection error" {
        status := ConnectionError;
      } else if event == "tfa request" {
        if "tfa request" !in events {
          warnings := warnings + [TfaHint];
        }
        status := AwaitingTfa;
      } else if event == "captcha request" {
        if "captcha request" !in events {
          warnings := warnings + [CaptchaHint(ArgAt(args, 0), ArgAt(args, 1))];
        }
        status := AwaitingCaptcha;
      } else if event == "close" {
        status := Disconnected;
      }
      sent := sent + Forwarded(topic, listeners, event, args);
    }

    /**
     * `onNodeInput(msg)`. Destructuring a missing message or payload throws
     * before the `try`, so the promise rejects; otherwise an initialized
     * node runs the command and reports any error it throws.
     */
    method OnNodeInput(msg: Value, driver: Driver) returns (rejected: Option<Value>)
      requires Valid() && configured
      modifies `sent, `warnings, `calls
      ensures Valid()
      ensures calls != old(calls) ==> hasDriver
      ensures var e := InputEffect(initialized, topic, msg, propertyNames, apply, driver);
        && sent == old(sent) + e.sent
        && warnings == old(warnings) + e.warned
        && calls == old(calls) + e.calls
        && rejected == e.rejected
    {
      if Nullish(msg) {
        return Some(DestructureError(msg, "payload", "msg"));
      }
      var payload := Get(msg, "payload");
      if Nullish(payload) {
        return Some(ReadError(payload, "loginOptions"));
      }
      rejected := None;
      if initialized {
        var command := Get(payload, "command");
        var thrown := RunCommand(command, payload, driver);
        if thrown.Some? {
          SendCommandErrorResult(command, thrown.value);
        }
      }
    }

    /**
     * The body of the `try` in onNodeInput: the switch and the case it
     * selects. Together with the one error envelope the `catch` sends for
     * what it throws, it does what `CommandEffect` says.
     */
    method RunCommand(command: Value, payload: Value, driver: Driver) returns (thrown: Option<Value>)
      requires command == Get(payload, "command")
      modifies `sent, `warnings, `calls
      ensures var e := CommandEffect(topic, payload, propertyNames, apply, driver);
        && sent + (if thrown.Some? then [ErrorEnvelope(topic, command, thrown.value)] else []) == old(sent) + e.sent
        && warnings == old(warnings) + e.warned
        && calls == old(calls) + e.calls
    {
      var op := SelectCase(command);
      match op
      case None =>
        thrown := Some(UnknownCommand);
      case Some(o) =>
        if o == Op.SetStationProperty {
          thrown := SetStationProperty(Get(payload, "stationSN"), Get(payload, "name"), Get(payload, "value"), driver);
        } else if o == Op.SetDeviceProperty {
          thrown := SetDeviceProperty(Get(payload, "deviceSN"), Get(payload, "name"), Get(payload, "value"), driver);
        } else {
          var reply;
          if o == Op.GetConfig {
            reply := GetConfigWithoutCredentials(driver);
          } else {
            reply := CallClient(CallFor(o, payload), driver);
          }
          match reply
          case Threw(e) =>
            thrown := Some(e);
          case Returned(v) =>
            thrown := SendCommandResult(command, v);
        }
    }

    /**
     * `_setStationProperty`: a name outside the enumeration is only warned
     * about; a known name is set through the client.
     */
    method SetStationProperty(stationSN: Value, name: Value, value: Value, driver: Driver)
      returns (thrown: Option<Value>)
      modifies `warnings, `calls
      ensures !IsPropertyName(propertyNames, name) ==>
                warnings == old(warnings) + [UnknownStationProperty(name)] && calls == old(calls) && thrown == None
      ensures IsPropertyName(propertyNames, name) ==> warnings == old(warnings)
      ensures IsPropertyName(propertyNames, name) ==>
                var call := DriverCall(Op.SetStationProperty, [stationSN, name, value]);
                calls == old(calls) + [call] && thrown == (if driver(call).Threw? then Some(driver(call).error) else None)
    {
      thrown := None;
      if !IsPropertyName(propertyNames, name) {
        warnings := warnings + [UnknownStationProperty(name)];
        return;
      }
      var reply := CallClient(DriverCall(Op.SetStationProperty, [stationSN, name, value]), driver);
      if reply.Threw? {
        thrown := Some(reply.error);
      }
    }

    /** `_setDeviceProperty`, the same check for a device. */
    method SetDeviceProperty(deviceSN: Value, name: Value, value: Value, driver: Driver)
      returns (thrown: Option<Value>)
      modifies `warnings, `calls
      ensures !IsPropertyName(propertyNames, name) ==>
                warnings == old(warnings) + [UnknownDeviceProperty(name)] && calls == old(calls) && thrown == None
      ensures IsPropertyName(propertyNames, name) ==> warnings == old(warnings)
      ensures IsPropertyName(propertyNames, name) ==>
                var call := DriverCall(Op.SetDeviceProperty, [deviceSN, name, value]);
                calls == old(calls) + [call] && thrown == (if driver(call).Threw? then Some(driver(call).error) else None)
    {
      thrown := None;
      if !IsPropertyName(propertyNames, name) {
        warnings := warnings + [UnknownDeviceProperty(name)];
        return;
      }
      var reply := CallClient(DriverCall(Op.SetDeviceProperty, [deviceSN, name, value]), driver);
      if reply.Threw? {
        thrown := Some(reply.error);
      }
    }

    /**
     * `_getConfig`: the client's configuration with the credential fields
     * deleted; deleting from a missing configuration throws.
     */
    method GetConfigWithoutCredentials(driver: Driver) returns (reply: Reply)
      modifies `calls
      ensures calls == old(calls) + [DriverCall(Op.GetConfig, [])]
      ensures driver(DriverCall(Op.GetConfig, [])).Threw? ==> reply == driver(DriverCall(Op.GetConfig, []))
      ensures driver(DriverCall(Op.GetConfig, [])).Returned? ==>
                var stripped := StripCredentials(driver(DriverCall(Op.GetConfig, [])).value);
                reply == (if stripped.Success? then Returned(stripped.value) else Threw(stripped.error))
    {
      reply := CallClient(DriverCall(Op.GetConfig, []), driver);
      if reply.Returned? {
        match StripCredentials(reply.value)
        case Success(config) =>
          reply := Returned(config);
        case Failure(e) =>
          reply := Threw(e);
      }
    }

    /**
     * `sendCommandResult`: shapes the result and sends it unless it is
     * `undefined`; an error thrown while shaping is returned to the caller.
     */
    method SendCommandResult(command: Value, result: Value) returns (thrown: Option<Value>)
      modifies `sent
      ensures ShapeWith(apply, result).Failure? ==>
                thrown == Some(ShapeWith(apply, result).error) && sent == old(sent)
      ensures ShapeWith(apply, result).Success? ==>
                thrown == None && sent == old(sent) + ResultMessages(topic, command, ShapeWith(apply, result))
    {
      thrown := None;
      var shaped := ShapeWith(apply, result);
      match shaped
      case Failure(e) =>
        thrown := Some(e);
      case Success(transformed) =>
        if transformed != Undefined {
          sent := sent + [ResultEnvelope(topic, command, transformed)];
        }
    }

    /** `sendCommandErrorResult`: sends the error envelope. */
    method SendCommandErrorResult(command: Value, error: Value)
      modifies `sent
      ensures sent == old(sent) + [ErrorEnvelope(topic, command, error)]
    {
      sent := sent + [ErrorEnvelope(topic, command, error)];
    }
  }
}
