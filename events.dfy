/**
 * The event table: for every vendor-client event the adapter can forward,
 * its name and the names of its positional arguments, and the exported
 * definitions that attach an argument transformer to each entry.
 */
module Events {
  import opened JsValues
  import opened Utils

  /** An entry of the table: an event name and its ordered argument names. */
  datatype EventDescriptor = EventDescriptor(event: string, args: seq<string>)

  /** An exported entry: the descriptor's fields plus its `handler`. */
  datatype EventDefinition = EventDefinition(
    event: string,
    args: seq<string>,
    handler: seq<Value> -> map<string, Value>)

  const EventCount: nat := 35

  /** Entry `i` of the table literal, in source order. */
  function Entry(i: nat): EventDescriptor
    requires i < EventCount
  {
    match i
    case 0 => EventDescriptor("connect", [])
    case 1 => EventDescriptor("close", [])
    case 2 => EventDescriptor("push connect", [])
    case 3 => EventDescriptor("push close", [])
    case 4 => EventDescriptor("push message", ["message"])
    case 5 => EventDescriptor("station added", ["station"])
    case 6 => EventDescriptor("station removed", ["station"])
    case 7 => EventDescriptor("device added", ["device"])
    case 8 => EventDescriptor("device removed", ["device"])
    case 9 => EventDescriptor("device connect", ["station"])
    case 10 => EventDescriptor("device close", ["station"])
    case 11 => EventDescriptor("tfa request", [])
    case 12 => EventDescriptor("cloud livestream start", ["station", "camera", "url"])
    case 13 => EventDescriptor("cloud livestream stop", ["station", "camera"])
    case 14 => EventDescriptor("station livestream start", ["station", "device", "metadata", "videostream", "audiostream"])
    case 15 => EventDescriptor("station livestream stop", ["station", "device"])
    case 16 => EventDescriptor("station download start", ["station", "device", "metadata", "videoStream", "audioStream"])
    case 17 => EventDescriptor("station download finish", ["station", "device"])
    case 18 => EventDescriptor("station command result", ["station", "result"])
    case 19 => EventDescriptor("station rtsp url", ["station", "device", "value", "modified"])
    case 20 => EventDescriptor("station guard mode", ["station", "guardMode"])
    case 21 => EventDescriptor("station current mode", ["station", "currentMode"])
    case 22 => EventDescriptor("station property changed", ["station", "name", "value"])
    case 23 => EventDescriptor("station raw property changed", ["station", "type", "value", "modified"])
    case 24 => EventDescriptor("station alarm event", ["station", "alarmEvent"])
    case 25 => EventDescriptor("device property changed", ["device", "name", "value"])
    case 26 => EventDescriptor("device raw property changed", ["device", "type", "value", "modified"])
    case 27 => EventDescriptor("device crying detected", ["device", "state"])
    case 28 => EventDescriptor("device sound detected", ["device", "state"])
    case 29 => EventDescriptor("device pet detected", ["device", "state"])
    case 30 => EventDescriptor("device motion detected", ["device", "state"])
    case 31 => EventDescriptor("device person detected", ["device", "state", "person"])
    case 32 => EventDescriptor("device rings", ["device", "state"])
    case 33 => EventDescriptor("device locked", ["device", "state"])
    case 34 => EventDescriptor("device open", ["device", "state"])
  }

  /** The table literal. */
  function Table(): (t: seq<EventDescriptor>)
    ensures |t| == EventCount
    ensures forall i :: 0 <= i < |t| ==> t[i] == Entry(i)
  {
    seq(EventCount, i requires 0 <= i < EventCount => Entry(i))
  }

  /** `{...item, handler: getArgumentsTransformer(item.args)}`. */
  function Attach(d: EventDescriptor): EventDefinition {
    EventDefinition(d.event, d.args, GetArgumentsTransformer(d.args))
  }

  /** Exported entry `i`. */
  function Definition(i: nat): EventDefinition
    requires i < EventCount
  {
    Attach(Entry(i))
  }

  /** The module's export: the table mapped through `Attach`. */
  function Definitions(): seq<EventDefinition> {
    seq(EventCount, i requires 0 <= i < EventCount => Definition(i))
  }

  /**
   * The exported table has 35 entries; each keeps its entry's event name and
   * argument names and gains the transformer for those argument names.
   */
  lemma DefinitionsKeepEntries()
    ensures |Definitions()| == 35
    ensures forall i :: 0 <= i < |Definitions()| ==>
      Definitions()[i].event == Table()[i].event && Definitions()[i].args == Table()[i].args
    ensures forall i, args :: 0 <= i < |Definitions()| ==>
      Definitions()[i].handler(args) == TransformArguments(Table()[i].args, args)
  {
  }

  /** Event names are pairwise distinct, so an event name selects at most one entry. */
  lemma EventNamesDistinct()
    ensures forall i, j :: 0 <= i < j < |Table()| ==> Table()[i].event != Table()[j].event
  {
    EventNamesDistinctFrom0();
    EventNamesDistinctFrom12();
    EventNamesDistinctFrom24();
  }

  /**
   * `captcha request` has a status listener but no entry in the table, so
   * it can never be forwarded.
   */
  lemma CaptchaRequestNotInTable()
    ensures forall i :: 0 <= i < |Table()| ==> Table()[i].event != "captcha request"
  {
  }

  // The table-wide facts are proved a few entries at a time, which keeps each
  // proof obligation small.

  lemma EventNamesDistinctFrom0()
    ensures forall i, j :: 0 <= i < 12 && i < j < EventCount ==> Entry(i).event != Entry(j).event
  {
  }

  lemma EventNamesDistinctFrom12()
    ensures forall i, j :: 12 <= i < 24 && i < j < EventCount ==> Entry(i).event != Entry(j).event
  {
  }

  lemma EventNamesDistinctFrom24()
    ensures forall i, j :: 24 <= i < 35 && i < j < EventCount ==> Entry(i).event != Entry(j).event
  {
  }

  /**
   * Within every entry the argument names are pairwise distinct, none is
   * `event` (so spreading a handler's record after the event name never
   * overwrites it), and there are at most five of them.
   */
  lemma ArgumentNamesWellFormed()
    ensures forall i :: 0 <= i < |Table()| ==>
      Distinct(Table()[i].args) && "event" !in Table()[i].args && |Table()[i].args| <= 5
  {
    ArgumentNamesWellFormedFrom0();
    ArgumentNamesWellFormedFrom7();
    ArgumentNamesWellFormedFrom14();
    ArgumentNamesWellFormedFrom18();
    ArgumentNamesWellFormedFrom22();
    ArgumentNamesWellFormedFrom26();
    ArgumentNamesWellFormedFrom30();
  }

  /** The shape every argument list of the table has. */
  predicate WellFormedArgs(args: seq<string>) {
    Distinct(args) && "event" !in args && |args| <= 5
  }

  lemma ArgumentNamesWellFormedFrom0()
    ensures forall i :: 0 <= i < 7 ==> WellFormedArgs(Entry(i).args)
  {
  }

  lemma ArgumentNamesWellFormedFrom7()
    ensures forall i :: 7 <= i < 14 ==> WellFormedArgs(Entry(i).args)
  {
  }

  lemma ArgumentNamesWellFormedFrom14()
    ensures forall i :: 14 <= i < 18 ==> WellFormedArgs(Entry(i).args)
  {
  }

  lemma ArgumentNamesWellFormedFrom18()
    ensures forall i :: 18 <= i < 22 ==> WellFormedArgs(Entry(i).args)
  {
  }

  lemma ArgumentNamesWellFormedFrom22()
    ensures forall i :: 22 <= i < 26 ==> WellFormedArgs(Entry(i).args)
  {
  }

  lemma ArgumentNamesWellFormedFrom26()
    ensures forall i :: 26 <= i < 30 ==> WellFormedArgs(Entry(i).args)
  {
  }

  lemma ArgumentNamesWellFormedFrom30()
    ensures forall i :: 30 <= i < 35 ==> WellFormedArgs(Entry(i).args)
  {
  }

  /**
   * The `push message` entry has the single argument name `message`; its
   * handler applied to two arguments keeps the first under `message` and
   * drops the second (there is no `other` field).
   */
  lemma PushMessageHandler(first: Value, second: Value)
    ensures Table()[4] == EventDescriptor("push message", ["message"])
    ensures Definitions()[4].handler([first, second]) == map["message" := first]
  {
    BindsLastOccurrence(["message"], [first, second], 0);
  }
}
