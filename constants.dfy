/**
 * The adapter's constant tables: the command names accepted on the input
 * port, and the `event` value of command responses.
 */
module Constants {

  /** The `event` field of every command response envelope. */
  const EventCommandResult: string := "command result"

  /** The keys of the `EUFY_SECURITY_COMMANDS` table, in declaration order. */
  datatype Command =
    | SetStationProperty
    | SetDeviceProperty
    | GetConfig
    | GetVersion
    | IsPushConnected
    | IsConnected
    | Connect
    | Close
    | SetCameraMaxLivestreamDuration
    | GetCameraMaxLivestreamDuration
    | RefreshCloudData
    | RefreshData
    | IsStationConnected
    | ConnectToStation
    | GetStation
    | GetStations
    | GetStationDevice
    | GetDevice
    | GetDevices
    | GetImage

  /** The command string each key of the table stands for. */
  function Name(c: Command): string {
    match c
    case SetStationProperty => "set station property"
    case SetDeviceProperty => "set device property"
    case GetConfig => "get config"
    case GetVersion => "get version"
    case IsPushConnected => "is push connected"
    case IsConnected => "is connected"
    case Connect => "connect"
    case Close => "close"
    case SetCameraMaxLivestreamDuration => "set camera max livestream duration"
    case GetCameraMaxLivestreamDuration => "get camera max livestream duration"
    case RefreshCloudData => "refresh cloud data"
    case RefreshData => "refresh data"
    case IsStationConnected => "is station connected"
    case ConnectToStation => "connect to station"
    case GetStation => "get station"
    case GetStations => "get stations"
    case GetStationDevice => "get station device"
    case GetDevice => "get device"
    case GetDevices => "get devices"
    case GetImage => "get image"
  }

  /** Every key of the table, in declaration order. */
  const Commands: seq<Command> := [
    SetStationProperty, SetDeviceProperty, GetConfig, GetVersion, IsPushConnected,
    IsConnected, Connect, Close, SetCameraMaxLivestreamDuration, GetCameraMaxLivestreamDuration,
    RefreshCloudData, RefreshData, IsStationConnected, ConnectToStation, GetStation,
    GetStations, GetStationDevice, GetDevice, GetDevices, GetImage]

  /** The table has 20 keys, each listed once. */
  lemma CommandTableComplete()
    ensures |Commands| == 20
    ensures forall c :: c in Commands
    ensures forall i, j :: 0 <= i < j < |Commands| ==> Commands[i] != Commands[j]
  {
    forall c ensures c in Commands {
      match c
      case SetStationProperty =>
      case _ =>
    }
  }

  /**
   * The 20 command strings are pairwise distinct, so matching a command by
   * exact string selects at most one key.
   */
  lemma CommandNamesDistinct(a: Command, b: Command)
    ensures Name(a) == Name(b) <==> a == b
  {
    match a
    case SetStationProperty | SetDeviceProperty | GetConfig | GetVersion | IsPushConnected => NamesDistinctA(a, b);
    case IsConnected | Connect | Close | SetCameraMaxLivestreamDuration | GetCameraMaxLivestreamDuration => NamesDistinctB(a, b);
    case RefreshCloudData | RefreshData | IsStationConnected | ConnectToStation | GetStation => NamesDistinctC(a, b);
    case GetStations | GetStationDevice | GetDevice | GetDevices | GetImage => NamesDistinctD(a, b);
  }

  // The distinctness is proved five keys at a time, which keeps each proof
  // obligation small.

  lemma NamesDistinctA(a: Command, b: Command)
    requires a.SetStationProperty? || a.SetDeviceProperty? || a.GetConfig? || a.GetVersion? || a.IsPushConnected?
    ensures Name(a) == Name(b) <==> a == b
  {
  }

  lemma NamesDistinctB(a: Command, b: Command)
    requires a.IsConnected? || a.Connect? || a.Close? || a.SetCameraMaxLivestreamDuration? || a.GetCameraMaxLivestreamDuration?
    ensures Name(a) == Name(b) <==> a == b
  {
  }

  lemma NamesDistinctC(a: Command, b: Command)
    requires a.RefreshCloudData? || a.RefreshData? || a.IsStationConnected? || a.ConnectToStation? || a.GetStation?
    ensures Name(a) == Name(b) <==> a == b
  {
  }

  lemma NamesDistinctD(a: Command, b: Command)
    requires a.GetStations? || a.GetStationDevice? || a.GetDevice? || a.GetDevices? || a.GetImage?
    ensures Name(a) == Name(b) <==> a == b
  {
  }
}
