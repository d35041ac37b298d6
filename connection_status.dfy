/** `NetworkConnectionStatusUpdate.toRtvi`: the update is encoded to JSON and read back, its
    `connection` and `event` strings are looked up in two tables with fallbacks, and a fixed
    default is returned when either string cannot be read. */
module ConnectionStatusMapping {
  import opened Foundation
  import Daily
  import Rtvi
  import opened StringSwitch

  /** The cases of the connection switch, in source order. */
  const ConnectionCases: seq<(string, Rtvi.NetworkConnectionType)> :=
    [("signalling", Rtvi.Signalling), ("recvTransport", Rtvi.RecvTransport), ("sendTransport", Rtvi.SendTransport)]

  /** The cases of the event switch, in source order. */
  const EventCases: seq<(string, Rtvi.NetworkConnectionEventType)> :=
    [("connected", Rtvi.Connected), ("interrupted", Rtvi.Interrupted)]

  /** The names the connection switch recognises. */
  const KnownConnectionNames: set<string> := {"signalling", "recvTransport", "sendTransport"}

  /** The names the event switch recognises. */
  const KnownEventNames: set<string> := {"connected", "interrupted"}

  /** The name under which the connection table yields each RTVI connection type. */
  function ConnectionName(c: Rtvi.NetworkConnectionType): string
  {
    match c
    case Signalling => "signalling"
    case RecvTransport => "recvTransport"
    case SendTransport => "sendTransport"
  }

  /** The name under which the event table yields each RTVI event. */
  function EventName(e: Rtvi.NetworkConnectionEventType): string
  {
    match e
    case Connected => "connected"
    case Interrupted => "interrupted"
  }

  /** The connection cases test exactly the known names, each yielding the type of that name. */
  lemma ConnectionCasesNameTheirTypes()
    ensures Labels(ConnectionCases) == KnownConnectionNames
    ensures forall i :: 0 <= i < |ConnectionCases| ==> ConnectionName(ConnectionCases[i].1) == ConnectionCases[i].0
  {
    assert ConnectionCases[0].0 in Labels(ConnectionCases);
    assert ConnectionCases[1].0 in Labels(ConnectionCases);
    assert ConnectionCases[2].0 in Labels(ConnectionCases);
  }

  /** The event cases test exactly the known names, each yielding the event of that name. */
  lemma EventCasesNameTheirEvents()
    ensures Labels(EventCases) == KnownEventNames
    ensures forall i :: 0 <= i < |EventCases| ==> EventName(EventCases[i].1) == EventCases[i].0
  {
    assert EventCases[0].0 in Labels(EventCases);
    assert EventCases[1].0 in Labels(EventCases);
  }

  /** The connection switch: a known name yields the type of that name; anything else, `Signalling`. */
  function ConnectionFromString(connectionString: string): (r: Rtvi.NetworkConnectionType)
    ensures connectionString in KnownConnectionNames ==> ConnectionName(r) == connectionString
    ensures connectionString !in KnownConnectionNames ==> r == Rtvi.Signalling
  {
    ConnectionCasesNameTheirTypes();
    SwitchSelects(ConnectionCases, connectionString, Rtvi.Signalling);
    Switch(ConnectionCases, connectionString, Rtvi.Signalling)
  }

  /** The event switch: a known name yields the event of that name; anything else, `Connected`. */
  function EventFromString(eventString: string): (r: Rtvi.NetworkConnectionEventType)
    ensures eventString in KnownEventNames ==> EventName(r) == eventString
    ensures eventString !in KnownEventNames ==> r == Rtvi.Connected
  {
    EventCasesNameTheirEvents();
    SwitchSelects(EventCases, eventString, Rtvi.Connected);
    Switch(EventCases, eventString, Rtvi.Connected)
  }

  /** Each connection type is read back from its own name, and from no other known name. */
  lemma ConnectionNameRoundTrip(c: Rtvi.NetworkConnectionType, name: string)
    requires name in KnownConnectionNames
    ensures ConnectionFromString(name) == c <==> name == ConnectionName(c)
  {
    var i := match c case Signalling => 0 case RecvTransport => 1 case SendTransport => 2;
    SwitchHits(ConnectionCases, i, Rtvi.Signalling);
  }

  /** Each event is read back from its own name, and from no other known name. */
  lemma EventNameRoundTrip(e: Rtvi.NetworkConnectionEventType, name: string)
    requires name in KnownEventNames
    ensures EventFromString(name) == e <==> name == EventName(e)
  {
    var i := match e case Connected => 0 case Interrupted => 1;
    SwitchHits(EventCases, i, Rtvi.Connected);
  }

  /** The result when the decoded form cannot be read. */
  const DefaultStatus: Rtvi.NetworkConnectionStatusUpdate :=
    Rtvi.NetworkConnectionStatusUpdate(Rtvi.Signalling, Rtvi.Connected)

  /** The mapper, given what encoding the update and deserialising it produced (`None` when either
      Foundation call threw). Without a string `connection` and a string `event` the result is the
      fixed default; otherwise each string goes through its own table. */
  function ConnectionStatusToRtvi(decoded: Option<Json>): (r: Rtvi.NetworkConnectionStatusUpdate)
    ensures StringField(decoded, "connection").None? || StringField(decoded, "event").None? ==>
      r == DefaultStatus
    ensures StringField(decoded, "connection").Some? && StringField(decoded, "event").Some? ==>
      r.connection == ConnectionFromString(StringField(decoded, "connection").value) &&
      r.event == EventFromString(StringField(decoded, "event").value)
  {
    match (StringField(decoded, "connection"), StringField(decoded, "event"))
    case (Some(connectionString), Some(eventString)) =>
      Rtvi.NetworkConnectionStatusUpdate(ConnectionFromString(connectionString), EventFromString(eventString))
    case _ => DefaultStatus
  }

  /** The default result comes out exactly when the strings cannot be read, or when both name
      the default case or are unknown: the caller cannot tell these apart. */
  lemma DefaultStatusExactly(decoded: Option<Json>)
    ensures ConnectionStatusToRtvi(decoded) == DefaultStatus <==>
      || StringField(decoded, "connection").None?
      || StringField(decoded, "event").None?
      || (StringField(decoded, "connection").value !in {"recvTransport", "sendTransport"} &&
          StringField(decoded, "event").value != "interrupted")
  {
  }

  /** The relabelling the mapper would be if Daily's fields could be read directly. */
  function DirectToRtvi(u: Daily.NetworkConnectionStatusUpdate): (r: Rtvi.NetworkConnectionStatusUpdate)
    ensures ConnectionName(r.connection) == Daily.ConnectionTypeRawValue(u.connection)
    ensures EventName(r.event) == Daily.ConnectionEventRawValue(u.event)
  {
    Rtvi.NetworkConnectionStatusUpdate(
      match u.connection
      case Signalling => Rtvi.Signalling
      case RecvTransport => Rtvi.RecvTransport
      case SendTransport => Rtvi.SendTransport,
      match u.event
      case Connected => Rtvi.Connected
      case Interrupted => Rtvi.Interrupted)
  }

  /** When encoding and decoding succeed, the round trip through JSON loses nothing: the
      mapper agrees with reading the fields directly. */
  lemma EncodedRoundTrip(u: Daily.NetworkConnectionStatusUpdate)
    ensures ConnectionStatusToRtvi(Some(Daily.Encoded(u))) == DirectToRtvi(u)
  {
  }

  /** Decoding `{"connection": "recvTransport", "event": "interrupted"}`. */
  lemma RecvTransportInterrupted()
    ensures ConnectionStatusToRtvi(Some(JObject(map["connection" := JString("recvTransport"),
                                                   "event" := JString("interrupted")])))
            == Rtvi.NetworkConnectionStatusUpdate(Rtvi.RecvTransport, Rtvi.Interrupted)
  {
  }
}
