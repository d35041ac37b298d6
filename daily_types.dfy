/** The Daily SDK types the extensions read. Only the fields the extensions touch are modelled. */
module Daily {
  import opened Foundation

  /** Daily's network quality classification. Besides the three cases the extensions name,
      the SDK's enum may hold others (the switches end in `default:`); `Unrecognized` stands for them. */
  datatype NetworkThreshold = Good | Low | VeryLow | Unrecognized

  datatype LatestStatistics = LatestStatistics(
    receiveBitsPerSecond: Metric,
    sendBitsPerSecond: Metric,
    timestamp: Metric,
    videoRecvBitsPerSecond: Metric,
    videoSendBitsPerSecond: Metric,
    videoRecvPacketLoss: Metric,
    videoSendPacketLoss: Metric,
    totalRecvPacketLoss: Metric,
    totalSendPacketLoss: Metric)

  datatype NetworkStats = NetworkStats(
    quality: Metric,
    threshold: NetworkThreshold,
    previousThreshold: Option<NetworkThreshold>,
    stats: LatestStatistics)

  datatype DetailedNetworkStats = DetailedNetworkStats(
    latest: LatestStatistics,
    worstVideoReceivePacketLoss: Metric,
    worstVideoSendPacketLoss: Metric)

  /** The channel a connection status update is about. */
  datatype NetworkConnectionType = Signalling | RecvTransport | SendTransport

  /** What happened on that channel. */
  datatype NetworkConnectionEvent = Connected | Interrupted

  /** Daily's connection status update. Its fields are not readable from the extension, which
      therefore goes through the type's Codable form (see `Encoded`). */
  datatype NetworkConnectionStatusUpdate = NetworkConnectionStatusUpdate(
    connection: NetworkConnectionType,
    event: NetworkConnectionEvent)

  /** The raw value under which Daily encodes a connection type. */
  function ConnectionTypeRawValue(c: NetworkConnectionType): string
  {
    match c
    case Signalling => "signalling"
    case RecvTransport => "recvTransport"
    case SendTransport => "sendTransport"
  }

  /** The raw value under which Daily encodes a connection event. */
  function ConnectionEventRawValue(e: NetworkConnectionEvent): string
  {
    match e
    case Connected => "connected"
    case Interrupted => "interrupted"
  }

  /** The JSON object that encoding an update with JSONEncoder and reading it back with
      JSONSerialization yields when both succeed: one string per field, keyed by field name. */
  function Encoded(u: NetworkConnectionStatusUpdate): (j: Json)
    ensures j.JObject? && j.fields.Keys == {"connection", "event"}
  {
    JObject(map["connection" := JString(ConnectionTypeRawValue(u.connection)),
                "event" := JString(ConnectionEventRawValue(u.event))])
  }
}
