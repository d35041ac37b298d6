/** The PipecatClientIOS types the extensions produce. */
module Rtvi {
  import opened Foundation

  /** A field of a sparse settings update: left alone (`Unset`) or set to a value.
      "Unset" is not the same as "set to a default". */
  datatype Patch<T> = Unset | Set(v: T)
  {
    /** The value carried, or `d` when the field is unset. */
    function OrElse(d: T): T
    {
      match this
      case Set(x) => x
      case Unset => d
    }
  }

  /** The value of a settings field that the merge never inspects. */
  type Setting

  /** The publishing part of a settings update; the merge passes it through whole. */
  type PublishingSettingsUpdate

  /** Camera settings update: `isEnabled`, plus the update's other fields, by name,
      for those that are set (a name that is absent is an unset field). */
  datatype CameraInputSettingsUpdate = CameraInputSettingsUpdate(
    isEnabled: Patch<bool>,
    others: map<string, Setting>)

  datatype MicrophoneInputSettingsUpdate = MicrophoneInputSettingsUpdate(
    isEnabled: Patch<bool>,
    others: map<string, Setting>)

  datatype InputSettingsUpdate = InputSettingsUpdate(
    camera: Patch<CameraInputSettingsUpdate>,
    microphone: Patch<MicrophoneInputSettingsUpdate>,
    others: map<string, Setting>)

  datatype ClientSettingsUpdate = ClientSettingsUpdate(
    inputs: Patch<InputSettingsUpdate>,
    publishing: PublishingSettingsUpdate)

  /** `CameraInputSettingsUpdate(isEnabled:)`: every other field left unset. */
  function NewCameraSettings(isEnabled: Patch<bool>): CameraInputSettingsUpdate
  {
    CameraInputSettingsUpdate(isEnabled, map[])
  }

  /** `MicrophoneInputSettingsUpdate(isEnabled:)`: every other field left unset. */
  function NewMicrophoneSettings(isEnabled: Patch<bool>): MicrophoneInputSettingsUpdate
  {
    MicrophoneInputSettingsUpdate(isEnabled, map[])
  }

  /** `InputSettingsUpdate(camera:microphone:)`: every other field left unset. */
  function NewInputSettings(camera: Patch<CameraInputSettingsUpdate>,
                            microphone: Patch<MicrophoneInputSettingsUpdate>): InputSettingsUpdate
  {
    InputSettingsUpdate(camera, microphone, map[])
  }

  datatype NetworkThreshold = Good | Low | VeryLow

  datatype LatestStatistics = LatestStatistics(
    receiveBitsPerSecond: Metric,
    sendBitsPerSecond: Metric,
    timestamp: Metric,
    videoRecvBitsPerSecond: Metric,
    videoSendBitsPerSecond: Metric,
    videoRecvPacketLoss: Metric,
    videoSendPacketLoss: Metric,
    totalRecvPacketLoss: Metric,
    totalSendPacketLoss: Metric)

  /** RTVINetworkStats. */
  datatype NetworkStats = NetworkStats(
    quality: Metric,
    threshold: NetworkThreshold,
    previousThreshold: Option<NetworkThreshold>,
    stats: LatestStatistics)

  /** RTVIDetailedNetworkStats. */
  datatype DetailedNetworkStats = DetailedNetworkStats(
    latest: LatestStatistics,
    worstVideoReceivePacketLoss: Metric,
    worstVideoSendPacketLoss: Metric)

  /** RTVINetworkConnectionType. */
  datatype NetworkConnectionType = Signalling | RecvTransport | SendTransport

  /** RTVINetworkConnectionEventType. */
  datatype NetworkConnectionEventType = Connected | Interrupted

  /** RTVINetworkConnectionStatusUpdate. */
  datatype NetworkConnectionStatusUpdate = NetworkConnectionStatusUpdate(
    connection: NetworkConnectionType,
    event: NetworkConnectionEventType)
}
