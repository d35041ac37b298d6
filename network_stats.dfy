/** The `toRtvi` mappers of Daily's network statistics: threshold re-labelling with a fallback,
    and field-for-field copies of the numeric readings. */
module NetworkStatsMapping {
  import opened Foundation
  import Daily
  import Rtvi

  /** The Daily case that carries the same label as an RTVI threshold. */
  function ThresholdLabel(t: Rtvi.NetworkThreshold): Daily.NetworkThreshold
  {
    match t
    case Good => Daily.Good
    case Low => Daily.Low
    case VeryLow => Daily.VeryLow
  }

  /** The threshold switch: a case both vocabularies name keeps its label, and any other
      Daily case falls back to `Good`. */
  function ThresholdToRtvi(t: Daily.NetworkThreshold): (r: Rtvi.NetworkThreshold)
    ensures t != Daily.Unrecognized ==> ThresholdLabel(r) == t
    ensures t == Daily.Unrecognized ==> r == Rtvi.Good
  {
    match t
    case Good => Rtvi.Good
    case Low => Rtvi.Low
    case VeryLow => Rtvi.VeryLow
    case _ => Rtvi.Good
  }

  /** Every RTVI threshold is reached, from the Daily case with its label. */
  lemma ThresholdToRtviOfLabel(t: Rtvi.NetworkThreshold)
    ensures ThresholdToRtvi(ThresholdLabel(t)) == t
  {
  }

  /** The previous threshold: absent stays absent, never a default; a present one goes through
      the same table as the current threshold. */
  function PreviousThresholdToRtvi(p: Option<Daily.NetworkThreshold>): (r: Option<Rtvi.NetworkThreshold>)
    ensures r.None? <==> p.None?
    ensures p.Some? ==> r.value == ThresholdToRtvi(p.value)
  {
    match p
    case None => None
    case Some(prevThreshold) => Some(ThresholdToRtvi(prevThreshold))
  }

  /** `LatestStatistics.toRtvi`: all nine readings are copied, each into its namesake. */
  function LatestStatisticsToRtvi(s: Daily.LatestStatistics): (r: Rtvi.LatestStatistics)
    ensures r.receiveBitsPerSecond == s.receiveBitsPerSecond
    ensures r.sendBitsPerSecond == s.sendBitsPerSecond
    ensures r.timestamp == s.timestamp
    ensures r.videoRecvBitsPerSecond == s.videoRecvBitsPerSecond
    ensures r.videoSendBitsPerSecond == s.videoSendBitsPerSecond
    ensures r.videoRecvPacketLoss == s.videoRecvPacketLoss
    ensures r.videoSendPacketLoss == s.videoSendPacketLoss
    ensures r.totalRecvPacketLoss == s.totalRecvPacketLoss
    ensures r.totalSendPacketLoss == s.totalSendPacketLoss
  {
    Rtvi.LatestStatistics(
      receiveBitsPerSecond := s.receiveBitsPerSecond,
      sendBitsPerSecond := s.sendBitsPerSecond,
      timestamp := s.timestamp,
      videoRecvBitsPerSecond := s.videoRecvBitsPerSecond,
      videoSendBitsPerSecond := s.videoSendBitsPerSecond,
      videoRecvPacketLoss := s.videoRecvPacketLoss,
      videoSendPacketLoss := s.videoSendPacketLoss,
      totalRecvPacketLoss := s.totalRecvPacketLoss,
      totalSendPacketLoss := s.totalSendPacketLoss)
  }

  /** No two Daily records map to the same RTVI record: nothing is dropped or merged. */
  lemma LatestStatisticsToRtviInjective(a: Daily.LatestStatistics, b: Daily.LatestStatistics)
    requires LatestStatisticsToRtvi(a) == LatestStatisticsToRtvi(b)
    ensures a == b
  {
  }

  /** `DetailedNetworkStats.toRtvi`. */
  function DetailedNetworkStatsToRtvi(s: Daily.DetailedNetworkStats): (r: Rtvi.DetailedNetworkStats)
    ensures r.latest == LatestStatisticsToRtvi(s.latest)
    ensures r.worstVideoReceivePacketLoss == s.worstVideoReceivePacketLoss
    ensures r.worstVideoSendPacketLoss == s.worstVideoSendPacketLoss
  {
    Rtvi.DetailedNetworkStats(
      latest := LatestStatisticsToRtvi(s.latest),
      worstVideoReceivePacketLoss := s.worstVideoReceivePacketLoss,
      worstVideoSendPacketLoss := s.worstVideoSendPacketLoss)
  }

  /** `NetworkStats.toRtvi`: quality and readings pass through, both thresholds go through the
      table, and the previous threshold is present exactly when Daily reported one. */
  function NetworkStatsToRtvi(s: Daily.NetworkStats): (r: Rtvi.NetworkStats)
    ensures r.quality == s.quality
    ensures r.stats == LatestStatisticsToRtvi(s.stats)
    ensures r.threshold == ThresholdToRtvi(s.threshold)
    ensures r.previousThreshold.Some? <==> s.previousThreshold.Some?
    ensures s.previousThreshold.Some? ==> r.previousThreshold.value == ThresholdToRtvi(s.previousThreshold.value)
  {
    Rtvi.NetworkStats(
      quality := s.quality,
      threshold := ThresholdToRtvi(s.threshold),
      previousThreshold := PreviousThresholdToRtvi(s.previousThreshold),
      stats := LatestStatisticsToRtvi(s.stats))
  }
}
