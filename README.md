# Daily-to-Pipecat extensions, modelled in Dafny

`DailyExtensions.swift` adapts the Daily SDK's types to the PipecatClientIOS vocabulary. This
project models the parts of it that have behaviour:

- **The settings merger** (`ClientSettingsUpdate.mergingCameraAndMicrophoneSettings`). Every field
  of a settings update is a sparse `Patch<T> = Unset | Set(v)`, two levels deep: `inputs` holds
  `camera` and `microphone`, and each of those holds `isEnabled`. The merge forces the two
  `isEnabled` fields to the caller's booleans, keeps every other field, and builds any missing
  sub-structure fresh. The Swift code updates local copies step by step. It is modelled as the
  method `SettingsMerge.MergingCameraAndMicrophoneSettings`, which is proved equal to the
  value-level function `SettingsMerge.Merged`. `Merged` is in turn characterised field by field
  by `IsMergeOf`, and the lemmas beside it prove the frame conditions, the fresh construction,
  idempotence and last-writer-wins.
- **The network statistics mappers** (`NetworkStats`, `DetailedNetworkStats`,
  `LatestStatistics`). The threshold re-labelling falls back to `Good` for a Daily case it does
  not name. An absent previous threshold stays absent. The nine readings are copied in order.
- **The connection status mapper** (`NetworkConnectionStatusUpdate.toRtvi`). The update is encoded
  to JSON and read back. Its `connection` and `event` strings go through two string switches,
  each with a default. If the decoding fails, or either string cannot be read, the result is
  `{signalling, connected}`. The string switches are modelled by `StringSwitch.Switch`, which
  tries the cases in source order and falls back to the default.

Modules: `Foundation` (Optional, an opaque floating-point `Metric`, the JSON value that
`JSONSerialization` returns), `Daily` (the vendor types read), `Rtvi` (the PipecatClientIOS types
produced), `StringSwitch`, `SettingsMerge`, `NetworkStatsMapping`, `ConnectionStatusMapping`.

Modelling choices:
- A settings record's fields other than `isEnabled` (or, for the input settings, other than
  `camera` and `microphone`) are a map from field name to value, holding the fields that are set.
- `publishing` is an opaque type.
- The Foundation calls are given as their outcome: `None` when encoding or deserialising threw,
  otherwise the decoded JSON value.
- Daily's Codable form of a connection status update is taken to be
  `{"connection": <raw value>, "event": <raw value>}`. The mapper reads exactly these keys.
  `Daily.Encoded` states this assumption, and `EncodedRoundTrip` shows what the mapper does
  with such a value.

## Model

| member | source | states |
|---|---|---|
| Foundation.StringField | Sources/PipecatClientIOSDaily/util/DailyExtensions.swift:174-176 | a string is read exactly when decoding succeeded, the value is an object, the key is present and its value is a string; it is that string |
| Daily.Encoded | Sources/PipecatClientIOSDaily/util/DailyExtensions.swift:172-174 | the encoded update is a JSON object whose keys are exactly `connection` and `event` |
| SettingsMerge.Merged | Sources/PipecatClientIOSDaily/util/DailyExtensions.swift:53-105 | the result keeps `publishing`; inputs, camera and microphone are set; camera and microphone `isEnabled` are `Set(enableCam)` and `Set(enableMic)`; every other field at each level is the input's, or unset where the input had no such sub-structure |
| SettingsMerge.MergingCameraAndMicrophoneSettings | Sources/PipecatClientIOSDaily/util/DailyExtensions.swift:53-105 | the step-by-step merge on local copies returns exactly `Merged` of its arguments |
| SettingsMerge.MergeOfIsUnique | Sources/PipecatClientIOSDaily/util/DailyExtensions.swift:53-105 | an update satisfies the field-by-field merge description if and only if it equals `Merged` |
| SettingsMerge.MergeOverwritesOnlyIsEnabled | Sources/PipecatClientIOSDaily/util/DailyExtensions.swift:57-80 | a camera or microphone update already set is kept with only its `isEnabled` replaced |
| SettingsMerge.MergeBuildsMissingInputs | Sources/PipecatClientIOSDaily/util/DailyExtensions.swift:83-99 | with inputs unset, the result holds fresh inputs whose camera and microphone carry only `isEnabled`, and the original `publishing` |
| SettingsMerge.MergeLastWins | Sources/PipecatClientIOSDaily/util/DailyExtensions.swift:53-105 | merging twice equals merging once with the later flags |
| SettingsMerge.MergeIdempotent | Sources/PipecatClientIOSDaily/util/DailyExtensions.swift:53-105 | merging twice with the same flags equals merging once |
| NetworkStatsMapping.ThresholdToRtvi | Sources/PipecatClientIOSDaily/util/DailyExtensions.swift:112-123 | good, low and veryLow map to the RTVI case with the same label; any other Daily case maps to `Good` |
| NetworkStatsMapping.ThresholdToRtviOfLabel | Sources/PipecatClientIOSDaily/util/DailyExtensions.swift:112-123 | every RTVI threshold is the image of the Daily case with its label, so the table is onto |
| NetworkStatsMapping.PreviousThresholdToRtvi | Sources/PipecatClientIOSDaily/util/DailyExtensions.swift:124-138 | an absent previous threshold maps to absent, and a present one maps through the threshold table |
| NetworkStatsMapping.LatestStatisticsToRtvi | Sources/PipecatClientIOSDaily/util/DailyExtensions.swift:154-167 | each of the nine readings of the result equals the input reading of the same name: none dropped or permuted |
| NetworkStatsMapping.LatestStatisticsToRtviInjective | Sources/PipecatClientIOSDaily/util/DailyExtensions.swift:154-167 | distinct Daily statistics map to distinct RTVI statistics |
| NetworkStatsMapping.DetailedNetworkStatsToRtvi | Sources/PipecatClientIOSDaily/util/DailyExtensions.swift:144-152 | the latest statistics go through the nine-field copy and both worst packet-loss values pass through |
| NetworkStatsMapping.NetworkStatsToRtvi | Sources/PipecatClientIOSDaily/util/DailyExtensions.swift:108-141 | quality passes through and the statistics go through the nine-field copy; the threshold goes through the table; the previous threshold is present exactly when Daily reported one, mapped through the same table |
| StringSwitch.SwitchHits | Sources/PipecatClientIOSDaily/util/DailyExtensions.swift:185-191 | a case whose literal no earlier case tests is selected by that literal |
| StringSwitch.SwitchMisses | Sources/PipecatClientIOSDaily/util/DailyExtensions.swift:192-193 | a subject that no case tests yields the `default:` value |
| StringSwitch.SwitchSelects | Sources/PipecatClientIOSDaily/util/DailyExtensions.swift:185-193 | a subject some case tests yields the value of a case with that literal; any other subject yields the `default:` value |
| ConnectionStatusMapping.ConnectionCasesNameTheirTypes | Sources/PipecatClientIOSDaily/util/DailyExtensions.swift:185-191 | the connection switch tests exactly "signalling", "recvTransport" and "sendTransport", each yielding the type of that name |
| ConnectionStatusMapping.EventCasesNameTheirEvents | Sources/PipecatClientIOSDaily/util/DailyExtensions.swift:198-202 | the event switch tests exactly "connected" and "interrupted", each yielding the event of that name |
| ConnectionStatusMapping.ConnectionFromString | Sources/PipecatClientIOSDaily/util/DailyExtensions.swift:184-195 | "signalling", "recvTransport" and "sendTransport" yield the type with that name; any other string yields `signalling` |
| ConnectionStatusMapping.EventFromString | Sources/PipecatClientIOSDaily/util/DailyExtensions.swift:197-206 | "connected" and "interrupted" yield the event with that name; any other string yields `connected` |
| ConnectionStatusMapping.ConnectionNameRoundTrip | Sources/PipecatClientIOSDaily/util/DailyExtensions.swift:184-195 | a known name yields a connection type if and only if it is that type's name |
| ConnectionStatusMapping.EventNameRoundTrip | Sources/PipecatClientIOSDaily/util/DailyExtensions.swift:197-206 | a known name yields an event if and only if it is that event's name |
| ConnectionStatusMapping.ConnectionStatusToRtvi | Sources/PipecatClientIOSDaily/util/DailyExtensions.swift:170-212 | when decoding fails or `connection` or `event` is not a readable string, the result is exactly {signalling, connected}; otherwise each string goes through its own switch |
| ConnectionStatusMapping.DefaultStatusExactly | Sources/PipecatClientIOSDaily/util/DailyExtensions.swift:173-206 | the result is {signalling, connected} if and only if a string is unreadable, or the connection string is neither "recvTransport" nor "sendTransport" and the event string is not "interrupted" |
| ConnectionStatusMapping.DirectToRtvi | Sources/PipecatClientIOSDaily/util/DailyExtensions.swift:184-206 | reading Daily's fields directly relabels each to the RTVI case whose name is the Daily raw value |
| ConnectionStatusMapping.EncodedRoundTrip | Sources/PipecatClientIOSDaily/util/DailyExtensions.swift:172-212 | when encoding succeeds, the JSON round trip gives the same result as reading the fields directly |
| ConnectionStatusMapping.RecvTransportInterrupted | Sources/PipecatClientIOSDaily/util/DailyExtensions.swift:173-211 | `{"connection": "recvTransport", "event": "interrupted"}` maps to {recvTransport, interrupted} |

## Left out

- The `AudioTrack`, `VideoTrack`, `ParticipantID`, `Participant` and `Device` mappers (lines 5-45) are not modelled. Each copies a field or two of a vendor type whose definition is not available. `uuidString` is a call into Foundation.
- `JSONEncoder().encode` and `JSONSerialization.jsonObject` are foreign calls. Only their outcome is modelled: a failure, or the decoded JSON value.
- Daily's Codable encoding of a connection status update is assumed, not derived (see `Daily.Encoded`). Daily's own types are not part of this model.
- The PipecatClientIOS initialisers `CameraInputSettingsUpdate(isEnabled:)`, `MicrophoneInputSettingsUpdate(isEnabled:)` and `InputSettingsUpdate(camera:microphone:)` are assumed to leave every other field unset (an empty map here). Their definitions are not part of this model.
- JSON numbers are an opaque type of their own. The mapper never reads one.
- Quality, bit rates, packet losses and timestamps are floating-point values that the code only passes along. They are an opaque `Metric`, and no arithmetic is done on them.
- Daily's threshold enum may have cases beyond good, low and veryLow. They are all represented by one `Unrecognized` case, which is enough because every such case takes the `default:` branch.
- Nothing is modelled about applying the merged settings to a live call. That code is not part of this model and performs I/O.
- The individual settings fields other than `isEnabled` are not named. They are a map from field name to an opaque value, because the merge never inspects them.
