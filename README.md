# TextToSpeech playback core in Dafny

This project models two classes of the TextToSpeech monitor. They carry its playback logic:

- **PlayItem** (`TextToSpeech/Audio/PlayItem.cs`) is one queued utterance. The model covers:
  - the cache path derived from the game, group, speaker and text, with the optional "Traveler" generalisation of the text;
  - the property setters that raise `PropertyChanged`;
  - the status machine a one-shot timer drives (Playing, then Played);
  - disposal, which silences the item.
- **AudioPlayer** (`TextToSpeech/Common/AudioPlayer.cs`) plays a WAV byte buffer through DirectSound. The model covers:
  - copying a stream into memory;
  - reading the channel count, sample rate and bits per sample at fixed offsets of the 44-byte WAV header;
  - loading a sound buffer and computing its duration;
  - play, stop and disposal;
  - choosing the output device by name;
  - listing the device names.

Layout:

- `wrappers.dfy` holds the `Option` and `Result` types.
- `bytes.dfy` holds the `byte` type.
- `guids.dfy` models `System.Guid` and its `"N"` text format, with a parser proved to invert it.
- `streams.dfy` models the part of `System.IO.Stream` the code uses.
- `cache_path.dfy` holds `GetUniqueFilePath` and `GetGeneralizedText` as pure functions, with `String.Replace` proved equal to a Split/Join reference definition.
- `play_item.dfy` holds the `PlayItem` class.
- `audio_player.dfy` holds the header decoding, the duration, device selection and the `AudioPlayer` class.

The JocysCom.ClassLibrary helpers that `GetUniqueFilePath` calls (`Filters.GetKey`, `MD5Helper.GetGuid`, which gives the MD5 digest of RFC 1321 as a Guid, and `CRC32Helper.GetHashAsString`) lie outside the two classes modelled here. So does .NET's `Encoding.UTF8`. All four are fields of a `Helpers` value, so every lemma holds whatever those deterministic functions are. DirectSound is modelled differently:

- its objects are values numbered by creation;
- every call the player makes on them goes into an event log;
- the result of `DirectSound.GetDevices()` is a parameter.

`PropertyChanged` notifications go into a log too. Each entry records whether it was posted through the owning `ISynchronizeInvoke`. A timer elapsing is an explicit call that names the timer.

The model follows the code in these places, which a reader might not expect:

- A text key of exactly 64 characters is already cut and given a checksum (`>= 64`).
- `Load` does not release the buffer it replaces.
- `GetDeviceNames` drops devices whose driver is `Guid.Empty`.
- Re-arming a `PlayItem` timer leaves the earlier timer running, and `Dispose` stops only the current one.

## Model

| member | source | states |
|---|---|---|
| `Guids.FormatN` | TextToSpeech/Audio/PlayItem.cs:85 | The `{0:N}` rendering of a Guid is exactly 32 characters, all lower-case hexadecimal digits, with no separators. |
| `Guids.HexBytes` | TextToSpeech/Audio/PlayItem.cs:85 | Hex rendering of bytes gives two lower-case digits per byte. The length and digit facts are proved through the recursion. |
| `Guids.ParseHexBytesRoundTrip` | TextToSpeech/Audio/PlayItem.cs:85 | Parsing the hex rendering of any byte sequence gives back exactly those bytes. |
| `Guids.FormatNRoundTrip` | TextToSpeech/Audio/PlayItem.cs:84-85 | The `"N"` rendering is inverted by a reference parser that reads 32 hexadecimal digits of either case in the `"N"` field order (undoing .NET's reordering of the first three Guid fields), so the file name determines the Guid. |
| `Guids.FormatNInjective` | TextToSpeech/Audio/PlayItem.cs:84-85 | Distinct MD5 Guids give distinct raw-data file names. |
| `Streams.Stream.constructor` | TextToSpeech/Common/AudioPlayer.cs:26 | A stream holding the given bytes, open, positioned at 0. |
| `Streams.Stream.SetPosition` | TextToSpeech/Common/AudioPlayer.cs:29 | The `Position` setter changes only the position, which may lie past the end. |
| `Streams.Stream.Read` | TextToSpeech/Common/AudioPlayer.cs:35 | `Stream.Read` contract: at most `count` bytes are read and they are the next bytes of the stream, in order. A short read is allowed. It returns 0 only at the end (or for `count` 0). The position advances by the number read, and the rest of the buffer is untouched. |
| `Streams.Stream.Close` | TextToSpeech/Audio/PlayItem.cs:260 | After `Close` the stream is closed. |
| `CachePath.Split` | TextToSpeech/Audio/PlayItem.cs:102 | Cutting a string at every occurrence of a separator, left to right, yields at least one piece. |
| `CachePath.JoinSplit` | TextToSpeech/Audio/PlayItem.cs:109 | Joining the pieces of `s` with the separator gives back `s`. |
| `CachePath.SplitPiecesAreFree` | TextToSpeech/Audio/PlayItem.cs:109 | No piece contains the separator: every occurrence is cut. |
| `CachePath.SplitAbsent` | TextToSpeech/Audio/PlayItem.cs:109 | A string is its own single piece if and only if the separator does not occur in it. |
| `CachePath.ReplaceAllIsJoinSplit` | TextToSpeech/Audio/PlayItem.cs:109 | `String.Replace` equals Join(Split(s, pattern), replacement): every non-overlapping occurrence, found left to right, is replaced. |
| `CachePath.ReplaceAllSelf` | TextToSpeech/Audio/PlayItem.cs:109 | Replacing a token by itself leaves any text unchanged. |
| `CachePath.ReplaceAllAbsent` | TextToSpeech/Audio/PlayItem.cs:109 | A token that does not occur leaves the text unchanged. |
| `CachePath.ReplaceAllLength` | TextToSpeech/Audio/PlayItem.cs:109 | Each replaced occurrence changes the length by `|replacement| - |pattern|`. |
| `CachePath.ReplaceAllChanges` | TextToSpeech/Audio/PlayItem.cs:109 | When the token occurs and has a different length from its replacement, the text changes. |
| `CachePath.ReplaceAllBoth` | TextToSpeech/Audio/PlayItem.cs:109 | Every occurrence is replaced, not only the first. In `a + p + b + p`, where `p` cannot start inside `a` or `b`, both occurrences become the replacement. |
| `CachePath.GeneralizedTextWithoutPlayer` | TextToSpeech/Audio/PlayItem.cs:105-115 | With all three player fields null or empty, the generalised text is `Text` unchanged. |
| `CachePath.ReplaceTokenAbsent` | TextToSpeech/Audio/PlayItem.cs:108-113 | A guarded replacement step is skipped for an empty token and changes nothing for a token that does not occur. |
| `CachePath.GeneralizedTextNoTokens` | TextToSpeech/Audio/PlayItem.cs:105-115 | Generalisation leaves the text unchanged when none of the set tokens occurs in the text. |
| `CachePath.GeneralizedTextTwice` | TextToSpeech/Audio/PlayItem.cs:105-115 | Generalisation turns each of two occurrences of the player's name into "Traveler". |
| `CachePath.GeneralizedTextExample` | TextToSpeech/Audio/PlayItem.cs:105-115 | With `PlayerName` "Bob", "Hello Bob, says Bob" generalises to "Hello Traveler, says Traveler". |
| `CachePath.BoundedKeyShape` | TextToSpeech/Audio/PlayItem.cs:92-100 | A sanitised key shorter than 64 is the file name verbatim. One of 64 or more (64 included) gives its first 64 characters, `_`, then the CRC-32 string of the whole untruncated key. |
| `CachePath.BoundedKeyCollision` | TextToSpeech/Audio/PlayItem.cs:92-100 | Two text keys share a file name only if they are equal, or if both are long, agree on their first 64 characters and have equal CRC strings. |
| `CachePath.DataFileName` | TextToSpeech/Audio/PlayItem.cs:77-86 | With `Name` null or empty, the character folder is "Data". The file name parses back to the MD5 Guid of the UTF-8 XML. |
| `CachePath.DataPathIgnoresSpeech` | TextToSpeech/Audio/PlayItem.cs:76-86 | With `Name` null or empty, the path depends only on `Game`, `Group` and `Xml`. `Text`, `Gender`, `Effect`, the player fields and the generalise flag do not affect it. |
| `CachePath.PlayerFieldsIgnoredUnlessGeneralized` | TextToSpeech/Audio/PlayItem.cs:91 | Without generalisation, `PlayerName`, `PlayerNameChanged` and `PlayerClass` do not affect the path. |
| `CachePath.SplitJoinSegments` | TextToSpeech/Audio/PlayItem.cs:102 | Segments without a backslash, joined by backslashes, split back into exactly those segments. |
| `CachePath.PathSegments` | TextToSpeech/Audio/PlayItem.cs:74-103 | If the sanitiser, the CRC string and the group contain no backslash, the path splits at backslashes into exactly four segments. They are the sanitised game, the unsanitised group, the character folder (speaker key or "Data") and the file name. |
| `PlayItems.PlayItem.constructor` | TextToSpeech/Audio/PlayItem.cs:24-27 | A new item has its parent, no listener, null/empty fields, zero duration, no timer, and is not disposing. |
| `PlayItems.PlayItem.NotifyPropertyChanged` | TextToSpeech/Audio/PlayItem.cs:211-230 | Nothing is raised once disposal has begun or without a listener. Otherwise exactly one event carries the name and is marked as marshalled when a parent exists. |
| `PlayItems.PlayItem.SetGame` | TextToSpeech/Audio/PlayItem.cs:31-35 | Stores `Game`, then raises one "Game" notification (if any). Nothing else changes. |
| `PlayItems.PlayItem.SetName` | TextToSpeech/Audio/PlayItem.cs:40-44 | Stores `Name`, then raises one "Name" notification (if any). Nothing else changes. |
| `PlayItems.PlayItem.SetGender` | TextToSpeech/Audio/PlayItem.cs:49-53 | Stores `Gender`, then raises one "Gender" notification (if any). Nothing else changes. |
| `PlayItems.PlayItem.SetEffect` | TextToSpeech/Audio/PlayItem.cs:58-62 | Stores `Effect`, then raises one "Effect" notification (if any). Nothing else changes. |
| `PlayItems.PlayItem.SetIsComment` | TextToSpeech/Audio/PlayItem.cs:138-142 | Stores `IsComment`, then raises one "IsComment" notification (if any). Nothing else changes. |
| `PlayItems.PlayItem.SetText` | TextToSpeech/Audio/PlayItem.cs:145-149 | Stores `Text`, then raises one "Text" notification (if any). Nothing else changes. |
| `PlayItems.PlayItem.SetGroup` | TextToSpeech/Audio/PlayItem.cs:152-156 | Stores `Group`, then raises one "Group" notification (if any). Nothing else changes. |
| `PlayItems.PlayItem.SetXml` | TextToSpeech/Audio/PlayItem.cs:159-163 | Stores `Xml`, then raises one "Xml" notification (if any). Nothing else changes. |
| `PlayItems.PlayItem.SetWavHead` | TextToSpeech/Audio/PlayItem.cs:168-172 | Stores `WavHead`, then raises one "WavHead" notification (if any). Nothing else changes. |
| `PlayItems.PlayItem.SetWavData` | TextToSpeech/Audio/PlayItem.cs:178-182 | Stores `WavData`, then raises one "WavData" notification (if any). Nothing else changes. |
| `PlayItems.PlayItem.SetStreamData` | TextToSpeech/Audio/PlayItem.cs:186-190 | Stores `StreamData`, then raises one "StreamData" notification (if any). Nothing else changes. |
| `PlayItems.PlayItem.SetDuration` | TextToSpeech/Audio/PlayItem.cs:194-198 | Stores `Duration`, then raises one "Duration" notification (if any). Nothing else changes. |
| `PlayItems.PlayItem.SetStatus` | TextToSpeech/Audio/PlayItem.cs:201-205 | Stores `Status`, then raises one "Status" notification (if any). Nothing else changes. |
| `PlayItems.PlayItem.StartPlayTimer` | TextToSpeech/Audio/PlayItem.cs:118-129 | After disposal begins it changes nothing: no status change, no notification, no timer. Otherwise the status becomes Playing and "Status" is raised. A new one-shot timer of `Duration` ms is then started and becomes the current timer. Earlier timers are left running. |
| `PlayItems.PlayItem.PlayTimerElapsed` | TextToSpeech/Audio/PlayItem.cs:131-135 | Only an enabled timer elapses, and it is disabled (one-shot). The status becomes Played and "Status" is raised unless disposal has begun. |
| `PlayItems.PlayItem.Dispose` | TextToSpeech/Audio/PlayItem.cs:238-264 | Marks the item as disposing and disposes and drops the current timer. It closes and drops `StreamData`, leaving that stream's bytes and position as they were, and raises nothing. A second call finds nothing left to release. |
| `PlayItems.PlayCycle` | TextToSpeech/Audio/PlayItem.cs:118-135 | With a positive `Duration`, start then elapse: a listener sees exactly two "Status" notifications, and the item ends Played. |
| `PlayItems.DisposeSilencesTimers` | TextToSpeech/Audio/PlayItem.cs:118-135 | After Dispose the current timer is disarmed. A timer from an earlier start can still set Played, but no notification follows. |
| `PlayItems.DisposedItemIsInert` | TextToSpeech/Audio/PlayItem.cs:118-120 | After Dispose, `StartPlayTimer` and a second `Dispose` raise nothing, create no timer and keep the status. |
| `Audio.LittleEndianValue` | TextToSpeech/Common/AudioPlayer.cs:42-44 | The little-endian value of n bytes is below 256^n. |
| `Audio.LittleEndianRoundTrip` | TextToSpeech/Common/AudioPlayer.cs:42-44 | Decoding the little-endian bytes of a value gives the value back. |
| `Audio.ToIntOfSignedBytes` | TextToSpeech/Common/AudioPlayer.cs:42-44 | `BitConverter.ToInt16`/`ToInt32` read back any signed value written at that offset, whatever surrounds it. |
| `Audio.GetInfoNeeds36Bytes` | TextToSpeech/Common/AudioPlayer.cs:40-45 | `GetInfo` succeeds if and only if there are at least 36 bytes. For shorter input, the exception of the first read that does not fit is given for each length. |
| `Audio.GetInfoReadsOnlyFormatFields` | TextToSpeech/Common/AudioPlayer.cs:40-45 | Only bytes 22-27 and 34-35 are read. RIFF/WAVE tags, sizes and anything after 36 bytes are ignored. |
| `Audio.GetInfoOfCanonicalHeader` | TextToSpeech/Common/AudioPlayer.cs:40-45 | On a canonical 44-byte PCM header followed by any samples, `GetInfo` returns exactly the channel count, sample rate and bits per sample written there. |
| `Audio.DurationByByteRate` | TextToSpeech/Common/AudioPlayer.cs:82-84 | The successive divisions equal one division: (len - 44) * 8 * 1000 / (channels * rate * bits). |
| `Audio.DurationOfWholeSeconds` | TextToSpeech/Common/AudioPlayer.cs:82-84 | When the data holds a whole number of seconds at the header's byte rate, the duration is that number times 1000. |
| `Audio.DurationExample` | TextToSpeech/Common/AudioPlayer.cs:82-84 | 44 + 176400 bytes at 44100 Hz, 16 bits, 2 channels last exactly 1000 ms. |
| `Audio.DurationNegativeWhenShort` | TextToSpeech/Common/AudioPlayer.cs:82-84 | With positive format fields, fewer than 44 bytes give a negative duration. |
| `Audio.NoMatchingDevice` | TextToSpeech/Common/AudioPlayer.cs:119-127 | When no description matches the name (or the name is null), the default device's `Guid.Empty` is chosen. |
| `Audio.LastMatchWins` | TextToSpeech/Common/AudioPlayer.cs:119-127 | When device i matches and no later device does, device i's driver is chosen. |
| `Audio.ChoiceIgnoresCase` | TextToSpeech/Common/AudioPlayer.cs:125 | Names that differ only in letter case choose the same driver. |
| `Audio.DriverDescriptionsAppend` | TextToSpeech/Common/AudioPlayer.cs:149-154 | The device-name filter works element by element: filtering a concatenation is concatenating the filtered parts. |
| `Audio.DriverDescriptionsMembers` | TextToSpeech/Common/AudioPlayer.cs:149-154 | A name is listed if and only if some device with a non-empty driver Guid has it as description. |
| `Audio.DriverDescriptionsAllDrivers` | TextToSpeech/Common/AudioPlayer.cs:149-154 | When every device has a driver, every description is listed in enumeration order. |
| `Audio.DriverDescriptionsLength` | TextToSpeech/Common/AudioPlayer.cs:149-154 | One name is listed per device with a non-empty driver Guid. |
| `Audio.GetDeviceNames` | TextToSpeech/Common/AudioPlayer.cs:142-156 | "Default Device" comes first. The descriptions of exactly the devices with a non-empty driver Guid follow, in enumeration order. The list has one more entry than there are such devices. |
| `Audio.AudioPlayer.constructor` | TextToSpeech/Common/AudioPlayer.cs:17-24 | A new player keeps the window handle and has no buffer, no device, no current name and no events. |
| `Audio.AudioPlayer.GetBytes` | TextToSpeech/Common/AudioPlayer.cs:26-38 | After rewinding and reading chunks of at most 4096 bytes until a read returns 0, the copy is the whole stream in order, and the stream is at its end. |
| `Audio.AudioPlayer.Load` | TextToSpeech/Common/AudioPlayer.cs:67-85 | A new buffer is created on the current device, sized to the bytes and holding them. It replaces the old buffer, which is not released. The result is the duration or `DivideByZero`. |
| `Audio.AudioPlayer.LoadStream` | TextToSpeech/Common/AudioPlayer.cs:52-60 | `Load(Stream)` equals `Load` of the stream's bytes with the format `GetInfo` reads from them. A header too short to read fails before anything is loaded. Either way the stream is left at its end. |
| `Audio.AudioPlayer.Play` | TextToSpeech/Common/AudioPlayer.cs:87-99 | Without a buffer nothing happens. Otherwise `BeforePlay` is raised once if handled, then playback starts at position 0 with `PlayFlags.None`. |
| `Audio.AudioPlayer.Stop` | TextToSpeech/Common/AudioPlayer.cs:101-111 | Without a buffer nothing happens. Otherwise only the buffer is stopped. |
| `Audio.AudioPlayer.ChangeAudioDevice` | TextToSpeech/Common/AudioPlayer.cs:115-140 | It is a no-op when the name equals the current name and a device is open. Otherwise the old device is disposed first. Then a device is created for the last case-insensitive match (or the default device) and its speaker configuration is read. It cooperates with the window at Normal level, and the name becomes current. |
| `Audio.AudioPlayer.Dispose` | TextToSpeech/Common/AudioPlayer.cs:161-182 | The first call disposes the device and the buffer (those that exist) and zeroes the handle. Later calls change nothing. |
| `Audio.DisposeTwice` | TextToSpeech/Common/AudioPlayer.cs:161-182 | Disposing twice releases the device and the buffer exactly once. |

## Left out

- Null strings: a null string field of `PlayItem` is the empty string here. The code reads `Name`, `Gender`, `Effect`, the player fields and `Group` through `IsNullOrEmpty`, `?? ""` or `string.Format`, which treat null and "" alike. The null-reference and argument-null exceptions that a null `Xml` (in `Encoding.GetBytes`) or a null `Text` (in `String.Replace`) would throw are not modelled. Neither is `Filters.GetKey`'s handling of null.
- String length: a `string` is a sequence of Unicode characters. .NET counts UTF-16 code units, so `Length` and `Substring(0, 64)` differ from the model for characters outside the Basic Multilingual Plane.
- `Filters.GetKey`, `MD5Helper.GetGuid`, `CRC32Helper.GetHashAsString` and UTF-8 encoding are not part of this model. They are arbitrary deterministic functions here. Nothing is assumed about the sanitiser's characters or the CRC string's length, except as stated hypotheses of `PathSegments`.
- `Audio.ChoiceIgnoresCase`: `string.Compare(a, b, true)` is culture-sensitive. The model folds only ASCII letters, so other case pairs and culture-specific equivalences are not modelled.
- Threading: `ISynchronizeInvoke.BeginInvoke`, `Application.DoEvents` and the timer's background thread are not modelled. A notification is logged when raised, with a flag saying it was posted to the parent. A timer's elapse is an explicit call, and the race between `Dispose` and an elapse already in flight is not modelled.
- `System.Timers.Timer` itself: its rejection of an interval of 0 or less (which would throw inside `StartPlayTimer` after Playing was raised) is not modelled.
- Event handlers: a `BeforePlay` handler (which runs synchronously and is meant to apply effects) and a `PropertyChanged` handler (which runs synchronously when there is no parent) are taken to have no effect on the player or the item. Re-entry from a handler, such as calling `Stop` or `Load` or setting another property, is not modelled. The exact event logs in the contracts of `Play`, `NotifyPropertyChanged` and the setters rely on this.
- `PlayItem.Dispose(false)`: nothing in the class calls it, and it would only set the flag. Only `Dispose()` is modelled. `GC.SuppressFinalize` is not modelled.
- `Audio.Duration`: C# `decimal` division rounds to 28-29 significant digits. The model divides exactly in `real`, so long or odd durations may differ in the last digits.
- DirectSound (SharpDX): `SecondarySoundBuffer`, `new DirectSound(guid)`, `GetSpeakerConfiguration`, `SetCooperativeLevel`, `Play`, `Stop` and `Dispose` are recorded as events and not executed. This leaves out several things: the buffer description flags (`GlobalFocus | ControlEffects`), the `WaveFormat` constructor's own argument checks, the library's behaviour on a null device or a disposed buffer, and the speaker configuration values read.
- `DirectSound.GetDevices()` is the `playbackDevices`/`devices` parameter. Device descriptions are taken to be non-null.
- `BitConverter` is read little-endian, as on the Windows machines the program runs on.
- `Streams.Stream.Read`: reading a closed stream (`ObjectDisposedException`) and non-seekable streams (`NotSupportedException` from the `Position` setter) are not modelled. `GetBytes` requires an open stream.
