# smart_video_info, modelled in Dafny

smart_video_info is a Flutter plugin that reads structural metadata from a video file or URL. The metadata covers size, duration, codec, bitrate, frame rate, rotation, container, audio properties, subtitle presence and stream count. Its method channel `smart_video_info` has two operations:

- `getInfo` takes one path or URL.
- `getBatch` takes a list of them.

Each host platform has its own backend over its own media framework:

- iOS: AVFoundation.
- Web: an off-screen `<video>` element.
- Windows: a Media Foundation source reader.
- Android: an FFmpeg bridge.

This project models the decision-making part of every backend. The media frameworks are parameters: a `probe` function from a path to what the framework reports about it.

- `Outcomes`: `Option` and `Result`.
- `Channel`: the values a method call carries, the call, and the three kinds of reply. The error codes `INVALID_ARGUMENT` and `METADATA_ERROR` live here.
- `Batch`: the fail-fast batch policy shared by iOS, Web and Android. `FailFast` specifies it. `Run` is the imperative loop that implements it.
- `Text`: prefix and substring tests, ASCII lower-casing, one-character `split`, and decimal rendering of integers.
- `Json`: the JSON values the backends write, with the text of RFC 8259 (`Serialize`) and a verbatim variant that does not escape strings (the Windows writer).
- `Schema`: the fields of the canonical record and their keys.
- `IosCodes`: snapping a rotation to a quadrant, and decoding a four-character code.
- `IosPlugin`: `extractMetadata`, `getBatchMetadata` and `handle`.
- `WebPlugin`: the URL scheme check, `extractMetadata`, `getInfo` and `getBatch`.
- `WindowsPlugin`:
  - `GetFileExtension`;
  - `ExtractVideoMetadata`, with its codec tables, its duration conversion, its stream-counting loop and its hand-written JSON text;
  - `HandleMethodCall`.
- `AndroidPlugin`: `onMethodCall`, with its argument checks and the `paths.map` batch.

The backends do not agree, and the model keeps each one as written.

| | iOS | Web | Windows | Android |
|---|---|---|---|---|
| Batch | fail-fast; the first error is the whole answer | fail-fast; the first rejection is rethrown | never fails; one text per string entry, other entries skipped | fail-fast, through `paths.map` |
| Empty batch | accepted, answers `[]` | accepted, resolves `[]` | rejected | rejected |
| No video track | an error | rejected with "Invalid video dimensions" (width 0) | a success with width and height 0 | up to the bridge |
| Container | lower-cased | lower-cased; "unknown" without a '.' | as written; "" without an extension | up to the bridge |
| JSON | the record is a dictionary | the record is an object | written by hand | the bridge's text is passed through |

The Windows writer does not escape strings, so a container holding `"` makes its text differ from the RFC 8259 text of its document. `WindowsPlugin.InfoTextIsJsonIff` states exactly when the text is the RFC 8259 text of the document.

## Model

| member | source | states |
|---|---|---|
| Batch.FailFast | ios/Classes/SmartVideoInfoPlugin.swift:52-68 | the fail-fast batch, the reference that every backend's loop is proved against: a successful batch has one result per item. Its other properties are stated by the `Batch.FailFast*` lemmas |
| Batch.Run | ios/Classes/SmartVideoInfoPlugin.swift:52-68 | the loop's result is `FailFast` of the items. On success, every item was extracted and there is one result per item. On failure, `probed - 1` is the first failing item and its error is the result |
| Batch.FailFastOk | ios/Classes/SmartVideoInfoPlugin.swift:52-67 | a successful batch has one result per item, in input order, each the item's own extraction |
| Batch.FailFastAllOk | ios/Classes/SmartVideoInfoPlugin.swift:52-67 | when every item succeeds, the batch succeeds with exactly those results |
| Batch.FailFastFirstErr | ios/Classes/SmartVideoInfoPlugin.swift:54-63 | the first failing item's error is the answer of the whole batch, whatever comes after it |
| Batch.FailFastErrIff | ios/Classes/SmartVideoInfoPlugin.swift:54-63 | a batch fails iff some item fails, and then with the error of the first failing item |
| Batch.FirstIndex | ios/Classes/SmartVideoInfoPlugin.swift:54-62 | when some item fails, there is a first failing position |
| Batch.FailFastIgnoresRest | ios/Classes/SmartVideoInfoPlugin.swift:58-62 | items after the first failure cannot change the answer |
| Channel.Strings | ios/Classes/SmartVideoInfoPlugin.swift:24 | `as? [String]` of a list of strings keeps every string, in order |
| Text.ContainsAt | web/smart_video_info.js:92-97 | `includes` holds iff the substring occurs at some position |
| Text.ContainsInfix | web/smart_video_info.js:92-97 | a string includes every piece it is built around |
| Text.Lower | web/smart_video_info.js:88 | lower-casing keeps the length and maps each ASCII letter to lower case |
| Text.JoinSplit | web/smart_video_info.js:87 | `split` loses nothing: joining the pieces gives the string back, and no piece holds the separator |
| Text.Split | web/smart_video_info.js:87 | `split` on one character always gives at least one piece. `Text.JoinSplit` and `Text.SplitLast` state what the pieces are |
| Text.SplitLast | web/smart_video_info.js:87-88 | the last piece of `split` is the text after the last separator. There is more than one piece iff the separator occurs |
| Text.DecimalText | windows/smart_video_info_plugin.cpp:185-187 | an integer is written as at least one character: a minus sign for a negative number, then the digits of its magnitude. `Json.DecimalIsNumber` states that it is a JSON number |
| Text.Digits | windows/smart_video_info_plugin.cpp:185-187 | an integer is written as decimal digits without leading zeros |
| Text.DigitsRoundTrip | windows/smart_video_info_plugin.cpp:185-187 | reading the written digits back gives the number |
| Json.EscapeChar | windows/smart_video_info_plugin.cpp:188 | the RFC 8259 reference that `WindowsPlugin.InfoTextIsJsonIff` compares the Windows writer with, which never escapes: a character's escape differs from the character iff RFC 8259 requires it to be escaped |
| Json.UnescapeEscape | windows/smart_video_info_plugin.cpp:188 | the RFC 8259 reference that `WindowsPlugin.InfoTextIsJsonIff` compares the Windows writer with, which never escapes: decoding an escaped string gives the string back |
| Json.UnescapeChar | windows/smart_video_info_plugin.cpp:188 | the RFC 8259 reference that `WindowsPlugin.InfoTextIsJsonIff` compares the Windows writer with, which never escapes: one escaped character in front of decodable text decodes to that character in front of its decoding |
| Json.EscapeLength | windows/smart_video_info_plugin.cpp:188 | the RFC 8259 reference that `WindowsPlugin.InfoTextIsJsonIff` compares the Windows writer with, which never escapes: escaping changes a string iff the string holds a character that must be escaped |
| Json.WriteVerbatim | windows/smart_video_info_plugin.cpp:183-203 | verbatim text is never longer than the RFC 8259 text. It is as long, and then equal, iff no key or string needs escaping |
| Json.VerbatimIsJsonIff | windows/smart_video_info_plugin.cpp:183-203 | the verbatim text is the RFC 8259 text iff no string needs escaping |
| Json.PlainMembersAll | windows/smart_video_info_plugin.cpp:184-203 | an object can be written verbatim iff every key and every value can |
| Json.PlainMembersConcat | windows/smart_video_info_plugin.cpp:194-198 | a concatenation of members can be written verbatim iff both parts can |
| Json.Keys | windows/smart_video_info_plugin.cpp:184-203 | the keys of an object's members, in order |
| Json.DecimalIsNumber | windows/smart_video_info_plugin.cpp:185-187 | every integer is written as a number token of RFC 8259 |
| Json.WellFormedMembersAll | windows/smart_video_info_plugin.cpp:184-203 | an object's numbers are well formed iff every value's are |
| Json.WellFormedMembersConcat | windows/smart_video_info_plugin.cpp:194-198 | a concatenation of members is well formed iff both parts are |
| Schema.Names | ios/Classes/SmartVideoInfoPlugin.swift:137-152 | definition: the key of each field of a list, in order. `Schema.NamesDistinct` is the property proved about it |
| Schema.FieldsPartition | ios/Classes/SmartVideoInfoPlugin.swift:137-152 | every field is either always present or one of the three audio fields |
| Schema.NamesDistinct | ios/Classes/SmartVideoInfoPlugin.swift:137-152 | distinct fields have distinct keys, so a record's keys never collide |
| IosCodes.TruncateTowardZero | ios/Classes/SmartVideoInfoPlugin.swift:164 | `Int(x)` is the integer part of x, truncated toward zero |
| IosCodes.SnapRotation | ios/Classes/SmartVideoInfoPlugin.swift:167-176 | the rotation is always 0, 90, 180 or 270 |
| IosCodes.RotationFromAngle | ios/Classes/SmartVideoInfoPlugin.swift:162-177 | the rotation of any angle is 0, 90, 180 or 270 |
| IosCodes.SnapBands | ios/Classes/SmartVideoInfoPlugin.swift:167-176 | each rotation is given by exactly its band of degrees, in both directions |
| IosCodes.RotationBands | ios/Classes/SmartVideoInfoPlugin.swift:162-177 | the bands on the real angle: truncation toward zero first widens each band by almost a degree away from zero. So 89.9 gives 90 and 95.9 gives 90 |
| IosCodes.SnapIdempotent | ios/Classes/SmartVideoInfoPlugin.swift:167-176 | a snapped rotation, read back as an angle in (-180, 180], snaps to itself |
| IosCodes.CodeBytes | ios/Classes/SmartVideoInfoPlugin.swift:180-185 | a code has four bytes, each below 256 |
| IosCodes.CString | ios/Classes/SmartVideoInfoPlugin.swift:187 | `String(cString:)` keeps exactly the bytes before the first zero byte |
| IosCodes.LeadingBlanks | ios/Classes/SmartVideoInfoPlugin.swift:187 | the counted leading characters are blanks and the next one is not |
| IosCodes.TrailingBlanks | ios/Classes/SmartVideoInfoPlugin.swift:187 | the counted trailing characters are blanks and the one before them is not |
| IosCodes.Trim | ios/Classes/SmartVideoInfoPlugin.swift:187 | trimming never lengthens the text. `IosCodes.TrimKeepsInside` states what it keeps |
| IosCodes.TrimKeepsInside | ios/Classes/SmartVideoInfoPlugin.swift:187 | trimming keeps one contiguous run of the text. What it drops on either side is blank, and the run has no blank at either end |
| IosCodes.FourCCToString | ios/Classes/SmartVideoInfoPlugin.swift:179-188 | the decoded code has at most four characters, none of them NUL |
| IosCodes.PackBytes | ios/Classes/SmartVideoInfoPlugin.swift:180-185 | unpacking a packed code gives its bytes back, most significant first |
| IosCodes.CStringNoZero | ios/Classes/SmartVideoInfoPlugin.swift:187 | bytes without a zero are all kept |
| IosCodes.FourCCRoundTrip | ios/Classes/SmartVideoInfoPlugin.swift:179-188 | decoding inverts packing for four non-NUL ASCII characters, up to trimming |
| IosCodes.TrimUnblanked | ios/Classes/SmartVideoInfoPlugin.swift:187 | text without blanks at its ends is not changed by trimming |
| IosCodes.TagDecodes | ios/Classes/SmartVideoInfoPlugin.swift:179-188 | four ASCII characters without blank ends decode from their code unchanged |
| IosCodes.PaddedTagDecodes | ios/Classes/SmartVideoInfoPlugin.swift:179-188 | three characters padded with a blank decode to the three characters |
| IosCodes.AvcTag | ios/Classes/SmartVideoInfoPlugin.swift:179-188 | the code 0x61766331 decodes to "avc1" |
| IosCodes.Mp4aTag | ios/Classes/SmartVideoInfoPlugin.swift:179-188 | the code 0x6d703461 decodes to "mp4a" |
| IosCodes.PaddedTag | ios/Classes/SmartVideoInfoPlugin.swift:179-188 | the code of "raw " decodes to "raw" |
| IosPlugin.CompactMapValues | ios/Classes/SmartVideoInfoPlugin.swift:156 | `compactMapValues { $0 }` keeps exactly the non-nil entries, unwrapped |
| IosPlugin.AudioDetailsOf | ios/Classes/SmartVideoInfoPlugin.swift:109-124 | sample rate and channels come together and only with a codec. The codec comes iff the first audio track has a format description. The rate and channels come iff that description has a basic description. The codec is that description's decoded subtype, and the rate and channels are its basic description's |
| IosPlugin.Dictionary | ios/Classes/SmartVideoInfoPlugin.swift:137-152 | every required field has a value. Each audio field has one iff it was determined. hasAudio, rotation and container hold their inputs |
| IosPlugin.Metadata | ios/Classes/SmartVideoInfoPlugin.swift:72-160 | extraction succeeds iff the three track loads succeed and there is a video track. Without a video track the error is "No video track found". The tracks are loaded video, audio, subtitles, and the first load that throws gives the error |
| IosPlugin.PresenceRules | ios/Classes/SmartVideoInfoPlugin.swift:105-156 | after success, every required field is present. sampleRate and channels are present together and only with audioCodec. hasAudio says whether there is an audio track, and without one no audio field is present. The rotation is a quadrant and the container the lower-cased extension |
| IosPlugin.Assemble | ios/Classes/SmartVideoInfoPlugin.swift:137-157 | definition: `compactMapValues` of the dictionary literal, built from the first video track, the audio tracks, the subtitle count and the asset. `PresenceRules`, `RecordValues` and `AudioValues` state its contents |
| IosPlugin.VideoCodec | ios/Classes/SmartVideoInfoPlugin.swift:95-100 | definition: the decoded subtype of the first format description, or "" without one. `RecordValues` states it as the record's codec |
| IosPlugin.DictionaryValues | ios/Classes/SmartVideoInfoPlugin.swift:137-156 | after `compactMapValues`, each non-audio field holds the value it was built from, and each present audio field holds the value of its optional |
| IosPlugin.RecordValues | ios/Classes/SmartVideoInfoPlugin.swift:79-152 | after success, width, height, duration, bitrate, fps and streamCount are the values the asset reports. The codec is the decoded first subtype of the first video track, or "" without one. hasSubtitles says whether there is a subtitle track. The rotation is `RotationFromAngle` of the first video track's transform angle |
| IosPlugin.AudioValues | ios/Classes/SmartVideoInfoPlugin.swift:109-124 | after success, a present audioCodec, sampleRate or channels is the decoded subtype, the sample rate or the channel count of the first format description of the first audio track |
| IosPlugin.AudioWithoutFormat | ios/Classes/SmartVideoInfoPlugin.swift:106-124 | an audio track without a format description still sets hasAudio but gives no audio field |
| IosPlugin.ExtractMetadata | ios/Classes/SmartVideoInfoPlugin.swift:72-160 | the step-by-step extraction gives `Metadata` of the asset |
| IosPlugin.GetBatchMetadata | ios/Classes/SmartVideoInfoPlugin.swift:50-69 | the batch is `FailFast` of the paths. On success there is one record per path. On failure the first failing path's error is reported and no later path was extracted |
| IosPlugin.PathArgument | ios/Classes/SmartVideoInfoPlugin.swift:15-16 | a path is read iff the arguments are a string-keyed map whose "path" is a string |
| IosPlugin.PathsArgument | ios/Classes/SmartVideoInfoPlugin.swift:23-24 | paths are read iff "paths" is a list of strings, and then they are all read, in order |
| IosPlugin.Handle | ios/Classes/SmartVideoInfoPlugin.swift:12-48 | unknown methods are not implemented. Bad arguments give INVALID_ARGUMENT with the source's message. Otherwise the reply is the record or METADATA_ERROR for one path, and the records or the first error for a batch |
| IosPlugin.EmptyBatch | ios/Classes/SmartVideoInfoPlugin.swift:50-69 | an empty list of paths succeeds with no records |
| WebPlugin.Fields | web/smart_video_info.js:115-134 | definition: the field of each property of an object, in order. `WebPlugin.MetadataShape` states what it is for a metadata object |
| WebPlugin.SchemeAllowed | web/smart_video_info.js:10-12 | definition: the URL starts with "http://", "https://" or "blob:". `WebPlugin.GetInfo` states the rejection of every other URL |
| WebPlugin.ContainerOf | web/smart_video_info.js:86-88 | definition: the last piece of the pathname split on '.', lower-cased, or "unknown" with one piece. `WebPlugin.ContainerRule` states it in terms of the pathname |
| WebPlugin.ContainerRule | web/smart_video_info.js:86-88 | the container is "unknown" when the pathname has no '.' (a pathname such as "/a.unknown" gives it too). Otherwise it is the lower-cased text after the last '.' |
| WebPlugin.GuessCodec | web/smart_video_info.js:91-98 | the codec is one of four names. The first test that matches decides: "h264" iff the URL has ".mp4" or ".m4v"; "vp8" iff it has ".webm" and neither of those; "theora" iff it has ".ogv" and none of the three; "unknown" iff it has none of the four extensions |
| WebPlugin.Mp4Wins | web/smart_video_info.js:92-93 | ".mp4" anywhere in the URL gives "h264", whatever else the URL holds |
| WebPlugin.WebmIsVp8 | web/smart_video_info.js:94-95 | ".webm" gives "vp8" when no MPEG-4 extension occurs |
| WebPlugin.AudioDetected | web/smart_video_info.js:101-103 | definition: Firefox's `mozHasAudio`, decoded audio bytes, or a non-empty audio track list. `MetadataShape` states it is the record's hasAudio and decides the audio fields |
| WebPlugin.CountStreams | web/smart_video_info.js:106-109 | 1 without audio. 2 with audio but no audio track list. Otherwise 1 plus the number of audio tracks |
| WebPlugin.SubtitleFlag | web/smart_video_info.js:112 | definition: undefined without a text track list, otherwise whether the list is non-empty. `MetadataShape` and `MetadataValues` state it as the record's hasSubtitles |
| WebPlugin.Metadata | web/smart_video_info.js:73-137 | definition: the error for a zero dimension, or the properties in the source's order. `MetadataShape` and `MetadataValues` state its shape and values |
| WebPlugin.MetadataShape | web/smart_video_info.js:73-137 | extraction fails iff a dimension is 0, with "Invalid video dimensions". The fields come in the fixed order, with the three audio fields at the end iff audio is detected. bitrate, fps and rotation are 0, 30 and 0. hasSubtitles is undefined iff there is no text track list |
| WebPlugin.MetadataValues | web/smart_video_info.js:75-127 | after success, width, height and duration come from the element. The codec is `GuessCodec` of the URL, the container `ContainerOf` the pathname, and streamCount `CountStreams` of the element. With a text track list, hasSubtitles says whether the list is non-empty |
| WebPlugin.ExtractMetadata | web/smart_video_info.js:73-137 | the step-by-step extraction gives `Metadata` of the element |
| WebPlugin.GetInfo | web/smart_video_info.js:8-70 | a URL without an http, https or blob scheme is rejected with the scheme message. Otherwise, loaded metadata gives `Metadata` of the element, the URL and its pathname. A timeout gives "Metadata extraction timed out", and a load error gives the browser's message or "Failed to load video" |
| WebPlugin.SchemeCheckedFirst | web/smart_video_info.js:11-17 | the scheme is checked before the browser is asked anything |
| WebPlugin.GetInfoOk | web/smart_video_info.js:8-70 | getInfo resolves iff the scheme is accepted, the metadata loads and both dimensions are non-zero |
| WebPlugin.Members | web/smart_video_info.js:146 | `JSON.stringify` writes at most the object's properties |
| WebPlugin.MembersDefined | web/smart_video_info.js:146 | properties that are all defined are all written, in order |
| WebPlugin.KeyWritten | web/smart_video_info.js:146 | a field's key is written iff the object has a defined property for that field |
| WebPlugin.EmptyBatch | web/smart_video_info.js:140-153 | an empty list of URLs resolves to an empty list |
| WebPlugin.GetBatch | web/smart_video_info.js:140-153 | the batch is `FailFast` of the URLs. On success, each entry is the envelope of that URL's getInfo answer, in order. On failure, the first rejection is rethrown and no later URL was asked |
| WindowsPlugin.ToInt | windows/smart_video_info_plugin.cpp:85-98 | a UINT32 stored in an int keeps its value modulo 2^32, lands in the int range, and is unchanged below 2^31 |
| WindowsPlugin.DurationMs | windows/smart_video_info_plugin.cpp:118-126 | the duration in ms is the 100 ns count divided by 10000, truncated toward zero |
| WindowsPlugin.DurationRule | windows/smart_video_info_plugin.cpp:115-126 | after extraction, the duration is 0 when MF_PD_DURATION cannot be read. Otherwise it is the 100 ns count divided by 10000, truncated toward zero |
| WindowsPlugin.FileExtension | windows/smart_video_info_plugin.cpp:45-51 | the container is the text after the extension's '.', or "" when there is no extension |
| WindowsPlugin.VideoCodecName | windows/smart_video_info_plugin.cpp:100-110 | the video codec is "" iff the subtype cannot be read |
| WindowsPlugin.AudioCodecName | windows/smart_video_info_plugin.cpp:139-147 | the audio codec is "" iff the subtype cannot be read |
| WindowsPlugin.CodecTables | windows/smart_video_info_plugin.cpp:100-147 | a table gives "unknown" iff the subtype is not one it names, and distinct named subtypes get distinct names |
| WindowsPlugin.CodecNamesPlain | windows/smart_video_info_plugin.cpp:188-195 | codec names need no escaping |
| WindowsPlugin.VideoCodecOf | windows/smart_video_info_plugin.cpp:102-110 | the if-chain gives the video table's name for the subtype |
| WindowsPlugin.AudioCodecOf | windows/smart_video_info_plugin.cpp:141-147 | the if-chain gives the audio table's name for the subtype |
| WindowsPlugin.CountPresent | windows/smart_video_info_plugin.cpp:165-177 | no more streams are counted than there are indices |
| WindowsPlugin.CountStreams | windows/smart_video_info_plugin.cpp:165-177 | the loop counts the stream indices that have a current type, up to the first index where the call fails |
| WindowsPlugin.Analyze | windows/smart_video_info_plugin.cpp:53-177 | startup failure iff `MFStartup` fails, open failure iff the reader cannot be created after a successful startup, and otherwise an extraction, whose hasAudio says whether there is an audio type and whose container is the extension without its '.'. `WindowsPlugin.ExtractedValues` states the other values |
| WindowsPlugin.ExtractedValues | windows/smart_video_info_plugin.cpp:71-177 | after extraction, width, height, bitrate, codec and fps come from the first video type, and are 0, 0, 0, "" and "0" without one. The audio codec, sample rate and channels come from the first audio type, and are "", 0 and 0 without one. streamCount is the number of stream indices that have a type |
| WindowsPlugin.Document | windows/smart_video_info_plugin.cpp:57-205 | the answer is an object of two members: "success", true iff the extraction succeeded, then the second member. On success it is "data", holding the data members. On failure it is "error", holding "Failed to initialize Media Foundation" or "Failed to open video file" |
| WindowsPlugin.DataMembers | windows/smart_video_info_plugin.cpp:183-203 | definition: the members of the data object in the order they are written. `WindowsPlugin.DataKeys` and `WindowsPlugin.FixedValues` state the order and the constants |
| WindowsPlugin.InfoText | windows/smart_video_info_plugin.cpp:183-205 | definition: the document written without escaping. `WindowsPlugin.ExtractVideoMetadata` is proved to return it, and `WindowsPlugin.InfoTextIsJsonIff` states when it is the RFC 8259 text |
| WindowsPlugin.DataKeys | windows/smart_video_info_plugin.cpp:183-203 | the data keys come in the fixed order, with the audio keys between container and hasAudio iff there is audio |
| WindowsPlugin.FixedValues | windows/smart_video_info_plugin.cpp:191-201 | rotation is always 0 and hasSubtitles always false |
| WindowsPlugin.NoVideoIsNotAnError | windows/smart_video_info_plugin.cpp:71-113 | a file without a video type still succeeds, with width and height 0, codec "" and fps 0 |
| WindowsPlugin.AudioDefaults | windows/smart_video_info_plugin.cpp:128-160 | without an audio type the audio values are "" and 0. With one, the codec is "" iff the subtype cannot be read |
| WindowsPlugin.NamePlain | windows/smart_video_info_plugin.cpp:185-202 | every key needs no escaping |
| WindowsPlugin.DataPlainIff | windows/smart_video_info_plugin.cpp:188-195 | the data object can be written verbatim iff the container can |
| WindowsPlugin.EnvelopePlain | windows/smart_video_info_plugin.cpp:59-68 | the envelope keys and the two failure messages need no escaping |
| WindowsPlugin.InfoTextIsJsonIff | windows/smart_video_info_plugin.cpp:53-206 | the answer is the RFC 8259 text of its document iff it is a failure or its container needs no escaping |
| WindowsPlugin.QuoteInExtension | windows/smart_video_info_plugin.cpp:163-192 | an extension holding '"' makes the answer differ from the RFC 8259 text |
| WindowsPlugin.DocumentWellFormed | windows/smart_video_info_plugin.cpp:183-203 | the document's numbers follow RFC 8259 iff the frame rate is written as a number token |
| WindowsPlugin.DataWellFormed | windows/smart_video_info_plugin.cpp:184-203 | the data object's numbers follow RFC 8259 iff the frame rate token does |
| WindowsPlugin.ExtractVideoMetadata | windows/smart_video_info_plugin.cpp:53-206 | the step-by-step extraction returns `InfoText` of the source |
| WindowsPlugin.StringEntries | windows/smart_video_info_plugin.cpp:278-284 | no more entries are kept than the list has |
| WindowsPlugin.StringEntriesConcat | windows/smart_video_info_plugin.cpp:278-284 | the string entries of two lists one after the other are those of each, in order: every entry is kept or skipped on its own |
| WindowsPlugin.StringEntriesOne | windows/smart_video_info_plugin.cpp:279-283 | a single entry is kept iff it is a string |
| WindowsPlugin.StringEntriesAround | windows/smart_video_info_plugin.cpp:278-284 | in a mixed list, the entries kept are those kept before an entry, then that entry iff it is a string, then those kept after it |
| WindowsPlugin.StringEntriesAll | windows/smart_video_info_plugin.cpp:278-284 | every entry of a list of strings is kept, in order |
| WindowsPlugin.StringEntriesNone | windows/smart_video_info_plugin.cpp:278-284 | a list without strings gives no entries |
| WindowsPlugin.Texts | windows/smart_video_info_plugin.cpp:277-284 | definition: the answer text of each path, in order, as a list value |
| WindowsPlugin.TextsConcat | windows/smart_video_info_plugin.cpp:277-284 | the answers for two lists of paths one after the other are the answers for each, in order |
| WindowsPlugin.BatchEntry | windows/smart_video_info_plugin.cpp:277-286 | in a mixed list each entry is answered on its own: a string entry gives its one text at its place among the answers, and any other entry gives none |
| WindowsPlugin.BatchTexts | windows/smart_video_info_plugin.cpp:277-284 | the loop extracts every string entry in order and skips the others |
| WindowsPlugin.HandleMethodCall | windows/smart_video_info_plugin.cpp:232-291 | unknown methods are not implemented. Each argument check gives INVALID_ARGUMENT with its own message. getInfo answers the text for the path. getBatch answers the texts of the string entries. Extraction never fails the call |
| WindowsPlugin.BatchOneToOne | windows/smart_video_info_plugin.cpp:277-286 | a batch answers at most one text per entry, and for a list of strings exactly one per path, in order. `WindowsPlugin.BatchEntry` states the mixed case |
| AndroidPlugin.ArgumentOf | android/src/main/kotlin/com/daronec/smart_video_info/SmartVideoInfoPlugin.kt:29 | a found argument is never null. Reading an argument throws iff the arguments are neither null nor a map |
| AndroidPlugin.StrList | android/src/main/kotlin/com/daronec/smart_video_info/SmartVideoInfoPlugin.kt:57-61 | definition: the texts as a list value, one string per text, in order |
| AndroidPlugin.GetInfo | android/src/main/kotlin/com/daronec/smart_video_info/SmartVideoInfoPlugin.kt:28-47 | definition: the getInfo branch. `MissingPathRejected`, `PathPassedThrough`, `PathNotStringThrows` and `EmptyPathProbed` state its cases |
| AndroidPlugin.GetBatch | android/src/main/kotlin/com/daronec/smart_video_info/SmartVideoInfoPlugin.kt:48-69 | definition: the getBatch branch. `EmptyBatchRejected`, `BatchSuccess` and `BatchAllOrNothing` state its cases |
| AndroidPlugin.Extract | android/src/main/kotlin/com/daronec/smart_video_info/SmartVideoInfoPlugin.kt:57-59 | definition: one element of `paths.map`. A string goes to the bridge, and any other element fails the cast |
| AndroidPlugin.OnMethodCall | android/src/main/kotlin/com/daronec/smart_video_info/SmartVideoInfoPlugin.kt:70-72 | a method other than getInfo and getBatch is answered notImplemented |
| AndroidPlugin.MissingPathRejected | android/src/main/kotlin/com/daronec/smart_video_info/SmartVideoInfoPlugin.kt:29-33 | a missing or null path gives INVALID_ARGUMENT "Path is required" before the bridge is called |
| AndroidPlugin.PathPassedThrough | android/src/main/kotlin/com/daronec/smart_video_info/SmartVideoInfoPlugin.kt:29-45 | getInfo with any string path calls the bridge with that path. The answer is the bridge's text as a success, or its message as METADATA_ERROR |
| AndroidPlugin.PathNotStringThrows | android/src/main/kotlin/com/daronec/smart_video_info/SmartVideoInfoPlugin.kt:29 | a present path that is neither a string nor null makes `call.argument<String>` throw |
| AndroidPlugin.EmptyPathProbed | android/src/main/kotlin/com/daronec/smart_video_info/SmartVideoInfoPlugin.kt:29-45 | an empty path is not rejected: the bridge's text or message is the answer |
| AndroidPlugin.EmptyBatchRejected | android/src/main/kotlin/com/daronec/smart_video_info/SmartVideoInfoPlugin.kt:49-53 | a missing, null or empty list gives INVALID_ARGUMENT "Paths list is required" before the bridge is called |
| AndroidPlugin.BatchSuccess | android/src/main/kotlin/com/daronec/smart_video_info/SmartVideoInfoPlugin.kt:55-62 | a successful batch answers one text per path, in order, each the bridge's text for that path |
| AndroidPlugin.BatchAllOrNothing | android/src/main/kotlin/com/daronec/smart_video_info/SmartVideoInfoPlugin.kt:55-67 | when a path fails, the answer is only the METADATA_ERROR of the first failure |

## Left out

- The media frameworks are not modelled; each is a `probe` parameter returning what the framework reports. This covers AVFoundation, the browser's `<video>` element and URL parser, Media Foundation, and the Android FFmpeg bridge.
- Floating point is not modelled. The following are taken as already computed:
  - iOS: `atan2` in degrees, the transformed natural size with `abs` and `Int(...)`, `CMTimeGetSeconds(...) * 1000`, and the truncations `Int(videoTrack.estimatedDataRate)` and `Int(basicDescription.pointee.mSampleRate)`;
  - Web: `Math.round(duration * 1000)`;
  - Windows: the frame rate, given as the text `operator<<` writes for it.
  A NaN or infinite value is not represented. On iOS, Swift's `Int(...)` traps on one. On the Web, `Math.round(Infinity)` gives Infinity, which `JSON.stringify` writes as null.
- The iOS `fourCCToString` traps when a byte of the code is above 0x7F (`CChar(...)` overflows). Format codes are therefore restricted to ASCII codes by the type `IosPlugin.AsciiFourCharCode`.
- Unicode case mapping and Unicode whitespace are not modelled. Lower-casing and trimming act on ASCII letters, spaces and tabs.
- iOS: `JSONSerialization` and `jsonToString` are not modelled. `extractMetadata` returns the data dictionary as a value rather than the JSON text of `{"success": true, "data": ...}`, so the encoding failure "Failed to encode JSON" is not modelled either.
- Web: the `{success: false, error}` rejection object is modelled by its `error` text alone.
- Web: `JSON.stringify` is modelled as the JSON value it writes, not as text.
- Web: a thrown error is taken to have a message, so the fallback "Failed to extract metadata" is not modelled.
- Threads, dispatch queues, coroutines and promises are not modelled: every operation is a sequential computation. This also leaves out the 10 second timer (modelled as a `TimedOut` load event), DOM insertion and removal of the element, and cancellation on detach.
- COM resource handling is not modelled: `MFStartup` / `MFShutdown`, `Release` and `PropVariantClear` have no effect on the results.
- Windows: the `DWORD` stream index of the counting loop could wrap after 2^32 streams; the model counts with an unbounded index.
- Windows: UTF-8 and UTF-16 conversions of paths and extensions are taken as the identity on strings.
- Plugin registration, `onAttachedToEngine` and `onDetachedFromEngine` are not modelled.
- Android: the exception thrown when `call.argument` reads arguments that are not a map, or when a list element is cast to `String`, is not modelled in detail. The message of the second one is a parameter.
