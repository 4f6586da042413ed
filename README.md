# tama — a Dafny model of its text formats and state machines

tama shows small braille-art animations with chiptune music on a TV drawn in
text: a terminal client, a server that stores and lists channels, a web page
and a Compose app (with a pixel editor) all read and write the same formats.
This project models the parts of tama that decide what those formats mean and
how the players step through them, and proves properties of that model.

- **The music grammar.** A composition is a run of whitespace-separated note
  tokens (`4c#5`, `8e.7`, `2-`, arpeggios `(c e g)`, waveform and volume
  modifiers). It is modelled three times, once per implementation:
  the terminal player's parser (`MidiEngine`, src/midi_composer/engine.rs),
  the Kotlin app's parser (`KtMidiParser`) and composer use case
  (`KtMidiComposer`), and the web page's synthesizer (`JsMidi`). The older
  private parser in engine.rs, which the server uses to validate uploads, is
  modelled as well: it has no `+12` octave shift and ignores the text after
  an arpeggio's `)`. The three parsers differ on purpose and by accident:
  the Kotlin parser has no octave range check and uses `Int` arithmetic that
  can wrap, the JavaScript one uses doubles and quotes the trimmed note in
  its errors, and the Kotlin and JavaScript compositions drop failing notes
  where the terminal player fails the whole composition.
- **The channel flag language** (`--volume`, `--bpm`, `--adsr`, `--vibrato`,
  `--channel`) shared by src/midi_composer/channels.rs and MidiFlags.kt
  (`MidiChannels`), the per-channel overrides and the mixing of channel
  buffers (`MidiEngine`, `KtMidiSynthesizer`).
- **Sprite sheets and braille.** The `Ascii Art Animation, WxH` header and
  frame cutting (`AsciiArtSheet`, `ArtChunks`, `KtAsciiCanvas`, `JsAscii`),
  the Braille Patterns block of the Unicode Standard (`BraillePatterns`),
  the image converter's grey, threshold and braille stages
  (`ImageConverter`) and the pixel editor's converter, frame operations and
  screen state (`KtBrailleConverter`, `KtPixelEditor`,
  `KtPixelEditorViewModel`).
- **Players and cursors.** The sprite player's frame timer
  (`AsciiArtPlayer`), the remote-control animation (`Remote`), the channel
  list and the feed with their wrap-around cursors (`Channels`, `Feed`,
  `KtFeedViewModel`) and the TV layout of the two renderers (`TvLayout`,
  `KtAsciiCanvas`, `JsAsciiCanvas`).
- **The server and client checks.** The rate limiter (`RateLimiter`), the
  upload validator (`ContentUpload`), the content file sections
  (`ContentFile`), the client's endpoint argument (`Endpoint`) and its
  stored credentials (`ClientAuth`).

Where a test in the repository and the code disagree, the model follows the
code: the test at src/server/channel_endpoints.rs:124-135 expects an empty
name to be refused, but `validate_content_upload` accepts it (see Findings).
The model follows the code in the Kotlin parser too: its pitch goes through
the wrapping `Int` formula of MidiParser.kt, and the Kotlin composer's
validator lets through the notes that later throw. A note whose duration
digit is 0 lasts forever: the sample count of its buffer saturates, and
allocating that buffer throws `OutOfMemoryError` in the Kotlin synthesizer
and panics with "capacity overflow" in the terminal player. The model
returns each of these as a failure with that message, and proves that a
buffer fails exactly when one of its notes has an infinite duration. The
web player has no saturating cast: there a rest of infinite duration throws
a `RangeError` ("Invalid array length") from `new Array(Infinity)`, while a
pitched or arpeggio note of infinite duration never returns, because its
waveform loop counts towards `Infinity`. The model gives the web buffer
three outcomes (samples, thrown, diverges) and proves that the first note
of infinite duration decides between the last two. Only in two cases does the model read the
input the way the authors evidently meant instead of as written: an unknown
flag, which stalls the flag loop, and a sprite-sheet height of 0 or beyond
`Int`. Each of those has a member that exhibits the loop or the exception,
and a row under Findings. Numbers in flags and headers are read in decimal and
exponent notation (`0.5`, `5e-1`); the float forms that reals cannot hold
are listed under Left out.
Shared helpers live in `Text` (ASCII whitespace, trimming, splitting,
number parsing) and `Wrappers` (Option and Result).

## Model

Plain definitions carry no contract of their own. Each is mapped through
the rowed lemmas that state its properties:

- `Endpoint.AddProtocolIfMissing` (src/tama/main.rs:41-69): `Endpoint.AddProtocolShape`, `Endpoint.AddProtocolIdempotent`.
- `ContentFile.ParseContent` (src/content_parser.rs:52-107): `ContentFile.Sections`, `ContentFile.MissingSections`, `ContentFile.SectionsRoundTrip`, `ContentFile.BlankMidiSection`, `ContentFile.ArtBeforeMidi`.
- `ContentFile.FpsFromHeader` (src/content_parser.rs:24-45): `ContentFile.FpsDefault`, `ContentFile.FpsOfHeader`, `ContentFile.FpsOfHeaderText`.
- `AsciiArtSheet.ParseHeader` (src/ascii_art_converter/mod.rs:33-64): `AsciiArtSheet.SheetErrors`, `AsciiArtSheet.HeaderRoundTrip`, `AsciiArtSheet.DimensionsRoundTrip`.
- `AsciiArtSheet.Display` (src/ascii_art_converter/mod.rs:95-104): `AsciiArtSheet.DisplayLines`, `AsciiArtSheet.DisplayRoundTrip`.
- `KtAsciiCanvas.ParseFramesAsWritten` (app/composeApp/src/commonMain/kotlin/it/curzel/tama/canvas/AsciiCanvas.kt:55-87): `KtAsciiCanvas.MendedAgrees`, `KtAsciiCanvas.ZeroHeightDiverges`, `KtAsciiCanvas.HugeHeightThrows`.
- `JsAscii.ParseFramesAsWritten` (static/ascii.js:10-34): `JsAscii.MendedAgrees`, `JsAscii.ZeroHeightDiverges`.
- `KtAsciiCanvas.RenderContentToString` (app/composeApp/src/commonMain/kotlin/it/curzel/tama/canvas/AsciiCanvas.kt:136-170): `KtAsciiCanvas.RenderLines`.
- `MidiEngine.Arrange` (src/midi_composer/engine.rs:892-922): `MidiEngine.ArrangeCarriesChannels`, `MidiEngine.SingleChannelPanics`, `MidiEngine.MixedChannelsPanic`, `MidiEngine.Play`.
- `TvLayout.ScreenRows` (app/composeApp/src/commonMain/kotlin/it/curzel/tama/canvas/AsciiCanvas.kt:113-130): `TvLayout.ScreenRowsShape`, `TvLayout.ScreenRowsAreLines`, `KtAsciiCanvas.FormatContentToLines`.
- `Feed.FeedManager.IsEmptyState` (src/channel/feed.rs:73-75): `Feed.FeedManager.constructor`, `Feed.FeedManager.Next`, `Feed.FeedManager.Previous`.

| member | source | states |
|---|---|---|
| ClientAuth.Validate | src/client/auth_config.rs:69-83 | the configuration is accepted exactly when the channel id is set, the name is non-empty and the token is non-empty; a refusal names a failing requirement, and every requirement earlier in the order id, name, token holds |
| ContentUpload.Utf8Len | src/server/channel_endpoints.rs:18 | the UTF-8 byte length that `len()` measures lies between the character count and four times it |
| ContentUpload.Validate | src/server/channel_endpoints.rs:16-51 | an upload is accepted exactly when every check passes (name at most 200 bytes, fps in [0.1, 120], art at most 100000 bytes and not blank, MIDI at most 50000 bytes, not blank and parsable); a refusal names the first failing check in source order |
| ContentUpload.EmptyNameAccepted | src/server/channel_endpoints.rs:16-51 | as written, an empty name is accepted whenever every other check passes |
| ContentUpload.ValidateNamed | src/server/channel_endpoints.rs:124-135 | the rule the test expects: an empty name is refused first, and otherwise the verdict is that of Validate |
| Channels.NewChannel | src/channel/mod.rs:22-34 | the channel is built exactly when the art parses as a sprite sheet, with the sheet's error otherwise; a built channel has a player at frame 0 and no server URL |
| Channels.WithServerUrl | src/channel/mod.rs:36-39 | the server URL is set and every other field is unchanged |
| Channels.Render | src/channel/mod.rs:41-44 | the player advances by the elapsed time as AsciiArtPlayer.Updated says, and the frame it then shows is returned |
| Channels.Position | src/channel/mod.rs:104 | the index of the first channel with the id, or none when no channel has it |
| Channels.ChannelManager.constructor | src/channel/mod.rs:59-95 | the sleeping cat (id -2, "Sleeping Cat") and the idle cat (id -3, "Idle Cat"), both with content id -1 and no server, each built from its content file's parsed art, music and frame rate with a fresh player of its own at frame 0; the sleeping cat is selected |
| Channels.LoadChannel | src/channel/mod.rs:72-89 | one built-in channel: the given id and name, content id -1, no server, the parsed file's art and music, and a fresh player at frame 0 over the art's sheet at the file's frame rate |
| Channels.BuiltInLookups | src/channel/mod.rs:122-133 | in the built-in list id -3 is the second channel, id -2 the first, and 999 is none |
| Channels.ChannelManager.SwitchTo | src/channel/mod.rs:97-101 | an index in range is selected; any other leaves the selection; the list is unchanged |
| Channels.ChannelManager.SwitchToId | src/channel/mod.rs:103-110 | answers true exactly when some channel has the id, and then selects the first such channel; otherwise the selection is unchanged |
| Channels.ChannelManager.Current | src/channel/mod.rs:112-114 | the selected channel is one of the list |
| Feed.EmptyStateItem | src/channel/feed.rs:56-71 | the empty-state item is a channel with id -1, content id -1, the name "No content", no server, the static art and the composition "16-", and a fresh player at frame 0 over the static art's sheet at 10 fps |
| Feed.FallbackArtFails | src/channel/feed.rs:57-68 | the fallback text used when the static sprite cannot be read is not a sprite sheet, so building the empty-state channel from it fails |
| Feed.NextIndex | src/channel/feed.rs:81-85 | the next index stays in range, moves one on, and wraps from the last item to the first |
| Feed.PreviousIndex | src/channel/feed.rs:87-95 | the previous index stays in range and is the one that NextIndex maps back to the current index |
| Feed.NextThenPrevious | src/channel/feed.rs:81-95 | next then previous, and previous then next, return to the same index |
| Feed.NextTimesShift | src/channel/feed.rs:119-138 | k calls of next move k items on modulo the feed length, so n calls on n items come back to the start |
| Feed.FeedManager.constructor | src/channel/feed.rs:43-54 | the first item is shown; non-empty items are kept as given, and no items give the single empty-state item named "No content" |
| Feed.FeedManager.Current | src/channel/feed.rs:77-79 | the channel shown is the channel of one of the items |
| Feed.FeedManager.Next | src/channel/feed.rs:81-85 | the index becomes NextIndex of the old one, the items are unchanged, and in the empty state the same channel stays shown |
| Feed.FeedManager.Previous | src/channel/feed.rs:87-95 | the index becomes PreviousIndex of the old one, the items are unchanged, and in the empty state the same channel stays shown |
| AsciiArtPlayer.Updated | src/ui/ascii_art_player.rs:31-41 | with at most one frame nothing changes; otherwise the frame stays or moves one on modulo the frame count, stays in range, and moves only when the gathered time reaches 1/fps |
| AsciiArtPlayer.SteadyCycle | src/ui/ascii_art_player.rs:31-41 | fed exactly one frame's duration per update, the player is k frames further on after k updates, modulo the frame count, with its timer back at 0 |
| AsciiArtPlayer.TwoFrameScenario | src/ui/ascii_art_player.rs:60-82 | two frames at 10 fps with updates of 0.05, 0.06 and 0.1 seconds show frames 0, 1 and 0 |
| AsciiArtPlayer.Player.FromSheet | src/ui/ascii_art_player.rs:16-21 | a player at frame 0 with its timer at 0 and the given sheet and rate |
| AsciiArtPlayer.Player.FromString | src/ui/ascii_art_player.rs:13-22 | fails exactly when the sheet does not parse, with the sheet's error; otherwise a player at frame 0 over the parsed sheet |
| AsciiArtPlayer.Player.Update | src/ui/ascii_art_player.rs:31-41 | the playback becomes Updated of the old playback; the sheet and the rate are unchanged and the frame index stays in range |
| AsciiArtPlayer.Player.CurrentFrame | src/ui/ascii_art_player.rs:43-45 | the text shown is one of the sheet's frames |
| KtFeedViewModel.ReportShowsNeighbour | app/composeApp/src/commonMain/kotlin/it/curzel/tama/feed/FeedViewModel.kt:163-168 | after a report the item that followed the reported one is shown; if the reported item was last, the new last item is shown; if it was the only one, nothing is |
| KtFeedViewModel.FeedViewModel.constructor | app/composeApp/src/commonMain/kotlin/it/curzel/tama/feed/FeedViewModel.kt:27-43 | an empty feed at index 0, not showing static |
| KtFeedViewModel.FeedViewModel.ShowStatic | app/composeApp/src/commonMain/kotlin/it/curzel/tama/feed/FeedViewModel.kt:98-100 | the static screen is shown; the items and the index are unchanged |
| KtFeedViewModel.FeedViewModel.HideStatic | app/composeApp/src/commonMain/kotlin/it/curzel/tama/feed/FeedViewModel.kt:102-104 | the static screen is hidden; the items and the index are unchanged |
| KtFeedViewModel.FeedViewModel.CurrentItem | app/composeApp/src/commonMain/kotlin/it/curzel/tama/feed/FeedViewModel.kt:45-46 | no item exactly when the index is out of range, otherwise the item at the index; with the invariant, no item exactly when the feed is empty |
| KtFeedViewModel.FeedViewModel.HasPrevious | app/composeApp/src/commonMain/kotlin/it/curzel/tama/feed/FeedViewModel.kt:48-49 | true exactly when an item is shown, that is when the feed is non-empty |
| KtFeedViewModel.FeedViewModel.HasNext | app/composeApp/src/commonMain/kotlin/it/curzel/tama/feed/FeedViewModel.kt:51-52 | true exactly when an item is shown, that is when the feed is non-empty |
| KtFeedViewModel.FeedViewModel.ItemsLoaded | app/composeApp/src/commonMain/kotlin/it/curzel/tama/feed/FeedViewModel.kt:76-79 | the loaded items are appended, the index is kept and an item already shown stays shown |
| KtFeedViewModel.FeedViewModel.Next | app/composeApp/src/commonMain/kotlin/it/curzel/tama/feed/FeedViewModel.kt:106-110 | on a non-empty feed the index becomes Feed.NextIndex of the old one; an empty feed is left as it was |
| KtFeedViewModel.FeedViewModel.Previous | app/composeApp/src/commonMain/kotlin/it/curzel/tama/feed/FeedViewModel.kt:112-116 | on a non-empty feed the index becomes Feed.PreviousIndex of the old one; an empty feed is left as it was |
| KtFeedViewModel.FeedViewModel.ReportSucceeded | app/composeApp/src/commonMain/kotlin/it/curzel/tama/feed/FeedViewModel.kt:157-168 | the shown item is removed and the index is pulled back to the last item if it ran past the end; nothing changes when no item is shown |
| Remote.Triggered | src/ui/remote.rs:53-60 | a triggered animation plays from frame 0 with its timer at 0, towards its target, with no switch asked, and is consistent for any frame count |
| Remote.UpdatedView | src/ui/remote.rs:62-82 | at rest nothing changes; while playing the target and the switch flag are kept and the frame moves at most one on, only when the gathered time reaches 1/fps; past the last frame it comes to rest; consistency is preserved |
| Remote.SwitchAsked | src/ui/remote.rs:97-104 | the target is answered exactly when the animation plays frame 3 and has not yet asked, and the asking is then remembered; otherwise nothing changes |
| Remote.SteppedFrames | src/ui/remote.rs:62-82 | fed one frame's duration per update, a playing animation shows one frame more each time with its timer at 0 and comes to rest on the update past the last frame |
| Remote.StaysAtRest | src/ui/remote.rs:62-65 | at rest, any number of updates change nothing |
| Remote.SevenUpdatesStop | src/ui/remote.rs:127-137 | triggered and then updated seven times by 0.1 s at 10 fps, the animation has stopped |
| Remote.SwitchAtMostOnce | src/ui/remote.rs:97-104 | over any sequence of updates and questions an animation answers with a channel at most once, never once it has asked or at rest, and always with its own target |
| Remote.SwitchTiming | src/ui/remote.rs:139-151 | triggered towards channel 1, the questions before the first three updates get no answer, the next gets channel 1 and the one after gets none |
| Remote.RemoteAnimation.constructor | src/ui/remote.rs:30-51 | the seven frames with offsets 0, -1, -2, -2, -2, -1, 0 at 10 fps, at rest at frame 0 with no target |
| Remote.RemoteAnimation.Trigger | src/ui/remote.rs:53-60 | the state becomes Triggered of the target; frames and rate are unchanged |
| Remote.RemoteAnimation.Update | src/ui/remote.rs:62-82 | the state becomes UpdatedView of the old state; frames and rate are unchanged |
| Remote.RemoteAnimation.IsPlaying | src/ui/remote.rs:84-86 | true exactly while the animation is in its animating state |
| Remote.RemoteAnimation.GetFrame | src/ui/remote.rs:88-95 | the art and offset of the frame on show while playing, and nothing exactly when not playing |
| Remote.RemoteAnimation.ShouldSwitchChannel | src/ui/remote.rs:97-104 | the answer and the new state are those of SwitchAsked on the old state |
| RateLimiter.CurrentWindow | src/server/rate_limiter.rs:34-44 | an unseen address or one whose window has run out gets a new empty window starting now; otherwise the window is kept, and the result's window has not run out unless it is new |
| RateLimiter.RetryAfter | src/server/rate_limiter.rs:47-50 | inside a window of at least one second the wait is between 1 and the window's seconds |
| RateLimiter.CheckStep | src/server/rate_limiter.rs:30-56 | a request is let through exactly when its window has seen fewer than the maximum, and is then counted; a refused one leaves the window unchanged and waits between 1 and the window's seconds |
| RateLimiter.WithinWindow | src/server/rate_limiter.rs:46-56 | within one window that has seen `count` requests, the i-th further request is let through exactly when count + i is below the maximum |
| RateLimiter.FirstRequestsPass | src/server/rate_limiter.rs:80-102 | for a new address, or one whose window ran out, the first maximum-many requests within a window pass and the rest are refused |
| RateLimiter.WindowResets | src/server/rate_limiter.rs:39-44 | once the window has run out, the next request starts a new window with count 1 and is let through |
| RateLimiter.Retained | src/server/rate_limiter.rs:59-66 | cleanup keeps exactly the entries whose window started less than two windows ago, with their values |
| RateLimiter.CleanupHarmless | src/server/rate_limiter.rs:59-66 | cleaning up never changes the answer or the entry of any later check |
| RateLimiter.RateLimiter.constructor | src/server/rate_limiter.rs:20-26 | no address seen yet, with the given limit and window |
| RateLimiter.RateLimiter.Default | src/server/rate_limiter.rs:69-73 | 100 requests per 60 seconds, no address seen yet |
| RateLimiter.RateLimiter.Check | src/server/rate_limiter.rs:30-56 | the answer is that of CheckStep for the address's entry; only that address's entry changes |
| RateLimiter.RateLimiter.CleanupExpired | src/server/rate_limiter.rs:59-66 | the entries become Retained of the old entries |
| Endpoint.Host | src/tama/main.rs:59 | the host is a slash-free prefix of the endpoint |
| Endpoint.AddProtocolShape | src/tama/main.rs:41-69 | a URL or a relative path is returned unchanged; anything else gets `http://` exactly when its host starts with "localhost" and `https://` otherwise; the result always has a scheme or is a relative path and ends with the input |
| Endpoint.AddProtocolIdempotent | src/tama/main.rs:41-69 | adding the protocol twice gives the same as adding it once |
| Endpoint.TypeOf | src/tama/main.rs:98-108 | `content` with an identifier that parses as an i64 gives that content id, `channel` accepts any identifier, a bad content id or any other kind is an error naming it |
| Endpoint.ParseEndpoint | src/tama/main.rs:71-133 | a server is named exactly when the completed endpoint has a scheme |
| Endpoint.PathSegments | src/tama/main.rs:92-108 | an endpoint's path splits back into its two segments, which read back as that endpoint |
| Endpoint.ParsedSegments | src/tama/main.rs:71-133 | an endpoint parses exactly when its path has two segments naming an endpoint, and that endpoint is returned; a URL with no path is an invalid URL and a path of any other length is refused with the URL-path or format error |
| Endpoint.RelativeRoundTrip | src/tama/main.rs:111-131 | `/kind/id` parses back as its endpoint with no server |
| Endpoint.UrlHasScheme | src/tama/main.rs:43 | `http:` or `https:` followed by `//host/rest` counts as a full URL |
| Endpoint.SplitNChain | src/tama/main.rs:78 | a first split at `/` giving the scheme, then an empty segment, then host and rest, is the four-way `splitn(4, '/')` of the whole URL |
| Endpoint.UrlParts | src/tama/main.rs:78-90 | `scheme//host/rest` splits at its first three slashes into scheme, empty, host and rest |
| Endpoint.ParseFullUrl | src/tama/main.rs:76-110 | a full URL whose path after the host has two segments naming an endpoint parses as server `scheme//host` and that endpoint |
| Endpoint.UrlRoundTrip | src/tama/main.rs:76-110 | `scheme//host/kind/id` parses back as its server and endpoint |
| ContentFile.Position | src/content_parser.rs:55-59 | the first line that trims to the marker, or none when no line does |
| ContentFile.MidiWords | src/content_parser.rs:67-71 | the trimmed non-empty lines, none of them empty and no more of them than lines |
| ContentFile.MidiWordsBlank | src/content_parser.rs:67-79 | no composition words are left exactly when every line between the markers is blank |
| ContentFile.MidiWordsOfWords | src/content_parser.rs:67-71 | lines that are already trimmed and non-empty are kept as they are |
| ContentFile.FpsDefault | src/content_parser.rs:24-45 | a header with no second comma field gives the default 10 fps |
| ContentFile.FpsField | src/content_parser.rs:35-37 | the field ` nfps` trims to `nfps` and holds no comma |
| ContentFile.FpsOfDimsAndRate | src/content_parser.rs:29-41 | fields `dims, nfps` name a frame rate of n |
| ContentFile.FpsOfHeader | src/content_parser.rs:24-45 | the header `Ascii Art Animation, dims, nfps` has a frame rate of n |
| ContentFile.FpsOfDimsAndText | src/content_parser.rs:24-45 | fields `dims, tfps` name the rate that a plain decimal `t` reads as |
| ContentFile.FpsOfHeaderText | src/content_parser.rs:24-45 | the header `Ascii Art Animation, dims, tfps` has the rate that a plain decimal `t` reads as |
| ContentFile.RateField | src/content_parser.rs:30-38 | the field ` tfps` of a plain decimal `t` holds no comma, trims to `tfps`, and "fps" is first found right after `t` |
| ContentFile.Sections | src/content_parser.rs:55-107 | a missing MIDI marker, then a missing ART marker, is reported; a parsed file has a non-empty composition and art starting with the header |
| ContentFile.MissingSections | src/content_parser.rs:55-59 | MissingMidiSection exactly when no line is the MIDI marker, checked before the ART marker; MissingArtSection exactly when the MIDI marker is there but no ART marker |
| ContentFile.JoinFirst | src/content_parser.rs:83 | a join starts with its first part |
| ContentFile.SectionsRoundTrip | src/content_parser.rs:52-107 | a MIDI marker, trimmed composition lines, the ART marker and art starting with the header parse back into the lines joined by a space, the art joined by line feeds and the header's frame rate |
| ContentFile.SectionsOf | src/content_parser.rs:61-107 | the sections found between markers at 0 and after the composition lines are the joined composition and art |
| ContentFile.PositionAfter | src/content_parser.rs:55-59 | a marker absent from a first part and leading the second is found just after the first part |
| ContentFile.BlankMidiSection | src/content_parser.rs:67-79 | only blank lines between the markers give the empty-MIDI format error |
| ContentFile.BlankBetween | src/content_parser.rs:67-79 | blank lines between markers at m and a give the empty-MIDI error |
| ContentFile.ArtBeforeMidi | src/content_parser.rs:61-65 | an ART marker at or before the MIDI marker is a format error |
| Feed.FallbackIsLine | src/channel/feed.rs:57-58 | the fallback text is a single line |
| Feed.FallbackHeaderRejected | src/channel/feed.rs:57-68 | the fallback text is no sprite-sheet header |
| Feed.NextTimes | src/channel/feed.rs:81-85 | any number of calls of next keeps the index in range |
| RateLimiter.Elapsed | src/server/rate_limiter.rs:40 | the time from the window start to now, and 0 when the start is later, as duration_since saturates |
| RateLimiter.WholeSecondsBelow | src/server/rate_limiter.rs:48-49 | a time short of a whole number of seconds counts fewer whole seconds |
| AsciiArtSheet.AsciiArtSheet.constructor | src/ascii_art_converter/mod.rs:13-19 | a sheet of the given dimensions with no frames |
| AsciiArtSheet.AsciiArtSheet.AddFrame | src/ascii_art_converter/mod.rs:21-23 | the frame is appended, the count grows by exactly one and the dimensions are unchanged |
| AsciiArtSheet.ParseDimensions | src/ascii_art_converter/mod.rs:43-64 | the dimensions read fit in a `usize` |
| AsciiArtSheet.DimensionsShape | src/ascii_art_converter/mod.rs:97 | the dimension text `WxH` has no comma and nothing to trim |
| AsciiArtSheet.DimensionsSplit | src/ascii_art_converter/mod.rs:53 | `WxH` splits at its `x` into the two numbers |
| AsciiArtSheet.DimensionsOfFirstField | src/ascii_art_converter/mod.rs:43-64 | text whose first comma field is `WxH` names the dimensions (W, H) |
| AsciiArtSheet.DimensionsRoundTrip | src/ascii_art_converter/mod.rs:43-64 | `WxH`, alone or followed by further comma fields, reads back as (W, H) |
| AsciiArtSheet.HeaderRoundTrip | src/ascii_art_converter/mod.rs:35-64 | the header Display writes parses back as its dimensions |
| AsciiArtSheet.BlockAppend | src/ascii_art_converter/mod.rs:71-72 | accumulating two runs of lines is accumulating the first and then the second |
| AsciiArtSheet.ParseSheet | src/ascii_art_converter/mod.rs:30-92 | a parsed sheet always has at least one frame |
| AsciiArtSheet.SheetErrors | src/ascii_art_converter/mod.rs:31-37 | an empty text, and only an empty text, is an "Empty file" error; a first line without the prefix is an "Invalid header" error; any other failure is the header's dimension error |
| AsciiArtSheet.OnlyPartialFrame | src/ascii_art_converter/mod.rs:82-85 | with no complete frame the whole body, trimmed at its end, is the only frame and the height becomes the number of body lines |
| AsciiArtSheet.PartialChunk | src/ascii_art_converter/mod.rs:70-80 | too few body lines for a frame, or a height of 0, leave every line in the frame in progress |
| AsciiArtSheet.FromString | src/ascii_art_converter/mod.rs:30-92 | the imperative parse builds exactly the sheet ParseSheet describes |
| AsciiArtSheet.CutFrames | src/ascii_art_converter/mod.rs:66-80 | the loop ends in the state the chunking function describes |
| AsciiArtSheet.FeedPartial | src/ascii_art_converter/mod.rs:70-80 | lines too few to complete the frame in progress only extend it |
| AsciiArtSheet.FeedComplete | src/ascii_art_converter/mod.rs:75-79 | enough lines to complete the frame in progress finish it, trimmed at its end, and start a new one |
| AsciiArtSheet.Leftover | src/ascii_art_converter/mod.rs:70-80 | fewer than `height` lines are left after the last complete group |
| AsciiArtSheet.ChunksAreGroups | src/ascii_art_converter/mod.rs:70-80 | with a positive height the body is cut into complete groups of `height` lines, a trailing partial group is left in progress and is dropped |
| AsciiArtSheet.ZeroHeightKeepsAll | src/ascii_art_converter/mod.rs:75 | with height 0 no frame is ever complete |
| AsciiArtSheet.LinesCons | src/ascii_art_converter/mod.rs:31 | a line followed by a line feed is the first of the lines |
| AsciiArtSheet.LinesOfBlock | src/ascii_art_converter/mod.rs:99-101 | the lines of written lines are those lines |
| AsciiArtSheet.FrameBlock | src/ascii_art_converter/mod.rs:100 | a frame followed by a line feed is its lines each followed by a line feed |
| AsciiArtSheet.FrameEnd | src/ascii_art_converter/mod.rs:76 | a frame ends with the last character of its last line |
| AsciiArtSheet.FramesOf | src/ascii_art_converter/mod.rs:99-101 | one frame per group |
| AsciiArtSheet.GroupTrim | src/ascii_art_converter/mod.rs:76 | trimming a group's accumulated lines gives back its frame when the last line ends in a non-space |
| AsciiArtSheet.BlockOfFrames | src/ascii_art_converter/mod.rs:99-101 | writing the frames of groups writes the lines of the groups |
| AsciiArtSheet.GroupsOfFlatten | src/ascii_art_converter/mod.rs:70-80 | cutting the lines of whole groups gives back the groups' frames with nothing left over |
| AsciiArtSheet.FlattenLines | src/ascii_art_converter/mod.rs:99-101 | every line of the groups is a single line |
| AsciiArtSheet.HeaderIsLine | src/ascii_art_converter/mod.rs:97 | the header is a single line |
| AsciiArtSheet.DisplayLines | src/ascii_art_converter/mod.rs:95-104 | the lines Display writes are the header and then every line of every frame |
| AsciiArtSheet.CutWholeGroups | src/ascii_art_converter/mod.rs:70-80 | cutting whole groups finishes exactly the groups' frames |
| AsciiArtSheet.SheetOfParts | src/ascii_art_converter/mod.rs:30-92 | a text whose header names (w, h) and whose body has complete frames parses to those frames |
| AsciiArtSheet.DisplayRoundTrip | src/ascii_art_converter/mod.rs:95-104 | Display followed by from_string gives the sheet back when it has a frame, a positive height and frames of exactly `height` lines whose last line ends in a non-space |
| ArtChunks.FirstDims | app/composeApp/src/commonMain/kotlin/it/curzel/tama/canvas/AsciiCanvas.kt:56 | the position found is a match of `(\d+)x(\d+)` and no match starts earlier; none means no match at or after the start |
| ArtChunks.Chunks | static/ascii.js:26-32 | no frame kept is blank |
| ArtChunks.ChunkLines | app/composeApp/src/commonMain/kotlin/it/curzel/tama/canvas/AsciiCanvas.kt:76-85 | the loop stepping by `height` keeps exactly the non-blank chunks of `height` lines (fewer at the end), in order |
| ArtChunks.ChunkStep | static/ascii.js:27-31 | one turn of the loop: the chunk at i, kept unless blank, then the chunks after it |
| ArtChunks.JoinLast | static/ascii.js:28 | a join ends with its last part |
| ArtChunks.GroupNotBlank | static/ascii.js:29 | a frame whose last line ends in a non-space is not blank |
| ArtChunks.SplitBlock | static/ascii.js:4 | text with a line feed after each line splits into those lines and one empty piece |
| ArtChunks.ChunksOfGroups | static/ascii.js:26-32 | cutting whole groups of `height` lines followed by one empty line gives back the groups' frames |
| ArtChunks.SheetLines | static/ascii.js:4-32 | a written sheet splits into its header, the frame lines and one empty piece, and its chunks are exactly the frames |
| ArtChunks.NoDimsAtNonDigit | static/ascii.js:12 | no match starts at a non-digit |
| ArtChunks.SkipNonDigits | static/ascii.js:12 | the search skips text that holds no digit |
| ArtChunks.RunThen | static/ascii.js:12 | a digit run followed by a non-digit is the whole leading run |
| ArtChunks.PairOf | static/ascii.js:12 | two digit runs around `x`, followed by a non-digit or the end, are a match with those numbers |
| ArtChunks.StandardHeaderDims | app/composeApp/src/commonMain/kotlin/it/curzel/tama/canvas/AsciiCanvas.kt:55-70 | in the header `Ascii Art Animation, WxH`, in either case mode, the leftmost match is the pair, giving W and H |
| ArtChunks.PrefixHasNoDigit | static/ascii.js:10-12 | the header prefix holds no digit |
| ArtChunks.FirstDimsSkips | static/ascii.js:12 | a search finding no match before a position finds what a search from there finds |
| JsAscii.ParsedFrames | static/ascii.js:3-35 | never empty; the whole text when the first line holds no `WxH` pair; otherwise each frame is the whole text or a non-blank chunk |
| JsAscii.ParseFrames | static/ascii.js:3-35 | the loop builds exactly the frames of ParsedFrames |
| JsAscii.MendedAgrees | static/ascii.js:27 | the as-written reading agrees with the mended one whenever it ends, and fails to end exactly when the first line's pair has height 0 and more lines follow |
| JsAscii.ZeroHeightDiverges | static/ascii.js:27 | the text "1x0\n#" sends the as-written loop round forever, while the mended reading gives the whole text as one frame |
| JsAscii.ShowsSheet | static/ascii.js:3-35 | a sheet written as its header, a line feed and each frame's lines followed by line feeds is read as exactly its frames, as written and mended alike |
| JsAscii.StandardHeaderHeight | static/ascii.js:10-20 | the standard header line holds a pair whose height is H |
| JsAscii.ShowsDisplay | static/ascii.js:3-35 | what the Rust sheet's Display writes is read by the web player as exactly its frames |
| JsAscii.ShowsExport | static/ascii.js:3-35 | the art the pixel editor exports is read by the web player as one frame per edited frame, each that frame's braille text |
| KtAsciiCanvas.Lowered | app/composeApp/src/commonMain/kotlin/it/curzel/tama/canvas/AsciiCanvas.kt:60-61 | lower-casing keeps the length and lowers each character |
| KtAsciiCanvas.ParsedFrames | app/composeApp/src/commonMain/kotlin/it/curzel/tama/canvas/AsciiCanvas.kt:47-88 | never empty; the whole text when the trimmed first line is not header-like; otherwise each frame is the whole text or a non-blank chunk |
| KtAsciiCanvas.ParseFrames | app/composeApp/src/commonMain/kotlin/it/curzel/tama/canvas/AsciiCanvas.kt:47-88 | the loop builds exactly the frames of ParsedFrames |
| KtAsciiCanvas.MendedAgrees | app/composeApp/src/commonMain/kotlin/it/curzel/tama/canvas/AsciiCanvas.kt:70-85 | the as-written reading agrees with the mended one whenever it ends normally, and fails exactly on a header-like first line whose height does not fit an Int, or is 0 with body lines after it |
| KtAsciiCanvas.ZeroHeightDiverges | app/composeApp/src/commonMain/kotlin/it/curzel/tama/canvas/AsciiCanvas.kt:77-85 | the text "1x0\n#" sends the as-written loop round forever, while the mended reading gives the whole text as one frame |
| KtAsciiCanvas.BeyondIntMax | app/composeApp/src/commonMain/kotlin/it/curzel/tama/canvas/AsciiCanvas.kt:70 | the digits 2147483648 are one more than Int.MAX_VALUE |
| Text.AppendDigit | app/composeApp/src/commonMain/kotlin/it/curzel/tama/canvas/AsciiCanvas.kt:70 | one more digit on the right multiplies the value by ten and adds the digit |
| KtAsciiCanvas.HugeHeightThrows | app/composeApp/src/commonMain/kotlin/it/curzel/tama/canvas/AsciiCanvas.kt:70 | the text "1x2147483648" makes `toInt` throw as written, while the mended reading gives the whole text as one frame |
| KtAsciiCanvas.HugeHeader | app/composeApp/src/commonMain/kotlin/it/curzel/tama/canvas/AsciiCanvas.kt:55-70 | "1x2147483648" is a header-like line with height Int.MAX_VALUE + 1 |
| KtAsciiCanvas.StandardHeaderNamesAscii | app/composeApp/src/commonMain/kotlin/it/curzel/tama/canvas/AsciiCanvas.kt:60 | a header with the standard prefix contains "ascii" ignoring case |
| KtAsciiCanvas.ShowsSheet | app/composeApp/src/commonMain/kotlin/it/curzel/tama/canvas/AsciiCanvas.kt:47-88 | a sheet written as its header, a line feed and each frame's lines followed by line feeds is read as exactly its frames, as written and mended alike |
| KtAsciiCanvas.StandardHeaderReads | app/composeApp/src/commonMain/kotlin/it/curzel/tama/canvas/AsciiCanvas.kt:55-70 | the standard header line is its own trim, looks like a header and has height H |
| KtAsciiCanvas.HeaderEnds | app/composeApp/src/commonMain/kotlin/it/curzel/tama/canvas/AsciiCanvas.kt:55 | the standard header line starts and ends with a non-space, so trimming keeps it |
| KtAsciiCanvas.ShowsDisplay | app/composeApp/src/commonMain/kotlin/it/curzel/tama/canvas/AsciiCanvas.kt:47-88 | what the Rust sheet's Display writes is read by the app as exactly its frames |
| KtAsciiCanvas.ShowsExport | app/composeApp/src/commonMain/kotlin/it/curzel/tama/canvas/AsciiCanvas.kt:47-88 | the art the pixel editor exports is read by the app as one frame per edited frame, each that frame's braille text |
| KtAsciiCanvas.FormatContentToLines | app/composeApp/src/commonMain/kotlin/it/curzel/tama/canvas/AsciiCanvas.kt:113-130 | the loop gives exactly the ten screen rows of TvLayout.ScreenRows |
| KtAsciiCanvas.AntennaShape | app/composeApp/src/commonMain/kotlin/it/curzel/tama/canvas/AsciiCanvas.kt:148-153 | the antenna is three lines, 10, 6 and 7 columns in, with no line feed in the picture |
| KtAsciiCanvas.LabelCentred | app/composeApp/src/commonMain/kotlin/it/curzel/tama/canvas/AsciiCanvas.kt:144-145 | the label line has 13 spaces before "Tama Tv" and 14 after, between the outer walls |
| KtAsciiCanvas.RenderLines | app/composeApp/src/commonMain/kotlin/it/curzel/tama/canvas/AsciiCanvas.kt:136-170 | the rendered TV is 18 lines: antenna, two top borders, the ten screen rows between double walls, the inner bottom border, the label and the bottom border |
| JsAsciiCanvas.RenderContentToString | static/asciiCanvas.js:60-91 | the function builds exactly the picture JsPicture describes |
| JsAsciiCanvas.JsPartsAreLines | static/asciiCanvas.js:73-90 | the antenna and label lines hold no line feed |
| JsAsciiCanvas.JsPictureLines | static/asciiCanvas.js:73-90 | the web TV is 18 lines: antenna, two top borders, screen rows 0 to 9 between double walls, the inner bottom border, the label and the bottom border |
| JsAsciiCanvas.TwoMore | static/asciiCanvas.js:73-75 | two more spaces in front of a line |
| JsAsciiCanvas.SameScreenAsApp | static/asciiCanvas.js:60-91 | on the same ten rows the web TV and the app's TV agree line by line except the antenna, two columns further right on the web, and the label line |
| JsAsciiCanvas.AntennaShifted | static/asciiCanvas.js:73-75 | each web antenna line is the app's with two more spaces in front |
| JsAsciiCanvas.LabelsDiffer | static/asciiCanvas.js:89 | both label lines are as wide as the borders, but the label starts one column later on the web |
| TvLayout.Spaces | app/composeApp/src/commonMain/kotlin/it/curzel/tama/canvas/AsciiCanvas.kt:96 | n characters, all spaces |
| TvLayout.PaddedRight | app/composeApp/src/commonMain/kotlin/it/curzel/tama/canvas/AsciiCanvas.kt:93-97 | the text unchanged when `count` is at most its length; otherwise the text followed by spaces, exactly `count` long |
| TvLayout.Padded | app/composeApp/src/commonMain/kotlin/it/curzel/tama/canvas/AsciiCanvas.kt:102-108 | the text unchanged when `count` is at most its length; otherwise floor(p/2) spaces, the text and ceil(p/2) spaces, exactly `count` long |
| TvLayout.PaddingAddsSpaces | static/asciiCanvas.js:93-105 | both paddings add nothing but spaces |
| TvLayout.RightPaddingAddsSpaces | static/asciiCanvas.js:101-105 | right padding adds nothing but spaces |
| TvLayout.CentringAddsSpaces | static/asciiCanvas.js:93-99 | centring adds nothing but spaces |
| TvLayout.Widest | app/composeApp/src/commonMain/kotlin/it/curzel/tama/canvas/AsciiCanvas.kt:117 | the length of a longest line, every line at most that long, and 0 for no lines |
| TvLayout.Blanked | app/composeApp/src/commonMain/kotlin/it/curzel/tama/canvas/AsciiCanvas.kt:115 | the content with each blank braille pattern U+2800 shown as a space and every other character kept |
| TvLayout.ContentLines | app/composeApp/src/commonMain/kotlin/it/curzel/tama/canvas/AsciiCanvas.kt:116 | at least one line, none holding a line feed |
| TvLayout.Centered | app/composeApp/src/commonMain/kotlin/it/curzel/tama/canvas/AsciiCanvas.kt:119-122 | one centred line per content line |
| TvLayout.FilledRows | static/asciiCanvas.js:68-71 | centred lines with blank rows pushed until there are ten: their first ten are the screen rows |
| TvLayout.CenteredLine | app/composeApp/src/commonMain/kotlin/it/curzel/tama/canvas/AsciiCanvas.kt:119-122 | a line padded to the widest width and centred keeps its text right after its left padding |
| TvLayout.ScreenRowsShape | app/composeApp/src/commonMain/kotlin/it/curzel/tama/canvas/AsciiCanvas.kt:113-130 | exactly ten rows; a row cut from a content line is max(32, widest line) wide and holds the line after its left padding; the rows added below are 32 spaces; no row holds a line feed |
| TvLayout.Walled | app/composeApp/src/commonMain/kotlin/it/curzel/tama/canvas/AsciiCanvas.kt:157-160 | every row between double walls `││row││` |
| TvLayout.BordersAreLines | app/composeApp/src/commonMain/kotlin/it/curzel/tama/canvas/AsciiCanvas.kt:140-141 | the four borders are 36 characters wide and hold no line feed |
| TvLayout.WalledLines | app/composeApp/src/commonMain/kotlin/it/curzel/tama/canvas/AsciiCanvas.kt:159 | walls add four characters to each row and no line feed |
| TvLayout.AboveJoined | app/composeApp/src/commonMain/kotlin/it/curzel/tama/canvas/AsciiCanvas.kt:163-169 | a joined line above the rest of the picture |
| TvLayout.SplitAbove | app/composeApp/src/commonMain/kotlin/it/curzel/tama/canvas/AsciiCanvas.kt:163-169 | joined lines above the rest of a picture split back into those lines and the rest's lines |
| TvLayout.SplitLineAbove | app/composeApp/src/commonMain/kotlin/it/curzel/tama/canvas/AsciiCanvas.kt:163-169 | one line above the rest of a picture splits off as that line |
| TvLayout.PictureLines | app/composeApp/src/commonMain/kotlin/it/curzel/tama/canvas/AsciiCanvas.kt:163-169 | the TV picture splits into exactly its antenna, borders, walled rows, label and bottom lines |
| TvLayout.StackedLines | app/composeApp/src/commonMain/kotlin/it/curzel/tama/canvas/AsciiCanvas.kt:163-169 | seven stacked parts free of line feeds split into their lines |
| TvLayout.ScreenRowsAreLines | app/composeApp/src/commonMain/kotlin/it/curzel/tama/canvas/AsciiCanvas.kt:125-129 | the screen rows are ten lines without line feeds |
| TvLayout.WalledGroup | app/composeApp/src/commonMain/kotlin/it/curzel/tama/canvas/AsciiCanvas.kt:159-161 | walled rows end in a wall, so trimming their block keeps them |
| TvLayout.TvLinesAt | app/composeApp/src/commonMain/kotlin/it/curzel/tama/canvas/AsciiCanvas.kt:163-169 | where antenna, borders, each walled row and label sit among the 18 lines |
| BraillePatterns.DotNumber | src/ascii_art_converter/converter.rs:121-128 | every dot of a 2x4 cell has one of the standard's numbers 1 to 8 |
| BraillePatterns.CellBitsFollowStandard | src/ascii_art_converter/converter.rs:147 | the table indexed by dy * 2 + dx gives the Unicode bit of the standard's dot at (dx, dy) |
| BraillePatterns.CellBitsDisjoint | src/ascii_art_converter/converter.rs:147 | each table entry is one distinct bit of the low byte |
| BraillePatterns.Mask | src/ascii_art_converter/converter.rs:149-153 | the OR of the bits of raised dots stays within the low byte |
| BraillePatterns.AddBit | src/ascii_art_converter/converter.rs:150-152 | OR-ing the bit of dot j sets bit i exactly when it was set or i is j |
| BraillePatterns.MaskBits | src/ascii_art_converter/converter.rs:149-153 | the mask of the first n dots has exactly the bits of the raised dots among them |
| BraillePatterns.OffsetRoundTrip | src/ascii_art_converter/converter.rs:145-155 | a mask of at most 0xFF converts to an integer below 0x100 and back unchanged, so the code point built from it is a Braille pattern |
| BraillePatterns.Pattern | src/ascii_art_converter/converter.rs:144-156 | a cell's pattern lies in U+2800..U+28FF at the offset of its mask |
| BraillePatterns.PatternDots | src/ascii_art_converter/converter.rs:144-156 | a pattern raises exactly the dots set in its cell |
| BraillePatterns.BlankAndFullPatterns | src/ascii_art_converter/converter.rs:163-175 | no dots give U+2800 and all dots give U+28FF |
| ImageConverter.Grey | src/ascii_art_converter/converter.rs:81-89 | alpha below 128 gives 0 or 255 as the flag says; otherwise the integer mean of red, green and blue |
| ImageConverter.Binarize | src/ascii_art_converter/converter.rs:103 | only 0 or 255, and 0 exactly when the value is below the threshold |
| ImageConverter.HandleTransparency | src/ascii_art_converter/converter.rs:74-94 | a new image of the same size whose every pixel is the Grey of the input pixel |
| ImageConverter.ApplyThreshold | src/ascii_art_converter/converter.rs:96-109 | a new image of the same size whose every pixel is the Binarize of the input pixel |
| ImageConverter.CodeIsPattern | src/ascii_art_converter/converter.rs:145-155 | 0x2800 OR a cell's mask is a code point in the block and is that cell's pattern |
| ImageConverter.CodeStep | src/ascii_art_converter/converter.rs:149-153 | one turn of the loop extends the code by the bit of dot i when it is set |
| ImageConverter.DotsToBraille | src/ascii_art_converter/converter.rs:144-156 | the character is the pattern whose raised dots are the set entries |
| ImageConverter.CellAt | src/ascii_art_converter/converter.rs:116-131 | eight dots per cell |
| ImageConverter.CellAtDot | src/ascii_art_converter/converter.rs:121-129 | dot (dx, dy) of cell (cx, cy) is whether pixel (2cx + dx, 4cy + dy) exists and is 0 |
| ImageConverter.RowText | src/ascii_art_converter/converter.rs:115-134 | n characters, each the pattern of its cell |
| ImageConverter.Rows | src/ascii_art_converter/converter.rs:114-139 | n rows, each the row text of its index |
| ImageConverter.CellDots | src/ascii_art_converter/converter.rs:119-131 | the loop reads exactly the cell's dots, leaving out-of-bounds ones unset |
| ImageConverter.RowChars | src/ascii_art_converter/converter.rs:115-134 | the loop builds exactly the row's text |
| ImageConverter.ImageToBrailleString | src/ascii_art_converter/converter.rs:111-142 | the loops build exactly the braille text of the image |
| ImageConverter.BrailleLines | src/ascii_art_converter/converter.rs:111-142 | the text is empty for height 0; otherwise it splits at line feeds into exactly `char_height` rows of `char_width` characters, with no trailing line feed |
| ImageConverter.BrailleDots | src/ascii_art_converter/converter.rs:121-133 | dot (dx, dy) of character (cx, cy) is raised exactly when pixel (2cx + dx, 4cy + dy) lies inside the image and is black |
| KtBrailleConverter.OffsetIndex | app/composeApp/src/commonMain/kotlin/it/curzel/tama/pixeleditor/BrailleConverter.kt:6-15 | each offset names one of the eight cell indices |
| KtBrailleConverter.OffsetsFollowStandard | app/composeApp/src/commonMain/kotlin/it/curzel/tama/pixeleditor/BrailleConverter.kt:6-15 | each offset is a dot of the 2x4 cell and carries the Unicode bit of the standard's dot at that place |
| KtBrailleConverter.Cell | app/composeApp/src/commonMain/kotlin/it/curzel/tama/pixeleditor/BrailleConverter.kt:34-40 | eight dots per cell |
| KtBrailleConverter.VisitStep | app/composeApp/src/commonMain/kotlin/it/curzel/tama/pixeleditor/BrailleConverter.kt:6-15 | each cell index is visited at one of the eight steps |
| KtBrailleConverter.OffsetInCell | app/composeApp/src/commonMain/kotlin/it/curzel/tama/pixeleditor/BrailleConverter.kt:6-15 | each offset lies inside the 2x4 cell |
| KtBrailleConverter.OffsetTable | app/composeApp/src/commonMain/kotlin/it/curzel/tama/pixeleditor/BrailleConverter.kt:6-15 | offset k visits cell index i exactly when i's step is k, and carries that index's bit |
| KtBrailleConverter.CellValueBits | app/composeApp/src/commonMain/kotlin/it/curzel/tama/pixeleditor/BrailleConverter.kt:32-40 | after k offsets the value has the bit of index i exactly when i was visited and its pixel is inked |
| KtBrailleConverter.SameByte | app/composeApp/src/commonMain/kotlin/it/curzel/tama/pixeleditor/BrailleConverter.kt:32-40 | two bytes with the same cell bits are equal |
| KtBrailleConverter.CellValueIsMask | app/composeApp/src/commonMain/kotlin/it/curzel/tama/pixeleditor/BrailleConverter.kt:32-40 | after the eight offsets the value is the standard mask of the cell, the same one the Rust converter computes |
| KtBrailleConverter.CellOffset | app/composeApp/src/commonMain/kotlin/it/curzel/tama/pixeleditor/BrailleConverter.kt:35-37 | offset k of a cell reads the pixel at that offset from the cell's corner, unset when outside the grid |
| KtBrailleConverter.ValueOfCell | app/composeApp/src/commonMain/kotlin/it/curzel/tama/pixeleditor/BrailleConverter.kt:32-40 | the loop over the offsets computes the standard mask of the cell |
| KtBrailleConverter.EncodedRow | app/composeApp/src/commonMain/kotlin/it/curzel/tama/pixeleditor/BrailleConverter.kt:27-44 | n characters, each the pattern of its cell |
| KtBrailleConverter.EncodeRow | app/composeApp/src/commonMain/kotlin/it/curzel/tama/pixeleditor/BrailleConverter.kt:27-44 | the loop builds exactly the row's characters |
| KtBrailleConverter.EncodedLines | app/composeApp/src/commonMain/kotlin/it/curzel/tama/pixeleditor/BrailleConverter.kt:26-46 | n lines, each a row with trailing whitespace trimmed |
| KtBrailleConverter.PixelsToBraille | app/composeApp/src/commonMain/kotlin/it/curzel/tama/pixeleditor/BrailleConverter.kt:17-49 | the loops build exactly the text PixelsText describes |
| KtBrailleConverter.TrimEndKeepsPatterns | app/composeApp/src/commonMain/kotlin/it/curzel/tama/pixeleditor/BrailleConverter.kt:45 | no braille pattern is whitespace, so trimming a row of patterns keeps it whole |
| KtBrailleConverter.EncodedLinesArePatterns | app/composeApp/src/commonMain/kotlin/it/curzel/tama/pixeleditor/BrailleConverter.kt:45 | the lines of the text are the rows, made only of patterns |
| KtBrailleConverter.SplitPatternLines | app/composeApp/src/commonMain/kotlin/it/curzel/tama/pixeleditor/BrailleConverter.kt:48 | lines of patterns joined by line feeds split back into the same lines |
| KtBrailleConverter.CellDot | app/composeApp/src/commonMain/kotlin/it/curzel/tama/pixeleditor/BrailleConverter.kt:35-37 | dot (dx, dy) of cell (cx, cy) is the pixel at that offset from the cell's corner |
| KtBrailleConverter.PixelsTextShape | app/composeApp/src/commonMain/kotlin/it/curzel/tama/pixeleditor/BrailleConverter.kt:17-49 | a non-empty grid's text has ceil(rows/4) lines of ceil(columns/2) characters, and dot (dx, dy) of character (cx, cy) is raised exactly when pixel (2cx + dx, 4cy + dy) is inside and inked |
| KtBrailleConverter.EmptyGridText | app/composeApp/src/commonMain/kotlin/it/curzel/tama/pixeleditor/BrailleConverter.kt:18-20 | an empty grid, or one whose first row is empty, gives empty text |
| KtBrailleConverter.BrailleValueOfPattern | app/composeApp/src/commonMain/kotlin/it/curzel/tama/pixeleditor/BrailleConverter.kt:65 | a pattern's value is its offset from U+2800 |
| KtBrailleConverter.DecodedFrame | app/composeApp/src/commonMain/kotlin/it/curzel/tama/pixeleditor/BrailleConverter.kt:58-60 | a frame of charHeight * 4 rows of charWidth * 2 pixels |
| KtBrailleConverter.AmongStep | app/composeApp/src/commonMain/kotlin/it/curzel/tama/pixeleditor/BrailleConverter.kt:70 | the first k + 1 offsets are the first k and offset k |
| KtBrailleConverter.PixelOfCell | app/composeApp/src/commonMain/kotlin/it/curzel/tama/pixeleditor/BrailleConverter.kt:72-73 | a pixel lies in exactly one cell at exactly one offset |
| KtBrailleConverter.SetDot | app/composeApp/src/commonMain/kotlin/it/curzel/tama/pixeleditor/BrailleConverter.kt:74-76 | inking one in-frame pixel changes that dot of that cell and nothing else |
| KtBrailleConverter.NextGrid | app/composeApp/src/commonMain/kotlin/it/curzel/tama/pixeleditor/BrailleConverter.kt:70-78 | handling one offset keeps the frame's size |
| KtBrailleConverter.SetCellStep | app/composeApp/src/commonMain/kotlin/it/curzel/tama/pixeleditor/BrailleConverter.kt:70-78 | handling offset k extends the inked dots from the first k offsets to the first k + 1 |
| KtBrailleConverter.InkedUpTo | app/composeApp/src/commonMain/kotlin/it/curzel/tama/pixeleditor/BrailleConverter.kt:70-78 | handling offsets keeps the frame's size |
| KtBrailleConverter.InkedUpToDots | app/composeApp/src/commonMain/kotlin/it/curzel/tama/pixeleditor/BrailleConverter.kt:70-78 | after k offsets exactly the raised dots of the cell among them are inked, and nothing else changed |
| KtBrailleConverter.SetCell | app/composeApp/src/commonMain/kotlin/it/curzel/tama/pixeleditor/BrailleConverter.kt:64-79 | the loop inks exactly the dots the value raises, in that cell only |
| KtBrailleConverter.DecodeFrame | app/composeApp/src/commonMain/kotlin/it/curzel/tama/pixeleditor/BrailleConverter.kt:57-82 | the loops build exactly the decoded frame; characters beyond charWidth are ignored |
| KtBrailleConverter.PixelPosition | app/composeApp/src/commonMain/kotlin/it/curzel/tama/pixeleditor/BrailleConverter.kt:67-73 | pixel (x, y) is dot (x mod 2, y mod 4) of cell (x / 2, y / 4) |
| KtBrailleConverter.GridOfCells | app/composeApp/src/commonMain/kotlin/it/curzel/tama/pixeleditor/BrailleConverter.kt:58-80 | a frame-sized grid whose every cell dot is the decoded one is the decoded frame |
| KtBrailleConverter.BrailleToPixels | app/composeApp/src/commonMain/kotlin/it/curzel/tama/pixeleditor/BrailleConverter.kt:51-87 | the function builds exactly the frames BrailleFrames describes |
| KtBrailleConverter.DecodeFrames | app/composeApp/src/commonMain/kotlin/it/curzel/tama/pixeleditor/BrailleConverter.kt:55-84 | the loop builds one frame per group of charHeight lines |
| KtBrailleConverter.FramesStep | app/composeApp/src/commonMain/kotlin/it/curzel/tama/pixeleditor/BrailleConverter.kt:56-83 | one turn of the frame loop: the frame of the next group, then the rest |
| KtBrailleConverter.MoveFront | app/composeApp/src/commonMain/kotlin/it/curzel/tama/pixeleditor/BrailleConverter.kt:82 | moving the head of the rest onto the done part keeps the whole |
| KtBrailleConverter.FramesEnd | app/composeApp/src/commonMain/kotlin/it/curzel/tama/pixeleditor/BrailleConverter.kt:56 | no frames past the last line |
| KtBrailleConverter.FramesShape | app/composeApp/src/commonMain/kotlin/it/curzel/tama/pixeleditor/BrailleConverter.kt:55-84 | one frame per started group of charHeight lines, each of charHeight * 4 rows of charWidth * 2 pixels |
| KtBrailleConverter.PatternNotSpace | app/composeApp/src/commonMain/kotlin/it/curzel/tama/pixeleditor/BrailleConverter.kt:52 | a pattern is not whitespace |
| KtBrailleConverter.JoinedPatternsTrimmed | app/composeApp/src/commonMain/kotlin/it/curzel/tama/pixeleditor/BrailleConverter.kt:52 | non-empty lines of patterns joined by line feeds have nothing to trim |
| KtBrailleConverter.WholeCells | app/composeApp/src/commonMain/kotlin/it/curzel/tama/pixeleditor/BrailleConverter.kt:23-24 | a grid of whole cells is charWidth characters wide and charHeight high |
| KtBrailleConverter.FrameTextLines | app/composeApp/src/commonMain/kotlin/it/curzel/tama/pixeleditor/BrailleConverter.kt:48-52 | the text of a grid of whole cells has nothing to trim and splits back into its rows |
| KtBrailleConverter.CellReadBack | app/composeApp/src/commonMain/kotlin/it/curzel/tama/pixeleditor/BrailleConverter.kt:62-79 | reading dot (dx, dy) of character (cx, cy) back from the text gives the pixel it came from |
| KtBrailleConverter.DecodeOwnRows | app/composeApp/src/commonMain/kotlin/it/curzel/tama/pixeleditor/BrailleConverter.kt:51-87 | the rows of a grid of whole cells decode to that grid |
| KtBrailleConverter.OneFrame | app/composeApp/src/commonMain/kotlin/it/curzel/tama/pixeleditor/BrailleConverter.kt:56-84 | exactly charHeight lines make one frame |
| KtBrailleConverter.RoundTrip | app/composeApp/src/commonMain/kotlin/it/curzel/tama/pixeleditor/BrailleConverter.kt:6-86 | decoding the text of a grid whose height is a multiple of 4 and width a multiple of 2 gives back that grid as the only frame |
| KtPixelEditor.Grid | app/composeApp/src/commonMain/kotlin/it/curzel/tama/pixeleditor/PixelEditorUseCase.kt:36 | height rows of width pixels, every one set to the given value |
| KtPixelEditor.CreateEmptyFrame | app/composeApp/src/commonMain/kotlin/it/curzel/tama/pixeleditor/PixelEditorUseCase.kt:35-38 | a well-formed frame of the requested size with no pixel set |
| KtPixelEditor.ClearFrame | app/composeApp/src/commonMain/kotlin/it/curzel/tama/pixeleditor/PixelEditorUseCase.kt:40-43 | a well-formed frame of the same size with no pixel set |
| KtPixelEditor.FillFrame | app/composeApp/src/commonMain/kotlin/it/curzel/tama/pixeleditor/PixelEditorUseCase.kt:45-48 | a well-formed frame of the same size with every pixel set |
| KtPixelEditor.SameFrame | app/composeApp/src/commonMain/kotlin/it/curzel/tama/pixeleditor/PixelEditorUseCase.kt:8-19 | frames equal in size and in every pixel are equal, as the frame's equality says |
| KtPixelEditor.ClearIsEmpty | app/composeApp/src/commonMain/kotlin/it/curzel/tama/pixeleditor/PixelEditorUseCase.kt:35-48 | clearing gives the empty frame of the size; clear and fill depend on the size alone and differ exactly when the frame has a pixel |
| KtPixelEditor.SetPixel | app/composeApp/src/commonMain/kotlin/it/curzel/tama/pixeleditor/PixelEditorUseCase.kt:50-58 | outside the frame the frame comes back unchanged; inside, pixel (x, y) takes the value and every other pixel and the size are kept |
| KtPixelEditor.SetPixelUndo | app/composeApp/src/commonMain/kotlin/it/curzel/tama/pixeleditor/PixelEditorUseCase.kt:50-58 | writing the old value back undoes an edit, and repeating an edit changes nothing |
| KtPixelEditor.ValidateDimensions | app/composeApp/src/commonMain/kotlin/it/curzel/tama/pixeleditor/PixelEditorUseCase.kt:60-74 | Valid exactly for positive sizes up to 128 with an even width and a height that is a multiple of 4; otherwise the message of the first failing check in the source's order |
| KtPixelEditor.ValidateFps | app/composeApp/src/commonMain/kotlin/it/curzel/tama/pixeleditor/PixelEditorUseCase.kt:76-82 | Valid exactly for rates from 1 to 30, else the message of the broken bound |
| KtPixelEditor.ValidCanvasIsWholeCells | app/composeApp/src/commonMain/kotlin/it/curzel/tama/pixeleditor/PixelEditorUseCase.kt:60-74 | a valid canvas splits into whole braille cells, between 1x1 and 64x32 of them |
| KtPixelEditor.HalfTowardZero | app/composeApp/src/commonMain/kotlin/it/curzel/tama/pixeleditor/PixelEditorUseCase.kt:109-110 | Kotlin's Int division by 2, truncated toward zero |
| KtPixelEditor.HalfOfNegation | app/composeApp/src/commonMain/kotlin/it/curzel/tama/pixeleditor/PixelEditorUseCase.kt:109-110 | halving the negation negates the half |
| KtPixelEditor.Resized | app/composeApp/src/commonMain/kotlin/it/curzel/tama/pixeleditor/PixelEditorUseCase.kt:106-123 | a well-formed frame of the new size |
| KtPixelEditor.ResizedPixel | app/composeApp/src/commonMain/kotlin/it/curzel/tama/pixeleditor/PixelEditorUseCase.kt:112-120 | each pixel of the resized frame is the old pixel that lands on it, or clear |
| KtPixelEditor.ResizeMovesPixels | app/composeApp/src/commonMain/kotlin/it/curzel/tama/pixeleditor/PixelEditorUseCase.kt:109-118 | every old pixel moves by half the growth in each direction and is kept when it lands inside |
| KtPixelEditor.ResizedElsewhereClear | app/composeApp/src/commonMain/kotlin/it/curzel/tama/pixeleditor/PixelEditorUseCase.kt:107-118 | a pixel no old pixel lands on is clear |
| KtPixelEditor.ResizeFrame | app/composeApp/src/commonMain/kotlin/it/curzel/tama/pixeleditor/PixelEditorUseCase.kt:106-123 | the nested copy loops build exactly the resized frame |
| KtPixelEditor.ResizeSameSize | app/composeApp/src/commonMain/kotlin/it/curzel/tama/pixeleditor/PixelEditorUseCase.kt:106-123 | resizing to the same size gives the frame back |
| KtPixelEditor.GrowThenShrinkPixel | app/composeApp/src/commonMain/kotlin/it/curzel/tama/pixeleditor/PixelEditorUseCase.kt:106-123 | each pixel survives growing a frame and shrinking it back |
| KtPixelEditor.GrowThenShrink | app/composeApp/src/commonMain/kotlin/it/curzel/tama/pixeleditor/PixelEditorUseCase.kt:106-123 | growing a frame and resizing it back to its old size gives the frame back, whatever the parity of the growth |
| KtPixelEditor.WellFormedFits | app/composeApp/src/commonMain/kotlin/it/curzel/tama/pixeleditor/PixelEditorUseCase.kt:98 | a well-formed frame's rows all have the first row's length, as the braille encoder needs |
| KtPixelEditor.FrameTexts | app/composeApp/src/commonMain/kotlin/it/curzel/tama/pixeleditor/PixelEditorUseCase.kt:97-101 | one braille text per frame |
| KtPixelEditor.BlockOfOneMore | app/composeApp/src/commonMain/kotlin/it/curzel/tama/pixeleditor/PixelEditorUseCase.kt:97-101 | the text of the first i + 1 frames is that of the first i, then frame i and a line feed |
| KtPixelEditor.FramesToBrailleArt | app/composeApp/src/commonMain/kotlin/it/curzel/tama/pixeleditor/PixelEditorUseCase.kt:84-104 | the loop builds exactly the export: nothing for no frames, else the header line then each frame's text and a line feed |
| KtPixelEditor.ArtHeaderShape | app/composeApp/src/commonMain/kotlin/it/curzel/tama/pixeleditor/PixelEditorUseCase.kt:95 | the export's header is the sheet format's header line followed by the fps field |
| KtPixelEditor.ArtHeaderParses | app/composeApp/src/commonMain/kotlin/it/curzel/tama/pixeleditor/PixelEditorUseCase.kt:95 | the sheet parser reads the size in cells back from the header, and the header is one line |
| KtPixelEditor.ArtHeaderReads | app/composeApp/src/commonMain/kotlin/it/curzel/tama/pixeleditor/PixelEditorUseCase.kt:95 | the sheet parser reads the size in cells back from the header |
| KtPixelEditor.ArtHeaderRate | app/composeApp/src/commonMain/kotlin/it/curzel/tama/pixeleditor/PixelEditorUseCase.kt:95 | the content-file parser reads from the export's header the rate its fps text prints, for a plain decimal text |
| KtPixelEditor.HeaderLineRate | app/composeApp/src/commonMain/kotlin/it/curzel/tama/pixeleditor/PixelEditorUseCase.kt:95 | the first line of the header followed by any body is the header, naming that rate |
| KtPixelEditor.ExportRate | app/composeApp/src/commonMain/kotlin/it/curzel/tama/pixeleditor/PixelEditorUseCase.kt:84-104 | the first line of a non-empty export names the rate its fps text prints |
| KtPixelEditor.ArtHeaderIsLine | app/composeApp/src/commonMain/kotlin/it/curzel/tama/pixeleditor/PixelEditorUseCase.kt:95 | the header holds no line feed when the fps text holds none |
| KtPixelEditor.RowsAreGroup | app/composeApp/src/commonMain/kotlin/it/curzel/tama/pixeleditor/PixelEditorUseCase.kt:98-100 | the character rows of a frame of whole cells are charHeight whole lines whose block is the frame's text |
| KtPixelEditor.FrameRows | app/composeApp/src/commonMain/kotlin/it/curzel/tama/pixeleditor/PixelEditorUseCase.kt:97-101 | one group of character rows per frame |
| KtPixelEditor.FrameRowsAt | app/composeApp/src/commonMain/kotlin/it/curzel/tama/pixeleditor/PixelEditorUseCase.kt:98 | group k is the rows of frame k |
| KtPixelEditor.FrameTextsAt | app/composeApp/src/commonMain/kotlin/it/curzel/tama/pixeleditor/PixelEditorUseCase.kt:98 | text k is the braille text of frame k |
| KtPixelEditor.ExportGroups | app/composeApp/src/commonMain/kotlin/it/curzel/tama/pixeleditor/PixelEditorUseCase.kt:97-101 | the rows of exported frames are groups of whole lines whose frames are the frames' texts |
| KtPixelEditor.ExportLines | app/composeApp/src/commonMain/kotlin/it/curzel/tama/pixeleditor/PixelEditorUseCase.kt:94-103 | the lines of an export are its header, then every character row of every frame |
| KtPixelEditor.ExportReadsBack | app/composeApp/src/commonMain/kotlin/it/curzel/tama/pixeleditor/PixelEditorUseCase.kt:84-104 | the sheet parser reads an export back with the size from its header and one frame per exported frame, and each decodes to that frame's pixels |
| KtPixelEditor.ExportIsSheet | app/composeApp/src/commonMain/kotlin/it/curzel/tama/pixeleditor/PixelEditorUseCase.kt:84-104 | the export is the header then the blocks of the frame groups, each group whole lines that make the frame's text |
| KtPixelEditor.FpsTail | app/composeApp/src/commonMain/kotlin/it/curzel/tama/pixeleditor/PixelEditorUseCase.kt:95 | the fps field is one line starting with a comma and ending in s |
| KtPixelEditorViewModel.CoerceIn | app/composeApp/src/commonMain/kotlin/it/curzel/tama/pixeleditor/PixelEditorViewModel.kt:42 | the value when inside [lo, hi], else the bound it passed |
| KtPixelEditorViewModel.CoerceInReal | app/composeApp/src/commonMain/kotlin/it/curzel/tama/pixeleditor/PixelEditorViewModel.kt:52 | the rate when inside [lo, hi], else the bound it passed |
| KtPixelEditorViewModel.ErrorOf | app/composeApp/src/commonMain/kotlin/it/curzel/tama/pixeleditor/PixelEditorViewModel.kt:139-144 | no message exactly when valid, else the validation's message |
| KtPixelEditorViewModel.RemoveAt | app/composeApp/src/commonMain/kotlin/it/curzel/tama/pixeleditor/PixelEditorViewModel.kt:85 | the list without the element at index, the rest in order |
| KtPixelEditorViewModel.DeleteKeepsSelection | app/composeApp/src/commonMain/kotlin/it/curzel/tama/pixeleditor/PixelEditorViewModel.kt:80-92 | deleting another frame keeps the same frame selected; deleting the selected one selects its successor, or the new last frame; the selection stays in range |
| KtPixelEditorViewModel.ResizedAll | app/composeApp/src/commonMain/kotlin/it/curzel/tama/pixeleditor/PixelEditorViewModel.kt:63-65 | every frame resized to the canvas size, same count |
| KtPixelEditorViewModel.ResizedFramesExport | app/composeApp/src/commonMain/kotlin/it/curzel/tama/pixeleditor/PixelEditorViewModel.kt:59-72 | after a successful resize the export reads back frame by frame |
| KtPixelEditorViewModel.PixelEditorViewModel.constructor | app/composeApp/src/commonMain/kotlin/it/curzel/tama/pixeleditor/PixelEditorViewModel.kt:10-39 | the defaults 64x40 at 10 fps, then one blank frame, selected |
| KtPixelEditorViewModel.PixelEditorViewModel.CurrentFrame | app/composeApp/src/commonMain/kotlin/it/curzel/tama/pixeleditor/PixelEditorViewModel.kt:28-29 | the selected frame exactly when the selection is in range, always so in a valid state |
| KtPixelEditorViewModel.PixelEditorViewModel.CharWidth | app/composeApp/src/commonMain/kotlin/it/curzel/tama/pixeleditor/PixelEditorViewModel.kt:31-32 | the canvas width in cells, between 1 and 64 |
| KtPixelEditorViewModel.PixelEditorViewModel.CharHeight | app/composeApp/src/commonMain/kotlin/it/curzel/tama/pixeleditor/PixelEditorViewModel.kt:34-35 | the canvas height in cells, between 1 and 32 |
| KtPixelEditorViewModel.PixelEditorViewModel.UpdateCanvasWidth | app/composeApp/src/commonMain/kotlin/it/curzel/tama/pixeleditor/PixelEditorViewModel.kt:41-44 | the width clamped to [2, 128] and the new size's validation message; nothing else changes |
| KtPixelEditorViewModel.PixelEditorViewModel.UpdateCanvasHeight | app/composeApp/src/commonMain/kotlin/it/curzel/tama/pixeleditor/PixelEditorViewModel.kt:46-49 | the height clamped to [4, 128] and the new size's validation message; nothing else changes |
| KtPixelEditorViewModel.PixelEditorViewModel.UpdateFps | app/composeApp/src/commonMain/kotlin/it/curzel/tama/pixeleditor/PixelEditorViewModel.kt:51-57 | the rate clamped to [1, 30], which always validates, so the message is cleared |
| KtPixelEditorViewModel.PixelEditorViewModel.ResizeCanvas | app/composeApp/src/commonMain/kotlin/it/curzel/tama/pixeleditor/PixelEditorViewModel.kt:59-72 | with a valid size every frame is resized to it and the message cleared; otherwise only the message is set |
| KtPixelEditorViewModel.PixelEditorViewModel.AddFrame | app/composeApp/src/commonMain/kotlin/it/curzel/tama/pixeleditor/PixelEditorViewModel.kt:74-78 | a blank canvas-sized frame appended and selected |
| KtPixelEditorViewModel.PixelEditorViewModel.DeleteFrame | app/composeApp/src/commonMain/kotlin/it/curzel/tama/pixeleditor/PixelEditorViewModel.kt:80-92 | nothing with one frame or an index out of range; else the frame is removed and the selection follows it |
| KtPixelEditorViewModel.PixelEditorViewModel.SelectFrame | app/composeApp/src/commonMain/kotlin/it/curzel/tama/pixeleditor/PixelEditorViewModel.kt:94-98 | selects an index naming a frame, else nothing changes |
| KtPixelEditorViewModel.PixelEditorViewModel.SetPixel | app/composeApp/src/commonMain/kotlin/it/curzel/tama/pixeleditor/PixelEditorViewModel.kt:100-107 | only the selected frame changes, by the frame edit |
| KtPixelEditorViewModel.PixelEditorViewModel.ClearCurrentFrame | app/composeApp/src/commonMain/kotlin/it/curzel/tama/pixeleditor/PixelEditorViewModel.kt:109-116 | only the selected frame changes, to its cleared copy |
| KtPixelEditorViewModel.PixelEditorViewModel.FillCurrentFrame | app/composeApp/src/commonMain/kotlin/it/curzel/tama/pixeleditor/PixelEditorViewModel.kt:118-125 | only the selected frame changes, to its filled copy |
| KtPixelEditorViewModel.PixelEditorViewModel.TogglePreview | app/composeApp/src/commonMain/kotlin/it/curzel/tama/pixeleditor/PixelEditorViewModel.kt:127-129 | flips the preview flag and nothing else |
| KtPixelEditorViewModel.PixelEditorViewModel.ExportToText | app/composeApp/src/commonMain/kotlin/it/curzel/tama/pixeleditor/PixelEditorViewModel.kt:131-133 | the export sized in cells; its first line names the editor's own `fps` whenever the printed rate is a plain decimal that reads back as `fps`, as Kotlin prints every rate in [1, 30]; with canvas-sized frames of a valid size the sheet parser reads the frames back |
| KtPixelEditorViewModel.PixelEditorViewModel.ValidateCurrentDimensions | app/composeApp/src/commonMain/kotlin/it/curzel/tama/pixeleditor/PixelEditorViewModel.kt:139-144 | the canvas size's validation message; nothing else changes |
| MidiEngine.Semitone | src/midi_composer/engine.rs:635-644 | a letter's semitones above C, at most 11; any other character counts as C |
| MidiEngine.VolumeOf | src/midi_composer/engine.rs:515-522 | .N gives N/10 and no volume gives 1, always within [0, 1] |
| MidiEngine.NoteToMidiNumber | src/midi_composer/engine.rs:634-650 | 12 + 12 * octave + semitone + sharp, clamped to 0..127; unclamped for the letters in octaves up to 8 |
| MidiEngine.DurationToSeconds | src/midi_composer/engine.rs:652-655 | (4 / value) * (60 / bpm): finite exactly when both are positive, and then seconds * value * bpm == 240 |
| MidiEngine.DurationExamples | src/midi_composer/engine.rs:1081-1097 | a quarter, an eighth and a whole note at 120 bpm last 0.5, 0.25 and 2 seconds |
| MidiEngine.NoteModifiers | src/midi_composer/engine.rs:451-525 | an accepted octave lies in 1..8 and the volume in [0, 1]; a first character that is no digit, waveform letter or dot is rejected |
| MidiEngine.ParseNoteModifiers | src/midi_composer/engine.rs:451-525 | the loops compute exactly the modifiers NoteModifiers describes |
| MidiEngine.ArpeggioMember | src/midi_composer/engine.rs:551-578 | a #x member is x sharp in octave 4, unchecked; a member whose letter is not a-g is rejected; pitches stay within 0..127 |
| MidiEngine.LegacyArpeggioMember | src/midi_composer/engine.rs:145-180 | a member of the private parser has a pitch between 12 and 108 |
| MidiEngine.MemberPitches | src/midi_composer/engine.rs:145-180 | on success one pitch per member, after those already read |
| MidiEngine.ArpeggioTail | src/midi_composer/engine.rs:581-601 | the loop after ) keeps the last waveform letter and stops at a .N volume |
| MidiEngine.Arpeggio | src/midi_composer/engine.rs:527-632 | no ) is an error; an accepted arpeggio is a pitchless note with one pitch per member; the private parser keeps the default waveform and volume |
| MidiEngine.ParseArpeggio | src/midi_composer/engine.rs:527-632 | the parsing loops compute exactly Arpeggio |
| MidiEngine.ReadMembers | src/midi_composer/engine.rs:551-579 | the member loop computes each member's pitch in order, or the first member's error |
| MidiEngine.ReadArpeggioTail | src/midi_composer/engine.rs:581-601 | the loop over the text after ) computes ArpeggioTail |
| MidiEngine.ParseNoteText | src/midi_composer/engine.rs:338-410 | an empty note is an error, and a note without a duration is an error quoting the trimmed note; an accepted note has a volume in [0, 1] and a pitch the clamp allows |
| MidiEngine.NoteAfterValue | src/midi_composer/engine.rs:363-410 | after the value: an arpeggio, a rest or a pitched note, with a volume in [0, 1] |
| MidiEngine.SingleNote | src/midi_composer/engine.rs:367-410 | an optional #, then - for a rest or a letter and its modifiers |
| MidiEngine.PitchedNote | src/midi_composer/engine.rs:395-409 | a pitched note without arpeggio; its pitch lies in 24..120, or 12..108 in the private parser |
| MidiEngine.ParseNote | src/midi_composer/engine.rs:338-410 | the peek loop and the branches compute exactly ParseNoteText |
| MidiEngine.CountLeadingDigits | src/midi_composer/engine.rs:347-353 | the peek loop counts the leading digits |
| MidiEngine.ParseNoteBody | src/midi_composer/engine.rs:363-410 | the branches after the value compute exactly NoteAfterValue |
| MidiEngine.WaveformLetter | src/midi_composer/engine.rs:506-513 | the letter of each waveform selects that waveform |
| MidiEngine.ModifiersRoundTrip | src/midi_composer/engine.rs:451-525 | the modifier text written for an octave, waveform and volume digit parses back to them |
| MidiEngine.NoteAfterValueRoundTrip | src/midi_composer/engine.rs:363-410 | the text after the value of a canonical note parses back to its fields |
| MidiEngine.FormatNoteRoundTrip | src/midi_composer/engine.rs:338-410 | parsing the canonical text of a note gives back every field written into it |
| MidiEngine.QuotedMissingDuration | src/midi_composer/engine.rs:338-357 | " c4 " fails with "Missing duration in note: 'c4'", quoting the trimmed note |
| MidiEngine.QuotedInvalidLetter | src/midi_composer/engine.rs:338-392 | "4H" fails with "Invalid note letter: 'h'", quoting the lower-cased letter |
| MidiEngine.QuotedOctave | src/midi_composer/engine.rs:338-410 | "4c9" fails with "Octave out of range (1-8): 9" |
| MidiEngine.Collect | src/midi_composer/engine.rs:435-445 | on success the notes so far, then one note per result |
| MidiEngine.CollectAt | src/midi_composer/engine.rs:435-445 | each collected note is the value of the result at its own position |
| MidiEngine.CollectFails | src/midi_composer/engine.rs:435-445 | the call fails with the error of the first failing token |
| MidiEngine.ScanChar | src/midi_composer/engine.rs:419-441 | one character of the loop computes the scan step: the new token state and the note token it ends |
| MidiEngine.CollectStep | src/midi_composer/engine.rs:418-446 | one character of the scan: the token it ends, if any, is parsed and collected before the rest |
| MidiEngine.ParseNotes | src/midi_composer/engine.rs:412-449 | the loop computes exactly the notes of the note tokens, or the first bad note's error |
| MidiEngine.ScanPlainRun | src/midi_composer/engine.rs:439-441 | a run of plain characters is appended to the current token |
| MidiEngine.ScanInsideParens | src/midi_composer/engine.rs:425-427 | inside parentheses whitespace stays in the token |
| MidiEngine.ParenthesisedGroupIsOneToken | src/midi_composer/engine.rs:419-427 | a parenthesised group, whitespace included, becomes part of one token and the scan leaves it outside parentheses |
| MidiEngine.NoteTokenIsParsed | src/midi_composer/engine.rs:428-437 | a plain token that is not a flag, followed by a space, is the next note token |
| MidiEngine.FlagToken | src/midi_composer/engine.rs:430-431 | a flag token and the space after it set the skip state |
| MidiEngine.FlagSkipsNextToken | src/midi_composer/engine.rs:429-437 | a flag and the token after it produce no note |
| MidiEngine.ValidateMidiComposition | src/midi_composer/engine.rs:332-336 | the private parser at 120 bpm |
| MidiEngine.SampleCount | src/midi_composer/engine.rs:776 | the float-to-usize cast: truncation toward zero, saturating at 0 and at the largest usize; a buffer of the saturated count is never allocated (GenerateSamples) |
| MidiEngine.GenerateSamples | src/midi_composer/engine.rs:661-668 | the loop over the notes: their total sample count when every duration is finite, otherwise the panic "capacity overflow" of the first note of infinite duration |
| MidiEngine.ArpeggioNoLonger | src/midi_composer/engine.rs:747-764 | splitting a note into arpeggio members never makes it longer than the note |
| MidiEngine.RestSampleCount | src/midi_composer/engine.rs:775-778 | a quarter rest at 120 bpm is 24000 samples of silence |
| MidiEngine.MaxLength | src/midi_composer/engine.rs:851-861 | the length of the longest buffer, reached by one of them, or 0 for none |
| MidiEngine.MixChannels | src/midi_composer/engine.rs:844-871 | no channels is the error "No channels to play"; otherwise a buffer as long as the longest channel whose sample i is the sum of the channels' samples at i |
| MidiEngine.MixOneChannel | src/midi_composer/engine.rs:865-871 | mixing a single channel gives it back |
| MidiEngine.WithChannelProperties | src/midi_composer/engine.rs:896-902 | applying a channel is idempotent, keeps pitch, duration, waveform and arpeggio, keeps a note's own volume, and always sets adsr and vibrato |
| MidiEngine.ApplyChannel | src/midi_composer/engine.rs:896-902 | the loop applies the channel to every note in place |
| MidiEngine.ChannelNotes | src/midi_composer/engine.rs:906-919 | on success one note list per channel, after those already read |
| MidiEngine.ChannelNotesAt | src/midi_composer/engine.rs:906-919 | the channels from k on all parse exactly when ChannelNotes succeeds, and its list j is channel j's notes with the channel's overrides |
| MidiEngine.MapWithChannelFinite | src/midi_composer/engine.rs:896-902 | overriding the channel settings keeps every duration, so the notes stay finite exactly when they were |
| MidiEngine.ChannelNotesCarry | src/midi_composer/engine.rs:908-919 | each channel's notes carry that channel's settings |
| MidiEngine.ArrangeCarriesChannels | src/midi_composer/engine.rs:892-922 | every note played carries its channel's adsr and vibrato, as one sequence or one list per channel |
| MidiEngine.SingleChannelPanics | src/midi_composer/engine.rs:892-904 | a single flagless channel that parses plays exactly when all its notes have finite durations; otherwise the call fails with "capacity overflow" |
| MidiEngine.MixedChannelsPanic | src/midi_composer/engine.rs:905-922 | mixed channels that all parse play exactly when no note of any channel has an infinite duration; otherwise the call fails with "capacity overflow" |
| MidiEngine.ChannelsPlayed | src/midi_composer/engine.rs:906-921 | when every channel parses, ChannelNotes succeeds and its lists are all finite exactly when the parsed lists are |
| MidiEngine.PlaybackUsesTempo | src/midi_composer/engine.rs:883-923 | a successful call parsed the flags and plays at the tempo they set |
| MidiEngine.Engine.constructor | src/midi_composer/engine.rs:318-328 | an engine at the given tempo |
| MidiEngine.Engine.ParseAndPlay | src/midi_composer/engine.rs:883-923 | the playback PlaybackOf describes, a bad note failing with the engine's own message, which quotes the note, character or octave, and a note of infinite duration with "capacity overflow"; the tempo becomes the one the input sets |
| MidiEngine.Play | src/midi_composer/engine.rs:892-922 | the playback Arrange describes for the parsed channels, or the message of the first bad note, quoting the note, character or octave as the engine does, or "capacity overflow" once every note has parsed and one has an infinite duration |
| MidiChannels.Tokens | app/composeApp/src/commonMain/kotlin/it/curzel/tama/midi/MidiFlags.kt:16-17 | the whitespace-separated words; only the Kotlin split of blank text gives one empty token |
| MidiChannels.RunEnd | src/midi_composer/channels.rs:96-102 | the end of the run of tokens not starting with --: every token before it is a note token, the one at it a flag |
| MidiChannels.RunTextIsJoin | src/midi_composer/channels.rs:95-102 | the composition of a run is its tokens joined by single spaces |
| MidiChannels.RawStep | src/midi_composer/channels.rs:30-139 | one pass of the loop as written never moves the index back and only appends channels |
| MidiChannels.UnknownFlagStalls | src/midi_composer/channels.rs:93-138 | an unknown -- token outside a pending --channel leaves the index and the whole loop state unchanged, so the loop never ends |
| MidiChannels.OnlyUnknownFlagStalls | src/midi_composer/channels.rs:93-138 | that token is the only way the loop as written fails to advance |
| MidiChannels.Step | src/midi_composer/channels.rs:30-139 | one pass with an unknown flag skipped strictly advances the index and only appends channels |
| MidiChannels.Finish | src/midi_composer/channels.rs:143-151 | a pending --channel or no channel at all is an error; otherwise the channels and the last --bpm |
| MidiChannels.StepWellFormed | src/midi_composer/channels.rs:30-139 | a pass keeps channel texts non-empty, volumes in [0, 1] and the bpm in 1..300 |
| MidiChannels.FlagWellFormed | src/midi_composer/channels.rs:34-92 | each flag keeps the loop state well formed |
| MidiChannels.RunWellFormed | src/midi_composer/channels.rs:93-138 | a note run keeps the loop state well formed |
| MidiChannels.Scan | src/midi_composer/channels.rs:30-151 | a successful parse ends with at least one channel, after those already found |
| MidiChannels.ScanAt | src/midi_composer/channels.rs:30-139 | a failing pass fails the parse, a successful one continues it |
| MidiChannels.ReadRun | src/midi_composer/channels.rs:95-102 | the inner loop computes the run's composition and where it ends |
| MidiChannels.VolumeToken | src/midi_composer/channels.rs:34-52 | the `--volume` branch computes exactly Step: a missing, unreadable or out-of-range value is its error, otherwise the value goes to the pending channel or the global flags |
| MidiChannels.BpmToken | src/midi_composer/channels.rs:53-71 | the `--bpm` branch computes exactly Step: a missing, unreadable or out-of-range tempo is its error, otherwise it replaces the tempo |
| MidiChannels.ScanToken | src/midi_composer/channels.rs:30-139 | one turn of the loop body computes exactly Step: the next index and loop variables, or the flag's error |
| MidiChannels.ParseChannels | src/midi_composer/channels.rs:16-151 | the loops compute exactly the channels in input order and the last --bpm, or the first error |
| MidiChannels.BlankInputFails | src/midi_composer/channels.rs:17-21 | blank input is "Empty input" in Rust, and no channel at all in Kotlin |
| MidiChannels.ScanWellFormed | src/midi_composer/channels.rs:30-151 | a successful parse has non-empty compositions, volumes in [0, 1] and a bpm in 1..300 |
| MidiChannels.ChannelsWellFormed | src/midi_composer/channels.rs:16-151 | every channel parse_channels returns has a non-empty composition and a volume in [0, 1], and the bpm lies in 1..300 |
| MidiChannels.VolumeFlag | src/midi_composer/channels.rs:34-52 | --volume takes the next token as a number in [0, 1], in decimal or exponent notation, for the pending channel or globally; a missing, non-numeric or out-of-range value is an error |
| Text.NegativeExponent | src/midi_composer/channels.rs:38-40 | `5e-1` is read as 0.5, as an `f32` parse reads it |
| Text.FractionWithExponent | src/midi_composer/channels.rs:38-40 | `2.5E1` is read as 25 |
| Text.FractionMantissa | src/midi_composer/channels.rs:38-40 | the mantissa `2.5` is read as whole digits, a point and fraction digits, 2.5 |
| MidiChannels.BpmFlag | src/midi_composer/channels.rs:53-67 | --bpm takes the next token as an integer in 1..300 and replaces any earlier one |
| MidiChannels.ChannelFlag | src/midi_composer/channels.rs:84-92 | --channel opens a channel with fresh flags; an error only while an opened channel is unfilled and none exists yet |
| MidiChannels.NoteRun | src/midi_composer/channels.rs:93-138 | a run of note tokens becomes one channel of the run joined by spaces, with the channel's flags over the global ones after --channel, else the global ones |
| KtMidiParser.Int32 | app/composeApp/src/commonMain/kotlin/it/curzel/tama/midi/MidiParser.kt:219 | a Kotlin Int result: inside [-2^31, 2^31), and unchanged when the exact value fits |
| KtMidiParser.WrappingMidiNumber | app/composeApp/src/commonMain/kotlin/it/curzel/tama/midi/MidiParser.kt:212-221 | noteToMidiNumber as written, in wrapping 32-bit arithmetic, clamped to 0..127 |
| KtMidiParser.OctaveOverflowWraps | app/composeApp/src/commonMain/kotlin/it/curzel/tama/midi/MidiParser.kt:219-220 | c at octave 357913942 wraps to 20 where the exact clamp gives 127 |
| KtMidiParser.WrappingAgreesBelowOverflow | app/composeApp/src/commonMain/kotlin/it/curzel/tama/midi/MidiParser.kt:212-221 | below the overflow the wrapping formula and the exact clamp agree |
| KtMidiParser.HighOctavesClamp | app/composeApp/src/commonMain/kotlin/it/curzel/tama/midi/MidiParser.kt:219-220 | with exact arithmetic every octave from 10 on gives the top note 127 |
| KtMidiParser.Tail | app/composeApp/src/commonMain/kotlin/it/curzel/tama/midi/MidiParser.kt:93-109 | an optional waveform letter then . and an optional digit; the volume stays in [0, 1]; anything else leaves square and full volume |
| KtMidiParser.IntOf | app/composeApp/src/commonMain/kotlin/it/curzel/tama/midi/MidiParser.kt:42 | toInt on a digit run: its value exactly when it fits an Int, else the overflow exception |
| KtMidiParser.OctaveDigits | app/composeApp/src/commonMain/kotlin/it/curzel/tama/midi/MidiParser.kt:84-91 | the octave digits, 4 when there are none |
| KtMidiParser.NoteOf | app/composeApp/src/commonMain/kotlin/it/curzel/tama/midi/MidiParser.kt:24-123 | empty and missing-duration errors; an accepted note has no adsr or vibrato, a volume in [0, 1] and a pitch in 0..127 from the wrapping Int formula |
| KtMidiParser.DurationThen | app/composeApp/src/commonMain/kotlin/it/curzel/tama/midi/MidiParser.kt:38-46 | a duration beyond Int fails the note; otherwise the note after that duration |
| KtMidiParser.NoteAfterDuration | app/composeApp/src/commonMain/kotlin/it/curzel/tama/midi/MidiParser.kt:44-123 | the note after the duration has the duration of that value at the tempo |
| KtMidiParser.LetterNote | app/composeApp/src/commonMain/kotlin/it/curzel/tama/midi/MidiParser.kt:48-123 | an optional #, then - for a rest or a letter, its octave and the tail |
| KtMidiParser.PitchedNote | app/composeApp/src/commonMain/kotlin/it/curzel/tama/midi/MidiParser.kt:78-122 | a letter read: a pitched note whose pitch is the wrapping Int formula, clamped, and the tempo's duration |
| KtMidiParser.MemberPitch | app/composeApp/src/commonMain/kotlin/it/curzel/tama/midi/MidiParser.kt:150-176 | a member's pitch is the wrapping Int formula, clamped; an empty member fails with the index exception |
| KtMidiParser.MemberRun | app/composeApp/src/commonMain/kotlin/it/curzel/tama/midi/MidiParser.kt:150-176 | on success one pitch per member, after those already read |
| KtMidiParser.MemberRunPitches | app/composeApp/src/commonMain/kotlin/it/curzel/tama/midi/MidiParser.kt:150-176 | each member contributes its own pitch, in member order |
| KtMidiParser.ArpeggioOf | app/composeApp/src/commonMain/kotlin/it/curzel/tama/midi/MidiParser.kt:125-210 | no ) is an error; an accepted arpeggio is pitchless with one entry per member and the tempo's duration |
| KtMidiParser.BlankArpeggioFails | app/composeApp/src/commonMain/kotlin/it/curzel/tama/midi/MidiParser.kt:144-159 | a blank arpeggio fails on reading its missing first member, not with the empty-arpeggio error |
| KtMidiParser.NoteOfDigitsThen | app/composeApp/src/commonMain/kotlin/it/curzel/tama/midi/MidiParser.kt:30-46 | a token of duration digits and a non-digit rest is the rest read after that duration |
| KtMidiParser.DurationTooLarge | app/composeApp/src/commonMain/kotlin/it/curzel/tama/midi/MidiParser.kt:42 | a duration that does not fit an Int fails the note, whatever follows |
| KtMidiParser.RestTooLarge | app/composeApp/src/commonMain/kotlin/it/curzel/tama/midi/MidiParser.kt:42-71 | a rest whose duration is beyond Int is rejected too |
| KtMidiParser.RestAfterDuration | app/composeApp/src/commonMain/kotlin/it/curzel/tama/midi/MidiParser.kt:60-71 | a - right after the duration is a rest of that duration |
| KtMidiParser.RestToken | app/composeApp/src/commonMain/kotlin/it/curzel/tama/midi/MidiParser.kt:24-71 | duration digits and - give no pitch, the square wave and full volume |
| KtMidiParser.OctaveUnchecked | app/composeApp/src/commonMain/kotlin/it/curzel/tama/midi/MidiParser.kt:84-111 | octave digits are not range-checked: any octave that fits an Int is accepted and goes through the wrapping Int formula |
| KtMidiParser.OctaveOnly | app/composeApp/src/commonMain/kotlin/it/curzel/tama/midi/MidiParser.kt:84-122 | octave digits with nothing after them: the wrapping formula's pitch for that octave, the square wave and full volume |
| KtMidiParser.ParsedOctaveWraps | app/composeApp/src/commonMain/kotlin/it/curzel/tama/midi/MidiParser.kt:84-122 | as written, `c` at octave 357913942 is parsed with pitch 20 |
| KtMidiParser.Successes | app/composeApp/src/commonMain/kotlin/it/curzel/tama/midi/MidiParser.kt:232-239 | the notes among the results, never more than the results |
| KtMidiParser.AllSucceed | app/composeApp/src/commonMain/kotlin/it/curzel/tama/midi/MidiParser.kt:228-242 | when every token parses there is one note per token, in order |
| KtMidiParser.AllFail | app/composeApp/src/commonMain/kotlin/it/curzel/tama/midi/MidiParser.kt:228-242 | when no token parses there are no notes |
| KtMidiParser.Parser.constructor | app/composeApp/src/commonMain/kotlin/it/curzel/tama/midi/MidiParser.kt:22 | the tempo starts at 120 |
| KtMidiParser.Parser.ParseNote | app/composeApp/src/commonMain/kotlin/it/curzel/tama/midi/MidiParser.kt:24-123 | the scanning code computes exactly NoteOf at the current tempo, wrapping Int pitch included |
| KtMidiParser.Parser.ParseAfterDuration | app/composeApp/src/commonMain/kotlin/it/curzel/tama/midi/MidiParser.kt:44-123 | the code after the duration computes exactly NoteAfterDuration |
| KtMidiParser.Parser.ParseArpeggio | app/composeApp/src/commonMain/kotlin/it/curzel/tama/midi/MidiParser.kt:125-210 | the loops compute exactly ArpeggioOf |
| KtMidiParser.Parser.ParseComposition | app/composeApp/src/commonMain/kotlin/it/curzel/tama/midi/MidiParser.kt:228-242 | the loop keeps the notes of the tokens that parse, in order, and drops the others |
| JsMidi.NoteOf | static/midi.js:7-84 | an empty note is an error; an accepted note has no adsr or vibrato, a volume in [0, 1] and a clamped pitch |
| JsMidi.NoteAfterDuration | static/midi.js:27-84 | the note after the duration has the duration of that value at the tempo |
| JsMidi.LetterNote | static/midi.js:31-84 | an optional #, then - for a rest or a letter, octave digits and the tail |
| JsMidi.MemberPitch | static/midi.js:112-136 | a member's pitch is clamped; an empty member or a lone # fails with the TypeError of the missing letter |
| JsMidi.MemberRun | static/midi.js:111-137 | on success one pitch per member, after those already read |
| JsMidi.MemberRunPitches | static/midi.js:111-137 | each member contributes its own pitch, in member order |
| JsMidi.ArpeggioOf | static/midi.js:86-158 | no ) is an error; an accepted arpeggio is pitchless with one entry per member and the tempo's duration |
| JsMidi.BlankArpeggioFails | static/midi.js:105-121 | an empty arpeggio fails reading its missing first letter; the empty-arpeggio check never fires |
| JsMidi.NoteOfDigitsThen | static/midi.js:13-28 | a note of duration digits and a non-digit rest is the rest read after that duration |
| JsMidi.RestAfterDuration | static/midi.js:42-45 | a - right after the duration is a rest of that duration |
| JsMidi.LongDurationRest | static/midi.js:25 | durations have no Int limit: where the Kotlin parser overflows this one reads the whole number |
| JsMidi.RestToken | static/midi.js:7-45 | duration digits and - are a rest of that duration, however long the digit run |
| JsMidi.AgreesWithKotlin | static/midi.js:46-84 | when the Kotlin pitch formula does not overflow Int, the JavaScript and Kotlin parsers agree on a plain note |
| JsMidi.FlagArgumentIsANote | static/midi.js:244-255 | a flag token adds no note, and the token after it is read as a note like any other |
| JsMidi.JsSampleCount | static/midi.js:193 | floor(48000 * duration) exists exactly when the duration is finite |
| JsMidi.NoteSamplesLength | static/midi.js:177-203 | a note's buffer exists exactly when its duration is finite, and has the note's sample count; an infinite rest throws "Invalid array length", an infinite pitched or arpeggio note never returns |
| JsMidi.MemberSamplesLength | static/midi.js:178-188 | the arpeggio's buffer is one share-length block per member |
| JsMidi.NotesSamplesLength | static/midi.js:260-270 | the audio buffer exists exactly when every note has a sample count, and its length is their sum |
| JsMidi.SamplesIffFinite | static/midi.js:260-270 | the audio buffer exists exactly when every note's duration is finite, whatever the waveform generator |
| JsMidi.FirstInfiniteDecides | static/midi.js:177-203 | the first note of infinite duration decides the outcome: a rest throws "Invalid array length", a pitched or arpeggio note never returns, whatever follows |
| JsMidi.ZeroDurationNotes | static/midi.js:240-255 | the compositions `0c` and `0-` parse to one note each, a middle C and a rest, both of infinite duration |
| JsMidi.ZeroNoteDiverges | static/midi.js:193-203 | generateAudioBuffer never returns on `0c` and throws "Invalid array length" on `0-`, at any tempo |
| JsMidi.QuarterRest | static/midi.js:192-195 | a quarter rest at 120 bpm is 24000 zeros |
| JsMidi.FailurePersists | static/midi.js:264-267 | once a prefix of the notes has no buffer, the outcome of the first note without one (thrown or diverging) is the result |
| JsMidi.Synthesizer.constructor | static/midi.js:2-5 | the sample rate 48000 and the tempo 120 |
| JsMidi.Synthesizer.ParseNote | static/midi.js:7-84 | the scanning code computes exactly NoteOf |
| JsMidi.Synthesizer.ParseAfterDuration | static/midi.js:27-84 | the code after the duration computes exactly NoteAfterDuration |
| JsMidi.Synthesizer.ParseArpeggio | static/midi.js:86-158 | the loops compute exactly ArpeggioOf |
| JsMidi.Synthesizer.ParseToken | static/midi.js:244-254 | a -- token is skipped; any other is parsed as a note |
| JsMidi.Synthesizer.ParseComposition | static/midi.js:240-258 | the notes of the tokens that are not flags and parse, in order |
| JsMidi.Synthesizer.ParseTokens | static/midi.js:244-255 | the loop appends each token's note, if any, in order |
| JsMidi.Synthesizer.GenerateNoteSamples | static/midi.js:177-203 | the note's samples, its RangeError or its divergence, as NoteSamples describes |
| JsMidi.Synthesizer.GenerateAudioBuffer | static/midi.js:260-270 | the samples of the composition's notes, or the outcome of its first note of infinite duration (see FirstInfiniteDecides) |
| JsMidi.RenderNotes | static/midi.js:264-267 | the loop appends each note's samples in turn; a note that throws or never returns ends it with that outcome |
| JsMidi.ClampVolume | static/midi.js:345 | the volume clamped into [0, 1], unchanged when inside |
| JsMidi.Player.Gain | static/midi.js:346-370 | zero while muted, the volume otherwise |
| JsMidi.Player.constructor | static/midi.js:274-282 | full volume, not muted |
| JsMidi.Player.SetVolume | static/midi.js:344-349 | the volume clamped; the mute state kept |
| JsMidi.Player.GetVolume | static/midi.js:351-353 | the current volume, within [0, 1] |
| JsMidi.Player.Mute | static/midi.js:355-363 | muted, remembering the volume only when it was not muted already |
| JsMidi.Player.Unmute | static/midi.js:365-372 | unmuted, the volume kept |
| JsMidi.Player.ToggleMute | static/midi.js:374-381 | flips the mute state and returns it; the volume is kept, and the volume remembered for unmuting is the current one when it mutes and unchanged when it unmutes |
| JsMidi.MuteRoundTrip | static/midi.js:355-381 | muting twice is muting once, and muting then unmuting restores the gain |
| KtMidiSynthesizer.KtSampleCount | app/composeApp/src/commonMain/kotlin/it/curzel/tama/midi/MidiSynthesizer.kt:127 | the Double-to-Int cast: truncation toward zero, capped at the largest Int |
| KtMidiSynthesizer.KtCountCapsRustCount | app/composeApp/src/commonMain/kotlin/it/curzel/tama/midi/MidiSynthesizer.kt:127 | the Kotlin count is the terminal player's count of the same duration, capped at the largest Int |
| KtMidiSynthesizer.Zeros | app/composeApp/src/commonMain/kotlin/it/curzel/tama/midi/MidiSynthesizer.kt:128 | n samples of silence |
| KtMidiSynthesizer.MemberSamplesLength | app/composeApp/src/commonMain/kotlin/it/curzel/tama/midi/MidiSynthesizer.kt:98-115 | the arpeggio's buffer is one share-length block per member |
| KtMidiSynthesizer.NoteSamplesLength | app/composeApp/src/commonMain/kotlin/it/curzel/tama/midi/MidiSynthesizer.kt:97-130 | a note's samples exist exactly when its duration is finite, an infinite one throwing OutOfMemoryError; they are as many as its duration gives, and a finite rest is that many zeros |
| KtMidiSynthesizer.NotesSamplesFail | app/composeApp/src/commonMain/kotlin/it/curzel/tama/midi/MidiSynthesizer.kt:17-22 | a run of notes renders exactly when none has an infinite duration; otherwise it throws OutOfMemoryError |
| KtMidiSynthesizer.NotesSamplesLength | app/composeApp/src/commonMain/kotlin/it/curzel/tama/midi/MidiSynthesizer.kt:17-24 | the buffer of a note sequence, when it exists, is as long as its notes together |
| KtMidiSynthesizer.QuarterRestSamples | app/composeApp/src/commonMain/kotlin/it/curzel/tama/midi/MidiSynthesizer.kt:126-129 | a quarter rest at 120 bpm is 24000 zeros, as in the terminal player |
| KtMidiSynthesizer.ChannelBufferAt | app/composeApp/src/commonMain/kotlin/it/curzel/tama/midi/MidiSynthesizer.kt:64-83 | when the channels render, buffer k is channel k played on its own |
| KtMidiSynthesizer.ChannelBuffersFail | app/composeApp/src/commonMain/kotlin/it/curzel/tama/midi/MidiSynthesizer.kt:64-83 | the channels render exactly when none of their notes has an infinite duration; otherwise they throw OutOfMemoryError |
| KtMidiSynthesizer.Mix | app/composeApp/src/commonMain/kotlin/it/curzel/tama/midi/MidiSynthesizer.kt:85-91 | the index-wise sum of the buffers, as long as the longest |
| KtMidiSynthesizer.FlaglessPath | app/composeApp/src/commonMain/kotlin/it/curzel/tama/midi/MidiSynthesizer.kt:6-25 | a flagless composition leaves the tempo alone and fails exactly when one of its parsable notes has an infinite duration; without a parsable note the buffer is empty; every failure is the flag language's error or OutOfMemoryError |
| KtMidiSynthesizer.FlaggedPath | app/composeApp/src/commonMain/kotlin/it/curzel/tama/midi/MidiSynthesizer.kt:35-94 | with flags that parse, the buffer exists exactly when no channel has a note of infinite duration, and otherwise the call throws OutOfMemoryError |
| KtMidiSynthesizer.FlaggedBufferFail | app/composeApp/src/commonMain/kotlin/it/curzel/tama/midi/MidiSynthesizer.kt:42-94 | parsed channels play exactly when none of their notes has an infinite duration; otherwise OutOfMemoryError |
| KtMidiSynthesizer.AudioBufferFlagged | app/composeApp/src/commonMain/kotlin/it/curzel/tama/midi/MidiSynthesizer.kt:6-8 | with flags that parse, the buffer is the flagged one for the parsed channels at the new tempo |
| KtMidiSynthesizer.ZeroRestThrows | app/composeApp/src/commonMain/kotlin/it/curzel/tama/midi/MidiSynthesizer.kt:126-128 | the rest `0-` throws OutOfMemoryError at any tempo |
| KtMidiSynthesizer.FlaglessLength | app/composeApp/src/commonMain/kotlin/it/curzel/tama/midi/MidiSynthesizer.kt:11-24 | a flagless buffer, when it exists, is as long as its notes together |
| KtMidiSynthesizer.MixedChannels | app/composeApp/src/commonMain/kotlin/it/curzel/tama/midi/MidiSynthesizer.kt:60-94 | several channels, or any --channel, are mixed: the buffer exists exactly when every channel renders, is as long as the longest channel, and has as sample i the sum of the channels' samples at i |
| KtMidiSynthesizer.TempoPersists | app/composeApp/src/commonMain/kotlin/it/curzel/tama/midi/MidiSynthesizer.kt:38-40 | a --bpm in a composition whose flags parse becomes the parser's tempo for good, within 1..300 |
| KtMidiSynthesizer.GenerateNoteSamples | app/composeApp/src/commonMain/kotlin/it/curzel/tama/midi/MidiSynthesizer.kt:97-130 | exactly NoteSamples: OutOfMemoryError for an infinite duration, otherwise the arpeggio, pitch or rest branch |
| KtMidiSynthesizer.RenderNotes | app/composeApp/src/commonMain/kotlin/it/curzel/tama/midi/MidiSynthesizer.kt:17-22 | the loop appends each note's samples in order, the first note that throws ending it |
| KtMidiSynthesizer.GenerateAudioBuffer | app/composeApp/src/commonMain/kotlin/it/curzel/tama/midi/MidiSynthesizer.kt:6-25 | the buffer AudioBufferOf describes, OutOfMemoryError included, and the parser's tempo after the call |
| KtMidiSynthesizer.PlayFlagged | app/composeApp/src/commonMain/kotlin/it/curzel/tama/midi/MidiSynthesizer.kt:42-94 | a single flagless channel played as it is, otherwise the channels mixed, or the exception of the first note that throws |
| KtMidiSynthesizer.RenderChannels | app/composeApp/src/commonMain/kotlin/it/curzel/tama/midi/MidiSynthesizer.kt:64-83 | the loop renders each channel into its own buffer, the first channel that throws ending it |
| KtMidiSynthesizer.ChannelStep | app/composeApp/src/commonMain/kotlin/it/curzel/tama/midi/MidiSynthesizer.kt:64-83 | one more channel appends its buffer, or its exception becomes the result |
| KtMidiSynthesizer.ChannelsFailurePersists | app/composeApp/src/commonMain/kotlin/it/curzel/tama/midi/MidiSynthesizer.kt:64-83 | once the first k channels throw, the whole rendering throws the same exception |
| KtMidiSynthesizer.PlayChannel | app/composeApp/src/commonMain/kotlin/it/curzel/tama/midi/MidiSynthesizer.kt:65-79 | one channel parsed, overridden and rendered, or the exception of its first note that throws |
| KtMidiComposer.MatchToken | app/composeApp/src/commonMain/kotlin/it/curzel/tama/midi/MidiComposerUseCase.kt:73-76 | a match has well-formed parts that render back to the token |
| KtMidiComposer.MatchRender | app/composeApp/src/commonMain/kotlin/it/curzel/tama/midi/MidiComposerUseCase.kt:117-120 | every text the expression describes matches, with the parts it was built from |
| KtMidiComposer.MidiNumberRange | app/composeApp/src/commonMain/kotlin/it/curzel/tama/midi/MidiComposerUseCase.kt:101-112 | one octave digit keeps the number within 12..132, so it can leave the MIDI range; the clamping parsers agree wherever it stays within 127; middle C is 60 |
| KtMidiComposer.ParseDuration | app/composeApp/src/commonMain/kotlin/it/curzel/tama/midi/MidiComposerUseCase.kt:92-95 | 2000 ms divided by the duration with integer division; a duration of 0 throws |
| KtMidiComposer.DurationExamples | app/composeApp/src/commonMain/kotlin/it/curzel/tama/midi/MidiComposerUseCase.kt:92-95 | 1, 4, 3 and 2001 give 2000, 500, 666 and 0 ms |
| KtMidiComposer.ParseNoteToken | app/composeApp/src/commonMain/kotlin/it/curzel/tama/midi/MidiComposerUseCase.kt:69-86 | nothing for a blank or non-matching token; a note has velocity 100 and a number within 12..132 |
| KtMidiComposer.PlayableTokenYields | app/composeApp/src/commonMain/kotlin/it/curzel/tama/midi/MidiComposerUseCase.kt:69-86 | a token yields a note exactly when it matches and its duration neither overflows nor is 0 |
| KtMidiComposer.NotesOfTokens | app/composeApp/src/commonMain/kotlin/it/curzel/tama/midi/MidiComposerUseCase.kt:61-64 | the notes of the matching tokens in order, the others dropped; an exception ends the call |
| KtMidiComposer.NotesOfTokensConcat | app/composeApp/src/commonMain/kotlin/it/curzel/tama/midi/MidiComposerUseCase.kt:61-64 | parsing two runs of tokens is parsing each and concatenating the notes |
| KtMidiComposer.EveryTokenANote | app/composeApp/src/commonMain/kotlin/it/curzel/tama/midi/MidiComposerUseCase.kt:61-64 | every token gives a note exactly when the parse succeeds with one note per token |
| KtMidiComposer.PlayableNotes | app/composeApp/src/commonMain/kotlin/it/curzel/tama/midi/MidiComposerUseCase.kt:18-24 | playback needs at least one parsed note, else "No valid notes found in composition" |
| KtMidiComposer.ValidatedButThrows | app/composeApp/src/commonMain/kotlin/it/curzel/tama/midi/MidiComposerUseCase.kt:50-95 | "0c" passes validation and then divides by zero when parsed |
| KtMidiComposer.ValidatedButOverflows | app/composeApp/src/commonMain/kotlin/it/curzel/tama/midi/MidiComposerUseCase.kt:50-95 | "3000000000c" passes validation and then overflows toInt when parsed |
| KtMidiComposer.SingleToken | app/composeApp/src/commonMain/kotlin/it/curzel/tama/midi/MidiComposerUseCase.kt:50-86 | a one-token composition validates and parses as that token |
| KtMidiComposer.ZeroDurationThrows | app/composeApp/src/commonMain/kotlin/it/curzel/tama/midi/MidiComposerUseCase.kt:50-95 | any token with duration 0 passes the expression and then divides by zero |
| KtMidiComposer.LongDurationThrows | app/composeApp/src/commonMain/kotlin/it/curzel/tama/midi/MidiComposerUseCase.kt:50-95 | any token with a duration beyond Int passes the expression and then overflows |
| KtMidiComposer.StrictValidationParses | app/composeApp/src/commonMain/kotlin/it/curzel/tama/midi/MidiComposerUseCase.kt:50-95 | a non-blank composition passes the strict validator exactly when it parses with one note per token, and then it plays |

## Left out

- KtPixelEditorViewModel.PixelEditorViewModel.ExportToText: Kotlin's `Float.toString` is not modelled. The printed rate is the parameter `fpsText`. The contract ties it to `fps` only when that text is a plain decimal that reads back as `fps`. Kotlin prints every rate in [1, 30] that way.
- MidiEngine.Arrange, MidiEngine.GenerateSamples and KtMidiSynthesizer.NoteSamples return the terminal player's panic and the Kotlin `OutOfMemoryError` as failure results. In the programs the panic unwinds the thread and the Error propagates past every `catch (e: Exception)`; neither returns a value to the caller.
- JsMidi.Synthesizer.GenerateNoteSamples, JsMidi.RenderNotes and JsMidi.Synthesizer.GenerateAudioBuffer return `Diverges` where the web player's waveform loop would run for ever on a note of infinite duration; a method here must terminate, so the non-termination is a value of the result rather than a loop.
- Audio output (rodio in the terminal, AudioTrack in the app, Web Audio on the page) is not modelled, and neither is playback: `play_notes`, `play_notes_looping`, `stop`, `parse_and_play_looping`, the app's `playMidiComposition` coroutine and `stopMidiPlayback`, and the web page's gain-node audio graph. They only hand buffers to a device.
- Sample values are not modelled: sine and square waveforms, `powf`, ADSR envelopes, vibrato, `midiToFrequency` and MidiWaveforms.kt. The tone generator is a parameter, and the model covers only how many samples each note yields and how channels are mixed.
- WAV encoding (`generate_wav_bytes`) is left out: it is byte packing of floating-point samples.
- Networking, persistence, HTTP routing and the user interfaces are left out, except for the validators and cursors they call.
- `f32`, `Float` and `Double` values, including the remote's and the sprite player's timers, are modelled as exact reals with no rounding.
- `Instant` is modelled as a count of nanoseconds that the caller passes in.
- The tokio `RwLock` and `async` in the rate limiter are left out: each call is modelled as atomic.
- `IpAddr` is a type parameter of the rate limiter: the model needs only equality on addresses.
- FeedViewModel's coroutines (`navigateNext`, `navigatePrevious`, `loadFeed`), `sessionFeedItems` and the session cache are left out: they fetch over the network. Only the state they update is modelled.
- The file reads in `ChannelManager::new` and `create_empty_state_item` are parameters: the text of each file (the two cats' content files, the static sprite) is passed in, and the model builds the channels from it.
- The web page's `AnimationController` (a `requestAnimationFrame` loop) is left out.
- `PixelEditorViewModel.loadFromText` is left out: in the source it is an empty placeholder.
- Image decoding, preprocessing and cropping in the image converter are left out, and so is every use of randomness.
- Whitespace and letter case are ASCII only; Unicode whitespace and case folding are not modelled.
- KtMidiParser, MidiChannels and KtMidiComposer read digits as ASCII `0`-`9` only, through `Text.IsDigit` and `Text.DigitsValue`. Kotlin's `isDigit`, `toInt` and `toIntOrNull` also accept every other Unicode decimal digit: the Kotlin parser reads `٤c` as a quarter note, and a Kotlin `--bpm` or composer octave written in such digits is read as a number. The Kotlin models therefore refuse or skip some notes, tempos and octaves the app accepts. The Rust engine (`is_ascii_digit`) and the web player (`/\d/`) accept ASCII digits only, as modelled.
- Error messages that print a float (the volume error) quote the token's text instead of Rust's float formatting.
- KtBrailleConverter.BrailleToPixels: requires `charHeight > 0`, because at 0 the source's frame loop never advances.
- Feed.EmptyStateItem: requires the static art to parse as a sprite sheet, because the source unwraps that parse.
- Channels.ChannelManager.constructor: requires both content files to parse, with art that is a sprite sheet, because the source `expect`s each step.
- Text.ParseDecimal: reads a sign, digits, a fraction and an exponent exactly. It refuses the forms that are not real numbers or are written another way: Rust's `inf`, `infinity` and `nan`, and Kotlin's `NaN`, `Infinity`, hexadecimal floats and `f`/`d` suffixes. Values are neither rounded to `f32` nor overflow to infinity.
- MidiChannels.VolumeFlag: `--volume NaN` is refused here. Rust refuses it too, since NaN is outside 0.0..=1.0, but Kotlin's `toFloatOrNull` reads it and the range check at MidiFlags.kt:40 lets it through, because every comparison with NaN is false.
- MidiChannels.ChannelsWellFormed: the volume bound holds for the numbers Text.ParseDecimal reads; on the Kotlin path a `NaN` volume is kept (see VolumeFlag).
- ContentFile.FpsOfFields: a rate written as `inf` or `nan` falls back to the default 10 here, where Rust's `f32` parse would return it.
- TvLayout.Widest, TvLayout.Padded and TvLayout.PaddedRight count characters as Unicode code points. Kotlin and JavaScript `length`, `padStart`, `padEnd` and indexing count UTF-16 code units. A line holding a character outside the Basic Multilingual Plane, such as an emoji, is measured, padded and centred differently in the app and the web page than in the model. The same holds for the renderers built on them (KtAsciiCanvas.FormatContentToLines, KtAsciiCanvas.RenderContentToString, JsAsciiCanvas.RenderContentToString) and for KtBrailleConverter's and the Kotlin and JavaScript note parsers' indexing. Braille patterns and ASCII lie inside that plane, where the two counts agree.

## Findings

| source | as written | input that shows it | evidently intended | confidence | as-written member | corrected member |
|---|---|---|---|---|---|---|
| src/midi_composer/channels.rs:93-138 | an unknown `--x` token outside a pending `--channel` leaves the index and the state unchanged, so the loop never ends (MidiFlags.kt has the same loop) | `--foo 4c` | skip the unknown token | not executed | MidiChannels.UnknownFlagStalls | MidiChannels.Step |
| app/composeApp/src/commonMain/kotlin/it/curzel/tama/midi/MidiParser.kt:212-221 | the octave arithmetic on `Int` overflows and wraps, and the parser plays the wrapped pitch | `4c357913942` gives pitch 20 instead of 127 | clamp the pitch to 127, as the exact formula of the terminal and web parsers does | not executed | KtMidiParser.ParsedOctaveWraps | KtMidiParser.HighOctavesClamp |
| app/composeApp/src/commonMain/kotlin/it/curzel/tama/midi/MidiComposerUseCase.kt:50-55 | the validator accepts notes the parser then throws on | `0c` (division by zero), `3000000000c` (`toInt` overflow) | the validator refuses what the parser cannot read | not executed | KtMidiComposer.ValidatedButThrows | KtMidiComposer.StrictValidationParses |
| src/server/channel_endpoints.rs:16-51 | an empty name passes validation, while the test beside it expects a refusal | a request whose name is `""` | refuse an empty name | not executed | ContentUpload.EmptyNameAccepted | ContentUpload.ValidateNamed |
| app/composeApp/src/commonMain/kotlin/it/curzel/tama/canvas/AsciiCanvas.kt:70-85 | a zero frame height loops forever, and a height above `Int.MAX_VALUE` throws | `1x0` followed by a line `#`; `1x2147483648` | cut no frames, so the whole text becomes the one frame | not executed | KtAsciiCanvas.ZeroHeightDiverges | KtAsciiCanvas.MendedAgrees |
| static/ascii.js:27 | a zero frame height loops forever | `1x0` followed by a line `#` | cut no frames, so the whole text becomes the one frame | not executed | JsAscii.ZeroHeightDiverges | JsAscii.MendedAgrees |
