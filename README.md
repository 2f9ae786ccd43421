# Live audio chat core, modelled in Dafny

This project models the core of an Arabic-language chat assistant, a web app that talks to a generative-AI
backend by text and by live audio. It covers three pieces of that app and the wiring that joins them.

- **The streaming PCM player** (`utils/audioLivePlayer.ts`). It parses a raw-PCM MIME type
  (`audio/L16;rate=24000`, `audio/pcm;rate=16000;channels=2`), decodes base64 chunks the way `atob` does
  and queues them. A pump takes the oldest chunk, converts it into per-channel samples and schedules
  it. Chunks it cannot play are dropped. Modules: `PcmMime`, `Base64`, `PcmDecode`, `AudioPlayer`.
- **The live session manager** (`services/geminiService.ts`). It holds the session handle, the inbound
  message queue, the stored turn-complete and error callbacks, and the chat's system instruction. It
  opens, feeds, drains and closes a live session. The drain loop demultiplexes each server message
  into text and audio callbacks and stops at the first message that completes the turn. The callbacks
  are modelled as a trace of events. Module: `GeminiService`.
- **The conversation bookkeeping** of `App.tsx`:
  - upserting a message by id;
  - saving the open conversation into the list: announcements removed, automatic naming, sorted by
    recency, at most ten entries, or one for a guest;
  - the list update when a new conversation starts;
  - deleting a conversation.

  Module: `Conversations`.
- **The live-audio wiring** of `App.tsx`. The app's callbacks turn the service's trace into the
  assistant's message and the player's input. Module: `LiveWiring`.

`JsText` models the JavaScript string operations the core relies on: `toLowerCase`, `trim`, `split`,
`parseInt`, `includes`, the first-match `replace`, `startsWith` and `String(n)`. `Wrappers` holds
`Option`, and `SeqFacts` a few identities of sequence concatenation that the proofs cite.

The player and the service are classes whose methods update their fields, as the source's objects
and module variables do (`AudioPlayer.AudioLivePlayer`, `GeminiService.LiveService`). Each method is
proved equal to a step function on a snapshot of the state (`StopStep`, `AddChunkStep`, `SendStep`, …).
The properties are proved about those step functions. The conversation updaters are pure functions, as
in the source. The save updater and the list update of a new conversation work on a copy step by step
in the source, and they are also written as methods proved equal to their functions.

The things the core does not compute become parameters:
- the audio engine: whether the context resumes, and whether it accepts a buffer of a given shape;
- the transport: whether connecting or sending succeeds, and which messages arrive;
- the clock, generated ids and the guest's time-of-day label;
- the admin-saved instruction and the profile-block extractor;
- the greeting text;
- the error texts, which become an `ErrorKind` value and a `describe` function.

`App.tsx` stores its Arabic string literals doubly encoded, and the guest prefix even lost its last
byte. The model uses the decoded text: "محادثة جديدة", "محادثة ضيف", "يتصل...",
"لم أتمكن من بدء جلسة الصوت المباشر.". All the copies of each literal in the file agree. The names
are also tested against text the user typed (`startsWith` at App.tsx:290-291 sees names taken from
message text), and there the encoded form would matter. The model follows the evident intent, a
name that starts with the decoded guest prefix.

The service stores the error callback of the turn that opened the live session, and it passes the
text and audio callbacks of each send. In the model, a callback is named by the message id of the
turn whose closure it is, so the trace says which turn's message each event writes into.

## Model

| member | source | states |
|---|---|---|
| JsText.TrimStart | utils/audioLivePlayer.ts:61 | `trim` drops exactly the leading white space: the result is a suffix, everything cut is white space, and the result does not start with white space |
| JsText.TrimEnd | utils/audioLivePlayer.ts:61 | the same at the end of the string |
| JsText.Split | utils/audioLivePlayer.ts:59-61 | `split` on one character gives at least one piece, no piece holds the separator, and joining the pieces with it gives the input back |
| JsText.SplitJoin | utils/audioLivePlayer.ts:59 | splitting undoes joining when no piece holds the separator |
| JsText.IndexOf | services/geminiService.ts:38 | the first occurrence of a pattern is found when there is one, and no earlier one exists |
| JsText.Expand | services/geminiService.ts:40-47 | the `$` patterns of a replacement string (`$$`, `$&`, `` $` ``, `$'`) expand against the match; a replacement without `$` is used as it is |
| JsText.ReplaceFirst | services/geminiService.ts:20-47 | `replace` with a string pattern changes only the first occurrence: the text before and after it is kept, and the replacement, with its `$` patterns expanded, stands in its place; a string without the pattern is unchanged, and a replacement without `$` is inserted literally |
| JsText.ReplaceWithMatchedIsNoop | services/geminiService.ts:40-47 | a replacement `$&` puts the matched text back, so the result is the input unchanged: a profile block holding `$&` brings back the placeholder rather than itself |
| JsText.Decimal | App.tsx:355-356 | `String(n)` is a non-empty run of digits whose value is n |
| JsText.ParseIntDecimal | utils/audioLivePlayer.ts:47-65 | `parseInt` reads back a decimal number followed by any non-digit text |
| JsText.ParseIntNaN | utils/audioLivePlayer.ts:47-48 | text that starts with something other than white space, a sign or a digit parses to NaN |
| Base64.Decode | utils/audioLivePlayer.ts:91 | `atob` succeeds exactly when the text, with white space removed and its padding stripped, has a length not 1 modulo 4 and holds only alphabet characters; it then yields three bytes per four characters |
| Base64.DecodeEncode | utils/audioLivePlayer.ts:91 | decoding undoes the padded encoding of section 4 of RFC 4648, for every byte sequence |
| Base64.Atob | utils/audioLivePlayer.ts:91-96 | `atob` fails exactly where the decoder fails, and otherwise returns the decoded bytes as one code unit below 256 each |
| Base64.AtobEncode | utils/audioLivePlayer.ts:91 | `atob` of a padded encoding returns the encoded bytes, one code unit each |
| PcmMime.OrDefault | utils/audioLivePlayer.ts:70-74 | `parsed || default`: the result is the number found or the default, a truthy number wins, and a truthy default never gives way to 0 or NaN |
| PcmMime.ParsePcmMimeType | utils/audioLivePlayer.ts:33-83 | the empty string and any type whose lower-case form starts with neither `audio/l` nor `audio/pcm` give null; every format returned has all three fields positive |
| PcmMime.Finish | utils/audioLivePlayer.ts:70-82 | the defaults are applied; a format is returned exactly when all three defaulted fields are positive, and it is then the defaulted format itself |
| PcmMime.ApplyParamFields | utils/audioLivePlayer.ts:61-66 | one parameter with a non-empty value sets the field it names and no other; the sample size is never set by a parameter |
| PcmMime.ApplyParamsLast | utils/audioLivePlayer.ts:59-67 | applying the parameters in order leaves the rate and the channel count at the value of the last parameter that sets each, and the sample size as the subtype set it |
| PcmMime.ZeroOrNaNRateRefused | utils/audioLivePlayer.ts:70-82 | a last `rate` parameter that reads as 0 or NaN falls back to the default 0, so the type is refused |
| PcmMime.DefaultsApply | utils/audioLivePlayer.ts:45-79 | a type that parses has the positive rate of its last `rate` parameter; the channel count of its last `channels` parameter, or 1 when there is none or it reads as 0 or NaN; the sample size of `audio/L<n>`, or 16 for `audio/pcm` or when n reads as 0 or NaN |
| PcmMime.RecognisedTypeParses | utils/audioLivePlayer.ts:45-82 | conversely, a non-empty `audio/l…` or `audio/pcm…` type whose last `rate` parameter reads as a positive number, and whose defaulted channel count and sample size are positive, parses to exactly that rate, channel count and sample size |
| PcmMime.PcmRateOnlyParses | utils/audioLivePlayer.ts:51-79 | `audio/pcm;rate=<r>` with r > 0 parses to r Hz, one channel and 16 bits |
| PcmMime.NoRateRefused | utils/audioLivePlayer.ts:59-79 | a type without a non-empty `rate` parameter is refused, because the default rate is 0 |
| PcmMime.DescriptorRoundTrip | utils/audioLivePlayer.ts:45-74 | `audio/L<bits>;rate=<r>;channels=<c>` parses back to exactly that positive format |
| PcmMime.RateOnlyParses | utils/audioLivePlayer.ts:45-79 | `audio/L<bits>;rate=<r>` with positive values parses to r Hz, one channel and that sample size |
| PcmMime.EightBitTelephony | utils/audioLivePlayer.ts:33-83 | `audio/L8;rate=8000` parses to 8000 Hz, one channel, 8 bits |
| PcmMime.PcmFormParses | utils/audioLivePlayer.ts:51-74 | `audio/pcm;rate=<r>;channels=<c>` with r > 0 parses to r Hz, 16 bits, and c channels (1 when c is 0) |
| PcmDecode.Int16 | utils/audioLivePlayer.ts:154 | a little-endian byte pair read as a signed 16-bit value, congruent to the unsigned value modulo 65536 |
| PcmDecode.SampleAt | utils/audioLivePlayer.ts:156-165 | a 16-bit sample divided by 32768, or an 8-bit sample mapped as (v−128)/128, lies in [-1, 1); the largest 16-bit value gives 32767/32768 and the largest 8-bit one 127/128 |
| PcmDecode.EightBitOffsetBinary | utils/audioLivePlayer.ts:165 | 8-bit samples are offset binary: the sample times 128, plus 128, is the byte, so the byte 128 is silence |
| PcmDecode.FrameCount | utils/audioLivePlayer.ts:133 | a decodable chunk holds a positive whole number of frames |
| PcmDecode.Decode | utils/audioLivePlayer.ts:122-173 | a chunk converts exactly when the sample size is 8 or 16, it holds whole frames and at least one; it then has one array per channel, one sample per frame, each in [-1, 1) |
| PcmDecode.FillChannel | utils/audioLivePlayer.ts:155-166 | the frame loop fills channel i from samples j·channels+i |
| PcmDecode.DecodeChunk | utils/audioLivePlayer.ts:146-173 | the channel loop, with the bounds test as evidently intended, computes `Decode` |
| PcmDecode.AsWrittenDropsMultichannel | utils/audioLivePlayer.ts:150-159 | as written, the bounds test trips for every channel after the first, so a chunk converts only when it is mono |
| PcmDecode.GuardTripsIff | utils/audioLivePlayer.ts:150-159 | as written, the test trips for a decodable chunk exactly when the channel index is not 0 |
| PcmDecode.LastSampleInBounds | utils/audioLivePlayer.ts:150-159 | the last sample read for any channel ends inside the chunk, which is the bound the test evidently means |
| PcmDecode.DecodeInterleave16 | utils/audioLivePlayer.ts:154-157 | decoding undoes 16-bit little-endian interleaving: channel c, frame j gives back sample j of channel c over 32768 |
| PcmDecode.HalfScaleScenario | utils/audioLivePlayer.ts:133-157 | eight 16-bit samples of 16384 in one mono chunk decode to eight samples of 0.5 |
| AudioPlayer.Playable | utils/audioLivePlayer.ts:119-186 | a chunk becomes a buffer exactly when it converts and the engine accepts its shape; the buffer is at the format's rate and holds one array per channel, one sample per whole frame of the chunk, each in [-1, 1) |
| AudioPlayer.ScheduleChunk | utils/audioLivePlayer.ts:122-173 | agrees with `Playable`, testing in the source's order: whole frames (counted in bits, as the byte width is fractional for sizes that are not multiples of 8), at least one frame, the engine's allocation, then the sample size, which the source tests inside the channel loop; the conversion is the intended `DecodeChunk`, so the bounds test as written at lines 150 and 159 is replaced by the intended one (see Findings) |
| AudioPlayer.CopyCodeUnits | utils/audioLivePlayer.ts:92-96 | the copy loop stores each code unit modulo 256, one byte per unit |
| AudioPlayer.Uint8OfBinaryString | utils/audioLivePlayer.ts:91-96 | copying `atob`'s result gives back exactly the decoded bytes |
| AudioPlayer.ChunkBytesRoundTrip | utils/audioLivePlayer.ts:91-96 | a chunk sent as base64 reaches the queue as exactly its bytes: `atob` succeeds on the encoding and the copy loop gives the bytes back |
| AudioPlayer.Pump | utils/audioLivePlayer.ts:119-171 | the pump only removes chunks from the head: it starts the first playable chunk, everything before it was unplayable, and with none playable the queue empties |
| AudioPlayer.PumpTakesFirstPlayable | utils/audioLivePlayer.ts:119-192 | one pump outputs the first buffer of the queue's playable chunks and leaves the rest of them queued in order |
| AudioPlayer.DroppedChunkIsSkipped | utils/audioLivePlayer.ts:127-141 | a dropped chunk changes neither the output nor the pump's result for the chunks after it |
| AudioPlayer.StepsKeepInv | utils/audioLivePlayer.ts:11-212 | every operation keeps the invariant: a buffer plays exactly when there is a current source, and a format is always positive |
| AudioPlayer.PlayKeepsPendingOutput | utils/audioLivePlayer.ts:104-193 | `play` neither loses nor reorders output: started buffers followed by the playable queued chunks stay the same |
| AudioPlayer.EndedKeepsPendingOutput | utils/audioLivePlayer.ts:178-184 | the end of a buffer followed by the next pump does not change what will be played |
| AudioPlayer.AddChunkAppendsOutput | utils/audioLivePlayer.ts:85-102 | a chunk added under a format joins the end of the pending output; an undecodable chunk adds nothing |
| AudioPlayer.PlayNeverStalls | utils/audioLivePlayer.ts:127-171 | with a format and a running context, after `play` a buffer is playing or the queue is empty |
| AudioPlayer.FormatChangeFlushes | utils/audioLivePlayer.ts:20-26 | a different valid format stops playback and empties the queue before it is adopted |
| AudioPlayer.SameFormatKeepsState | utils/audioLivePlayer.ts:22-26 | setting the current format again changes nothing |
| AudioPlayer.InvalidFormatKeepsQueue | utils/audioLivePlayer.ts:27-30 | an invalid type sets the format to null and leaves the queue and playback alone |
| AudioPlayer.StopIdempotent | utils/audioLivePlayer.ts:195-212 | `stopAndClear` is idempotent and leaves the player inactive |
| AudioPlayer.DropBeforeFormat | utils/audioLivePlayer.ts:86-89 | before any format is set, a chunk changes nothing |
| AudioPlayer.IdlePlaysChunkAtOnce | utils/audioLivePlayer.ts:97-186 | a playable chunk reaching an idle player with an empty queue is started at once |
| AudioPlayer.HalfScaleStream | utils/audioLivePlayer.ts:20-186 | `audio/pcm;rate=16000;channels=1` and one chunk of eight 16-bit samples of 16384 start a mono buffer of eight samples of 0.5 at 16000 Hz |
| AudioPlayer.AudioLivePlayer.constructor | utils/audioLivePlayer.ts:11-18 | no format, an empty queue, nothing playing |
| AudioPlayer.AudioLivePlayer.StopAndClear | utils/audioLivePlayer.ts:195-208 | performs `StopStep`, keeping the invariant |
| AudioPlayer.AudioLivePlayer.SetFormat | utils/audioLivePlayer.ts:20-31 | performs `SetFormatStep`, keeping the invariant |
| AudioPlayer.AudioLivePlayer.Play | utils/audioLivePlayer.ts:104-193 | the pump loop performs `PlayStep`, keeping the invariant |
| AudioPlayer.AudioLivePlayer.AddChunk | utils/audioLivePlayer.ts:85-102 | performs `AddChunkStep`, keeping the invariant |
| AudioPlayer.AudioLivePlayer.OnEnded | utils/audioLivePlayer.ts:178-184 | performs `EndedStep`, keeping the invariant |
| AudioPlayer.AudioLivePlayer.IsActive | utils/audioLivePlayer.ts:210-212 | active exactly when a buffer plays or chunks wait |
| GeminiService.PartEvents | services/geminiService.ts:305-313 | a part gives its text as a partial chunk first, then its audio, which needs both data and a MIME type |
| GeminiService.MessagesEventsArePartial | services/geminiService.ts:304-314 | parts only ever give partial text chunks and audio |
| GeminiService.DrainWithoutComplete | services/geminiService.ts:301-323 | with no turn-complete message queued, the whole queue is drained in FIFO order and the turn stays open |
| GeminiService.DrainStopsAtFirstComplete | services/geminiService.ts:301-323 | the drain delivers the messages before the first turn-complete message and that message's parts, in order, then the closing text chunk and the turn-complete callback; the later messages stay queued |
| GeminiService.DrainResumes | services/geminiService.ts:320-322 | polling an empty queue and resuming when more messages arrive gives the same callbacks as draining them all at once |
| GeminiService.DrainEndsOnce | services/geminiService.ts:315-319 | a completed turn holds exactly one closing text chunk, followed only by the turn-complete callback; an open turn holds none |
| GeminiService.DrainScenario | services/geminiService.ts:301-323 | text, audio, then the end of the turn give `Text("Hi", partial)`, the audio, the closing chunk and turn-complete; a fourth message stays queued |
| GeminiService.InitialInstruction | services/geminiService.ts:18-23 | the admin-saved instruction when there is one; without it, a built-in instruction that has no placeholder is used as it is |
| GeminiService.UpdatedInstruction | services/geminiService.ts:32-50 | without an admin-saved instruction the new one is used verbatim; an admin text without the placeholder is used as it is |
| GeminiService.ResetInstruction | services/geminiService.ts:199-212 | the app's instruction when there is no admin text; the start-up instruction when neither is given; an admin text without the placeholder as it is |
| GeminiService.StepsKeepInv | services/geminiService.ts:12-340 | every operation keeps the invariant: the chat runs on the current instruction, and an open live session has a configured key and both callbacks stored |
| GeminiService.UpdateWithoutAdmin | services/geminiService.ts:45-55 | without admin text, an update installs the new instruction and drops the chat exactly when the instruction changes; nothing else changes |
| GeminiService.UpdateIdempotent | services/geminiService.ts:32-56 | repeating an update changes nothing, unless it is an admin update while admin text is saved and the new text lacks the placeholder (the profile block then comes from the current instruction) |
| GeminiService.ResetClosesLive | services/geminiService.ts:199-224 | `resetChat` closes any live session and keeps the queue and the turn callback; the next chat is created on the reset instruction |
| GeminiService.StartFailures | services/geminiService.ts:233-270 | a start succeeds exactly when a key is configured and a session is open or the connection succeeds; on failure the caller's error callback is told once, with the missing key or the failed connection, and no session is open |
| GeminiService.StartWhenOpen | services/geminiService.ts:237-239 | starting while a session is open returns true and keeps the stored callbacks |
| GeminiService.SendWithoutSession | services/geminiService.ts:278-282 | sending without a session sends nothing, leaves the queue alone and tells the stored error callback, if any |
| GeminiService.ArrivalsDrainInOrder | services/geminiService.ts:251-323 | messages that arrived, none completing the turn, are delivered by the next send in arrival order and the queue empties |
| GeminiService.CloseIdempotent | services/geminiService.ts:326-336 | closing is idempotent; no session, an empty queue and no error callback remain |
| GeminiService.TransportErrorReported | services/geminiService.ts:254-258 | a transport error reaches the stored error callback, and the session is gone |
| GeminiService.LiveService.constructor | services/geminiService.ts:5-23 | the module's start-up state |
| GeminiService.LiveService.UpdateChatSystemInstruction | services/geminiService.ts:32-56 | performs `UpdateStep` |
| GeminiService.LiveService.GetChatSession | services/geminiService.ts:81-90 | creates the chat on the current instruction when there is none |
| GeminiService.LiveService.ResetChat | services/geminiService.ts:199-224 | performs `ResetStep` |
| GeminiService.StartStep | services/geminiService.ts:226-271 | callbacks already told stay told, and starting tells at most one more: the missing key or the failed connection |
| GeminiService.SendStep | services/geminiService.ts:273-293 | callbacks already told stay told; sending only adds callback events after them |
| GeminiService.LiveService.StartLiveAudioSession | services/geminiService.ts:226-271 | performs `StartStep`, returning its success flag |
| GeminiService.LiveService.OnMessage | services/geminiService.ts:251-253 | appends the message at the tail of the queue |
| GeminiService.LiveService.OnTransportError | services/geminiService.ts:254-258 | performs `TransportErrorStep` |
| GeminiService.LiveService.OnClose | services/geminiService.ts:259-261 | drops the session |
| GeminiService.LiveService.DeliverParts | services/geminiService.ts:304-314 | the part loop fires the callbacks of the parts in order, and nothing else changes |
| GeminiService.LiveService.HandleLiveSessionTurn | services/geminiService.ts:295-324 | the `while (!done)` loop fires exactly the callbacks of `DrainSpec`, leaves its remaining messages queued and reports whether the turn completed |
| GeminiService.LiveService.SendToLiveAudioSession | services/geminiService.ts:273-293 | performs `SendStep` |
| GeminiService.LiveService.CloseLiveAudioSession | services/geminiService.ts:326-336 | performs `CloseStep` |
| GeminiService.LiveService.IsLiveAudioSessionActive | services/geminiService.ts:338-340 | holds exactly when a session is open |
| Conversations.FindMessage | App.tsx:435 | `findIndex` by id: the first message with that id, found exactly when one is listed |
| Conversations.AddMessage | App.tsx:430-452 | the length stays the same exactly when the id is listed or a listed announcement is repeated, and otherwise grows by one; the id is listed afterwards |
| Conversations.AddMessageUpdatesInPlace | App.tsx:437-449 | a listed id is updated where it stands: the other messages are untouched; id and sender are kept; the type and time are replaced; each field whose argument is given takes it, and each field whose argument is undefined keeps its value |
| Conversations.AddMessageAppends | App.tsx:450-452 | a new id is appended at the end |
| Conversations.AnnouncementNotDuplicated | App.tsx:433 | a listed announcement id leaves the list unchanged |
| Conversations.AddMessageKeepsIdsUnique | App.tsx:430-452 | message ids stay unique |
| Conversations.AddMessageIdempotent | App.tsx:430-452 | repeating the same update through the same id changes nothing more |
| Conversations.Insert | App.tsx:303 | insertion adds exactly one entry and keeps all the others |
| Conversations.InsertSorted | App.tsx:303 | inserting into a list sorted by recency keeps it sorted |
| Conversations.SortByRecency | App.tsx:303-365 | the sort is a permutation and leaves the list ordered by `lastUpdated`, most recent first |
| Conversations.NewestComesFirst | App.tsx:303 | an entry more recent than all the others comes first |
| Conversations.KeptCount | App.tsx:304-308 | the number of entries kept: the length capped at ten, or at one for a guest; a non-empty list keeps at least one |
| Conversations.PrefixKeepsNewest | App.tsx:303-308 | a prefix of a list sorted by recency is sorted, drawn from the list, and no entry left out is more recent than an entry kept |
| Conversations.KeepsNewestOfPermutation | App.tsx:303 | whether kept entries are the newest does not depend on the order of the whole list |
| Conversations.SortThenTruncate | App.tsx:303-308 | sorting then cutting keeps as many entries as the limit allows, sorted, drawn from the list, and the newest ones |
| Conversations.Truncate | App.tsx:304-308 | keeps exactly the length capped at ten, or at one for a guest; the kept entries form a prefix, and a non-empty list stays non-empty |
| Conversations.WithoutAnnouncements | App.tsx:283 | the saved messages are exactly the messages that are not announcements |
| Conversations.WithoutAnnouncementsAppend | App.tsx:283 | filtering keeps the order |
| Conversations.WithoutAnnouncementsNoop | App.tsx:283 | a list without announcements is saved as it is |
| Conversations.FirstText | App.tsx:289-295 | `find`: the text of the first message that qualifies (from the sender, with a truthy text other than the excluded one), so no earlier message qualifies; none when no message qualifies |
| Conversations.FirstMeaningfulText | App.tsx:289 | the text a conversation is named after: the first user message with a text when there is one, otherwise the first assistant text other than the greeting; none exactly when neither exists |
| Conversations.AutoName | App.tsx:291-297 | the first 30 characters, with `...` only when the text is longer than 30 |
| Conversations.FindConversation | App.tsx:282 | `findIndex` on the conversation list |
| Conversations.Upsert | App.tsx:285-301 | a listed conversation is updated where it stands with the saved messages and the current time, every other entry unchanged, and takes the automatic name only while its name is a default and a meaningful text exists; otherwise the conversation is appended after the old list, named from its first meaningful text, or failing that the guest name with the time label for a guest and the new-conversation name for anyone else |
| Conversations.UpsertEntries | App.tsx:285-301 | every entry after the upsert was listed before or is the open conversation with the saved messages and time |
| Conversations.SaveUpdate | App.tsx:278-311 | with no open conversation nothing changes; otherwise the list is sorted by recency, its length is the old one (plus one for a conversation not yet listed) capped at ten or at one for a guest, and it holds the newest entries of the upserted list |
| Conversations.SaveAddsOnlyTheOpenConversation | App.tsx:278-311 | every entry after a save was listed before, or is the open conversation with the saved messages and the current time |
| Conversations.SaveConversations | App.tsx:278-311 | the updater's steps on a copy of the list compute `SaveUpdate` |
| Conversations.SaveEffect | App.tsx:274-277 | nothing is saved without a user, in the admin view, with no messages or during a call |
| Conversations.SavedConversationFirst | App.tsx:281-308 | when the clock has moved past every other entry, the saved conversation heads the list with the messages minus the announcements, so truncation never drops it |
| Conversations.DefaultNameReplaced | App.tsx:289-292 | a default name is replaced by the automatic name once there is a meaningful text; the other entries are untouched |
| Conversations.ChosenNameKept | App.tsx:290 | a name that is not a default is kept |
| Conversations.StartNewList | App.tsx:363-373 | a guest keeps only the new conversation; otherwise the list is sorted, its length is the old one plus one capped at ten, it holds the newest of the old entries and the new one, and below the limit exactly those |
| Conversations.StartNewListFrom | App.tsx:363-373 | every entry afterwards is the new conversation or was listed before |
| Conversations.StartNewConversations | App.tsx:363-373 | the updater's steps compute `StartNewList` |
| Conversations.NewConversationFirst | App.tsx:355-373 | a new conversation newer than all the others heads the list |
| Conversations.StartNewStep | App.tsx:340-379 | without a user nothing changes; otherwise the chat holds only the greeting, the open id is `conv-<now>`, a guest's list is only the new conversation, another user's list grows by one up to ten, and the new conversation heads it when every entry is older |
| Conversations.WithoutConversation | App.tsx:421 | deleting removes exactly the entries with the id |
| Conversations.WithoutConversationAppend | App.tsx:421 | deleting keeps the relative order |
| Conversations.DeleteMissingIsNoop | App.tsx:421 | deleting an id that is not listed changes nothing |
| Conversations.DeleteRemovesOnlyThatId | App.tsx:416-424 | deleting a conversation that is not open removes every entry with its id, keeps every other entry and leaves the open conversation as it was |
| Conversations.DeleteStep | App.tsx:416-428 | for a signed-in user who is not a guest, the only entry that can carry the deleted id afterwards is the new conversation opened in its place |
| Conversations.DeleteOpenStartsNew | App.tsx:355-427 | deleting the open conversation opens a new one holding only the greeting |
| Conversations.GuestCannotDelete | App.tsx:418 | a guest's delete changes nothing |
| LiveWiring.FinalText | App.tsx:548-584 | the text shown at the end of the text is never empty: the trimmed transcript, or a single space exactly when the trimmed transcript is empty |
| LiveWiring.Show | App.tsx:546-595 | writing into the assistant's message changes only the chat's messages, and message ids stay unique |
| LiveWiring.OnText | App.tsx:543-550 | a partial chunk extends the transcript by the chunk and the end of the text leaves it as it is; player, service, list and open conversation are untouched, and ids stay unique |
| LiveWiring.OnError | App.tsx:564-572 | the handler's message becomes an error holding the text, and the live session is closed with its queue and both callbacks cleared; the player and the transcript are untouched |
| LiveWiring.Apply | App.tsx:543-592 | text touches only the chat and the transcript, audio only the player, turn-complete nothing modelled; an error closes the session and writes into the message of the turn that opened it, leaving this turn's message alone |
| LiveWiring.OnAudio | App.tsx:587-592 | the audio callback keeps the player's invariant and touches neither chat nor service |
| LiveWiring.OnAudioAtStart | App.tsx:551-556 | the same for the callback passed at start |
| LiveWiring.Replay | App.tsx:543-592 | the app's callbacks, applied to the service's trace in order, keep the player's invariant, the list, the open conversation and unique ids; a trace without errors leaves the service as it was |
| LiveWiring.ReplayAppend | App.tsx:543-592 | replaying one trace and then another is replaying them joined: the callbacks act strictly in order |
| LiveWiring.LiveTurn | App.tsx:537-598 | a live turn keeps the player's invariant, the list, the open conversation and unique ids; when the session cannot start, the turn's message ends as the start-failure error |
| LiveWiring.StartNewConversation | App.tsx:340-379 | without a user nothing changes; otherwise nothing plays, no live session is open, an open session's queue and callbacks are cleared, and the chat is that of `StartNewStep` |
| LiveWiring.ShowSetsMessage | App.tsx:546-582 | writing to the assistant's message leaves it the one message with that id, holding the new text and type |
| LiveWiring.ShowKeepsOthers | App.tsx:430-452 | writing into one message leaves the message with any other id as it was |
| LiveWiring.PartialChunksAccumulate | App.tsx:580-583 | partial text chunks extend the transcript by their concatenation, and the message shows all of it |
| LiveWiring.EndOfTextShowsTrimmed | App.tsx:583-585 | the end of the text shows the trimmed transcript |
| LiveWiring.TypeIgnoredWhilePlaying | App.tsx:587-592 | a MIME type arriving while the player is busy under a format is ignored; the chunk is decoded under the current format and joins the end of the pending output |
| LiveWiring.IdlePlayerTakesType | App.tsx:588-590 | an idle player takes its format from the chunk's type |
| LiveWiring.AudioCallbacksCompared | App.tsx:551-592 | the two audio callbacks differ only when the player is busy without a format; then the one passed at start would drop the chunk |
| LiveWiring.NoKeyShowsStartFailed | App.tsx:541-598 | without a key, the turn's message ends as one error saying the session could not start, and no session is open |
| LiveWiring.TextReplyDrain | services/geminiService.ts:301-319 | a one-part text reply drains to that text, the closing chunk and turn-complete |
| LiveWiring.TextReplyShown | App.tsx:580-586 | a reply chunk followed by the end of the text leaves the assistant's message a text message holding the trimmed reply; the service is untouched |
| LiveWiring.SpokenReplyShown | App.tsx:541-593 | a turn whose reply is one text part shows that text trimmed in the assistant's message; the prompt is sent, the queue drained and the session left open |
| LiveWiring.SendErrorReachesOpeningTurn | App.tsx:564-577 | over a session another turn opened, a failed send turns the opening turn's message into the error and closes the session, while this turn's message keeps its placeholder |
| LiveWiring.FailedSendTurn | App.tsx:575-593 | over an open session, a turn whose send fails shows the placeholder, then applies exactly the reported error |
| LiveWiring.FailedSendReported | services/geminiService.ts:284-292 | a failed send over an open session is reported once, to the stored error callback |
| LiveWiring.NewConversationSilencesAudio | App.tsx:340-360 | a new conversation leaves nothing playing or queued, no live session and only the greeting; an open session's queue and callbacks are cleared |

## Left out

- Web Audio is not modelled. Three things stand in for it: a `resumeOk` flag, an `accepts(channels, frames, rate)`
  function where `createBuffer` or `start` would throw, and a log of started buffers. Where a
  buffer ends is the explicit `OnEnded` step, applied to the current source; the sources that
  `stopAndClear` stops have their `onended` removed.
- Concurrency is not modelled:
  - `play` runs as one atomic step. Its re-entry without `await`, and the check of `isPlaying`
    before `await resume()`, are not modelled.
  - The drain runs over the messages queued when the prompt is sent. Where the source sleeps 50 ms
    and polls an empty queue, the model stops and reports the turn unresolved. `DrainResumes` shows
    that resuming later gives the same callbacks.
- Floating point: samples are Dafny reals.
- Byte order: samples are read little-endian, as `Int16Array` does in browsers. Section 4.5.11 of
  RFC 3551 specifies network byte order; the model follows the code.
- `JsText.Lower`: `toLowerCase` is modelled on ASCII letters only. Lengths and `substring(0, 30)`
  count Unicode scalar values, not UTF-16 code units.
- `JsText.ParseInt`: decimal digits only, with unbounded precision; `parseInt`'s rounding of very
  long numbers is not modelled.
- The transport (`ai.live.connect`, `sendClientContent`, `close`) is not modelled. It becomes the
  `connectOk` and `sendOk` flags and the messages handed to `OnMessage`. A `close()` that throws
  inside `resetChat` is not modelled.
- `extractProfileBlock` (services/geminiService.ts:58-79) uses a regular expression and is a function
  parameter. The admin-saved instruction and the built-in instruction are parameters.
- `generateTextStream`, `generateImage` and the chat SDK are not part of this model. The chat
  session is represented by the instruction it was created with.
- The error texts, which are Arabic strings with the exception message appended, become `ErrorKind`
  values and a `describe` function in the wiring.
- `localStorage`, `Date.now()`, `Math.random()` and `toLocaleTimeString` are not modelled. Stored values,
  the clock, generated ids and the guest's time label are parameters, and one clock reading serves a
  whole live turn.
- The text-to-speech call in `addMessage` (App.tsx:454-457) is not modelled, and neither are the UI
  state of the wiring (loading flag, call status, microphone) and the local `accumulatedText` of the
  drain, which nothing reads.
- In-place updates and aliasing are not modelled. The save updater mutates the conversation object it
  finds, which `prevConvs` shares, and it sorts in place. The model works on values, so that sharing
  is not captured.
- `Conversations.SortByRecency`: a stable insertion sort stands for `Array.prototype.sort` with the
  comparator `b.lastUpdated - a.lastUpdated`. Entries with equal times keep their order, as the
  stable sort required since ES2019 does.
- The audio and text callbacks passed to `startLiveAudioSession` (App.tsx:543-556) are never stored or
  called by the service. `OnAudioAtStart` models the audio one for comparison, and the text one is the
  same as the send-path handler.
- `Conversations.DeleteStep` models only the conversation list and the open conversation. The player and service side of the `startNewConversation` it calls is modelled by `LiveWiring.StartNewConversation`.
- Conversations.IsDefaultName: the test uses the decoded guest prefix. In `App.tsx` as stored, the
  prefix is the doubly encoded text, so a name taken from a user's message that starts with the
  decoded prefix counts as a default in the model but not in the file.
- AudioPlayer.ScheduleChunk: the bounds test at utils/audioLivePlayer.ts:150 and 159 is the
  intended one, not the one as written. So `audio/L16;rate=24000;channels=2` with a 4-byte chunk
  yields a buffer here, while the code as written drops it.
- AudioPlayer.Playable, AudioPlayer.Pump, AudioPlayer.PlayStep, AudioPlayer.AudioLivePlayer.Play,
  AudioPlayer.IdlePlaysChunkAtOnce, AudioPlayer.HalfScaleStream and PcmDecode.HalfScaleScenario
  are built on the corrected `PcmDecode.Decode`. So in the model, chunks with two or more
  channels are converted and played, while the code as written drops them. `PcmDecode.DecodeAsWritten` and
  `PcmDecode.AsWrittenDropsMultichannel` capture that behaviour (see Findings). The two agree on
  mono chunks, and both half-scale scenarios are mono.
- `loadConversation` and the image-keyword handling of `App.tsx` are not part of this model.

## Findings

| source | as written | input that shows it | evidently intended | confidence | as-written member | corrected member |
|---|---|---|---|---|---|---|
| utils/audioLivePlayer.ts:150, 159 | the bounds test before reading channel i compares the chunk length with the offset of channel i plus the length of the whole chunk, so it trips for every channel index i ≥ 1 | `audio/L16;rate=24000;channels=2` and a 4-byte chunk (one stereo frame): for i = 1 the test is 4 < 2 + 4, so the chunk is dropped | the test should check that the last sample read for channel i, at index (frames−1)·channels+i, lies inside the chunk, which always holds for whole frames; stereo chunks should play | high for the reading of the code; not executed | PcmDecode.AsWrittenDropsMultichannel | PcmDecode.DecodeChunk, PcmDecode.LastSampleInBounds |
