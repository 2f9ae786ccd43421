/**
 * The app's live-audio path: one turn starts the live session, shows a
 * placeholder in the assistant's message, sends the prompt and replays what
 * the service hands to the app's callbacks. Text chunks build up the
 * assistant's message, audio chunks go to the player, errors replace the
 * message with an error and close the session. Starting a new conversation
 * stops the player, closes the session and resets the chat.
 */
module LiveWiring {
  import opened Wrappers
  import opened SeqFacts
  import opened JsText
  import opened Conversations
  import AudioPlayer
  import GeminiService
  import Base64
  import PcmMime

  /** The placeholder shown while the turn starts: "Connecting..." during a call, "..." otherwise. */
  const Connecting := "يتصل..."
  const Waiting := "..."
  /** "I could not start the live audio session." */
  const StartFailed := "لم أتمكن من بدء جلسة الصوت المباشر."

  /** What the live path touches: the chat, the player, the service, and the turn's transcript so far. */
  datatype App = App(
    chat: ChatState,
    player: AudioPlayer.PlayerState,
    service: GeminiService.ServiceState,
    accumulated: string)

  function TextArgs(text: string): MessageArgs {
    MessageArgs(TextMessage, Some(text), None, None, None, None)
  }

  function ErrorArgs(text: string): MessageArgs {
    MessageArgs(ErrorMessage, Some(text), None, None, None, None)
  }

  /** The assistant's message `id` as it stands, if it is listed. */
  function MessageWith(ms: seq<ChatMessage>, id: string): Option<ChatMessage> {
    match FindMessage(ms, id)
    case None => None
    case Some(i) => Some(ms[i])
  }

  /** Writes `args` into the assistant's message `id`, creating it when it is not there yet. */
  function Show(a: App, args: MessageArgs, id: string, now: int): (r: App)
    ensures r.player == a.player && r.service == a.service && r.accumulated == a.accumulated
    ensures r.chat.conversations == a.chat.conversations && r.chat.currentId == a.chat.currentId
    ensures UniqueIds(a.chat.messages) ==> UniqueIds(r.chat.messages)
  {
    var r := a.(chat := a.chat.(messages := AddMessage(a.chat.messages, AI, args, Some(id), id, now)));
    if UniqueIds(a.chat.messages) then
      AddMessageKeepsIdsUnique(a.chat.messages, AI, args, Some(id), id, now);
      r
    else r
  }

  /** The text shown when the turn's text ends: the trimmed transcript, or a single space when nothing is left. */
  function FinalText(acc: string): (t: string)
    ensures t != [] && (t == " " <==> Trim(acc) == [])
    ensures t != " " ==> t == Trim(acc)
  {
    if Trim(acc) != [] then
      assert !IsJsSpace(Trim(acc)[|Trim(acc)| - 1]);
      Trim(acc)
    else " "
  }

  /** The text callback: a partial chunk extends the transcript and shows it; the end of the text shows it trimmed. */
  function OnText(a: App, chunk: string, isPartial: bool, id: string, now: int): (r: App)
    ensures r.player == a.player && r.service == a.service
    ensures r.chat.conversations == a.chat.conversations && r.chat.currentId == a.chat.currentId
    ensures r.accumulated == if isPartial then a.accumulated + chunk else a.accumulated
    ensures UniqueIds(a.chat.messages) ==> UniqueIds(r.chat.messages)
  {
    if isPartial then
      var acc := a.accumulated + chunk;
      Show(a.(accumulated := acc), TextArgs(acc), id, now)
    else Show(a, TextArgs(FinalText(a.accumulated)), id, now)
  }

  /**
   * The audio callback passed with the prompt: the format is set from the
   * chunk's type when the player is idle or has no format, and the chunk is
   * then added.
   */
  function OnAudio(a: App, data: string, mimeType: string, resumeOk: bool, accepts: AudioPlayer.Engine): (r: App)
    requires AudioPlayer.Inv(a.player)
    ensures AudioPlayer.Inv(r.player) && r.chat == a.chat && r.service == a.service
  {
    var p := if !AudioPlayer.Active(a.player) || a.player.format.None? then AudioPlayer.SetFormatStep(a.player, mimeType)
             else a.player;
    AudioPlayer.StepsKeepInv(a.player, mimeType, data, resumeOk, accepts);
    AudioPlayer.StepsKeepInv(p, mimeType, data, resumeOk, accepts);
    a.(player := AudioPlayer.AddChunkStep(p, data, resumeOk, accepts))
  }

  /**
   * The audio callback passed when the session starts: the format is set only
   * when the player is idle. The service never stores or calls it.
   */
  function OnAudioAtStart(a: App, data: string, mimeType: string, resumeOk: bool, accepts: AudioPlayer.Engine): (r: App)
    requires AudioPlayer.Inv(a.player)
    ensures AudioPlayer.Inv(r.player) && r.chat == a.chat && r.service == a.service
  {
    var p := if !AudioPlayer.Active(a.player) then AudioPlayer.SetFormatStep(a.player, mimeType) else a.player;
    AudioPlayer.StepsKeepInv(a.player, mimeType, data, resumeOk, accepts);
    AudioPlayer.StepsKeepInv(p, mimeType, data, resumeOk, accepts);
    a.(player := AudioPlayer.AddChunkStep(p, data, resumeOk, accepts))
  }

  /** The error callback: the message becomes an error and the live session is closed. */
  function OnError(a: App, message: string, id: string, now: int): (r: App)
    ensures r.player == a.player && r.accumulated == a.accumulated
    ensures r.chat.conversations == a.chat.conversations && r.chat.currentId == a.chat.currentId
    ensures !GeminiService.LiveActive(r.service) && r.service.queue == []
    ensures r.service.turnCallback.None? && r.service.errorCallback.None?
    ensures UniqueIds(a.chat.messages) ==> UniqueIds(r.chat.messages)
    ensures UniqueIds(a.chat.messages) && !StartsWith(id, AnnouncementPrefix) ==>
      MessageWith(r.chat.messages, id).Some? && MessageWith(r.chat.messages, id).value.kind == ErrorMessage
      && MessageWith(r.chat.messages, id).value.text == Some(message)
  {
    var r := Show(a, ErrorArgs(message), id, now).(service := GeminiService.CloseStep(a.service));
    if UniqueIds(a.chat.messages) && !StartsWith(id, AnnouncementPrefix) then
      ShowSetsMessage(a, ErrorArgs(message), id, now);
      r
    else r
  }

  /**
   * One callback invocation. Text and audio go to the callbacks passed with
   * the prompt, so they belong to the current turn `id`. The error callback is
   * the one stored when the session was opened: it writes into the message of
   * the turn that opened the session, named by its handler. The turn-complete
   * callback only touches loading and call indicators and the microphone, none
   * of which is modelled.
   */
  function Apply(a: App, e: GeminiService.Event, id: string, now: int, resumeOk: bool, accepts: AudioPlayer.Engine,
                 describe: GeminiService.ErrorKind -> string): (r: App)
    requires AudioPlayer.Inv(a.player)
    ensures AudioPlayer.Inv(r.player)
    ensures r.chat.conversations == a.chat.conversations && r.chat.currentId == a.chat.currentId
    ensures UniqueIds(a.chat.messages) ==> UniqueIds(r.chat.messages)
    ensures e.Text? ==> r.player == a.player && r.service == a.service
    ensures e.Audio? ==> r.chat == a.chat && r.service == a.service && r.accumulated == a.accumulated
    ensures e.TurnComplete? ==> r == a
    ensures e.Error? ==> r.player == a.player && !GeminiService.LiveActive(r.service)
    ensures e.Error? && UniqueIds(a.chat.messages) && e.handler != id ==>
      MessageWith(r.chat.messages, id) == MessageWith(a.chat.messages, id)
    ensures e.Error? && UniqueIds(a.chat.messages) && !StartsWith(e.handler, AnnouncementPrefix) ==>
      MessageWith(r.chat.messages, e.handler).Some? && MessageWith(r.chat.messages, e.handler).value.kind == ErrorMessage
      && MessageWith(r.chat.messages, e.handler).value.text == Some(describe(e.kind))
  {
    match e
    case Text(t, isPartial) => OnText(a, t, isPartial, id, now)
    case Audio(data, mimeType) => OnAudio(a, data, mimeType, resumeOk, accepts)
    case TurnComplete(_) => a
    case Error(h, kind) =>
      if UniqueIds(a.chat.messages) && h != id then
        ShowKeepsOthers(a, ErrorArgs(describe(kind)), h, id, now);
        OnError(a, describe(kind), h, now)
      else OnError(a, describe(kind), h, now)
  }

  /** The callback invocations in the order the service made them. */
  function Replay(a: App, es: seq<GeminiService.Event>, id: string, now: int, resumeOk: bool, accepts: AudioPlayer.Engine,
                  describe: GeminiService.ErrorKind -> string): (r: App)
    requires AudioPlayer.Inv(a.player)
    ensures AudioPlayer.Inv(r.player)
    ensures r.chat.conversations == a.chat.conversations && r.chat.currentId == a.chat.currentId
    ensures UniqueIds(a.chat.messages) ==> UniqueIds(r.chat.messages)
    ensures (forall i :: 0 <= i < |es| ==> !es[i].Error?) ==> r.service == a.service
    decreases |es|
  {
    if es == [] then a
    else Replay(Apply(a, es[0], id, now, resumeOk, accepts, describe), es[1..], id, now, resumeOk, accepts, describe)
  }

  /**
   * One live turn: the session is started with the app's callbacks, named by
   * the turn's message id; on success the placeholder is shown and the prompt
   * sent, the callbacks replayed; on failure the message shows that the session
   * could not start. One clock reading serves the whole turn.
   */
  function LiveTurn(a: App, prompt: string, id: string, now: int, isCallActive: bool, connectOk: bool, sendOk: bool,
                    resumeOk: bool, accepts: AudioPlayer.Engine, describe: GeminiService.ErrorKind -> string): (r: App)
    requires AudioPlayer.Inv(a.player)
    ensures AudioPlayer.Inv(r.player)
    ensures r.chat.conversations == a.chat.conversations && r.chat.currentId == a.chat.currentId
    ensures UniqueIds(a.chat.messages) ==> UniqueIds(r.chat.messages)
    ensures !GeminiService.StartStep(a.service, id, id, connectOk).1 && UniqueIds(a.chat.messages)
            && !StartsWith(id, AnnouncementPrefix) ==>
      MessageWith(r.chat.messages, id).Some? && MessageWith(r.chat.messages, id).value.kind == ErrorMessage
      && MessageWith(r.chat.messages, id).value.text == Some(StartFailed)
  {
    var a0 := a.(accumulated := "");
    var (s1, started) := GeminiService.StartStep(a0.service, id, id, connectOk);
    var a1 := Replay(a0.(service := s1), s1.events[|a0.service.events|..], id, now, resumeOk, accepts, describe);
    if started then
      var a2 := Show(a1, TextArgs(if isCallActive then Connecting else Waiting), id, now);
      var (s3, _) := GeminiService.SendStep(a2.service, prompt, sendOk);
      Replay(a2.(service := s3), s3.events[|a2.service.events|..], id, now, resumeOk, accepts, describe)
    else if UniqueIds(a.chat.messages) && !StartsWith(id, AnnouncementPrefix) then
      ShowSetsMessage(a1, ErrorArgs(StartFailed), id, now);
      Show(a1, ErrorArgs(StartFailed), id, now)
    else Show(a1, ErrorArgs(StartFailed), id, now)
  }

  /**
   * `startNewConversation` as seen by the live path: the player is stopped, an
   * open live session closed, the chat reset on the app's instruction and a new
   * conversation opened.
   */
  function StartNewConversation(a: App, hasUser: bool, isGuest: bool, now: nat, greeting: string, instruction: string,
                                adminSaved: string, extract: string -> string): (r: App)
    ensures !hasUser ==> r == a
    ensures hasUser ==> !AudioPlayer.Active(r.player) && !GeminiService.LiveActive(r.service)
                        && r.chat == StartNewStep(a.chat, true, isGuest, now, greeting)
    ensures hasUser && GeminiService.LiveActive(a.service) ==>
      r.service.queue == [] && r.service.turnCallback.None? && r.service.errorCallback.None?
  {
    if !hasUser then a
    else
      var service := if GeminiService.LiveActive(a.service) then GeminiService.CloseStep(a.service) else a.service;
      a.(player := AudioPlayer.StopStep(a.player),
         service := GeminiService.ResetStep(service, instruction, adminSaved, extract),
         chat := StartNewStep(a.chat, hasUser, isGuest, now, greeting))
  }

  // ---------------------------------------------------------------- properties

  /** The unique listed message with an id: `MessageWith` finds it. */
  lemma MessageWithUnique(ms: seq<ChatMessage>, id: string, i: nat)
    requires UniqueIds(ms) && i < |ms| && ms[i].id == id
    ensures MessageWith(ms, id) == Some(ms[i])
  {
    var k := FindMessage(ms, id);
    assert k.Some? && k.value <= i;
  }

  /** Showing text in the assistant's message leaves it the one message with that id, holding that text. */
  lemma ShowSetsMessage(a: App, args: MessageArgs, id: string, now: int)
    requires UniqueIds(a.chat.messages) && !StartsWith(id, AnnouncementPrefix) && args.text.Some?
    ensures var ms := Show(a, args, id, now).chat.messages;
      UniqueIds(ms) && MessageWith(ms, id).Some?
      && MessageWith(ms, id).value.text == args.text && MessageWith(ms, id).value.kind == args.kind
  {
    var prev := a.chat.messages;
    var ms := Show(a, args, id, now).chat.messages;
    AddMessageKeepsIdsUnique(prev, AI, args, Some(id), id, now);
    assert MessageId(Some(id), id) == id;
    match FindMessage(prev, id)
    case Some(i) =>
      AddMessageUpdatesInPlace(prev, AI, args, Some(id), id, now, i);
      MessageWithUnique(prev, id, i);
      MessageWithUnique(ms, id, i);
    case None =>
      AddMessageAppends(prev, AI, args, Some(id), id, now);
      MessageWithUnique(ms, id, |prev|);
  }

  /** Writing into one message leaves the message with any other id as it was. */
  lemma ShowKeepsOthers(a: App, args: MessageArgs, h: string, id: string, now: int)
    requires UniqueIds(a.chat.messages) && h != id
    ensures MessageWith(Show(a, args, h, now).chat.messages, id) == MessageWith(a.chat.messages, id)
  {
    var prev := a.chat.messages;
    var ms := Show(a, args, h, now).chat.messages;
    AddMessageKeepsIdsUnique(prev, AI, args, Some(h), h, now);
    assert MessageId(Some(h), h) == h;
    if !KnownAnnouncement(prev, Some(h)) {
      var fh := FindMessage(prev, h);
      if fh.Some? {
        AddMessageUpdatesInPlace(prev, AI, args, Some(h), h, now, fh.value);
      } else {
        AddMessageAppends(prev, AI, args, Some(h), h, now);
      }
      assert |prev| <= |ms| && forall j :: 0 <= j < |prev| && prev[j].id != h ==> ms[j] == prev[j];
      var fi := FindMessage(prev, id);
      if fi.Some? {
        MessageWithUnique(prev, id, fi.value);
        MessageWithUnique(ms, id, fi.value);
      } else {
        assert forall j :: 0 <= j < |ms| ==> ms[j].id != id by {
          forall j | 0 <= j < |ms| ensures ms[j].id != id {
            if j < |prev| && prev[j].id != h { assert ms[j] == prev[j]; }
          }
        }
      }
    }
  }

  /**
   * Partial text chunks build up the transcript: after a run of them the
   * transcript has grown by their concatenation and the message shows all of it.
   */
  lemma {:induction false} PartialChunksAccumulate(a: App, chunks: seq<string>, id: string, now: int, resumeOk: bool,
                                                   accepts: AudioPlayer.Engine, describe: GeminiService.ErrorKind -> string)
    requires AudioPlayer.Inv(a.player) && UniqueIds(a.chat.messages) && !StartsWith(id, AnnouncementPrefix)
    ensures var r := Replay(a, PartialTexts(chunks), id, now, resumeOk, accepts, describe);
      r.accumulated == a.accumulated + Concat(chunks) && UniqueIds(r.chat.messages)
      && r.player == a.player && r.service == a.service
      && (chunks != [] ==> MessageWith(r.chat.messages, id).Some? && MessageWith(r.chat.messages, id).value.text == Some(r.accumulated))
    decreases |chunks|
  {
    if chunks == [] {
      assert a.accumulated + Concat(chunks) == a.accumulated;
    } else {
      var e := GeminiService.Text(chunks[0], true);
      var b := OnText(a, chunks[0], true, id, now);
      PartialChunkShown(a, chunks[0], id, now);
      assert Apply(a, e, id, now, resumeOk, accepts, describe) == b;
      ReplayCons(a, e, PartialTexts(chunks[1..]), id, now, resumeOk, accepts, describe);
      PartialChunksAccumulate(b, chunks[1..], id, now, resumeOk, accepts, describe);
      AppendAssociates(a.accumulated, chunks[0], Concat(chunks[1..]));
    }
  }

  /** The callback invocations of a run of partial text chunks. */
  function PartialTexts(chunks: seq<string>): seq<GeminiService.Event> {
    if chunks == [] then [] else [GeminiService.Text(chunks[0], true)] + PartialTexts(chunks[1..])
  }

  /** One partial chunk extends the transcript and the message shows all of it. */
  lemma PartialChunkShown(a: App, chunk: string, id: string, now: int)
    requires UniqueIds(a.chat.messages) && !StartsWith(id, AnnouncementPrefix)
    ensures var b := OnText(a, chunk, true, id, now);
      b.accumulated == a.accumulated + chunk && UniqueIds(b.chat.messages)
      && b.player == a.player && b.service == a.service
      && MessageWith(b.chat.messages, id).Some? && MessageWith(b.chat.messages, id).value.text == Some(b.accumulated)
  {
    ShowSetsMessage(a.(accumulated := a.accumulated + chunk), TextArgs(a.accumulated + chunk), id, now);
  }

  function Concat(chunks: seq<string>): string {
    if chunks == [] then [] else chunks[0] + Concat(chunks[1..])
  }

  /** The end of the text replaces the message's text with the trimmed transcript, never an empty one. */
  lemma EndOfTextShowsTrimmed(a: App, id: string, now: int)
    requires UniqueIds(a.chat.messages) && !StartsWith(id, AnnouncementPrefix)
    ensures var r := OnText(a, "", false, id, now);
      MessageWith(r.chat.messages, id).Some? && MessageWith(r.chat.messages, id).value.text == Some(FinalText(a.accumulated))
      && MessageWith(r.chat.messages, id).value.kind == TextMessage && r.accumulated == a.accumulated
      && UniqueIds(r.chat.messages) && r.service == a.service && r.player == a.player
  {
    ShowSetsMessage(a, TextArgs(FinalText(a.accumulated)), id, now);
  }

  /**
   * While the player is busy under a known format, the type that comes with a
   * chunk is ignored: the chunk is decoded under the current format and joins
   * the end of what is still to be played.
   */
  lemma TypeIgnoredWhilePlaying(a: App, data: string, mimeType: string, resumeOk: bool, accepts: AudioPlayer.Engine)
    requires AudioPlayer.Inv(a.player) && AudioPlayer.Active(a.player) && a.player.format.Some?
    ensures var r := OnAudio(a, data, mimeType, resumeOk, accepts);
      r.player.format == a.player.format
      && AudioPlayer.PendingOutput(r.player, accepts) == AudioPlayer.PendingOutput(a.player, accepts) +
        match Base64.Decode(data)
        case None => []
        case Some(bytes) => AudioPlayer.PlayableChunks(a.player.format.value, [bytes], accepts)
  {
    AudioPlayer.AddChunkAppendsOutput(a.player, data, resumeOk, accepts);
  }

  /** An idle player takes its format from the chunk's type before the chunk is added. */
  lemma IdlePlayerTakesType(a: App, data: string, mimeType: string, resumeOk: bool, accepts: AudioPlayer.Engine)
    requires AudioPlayer.Inv(a.player) && !AudioPlayer.Active(a.player)
    ensures OnAudio(a, data, mimeType, resumeOk, accepts).player.format == PcmMime.ParsePcmMimeType(mimeType)
  {
  }

  /**
   * The two audio callbacks differ only when the player is busy without a
   * format: the one passed with the prompt sets the format from the chunk, the
   * one passed at start would drop the chunk.
   */
  lemma AudioCallbacksCompared(a: App, data: string, mimeType: string, resumeOk: bool, accepts: AudioPlayer.Engine)
    requires AudioPlayer.Inv(a.player)
    ensures a.player.format.Some? || !AudioPlayer.Active(a.player) ==>
      OnAudioAtStart(a, data, mimeType, resumeOk, accepts) == OnAudio(a, data, mimeType, resumeOk, accepts)
    ensures a.player.format.None? && AudioPlayer.Active(a.player) ==>
      OnAudioAtStart(a, data, mimeType, resumeOk, accepts) == a
  {
  }

  /**
   * Without a configured key the turn ends with one message under the turn's
   * id: an error saying the session could not start. The service's own error
   * is overwritten, and no session is open.
   */
  lemma NoKeyShowsStartFailed(a: App, prompt: string, id: string, now: int, isCallActive: bool, connectOk: bool,
                              sendOk: bool, resumeOk: bool, accepts: AudioPlayer.Engine,
                              describe: GeminiService.ErrorKind -> string)
    requires AudioPlayer.Inv(a.player) && UniqueIds(a.chat.messages) && !StartsWith(id, AnnouncementPrefix)
    requires !GeminiService.KeyConfigured(a.service.apiKey)
    ensures var r := LiveTurn(a, prompt, id, now, isCallActive, connectOk, sendOk, resumeOk, accepts, describe);
      UniqueIds(r.chat.messages) && MessageWith(r.chat.messages, id).Some?
      && MessageWith(r.chat.messages, id).value.kind == ErrorMessage
      && MessageWith(r.chat.messages, id).value.text == Some(StartFailed)
      && !GeminiService.LiveActive(r.service) && r.player == a.player
  {
    var a0 := a.(accumulated := "");
    var s1 := GeminiService.StartStep(a0.service, id, id, connectOk).0;
    assert s1.events[|a0.service.events|..] == [GeminiService.Error(id, GeminiService.MissingApiKey)];
    var a1 := OnError(a0.(service := s1), describe(GeminiService.MissingApiKey), id, now);
    assert Replay(a0.(service := s1), [GeminiService.Error(id, GeminiService.MissingApiKey)], id, now, resumeOk, accepts, describe) == a1;
    ShowSetsMessage(a0.(service := s1), ErrorArgs(describe(GeminiService.MissingApiKey)), id, now);
    ShowSetsMessage(a1, ErrorArgs(StartFailed), id, now);
  }

  /** The reply of a turn made of one text part. */
  function TextReply(reply: string): GeminiService.ServerMessage {
    GeminiService.ServerMessage([GeminiService.Part(Some(reply), None)], true)
  }

  /** What the drain hands to the app for that reply: the text, the end of the text, the end of the turn. */
  lemma TextReplyDrain(reply: string, h: GeminiService.Handler)
    requires reply != []
    ensures GeminiService.DrainSpec([TextReply(reply)], Some(h))
         == GeminiService.Drain([GeminiService.Text(reply, true), GeminiService.Text("", false), GeminiService.TurnComplete(h)], [], true)
  {
    var m := TextReply(reply);
    GeminiService.DrainStopsAtFirstComplete([], m, [], Some(h));
    assert [] + [m] + [] == [m];
    assert GeminiService.MessagesEvents([]) == [];
    assert GeminiService.PartsEvents(m.parts) == [GeminiService.Text(reply, true)];
  }

  /** Replaying a list of callbacks is applying the first one, then replaying the rest. */
  lemma ReplayCons(a: App, e: GeminiService.Event, es: seq<GeminiService.Event>, id: string, now: int, resumeOk: bool,
                   accepts: AudioPlayer.Engine, describe: GeminiService.ErrorKind -> string)
    requires AudioPlayer.Inv(a.player)
    ensures Replay(a, [e] + es, id, now, resumeOk, accepts, describe)
         == Replay(Apply(a, e, id, now, resumeOk, accepts, describe), es, id, now, resumeOk, accepts, describe)
  {
    assert ([e] + es)[1..] == es;
  }

  /** Replaying one trace and then another is replaying them joined: the callbacks act in order. */
  lemma {:induction false} ReplayAppend(a: App, es: seq<GeminiService.Event>, fs: seq<GeminiService.Event>, id: string,
                                        now: int, resumeOk: bool, accepts: AudioPlayer.Engine,
                                        describe: GeminiService.ErrorKind -> string)
    requires AudioPlayer.Inv(a.player)
    ensures Replay(a, es + fs, id, now, resumeOk, accepts, describe)
         == Replay(Replay(a, es, id, now, resumeOk, accepts, describe), fs, id, now, resumeOk, accepts, describe)
    decreases |es|
  {
    if es == [] {
      assert es + fs == fs;
    } else {
      ConsThenAppend(es, fs);
      ReplayAppend(Apply(a, es[0], id, now, resumeOk, accepts, describe), es[1..], fs, id, now, resumeOk, accepts, describe);
    }
  }

  /** The callbacks of a one-part text reply amount to showing the chunk, then the end of the text. */
  lemma TextReplyReplay(b: App, reply: string, h: GeminiService.Handler, id: string, now: int, resumeOk: bool,
                        accepts: AudioPlayer.Engine, describe: GeminiService.ErrorKind -> string)
    requires AudioPlayer.Inv(b.player)
    ensures Replay(b, [GeminiService.Text(reply, true), GeminiService.Text("", false), GeminiService.TurnComplete(h)],
                   id, now, resumeOk, accepts, describe)
         == OnText(OnText(b, reply, true, id, now), "", false, id, now)
  {
    var b1 := Apply(b, GeminiService.Text(reply, true), id, now, resumeOk, accepts, describe);
    var b2 := Apply(b1, GeminiService.Text("", false), id, now, resumeOk, accepts, describe);
    ReplayCons(b, GeminiService.Text(reply, true), [GeminiService.Text("", false), GeminiService.TurnComplete(h)],
               id, now, resumeOk, accepts, describe);
    ReplayCons(b1, GeminiService.Text("", false), [GeminiService.TurnComplete(h)], id, now, resumeOk, accepts, describe);
    ReplayCons(b2, GeminiService.TurnComplete(h), [], id, now, resumeOk, accepts, describe);
    assert [GeminiService.Text(reply, true)] + [GeminiService.Text("", false), GeminiService.TurnComplete(h)]
        == [GeminiService.Text(reply, true), GeminiService.Text("", false), GeminiService.TurnComplete(h)];
    assert [GeminiService.Text("", false)] + [GeminiService.TurnComplete(h)]
        == [GeminiService.Text("", false), GeminiService.TurnComplete(h)];
    assert [GeminiService.TurnComplete(h)] + [] == [GeminiService.TurnComplete(h)];
  }

  /** Replaying those callbacks from an empty transcript shows the trimmed reply. */
  lemma TextReplyShown(b: App, reply: string, h: GeminiService.Handler, id: string, now: int, resumeOk: bool,
                       accepts: AudioPlayer.Engine, describe: GeminiService.ErrorKind -> string)
    requires AudioPlayer.Inv(b.player) && UniqueIds(b.chat.messages) && !StartsWith(id, AnnouncementPrefix)
    requires b.accumulated == []
    ensures var r := Replay(b, [GeminiService.Text(reply, true), GeminiService.Text("", false), GeminiService.TurnComplete(h)],
                            id, now, resumeOk, accepts, describe);
      UniqueIds(r.chat.messages) && MessageWith(r.chat.messages, id).Some?
      && MessageWith(r.chat.messages, id).value.text == Some(FinalText(reply))
      && MessageWith(r.chat.messages, id).value.kind == TextMessage && r.service == b.service
  {
    TextReplyReplay(b, reply, h, id, now, resumeOk, accepts, describe);
    ReplyMessageShown(b, reply, id, now);
  }

  /** A whole reply chunk followed by the end of the text shows the trimmed reply. */
  lemma ReplyMessageShown(b: App, reply: string, id: string, now: int)
    requires UniqueIds(b.chat.messages) && !StartsWith(id, AnnouncementPrefix) && b.accumulated == []
    ensures var r := OnText(OnText(b, reply, true, id, now), "", false, id, now);
      UniqueIds(r.chat.messages) && MessageWith(r.chat.messages, id).Some?
      && MessageWith(r.chat.messages, id).value.text == Some(FinalText(reply))
      && MessageWith(r.chat.messages, id).value.kind == TextMessage && r.service == b.service
  {
    assert b.accumulated + reply == reply;
    var b1 := OnText(b, reply, true, id, now);
    assert b1 == Show(b.(accumulated := reply), TextArgs(reply), id, now);
    ShowSetsMessage(b.(accumulated := reply), TextArgs(reply), id, now);
    assert b1.accumulated == reply && b1.service == b.service;
    EndOfTextShowsTrimmed(b1, id, now);
  }

  /**
   * A turn whose reply is one text part and the end of the turn shows that
   * text, trimmed, in the assistant's message, and leaves the session open
   * with the prompt sent and the queue drained.
   */
  lemma SpokenReplyShown(a: App, prompt: string, reply: string, id: string, now: int, isCallActive: bool,
                         resumeOk: bool, accepts: AudioPlayer.Engine, describe: GeminiService.ErrorKind -> string)
    requires AudioPlayer.Inv(a.player) && UniqueIds(a.chat.messages) && !StartsWith(id, AnnouncementPrefix)
    requires GeminiService.KeyConfigured(a.service.apiKey) && a.service.liveSession.None? && reply != []
    requires a.service.queue == [TextReply(reply)]
    ensures var r := LiveTurn(a, prompt, id, now, isCallActive, true, true, resumeOk, accepts, describe);
      UniqueIds(r.chat.messages) && MessageWith(r.chat.messages, id).Some?
      && MessageWith(r.chat.messages, id).value.text == Some(FinalText(reply))
      && MessageWith(r.chat.messages, id).value.kind == TextMessage
      && GeminiService.LiveActive(r.service) && r.service.queue == [] && r.service.sent == a.service.sent + [prompt]
  {
    var a0 := a.(accumulated := "");
    var s1 := GeminiService.StartStep(a0.service, id, id, true).0;
    assert s1.events[|a0.service.events|..] == [];
    var a1 := a0.(service := s1);
    var a2 := Show(a1, TextArgs(if isCallActive then Connecting else Waiting), id, now);
    ShowSetsMessage(a1, TextArgs(if isCallActive then Connecting else Waiting), id, now);
    TextReplyDrain(reply, id);
    var s3 := GeminiService.SendStep(a2.service, prompt, true).0;
    var es := [GeminiService.Text(reply, true), GeminiService.Text("", false), GeminiService.TurnComplete(id)];
    assert s3.events[|a2.service.events|..] == es;
    TextReplyShown(a2.(service := s3), reply, id, id, now, resumeOk, accepts, describe);
  }

  /**
   * Over a session another turn opened, a send that fails is reported by the
   * stored error callback: the opening turn's message becomes the error and
   * the session is closed, while this turn's message keeps its placeholder.
   */
  lemma SendErrorReachesOpeningTurn(a: App, prompt: string, id: string, now: int, isCallActive: bool, connectOk: bool,
                                    resumeOk: bool, accepts: AudioPlayer.Engine, describe: GeminiService.ErrorKind -> string)
    requires AudioPlayer.Inv(a.player) && UniqueIds(a.chat.messages) && !StartsWith(id, AnnouncementPrefix)
    requires GeminiService.Inv(a.service) && a.service.liveSession.Some?
    requires a.service.errorCallback != Some(id)
    ensures var r := LiveTurn(a, prompt, id, now, isCallActive, connectOk, false, resumeOk, accepts, describe);
      var opener := a.service.errorCallback.value;
      MessageWith(r.chat.messages, id).Some?
      && MessageWith(r.chat.messages, id).value.text == Some(if isCallActive then Connecting else Waiting)
      && (!StartsWith(opener, AnnouncementPrefix) ==>
            MessageWith(r.chat.messages, opener).Some?
            && MessageWith(r.chat.messages, opener).value.kind == ErrorMessage
            && MessageWith(r.chat.messages, opener).value.text == Some(describe(GeminiService.SendFailed)))
      && !GeminiService.LiveActive(r.service)
  {
    var opener := a.service.errorCallback.value;
    var args := TextArgs(if isCallActive then Connecting else Waiting);
    var a2 := Show(a.(accumulated := ""), args, id, now);
    ShowSetsMessage(a.(accumulated := ""), args, id, now);
    var b := a2.(service := GeminiService.SendStep(a2.service, prompt, false).0);
    var e := GeminiService.Error(opener, GeminiService.SendFailed);
    FailedSendTurn(a, prompt, id, now, isCallActive, connectOk, resumeOk, accepts, describe);
    var r := Apply(b, e, id, now, resumeOk, accepts, describe);
    assert MessageWith(r.chat.messages, id) == MessageWith(b.chat.messages, id);
  }

  /** Over an open session, a turn whose send fails shows the placeholder and then applies the reported error. */
  lemma FailedSendTurn(a: App, prompt: string, id: string, now: int, isCallActive: bool, connectOk: bool,
                       resumeOk: bool, accepts: AudioPlayer.Engine, describe: GeminiService.ErrorKind -> string)
    requires AudioPlayer.Inv(a.player) && GeminiService.Inv(a.service) && a.service.liveSession.Some?
    ensures var a2 := Show(a.(accumulated := ""), TextArgs(if isCallActive then Connecting else Waiting), id, now);
      var b := a2.(service := GeminiService.SendStep(a2.service, prompt, false).0);
      LiveTurn(a, prompt, id, now, isCallActive, connectOk, false, resumeOk, accepts, describe)
      == Apply(b, GeminiService.Error(a.service.errorCallback.value, GeminiService.SendFailed), id, now, resumeOk, accepts, describe)
  {
    var a0 := a.(accumulated := "");
    assert GeminiService.StartStep(a0.service, id, id, connectOk) == (a.service, true);
    assert a.service.events[|a.service.events|..] == [];
    assert Replay(a0, [], id, now, resumeOk, accepts, describe) == a0;
    var a2 := Show(a0, TextArgs(if isCallActive then Connecting else Waiting), id, now);
    var b := a2.(service := GeminiService.SendStep(a2.service, prompt, false).0);
    var e := GeminiService.Error(a.service.errorCallback.value, GeminiService.SendFailed);
    FailedSendReported(a2.service, prompt);
    ReplayOne(b, e, id, now, resumeOk, accepts, describe);
  }

  /** A send over an open session that fails is reported once, to the stored error callback. */
  lemma FailedSendReported(s: GeminiService.ServiceState, prompt: string)
    requires GeminiService.Inv(s) && s.liveSession.Some?
    ensures var t := GeminiService.SendStep(s, prompt, false).0;
      t.events[|s.events|..] == [GeminiService.Error(s.errorCallback.value, GeminiService.SendFailed)]
  {
    var t := GeminiService.SendStep(s, prompt, false).0;
    assert t.events == s.events + [GeminiService.Error(s.errorCallback.value, GeminiService.SendFailed)];
  }

  /** Replaying a single event is applying it. */
  lemma ReplayOne(a: App, e: GeminiService.Event, id: string, now: int, resumeOk: bool, accepts: AudioPlayer.Engine,
                  describe: GeminiService.ErrorKind -> string)
    requires AudioPlayer.Inv(a.player)
    ensures Replay(a, [e], id, now, resumeOk, accepts, describe) == Apply(a, e, id, now, resumeOk, accepts, describe)
  {
    assert [e][1..] == [];
  }

  /** A new conversation leaves nothing playing, no live session and only the greeting in the chat. */
  lemma NewConversationSilencesAudio(a: App, isGuest: bool, now: nat, greeting: string, instruction: string,
                                     adminSaved: string, extract: string -> string)
    requires AudioPlayer.Inv(a.player)
    ensures var r := StartNewConversation(a, true, isGuest, now, greeting, instruction, adminSaved, extract);
      !AudioPlayer.Active(r.player) && AudioPlayer.PendingOutput(r.player, (x: int, y: int, z: int) => true) == a.player.started
      && !GeminiService.LiveActive(r.service) && r.chat.messages == [InitialMessage(now, greeting)]
      && (GeminiService.LiveActive(a.service) ==> r.service.queue == [] && r.service.turnCallback.None?)
  {
  }
}
