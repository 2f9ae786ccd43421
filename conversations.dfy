/**
 * The chat bookkeeping of the app: the message list of the open conversation
 * and the list of saved conversations. Messages are upserted by id; saving
 * writes the open conversation's messages (announcements left out) into its
 * entry, names it from its first meaningful text, sorts the list by recency
 * and keeps at most ten entries, or one for a guest. Clock readings, generated
 * ids and the guest's time-of-day label are parameters.
 */
module Conversations {
  import opened Wrappers
  import opened SeqFacts
  import opened JsText

  datatype Sender = User | AI | System

  datatype MessageType = TextMessage | ImageMessage | ErrorMessage | LoadingMessage

  datatype GroundingChunk = GroundingChunk(uri: Option<string>, title: string)

  /** A chat message; `None` stands for a field left undefined. */
  datatype ChatMessage = ChatMessage(
    id: string,
    sender: Sender,
    kind: MessageType,
    text: Option<string>,
    imageUrl: Option<string>,
    timestamp: int,
    groundingChunks: Option<seq<GroundingChunk>>,
    uploadedImagePreviewUrl: Option<string>,
    isImageQuery: Option<bool>)

  datatype Conversation = Conversation(id: string, name: string, messages: seq<ChatMessage>, lastUpdated: int)

  /** The arguments of `addMessage` that become fields of the message. */
  datatype MessageArgs = MessageArgs(
    kind: MessageType,
    text: Option<string>,
    imageUrl: Option<string>,
    groundingChunks: Option<seq<GroundingChunk>>,
    uploadedImagePreviewUrl: Option<string>,
    isImageQuery: Option<bool>)

  const MaxConversationsToKeep := 10
  const AnnouncementPrefix := "announcement-"
  /** "New conversation", the name a conversation starts with. */
  const NewConversationName := "محادثة جديدة"
  /** "Guest conversation", the start of a guest conversation's name. */
  const GuestConversationName := "محادثة ضيف"
  /** How many characters of its first text name a conversation. */
  const NameLength := 30

  /** A JavaScript string is truthy when it is present and not empty. */
  predicate Present(o: Option<string>) {
    o.Some? && o.value != []
  }

  predicate HasMessage(ms: seq<ChatMessage>, id: string) {
    exists i :: 0 <= i < |ms| && ms[i].id == id
  }

  predicate UniqueIds(ms: seq<ChatMessage>) {
    forall i, j :: 0 <= i < j < |ms| ==> ms[i].id != ms[j].id
  }

  // ---------------------------------------------------------------- addMessage

  /** The id of a new message: the override when it is truthy, else a generated one. */
  function MessageId(idOverride: Option<string>, generatedId: string): string {
    if Present(idOverride) then idOverride.value else generatedId
  }

  /** `findIndex` by id, from position `from` on. */
  function FindMessageFrom(ms: seq<ChatMessage>, id: string, from: nat): (r: Option<nat>)
    requires from <= |ms|
    ensures r.Some? ==> from <= r.value < |ms| && ms[r.value].id == id
    ensures r.Some? ==> forall j :: from <= j < r.value ==> ms[j].id != id
    ensures r.None? ==> forall j :: from <= j < |ms| ==> ms[j].id != id
    decreases |ms| - from
  {
    if from == |ms| then None
    else if ms[from].id == id then Some(from)
    else FindMessageFrom(ms, id, from + 1)
  }

  function FindMessage(ms: seq<ChatMessage>, id: string): (r: Option<nat>)
    ensures r.Some? <==> HasMessage(ms, id)
    ensures r.Some? ==> r.value < |ms| && ms[r.value].id == id && forall j :: 0 <= j < r.value ==> ms[j].id != id
  {
    FindMessageFrom(ms, id, 0)
  }

  /** An existing message updated by `addMessage`: the given fields replace the old ones, the rest stay. */
  function Merge(current: ChatMessage, args: MessageArgs, now: int): ChatMessage {
    current.(
      text := if args.text.Some? then args.text else current.text,
      imageUrl := if args.imageUrl.Some? then args.imageUrl else current.imageUrl,
      kind := args.kind,
      timestamp := now,
      groundingChunks := if args.groundingChunks.Some? then args.groundingChunks else current.groundingChunks,
      uploadedImagePreviewUrl := if args.uploadedImagePreviewUrl.Some? then args.uploadedImagePreviewUrl else current.uploadedImagePreviewUrl,
      isImageQuery := if args.isImageQuery.Some? then args.isImageQuery else current.isImageQuery)
  }

  function Fresh(id: string, sender: Sender, args: MessageArgs, now: int): ChatMessage {
    ChatMessage(id, sender, args.kind, args.text, args.imageUrl, now, args.groundingChunks,
                args.uploadedImagePreviewUrl, args.isImageQuery)
  }

  /** An announcement override that is already listed: `addMessage` leaves the list alone. */
  predicate KnownAnnouncement(prev: seq<ChatMessage>, idOverride: Option<string>) {
    idOverride.Some? && StartsWith(idOverride.value, AnnouncementPrefix) && HasMessage(prev, idOverride.value)
  }

  /**
   * The `addMessage` updater: a known announcement changes nothing; a message
   * whose id is listed is updated where it stands; any other is appended.
   */
  function AddMessage(prev: seq<ChatMessage>, sender: Sender, args: MessageArgs, idOverride: Option<string>,
                      generatedId: string, now: int): (r: seq<ChatMessage>)
    ensures |r| == |prev| <==> KnownAnnouncement(prev, idOverride) || HasMessage(prev, MessageId(idOverride, generatedId))
    ensures |r| == |prev| || |r| == |prev| + 1
    ensures !KnownAnnouncement(prev, idOverride) ==> HasMessage(r, MessageId(idOverride, generatedId))
  {
    var id := MessageId(idOverride, generatedId);
    if KnownAnnouncement(prev, idOverride) then prev
    else match FindMessage(prev, id)
      case Some(i) =>
        var r := prev[i := Merge(prev[i], args, now)];
        assert r[i].id == id;
        r
      case None =>
        var r := prev + [Fresh(id, sender, args, now)];
        assert r[|prev|].id == id;
        r
  }

  /**
   * A listed id is updated in place: same length, same positions, the message
   * keeps its id and sender, each field whose argument is given takes it, and
   * each field whose argument is undefined keeps its old value.
   */
  lemma AddMessageUpdatesInPlace(prev: seq<ChatMessage>, sender: Sender, args: MessageArgs, idOverride: Option<string>,
                                 generatedId: string, now: int, i: nat)
    requires i < |prev| && prev[i].id == MessageId(idOverride, generatedId) && UniqueIds(prev)
    requires !KnownAnnouncement(prev, idOverride)
    ensures var r := AddMessage(prev, sender, args, idOverride, generatedId, now);
      |r| == |prev| && (forall j :: 0 <= j < |prev| && j != i ==> r[j] == prev[j])
      && r[i].id == prev[i].id && r[i].sender == prev[i].sender && r[i].kind == args.kind && r[i].timestamp == now
      && (args.text.None? ==> r[i].text == prev[i].text) && (args.text.Some? ==> r[i].text == args.text)
      && (args.imageUrl.None? ==> r[i].imageUrl == prev[i].imageUrl) && (args.imageUrl.Some? ==> r[i].imageUrl == args.imageUrl)
      && (args.groundingChunks.None? ==> r[i].groundingChunks == prev[i].groundingChunks)
      && (args.groundingChunks.Some? ==> r[i].groundingChunks == args.groundingChunks)
      && (args.uploadedImagePreviewUrl.None? ==> r[i].uploadedImagePreviewUrl == prev[i].uploadedImagePreviewUrl)
      && (args.uploadedImagePreviewUrl.Some? ==> r[i].uploadedImagePreviewUrl == args.uploadedImagePreviewUrl)
      && (args.isImageQuery.None? ==> r[i].isImageQuery == prev[i].isImageQuery)
      && (args.isImageQuery.Some? ==> r[i].isImageQuery == args.isImageQuery)
  {
    var id := MessageId(idOverride, generatedId);
    var k := FindMessage(prev, id);
    assert k.Some? && k.value <= i;
  }

  /** A new id is appended at the end, after every message already listed. */
  lemma AddMessageAppends(prev: seq<ChatMessage>, sender: Sender, args: MessageArgs, idOverride: Option<string>,
                          generatedId: string, now: int)
    requires !HasMessage(prev, MessageId(idOverride, generatedId))
    ensures AddMessage(prev, sender, args, idOverride, generatedId, now)
         == prev + [Fresh(MessageId(idOverride, generatedId), sender, args, now)]
  {
  }

  /** A listed announcement is never added twice or overwritten. */
  lemma AnnouncementNotDuplicated(prev: seq<ChatMessage>, sender: Sender, args: MessageArgs, id: string,
                                  generatedId: string, now: int)
    requires StartsWith(id, AnnouncementPrefix) && HasMessage(prev, id)
    ensures AddMessage(prev, sender, args, Some(id), generatedId, now) == prev
  {
  }

  /** `addMessage` keeps message ids unique. */
  lemma AddMessageKeepsIdsUnique(prev: seq<ChatMessage>, sender: Sender, args: MessageArgs, idOverride: Option<string>,
                                 generatedId: string, now: int)
    requires UniqueIds(prev)
    ensures UniqueIds(AddMessage(prev, sender, args, idOverride, generatedId, now))
  {
    var id := MessageId(idOverride, generatedId);
    var r := AddMessage(prev, sender, args, idOverride, generatedId, now);
    if !KnownAnnouncement(prev, idOverride) && FindMessage(prev, id).None? {
      assert forall j :: 0 <= j < |prev| ==> r[j] == prev[j] && prev[j].id != id;
    }
  }

  /** Repeating an update through the same id is the same as doing it once. */
  lemma AddMessageIdempotent(prev: seq<ChatMessage>, sender: Sender, args: MessageArgs, id: string,
                             generatedId: string, now: int)
    requires id != []
    ensures var r := AddMessage(prev, sender, args, Some(id), generatedId, now);
      AddMessage(r, sender, args, Some(id), generatedId, now) == r
  {
    var r := AddMessage(prev, sender, args, Some(id), generatedId, now);
    if !KnownAnnouncement(prev, Some(id)) {
      var k := FindMessage(r, id).value;
      if !KnownAnnouncement(r, Some(id)) {
        assert r[k] == Merge(r[k], args, now) by {
          var i := FindMessage(prev, id);
          if i.Some? {
            var j := i.value;
            assert r[j].id == id;
            assert forall m :: 0 <= m < j ==> r[m] == prev[m];
          } else {
            assert forall j :: 0 <= j < |prev| ==> r[j].id != id;
            assert k == |prev|;
          }
        }
        assert r[k := Merge(r[k], args, now)] == r;
      }
    }
  }

  // ---------------------------------------------------------------- recency order

  predicate SortedByRecency(s: seq<Conversation>) {
    forall i, j :: 0 <= i < j < |s| ==> s[i].lastUpdated >= s[j].lastUpdated
  }

  /** Places `c` before the first entry that is not more recent than it. */
  function Insert(c: Conversation, t: seq<Conversation>): (r: seq<Conversation>)
    ensures multiset(r) == multiset(t) + multiset{c}
    ensures |r| == |t| + 1
  {
    if t == [] || c.lastUpdated >= t[0].lastUpdated then [c] + t
    else
      assert t == [t[0]] + t[1..];
      [t[0]] + Insert(c, t[1..])
  }

  /** Inserting into a list sorted by recency keeps it sorted; the new head is `c` or the old head. */
  lemma {:induction false} InsertSorted(c: Conversation, t: seq<Conversation>)
    requires SortedByRecency(t)
    ensures SortedByRecency(Insert(c, t))
    ensures Insert(c, t)[0] == c || (t != [] && Insert(c, t)[0] == t[0])
  {
    if t != [] && c.lastUpdated < t[0].lastUpdated {
      var tail := Insert(c, t[1..]);
      InsertSorted(c, t[1..]);
      assert tail[0].lastUpdated <= t[0].lastUpdated by {
        if tail[0] != c { assert tail[0] == t[1]; }
      }
      var r := [t[0]] + tail;
      forall i, j | 0 <= i < j < |r|
        ensures r[i].lastUpdated >= r[j].lastUpdated
      {
        assert r[j] == tail[j - 1];
        if i == 0 {
          assert tail[0].lastUpdated >= tail[j - 1].lastUpdated;
        } else {
          assert r[i] == tail[i - 1];
        }
      }
      assert Insert(c, t) == r;
    }
  }

  /** `sort((a, b) => b.lastUpdated - a.lastUpdated)`: most recent first; entries of equal age keep their order. */
  function SortByRecency(s: seq<Conversation>): (r: seq<Conversation>)
    ensures multiset(r) == multiset(s) && |r| == |s|
    ensures SortedByRecency(r)
  {
    if s == [] then []
    else
      assert s == [s[0]] + s[1..];
      InsertSorted(s[0], SortByRecency(s[1..]));
      Insert(s[0], SortByRecency(s[1..]))
  }

  /** A conversation more recent than every other one comes first. */
  lemma NewestComesFirst(s: seq<Conversation>, i: nat)
    requires i < |s| && forall j :: 0 <= j < |s| && j != i ==> s[j].lastUpdated < s[i].lastUpdated
    ensures SortByRecency(s)[0] == s[i]
  {
    var r := SortByRecency(s);
    assert s[i] in multiset(r);
    var k :| 0 <= k < |r| && r[k] == s[i];
    assert r[0] in multiset(s);
    var j :| 0 <= j < |s| && s[j] == r[0];
    assert r[0].lastUpdated >= r[k].lastUpdated by {
      if k != 0 { assert 0 < k; }
    }
  }

  /** How many entries a list of `n` keeps: at most ten, or one for a guest. */
  function KeptCount(n: nat, isGuest: bool): (k: nat)
    ensures k <= n && k <= (if isGuest then 1 else MaxConversationsToKeep)
    ensures n > 0 ==> k > 0
  {
    var limit := if isGuest then 1 else MaxConversationsToKeep;
    if n < limit then n else limit
  }

  /**
   * `kept` holds the newest entries of `all`: an entry left out is no more
   * recent than any entry kept.
   */
  predicate KeepsNewest(all: seq<Conversation>, kept: seq<Conversation>) {
    forall c, d :: c in all && c !in kept && d in kept ==> c.lastUpdated <= d.lastUpdated
  }

  /** A prefix of a list sorted by recency holds its newest entries. */
  lemma PrefixKeepsNewest(s: seq<Conversation>, k: nat)
    requires SortedByRecency(s) && k <= |s|
    ensures multiset(s[..k]) <= multiset(s)
    ensures KeepsNewest(s, s[..k])
    ensures SortedByRecency(s[..k])
  {
    assert s == s[..k] + s[k..];
    assert multiset(s) == multiset(s[..k]) + multiset(s[k..]);
    assert forall j :: 0 <= j < k ==> s[..k][j] == s[j];
  }

  /** Whether a list holds the newest entries does not depend on the order of the whole. */
  lemma KeepsNewestOfPermutation(a: seq<Conversation>, b: seq<Conversation>, kept: seq<Conversation>)
    requires multiset(a) == multiset(b) && KeepsNewest(b, kept)
    ensures KeepsNewest(a, kept)
  {
    forall c | c in a ensures c in b {
      assert c in multiset(a);
    }
  }

  /** Sorting then cutting keeps the newest entries, sorted, as many as the limit allows. */
  lemma SortThenTruncate(u: seq<Conversation>, isGuest: bool)
    ensures var r := Truncate(SortByRecency(u), isGuest);
      SortedByRecency(r) && |r| == KeptCount(|u|, isGuest) && multiset(r) <= multiset(u) && KeepsNewest(u, r)
  {
    var sorted := SortByRecency(u);
    var r := Truncate(sorted, isGuest);
    PrefixKeepsNewest(sorted, |r|);
    KeepsNewestOfPermutation(u, sorted, r);
  }

  /** Only the most recent entries are kept: ten, or one for a guest. */
  function Truncate(s: seq<Conversation>, isGuest: bool): (r: seq<Conversation>)
    ensures |r| <= (if isGuest then 1 else MaxConversationsToKeep) && |r| <= |s|
    ensures |r| == KeptCount(|s|, isGuest)
    ensures r == s[..|r|]
    ensures s != [] ==> r != []
  {
    if !isGuest && |s| > MaxConversationsToKeep then s[..MaxConversationsToKeep]
    else if isGuest && |s| > 1 then [s[0]]
    else s
  }

  // ---------------------------------------------------------------- saving

  predicate IsAnnouncement(m: ChatMessage) {
    StartsWith(m.id, AnnouncementPrefix)
  }

  /** The messages that are saved: all but the announcements, in their order. */
  function WithoutAnnouncements(ms: seq<ChatMessage>): (r: seq<ChatMessage>)
    ensures |r| <= |ms|
    ensures forall m :: m in r ==> m in ms && !IsAnnouncement(m)
    ensures forall m :: m in ms && !IsAnnouncement(m) ==> m in r
  {
    if ms == [] then []
    else (if IsAnnouncement(ms[0]) then [] else [ms[0]]) + WithoutAnnouncements(ms[1..])
  }

  /** Saving keeps the order: the saved messages of a concatenation are those of its halves. */
  lemma {:induction false} WithoutAnnouncementsAppend(a: seq<ChatMessage>, b: seq<ChatMessage>)
    ensures WithoutAnnouncements(a + b) == WithoutAnnouncements(a) + WithoutAnnouncements(b)
  {
    if a == [] {
      assert a + b == b;
    } else {
      var head := if IsAnnouncement(a[0]) then [] else [a[0]];
      ConsThenAppend(a, b);
      WithoutAnnouncementsAppend(a[1..], b);
      assert WithoutAnnouncements(a + b) == head + WithoutAnnouncements(a[1..] + b);
      AppendAssociates(head, WithoutAnnouncements(a[1..]), WithoutAnnouncements(b));
    }
  }

  /** A list without announcements is saved as it is. */
  lemma {:induction false} WithoutAnnouncementsNoop(ms: seq<ChatMessage>)
    requires forall i :: 0 <= i < |ms| ==> !IsAnnouncement(ms[i])
    ensures WithoutAnnouncements(ms) == ms
  {
    if ms != [] {
      WithoutAnnouncementsNoop(ms[1..]);
      assert [ms[0]] + ms[1..] == ms;
    }
  }

  /** The test of the `find` that names a conversation: this sender, a truthy text, not `excluded`. */
  predicate Qualifies(m: ChatMessage, sender: Sender, excluded: Option<string>) {
    m.sender == sender && Present(m.text) && m.text != excluded
  }

  /** Message `i` is the first one that qualifies. */
  predicate IsFirst(ms: seq<ChatMessage>, i: nat, sender: Sender, excluded: Option<string>) {
    i < |ms| && Qualifies(ms[i], sender, excluded) && forall j :: 0 <= j < i ==> !Qualifies(ms[j], sender, excluded)
  }

  /** The text of the first message from `sender` with truthy text other than `excluded`. */
  function FirstText(ms: seq<ChatMessage>, sender: Sender, excluded: Option<string>): (r: Option<string>)
    ensures r.Some? ==> r.value != [] && exists i :: 0 <= i < |ms| && ms[i].sender == sender && ms[i].text == Some(r.value)
    ensures r.Some? ==> excluded != Some(r.value)
    ensures r.None? ==> forall i :: 0 <= i < |ms| && ms[i].sender == sender && Present(ms[i].text) ==> ms[i].text == excluded
    ensures r.Some? ==> exists i: nat :: i < |ms| && IsFirst(ms, i, sender, excluded) && ms[i].text == r
  {
    if ms == [] then None
    else if Qualifies(ms[0], sender, excluded) then
      assert IsFirst(ms, 0, sender, excluded);
      ms[0].text
    else
      var r := FirstText(ms[1..], sender, excluded);
      assert forall i :: 1 <= i < |ms| ==> ms[i] == ms[1..][i - 1];
      assert r.Some? ==> exists i: nat :: i < |ms| && IsFirst(ms, i, sender, excluded) && ms[i].text == r by {
        if r.Some? {
          var i: nat :| i < |ms[1..]| && IsFirst(ms[1..], i, sender, excluded) && ms[1..][i].text == r;
          assert IsFirst(ms, i + 1, sender, excluded);
        }
      }
      r
  }

  /**
   * The text a conversation is named after: the first user text, or failing
   * that the first assistant text other than the greeting.
   */
  function FirstMeaningfulText(ms: seq<ChatMessage>, greeting: string): (r: Option<string>)
    ensures (exists i :: 0 <= i < |ms| && Qualifies(ms[i], User, None)) ==>
      exists i: nat :: i < |ms| && IsFirst(ms, i, User, None) && ms[i].text == r
    ensures (forall i :: 0 <= i < |ms| ==> !Qualifies(ms[i], User, None)) && r.Some? ==>
      exists i: nat :: i < |ms| && IsFirst(ms, i, AI, Some(greeting)) && ms[i].text == r
    ensures r.None? <==> forall i :: 0 <= i < |ms| ==> !Qualifies(ms[i], User, None) && !Qualifies(ms[i], AI, Some(greeting))
  {
    match FirstText(ms, User, None)
    case Some(t) => Some(t)
    case None => FirstText(ms, AI, Some(greeting))
  }

  /** The first thirty characters of a text, with `...` when it was longer. */
  function AutoName(text: string): (name: string)
    ensures |name| <= NameLength + 3
    ensures |text| <= NameLength ==> name == text
    ensures |text| > NameLength ==> |name| == NameLength + 3 && name[..NameLength] == text[..NameLength] && name[NameLength..] == "..."

  {
    if |text| > NameLength then text[..NameLength] + "..." else text
  }

  /** A name that was not chosen from the conversation's text. */
  predicate IsDefaultName(name: string) {
    name == NewConversationName || StartsWith(name, GuestConversationName)
  }

  function FindConversation(cs: seq<Conversation>, id: string): (r: Option<nat>)
    ensures r.Some? ==> r.value < |cs| && cs[r.value].id == id && forall j :: 0 <= j < r.value ==> cs[j].id != id
    ensures r.None? ==> forall j :: 0 <= j < |cs| ==> cs[j].id != id
  {
    if cs == [] then None
    else if cs[0].id == id then Some(0)
    else match FindConversation(cs[1..], id)
      case None =>
        assert forall j :: 1 <= j < |cs| ==> cs[j] == cs[1..][j - 1];
        None
      case Some(k) =>
        assert forall j :: 1 <= j <= k ==> cs[j] == cs[1..][j - 1];
        Some(k + 1)
  }

  /**
   * The open conversation written into the list: an existing entry gets the
   * messages, the time and, while its name is still a default, a name from its
   * text; otherwise a new entry is appended, named from its text when it has a
   * meaningful one and by the default name otherwise.
   */
  function Upsert(prev: seq<Conversation>, id: string, toSave: seq<ChatMessage>, now: int, isGuest: bool,
                  guestTime: string, greeting: string): (r: seq<Conversation>)
    ensures |r| == |prev| || |r| == |prev| + 1
    ensures exists i :: 0 <= i < |r| && r[i].id == id && r[i].messages == toSave && r[i].lastUpdated == now
    ensures FindConversation(prev, id).Some? ==>
      var i := FindConversation(prev, id).value;
      |r| == |prev| && r[i].id == id && r[i].messages == toSave && r[i].lastUpdated == now
      && (forall j :: 0 <= j < |prev| && j != i ==> r[j] == prev[j])
      && r[i].name == (if IsDefaultName(prev[i].name) && FirstMeaningfulText(toSave, greeting).Some?
                       then AutoName(FirstMeaningfulText(toSave, greeting).value) else prev[i].name)
    ensures FindConversation(prev, id).None? ==>
      |r| == |prev| + 1 && r[..|prev|] == prev
      && r[|prev|].id == id && r[|prev|].messages == toSave && r[|prev|].lastUpdated == now
      && r[|prev|].name == (if FirstMeaningfulText(toSave, greeting).Some? then AutoName(FirstMeaningfulText(toSave, greeting).value)
                            else if isGuest then GuestConversationName + " " + guestTime else NewConversationName)
  {
    var first := FirstMeaningfulText(toSave, greeting);
    match FindConversation(prev, id)
    case Some(i) =>
      var c := prev[i];
      var name := if IsDefaultName(c.name) && first.Some? then AutoName(first.value) else c.name;
      var r := prev[i := c.(messages := toSave, lastUpdated := now, name := name)];
      assert r[i].id == id;
      r
    case None =>
      var name := if first.Some? then AutoName(first.value)
                  else if isGuest then GuestConversationName + " " + guestTime else NewConversationName;
      var r := prev + [Conversation(id, name, toSave, now)];
      assert r[|prev|].id == id;
      r
  }

  /**
   * The save updater: nothing without an open conversation; otherwise the
   * conversation is upserted, the list sorted by recency and truncated.
   */
  function SaveUpdate(prev: seq<Conversation>, currentId: Option<string>, messages: seq<ChatMessage>, isGuest: bool,
                      now: int, guestTime: string, greeting: string): (r: seq<Conversation>)
    ensures !Present(currentId) ==> r == prev
    ensures Present(currentId) ==> SortedByRecency(r) && |r| <= (if isGuest then 1 else MaxConversationsToKeep)
    ensures Present(currentId) ==>
      var u := Upsert(prev, currentId.value, WithoutAnnouncements(messages), now, isGuest, guestTime, greeting);
      |r| == KeptCount(|prev| + (if FindConversation(prev, currentId.value).Some? then 0 else 1), isGuest)
      && multiset(r) <= multiset(u) && KeepsNewest(u, r)
  {
    if !Present(currentId) then prev
    else
      var toSave := WithoutAnnouncements(messages);
      var u := Upsert(prev, currentId.value, toSave, now, isGuest, guestTime, greeting);
      var sorted := SortByRecency(u);
      SortThenTruncate(u, isGuest);
      Truncate(sorted, isGuest)
  }

  /**
   * Every entry a save leaves in the list was listed before, or is the open
   * conversation with the messages just saved.
   */
  lemma SaveAddsOnlyTheOpenConversation(prev: seq<Conversation>, id: string, messages: seq<ChatMessage>, isGuest: bool,
                                        now: int, guestTime: string, greeting: string)
    requires id != []
    ensures forall c :: c in SaveUpdate(prev, Some(id), messages, isGuest, now, guestTime, greeting) ==>
      c in prev || (c.id == id && c.messages == WithoutAnnouncements(messages) && c.lastUpdated == now)
  {
    var toSave := WithoutAnnouncements(messages);
    var u := Upsert(prev, id, toSave, now, isGuest, guestTime, greeting);
    var r := SaveUpdate(prev, Some(id), messages, isGuest, now, guestTime, greeting);
    UpsertEntries(prev, id, toSave, now, isGuest, guestTime, greeting);
    forall c | c in r ensures c in u {
      assert c in multiset(r);
    }
  }

  /** Every entry after an upsert was listed before, or is the upserted conversation. */
  lemma UpsertEntries(prev: seq<Conversation>, id: string, toSave: seq<ChatMessage>, now: int, isGuest: bool,
                      guestTime: string, greeting: string)
    ensures forall c :: c in Upsert(prev, id, toSave, now, isGuest, guestTime, greeting) ==>
      c in prev || (c.id == id && c.messages == toSave && c.lastUpdated == now)
  {
    var u := Upsert(prev, id, toSave, now, isGuest, guestTime, greeting);
    forall c | c in u
      ensures c in prev || (c.id == id && c.messages == toSave && c.lastUpdated == now)
    {
      var j :| 0 <= j < |u| && u[j] == c;
      if j < |prev| && FindConversation(prev, id) != Some(j) {
        assert u[j] == prev[j];
      }
    }
  }

  /** The save updater as the app runs it, step by step on a copy of the list. */
  method SaveConversations(prevConvs: seq<Conversation>, currentId: Option<string>, messages: seq<ChatMessage>,
                           isGuest: bool, now: int, guestTime: string, greeting: string)
    returns (updated: seq<Conversation>)
    ensures updated == SaveUpdate(prevConvs, currentId, messages, isGuest, now, guestTime, greeting)
  {
    if !Present(currentId) {
      return prevConvs;
    }
    var id := currentId.value;
    updated := prevConvs;
    var convIndex := FindConversation(prevConvs, id);
    var toSave := WithoutAnnouncements(messages);
    var first := FirstMeaningfulText(toSave, greeting);
    if convIndex.Some? {
      var currentConv := updated[convIndex.value];
      currentConv := currentConv.(messages := toSave, lastUpdated := now);
      if IsDefaultName(currentConv.name) && first.Some? {
        currentConv := currentConv.(name := AutoName(first.value));
      }
      updated := updated[convIndex.value := currentConv];
    } else {
      var newName := if isGuest then GuestConversationName + " " + guestTime else NewConversationName;
      if first.Some? {
        newName := AutoName(first.value);
      }
      updated := updated + [Conversation(id, newName, toSave, now)];
    }
    assert updated == Upsert(prevConvs, id, toSave, now, isGuest, guestTime, greeting);
    updated := SortByRecency(updated);
    if !isGuest && |updated| > MaxConversationsToKeep {
      updated := updated[..MaxConversationsToKeep];
    } else if isGuest && |updated| > 1 {
      updated := [updated[0]];
    }
  }

  /** The effect that saves: it does not run without a user, in the admin view, with no messages or during a call. */
  function SaveEffect(prev: seq<Conversation>, currentId: Option<string>, messages: seq<ChatMessage>, hasUser: bool,
                      adminViewActive: bool, isCallActive: bool, isGuest: bool, now: int, guestTime: string,
                      greeting: string): (r: seq<Conversation>)
    ensures !hasUser || adminViewActive || messages == [] || isCallActive ==> r == prev
  {
    if !hasUser || adminViewActive || |messages| == 0 || isCallActive then prev
    else SaveUpdate(prev, currentId, messages, isGuest, now, guestTime, greeting)
  }

  /**
   * When the clock has moved on since every other entry was touched, the
   * conversation just saved heads the list, with the messages minus the
   * announcements, so truncation never drops it.
   */
  lemma SavedConversationFirst(prev: seq<Conversation>, id: string, messages: seq<ChatMessage>, isGuest: bool,
                               now: int, guestTime: string, greeting: string)
    requires id != []
    requires forall j :: 0 <= j < |prev| && prev[j].id != id ==> prev[j].lastUpdated < now
    requires forall i, j :: 0 <= i < j < |prev| ==> prev[i].id != prev[j].id
    ensures var r := SaveUpdate(prev, Some(id), messages, isGuest, now, guestTime, greeting);
      r != [] && r[0].id == id && r[0].messages == WithoutAnnouncements(messages) && r[0].lastUpdated == now
  {
    var toSave := WithoutAnnouncements(messages);
    var u := Upsert(prev, id, toSave, now, isGuest, guestTime, greeting);
    var i :| 0 <= i < |u| && u[i].id == id && u[i].messages == toSave && u[i].lastUpdated == now;
    forall j | 0 <= j < |u| && j != i
      ensures u[j].lastUpdated < u[i].lastUpdated
    {
      match FindConversation(prev, id)
      case Some(k) =>
        assert j < |prev| && i == k;
        assert u[j] == prev[j];
      case None =>
        assert i == |prev|;
        assert u[j] == prev[j];
    }
    NewestComesFirst(u, i);
    var sorted := SortByRecency(u);
    var r := SaveUpdate(prev, Some(id), messages, isGuest, now, guestTime, greeting);
    assert r == Truncate(sorted, isGuest);
    assert r != [] && r[0] == sorted[0] == u[i];
  }

  /** A conversation with a default name takes its name from the first meaningful text once there is one. */
  lemma DefaultNameReplaced(prev: seq<Conversation>, i: nat, messages: seq<ChatMessage>, isGuest: bool, now: int,
                            guestTime: string, greeting: string)
    requires i < |prev| && IsDefaultName(prev[i].name) && FindConversation(prev, prev[i].id) == Some(i)
    requires FirstMeaningfulText(WithoutAnnouncements(messages), greeting).Some?
    ensures var u := Upsert(prev, prev[i].id, WithoutAnnouncements(messages), now, isGuest, guestTime, greeting);
      |u| == |prev| && u[i].name == AutoName(FirstMeaningfulText(WithoutAnnouncements(messages), greeting).value)
      && forall j :: 0 <= j < |prev| && j != i ==> u[j] == prev[j]
  {
  }

  /** A name the user has given, or one already taken from the text, is kept. */
  lemma ChosenNameKept(prev: seq<Conversation>, i: nat, messages: seq<ChatMessage>, isGuest: bool, now: int,
                       guestTime: string, greeting: string)
    requires i < |prev| && !IsDefaultName(prev[i].name) && FindConversation(prev, prev[i].id) == Some(i)
    ensures Upsert(prev, prev[i].id, WithoutAnnouncements(messages), now, isGuest, guestTime, greeting)[i].name == prev[i].name
  {
  }

  // ---------------------------------------------------------------- new and deleted conversations

  /** The greeting the assistant opens a conversation with. */
  function InitialMessage(now: nat, greeting: string): ChatMessage {
    ChatMessage("initial-" + Decimal(now), AI, TextMessage, Some(greeting), None, now, None, None, None)
  }

  function NewConversation(now: nat, isGuest: bool, greeting: string): Conversation {
    Conversation("conv-" + Decimal(now), if isGuest then GuestConversationName else NewConversationName,
                 [InitialMessage(now, greeting)], now)
  }

  /**
   * The list update of `startNewConversation`: the new conversation goes in
   * front, the list is sorted and truncated to ten; a guest keeps only the new one.
   */
  function StartNewList(prev: seq<Conversation>, newConversation: Conversation, isGuest: bool): (r: seq<Conversation>)
    ensures isGuest ==> r == [newConversation]
    ensures !isGuest ==> SortedByRecency(r) && |r| <= MaxConversationsToKeep
    ensures !isGuest && |prev| < MaxConversationsToKeep ==> multiset(r) == multiset(prev) + multiset{newConversation}
    ensures !isGuest ==> (|r| == KeptCount(|prev| + 1, false)
                          && multiset(r) <= multiset(prev) + multiset{newConversation}
                          && KeepsNewest([newConversation] + prev, r))
  {
    var updated := SortByRecency([newConversation] + prev);
    if isGuest then [newConversation]
    else
      SortThenTruncate([newConversation] + prev, false);
      assert multiset([newConversation] + prev) == multiset(prev) + multiset{newConversation};
      if |updated| > MaxConversationsToKeep then updated[..MaxConversationsToKeep]
      else updated
  }

  /** Every entry after `startNewConversation` is the new conversation or was listed before. */
  lemma StartNewListFrom(prev: seq<Conversation>, c: Conversation, isGuest: bool)
    ensures forall x :: x in StartNewList(prev, c, isGuest) ==> x in prev || x == c
  {
    var r := StartNewList(prev, c, isGuest);
    forall x | x in r ensures x in prev || x == c {
      if !isGuest {
        assert x in multiset(r);
        assert x in multiset(prev) + multiset{c};
      }
    }
  }

  /** The list update of `startNewConversation` as the app runs it, on a copy of the list. */
  method StartNewConversations(prevConvs: seq<Conversation>, newConversation: Conversation, isGuest: bool)
    returns (updated: seq<Conversation>)
    ensures updated == StartNewList(prevConvs, newConversation, isGuest)
  {
    updated := [newConversation] + prevConvs;
    updated := SortByRecency(updated);
    if !isGuest && |updated| > MaxConversationsToKeep {
      updated := updated[..MaxConversationsToKeep];
    } else if isGuest {
      updated := [newConversation];
    }
  }

  /** The new conversation is the most recent, so it heads the list and is never cut off. */
  lemma NewConversationFirst(prev: seq<Conversation>, c: Conversation)
    requires forall j :: 0 <= j < |prev| ==> prev[j].lastUpdated < c.lastUpdated
    ensures StartNewList(prev, c, false)[0] == c
  {
    var s := [c] + prev;
    assert forall j :: 1 <= j < |s| ==> s[j] == prev[j - 1];
    NewestComesFirst(s, 0);
  }

  /** Removes every entry with the given id and keeps the others in order. */
  function WithoutConversation(cs: seq<Conversation>, id: string): (r: seq<Conversation>)
    ensures |r| <= |cs|
    ensures forall c :: c in r ==> c in cs && c.id != id
    ensures forall c :: c in cs && c.id != id ==> c in r
  {
    if cs == [] then []
    else (if cs[0].id == id then [] else [cs[0]]) + WithoutConversation(cs[1..], id)
  }

  /** Deleting keeps the relative order: the survivors of a concatenation are those of its halves. */
  lemma {:induction false} WithoutConversationAppend(a: seq<Conversation>, b: seq<Conversation>, id: string)
    ensures WithoutConversation(a + b, id) == WithoutConversation(a, id) + WithoutConversation(b, id)
  {
    if a == [] {
      assert a + b == b;
    } else {
      var head := if a[0].id == id then [] else [a[0]];
      ConsThenAppend(a, b);
      WithoutConversationAppend(a[1..], b, id);
      assert WithoutConversation(a + b, id) == head + WithoutConversation(a[1..] + b, id);
      AppendAssociates(head, WithoutConversation(a[1..], id), WithoutConversation(b, id));
    }
  }

  /** Deleting an id that is not listed changes nothing. */
  lemma {:induction false} DeleteMissingIsNoop(cs: seq<Conversation>, id: string)
    requires forall j :: 0 <= j < |cs| ==> cs[j].id != id
    ensures WithoutConversation(cs, id) == cs
  {
    if cs != [] {
      DeleteMissingIsNoop(cs[1..], id);
      assert [cs[0]] + cs[1..] == cs;
    }
  }

  /** What the app shows: the saved conversations, the open conversation's messages and its id. */
  datatype ChatState = ChatState(conversations: seq<Conversation>, messages: seq<ChatMessage>, currentId: Option<string>)

  /**
   * `startNewConversation`: without a user nothing happens; otherwise the app
   * shows a new conversation holding only the greeting, and the list gains it
   * in front of every entry last touched before now.
   */
  function StartNewStep(s: ChatState, hasUser: bool, isGuest: bool, now: nat, greeting: string): (r: ChatState)
    ensures !hasUser ==> r == s
    ensures hasUser ==> r.messages == [InitialMessage(now, greeting)] && r.currentId == Some("conv-" + Decimal(now))
    ensures hasUser && isGuest ==> r.conversations == [NewConversation(now, true, greeting)]
    ensures hasUser && !isGuest ==> |r.conversations| == KeptCount(|s.conversations| + 1, false)
    ensures hasUser && (forall j :: 0 <= j < |s.conversations| ==> s.conversations[j].lastUpdated < now) ==>
      r.conversations[0] == NewConversation(now, isGuest, greeting)
  {
    if !hasUser then s
    else
      var c := NewConversation(now, isGuest, greeting);
      var r := ChatState(StartNewList(s.conversations, c, isGuest), [InitialMessage(now, greeting)], Some(c.id));
      if !isGuest && forall j :: 0 <= j < |s.conversations| ==> s.conversations[j].lastUpdated < now then
        NewConversationFirst(s.conversations, c);
        r
      else r
  }

  /**
   * `deleteConversation`: guests and visitors without a user cannot delete;
   * deleting the open conversation starts a new one. Afterwards the only entry
   * that can carry the deleted id is that new conversation.
   */
  function DeleteStep(s: ChatState, id: string, hasUser: bool, isGuest: bool, now: nat, greeting: string): (r: ChatState)
    ensures hasUser && !isGuest ==> forall c :: c in r.conversations && c.id == id ==> c == NewConversation(now, false, greeting)
  {
    if !hasUser || isGuest then s
    else
      var t := s.(conversations := WithoutConversation(s.conversations, id));
      if s.currentId == Some(id) then
        StartNewListFrom(t.conversations, NewConversation(now, false, greeting), false);
        StartNewStep(t, hasUser, isGuest, now, greeting)
      else t
  }

  /**
   * Deleting a conversation that is not open removes every entry with its id,
   * keeps every other entry and leaves the open conversation as it was.
   */
  lemma DeleteRemovesOnlyThatId(s: ChatState, id: string, isGuest: bool, now: nat, greeting: string)
    requires !isGuest && s.currentId != Some(id)
    ensures var t := DeleteStep(s, id, true, isGuest, now, greeting);
      (forall c :: c in t.conversations ==> c.id != id)
      && (forall c :: c in s.conversations && c.id != id ==> c in t.conversations)
      && t.messages == s.messages && t.currentId == s.currentId
  {
  }

  /** Deleting the open conversation opens a fresh one with only the greeting. */
  lemma DeleteOpenStartsNew(s: ChatState, id: string, now: nat, greeting: string)
    requires s.currentId == Some(id)
    ensures var t := DeleteStep(s, id, true, false, now, greeting);
      t.messages == [InitialMessage(now, greeting)] && t.currentId == Some(NewConversation(now, false, greeting).id)
  {
  }

  /** A guest's delete is ignored. */
  lemma GuestCannotDelete(s: ChatState, id: string, now: nat, greeting: string)
    ensures DeleteStep(s, id, true, true, now, greeting) == s
  {
  }
}
