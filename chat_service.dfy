/**
 * The chat-session store of the front end (`chatService` in Frontend/api/chatService.ts).
 * The browser's storage slot is the field `slot` of a `ChatStore`; every mutating
 * operation reads the whole list, changes it and writes the whole list back.
 */
module ChatService {
  import opened Wrappers
  import opened Text
  import StableSort
  import opened Keyed

  /** One turn of a conversation. An assistant reply names the question it answered in `userQuestion`. */
  datatype Message = Message(id: string, text: string, isUser: bool, userQuestion: Option<string>)

  /**
   * A stored chat session. A draft handed to `CreateChat` has the same shape; a key the
   * draft does not carry is the empty string, or `None` for the date (milliseconds).
   */
  datatype Session = Session(
    id: string,
    videoId: string,
    videoTitle: string,
    videoThumbnail: string,
    videoDuration: string,
    transcript: string,
    messages: seq<Message>,
    createdDate: Option<int>)

  /** The object handed to `updateChat`: the keys it carries, each `None` when absent. */
  datatype SessionPatch = SessionPatch(
    id: Option<string>,
    videoId: Option<string>,
    videoTitle: Option<string>,
    videoThumbnail: Option<string>,
    videoDuration: Option<string>,
    transcript: Option<string>,
    messages: Option<seq<Message>>,
    createdDate: Option<int>)

  /** What the storage slot holds: nothing (or an empty string), text that is not JSON, or a list. */
  datatype Slot = Empty | Unparsable | Stored(sessions: seq<Session>)

  const NotFoundMessage: string := "Chat not found"
  const DescendingByDate: string := "-created_date"

  /** A patch that carries only `messages`, as the chat page sends it. */
  function MessagesPatch(ms: seq<Message>): SessionPatch {
    SessionPatch(None, None, None, None, None, None, Some(ms), None)
  }

  /** `{ ...s, ...p }`: every key the patch carries replaces the stored one. */
  function Merge(s: Session, p: SessionPatch): Session {
    Session(
      p.id.GetOr(s.id),
      p.videoId.GetOr(s.videoId),
      p.videoTitle.GetOr(s.videoTitle),
      p.videoThumbnail.GetOr(s.videoThumbnail),
      p.videoDuration.GetOr(s.videoDuration),
      p.transcript.GetOr(s.transcript),
      p.messages.GetOr(s.messages),
      if p.createdDate.Some? then p.createdDate else s.createdDate)
  }

  /** A messages-only patch replaces the message list and leaves every other key as stored. */
  lemma MergeMessagesOnly(s: Session, ms: seq<Message>)
    ensures Merge(s, MessagesPatch(ms)) == s.(messages := ms)
  {
  }

  /** Applying the same patch twice is the same as applying it once. */
  lemma MergeIdempotent(s: Session, p: SessionPatch)
    ensures Merge(Merge(s, p), p) == Merge(s, p)
  {
  }

  /** The sort key of `listChats`: the creation time, a missing date counting as 0. */
  function DateKey(s: Session): real {
    s.createdDate.GetOr(0) as real
  }

  /** The comparator of `listChats` for any field other than `created_date` always answers 0. */
  function NoKey(s: Session): real {
    0.0
  }

  /** The list `listChats(sort)` returns for the stored list `chats`. */
  function ListOrder(chats: seq<Session>, sort: Option<string>): seq<Session> {
    if sort.Some? && "-" <= sort.value then
      StableSort.SortDesc(chats, if sort.value[1..] == "created_date" then DateKey else NoKey)
    else chats
  }

  /** The key the store's `findIndex`, `find` and `filter` compare: the session id. */
  function SessionId(s: Session): string {
    s.id
  }

  /** Deleting twice is deleting once. */
  lemma DeleteIdempotent(chats: seq<Session>, id: string)
    ensures WithoutKey(WithoutKey(chats, SessionId, id), SessionId, id) == WithoutKey(chats, SessionId, id)
  {
    WithoutKeyIdempotent(chats, SessionId, id);
  }

  /** Once deleted, an id is no longer found. */
  lemma FindAfterDelete(chats: seq<Session>, id: string)
    ensures FindWithKey(WithoutKey(chats, SessionId, id), SessionId, id) == None
  {
  }

  /** A session appended with an id no stored session has is what `getChatById` finds for it. */
  lemma FindAfterCreate(chats: seq<Session>, created: Session)
    requires forall s :: s in chats ==> s.id != created.id
    ensures FindWithKey(chats + [created], SessionId, created.id) == Some(created)
  {
    var all := chats + [created];
    forall j | 0 <= j < |chats| ensures SessionId(all[j]) != created.id {
      assert all[j] == chats[j] && chats[j] in chats;
    }
    FirstKeyFound(all, SessionId, created.id, |chats|);
  }

  /** After an update that does not rewrite the id, the id finds the merged session. */
  lemma FindAfterUpdate(chats: seq<Session>, id: string, p: SessionPatch)
    requires FirstWithKey(chats, SessionId, id).Some?
    requires p.id.None?
    ensures var i := FirstWithKey(chats, SessionId, id).value;
            FindWithKey(chats[i := Merge(chats[i], p)], SessionId, id) == Some(Merge(chats[i], p))
  {
    var i := FirstWithKey(chats, SessionId, id).value;
    SameKeyPositions(chats[i := Merge(chats[i], p)], chats, SessionId, id);
  }

  /** An update that does not rewrite the id leaves what every other id finds unchanged. */
  lemma FindOtherAfterUpdate(chats: seq<Session>, id: string, p: SessionPatch, other: string)
    requires FirstWithKey(chats, SessionId, id).Some?
    requires p.id.None?
    requires other != id
    ensures var i := FirstWithKey(chats, SessionId, id).value;
            FindWithKey(chats[i := Merge(chats[i], p)], SessionId, other) == FindWithKey(chats, SessionId, other)
  {
    var i := FirstWithKey(chats, SessionId, id).value;
    SameKeyPositions(chats[i := Merge(chats[i], p)], chats, SessionId, other);
  }

  /** The effect `updateChat(id, p)` has on the slot and what it answers. */
  ghost predicate UpdateEffect(before: Slot, after: Slot, id: string, p: SessionPatch, r: Result<Session, string>) {
    var chats := if before.Stored? then before.sessions else [];
    match FirstWithKey(chats, SessionId, id)
    case None => r == Failure(NotFoundMessage) && after == before
    case Some(i) => r == Success(Merge(chats[i], p)) && after == Stored(chats[i := r.value])
  }

  /** The id `createChat` gives a session: `chat_<now>_<random part>`. */
  function NewChatId(now: nat, randomPart: string): (id: string)
    ensures "chat_" <= id
  {
    "chat_" + NatToString(now) + "_" + randomPart
  }

  class ChatStore {
    /** The storage slot `chat_sessions`. */
    var slot: Slot

    constructor (initial: Slot)
      ensures slot == initial
    {
      slot := initial;
    }

    /** `getStoredChats`: the stored list; an empty or unreadable slot reads as no sessions. */
    function StoredChats(): seq<Session>
      reads this
    {
      if slot.Stored? then slot.sessions else []
    }

    /** `listChats(sort)`; storage is only read. */
    method ListChats(sort: Option<string>) returns (r: seq<Session>)
      ensures r == ListOrder(StoredChats(), sort)
      ensures multiset(r) == multiset(StoredChats())
      ensures !slot.Stored? ==> r == []
      ensures sort.None? || !("-" <= sort.value) ==> r == StoredChats()
      ensures sort == Some(DescendingByDate) ==> StableSort.SortedDesc(r, DateKey)
      ensures sort == Some(DescendingByDate) ==>
                forall v :: StableSort.WithKey(r, DateKey, v) == StableSort.WithKey(StoredChats(), DateKey, v)
      ensures sort.Some? && "-" <= sort.value && sort.value != DescendingByDate ==> r == StoredChats()
    {
      var chats := StoredChats();
      r := ListOrder(chats, sort);
      if sort.Some? && "-" <= sort.value {
        if sort.value[1..] == "created_date" {
          assert sort.value == "-" + sort.value[1..];
          StableSort.SortDescSorted(chats, DateKey);
          forall v ensures StableSort.WithKey(r, DateKey, v) == StableSort.WithKey(chats, DateKey, v) {
            StableSort.SortDescStable(chats, DateKey, v);
          }
        } else {
          assert DescendingByDate[1..] == "created_date";
          StableSort.SortDescConstantKey(chats, NoKey, 0.0);
        }
      }
    }

    /** `createChat(draft)`: appends the draft under a new id and the current time. */
    method CreateChat(draft: Session, now: nat, randomPart: string) returns (created: Session)
      modifies this
      ensures created == draft.(id := NewChatId(now, randomPart), createdDate := Some(now))
      ensures slot == Stored(old(StoredChats()) + [created])
    {
      var chats := StoredChats();
      created := draft.(id := NewChatId(now, randomPart), createdDate := Some(now));
      chats := chats + [created];
      slot := Stored(chats);
    }

    /** `updateChat(id, p)`: merges `p` into the first session with `id`, or fails with 'Chat not found'. */
    method UpdateChat(id: string, p: SessionPatch) returns (r: Result<Session, string>)
      modifies this
      ensures UpdateEffect(old(slot), slot, id, p, r)
    {
      var chats := StoredChats();
      var index := FirstWithKey(chats, SessionId, id);
      if index.Some? {
        var i := index.value;
        chats := chats[i := Merge(chats[i], p)];
        slot := Stored(chats);
        r := Success(chats[i]);
      } else {
        r := Failure(NotFoundMessage);
      }
    }

    /** `deleteChat(id)`: writes back every session whose id differs, in order. */
    method DeleteChat(id: string)
      modifies this
      ensures slot == Stored(WithoutKey(old(StoredChats()), SessionId, id))
    {
      var chats := StoredChats();
      slot := Stored(WithoutKey(chats, SessionId, id));
    }

    /** `getChatById(id)`: the first session with the id, or none. */
    method GetChatById(id: string) returns (r: Option<Session>)
      ensures r == FindWithKey(StoredChats(), SessionId, id)
      ensures r.Some? ==> r.value in StoredChats() && r.value.id == id
      ensures r.None? <==> forall s :: s in StoredChats() ==> s.id != id
    {
      r := FindWithKey(StoredChats(), SessionId, id);
    }
  }
}
