/**
 * The chat page (Frontend/Pages/Chat.tsx): which of the three start-up paths the search
 * parameters select, the draft session built for a new video, and the page state the
 * loading handlers set. The store and the gateway are the objects of the service module;
 * what the back end answers is an input.
 */
module ChatPage {
  import opened Wrappers
  import opened Text
  import opened ChatService
  import opened LlmService
  import opened PageUrl
  import opened Keyed
  import HomePage
  import VideoIdPatterns

  const FallbackDuration: string := "10:00"
  const FallbackTitle: string := "YouTube Video"
  const DemoTranscript: string :=
    "This is a demo transcript. The actual transcript could not be loaded. "
    + "You can still ask questions and the AI will respond based on this placeholder content."

  /** What the page does with its `chatId` and `videoId` search parameters. */
  datatype PageAction = LoadExisting(chatId: string) | CreateNew(videoId: string) | GoHome

  /** A present `chatId` wins, even beside a `videoId`; with neither the page goes home. */
  function Dispatch(chatId: Option<string>, videoId: Option<string>): (a: PageAction)
    ensures Truthy(chatId) ==> a == LoadExisting(chatId.value)
    ensures !Truthy(chatId) && Truthy(videoId) ==> a == CreateNew(videoId.value)
    ensures !Truthy(chatId) && !Truthy(videoId) ==> a == GoHome
  {
    if Truthy(chatId) then LoadExisting(chatId.value)
    else if Truthy(videoId) then CreateNew(videoId.value)
    else GoHome
  }

  predicate IsHexDigit(c: char) {
    ('0' <= c <= '9') || ('a' <= c <= 'f') || ('A' <= c <= 'F')
  }

  function HexValue(c: char): (v: nat)
    requires IsHexDigit(c)
    ensures v < 16
  {
    if '0' <= c <= '9' then c as int - '0' as int
    else if 'a' <= c <= 'f' then c as int - 'a' as int + 10
    else c as int - 'A' as int + 10
  }

  /**
   * The decoding the `application/x-www-form-urlencoded` parser of the WHATWG URL Standard
   * applies to a name or a value: `+` becomes a space and `%` followed by two hexadecimal
   * digits becomes the character with that code; any other `%` stays as it is.
   */
  function FormDecode(s: string): (r: string)
    decreases |s|
    ensures |r| <= |s|
    ensures s != [] ==> r != []
    ensures '+' !in s && '%' !in s ==> r == s
  {
    if s == [] then []
    else if s[0] == '+' then [' '] + FormDecode(s[1..])
    else if s[0] == '%' && |s| >= 3 && IsHexDigit(s[1]) && IsHexDigit(s[2]) then
      [(16 * HexValue(s[1]) + HexValue(s[2])) as char] + FormDecode(s[3..])
    else
      assert '+' !in s ==> '+' !in s[1..];
      assert '%' !in s ==> '%' !in s[1..];
      [s[0]] + FormDecode(s[1..])
  }

  /** The first `name=value` piece whose decoded name is `name`: its decoded value. */
  function FirstParam(pieces: seq<string>, name: string): Option<string>
    decreases |pieces|
  {
    if pieces == [] then None
    else
      var p := pieces[0];
      var i := IndexOfChar(p, '=');
      if p != [] && FormDecode(p[..i]) == name then Some(FormDecode(if i < |p| then p[i + 1..] else []))
      else FirstParam(pieces[1..], name)
  }

  /** `searchParams.get(name)` for the query `query` (the search string without its `?`). */
  function SearchParamGet(query: string, name: string): Option<string> {
    FirstParam(Split(query, '&'), name)
  }

  /**
   * A query made of one `name=value` pair whose name needs no decoding gives the decoded
   * value for that name and nothing for any other name.
   */
  lemma SingleParam(name: string, value: string, other: string)
    requires name != [] && '=' !in name && '&' !in name && '+' !in name && '%' !in name
    requires '&' !in value
    requires other != name
    ensures SearchParamGet(name + "=" + value, name) == Some(FormDecode(value))
    ensures SearchParamGet(name + "=" + value, other).None?
  {
    var q := name + "=" + value;
    assert q == name + ("=" + value);
    assert '&' !in q;
    SplitNoSeparator(q, '&');
    assert q[..|name|] == name && q[|name|] == '=';
    IndexOfCharAt(q, '=', |name|);
    assert q[|name| + 1..] == value;
    OneParam(q, name, |name|, value, name);
    OneParam(q, name, |name|, value, other);
  }

  /** The lookup over a single piece `q` whose `=` is at `i`. */
  lemma OneParam(q: string, name: string, i: nat, value: string, asked: string)
    requires q != [] && IndexOfChar(q, '=') == i && i < |q|
    requires q[..i] == name && q[i + 1..] == value
    requires FormDecode(name) == name
    ensures FirstParam([q], asked) == if asked == name then Some(FormDecode(value)) else None
  {
    assert [q][0] == q;
    assert [q][1..] == [];
  }

  /**
   * The landing page navigates to `/chat?videoId=<id>`, and the chat page reads the decoded
   * `videoId`: a chat is created for the decoded id, which is never empty, and which is the
   * id itself when it holds no `+` and no `%`.
   */
  lemma HomeIdCreatesChat(url: string)
    requires HomePage.ExtractVideoId(url).Some?
    ensures var id := HomePage.ExtractVideoId(url).value;
            var query := "videoId=" + id;
            HomePage.StartChatTarget(Some(id)) == Some("/chat?" + query)
            && Dispatch(SearchParamGet(query, "chatId"), SearchParamGet(query, "videoId")) == CreateNew(FormDecode(id))
            && FormDecode(id) != ""
            && ('+' !in id && '%' !in id ==> FormDecode(id) == id)
  {
    var id := HomePage.ExtractVideoId(url).value;
    VideoRouteQuery(id);
    assert '&' !in id by {
      assert forall k :: 0 <= k < |id| ==> VideoIdPatterns.RunChar(id[k]);
    }
    VideoQueryCreates(id);
  }

  /** The route `/chat?videoId=<id>` is the chat path with the query `videoId=<id>`. */
  lemma VideoRouteQuery(id: string)
    ensures "/chat?videoId=" + id == "/chat?" + ("videoId=" + id)
  {
    var route, query := "/chat?", "videoId=";
    assert route + query == "/chat?videoId=";
  }

  /** The query `videoId=<id>` of an id without `&` creates a chat for the decoded id. */
  lemma VideoQueryCreates(id: string)
    requires id != [] && '&' !in id
    ensures Dispatch(SearchParamGet("videoId=" + id, "chatId"), SearchParamGet("videoId=" + id, "videoId"))
         == CreateNew(FormDecode(id))
  {
    var name := "videoId";
    assert name != [];
    assert '=' !in name;
    assert '&' !in name;
    assert '+' !in name && '%' !in name;
    assert "chatId" != name;
    SingleParam(name, id, "chatId");
    assert name + "=" == "videoId=";
    assert name + "=" + id == "videoId=" + id;
    assert SearchParamGet("videoId=" + id, "chatId").None?;
    assert SearchParamGet("videoId=" + id, "videoId") == Some(FormDecode(id));
    assert FormDecode(id) != [];
  }

  /** A share link whose id holds `+` keeps it in the id the landing page reads. */
  lemma SharedLinkWithPlus()
    ensures HomePage.ExtractVideoId("youtu.be/ab+cd") == Some("ab+cd")
  {
    var id := "ab+cd";
    assert forall j :: 0 <= j < |id| ==> VideoIdPatterns.RunChar(id[j]);
    assert VideoIdPatterns.UrlPrefixes[1] + id + [] == "youtu.be/ab+cd";
    HomePage.ShareLinkId(1, id, []);
  }

  /** The chat page decodes that `+`: a share link `youtu.be/ab+cd` opens a chat for `ab cd`. */
  lemma PlusDecodedToSpace()
    ensures FormDecode("ab+cd") == "ab cd"
  {
    assert FormDecode("cd") == "cd";
    assert "+cd"[1..] == "cd";
    assert FormDecode("+cd") == " cd";
    assert "b+cd"[1..] == "+cd";
    assert "ab+cd"[1..] == "b+cd";
  }

  /**
   * How the transcript request settled, as the page sees it: resolved with the gateway's
   * result, or rejected with an `Error` message (`None` for any other thrown value).
   */
  datatype TranscriptOutcome = Resolved(info: TranscriptInfo) | Rejected(error: Option<string>)

  /** The object `createNewChat` hands to `createChat`; it never lacks a duration or a title. */
  function NewChatDraft(videoId: string, outcome: TranscriptOutcome): (d: Session)
    ensures d.id == "" && d.createdDate.None?
    ensures d.videoId == videoId && d.messages == [] && d.videoThumbnail == HomePage.ThumbnailFor(videoId)
    ensures d.videoDuration != ""
    ensures outcome.Resolved? ==>
              d.videoTitle == outcome.info.title && d.transcript == outcome.info.transcript
              && d.videoDuration == (if outcome.info.duration != "" then outcome.info.duration else FallbackDuration)
    ensures outcome.Rejected? ==>
              d.videoTitle == FallbackTitle && d.videoDuration == FallbackDuration
              && d.transcript == (if outcome.error.Some? then "Error: " + outcome.error.value else DemoTranscript)
  {
    match outcome
    case Resolved(info) =>
      Session("", videoId, info.title, HomePage.ThumbnailFor(videoId),
        if info.duration != "" then info.duration else FallbackDuration, info.transcript, [], None)
    case Rejected(error) =>
      Session("", videoId, FallbackTitle, HomePage.ThumbnailFor(videoId), FallbackDuration,
        if error.Some? then "Error: " + error.value else DemoTranscript, [], None)
  }

  /**
   * The gateway's transcript request never rejects and always carries a duration, so the
   * draft keeps the title, transcript and duration it answered: the '10:00' default and the
   * rejected path are never taken with it.
   */
  lemma GatewayDraft(videoId: string, reply: Reply<TranscriptBody>)
    ensures var info := TranscriptResult(videoId, reply);
            var d := NewChatDraft(videoId, Resolved(info));
            d.videoTitle == info.title && d.transcript == info.transcript && d.videoDuration == info.duration
  {
  }

  /** The page path `createChat`'s success hands to `createPageUrl`. */
  function ChatPath(chatId: string): string {
    "Chat?chatId=" + chatId
  }

  const HomePath: string := "Home"

  /** The route `createChat`'s success navigates to. */
  function ChatRoute(chatId: string): string {
    CreatePageUrl(ChatPath(chatId))
  }

  lemma ChatRouteKeepsId(chatId: string)
    requires '?' !in chatId
    ensures ChatRoute(chatId) == "#/chat?chatId=" + chatId
  {
    var q := "chatId=" + chatId;
    assert '?' !in q by {
      assert forall i :: 7 <= i < |q| ==> q[i] == chatId[i - 7];
    }
    assert ChatPath(chatId) == "Chat" + "?" + q;
    PageAndQuery("Chat", q);
    ChatPrefix(q);
    assert "#/chat?" + q == "#/chat?chatId=" + chatId;
  }

  lemma ChatPrefix(q: string)
    ensures "#/" + Lower("Chat") + "?" + q == "#/chat?" + q
  {
    assert Lower("Chat") == "chat";
  }

  /** A character that is no digit and not in `chat_` is in a created id only through its random part. */
  lemma NewChatIdAvoids(now: nat, randomPart: string, c: char)
    requires c !in randomPart && c !in "chat_" && !('0' <= c <= '9')
    ensures c !in NewChatId(now, randomPart)
  {
    NatToStringDigits(now);
    var digits := NatToString(now);
    assert c !in digits;
    assert NewChatId(now, randomPart) == "chat_" + digits + "_" + randomPart;
  }

  /** A created id holds no `?` when its random part holds none, so the route carries it whole. */
  lemma NewChatRouteKeepsId(now: nat, randomPart: string)
    requires '?' !in randomPart
    ensures ChatRoute(NewChatId(now, randomPart)) == "#/chat?chatId=" + NewChatId(now, randomPart)
  {
    NewChatIdAvoids(now, randomPart, '?');
    ChatRouteKeepsId(NewChatId(now, randomPart));
  }

  /** The query `chatId=<id>` of an id without `&`, `+` or `%` loads that very chat. */
  lemma ChatQueryLoads(id: string)
    requires id != [] && '&' !in id && '+' !in id && '%' !in id
    ensures Dispatch(SearchParamGet("chatId=" + id, "chatId"), SearchParamGet("chatId=" + id, "videoId"))
         == LoadExisting(id)
  {
    var name := "chatId";
    assert '=' !in name && '&' !in name && '+' !in name && '%' !in name;
    assert "videoId" != name;
    SingleParam(name, id, "videoId");
    assert name + "=" == "chatId=";
    assert name + "=" + id == "chatId=" + id;
  }

  /** The route `#/chat?chatId=<id>` is the chat path with the query `chatId=<id>`. */
  lemma ChatIdRouteQuery(id: string)
    ensures "#/chat?chatId=" + id == "#/chat?" + ("chatId=" + id)
  {
    var route, query := "#/chat?", "chatId=";
    assert route + query == "#/chat?chatId=";
  }

  /**
   * The chat page opened on a created chat's route loads that chat: the id the store made
   * survives the route and the form decoding when its random part holds no `?`, `&`, `+`
   * or `%` (a base-36 string holds none).
   */
  lemma NewChatRouteLoads(now: nat, randomPart: string)
    requires '?' !in randomPart && '&' !in randomPart && '+' !in randomPart && '%' !in randomPart
    ensures var id := NewChatId(now, randomPart);
            ChatRoute(id) == "#/chat?" + ("chatId=" + id)
            && Dispatch(SearchParamGet("chatId=" + id, "chatId"), SearchParamGet("chatId=" + id, "videoId"))
               == LoadExisting(id)
  {
    var id := NewChatId(now, randomPart);
    NewChatIdAvoids(now, randomPart, '&');
    NewChatIdAvoids(now, randomPart, '+');
    NewChatIdAvoids(now, randomPart, '%');
    NewChatRouteKeepsId(now, randomPart);
    ChatIdRouteQuery(id);
    ChatQueryLoads(id);
  }

  class ChatPageView {
    var isLoading: bool
    var currentChat: Option<Session>
    /** The page path the view navigated to (`window.location.href = createPageUrl(target)`), if any. */
    var target: Option<string>

    constructor ()
      ensures isLoading && currentChat.None? && target.None?
    {
      isLoading := true;
      currentChat := None;
      target := None;
    }

    /**
     * `loadExistingChat(chatId)`: a stored chat becomes current and, when it names a video,
     * the gateway's current video; an unknown id sends the page home.
     */
    method LoadExistingChat(store: ChatStore, gateway: LlmGateway, chatId: string)
      modifies this, gateway
      ensures !isLoading
      ensures var found := FindWithKey(old(store.StoredChats()), SessionId, chatId);
              found.Some? ==>
                currentChat == found && target == old(target)
                && gateway.currentVideoId ==
                     (if found.value.videoId != "" then Some(found.value.videoId) else old(gateway.currentVideoId))
      ensures FindWithKey(old(store.StoredChats()), SessionId, chatId).None? ==>
                currentChat == old(currentChat) && target == Some(HomePath)
                && gateway.currentVideoId == old(gateway.currentVideoId)
    {
      isLoading := true;
      var chat := store.GetChatById(chatId);
      if chat.Some? {
        currentChat := chat;
        if chat.value.videoId != "" {
          gateway.SetVideoId(chat.value.videoId);
        }
      } else {
        target := Some(HomePath);
      }
      isLoading := false;
    }

    /**
     * `createNewChat(videoId)` with the mutation's success handler: the video becomes
     * current, its transcript is requested, the draft is stored and the page moves to the
     * new chat's route.
     */
    method CreateNewChat(store: ChatStore, gateway: LlmGateway, videoId: string,
                         reply: Reply<TranscriptBody>, now: nat, randomPart: string)
      returns (created: Session)
      modifies this, store, gateway
      ensures created == NewChatDraft(videoId, Resolved(TranscriptResult(videoId, reply)))
                           .(id := NewChatId(now, randomPart), createdDate := Some(now))
      ensures store.slot == Stored(old(store.StoredChats()) + [created])
      ensures gateway.currentVideoId == Some(videoId)
      ensures target == Some(ChatPath(created.id)) && !isLoading && currentChat == old(currentChat)
    {
      ghost var before := store.StoredChats();
      isLoading := true;
      gateway.SetVideoId(videoId);
      var info := gateway.GetVideoTranscript(videoId, reply);
      assert store.StoredChats() == before;
      var draft := NewChatDraft(videoId, Resolved(info));
      created := store.CreateChat(draft, now, randomPart);
      isLoading := false;
      target := Some(ChatPath(created.id));
    }

    /** The search-parameter effect: one of the three paths, chosen by `Dispatch`. */
    method Open(store: ChatStore, gateway: LlmGateway, chatId: Option<string>, videoId: Option<string>,
                reply: Reply<TranscriptBody>, now: nat, randomPart: string)
      modifies this, store, gateway
      ensures Dispatch(chatId, videoId).GoHome? ==>
                target == Some(HomePath) && store.slot == old(store.slot)
                && gateway.currentVideoId == old(gateway.currentVideoId)
      ensures Dispatch(chatId, videoId).LoadExisting? ==>
                store.slot == old(store.slot) && !isLoading
                && (currentChat == FindWithKey(store.StoredChats(), SessionId, chatId.value) || target == Some(HomePath))
      ensures Dispatch(chatId, videoId).CreateNew? ==>
                |store.StoredChats()| == |old(store.StoredChats())| + 1
                && store.StoredChats()[|old(store.StoredChats())|].videoId == videoId.value
                && gateway.currentVideoId == videoId && !isLoading
    {
      match Dispatch(chatId, videoId)
      case LoadExisting(id) =>
        LoadExistingChat(store, gateway, id);
      case CreateNew(id) =>
        var created := CreateNewChat(store, gateway, id, reply, now, randomPart);
      case GoHome =>
        target := Some(HomePath);
    }

    /** `handleMessagesChange`: only a loaded chat is updated, and only its `messages` key. */
    method HandleMessagesChange(store: ChatStore, messages: seq<Message>) returns (r: Option<Result<Session, string>>)
      modifies store
      ensures currentChat.None? ==> r.None? && store.slot == old(store.slot)
      ensures currentChat.Some? ==>
                r.Some? && UpdateEffect(old(store.slot), store.slot, currentChat.value.id, MessagesPatch(messages), r.value)
    {
      if currentChat.Some? {
        var u := store.UpdateChat(currentChat.value.id, MessagesPatch(messages));
        r := Some(u);
      } else {
        r := None;
      }
    }
  }
}
