/**
 * The gateway to the back end (`llmService` in Frontend/api/chatService.ts): one
 * module-level current video id, the question-answering call and the transcript call.
 * What the network answers is an input of each call.
 */
module LlmService {
  import opened Wrappers
  import opened Text

  const DefaultBaseUrl: string := "http://localhost:8000"
  const QuestionMarker: string := "USER QUESTION:"
  const MissingVideoMessage: string := "Video ID is required for chat"

  /** The body of a failed response: a JSON object (with or without `detail`), or unreadable. */
  datatype ErrorBody = Detail(detail: Option<string>) | Unreadable

  /**
   * What one `fetch` produced: a 2xx response with its parsed body, a non-2xx response,
   * or an error thrown on the way (network failure, unreadable success body).
   */
  datatype Reply<T> = Ok(body: T) | NotOk(status: nat, error: ErrorBody) | Thrown(message: string)

  /** The wire request of the question-answering call. */
  datatype ChatRequest = ChatRequest(videoId: string, question: string)

  /** The back end's answer body. */
  datatype ChatBody = ChatBody(answer: string, videoId: string, question: string)

  /** `invokeLLM`'s result: `{answer}` when the caller asked for that schema, else the body as it came. */
  datatype LlmAnswer = AnswerOnly(answer: string) | WholeBody(body: ChatBody) {
    function Answer(): string {
      match this
      case AnswerOnly(a) => a
      case WholeBody(b) => b.answer
    }
  }

  /** The parameters of `invokeLLM`: the prompt, whether `response_json_schema` names `answer`, the explicit id. */
  datatype ChatParams = ChatParams(prompt: string, expectsAnswer: bool, videoId: Option<string>)

  /** The transcript endpoint's body, each key possibly missing. */
  datatype TranscriptBody = TranscriptBody(title: Option<string>, transcript: Option<string>, duration: Option<string>)

  /** What `getVideoTranscript` resolves to. */
  datatype TranscriptInfo = TranscriptInfo(title: string, transcript: string, duration: string)

  /** `params.videoId || currentVideoId`, and `None` when that is not truthy either. */
  function ResolveVideoId(explicit: Option<string>, current: Option<string>): (r: Option<string>)
    ensures r.Some? ==> r.value != ""
    ensures Truthy(explicit) ==> r == explicit
    ensures !Truthy(explicit) ==> r == (if Truthy(current) then current else None)
  {
    if Truthy(explicit) then explicit
    else if Truthy(current) then current
    else None
  }

  /** A match of `/USER QUESTION:\s*(.+?)(?:\n|$)/s` can start at `i`: the marker is there and a character follows it. */
  predicate QuestionMatchAt(prompt: string, i: nat) {
    OccursAt(prompt, i, QuestionMarker) && i + |QuestionMarker| < |prompt|
  }

  /** The leftmost position at or after `from` where the question pattern matches. */
  function FirstQuestionMatch(prompt: string, from: nat): (r: Option<nat>)
    decreases |prompt| - from
    ensures r.Some? ==> from <= r.value && QuestionMatchAt(prompt, r.value)
    ensures r.Some? ==> forall j: nat :: from <= j < r.value ==> !QuestionMatchAt(prompt, j)
    ensures r.None? ==> forall j: nat :: from <= j ==> !QuestionMatchAt(prompt, j)
  {
    if from + |QuestionMarker| >= |prompt| then None
    else if QuestionMatchAt(prompt, from) then Some(from)
    else FirstQuestionMatch(prompt, from + 1)
  }

  /**
   * Group 1 of the pattern for the text `rest` after the marker: the greedy `\s*` takes the
   * leading whitespace, then the lazy `.+?` runs up to the next newline or the end. When
   * `rest` is whitespace only, `\s*` gives back one character for `.+?`.
   */
  function Capture(rest: string): (c: string)
    requires rest != []
    ensures c != []
    ensures '\n' !in c || forall i :: 0 <= i < |c| ==> IsJsSpace(c[i])
  {
    var t := TrimStart(rest, IsJsSpace);
    if t == [] then rest[|rest| - 1..]
    else t[..IndexOfChar(t, '\n')]
  }

  /** The question `invokeLLM` sends: the trimmed capture when the pattern matches, else the whole prompt. */
  function ExtractQuestion(prompt: string): (q: string)
    ensures FirstQuestionMatch(prompt, 0).None? ==> q == prompt
    ensures FirstQuestionMatch(prompt, 0).Some? ==> IsTrimmed(q, IsJsSpace) && '\n' !in q
  {
    match FirstQuestionMatch(prompt, 0)
    case None => prompt
    case Some(i) => Trim(Capture(prompt[i + |QuestionMarker|..]), IsJsSpace)
  }

  /** The marker overlaps no shifted copy of itself. */
  lemma MarkerUnbordered(d: nat)
    requires 0 < d < |QuestionMarker|
    ensures QuestionMarker[d..] != QuestionMarker[..|QuestionMarker| - d]
  {
    if d == 6 {
      assert QuestionMarker[d..][1] != QuestionMarker[..|QuestionMarker| - d][1];
    } else {
      assert QuestionMarker[d..][0] != QuestionMarker[..|QuestionMarker| - d][0];
    }
  }

  /** No match of the pattern starts inside a prefix that holds no marker. */
  lemma NoMatchBefore(before: string, rest: string, j: nat)
    requires forall i: nat :: !OccursAt(before, i, QuestionMarker)
    requires j < |before|
    ensures !QuestionMatchAt(before + QuestionMarker + rest, j)
  {
    var p := before + QuestionMarker + rest;
    var m := |QuestionMarker|;
    if j + m <= |before| {
      assert p[j..j + m] == before[j..j + m] by {
        assert p == before + (QuestionMarker + rest);
        assert forall t :: 0 <= t < |before| ==> p[t] == before[t];
      }
      assert !OccursAt(before, j, QuestionMarker);
    } else {
      var d := |before| - j;
      assert p[|before|..|before| + m] == QuestionMarker;
      MarkerUnbordered(d);
      assert p[j..j + m][d..] == p[|before|..j + m] == QuestionMarker[..m - d];
    }
  }

  /** After a prefix without the marker, the first match is the marker that follows it. */
  lemma FirstMatchAfterPrefix(before: string, rest: string)
    requires forall i: nat :: !OccursAt(before, i, QuestionMarker)
    requires rest != []
    ensures FirstQuestionMatch(before + QuestionMarker + rest, 0) == Some(|before|)
  {
    var p := before + QuestionMarker + rest;
    var k := |before|;
    assert p[k..k + |QuestionMarker|] == QuestionMarker;
    assert QuestionMatchAt(p, k);
    forall j: nat | j < k ensures !QuestionMatchAt(p, j) {
      NoMatchBefore(before, rest, j);
    }
  }

  /** One space, a trimmed one-line question, then a newline or nothing: the capture is the question. */
  lemma CaptureOfQuestion(question: string, after: string)
    requires question != [] && IsTrimmed(question, IsJsSpace) && '\n' !in question
    requires after == [] || after[0] == '\n'
    ensures Capture(" " + question + after) == question
  {
    var body := question + after;
    assert " " + question + after == " " + body;
    assert body[0] == question[0];
    TrimStartOneSpace(body, IsJsSpace);
    LineOfBody(question, after);
  }

  /** The first line of `question + after` is `question` when `after` is empty or starts a new line. */
  lemma LineOfBody(question: string, after: string)
    requires '\n' !in question
    requires after == [] || after[0] == '\n'
    ensures var body := question + after; IndexOfChar(body, '\n') == |question| && body[..|question|] == question
  {
    var body := question + after;
    assert body[..|question|] == question;
    if after != [] {
      assert body[|question|] == '\n';
    }
  }

  /**
   * A prompt built as `<text without the marker>USER QUESTION: <question><newline or end>`
   * gives back exactly the question, when the question is trimmed, non-empty and on one line.
   */
  lemma QuestionRoundTrip(before: string, question: string, after: string)
    requires forall i: nat :: !OccursAt(before, i, QuestionMarker)
    requires question != [] && IsTrimmed(question, IsJsSpace) && '\n' !in question
    requires after == [] || after[0] == '\n'
    ensures ExtractQuestion(before + QuestionMarker + " " + question + after) == question
  {
    var rest := " " + question + after;
    var p := before + QuestionMarker + rest;
    assert p == before + QuestionMarker + " " + question + after;
    FirstMatchAfterPrefix(before, rest);
    assert p[|before| + |QuestionMarker|..] == rest;
    CaptureOfQuestion(question, after);
  }

  /** The message a failed request surfaces: the server's `detail`, else `HTTP <status>`, else the thrown message. */
  function FailureDetail<T>(reply: Reply<T>): (m: string)
    requires !reply.Ok?
    ensures reply.NotOk? ==> m != []
    ensures reply.NotOk? && reply.error.Detail? && Truthy(reply.error.detail) ==> m == reply.error.detail.value
  {
    match reply
    case NotOk(status, Unreadable) => "Unknown error"
    case NotOk(status, Detail(d)) => if Truthy(d) then d.value else "HTTP " + NatToString(status)
    case Thrown(message) => message
  }

  /** The settled result of `invokeLLM` once the request was sent. */
  function ChatOutcome(reply: Reply<ChatBody>, expectsAnswer: bool, baseUrl: string): (r: Result<LlmAnswer, string>)
    ensures r.Success? <==> reply.Ok?
    ensures r.Success? ==> r.value.Answer() == reply.body.answer && (r.value.AnswerOnly? <==> expectsAnswer)
    ensures r.Success? && !expectsAnswer ==> r.value == WholeBody(reply.body)
    ensures r.Failure? ==> "Backend API error: " <= r.error
  {
    if reply.Ok? then
      Success(if expectsAnswer then AnswerOnly(reply.body.answer) else WholeBody(reply.body))
    else
      var detail := FailureDetail(reply);
      Failure("Backend API error: " + detail + ". Please make sure the backend server is running on " + baseUrl)
  }

  /** A failed chat request's message names what went wrong: the server's `detail`, the status, or the thrown message. */
  lemma ChatErrorNamesDetail(reply: Reply<ChatBody>, expectsAnswer: bool, baseUrl: string)
    requires !reply.Ok?
    ensures var r := ChatOutcome(reply, expectsAnswer, baseUrl);
            r.Failure? && Contains(r.error, FailureDetail(reply))
  {
    var detail := FailureDetail(reply);
    var e := ChatOutcome(reply, expectsAnswer, baseUrl).error;
    assert e[19..19 + |detail|] == detail;
    assert OccursAt(e, 19, detail);
    ContainsIff(e, detail);
  }

  /** What `getVideoTranscript` resolves to: the body with defaults, or a placeholder; it never rejects. */
  function TranscriptResult(videoId: string, reply: Reply<TranscriptBody>): (info: TranscriptInfo)
    ensures info.title != "" && info.duration != ""
    ensures reply.Ok? && Truthy(reply.body.title) ==> info.title == reply.body.title.value
    ensures reply.Ok? && Truthy(reply.body.transcript) ==> info.transcript == reply.body.transcript.value
    ensures reply.Ok? && !Truthy(reply.body.transcript) ==> info.transcript == ""
    ensures reply.Ok? && Truthy(reply.body.duration) ==> info.duration == reply.body.duration.value
    ensures !reply.Ok? || !Truthy(reply.body.title) ==> info.title == "YouTube Video " + videoId
    ensures !reply.Ok? || !Truthy(reply.body.duration) ==> info.duration == "Unknown"
    ensures !reply.Ok? ==> "Error fetching transcript: " <= info.transcript
  {
    if reply.Ok? then
      var b := reply.body;
      TranscriptInfo(
        if Truthy(b.title) then b.title.value else "YouTube Video " + videoId,
        if Truthy(b.transcript) then b.transcript.value else "",
        if Truthy(b.duration) then b.duration.value else "Unknown")
    else
      var detail := FailureDetail(reply);
      var t := "Error fetching transcript: " + detail
        + ". Please make sure the backend server is running and the video ID is valid.";
      TranscriptInfo("YouTube Video " + videoId, t, "Unknown")
  }

  /** A failed transcript request leaves its reason in the placeholder transcript. */
  lemma TranscriptErrorNamesDetail(videoId: string, reply: Reply<TranscriptBody>)
    requires !reply.Ok?
    ensures Contains(TranscriptResult(videoId, reply).transcript, FailureDetail(reply))
  {
    var detail := FailureDetail(reply);
    var t := TranscriptResult(videoId, reply).transcript;
    assert t[27..27 + |detail|] == detail;
    assert OccursAt(t, 27, detail);
    ContainsIff(t, detail);
  }

  class LlmGateway {
    /** The module-level `currentVideoId`. */
    var currentVideoId: Option<string>
    /** `API_BASE_URL`. */
    const baseUrl: string

    /** The module as loaded: no current video; the base URL is the configured one, else the local default. */
    constructor (configured: Option<string>)
      ensures currentVideoId == None
      ensures baseUrl == if Truthy(configured) then configured.value else DefaultBaseUrl
    {
      currentVideoId := None;
      baseUrl := if Truthy(configured) then configured.value else DefaultBaseUrl;
    }

    method SetVideoId(videoId: string)
      modifies this
      ensures currentVideoId == Some(videoId)
    {
      currentVideoId := Some(videoId);
    }

    method GetVideoId() returns (r: Option<string>)
      ensures r == currentVideoId
    {
      r := currentVideoId;
    }

    /**
     * `invokeLLM(params)`: `sent` is the request put on the wire, if any; `reply` is what the
     * back end answered to it. Without a resolvable id no request is sent.
     */
    method InvokeLLM(params: ChatParams, reply: Reply<ChatBody>) returns (sent: Option<ChatRequest>, r: Result<LlmAnswer, string>)
      ensures sent.Some? <==> ResolveVideoId(params.videoId, currentVideoId).Some?
      ensures sent.None? ==> r == Failure(MissingVideoMessage)
      ensures sent.Some? ==> sent.value.videoId == ResolveVideoId(params.videoId, currentVideoId).value
      ensures sent.Some? ==> sent.value.question == ExtractQuestion(params.prompt)
      ensures sent.Some? ==> r == ChatOutcome(reply, params.expectsAnswer, baseUrl)
    {
      var videoId := ResolveVideoId(params.videoId, currentVideoId);
      if videoId.None? {
        sent, r := None, Failure(MissingVideoMessage);
        return;
      }
      var question := ExtractQuestion(params.prompt);
      sent := Some(ChatRequest(videoId.value, question));
      r := ChatOutcome(reply, params.expectsAnswer, baseUrl);
    }

    /** `getVideoTranscript(videoId)`: only a successful response makes `videoId` current. */
    method GetVideoTranscript(videoId: string, reply: Reply<TranscriptBody>) returns (info: TranscriptInfo)
      modifies this
      ensures info == TranscriptResult(videoId, reply)
      ensures currentVideoId == if reply.Ok? then Some(videoId) else old(currentVideoId)
    {
      if reply.Ok? {
        currentVideoId := Some(videoId);
      }
      info := TranscriptResult(videoId, reply);
    }
  }
}
