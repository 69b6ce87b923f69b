/**
 * The back-end endpoints (Backend/api_server.py) over their three in-memory maps keyed by
 * video id: the vector index, the transcript cache and the chunk cache. Fetching the
 * transcript, splitting, embedding, the disk copy and the language model are inputs.
 */
module ApiServer {
  import opened Wrappers
  import opened Text
  import HybridRetriever

  /** A vector index, known by the chunks it was built from. */
  datatype VectorIndex = VectorIndex(chunks: seq<string>)

  /** A transcript cache entry: the text, and the title and duration keys when present. */
  datatype CachedTranscript = CachedTranscript(transcript: string, title: Option<string>, duration: Option<string>)

  datatype HttpError = HttpError(status: nat, detail: string)

  datatype TranscriptResponse = TranscriptResponse(videoId: string, title: string, transcript: string, duration: string)

  datatype ChatResponse = ChatResponse(answer: string, videoId: string, question: string)

  /**
   * What fetching, splitting and embedding a transcript gave: a failure before anything is
   * stored, or the segment texts and chunks, with the error of the disk copy if it failed.
   */
  datatype Pipeline = PipelineFailed(message: string) | Built(segments: seq<string>, chunks: seq<string>, saveError: Option<string>)

  /** What reading the pickled chunk list of a saved index gives. */
  datatype ChunksFile = NoChunksFile | ChunksRead(chunks: seq<string>) | ChunksUnreadable(message: string)

  /**
   * What the disk holds for a video that is not in memory: no index, an index that loads
   * (with the outcome of reading its chunk file, which happens after the index is in
   * memory), or an index whose load raised.
   */
  datatype SavedIndex = NotSaved | Saved(index: VectorIndex, chunks: ChunksFile) | LoadFailed(message: string)

  const UnknownDuration: string := "Unknown"
  const SummaryPhrases: seq<string> :=
    ["summary", "summarize", "overview", "what is this video about", "what does this video"]
  const ShortContext: nat := 50

  function DefaultTitle(videoId: string): string {
    "YouTube Video " + videoId
  }

  function TranscriptError(message: string): HttpError {
    HttpError(500, "Error fetching transcript: " + message)
  }

  function ChatError(message: string): HttpError {
    HttpError(500, "Error processing chat: " + message)
  }

  function NotProcessed(videoId: string): HttpError {
    HttpError(404, "Video " + videoId + " not processed. Please fetch transcript first.")
  }

  /** The answer for a cached transcript; a missing key takes its default. */
  function CachedResponse(videoId: string, cached: CachedTranscript): TranscriptResponse {
    TranscriptResponse(videoId, cached.title.GetOr(DefaultTitle(videoId)), cached.transcript,
      cached.duration.GetOr(UnknownDuration))
  }

  /** The cache entry a fresh fetch stores. */
  function FreshEntry(videoId: string, segments: seq<string>): CachedTranscript {
    CachedTranscript(Join(segments, " "), Some(DefaultTitle(videoId)), Some(UnknownDuration))
  }

  /** A later request answered from the cache gets exactly what the fetch that filled it answered. */
  lemma CacheReplaysFetch(videoId: string, segments: seq<string>)
    ensures CachedResponse(videoId, FreshEntry(videoId, segments))
         == TranscriptResponse(videoId, DefaultTitle(videoId), Join(segments, " "), UnknownDuration)
  {
  }

  /** Whether `s` contains one of `phrases`. */
  function ContainsAny(s: string, phrases: seq<string>): (r: bool)
    ensures r <==> exists i :: 0 <= i < |phrases| && Contains(s, phrases[i])
  {
    if phrases == [] then false
    else
      var rest := ContainsAny(s, phrases[1..]);
      assert forall i :: 1 <= i < |phrases| ==> phrases[i] == phrases[1..][i - 1];
      Contains(s, phrases[0]) || rest
  }

  /** How many chunks the first retrieval asks for: more for a summary request. */
  function RetrievalK(question: string): (k: nat)
    ensures k == 10 || k == 5
    ensures k == 10 <==> exists i :: 0 <= i < |SummaryPhrases| && Contains(Lower(question), SummaryPhrases[i])
  {
    if ContainsAny(Lower(question), SummaryPhrases) then 10 else 5
  }

  /** Lower-casing the question first changes nothing: the phrase test ignores case. */
  lemma RetrievalKIgnoresCase(question: string)
    ensures RetrievalK(Lower(question)) == RetrievalK(question)
  {
    LowerIdempotent(question);
  }

  /** The size of the retry, when the context is too short and chunks are known. */
  function RetryK(context: string, chunks: Option<seq<string>>): (k: Option<nat>)
    ensures k.Some? <==> |Trim(context, IsPySpace)| < ShortContext && chunks.Some? && chunks.value != []
    ensures k.Some? ==> 1 <= k.value <= 20 && k.value <= |chunks.value|
    ensures k.Some? ==> k.value == 20 || k.value == |chunks.value|
  {
    if |Trim(context, IsPySpace)| < ShortContext && chunks.Some? && chunks.value != [] then
      Some(if |chunks.value| < 20 then |chunks.value| else 20)
    else None
  }

  /** A context made of blanks only is always retried when chunks are known. */
  lemma BlankContextRetried(context: string, chunks: seq<string>)
    requires forall i :: 0 <= i < |context| ==> IsPySpace(context[i])
    requires chunks != []
    ensures RetryK(context, Some(chunks)).Some?
  {
  }

  class Server {
    var vectorStores: map<string, VectorIndex>
    var transcriptCache: map<string, CachedTranscript>
    var chunksCache: map<string, seq<string>>

    /** A cached transcript or chunk list always has its vector index in memory. */
    ghost predicate Valid()
      reads this
    {
      transcriptCache.Keys <= vectorStores.Keys && chunksCache.Keys <= vectorStores.Keys
    }

    constructor ()
      ensures Valid()
      ensures vectorStores == map[] && transcriptCache == map[] && chunksCache == map[]
    {
      vectorStores, transcriptCache, chunksCache := map[], map[], map[];
    }

    /** `POST /api/transcript/{video_id}`. */
    method GetVideoTranscript(videoId: string, pipeline: Pipeline) returns (r: Result<TranscriptResponse, HttpError>)
      requires Valid()
      modifies this
      ensures Valid()
      ensures videoId in old(transcriptCache) ==>
                r == Success(CachedResponse(videoId, old(transcriptCache)[videoId]))
                && unchanged(this)
      ensures videoId !in old(transcriptCache) && pipeline.PipelineFailed? ==>
                r == Failure(TranscriptError(pipeline.message)) && unchanged(this)
      ensures videoId !in old(transcriptCache) && pipeline.Built? ==>
                vectorStores == old(vectorStores)[videoId := VectorIndex(pipeline.chunks)]
                && chunksCache == old(chunksCache)[videoId := pipeline.chunks]
      ensures videoId !in old(transcriptCache) && pipeline.Built? && pipeline.saveError.Some? ==>
                r == Failure(TranscriptError(pipeline.saveError.value)) && transcriptCache == old(transcriptCache)
      ensures videoId !in old(transcriptCache) && pipeline.Built? && pipeline.saveError.None? ==>
                transcriptCache == old(transcriptCache)[videoId := FreshEntry(videoId, pipeline.segments)]
                && r == Success(TranscriptResponse(videoId, DefaultTitle(videoId),
                                  Join(pipeline.segments, " "), UnknownDuration))
    {
      if videoId in transcriptCache {
        return Success(CachedResponse(videoId, transcriptCache[videoId]));
      }
      match pipeline
      case PipelineFailed(message) =>
        r := Failure(TranscriptError(message));
      case Built(segments, chunks, saveError) =>
        var text := Join(segments, " ");
        vectorStores := vectorStores[videoId := VectorIndex(chunks)];
        chunksCache := chunksCache[videoId := chunks];
        if saveError.Some? {
          return Failure(TranscriptError(saveError.value));
        }
        transcriptCache := transcriptCache[videoId := FreshEntry(videoId, segments)];
        r := Success(TranscriptResponse(videoId, DefaultTitle(videoId), text, UnknownDuration));
    }

    /**
     * `POST /api/chat`. `saved` is what the disk holds for the video, `contextFor(k)` what the
     * retriever built over `k` chunks yields (or the error it raised), and `answerFor(c)` the
     * model's answer for context `c`. A video neither in memory nor on disk is a 404, passed
     * through as is; every other failure is a 500.
     */
    method ChatWithVideo(videoId: string, question: string, saved: SavedIndex,
                         contextFor: nat -> Result<string, string>, answerFor: string -> Result<string, string>)
      returns (r: Result<ChatResponse, HttpError>)
      requires Valid()
      modifies this
      ensures Valid() && transcriptCache == old(transcriptCache)
      ensures videoId in old(vectorStores) ==> unchanged(this)
      ensures videoId !in old(vectorStores) && !saved.Saved? ==> unchanged(this)
      ensures videoId !in old(vectorStores) && saved.Saved? ==>
                vectorStores == old(vectorStores)[videoId := saved.index]
                && chunksCache == (if saved.chunks.ChunksRead? then old(chunksCache)[videoId := saved.chunks.chunks]
                                   else old(chunksCache))
      ensures videoId !in old(vectorStores) && saved.Saved? && !saved.chunks.ChunksRead? ==>
                videoId in vectorStores && ChunksAfterLoad(videoId).None?
      ensures videoId !in old(vectorStores) && saved.Saved? && saved.chunks.ChunksUnreadable? ==>
                r == Failure(ChatError(saved.chunks.message))
      ensures videoId !in old(vectorStores) && saved.NotSaved? ==> r == Failure(NotProcessed(videoId))
      ensures videoId !in old(vectorStores) && saved.LoadFailed? ==> r == Failure(ChatError(saved.message))
      ensures (videoId in old(vectorStores) || saved.Saved?) && r.Failure? ==> r.error.status == 500
      ensures (videoId in old(vectorStores) || (saved.Saved? && !saved.chunks.ChunksUnreadable?))
              && contextFor(RetrievalK(question)).Failure? ==>
                r == Failure(ChatError(contextFor(RetrievalK(question)).error))
      ensures r.Success? ==>
                r.value.videoId == videoId && r.value.question == question
                && contextFor(RetrievalK(question)).Success?
                && var first := contextFor(RetrievalK(question)).value;
                   match RetryK(first, ChunksAfterLoad(videoId))
                   case None => answerFor(first) == Success(r.value.answer)
                   case Some(k) => contextFor(k).Success? && answerFor(contextFor(k).value) == Success(r.value.answer)
    {
      if videoId !in vectorStores {
        match saved
        case NotSaved =>
          return Failure(NotProcessed(videoId));
        case LoadFailed(message) =>
          return Failure(ChatError(message));
        case Saved(index, savedChunks) =>
          vectorStores := vectorStores[videoId := index];
          match savedChunks
          case NoChunksFile =>
          case ChunksRead(read) =>
            chunksCache := chunksCache[videoId := read];
          case ChunksUnreadable(message) =>
            return Failure(ChatError(message));
      }
      var chunks := if videoId in chunksCache then Some(chunksCache[videoId]) else None;
      var k := RetrievalK(question);
      var context := contextFor(k);
      if context.Failure? {
        return Failure(ChatError(context.error));
      }
      var retry := RetryK(context.value, chunks);
      if retry.Some? {
        context := contextFor(retry.value);
        if context.Failure? {
          return Failure(ChatError(context.error));
        }
      }
      var answer := answerFor(context.value);
      if answer.Failure? {
        return Failure(ChatError(answer.error));
      }
      r := Success(ChatResponse(answer.value, videoId, question));
    }

    /** The chunk list the chat handler reads (`chunks_cache.get(video_id)`). */
    function ChunksAfterLoad(videoId: string): Option<seq<string>>
      reads this
    {
      if videoId in chunksCache then Some(chunksCache[videoId]) else None
    }

    /** `DELETE /api/video/{video_id}`: drops the id from all three maps; an absent id is no error. */
    method DeleteVideoData(videoId: string) returns (message: string)
      requires Valid()
      modifies this
      ensures Valid()
      ensures vectorStores == old(vectorStores) - {videoId}
      ensures transcriptCache == old(transcriptCache) - {videoId}
      ensures chunksCache == old(chunksCache) - {videoId}
      ensures message == "Video " + videoId + " data deleted successfully"
    {
      vectorStores := vectorStores - {videoId};
      transcriptCache := transcriptCache - {videoId};
      chunksCache := chunksCache - {videoId};
      message := "Video " + videoId + " data deleted successfully";
    }
  }

  /** Deleting touches no other key: every other id keeps its entries in all three maps. */
  lemma DeleteKeepsOthers<V>(m: map<string, V>, videoId: string, other: string)
    requires other != videoId
    ensures other in m - {videoId} <==> other in m
    ensures other in m ==> (m - {videoId})[other] == m[other]
  {
  }
}
