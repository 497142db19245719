/** The response shapes of the generative-AI SDK, as datatypes (every optional property is an
    Option), and the logic services/geminiService.ts wraps around its SDK calls: which model
    and configuration each consultant mode asks for, how an image, a speech payload, grounding
    chunks and a video URI are dug out of a response, when the API-key selector is opened,
    and the video polling loop. The SDK calls themselves are foreign: their results are
    parameters here. */
module GeminiService {
  import opened Wrappers
  import JsString

  // ---- SDK response shapes ----

  datatype InlineData = InlineData(data: Option<string>, mimeType: Option<string>)
  datatype Part = Part(text: Option<string>, inlineData: Option<InlineData>)
  datatype Content = Content(parts: Option<seq<Part>>)
  datatype Web = Web(uri: Option<string>, title: Option<string>)
  datatype GroundingChunk = GroundingChunk(web: Option<Web>)
  datatype GroundingMetadata = GroundingMetadata(groundingChunks: Option<seq<GroundingChunk>>)
  datatype Candidate = Candidate(content: Option<Content>, groundingMetadata: Option<GroundingMetadata>)
  /** `text` is the SDK's convenience accessor for the concatenated text of the reply. */
  datatype GenerateContentResponse = GenerateContentResponse(candidates: Option<seq<Candidate>>, text: Option<string>)

  datatype Video = Video(uri: Option<string>)
  datatype GeneratedVideo = GeneratedVideo(video: Option<Video>)
  datatype VideosResponse = VideosResponse(generatedVideos: Option<seq<GeneratedVideo>>)
  datatype VideosOperation = VideosOperation(done: Option<bool>, response: Option<VideosResponse>)

  /** `response.candidates?.[0]`. */
  function FirstCandidate(resp: GenerateContentResponse): (r: Option<Candidate>)
    ensures r.Some? <==> resp.candidates.Some? && |resp.candidates.value| > 0
    ensures r.Some? ==> r.value == resp.candidates.value[0]
  {
    match resp.candidates
    case Some(cs) => JsString.At(cs, 0)
    case None => None
  }

  // ---- askConsultant ----

  datatype ConsultantMode = Search | Thinking

  datatype RequestConfig =
    | ThinkingConfig(thinkingBudget: nat)
    | GoogleSearchTool

  datatype ContentRequest = ContentRequest(model: string, contents: string, config: RequestConfig)

  /** What askConsultant hands back: the reply text and the grounding chunks (always an array). */
  datatype ConsultantAnswer = ConsultantAnswer(text: Option<string>, groundingChunks: seq<GroundingChunk>)

  const ThinkingModel := "gemini-3-pro-preview"
  const SearchModel := "gemini-2.5-flash"
  /** The largest thinking budget the pro model accepts. */
  const MaxThinkingBudget := 32768

  /** The request askConsultant sends for a prompt in a mode. */
  function ConsultantRequest(prompt: string, mode: ConsultantMode): (r: ContentRequest)
    ensures r.contents == prompt
    ensures mode == Thinking <==> r.config.ThinkingConfig?
    ensures mode == Thinking ==> r.model == ThinkingModel && r.config.thinkingBudget == MaxThinkingBudget
    ensures mode == Search ==> r.model == SearchModel && r.config == GoogleSearchTool
  {
    match mode
    case Thinking => ContentRequest(ThinkingModel, prompt, ThinkingConfig(MaxThinkingBudget))
    case Search => ContentRequest(SearchModel, prompt, GoogleSearchTool)
  }

  /** Every link of `response.candidates?.[0]?.groundingMetadata?.groundingChunks` is present. */
  predicate HasGroundingChunks(resp: GenerateContentResponse) {
    && FirstCandidate(resp).Some?
    && FirstCandidate(resp).value.groundingMetadata.Some?
    && FirstCandidate(resp).value.groundingMetadata.value.groundingChunks.Some?
  }

  /** `response.candidates?.[0]?.groundingMetadata?.groundingChunks || []`: an array is
      always truthy, so the default applies exactly when a link of the chain is absent. */
  function GroundingChunksOf(resp: GenerateContentResponse): (r: seq<GroundingChunk>)
    ensures HasGroundingChunks(resp) ==> r == FirstCandidate(resp).value.groundingMetadata.value.groundingChunks.value
    ensures !HasGroundingChunks(resp) ==> r == []
  {
    match FirstCandidate(resp)
    case Some(Candidate(_, Some(GroundingMetadata(Some(chunks))))) => chunks
    case _ => []
  }

  /** What askConsultant returns for the response to its request. */
  function ConsultantAnswerOf(mode: ConsultantMode, resp: GenerateContentResponse): (r: ConsultantAnswer)
    ensures r.text == resp.text
    ensures mode == Thinking ==> r.groundingChunks == []
    ensures mode == Search && HasGroundingChunks(resp)
            ==> r.groundingChunks == FirstCandidate(resp).value.groundingMetadata.value.groundingChunks.value
    ensures mode == Search && (FirstCandidate(resp).None? || FirstCandidate(resp).value.groundingMetadata.None?
                               || FirstCandidate(resp).value.groundingMetadata.value.groundingChunks.None?)
            ==> r.groundingChunks == []
  {
    match mode
    case Thinking => ConsultantAnswer(resp.text, [])
    case Search => ConsultantAnswer(resp.text, GroundingChunksOf(resp))
  }

  // ---- image extraction (generateProImage, editImage) ----

  const PngDataUrlPrefix := "data:image/png;base64,"
  const NoImageError := "No image generated"

  /** The template `data:image/png;base64,${part.inlineData.data}`; an absent `data` renders
      as the text "undefined". */
  function PngDataUrl(d: InlineData): (r: string)
    ensures |PngDataUrlPrefix| <= |r| && r[..|PngDataUrlPrefix|] == PngDataUrlPrefix
    ensures d.data.Some? ==> r[|PngDataUrlPrefix|..] == d.data.value
  {
    PngDataUrlPrefix + JsString.Template(d.data)
  }

  /** Every link of `response.candidates?.[0]?.content?.parts` is present. */
  predicate HasParts(resp: GenerateContentResponse) {
    && FirstCandidate(resp).Some?
    && FirstCandidate(resp).value.content.Some?
    && FirstCandidate(resp).value.content.value.parts.Some?
  }

  /** `response.candidates?.[0]?.content?.parts || []`: missing candidates, content or parts
      count as an empty list. */
  function ResponseParts(resp: GenerateContentResponse): (r: seq<Part>)
    ensures HasParts(resp) ==> r == FirstCandidate(resp).value.content.value.parts.value
    ensures !HasParts(resp) ==> r == []
  {
    match FirstCandidate(resp)
    case Some(Candidate(Some(Content(Some(parts))), _)) => parts
    case _ => []
  }

  /** The position where the `for (const part of parts)` loop returns: the first part
      carrying inline data, or `|parts|` when the loop runs to the end. */
  function FirstInlineIndex(parts: seq<Part>): (k: nat)
    ensures k <= |parts|
    ensures forall j :: 0 <= j < k ==> parts[j].inlineData.None?
    ensures k < |parts| ==> parts[k].inlineData.Some?
  {
    if parts == [] || parts[0].inlineData.Some? then 0
    else 1 + FirstInlineIndex(parts[1..])
  }

  /** The loop's result: the first part with inline data, scanned in order, becomes a PNG
      data URL; `None` when no part has inline data. */
  function FirstInlineImage(parts: seq<Part>): (r: Option<string>)
    ensures r.None? <==> forall i :: 0 <= i < |parts| ==> parts[i].inlineData.None?
    ensures r.Some? ==> var k := FirstInlineIndex(parts);
                        k < |parts| && r.value == PngDataUrl(parts[k].inlineData.value)
  {
    var k := FirstInlineIndex(parts);
    if k < |parts| then Some(PngDataUrl(parts[k].inlineData.value)) else None
  }

  /** Parts after the first inline-data part are never looked at. */
  lemma {:induction false} FirstInlineIgnoresLaterParts(parts: seq<Part>, more: seq<Part>)
    requires FirstInlineIndex(parts) < |parts|
    ensures FirstInlineIndex(parts + more) == FirstInlineIndex(parts)
    ensures FirstInlineImage(parts + more) == FirstInlineImage(parts)
  {
    if parts[0].inlineData.None? {
      assert (parts + more)[1..] == parts[1..] + more;
      FirstInlineIgnoresLaterParts(parts[1..], more);
    }
  }

  /** The value generateProImage returns, or the Error it throws. */
  function ProImageResult(resp: GenerateContentResponse): (r: Result<string, string>)
    ensures r.Failure? <==> FirstInlineImage(ResponseParts(resp)).None?
    ensures r.Failure? ==> r.error == NoImageError
    ensures r.Success? ==> Some(r.value) == FirstInlineImage(ResponseParts(resp))
    ensures r.Success? ==> |PngDataUrlPrefix| <= |r.value| && r.value[..|PngDataUrlPrefix|] == PngDataUrlPrefix
  {
    match FirstInlineImage(ResponseParts(resp))
    case Some(url) => Success(url)
    case None => Failure(NoImageError)
  }

  /** The value editImage returns: the same search, but `null` instead of a thrown Error. */
  function EditImageResult(resp: GenerateContentResponse): (r: Option<string>)
    ensures r.None? <==> ProImageResult(resp).Failure?
    ensures r.Some? ==> ProImageResult(resp) == Success(r.value)
  {
    FirstInlineImage(ResponseParts(resp))
  }

  // ---- generateSpeech ----

  /** `response.candidates?.[0]?.content?.parts?.[0]?.inlineData?.data`: only the first part
      of the first candidate is looked at. */
  function SpeechData(resp: GenerateContentResponse): (r: Option<string>)
    ensures var ps := ResponseParts(resp);
            r.Some? <==> |ps| > 0 && ps[0].inlineData.Some? && ps[0].inlineData.value.data.Some?
    ensures r.Some? ==> var ps := ResponseParts(resp); |ps| > 0 && ps[0].inlineData.Some? && ps[0].inlineData.value.data == r
  {
    var ps := ResponseParts(resp);
    if ps == [] then None
    else
      match ps[0].inlineData
      case Some(d) => d.data
      case None => None
  }

  // ---- API-key selection (generateProImage, generateVeoVideo) ----

  /** What the page's environment offers: `window.aistudio`, with or without `openSelectKey`. */
  datatype AiStudio = NoAiStudio | AiStudio(hasOpenSelectKey: bool, hasSelectedApiKey: bool)

  /** Which of the two key-selection calls are made before the request. */
  datatype KeyCheck = KeyCheck(asksHasKey: bool, opensSelector: bool)

  function KeySelection(env: AiStudio): (r: KeyCheck)
    ensures r.opensSelector <==> env.AiStudio? && env.hasOpenSelectKey && !env.hasSelectedApiKey
    ensures r.asksHasKey <==> env.AiStudio? && env.hasOpenSelectKey
  {
    match env
    case NoAiStudio => KeyCheck(false, false)
    case AiStudio(open, has) => KeyCheck(open, open && !has)
  }

  // ---- generateVeoVideo ----

  const NoVideoUriError := "Video generation failed or returned no URI"
  const DownloadError := "Failed to download video content"

  /** `!operation.done` is false exactly when `done` is present and true. */
  predicate IsDone(op: VideosOperation) {
    op.done == Some(true)
  }

  /** The `while (!operation.done)` loop. `replies` are the operations getVideosOperation
      returns, poll after poll. The loop ends at the first finished operation; when every
      reply is still pending the code goes on polling for ever, which here shows as
      `polls == |replies|` with an unfinished operation. */
  method PollUntilDone(first: VideosOperation, replies: seq<VideosOperation>)
    returns (op: VideosOperation, polls: nat)
    ensures polls <= |replies|
    ensures op == ([first] + replies)[polls]
    ensures forall j :: 0 <= j < polls ==> !IsDone(([first] + replies)[j])
    ensures IsDone(op) || polls == |replies|
  {
    op, polls := first, 0;
    while !IsDone(op) && polls < |replies|
      invariant polls <= |replies|
      invariant op == ([first] + replies)[polls]
      invariant forall j :: 0 <= j < polls ==> !IsDone(([first] + replies)[j])
    {
      op := replies[polls];
      polls := polls + 1;
    }
  }

  /** `operation.response?.generatedVideos?.[0]?.video?.uri`. */
  function VideoUri(op: VideosOperation): (r: Option<string>)
    ensures r.Some? <==> && op.response.Some? && op.response.value.generatedVideos.Some?
                         && |op.response.value.generatedVideos.value| > 0
                         && op.response.value.generatedVideos.value[0].video.Some?
                         && op.response.value.generatedVideos.value[0].video.value.uri.Some?
    ensures r.Some? ==> r == op.response.value.generatedVideos.value[0].video.value.uri
  {
    match op.response
    case Some(VideosResponse(Some(videos))) =>
      if |videos| > 0 && videos[0].video.Some? then videos[0].video.value.uri else None
    case _ => None
  }

  /** The download URL `${videoUri}&key=${process.env.API_KEY}`, or the Error thrown when the
      URI is missing or empty. */
  function VideoDownloadUrl(op: VideosOperation, apiKey: Option<string>): (r: Result<string, string>)
    ensures r.Failure? <==> !JsString.Truthy(VideoUri(op))
    ensures r.Failure? ==> r.error == NoVideoUriError
    ensures r.Success? ==> r.value == VideoUri(op).value + "&key=" + JsString.Template(apiKey)
  {
    var uri := VideoUri(op);
    if JsString.Truthy(uri) then Success(uri.value + "&key=" + JsString.Template(apiKey))
    else Failure(NoVideoUriError)
  }

  /** The whole of generateVeoVideo after the operation is created: poll, check the URI,
      fetch. Success carries the URL the video was fetched from (making an object URL of the
      downloaded blob is foreign). `None` means the polling never ends on these replies.
      `fetch` gives, for a URL, the response's `ok` flag, or the error it rejects with. */
  method VeoVideo(first: VideosOperation, replies: seq<VideosOperation>, apiKey: Option<string>,
                  fetch: string -> Result<bool, string>)
    returns (r: Option<Result<string, string>>)
    ensures r.None? <==> forall j :: 0 <= j < |replies| + 1 ==> !IsDone(([first] + replies)[j])
    ensures r.Some? ==> exists k :: 0 <= k <= |replies| && IsDone(([first] + replies)[k])
                         && (forall j :: 0 <= j < k ==> !IsDone(([first] + replies)[j]))
                         && r.value == DownloadOutcome(VideoDownloadUrl(([first] + replies)[k], apiKey), fetch)
  {
    var op, polls := PollUntilDone(first, replies);
    if !IsDone(op) {
      return None;
    }
    r := Some(DownloadOutcome(VideoDownloadUrl(op, apiKey), fetch));
  }

  /** The `await fetch(...)` of a download URL and the `if (!response.ok) throw` check after
      it: a rejected fetch throws its own error, a response that is not ok the download
      error. */
  function DownloadOutcome(url: Result<string, string>, fetch: string -> Result<bool, string>): (r: Result<string, string>)
    ensures url.Failure? ==> r == url
    ensures url.Success? && fetch(url.value) == Success(true) ==> r == url
    ensures url.Success? && fetch(url.value) == Success(false) ==> r == Failure(DownloadError)
    ensures url.Success? && fetch(url.value).Failure? ==> r == Failure(fetch(url.value).error)
  {
    match url
    case Failure(e) => Failure(e)
    case Success(u) =>
      match fetch(u)
      case Failure(e) => Failure(e)
      case Success(ok) => if ok then Success(u) else Failure(DownloadError)
  }
}
