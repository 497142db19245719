/** The creative studio page pages/Creative.tsx: three forms (generate an image, edit an
    uploaded image, generate a video), each with an input guard and a busy flag around its
    request, the split of the uploaded data URL into payload and MIME type, and the cycling
    loading message shown while a video is being generated. Each async handler is split at
    its `await` into BeginX (guard, flag up, request out) and CompleteX (result in, flag
    down). */
module Creative {
  import opened Wrappers
  import JsString

  datatype ImageSize = Size1K | Size2K | Size4K
  datatype AspectRatio = Square | Landscape | Portrait | PortraitAlt | LandscapeAlt
  datatype VideoRatio = Wide | Tall
  datatype VideoResolution = HD720 | HD1080

  const LoadingMessages: seq<string> := [
    "Conceptualizing scene...",
    "Setting up the camera...",
    "Rendering frames...",
    "Applying lighting effects...",
    "Polishing pixels...",
    "Almost ready..."
  ]

  /** `(prev + 1) % LOADING_MESSAGES.length`. */
  function NextLoadingIndex(i: nat): (j: nat)
    ensures j < |LoadingMessages|
    ensures i + 1 < |LoadingMessages| ==> j == i + 1
    ensures i + 1 == |LoadingMessages| ==> j == 0
  {
    (i + 1) % |LoadingMessages|
  }

  /** The index after `n` interval ticks starting from `i`. */
  function IndexAfterTicks(i: nat, n: nat): (j: nat)
    ensures n > 0 ==> j < |LoadingMessages|
  {
    if n == 0 then i else NextLoadingIndex(IndexAfterTicks(i, n - 1))
  }

  /** From the reset value 0, the index after `n` ticks is `n` modulo the number of messages:
      the messages are shown in order, round and round. */
  lemma {:induction false} TicksFromZero(n: nat)
    ensures IndexAfterTicks(0, n) == n % |LoadingMessages|
  {
    TicksCycle(0, n);
  }

  /** Every message comes back after exactly one full round of ticks. */
  lemma {:induction false} TicksCycle(i: nat, n: nat)
    requires i < |LoadingMessages|
    ensures IndexAfterTicks(i, n) == (i + n) % |LoadingMessages|
  {
    if n > 0 {
      TicksCycle(i, n - 1);
    }
  }

  // ---- the data URL of the uploaded image ----

  /** The arguments handleEdit passes to editImage: `sourceImage.split(',')[1]` and
      `sourceImage.substring(sourceImage.indexOf(':') + 1, sourceImage.indexOf(';'))`. */
  datatype EditArguments = EditArguments(base64Data: Option<string>, mimeType: string)

  function EditArgumentsOf(dataUrl: string): (r: EditArguments)
    ensures r.base64Data.Some? <==> ',' in dataUrl
    ensures r.base64Data.Some? ==> ',' !in r.base64Data.value
  {
    var pieces := JsString.Split(dataUrl, ',');
    assert ',' in dataUrl <==> |pieces| > 1 by {
      JsString.JoinSplit(dataUrl, ',');
      if |pieces| == 1 {
        assert JsString.Join(pieces, ',') == pieces[0];
      } else {
        assert JsString.Join(pieces, ',') == pieces[0] + [','] + JsString.Join(pieces[1..], ',');
        assert dataUrl[|pieces[0]|] == ',';
      }
    }
    EditArguments(JsString.At(pieces, 1),
                  JsString.Substring(dataUrl, JsString.IndexOf(dataUrl, ':') + 1, JsString.IndexOf(dataUrl, ';')))
  }

  /** A base64 data URL, as FileReader.readAsDataURL produces it. */
  function DataUrl(mime: string, payload: string): string {
    "data:" + mime + ";base64," + payload
  }

  /** For `data:<mime>;base64,<payload>` with no `;` or `,` in the MIME type and no comma
      in the payload, the split yields exactly the MIME type and the payload. */
  lemma DataUrlSplit(mime: string, payload: string)
    requires ';' !in mime && ',' !in mime
    requires ',' !in payload
    ensures EditArgumentsOf(DataUrl(mime, payload)) == EditArguments(Some(payload), mime)
  {
    var s := DataUrl(mime, payload);
    var head := "data:" + mime + ";base64";
    assert s == head + [','] + payload;
    assert ',' !in head;
    JsString.JoinCons(head, [payload], ',');
    JsString.SplitJoin([head, payload], ',');
    assert JsString.Split(s, ',') == [head, payload];
    assert s[4] == ':' && s[..4] == "data";
    JsString.IndexOfFirst(s, ':', 4);
    var semi := 5 + |mime|;
    assert s[semi] == ';' && s[..semi] == "data:" + mime;
    JsString.IndexOfFirst(s, ';', semi);
    assert s[5..semi] == mime;
  }

  // ---- the requests ----

  datatype ImageRequest = ImageRequest(prompt: string, size: ImageSize, ratio: AspectRatio)
  datatype EditRequest = EditRequest(base64Image: Option<string>, prompt: string, mimeType: string)
  datatype VideoRequest = VideoRequest(prompt: string, ratio: VideoRatio, resolution: VideoResolution)

  const GenerateFailedAlert := "Failed to generate image. Ensure you select an API Key if prompted."
  const NoEditedImageAlert := "The model didn't return an image. Try a different prompt."
  const EditFailedAlert := "Failed to edit image."
  const VideoFailedAlert := "Failed to generate video. This process can take a few minutes. Ensure you have a paid API key selected."

  class CreativeStudio {
    var genPrompt: string
    var size: ImageSize
    var ratio: AspectRatio
    var generatedImage: Option<string>
    var isGenerating: bool

    var editPrompt: string
    var sourceImage: Option<string>
    var editedImage: Option<string>
    var isEditing: bool

    var videoPrompt: string
    var videoRatio: VideoRatio
    var videoResolution: VideoResolution
    var generatedVideoUrl: Option<string>
    var isVideoGenerating: bool
    var loadingMsgIndex: nat

    /** The loading index names one of the messages, and is 0 whenever no video is being
        generated (the effect resets it each time the flag falls). */
    ghost predicate Valid()
      reads this
    {
      loadingMsgIndex < |LoadingMessages| && (!isVideoGenerating ==> loadingMsgIndex == 0)
    }

    constructor ()
      ensures Valid()
      ensures genPrompt == "" && size == Size1K && ratio == Square && generatedImage == None && !isGenerating
      ensures editPrompt == "" && sourceImage == None && editedImage == None && !isEditing
      ensures videoPrompt == "" && videoRatio == Wide && videoResolution == HD720
      ensures generatedVideoUrl == None && !isVideoGenerating && loadingMsgIndex == 0
    {
      genPrompt, size, ratio, generatedImage, isGenerating := "", Size1K, Square, None, false;
      editPrompt, sourceImage, editedImage, isEditing := "", None, None, false;
      videoPrompt, videoRatio, videoResolution := "", Wide, HD720;
      generatedVideoUrl, isVideoGenerating, loadingMsgIndex := None, false, 0;
    }

    /** The interval callback, which exists only while a video is being generated. */
    method Tick()
      requires Valid()
      modifies this`loadingMsgIndex
      ensures Valid()
      ensures isVideoGenerating ==> loadingMsgIndex == NextLoadingIndex(old(loadingMsgIndex))
      ensures !isVideoGenerating ==> loadingMsgIndex == old(loadingMsgIndex)
    {
      if isVideoGenerating {
        loadingMsgIndex := NextLoadingIndex(loadingMsgIndex);
      }
    }

    /** handleGenerate up to its await: nothing without a prompt; otherwise the flag rises. */
    method BeginGenerate() returns (request: Option<ImageRequest>)
      requires Valid()
      modifies this`isGenerating
      ensures Valid()
      ensures genPrompt == "" ==> request.None? && isGenerating == old(isGenerating)
      ensures genPrompt != "" ==> request == Some(ImageRequest(genPrompt, size, ratio)) && isGenerating
    {
      if genPrompt == "" {
        return None;
      }
      isGenerating := true;
      request := Some(ImageRequest(genPrompt, size, ratio));
    }

    /** handleGenerate after generateProImage returned or threw: the image is shown, or an
        alert is raised and the old image stays; the flag falls either way. */
    method CompleteGenerate(outcome: Result<string, string>) returns (alert: Option<string>)
      requires Valid()
      modifies this`generatedImage, this`isGenerating
      ensures Valid()
      ensures !isGenerating
      ensures outcome.Success? ==> generatedImage == Some(outcome.value) && alert == None
      ensures outcome.Failure? ==> generatedImage == old(generatedImage) && alert == Some(GenerateFailedAlert)
    {
      alert := None;
      match outcome {
        case Success(img) => generatedImage := Some(img);
        case Failure(_) => alert := Some(GenerateFailedAlert);
      }
      isGenerating := false;
    }

    /** handleFileUpload's `onloadend`: `reader.result` becomes the source image. It is the
        data URL after a successful read, and null (`None`) after a failed or aborted one,
        which clears the image. */
    method OnFileLoaded(result: Option<string>)
      requires Valid()
      modifies this`sourceImage
      ensures Valid()
      ensures sourceImage == result
    {
      sourceImage := result;
    }

    /** handleEdit up to its await: nothing without an image or a prompt; otherwise the flag
        rises and the data URL is split into payload and MIME type. */
    method BeginEdit() returns (request: Option<EditRequest>)
      requires Valid()
      modifies this`isEditing
      ensures Valid()
      ensures !JsString.Truthy(sourceImage) || editPrompt == "" ==> request.None? && isEditing == old(isEditing)
      ensures JsString.Truthy(sourceImage) && editPrompt != "" ==>
                && isEditing
                && var args := EditArgumentsOf(sourceImage.value);
                   request == Some(EditRequest(args.base64Data, editPrompt, args.mimeType))
    {
      if !JsString.Truthy(sourceImage) || editPrompt == "" {
        return None;
      }
      isEditing := true;
      var args := EditArgumentsOf(sourceImage.value);
      request := Some(EditRequest(args.base64Data, editPrompt, args.mimeType));
    }

    /** handleEdit after editImage returned or threw: an image is shown; a null result or a
        throw raises an alert and keeps the old image; the flag falls either way. */
    method CompleteEdit(outcome: Result<Option<string>, string>) returns (alert: Option<string>)
      requires Valid()
      modifies this`editedImage, this`isEditing
      ensures Valid()
      ensures !isEditing
      ensures outcome.Success? && JsString.Truthy(outcome.value) ==>
                editedImage == outcome.value && alert == None
      ensures outcome.Success? && !JsString.Truthy(outcome.value) ==>
                editedImage == old(editedImage) && alert == Some(NoEditedImageAlert)
      ensures outcome.Failure? ==> editedImage == old(editedImage) && alert == Some(EditFailedAlert)
    {
      alert := None;
      match outcome {
        case Success(result) =>
          if JsString.Truthy(result) {
            editedImage := result;
          } else {
            alert := Some(NoEditedImageAlert);
          }
        case Failure(_) => alert := Some(EditFailedAlert);
      }
      isEditing := false;
    }

    /** handleGenerateVideo up to its await: nothing without a prompt; otherwise the flag
        rises (the effect then starts the loading-message interval) and the previous video
        is cleared. */
    method BeginGenerateVideo() returns (request: Option<VideoRequest>)
      requires Valid()
      modifies this`isVideoGenerating, this`generatedVideoUrl
      ensures Valid()
      ensures videoPrompt == "" ==>
                request.None? && isVideoGenerating == old(isVideoGenerating) && generatedVideoUrl == old(generatedVideoUrl)
      ensures videoPrompt != "" ==>
                request == Some(VideoRequest(videoPrompt, videoRatio, videoResolution))
                && isVideoGenerating && generatedVideoUrl == None
    {
      if videoPrompt == "" {
        return None;
      }
      isVideoGenerating := true;
      generatedVideoUrl := None;
      request := Some(VideoRequest(videoPrompt, videoRatio, videoResolution));
    }

    /** handleGenerateVideo after generateVeoVideo returned or threw: the video URL is shown
        or an alert raised; the flag falls and the effect resets the loading index to 0. */
    method CompleteGenerateVideo(outcome: Result<string, string>) returns (alert: Option<string>)
      requires Valid()
      modifies this`generatedVideoUrl, this`isVideoGenerating, this`loadingMsgIndex
      ensures Valid()
      ensures !isVideoGenerating && loadingMsgIndex == 0
      ensures outcome.Success? ==> generatedVideoUrl == Some(outcome.value) && alert == None
      ensures outcome.Failure? ==> generatedVideoUrl == old(generatedVideoUrl) && alert == Some(VideoFailedAlert)
    {
      alert := None;
      match outcome {
        case Success(url) => generatedVideoUrl := Some(url);
        case Failure(_) => alert := Some(VideoFailedAlert);
      }
      isVideoGenerating := false;
      loadingMsgIndex := 0;
    }
  }
}
