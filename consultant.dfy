/** The chat page pages/Consultant.tsx: the submit handler (blank-prompt guard, the user's
    message, the model's reply or the error reply, appended in that order), the grounding
    links pulled out of the answer, and the read-aloud handler with its busy flag and the
    loop that turns the decoded base64 text into bytes. Each async handler is split at its
    `await`: BeginX is the code before it, CompleteX the code after, taking the awaited
    result as a parameter. */
module Consultant {
  import opened Wrappers
  import JsString
  import GeminiService

  newtype byte = x: int | 0 <= x < 256

  datatype Role = User | Model

  /** A chat message (types.ts); `isThinking` is never set by the page and is left out. */
  datatype ChatMessage = ChatMessage(role: Role, text: string, groundingUrls: Option<seq<string>>)

  const NoResponseText := "I couldn't generate a response."
  const ErrorReplyText := "Sorry, I encountered an error."

  /** `!prompt.trim()`: the prompt is empty or white space only. */
  predicate IsBlank(prompt: string) {
    JsString.Trim(prompt) == ""
  }

  /** `result.text || "I couldn't generate a response."`. */
  function ReplyText(text: Option<string>): (r: string)
    ensures r != ""
    ensures JsString.Truthy(text) ==> r == text.value
    ensures !JsString.Truthy(text) ==> r == NoResponseText
  {
    if JsString.Truthy(text) then text.value else NoResponseText
  }

  /** `c.web?.uri || ''` for one chunk: the empty string when `web` or its `uri` is absent. */
  function ChunkUri(c: GeminiService.GroundingChunk): (u: string)
    ensures c.web.Some? && c.web.value.uri.Some? ==> u == c.web.value.uri.value
    ensures c.web.None? || c.web.value.uri.None? ==> u == ""
  {
    match c.web
    case Some(web) => web.uri.GetOr("")
    case None => ""
  }

  /** `chunks.map(c => c.web?.uri || '').filter(Boolean)`: the non-empty URIs, in order. */
  function GroundingUrls(chunks: seq<GeminiService.GroundingChunk>): (urls: seq<string>)
    ensures |urls| <= |chunks|
    ensures forall i :: 0 <= i < |urls| ==> urls[i] != ""
    ensures forall u :: u in urls <==> u != "" && exists i :: 0 <= i < |chunks| && ChunkUri(chunks[i]) == u
  {
    if chunks == [] then []
    else
      var rest := GroundingUrls(chunks[1..]);
      assert forall i :: 0 <= i < |chunks[1..]| ==> chunks[1..][i] == chunks[i + 1];
      if ChunkUri(chunks[0]) == "" then rest else [ChunkUri(chunks[0])] + rest
  }

  /** Filtering keeps the order: the URLs of two lists of chunks are those of the first
      followed by those of the second. */
  lemma {:induction false} GroundingUrlsAppend(a: seq<GeminiService.GroundingChunk>, b: seq<GeminiService.GroundingChunk>)
    ensures GroundingUrls(a + b) == GroundingUrls(a) + GroundingUrls(b)
  {
    if a != [] {
      assert (a + b)[1..] == a[1..] + b;
      GroundingUrlsAppend(a[1..], b);
    } else {
      assert a + b == b;
    }
  }

  /** The message appended once askConsultant has returned, or has thrown. */
  function ReplyMessage(outcome: Result<GeminiService.ConsultantAnswer, string>): (m: ChatMessage)
    ensures m.role == Model && m.text != ""
    ensures outcome.Failure? ==> m.text == ErrorReplyText && m.groundingUrls == None
    ensures outcome.Success? ==>
              && m.text == ReplyText(outcome.value.text)
              && m.groundingUrls == Some(GroundingUrls(outcome.value.groundingChunks))
  {
    match outcome
    case Success(answer) => ChatMessage(Model, ReplyText(answer.text), Some(GroundingUrls(answer.groundingChunks)))
    case Failure(_) => ChatMessage(Model, ErrorReplyText, None)
  }

  /** The loop of handleSpeak writing `binaryString.charCodeAt(i)` into a Uint8Array:
      each character code reduced modulo 256, as a Uint8Array store does. */
  method BinaryStringToBytes(binary: string) returns (bytes: array<byte>)
    ensures bytes.Length == |binary|
    ensures forall i :: 0 <= i < |binary| ==> bytes[i] as int == (binary[i] as int) % 256
  {
    bytes := new byte[|binary|];
    var i := 0;
    while i < |binary|
      invariant 0 <= i <= |binary|
      invariant forall j :: 0 <= j < i ==> bytes[j] as int == (binary[j] as int) % 256
    {
      bytes[i] := ((binary[i] as int) % 256) as byte;
      i := i + 1;
    }
  }

  /** The awaited steps of handleSpeak: `generateSpeech` returned (a payload, maybe
      undefined) or threw. */
  datatype SpeechReply = Speech(audio: Option<string>) | SpeechThrew

  class ConsultantPage {
    var prompt: string
    var messages: seq<ChatMessage>
    var loading: bool
    var mode: GeminiService.ConsultantMode
    var playingAudio: bool

    constructor ()
      ensures prompt == "" && messages == [] && !loading && mode == GeminiService.Search && !playingAudio
    {
      prompt, messages, loading := "", [], false;
      mode, playingAudio := GeminiService.Search, false;
    }

    /** handleSubmit up to its await: a blank prompt is ignored; otherwise the user's message
        (the prompt as typed, untrimmed) is appended, `loading` rises and the prompt box is
        emptied. The result is the request passed to askConsultant. */
    method BeginSubmit() returns (request: Option<GeminiService.ContentRequest>)
      modifies this`messages, this`loading, this`prompt
      ensures IsBlank(old(prompt)) ==>
                request.None? && messages == old(messages) && loading == old(loading) && prompt == old(prompt)
      ensures !IsBlank(old(prompt)) ==>
                && request == Some(GeminiService.ConsultantRequest(old(prompt), mode))
                && messages == old(messages) + [ChatMessage(User, old(prompt), None)]
                && loading && prompt == ""
    {
      if IsBlank(prompt) {
        return None;
      }
      var text := prompt;
      messages := messages + [ChatMessage(User, text, None)];
      loading := true;
      prompt := "";
      request := Some(GeminiService.ConsultantRequest(text, mode));
    }

    /** handleSubmit after its await: exactly one model message is appended (the reply or the
        fixed error reply) and `loading` falls, on success and on failure. */
    method CompleteSubmit(outcome: Result<GeminiService.ConsultantAnswer, string>)
      modifies this`messages, this`loading
      ensures messages == old(messages) + [ReplyMessage(outcome)]
      ensures !loading
    {
      messages := messages + [ReplyMessage(outcome)];
      loading := false;
    }

    /** handleSpeak up to its await: nothing happens while audio is playing; otherwise
        `playingAudio` rises and the text is sent to generateSpeech. */
    method BeginSpeak(text: string) returns (requested: bool)
      modifies this`playingAudio
      ensures requested == !old(playingAudio)
      ensures playingAudio
    {
      if playingAudio {
        return false;
      }
      playingAudio := true;
      requested := true;
    }

    /** handleSpeak after generateSpeech: with a payload, `atob` decodes it (or throws), the
        bytes are built and `decodeAudioData` accepts them (or throws), and playback starts;
        `playingAudio` then stays up until playback ends. With no payload or on any throw,
        `playingAudio` falls. `started` says whether playback started; `bytes` is the array
        handed to the decoder, if one was built. */
    method CompleteSpeak(reply: SpeechReply, atob: string -> Option<string>, decodes: seq<byte> -> bool)
      returns (started: bool, bytes: Option<seq<byte>>)
      modifies this`playingAudio
      ensures started <==> reply.Speech? && JsString.Truthy(reply.audio) && atob(reply.audio.value).Some?
                           && bytes.Some? && decodes(bytes.value)
      ensures bytes.Some? <==> reply.Speech? && JsString.Truthy(reply.audio) && atob(reply.audio.value).Some?
      ensures bytes.Some? ==>
                && |bytes.value| == |atob(reply.audio.value).value|
                && forall i :: 0 <= i < |bytes.value| ==>
                     bytes.value[i] as int == (atob(reply.audio.value).value[i] as int) % 256
      ensures started ==> playingAudio == old(playingAudio)
      ensures !started ==> !playingAudio
    {
      started, bytes := false, None;
      if reply.SpeechThrew? || !JsString.Truthy(reply.audio) {
        playingAudio := false;
        return;
      }
      var binary := atob(reply.audio.value);
      if binary.None? {
        playingAudio := false;
        return;
      }
      var buffer := BinaryStringToBytes(binary.value);
      bytes := Some(buffer[..]);
      if !decodes(buffer[..]) {
        playingAudio := false;
        return;
      }
      started := true;
    }

    /** The playing source's `onended`: `playingAudio` falls. */
    method OnSpeechEnded()
      modifies this`playingAudio
      ensures !playingAudio
    {
      playingAudio := false;
    }
  }
}
