/** The live voice session of pages/LiveSupport.tsx: the flags the page shows (`connected`,
    `error`), the session handle, and the playback scheduler, that is the cursor
    `nextStartTimeRef` and the set `sourcesRef` of playback sources still in flight.
    Each callback of the session (open, message, close, error), the `ended` event of a
    source, and the two buttons (start, stop) is a method. Events are handled one at a time.
    The output clock `outputCtx.currentTime` is a parameter of the message handler, and the
    PCM decoder of services/audioUtils is a parameter `decode` that either yields the
    duration of the decoded buffer or rejects. */
module LiveSupport {
  import opened Wrappers
  import GeminiService
  import JsString

  /** A length of time on the output clock, in exact seconds. */
  type Seconds = r: real | r >= 0.0

  // ---- inbound messages ----

  datatype ServerContent = ServerContent(modelTurn: Option<GeminiService.Content>, interrupted: Option<bool>)
  datatype LiveServerMessage = LiveServerMessage(serverContent: Option<ServerContent>)

  /** How `msg.serverContent?.modelTurn?.parts[0]?.inlineData?.data` evaluates: no audio
      (undefined or the empty string), an audio payload, or a TypeError because `parts` itself
      is undefined (the chain does not guard the `[0]`). */
  datatype AudioField = NoAudio | Audio(data: string) | ChainThrows

  function AudioOf(msg: LiveServerMessage): (r: AudioField)
    ensures r.ChainThrows? <==> msg.serverContent.Some? && msg.serverContent.value.modelTurn.Some?
                                && msg.serverContent.value.modelTurn.value.parts.None?
    ensures r.Audio? <==> msg.serverContent.Some? && msg.serverContent.value.modelTurn.Some?
                          && msg.serverContent.value.modelTurn.value.parts.Some?
                          && var parts := msg.serverContent.value.modelTurn.value.parts.value;
                             |parts| > 0 && parts[0].inlineData.Some?
                             && JsString.Truthy(parts[0].inlineData.value.data)
    ensures r.Audio? ==> r.data == msg.serverContent.value.modelTurn.value.parts.value[0].inlineData.value.data.value
    ensures r.Audio? ==> r.data != ""
  {
    match msg.serverContent
    case None => NoAudio
    case Some(content) =>
      match content.modelTurn
      case None => NoAudio
      case Some(turn) =>
        match turn.parts
        case None => ChainThrows
        case Some(parts) =>
          if |parts| > 0 && parts[0].inlineData.Some? && JsString.Truthy(parts[0].inlineData.value.data)
          then Audio(parts[0].inlineData.value.data.value)
          else NoAudio
  }

  /** A message with its parts list replaced: used to say that only `parts[0]` matters. */
  function WithParts(msg: LiveServerMessage, parts: seq<GeminiService.Part>): LiveServerMessage
    requires msg.serverContent.Some? && msg.serverContent.value.modelTurn.Some?
  {
    var sc := msg.serverContent.value;
    LiveServerMessage(Some(sc.(modelTurn := Some(GeminiService.Content(Some(parts))))))
  }

  /** Only the first part of a model turn is inspected: any parts after it change nothing. */
  lemma OnlyFirstPartInspected(msg: LiveServerMessage, first: GeminiService.Part, rest: seq<GeminiService.Part>)
    requires msg.serverContent.Some? && msg.serverContent.value.modelTurn.Some?
    ensures AudioOf(WithParts(msg, [first] + rest)) == AudioOf(WithParts(msg, [first]))
    ensures Interrupted(WithParts(msg, [first] + rest)) == Interrupted(msg)
  {
  }

  /** `msg.serverContent?.interrupted` is truthy: it is undefined without server content, and
      of a present boolean only `true` is truthy. */
  function Interrupted(msg: LiveServerMessage): (r: bool)
    ensures msg.serverContent.None? ==> !r
    ensures msg.serverContent.Some? ==> (r <==> msg.serverContent.value.interrupted == Some(true))
  {
    match msg.serverContent
    case None => false
    case Some(content) => content.interrupted.GetOr(false)
  }

  /** The chunk the handler schedules: an audio payload that the decoder accepts. */
  function DecodedChunk(msg: LiveServerMessage, decode: string -> Option<Seconds>): (r: Option<Seconds>)
    ensures r.Some? ==> AudioOf(msg).Audio? && decode(AudioOf(msg).data) == r
    ensures AudioOf(msg).Audio? && decode(AudioOf(msg).data).Some? ==> r.Some?
  {
    match AudioOf(msg)
    case Audio(data) => decode(data)
    case _ => None
  }

  /** The handler gets as far as the `interrupted` test and the flag is set: it did not throw
      on the parts chain and, when there was audio, the decoder did not reject it. */
  predicate InterruptHandled(msg: LiveServerMessage, decode: string -> Option<Seconds>) {
    Interrupted(msg) && (AudioOf(msg).NoAudio? || DecodedChunk(msg, decode).Some?)
  }

  // ---- scheduling arithmetic ----

  /** `Math.max(nextStartTime, currentTime)`: the start of a new chunk. */
  function ChunkStart(cursor: real, clock: real): (t: real)
    ensures t >= cursor && t >= clock
    ensures t == cursor || t == clock
  {
    if cursor >= clock then cursor else clock
  }

  /** An audio message as the scheduler sees it: the output clock when it is handled and the
      duration of its decoded buffer. */
  datatype Arrival = Arrival(clock: real, duration: Seconds)

  /** The start times the handler gives a run of decoded audio messages with no interrupt
      between them, beginning from cursor `cursor`: each starts at the later of the cursor and
      the clock, and the cursor then moves to the end of that chunk. */
  function StartTimes(cursor: real, run: seq<Arrival>): (starts: seq<real>)
    ensures |starts| == |run|
    decreases |run|
  {
    if run == [] then []
    else
      var t := ChunkStart(cursor, run[0].clock);
      [t] + StartTimes(t + run[0].duration, run[1..])
  }

  /** Consecutive chunks never overlap, and follow each other with no gap unless the clock
      had already passed the end of the previous one, in which case the next starts at the
      clock. */
  lemma {:induction false} StartTimesGapless(cursor: real, run: seq<Arrival>, i: nat)
    requires i + 1 < |run|
    decreases i
    ensures var s := StartTimes(cursor, run);
            s[i + 1] >= s[i] + run[i].duration
    ensures var s := StartTimes(cursor, run);
            run[i + 1].clock <= s[i] + run[i].duration ==> s[i + 1] == s[i] + run[i].duration
    ensures var s := StartTimes(cursor, run);
            run[i + 1].clock > s[i] + run[i].duration ==> s[i + 1] == run[i + 1].clock
  {
    var t := ChunkStart(cursor, run[0].clock);
    var rest := StartTimes(t + run[0].duration, run[1..]);
    assert StartTimes(cursor, run) == [t] + rest;
    if i == 0 {
      assert rest[0] == ChunkStart(t + run[0].duration, run[1].clock);
    } else {
      StartTimesGapless(t + run[0].duration, run[1..], i - 1);
    }
  }

  /** No chunk of a run starts in the past, nor before the cursor the run began from. */
  lemma {:induction false} StartTimesNotBefore(cursor: real, run: seq<Arrival>, i: nat)
    requires i < |run|
    decreases i
    ensures StartTimes(cursor, run)[i] >= run[i].clock
    ensures StartTimes(cursor, run)[i] >= cursor
  {
    var t := ChunkStart(cursor, run[0].clock);
    var rest := StartTimes(t + run[0].duration, run[1..]);
    assert StartTimes(cursor, run) == [t] + rest;
    if i > 0 {
      StartTimesNotBefore(t + run[0].duration, run[1..], i - 1);
    }
  }

  /** The two facts above, for every chunk of a run at once. */
  lemma StartTimesOrdered(cursor: real, run: seq<Arrival>)
    ensures forall i :: 0 <= i < |run| ==> StartTimes(cursor, run)[i] >= run[i].clock && StartTimes(cursor, run)[i] >= cursor
    ensures forall i :: 0 <= i && i + 1 < |run| ==> StartTimes(cursor, run)[i + 1] >= StartTimes(cursor, run)[i] + run[i].duration
  {
    forall i | 0 <= i < |run|
      ensures StartTimes(cursor, run)[i] >= run[i].clock && StartTimes(cursor, run)[i] >= cursor
    {
      StartTimesNotBefore(cursor, run, i);
    }
    forall i | 0 <= i && i + 1 < |run|
      ensures StartTimes(cursor, run)[i + 1] >= StartTimes(cursor, run)[i] + run[i].duration
    {
      StartTimesGapless(cursor, run, i);
    }
  }

  /** The cursor after a run of uninterrupted chunks: each moves it to its own end. */
  function CursorAfter(cursor: real, run: seq<Arrival>): (c: real)
    ensures c >= cursor
    decreases |run|
  {
    if run == [] then cursor
    else CursorAfter(ChunkStart(cursor, run[0].clock) + run[0].duration, run[1..])
  }

  /** The k-th chunk of a run starts at the later of the cursor left by the chunks before it
      and its own clock, and moves the cursor to its end. */
  lemma {:induction false} StartTimesAt(cursor: real, run: seq<Arrival>, k: nat)
    requires k < |run|
    decreases k
    ensures StartTimes(cursor, run)[k] == ChunkStart(CursorAfter(cursor, run[..k]), run[k].clock)
    ensures CursorAfter(cursor, run[..k + 1]) == StartTimes(cursor, run)[k] + run[k].duration
  {
    var t := ChunkStart(cursor, run[0].clock);
    assert StartTimes(cursor, run) == [t] + StartTimes(t + run[0].duration, run[1..]);
    if k == 0 {
      assert run[..1][1..] == [];
    } else {
      StartTimesAt(t + run[0].duration, run[1..], k - 1);
      assert run[..k][1..] == run[1..][..k - 1];
      assert run[..k + 1][1..] == run[1..][..k];
    }
  }

  /** The sources of a sequence, as a set. */
  ghost function Elements(ps: seq<PlaybackSource>): set<PlaybackSource>
    decreases |ps|
  {
    if ps == [] then {} else Elements(ps[..|ps| - 1]) + {ps[|ps| - 1]}
  }

  lemma {:induction false} ElementsOf(ps: seq<PlaybackSource>)
    decreases |ps|
    ensures forall i :: 0 <= i < |ps| ==> ps[i] in Elements(ps)
    ensures forall x :: x in Elements(ps) ==> x in ps
  {
    if ps != [] {
      ElementsOf(ps[..|ps| - 1]);
    }
  }

  /** Appending one source to a scheduled run keeps the slots of the ones before it. */
  lemma AppendSlot(started: seq<PlaybackSource>, s: PlaybackSource, starts: seq<real>, run: seq<Arrival>)
    requires |started| < |run| && |starts| == |run|
    requires forall i :: 0 <= i < |started| ==> started[i].startAt == starts[i] && started[i].duration == run[i].duration
    requires s.startAt == starts[|started|] && s.duration == run[|started|].duration
    ensures forall i :: 0 <= i < |started| + 1 ==>
              (started + [s])[i].startAt == starts[i] && (started + [s])[i].duration == run[i].duration
    ensures Elements(started + [s]) == Elements(started) + {s}
  {
    assert (started + [s])[..|started|] == started;
  }

  // ---- the session ----

  const ConnectionErrorMessage := "Connection error."
  const StartFailureMessage := "Failed to start audio session. Please allow microphone access."

  /** How startSession's awaited steps went: microphone access and the connection both
      resolved, or one of them threw. */
  datatype StartOutcome = Started | StartFailed

  /** An AudioBufferSourceNode: a decoded buffer started at `startAt` for `duration`. */
  class PlaybackSource {
    const startAt: real
    const duration: Seconds
    var stopped: bool

    constructor (startAt: real, duration: Seconds)
      ensures this.startAt == startAt && this.duration == duration && !stopped
    {
      this.startAt := startAt;
      this.duration := duration;
      stopped := false;
    }

    /** `source.stop()`: a hard stop. */
    method Stop()
      modifies this
      ensures stopped
    {
      stopped := true;
    }

    /** The end of this source's slot on the output clock. */
    function End(): real {
      startAt + duration
    }
  }

  class LiveSession {
    var connected: bool
    var error: Option<string>
    /** `sessionRef.current` is not null. */
    var session: bool
    /** The microphone source and script processor are wired (onopen), not yet disconnected. */
    var capturing: bool
    /** `nextStartTimeRef.current`. */
    var nextStartTime: real
    /** `sourcesRef.current`. */
    var sources: set<PlaybackSource>

    /** Every source in flight has not been stopped and ends by the cursor, and no two of
        them overlap on the output clock. */
    ghost predicate Valid()
      reads this, sources
    {
      && (forall s :: s in sources ==> !s.stopped && s.End() <= nextStartTime)
      && (forall a, b :: a in sources && b in sources && a != b ==> a.End() <= b.startAt || b.End() <= a.startAt)
    }

    constructor ()
      ensures Valid()
      ensures !connected && error == None && !session && !capturing
      ensures nextStartTime == 0.0 && sources == {}
    {
      connected, error, session, capturing := false, None, false, false;
      nextStartTime := 0.0;
      sources := {};
    }

    /** `sourcesRef.current.forEach(s => s.stop()); sourcesRef.current.clear()`. */
    method StopAllSources()
      modifies this`sources, sources
      ensures sources == {}
      ensures forall s :: s in old(sources) ==> s.stopped
    {
      var rest := sources;
      while rest != {}
        invariant rest <= old(sources) && sources == old(sources)
        invariant forall s :: s in old(sources) - rest ==> s.stopped
        decreases rest
      {
        var s :| s in rest;
        s.Stop();
        rest := rest - {s};
      }
      sources := {};
    }

    /** The first half of startSession: the shown error is cleared. There is no guard: a
        start while a session is open is not refused. */
    method StartSession()
      requires Valid()
      modifies this`error
      ensures Valid()
      ensures error == None
    {
      error := None;
    }

    /** The rest of startSession, once microphone access and the connection have resolved
        or one of them has thrown: the session handle is kept, or the microphone message is
        shown (whatever the cause). */
    method CompleteStart(outcome: StartOutcome)
      requires Valid()
      modifies this`session, this`error
      ensures Valid()
      ensures outcome == Started ==> session && error == old(error)
      ensures outcome == StartFailed ==> session == old(session) && error == Some(StartFailureMessage)
    {
      match outcome
      case Started => session := true;
      case StartFailed => error := Some(StartFailureMessage);
    }

    /** onopen: the page shows the session as connected and microphone capture is wired. */
    method OnOpen()
      requires Valid()
      modifies this`connected, this`capturing
      ensures Valid()
      ensures connected && capturing
    {
      connected := true;
      capturing := true;
    }

    /** onclose: only the `connected` flag falls; capture, playback and the cursor stay. */
    method OnClose()
      requires Valid()
      modifies this`connected
      ensures Valid()
      ensures !connected
    {
      connected := false;
    }

    /** onerror: the connection error is shown and `connected` falls; nothing else changes. */
    method OnError()
      requires Valid()
      modifies this`connected, this`error
      ensures Valid()
      ensures !connected && error == Some(ConnectionErrorMessage)
    {
      error := Some(ConnectionErrorMessage);
      connected := false;
    }

    /** A source's `ended` event: that source, and only it, leaves the set. */
    method OnEnded(source: PlaybackSource)
      requires Valid()
      modifies this`sources
      ensures Valid()
      ensures sources == old(sources) - {source}
    {
      sources := sources - {source};
    }

    /** onmessage. A decoded audio chunk is started at the later of the cursor and the clock
        and the cursor moves to its end; then, if the message says `interrupted`, every source
        (the new one too) is stopped, the set is emptied and the cursor goes back to 0. A
        TypeError on the parts chain ends the handler before anything happens; a decoder
        rejection ends it after the cursor has been moved to the later of cursor and clock. */
    method OnMessage(msg: LiveServerMessage, clock: real, decode: string -> Option<Seconds>)
      returns (scheduled: PlaybackSource?)
      requires Valid()
      modifies this`nextStartTime, this`sources, sources
      ensures Valid()
      ensures scheduled != null <==> DecodedChunk(msg, decode).Some?
      ensures scheduled != null ==>
                && fresh(scheduled)
                && scheduled.startAt == ChunkStart(old(nextStartTime), clock)
                && scheduled.duration == DecodedChunk(msg, decode).value
      ensures InterruptHandled(msg, decode) ==>
                && nextStartTime == 0.0 && sources == {}
                && (forall s :: s in old(sources) ==> s.stopped)
                && (scheduled != null ==> scheduled.stopped)
      ensures !InterruptHandled(msg, decode) ==> forall s :: s in old(sources) ==> s.stopped == old(s.stopped)
      ensures !InterruptHandled(msg, decode) && scheduled != null ==>
                && nextStartTime == scheduled.startAt + scheduled.duration
                && sources == old(sources) + {scheduled}
      ensures !InterruptHandled(msg, decode) && AudioOf(msg).Audio? && scheduled == null ==>
                nextStartTime == ChunkStart(old(nextStartTime), clock) && sources == old(sources)
      ensures !InterruptHandled(msg, decode) && !AudioOf(msg).Audio? ==>
                nextStartTime == old(nextStartTime) && sources == old(sources)
    {
      scheduled := null;
      var audio := AudioOf(msg);
      if audio.ChainThrows? {
        return;
      }
      if audio.Audio? {
        nextStartTime := ChunkStart(nextStartTime, clock);
        var buffer := decode(audio.data);
        if buffer.None? {
          return;
        }
        var source := new PlaybackSource(nextStartTime, buffer.value);
        nextStartTime := nextStartTime + buffer.value;
        sources := sources + {source};
        scheduled := source;
      }
      if Interrupted(msg) {
        StopAllSources();
        nextStartTime := 0.0;
      }
    }

    /** onmessage for a message that is not interrupted and whose audio decodes: a chunk is
        scheduled at the later of the cursor and the clock and joins the set. */
    method OnAudioMessage(msg: LiveServerMessage, clock: real, decode: string -> Option<Seconds>)
      returns (scheduled: PlaybackSource)
      requires Valid()
      requires !Interrupted(msg) && DecodedChunk(msg, decode).Some?
      modifies this`nextStartTime, this`sources, sources
      ensures Valid()
      ensures fresh(scheduled) && !scheduled.stopped
      ensures scheduled.startAt == ChunkStart(old(nextStartTime), clock)
      ensures scheduled.duration == DecodedChunk(msg, decode).value
      ensures nextStartTime == scheduled.End()
      ensures sources == old(sources) + {scheduled}
    {
      var s := OnMessage(msg, clock, decode);
      scheduled := s;
    }

    /** A run of audio messages, none of them interrupted and every one decoded, handled
        one after another: the chunks are started at the times `StartTimes` gives, from the
        cursor the run began with, and the cursor ends where `CursorAfter` says. So each
        chunk is a new source in flight, none starts before its own clock or the cursor the
        run began from, and each starts no earlier than the end of the one before it. */
    method OnMessageRun(msgs: seq<LiveServerMessage>, run: seq<Arrival>, decode: string -> Option<Seconds>)
      returns (started: seq<PlaybackSource>)
      requires Valid()
      requires |msgs| == |run|
      requires forall i :: 0 <= i < |msgs| ==> !Interrupted(msgs[i]) && DecodedChunk(msgs[i], decode) == Some(run[i].duration)
      modifies this`nextStartTime, this`sources, sources
      ensures Valid()
      ensures |started| == |run|
      ensures forall i :: 0 <= i < |run| ==>
                started[i].startAt == StartTimes(old(nextStartTime), run)[i] && started[i].duration == run[i].duration
      ensures nextStartTime == CursorAfter(old(nextStartTime), run)
      ensures sources == old(sources) + Elements(started)
      ensures forall i :: 0 <= i < |run| ==> fresh(started[i]) && started[i] in sources
      ensures forall x :: x in sources ==> x in old(sources) || x in started
      ensures forall i :: 0 <= i < |run| ==> started[i].startAt >= run[i].clock && started[i].startAt >= old(nextStartTime)
      ensures forall i :: 0 <= i && i + 1 < |run| ==> started[i + 1].startAt >= started[i].End()
    {
      started := [];
      ghost var starts := StartTimes(nextStartTime, run);
      var k := 0;
      while k < |run|
        invariant 0 <= k <= |run| && |started| == k
        invariant Valid()
        invariant forall i :: 0 <= i < k ==> started[i].startAt == starts[i] && started[i].duration == run[i].duration
        invariant nextStartTime == CursorAfter(old(nextStartTime), run[..k])
        invariant sources == old(sources) + Elements(started)
        invariant forall x :: x in Elements(started) ==> fresh(x)
      {
        StartTimesAt(old(nextStartTime), run, k);
        var s := OnAudioMessage(msgs[k], run[k].clock, decode);
        AppendSlot(started, s, starts, run);
        started := started + [s];
        k := k + 1;
      }
      assert run[..k] == run;
      ElementsOf(started);
      StartTimesOrdered(old(nextStartTime), run);
    }

    /** stopSession: the session is closed if there is one (a throwing close is swallowed),
        capture is disconnected, every source is stopped and the set emptied, `connected`
        falls and the handle is dropped. The cursor is left as it was. `closed` says whether
        `close()` was called. */
    method StopSession() returns (closed: bool)
      requires Valid()
      modifies this`session, this`capturing, this`connected, this`sources, sources
      ensures Valid()
      ensures closed == old(session)
      ensures !session && !capturing && !connected && sources == {}
      ensures forall s :: s in old(sources) ==> s.stopped
      ensures nextStartTime == old(nextStartTime)
    {
      closed := session;
      capturing := false;
      StopAllSources();
      connected := false;
      session := false;
    }

    /** stopSession as evidently intended: the same cleanup, and the cursor rewound so that
        the next session's first chunk starts at that session's clock. */
    method StopSessionRewinding() returns (closed: bool)
      requires Valid()
      modifies this`session, this`capturing, this`connected, this`sources, this`nextStartTime, sources
      ensures Valid()
      ensures closed == old(session)
      ensures !session && !capturing && !connected && sources == {}
      ensures forall s :: s in old(sources) ==> s.stopped
      ensures nextStartTime == 0.0
    {
      closed := StopSession();
      nextStartTime := 0.0;
    }
  }

  /** Two chunks back to back, then a barge-in, then a chunk after it: what a caller can
      conclude from the handlers' contracts alone. */
  method BargeInScenario()
  {
    var live := new LiveSession();
    var part := GeminiService.Part(None, Some(GeminiService.InlineData(Some("AAAA"), None)));
    var chunk := LiveServerMessage(Some(ServerContent(Some(GeminiService.Content(Some([part]))), None)));
    var interrupt := LiveServerMessage(Some(ServerContent(None, Some(true))));
    var half: string -> Option<Seconds> := _ => Some(0.5);
    var second: string -> Option<Seconds> := _ => Some(0.3);

    var a := live.OnMessage(chunk, 0.0, half);
    assert a != null && a.startAt == 0.0 && live.nextStartTime == 0.5;
    var b := live.OnMessage(chunk, 0.1, second);
    assert b != null && b.startAt == a.startAt + 0.5;
    assert live.sources == {a, b};

    var none := live.OnMessage(interrupt, 0.2, half);
    assert none == null && a.stopped && b.stopped;
    assert live.sources == {} && live.nextStartTime == 0.0;

    var c := live.OnMessage(chunk, 0.25, half);
    assert c != null && c.startAt == 0.25;
  }

  /** A message whose model turn carries one audio part. */
  function AudioMessage(data: string): (msg: LiveServerMessage)
    requires data != ""
    ensures AudioOf(msg) == Audio(data) && !Interrupted(msg)
  {
    var part := GeminiService.Part(None, Some(GeminiService.InlineData(Some(data), None)));
    LiveServerMessage(Some(ServerContent(Some(GeminiService.Content(Some([part]))), None)))
  }

  /** The stale cursor, as the code is written: a first session schedules a 30-second reply
      at clock 0 and is stopped; a second session is started and opened, and its first reply
      arrives when the new output context's clock reads 0.2. It is scheduled at 30.0. */
  method RestartAfterStop() returns (firstStart: real)
    ensures firstStart == 30.0
  {
    var live := new LiveSession();
    var long: string -> Option<Seconds> := _ => Some(30.0);
    var short: string -> Option<Seconds> := _ => Some(0.5);
    var reply := live.OnMessage(AudioMessage("AAAA"), 0.0, long);
    var closed := live.StopSession();
    live.StartSession();
    live.CompleteStart(Started);
    live.OnOpen();
    var first := live.OnMessage(AudioMessage("AAAA"), 0.2, short);
    firstStart := first.startAt;
  }

  /** The same sequence of events with the cursor rewound on stop: the second session's first
      reply starts at that session's clock. */
  method RestartAfterRewindingStop() returns (firstStart: real)
    ensures firstStart == 0.2
  {
    var live := new LiveSession();
    var long: string -> Option<Seconds> := _ => Some(30.0);
    var short: string -> Option<Seconds> := _ => Some(0.5);
    var reply := live.OnMessage(AudioMessage("AAAA"), 0.0, long);
    var closed := live.StopSessionRewinding();
    live.StartSession();
    live.CompleteStart(Started);
    live.OnOpen();
    var first := live.OnMessage(AudioMessage("AAAA"), 0.2, short);
    firstStart := first.startAt;
  }
}
