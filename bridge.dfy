/**
 * The host bridge: the messages the page posts to the embedding application,
 * and the two callbacks that post them (the results callback and the camera
 * start failure handler). When the page runs outside the host there is no
 * channel and posting does nothing.
 */
module Bridge {
  import opened Launch
  import opened Render
  import opened Detections

  /** What is posted: the projected detections of one frame, or the error envelope. */
  datatype Message = DetectionsMessage(faces: seq<Face>) | ErrorMessage(error: string)

  const StartFailurePrefix := "Camera start failed: "

  /** The error envelope for a camera that failed to start with the given reason. */
  function StartFailure(reason: string): (m: Message)
    ensures m.ErrorMessage?
    ensures |m.error| == |StartFailurePrefix| + |reason|
    ensures m.error[..|StartFailurePrefix|] == StartFailurePrefix
    ensures m.error[|StartFailurePrefix|..] == reason
  {
    ErrorMessage(StartFailurePrefix + reason)
  }

  /** What reaches the host when `m` is posted. */
  function Delivered(hasChannel: bool, m: Message): (out: seq<Message>)
    ensures hasChannel ==> out == [m]
    ensures !hasChannel ==> out == []
  {
    if hasChannel then [m] else []
  }

  /** The drawing decisions of one results callback. */
  datatype RenderPlan = RenderPlan(mirrored: bool, boxColor: string, landmarkColor: string, overlaid: seq<RawDetection>)

  /** The host channel and everything posted on it so far. */
  class HostBridge {
    const hasChannel: bool
    var sent: seq<Message>

    constructor (hasChannel: bool)
      ensures this.hasChannel == hasChannel && sent == []
    {
      this.hasChannel := hasChannel;
      sent := [];
    }

    /** `postMessage` when the channel exists, nothing otherwise. */
    method Post(m: Message)
      modifies this
      ensures sent == old(sent) + Delivered(hasChannel, m)
    {
      if hasChannel {
        sent := sent + [m];
      }
    }

    /** The handler attached to a failed camera start. */
    method OnStartFailure(reason: string)
      modifies this
      ensures sent == old(sent) + Delivered(hasChannel, StartFailure(reason))
    {
      Post(ErrorMessage(StartFailurePrefix + reason));
    }

    /** The results callback: decide the drawing, project the detections, post them. */
    method OnResults(c: Config, r: RawResults) returns (plan: RenderPlan)
      modifies this
      ensures plan.mirrored == Mirrored(c)
      ensures plan.boxColor == RgbColor(c.drawBoundingBoxColor)
      ensures plan.landmarkColor == RgbColor(c.drawLandmarksColor)
      ensures plan.overlaid == if c.enableDrawing then DetectionsOf(r) else []
      ensures sent == old(sent) + Delivered(hasChannel, DetectionsMessage(ProjectAll(DetectionsOf(r))))
    {
      var mirrored := !c.isBackCamera && c.flipHorizontal;
      var processed, drawn := Collect(c, r);
      Post(DetectionsMessage(processed));
      plan := RenderPlan(mirrored, RgbColor(c.drawBoundingBoxColor), RgbColor(c.drawLandmarksColor), drawn);
    }

    /** One event reaching the page: the callback it triggers runs. */
    method Handle(c: Config, e: PageEvent)
      modifies this
      ensures sent == old(sent) + Delivered(hasChannel, Reply(e))
    {
      match e {
        case Results(r) =>
          var _ := OnResults(c, r);
        case StartFailed(reason) =>
          OnStartFailure(reason);
      }
    }
  }

  /** What the host can observe happening in the page: a results callback, or a failed camera start. */
  datatype PageEvent = Results(results: RawResults) | StartFailed(reason: string)

  /** The one message each event posts. */
  function Reply(e: PageEvent): Message
  {
    match e
    case Results(r) => DetectionsMessage(ProjectAll(DetectionsOf(r)))
    case StartFailed(reason) => StartFailure(reason)
  }

  /** Everything the host receives, oldest first, for a history of events. */
  function Transcript(hasChannel: bool, events: seq<PageEvent>): seq<Message>
  {
    if events == [] then []
    else Transcript(hasChannel, events[..|events| - 1]) + Delivered(hasChannel, Reply(events[|events| - 1]))
  }

  /** Without a channel the host receives nothing, whatever happens. */
  lemma {:induction false} TranscriptWithoutChannel(events: seq<PageEvent>)
    ensures Transcript(false, events) == []
  {
    if events != [] {
      TranscriptWithoutChannel(events[..|events| - 1]);
    }
  }

  /** With a channel, one message per event. */
  lemma {:induction false} TranscriptLength(events: seq<PageEvent>)
    ensures |Transcript(true, events)| == |events|
  {
    if events != [] {
      TranscriptLength(events[..|events| - 1]);
    }
  }

  /** With a channel, the message at position `i` is the reply to the event at position `i`. */
  lemma {:induction false} TranscriptAt(events: seq<PageEvent>, i: nat)
    requires i < |events|
    ensures |Transcript(true, events)| == |events|
    ensures Transcript(true, events)[i] == Reply(events[i])
  {
    var init := events[..|events| - 1];
    TranscriptLength(events);
    TranscriptLength(init);
    if i < |init| {
      TranscriptAt(init, i);
      assert init[i] == events[i];
    }
  }

  /** With a channel, exactly one message per event, in order, each the reply to its own event. */
  lemma TranscriptOnePerEvent(events: seq<PageEvent>)
    ensures |Transcript(true, events)| == |events|
    ensures forall i :: 0 <= i < |events| ==> Transcript(true, events)[i] == Reply(events[i])
  {
    TranscriptLength(events);
    forall i | 0 <= i < |events|
      ensures Transcript(true, events)[i] == Reply(events[i])
    {
      TranscriptAt(events, i);
    }
  }

  /** Error envelopes come from start failures only, one each; detection arrays from results callbacks only. */
  lemma {:induction false} ErrorsOnlyFromStartFailure(events: seq<PageEvent>, i: nat)
    requires i < |events|
    ensures |Transcript(true, events)| == |events|
    ensures Transcript(true, events)[i].ErrorMessage? <==> events[i].StartFailed?
  {
    TranscriptOnePerEvent(events);
  }

  /** `camera.start()` is called once and its promise settles once, so at most one start failure happens. */
  predicate OneStart(events: seq<PageEvent>)
  {
    forall i, j :: 0 <= i < j < |events| ==> !(events[i].StartFailed? && events[j].StartFailed?)
  }

  /** In a page whose camera is started once, the host receives at most one error envelope. */
  lemma AtMostOneError(events: seq<PageEvent>)
    requires OneStart(events)
    ensures var t := Transcript(true, events);
            forall i, j :: 0 <= i < j < |t| ==> !(t[i].ErrorMessage? && t[j].ErrorMessage?)
  {
    TranscriptOnePerEvent(events);
    var t := Transcript(true, events);
    forall i, j | 0 <= i < j < |t|
      ensures !(t[i].ErrorMessage? && t[j].ErrorMessage?)
    {
      ErrorsOnlyFromStartFailure(events, i);
      ErrorsOnlyFromStartFailure(events, j);
    }
  }

  lemma TranscriptSnoc(hasChannel: bool, events: seq<PageEvent>, i: nat)
    requires i < |events|
    ensures Transcript(hasChannel, events[..i + 1]) ==
            Transcript(hasChannel, events[..i]) + Delivered(hasChannel, Reply(events[i]))
  {
    assert events[..i + 1][..i] == events[..i];
  }

  /**
   * The browser driving the callbacks through a history of events: every
   * results callback and the start-failure handler run on one bridge, and its
   * log is then the transcript of that history.
   */
  method RunPage(hasChannel: bool, c: Config, events: seq<PageEvent>) returns (b: HostBridge)
    ensures fresh(b) && b.hasChannel == hasChannel
    ensures b.sent == Transcript(hasChannel, events)
  {
    b := new HostBridge(hasChannel);
    var i := 0;
    while i < |events|
      invariant 0 <= i <= |events|
      invariant b.hasChannel == hasChannel
      invariant b.sent == Transcript(hasChannel, events[..i])
    {
      b.Handle(c, events[i]);
      TranscriptSnoc(hasChannel, events, i);
      i := i + 1;
    }
    assert events[..i] == events;
  }

  /** A page whose camera fails to start tells the host exactly once, and sends no detections. */
  lemma FailedStartScenario(reason: string)
    ensures Transcript(true, [StartFailed(reason)]) == [ErrorMessage("Camera start failed: " + reason)]
    ensures Transcript(false, [StartFailed(reason)]) == []
  {
  }
}
