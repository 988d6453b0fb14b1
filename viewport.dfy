/**
 * The canvas size as mutable state, driven by the initial setup, by each camera
 * frame and by window resizes, together with the camera request that is made
 * at start-up. Sizes are whole device pixels.
 */
module Viewport {
  import opened Options

  datatype Size = Size(width: nat, height: nat)

  /** The canvas size used outside fullscreen until the video's own size is known. */
  const Fallback := Size(640, 480)

  /** Initial setup: the window in fullscreen, 640 by 480 otherwise. */
  function InitialSize(fullScreen: bool, window: Size): (s: Size)
    ensures fullScreen ==> s == window
    ensures !fullScreen ==> s.width == 640 && s.height == 480
  {
    if fullScreen then window else Fallback
  }

  /** The canvas size after the size sync at the start of a camera frame. */
  function FrameSize(fullScreen: bool, canvas: Size, video: Size, window: Size): (s: Size)
    ensures fullScreen ==> s == window
    ensures !fullScreen && video.width != 0 && video.height != 0 ==> s == video
    ensures !fullScreen && (video.width == 0 || video.height == 0) ==> s == canvas
  {
    if fullScreen then window
    else if video.width == 0 || video.height == 0 then canvas
    else video
  }

  /**
   * How many times that sync assigns a canvas dimension. Every assignment
   * reallocates (and clears) the canvas bitmap, so outside fullscreen a
   * dimension is written only when it differs.
   */
  function FrameWrites(fullScreen: bool, canvas: Size, video: Size): (n: nat)
    ensures n <= 2
    ensures fullScreen ==> n == 2
    ensures !fullScreen ==> (n == 0 <==> video.width == 0 || video.height == 0 || video == canvas)
    ensures !fullScreen ==> (n == 2 <==> video.width != 0 && video.height != 0 &&
                                         canvas.width != video.width && canvas.height != video.height)
  {
    if fullScreen then 2
    else if video.width == 0 || video.height == 0 then 0
    else (if canvas.width != video.width then 1 else 0) + (if canvas.height != video.height then 1 else 0)
  }

  /** The canvas size after a window resize: tracked in fullscreen, ignored otherwise. */
  function ResizeSize(fullScreen: bool, canvas: Size, window: Size): (s: Size)
    ensures fullScreen ==> s == window
    ensures !fullScreen ==> s == canvas
  {
    if fullScreen then window else canvas
  }

  /** The options the camera is requested with. */
  datatype CameraRequest = CameraRequest(width: nat, height: nat, facingMode: string)

  function RequestCamera(isBackCamera: bool, fullScreen: bool, window: Size): (r: CameraRequest)
    ensures Size(r.width, r.height) == InitialSize(fullScreen, window)
    ensures r.facingMode == "environment" <==> isBackCamera
    ensures r.facingMode == "user" <==> !isBackCamera
  {
    CameraRequest(
      if fullScreen then window.width else 640,
      if fullScreen then window.height else 480,
      if isBackCamera then "environment" else "user")
  }

  /** The canvas element: its two dimensions, and how often they have been assigned. */
  class Canvas {
    const fullScreen: bool
    var width: nat
    var height: nat
    var writes: nat

    function Current(): Size
      reads this
    {
      Size(width, height)
    }

    /** The initial setup at the end of the page script. */
    constructor (fullScreen: bool, window: Size)
      ensures this.fullScreen == fullScreen
      ensures Current() == InitialSize(fullScreen, window)
      ensures writes == 2
    {
      this.fullScreen := fullScreen;
      if fullScreen {
        width := window.width;
        height := window.height;
      } else {
        width := 640;
        height := 480;
      }
      writes := 2;
    }

    /** The size sync at the start of every camera frame. */
    method OnFrame(video: Size, window: Size)
      modifies this
      ensures Current() == FrameSize(fullScreen, old(Current()), video, window)
      ensures writes == old(writes) + FrameWrites(fullScreen, old(Current()), video)
    {
      if !fullScreen {
        if video.width != 0 && video.height != 0 {
          if width != video.width {
            width := video.width;
            writes := writes + 1;
          }
          if height != video.height {
            height := video.height;
            writes := writes + 1;
          }
        }
      } else {
        width := window.width;
        height := window.height;
        writes := writes + 2;
      }
    }

    /** The window resize listener. */
    method OnResize(window: Size)
      modifies this
      ensures Current() == ResizeSize(fullScreen, old(Current()), window)
      ensures fullScreen ==> writes == old(writes) + 2
      ensures !fullScreen ==> writes == old(writes)
    {
      if fullScreen {
        width := window.width;
        height := window.height;
        writes := writes + 2;
      }
    }
  }

  /** The events that change the canvas size after the initial setup. */
  datatype Event = Frame(video: Size, window: Size) | Resize(window: Size)

  function Step(fullScreen: bool, canvas: Size, e: Event): Size
  {
    match e
    case Frame(video, window) => FrameSize(fullScreen, canvas, video, window)
    case Resize(window) => ResizeSize(fullScreen, canvas, window)
  }

  /** The canvas size after the initial setup and then the events, oldest first. */
  function Replay(fullScreen: bool, window: Size, events: seq<Event>): Size
  {
    if events == [] then InitialSize(fullScreen, window)
    else Step(fullScreen, Replay(fullScreen, window, events[..|events| - 1]), events[|events| - 1])
  }

  /** The video size of the latest frame whose two dimensions are both nonzero. */
  function LastVideo(events: seq<Event>): Option<Size>
  {
    if events == [] then None
    else
      var e := events[|events| - 1];
      if e.Frame? && e.video.width != 0 && e.video.height != 0 then Some(e.video)
      else LastVideo(events[..|events| - 1])
  }

  /** The window size the latest event saw, or the one at start-up. */
  function LastWindow(window: Size, events: seq<Event>): Size
  {
    if events == [] then window else events[|events| - 1].window
  }

  /**
   * The browser driving the canvas through a history of events: the initial
   * setup, then every camera frame and resize in order. The canvas then has
   * the size `Replay` gives.
   */
  method RunCanvas(fullScreen: bool, window: Size, events: seq<Event>) returns (c: Canvas)
    ensures fresh(c) && c.fullScreen == fullScreen
    ensures c.Current() == Replay(fullScreen, window, events)
  {
    c := new Canvas(fullScreen, window);
    var i := 0;
    while i < |events|
      invariant 0 <= i <= |events|
      invariant c.fullScreen == fullScreen
      invariant c.Current() == Replay(fullScreen, window, events[..i])
    {
      match events[i] {
        case Frame(video, w) => c.OnFrame(video, w);
        case Resize(w) => c.OnResize(w);
      }
      assert events[..i + 1][..i] == events[..i];
      i := i + 1;
    }
    assert events[..i] == events;
  }

  /** Outside fullscreen the canvas equals the latest usable video size, or 640 by 480 before there is one. */
  lemma {:induction false} WindowedTracksVideo(window: Size, events: seq<Event>)
    ensures Replay(false, window, events) == match LastVideo(events)
                                             case None => Fallback
                                             case Some(v) => v
  {
    if events != [] {
      WindowedTracksVideo(window, events[..|events| - 1]);
    }
  }

  /** In fullscreen the canvas equals the latest window size, whatever the video does. */
  lemma {:induction false} FullScreenTracksWindow(window: Size, events: seq<Event>)
    ensures Replay(true, window, events) == LastWindow(window, events)
  {
  }

  function Frames(events: seq<Event>): (fs: seq<Event>)
    ensures forall i :: 0 <= i < |fs| ==> fs[i].Frame?
  {
    if events == [] then []
    else
      var e := events[|events| - 1];
      Frames(events[..|events| - 1]) + (if e.Frame? then [e] else [])
  }

  /** Outside fullscreen resizes have no effect: dropping every resize from a history changes nothing. */
  lemma {:induction false} WindowedIgnoresResize(window: Size, events: seq<Event>)
    ensures Replay(false, window, events) == Replay(false, window, Frames(events))
  {
    if events != [] {
      var init := events[..|events| - 1];
      var e := events[|events| - 1];
      WindowedIgnoresResize(window, init);
      var fs := Frames(init) + (if e.Frame? then [e] else []);
      assert Frames(events) == fs;
      if e.Frame? {
        assert fs[|fs| - 1] == e && fs[..|fs| - 1] == Frames(init);
        assert Replay(false, window, fs) == Step(false, Replay(false, window, Frames(init)), e);
      } else {
        assert fs == Frames(init);
      }
    }
  }

  /** Outside fullscreen a second frame of the same video size changes nothing and writes nothing. */
  lemma SyncIsIdempotent(canvas: Size, video: Size, window: Size)
    ensures var once := FrameSize(false, canvas, video, window);
            FrameSize(false, once, video, window) == once && FrameWrites(false, once, video) == 0
  {
  }

  /** Outside fullscreen, in an 800 by 600 window, a 640 by 480 camera gives a 640 by 480 canvas. */
  lemma WindowedScenario()
    ensures Replay(false, Size(800, 600), [Frame(Size(640, 480), Size(800, 600))]) == Size(640, 480)
  {
  }
}
