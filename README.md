# Face-detector page: frame-to-host protocol

This project is a Dafny model of the logic in the face-detection web page
`script.js`. The page runs inside a mobile WebView: it reads its launch
parameters, keeps the canvas size in step with the camera or the window,
decides whether to mirror the drawn frame, reduces each frame's face
detections to a small JSON-ready array, and posts that array to the
embedding app (React Native's `ReactNativeWebView.postMessage`) when the
channel exists. Five modules follow the five pieces of that logic:

- `Launch` (`launch.dfy`): the query string as a `map<string, string>` and the
  immutable `Config` it resolves to. A flag is true only for the exact text
  `true`. A string parameter that is absent or empty gets its default. The
  numeric parameters are kept symbolic (`ParseInt(text, 10)`,
  `ParseFloat(text)`), so the model records which text reaches the parser
  and does not evaluate it.
- `Render` (`render.dfy`): the mirror decision, the x coordinate the flip
  transform produces, and the `rgb(...)` colour strings of the overlay.
- `Detections` (`detections.dfy`): the model's raw results, the outbound
  shapes, and the projection. `Collect` is the page's `for` loop with `push`,
  proved equal to the specification function `ProjectAll`.
- `Viewport` (`viewport.dfy`): the canvas as a class with `width`, `height` and
  a count of dimension assignments. Each assignment reallocates the bitmap,
  which is why the page writes a dimension only when it differs. The class
  has the initial setup (constructor), the per-frame sync (`OnFrame`) and the
  resize listener (`OnResize`). Pure functions give the size after each event,
  `Replay` replays a whole history of events, and `RequestCamera` gives the
  camera request options.
- `Bridge` (`bridge.dfy`): the host channel as a class holding `hasChannel`
  and the log of posted messages; the results callback and the camera
  start-failure handler; and `Transcript`, the messages a history of page
  events produces.

A malformed numeric parameter is not replaced by its default:
`urlParams.get(name) || "0"` replaces only a missing or empty value, and any
other text reaches `parseInt` or `parseFloat` unchanged
(`Launch.PresentPassesThrough`). The page keeps no start-up state of its own;
a failed camera start is modelled only through what its handler posts, and
the single call to `camera.start()` appears as the assumption that a history
holds at most one failed start (`Bridge.OneStart`).

`Viewport.RunCanvas` and `Bridge.RunPage` drive a `Canvas` and a `HostBridge`
through a history of events, so the facts proved about `Replay` and
`Transcript` describe the state of those objects.

## Model

| member | source | states |
|---|---|---|
| `Launch.Param` | script.js:7-16 | the fallback when the value is absent or empty, the value otherwise; never empty when the fallback is not |
| `Launch.Flag` | script.js:11-14 | `get(name) === "true"`: true iff the parameter is present and exactly `true` |
| `Launch.Resolve` | script.js:6-16 | each of the four flags is true iff its parameter is present and exactly `true`; the numbers go to `parseInt(_, 10)` and `parseFloat`; every string handed on is non-empty |
| `Launch.Defaults` | script.js:7-16 | with no parameters the page uses model 0, confidence 0.5, red boxes, green landmarks, and all flags off |
| `Launch.MissingGivesDefault` | script.js:7-16 | an absent or empty string parameter, or an absent flag, resolves to that field's default |
| `Launch.PresentPassesThrough` | script.js:7-16 | a present non-empty value is passed through unchanged, so a malformed number is not replaced by the default |
| `Launch.OnlyExactTrue` | script.js:11-14 | any value other than the exact text `true` makes a flag false |
| `Launch.ResolveEncode` | script.js:6-16 | round trip: a host-built launch URL that spells out every field resolves back to that configuration |
| `Render.Mirrored` | script.js:22-26 | never mirrored with the back camera or without the flip flag; mirrored with the front camera and the flag |
| `Render.MirroredFromQuery` | script.js:22-26 | the flip is applied iff the back-camera flag is not `true` and the flip flag is `true` (both directions) |
| `Render.BackCameraNeverMirrored` | script.js:22-26 | with the back camera nothing is mirrored, whatever the flip parameter says |
| `Render.RgbColor` | script.js:46-50 | the overlay colour is the parameter wrapped in `rgb(` and `)` |
| `Detections.DetectionsOf` | script.js:37 | missing detections are iterated as none, and present ones as they are |
| `Detections.ToPoints` | script.js:59 | each landmark becomes `{x, y}`, with the same count and order |
| `Detections.Confidence` | script.js:60-61 | `score[0]` when the score list exists and is non-empty, 0 otherwise |
| `Detections.ProjectFace` | script.js:58-74 | the six box fields are copied, the landmarks are reduced to `{x, y}` index by index, and confidence is as above |
| `Detections.ProjectAll` | script.js:36-76 | one entry per detection, each the projection of the detection at the same index |
| `Detections.Collect` | script.js:36-76 | the loop's array equals the projection of the detections; the overlay gets every detection when drawing is on and none otherwise |
| `Detections.ProjectAllAppend` | script.js:36-76 | projection keeps order: it distributes over concatenation |
| `Detections.ToPointsLiftPoints` | script.js:59 | reducing landmarks loses nothing of an `{x, y}` list: lifting a point list and reducing it gives it back |
| `Detections.ProjectLift` | script.js:56-74 | every possible outbound array is the projection of some model results |
| `Detections.ProjectIgnoresOthers` | script.js:63-71 | only the six named box fields reach the message |
| `Viewport.InitialSize` | script.js:162-176 | the initial canvas is the window size in fullscreen and 640×480 otherwise |
| `Viewport.FrameSize` | script.js:104-117 | in fullscreen the frame sync sets the window size; outside it, the video size when both video dimensions are nonzero, and no change otherwise |
| `Viewport.FrameWrites` | script.js:104-117 | fullscreen writes both dimensions on every frame; outside fullscreen nothing is written iff the video size is unusable or already the canvas size, and both dimensions are written iff the video size is usable and both differ, so exactly one write per differing dimension |
| `Viewport.ResizeSize` | script.js:154-160 | a resize sets the window size in fullscreen and changes nothing otherwise |
| `Viewport.RequestCamera` | script.js:120-122 | the camera is requested at the initial canvas size, facing `environment` iff back camera and `user` otherwise |
| `Viewport.Canvas.constructor` | script.js:162-176 | the canvas starts at `InitialSize` |
| `Viewport.Canvas.OnFrame` | script.js:102-117 | new size is `FrameSize` of the old one; the write count grows by `FrameWrites` (one per differing dimension outside fullscreen) |
| `Viewport.Canvas.OnResize` | script.js:155-160 | new size is `ResizeSize` of the old one; outside fullscreen nothing is written |
| `Viewport.RunCanvas` | script.js:101-176 | the initial setup followed by every frame sync and resize, in order, leaves the canvas at the `Replay` size of that history |
| `Viewport.WindowedTracksVideo` | script.js:104-112 | outside fullscreen, after any history, the canvas is the latest video size with both dimensions nonzero, or 640×480 if there is none |
| `Viewport.FullScreenTracksWindow` | script.js:113-117 | in fullscreen, after any history, the canvas is the latest window size |
| `Viewport.WindowedIgnoresResize` | script.js:155-160 | outside fullscreen, removing every resize from a history leaves the canvas the same |
| `Viewport.WindowedScenario` | script.js:104-112 | outside fullscreen, in an 800×600 window, a 640×480 camera gives a 640×480 canvas |
| `Viewport.SyncIsIdempotent` | script.js:104-112 | a repeated frame with the same video size changes nothing and writes nothing |
| `Bridge.StartFailure` | script.js:148-150 | the error envelope is `Camera start failed: ` followed by the reason |
| `Bridge.Delivered` | script.js:78-85 | posting delivers exactly the message when the channel exists, and nothing otherwise |
| `Bridge.HostBridge.Post` | script.js:78-85 | the log grows by the message iff the channel exists |
| `Bridge.HostBridge.OnStartFailure` | script.js:142-151 | a start failure appends exactly one error envelope when the channel exists, and nothing else |
| `Bridge.HostBridge.OnResults` | script.js:18-87 | mirror decision, overlay colours and overlay gate, and exactly one posted message (the projection) when the channel exists |
| `Bridge.HostBridge.Handle` | script.js:78-85 | one event runs its callback, which appends the reply to that event when the channel exists, and nothing otherwise |
| `Bridge.RunPage` | script.js:78-151 | running the callbacks for a history of events leaves the bridge's log equal to the transcript of that history |
| `Bridge.AtMostOneError` | script.js:125-151 | when the camera is started once, the host receives at most one error envelope |
| `Bridge.TranscriptOnePerEvent` | script.js:78-85 | with a channel, a history of events yields exactly one message per event, in order, each the reply to its own event |
| `Bridge.TranscriptWithoutChannel` | script.js:78-85 | without a channel the host receives nothing from any history of events |
| `Bridge.ErrorsOnlyFromStartFailure` | script.js:142-151 | a message is an error envelope iff its event was a failed camera start |
| `Bridge.FailedStartScenario` | script.js:142-151 | a history that is just a failed start gives the host exactly the error envelope, and no detection array; without a channel, nothing |

## Left out

- Canvas drawing (`save`, `clearRect`, `drawImage`, `translate`/`scale`, `drawDetection`, `restore`) is rendering on a browser API; only the mirror decision, the flip's effect on x, the colours and the drawing gate are modelled.
- The MediaPipe `FaceDetection` object, `setOptions`, `locateFile` and the CDN URL are an opaque foreign model; its results are the input of the projection.
- The `Camera` helper, its frame scheduling, the `start()` promise and the video `play`/`canplay` handling are device I/O and asynchronous wiring. A start failure is modelled as a reason string given to `OnStartFailure`. The model does not show that no frames follow a failed start, because that depends on the helper.
- `parseInt`, `parseFloat` and `JSON.stringify` are library parsing and serialisation, so their numeric and textual results are not modelled.
- Coordinates are taken as plain reals. Nothing in the code checks that they lie in [0, 1], so the model claims no such range.
- `Bridge.HostBridge.OnStartFailure` takes the rejection's `message` as a string. A rejection that is an object without `message` would post the text `undefined`. A rejection that is `null` or `undefined` makes `err.message` throw inside the handler, so nothing is posted; the model does not cover that path.
- `Detections.RawDetection` always holds a bounding box and a landmark list, and every box field and `x`, `y` are taken as present. A property named by the code but missing from the model's object (`undefined`, and then dropped by `JSON.stringify`) is not modelled. A detection with no `landmarks` or no `boundingBox` makes `.map` or `boundingBox.xMin` throw, which the model leaves out. In that case `onResults` posts nothing for the frame and skips `restore()`.
- Duplicate query keys, for which `URLSearchParams.get` returns the first value, are not modelled: the query is a map.
- The host channel test is re-evaluated at every post in the code; the model fixes channel presence for the bridge's lifetime.
- DOM styling for fullscreen and console logging are presentation only.
- The face-mesh variants of the page are not part of this model.
