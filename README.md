# Headphone audio switcher: a verified model of its decision rules

The headphone audio switcher is a webcam client and an inference server.
The client samples camera frames at three frames per second and posts each
one to the server. The server runs a YOLO detector, writes an annotated copy
of the frame, and replies with the detections. When a detection says
headphones (or earphones, or earbuds) with confidence above one half, the
client switches the Windows audio output. There are two client variants:

- `switcher.py` broadcasts one `WM_APPCOMMAND` window message.
- `client/switcher.py` scans the enumerated audio devices through pycaw and
  makes the first one whose name contains "Headphones" the default.

This Dafny project models the logic inside that glue:

- `Text`: `str.lower()` and the substring test `a in b`.
- `Protocol`: a prediction, the JSON reply body (success or error) and an
  HTTP response.
- `Detection`: `has_headphones`, which is the same in both clients. It is a
  recursive function with an early return. `HasHeadphonesIff` proves it is
  the existence of a qualifying prediction. Further lemmas cover the exact
  class set, the strict 0.5 bound, case-insensitivity and order-independence.
- `AudioSwitch`: the pycaw first-match scan, `FirstMatch`, proved to find the
  first matching device and only it. The class `AudioSystem` holds the
  enumerated devices, the default device and a ghost history of
  `SetDefaultDevice` calls. Its method `SwitchToHeadphones` is the scan loop
  with its `break`. The broadcast message of `switcher.py` is a constant.
- `Sampling`: the `main` loop of both clients.
  - The specification is `Step` (one pass of `while True`) and `RunAt` /
    `MainRun` (the whole run over a finite trace of clock readings,
    camera-read flags, replies and key codes, followed by the `finally`
    release).
  - `RootMain` and `ClientMain` are the imperative loops, with
    `last_capture_time` as a local. They are proved equal to `MainRun`.
    `RootMain` returns the messages it broadcasts. `ClientMain` drives an
    `AudioSystem`.
  - The lemmas cover the capture rule, the spacing of captures, at most one
    switch per captured frame, that failed reads and the quit key stop the
    loop, and that the camera is released exactly once, last.
- `OutputNames`: the timestamped file name `prediction_YYYYMMDD_HHMMSS.jpg`,
  with a parser proved to invert it (so the name is injective in the
  timestamp). It also holds `posixpath.join` onto `output_images`, the image
  URL, and the Flask route `/output_images/<path:filename>`, proved to
  invert the URL. `Locate` is the file system's lookup of a joined path. It
  goes component by component, so a `..` steps back only from an existing
  directory, and a lookup through a missing directory or through a file
  fails.
- `Server`:
  - `predict` is `PredictOutcome` (the reply and the file written). It is
    implemented by the method `OutputStore.Predict`.
  - The nested loops that flatten results then boxes into predictions are
    `Flatten` (specification) and `CollectPredictions` (loop).
  - `serve_image` is `Serve` / `OutputStore.ServeImage`. The files are a map
    keyed by resolved path, next to the set of existing directories, which
    start-up's `os.makedirs` extends with `output_images`.
  - A path names a file or a directory, never both: `cv2.imwrite` onto a
    directory writes nothing, `send_file` of one answers 500, and start-up
    fails when a file stands under `output_images`.
  - The lemmas cover the 400 and 500 paths and the count and order of the
    predictions. They show that a successful reply's URL serves back exactly
    the image that request wrote, and that two requests in the same second
    share one file.

Four behaviours are modelled as the code is written, although something
else is evidently meant:

- A request for an image that does not exist is meant to get a not-found
  reply (404). `send_file` raises `FileNotFoundError` instead, and Flask
  answers status 500.
- `serve_image` is meant to serve the annotated images in `output_images`
  and nothing else. The `path` converter accepts `../<name>`, and
  `send_file` opens the file `<name>` beside the output directory
  (`ServeEscapesOutputDir`).
- A failed `predict` is meant to answer with an error. The annotated image
  is written before the predictions are flattened, so a class index missing
  from `result.names` gives status 500 and also leaves the file behind.
- The broadcast in `switcher.py` is meant to make Windows change the audio
  output device. `APPCOMMAND_SYSTEM_AUDIO_DEVICE_CHANGE = 0x0E0000` sits in
  the high word of `lParam`, where it encodes app command 14. The model
  records the message exactly as sent. What Windows does on receiving it is
  outside the model.

## Model

| member | source | states |
|---|---|---|
| Detection.Qualifies | switcher.py:58-60 | one prediction's test: lowered class in the three names and confidence above 0.5; its meaning is stated by `QualifyingClasses` and `ThresholdIsStrict` |
| Detection.HasHeadphones | switcher.py:54-62 | the scan with its early return, as a recursive function; what it computes is stated by `HasHeadphonesIff` |
| Detection.HasHeadphonesIff | switcher.py:54-62 | `has_headphones` is true iff some prediction has lowered class in {headphones, earphones, earbuds} and confidence > 0.5 (so the empty list gives false); the same holds for client/switcher.py:44-52 |
| Detection.QualifyingClasses | switcher.py:58-60 | above the threshold, a prediction qualifies iff its lowered class is exactly one of the three names |
| Detection.ThresholdIsStrict | switcher.py:60 | predictions whose confidences are all at most 0.5 (0.5 itself included) never yield true |
| Detection.ClassIsCaseInsensitive | switcher.py:60 | two predictions whose classes lower to the same string and whose confidences are equal get the same verdict |
| Detection.LoweredClassQualifiesAlike | switcher.py:60 | replacing a class by its lowered form does not change the verdict |
| Detection.MixedCaseQualifies | client/switcher.py:48-50 | "HeadPhones" at 0.92 qualifies |
| Detection.NearMissesDoNotQualify | client/switcher.py:48-50 | "headphone" and "wireless headphones" do not qualify (exact membership, not substring), and "Earbuds" at exactly 0.5 does not |
| Detection.HasHeadphonesAppend | switcher.py:59-62 | the scan over a concatenation is true iff it is true on either part |
| Detection.HasHeadphonesPermutation | switcher.py:59-62 | any reordering of the predictions (equal multisets) gives the same result |
| Text.Lower | client/switcher.py:39 | `str.lower()`: same length, and each character is the lowered character at the same place |
| Text.Contains | client/switcher.py:39 | `a in b` on strings: some suffix of `b` starts with `a`; its basic cases are stated by `ContainsBasics` |
| Text.LowerIdempotent | client/switcher.py:39 | lowering an already lowered string changes nothing |
| Text.ContainsBasics | client/switcher.py:39 | `a in a` and `'' in a` hold, and only the empty string is in the empty string |
| AudioSwitch.NameMatches | client/switcher.py:39 | the test `device_name.lower() in device.FriendlyName.lower()`; `MatchIgnoresCase` states its case-insensitivity |
| AudioSwitch.FirstMatch | client/switcher.py:38-42 | the index the `for`/`break` scan stops at, if any, always within the device list; `FirstMatchIsFirst` states which one |
| AudioSwitch.Chosen | client/switcher.py:38-42 | the devices one call sets as default; `ChosenIsAtMostOneMatch` states what they are |
| AudioSwitch.FirstMatchIsFirst | client/switcher.py:38-42 | the scan finds a device iff some lowered FriendlyName contains the lowered target, and the one found matches with no matching device before it |
| AudioSwitch.ChosenIsAtMostOneMatch | client/switcher.py:38-42 | at most one device is set as default per call; it matches; none is set iff no device matches |
| AudioSwitch.FirstMatchPrefers | client/switcher.py:38-42 | once a match is found, devices enumerated after it never change the choice |
| AudioSwitch.MatchIgnoresCase | client/switcher.py:39 | matching depends only on the lowered name and the lowered target, in both directions |
| AudioSwitch.DefaultTargetMatches | client/switcher.py:32-39 | with the default target "Headphones", any name containing "headphones" in any case matches |
| AudioSwitch.AudioSystem.SetDefaultDevice | client/switcher.py:40 | the device becomes the default and is appended to the history of default-device calls; the device list is unchanged |
| AudioSwitch.AudioSystem.SwitchToHeadphones | client/switcher.py:32-42 | the loop sets exactly the first matching device as default (history grows by it alone), or changes nothing when none matches |
| Sampling.Due | switcher.py:73 | the capture test `current_time - last_capture_time >= interval` |
| Sampling.QuitPressed | switcher.py:102 | the quit test, written as the key code modulo 256; `QuitPressedMasksLowByte` ties it to the bitwise `& 0xFF` |
| Sampling.WantsSwitch | switcher.py:82-85 | a reply calls the switch iff it is a decoded body with `predictions` that satisfy `has_headphones`; `StepSwitches` states it per pass |
| Sampling.Step | switcher.py:70-103 | one pass of `while True`; its captures, switches, updates and exits are stated by `StepCaptures`, `StepSwitches`, `StepUpdatesLast`, `StepReadFailure` and `StepQuit` |
| Sampling.RunAt | switcher.py:69-103 | the loop from a given pass on; the whole-run lemmas below state its properties |
| Sampling.MainRun | switcher.py:64-107 | the whole of `main`: the loop from `last_capture_time = 0`, then the `finally` release (`ReleasedOnceAtEnd`) |
| Sampling.QuitPressedMasksLowByte | switcher.py:102 | the quit test agrees with Python's bitwise `key & 0xFF == 113` for every integer key code, negative ones included |
| Sampling.LowBits | switcher.py:102 | Python's `x & (2^n - 1)`, computed bit by bit in two's complement, is `x` modulo `2^n` |
| Sampling.QuitKeyMask | switcher.py:102 | `key & 0xFF == ord('q')` keeps the low byte only: 113, 113 + 256 and 113 - 256 quit; -1 and 81 ('Q') do not |
| Sampling.StepCaptures | switcher.py:73-75 | a pass captures a frame iff `now - last >= 1/3` and the camera read succeeded, and the capture is at that pass's clock reading |
| Sampling.StepSwitches | switcher.py:80-94 | a pass calls the switch exactly once when it captured and the reply's `predictions` satisfy `has_headphones`, and otherwise never (exceptions and error bodies call nothing) |
| Sampling.StepUpdatesLast | switcher.py:80-96 | after a capture `last_capture_time` is that pass's time whatever the reply was; otherwise it is unchanged |
| Sampling.StepReadFailure | switcher.py:75-78 | a failed read on a due pass ends the loop at once, with nothing captured and nothing sent |
| Sampling.StepQuit | switcher.py:101-103 | the quit key ends the loop after the pass's capture, if any; the exit is the quit unless that pass's read failed |
| Sampling.CapturesSpaced | switcher.py:66-75 | captures are at least 1/3 s after the start value and at least 1/3 s apart |
| Sampling.SwitchesFollowTheirCapture | switcher.py:80-87 | every switch call directly follows the capture of the frame it was decided on |
| Sampling.AtMostOneSwitchPerCapture | switcher.py:73-96 | over a whole run, switch calls never outnumber captured frames |
| Sampling.NoQualifyingReplyNoSwitch | switcher.py:80-94 | if no reply carries qualifying predictions, the switch is never called |
| Sampling.LoopNeverReleases | switcher.py:69-103 | the loop body never releases the camera |
| Sampling.ReleasedOnceAtEnd | switcher.py:68-107 | on every exit path the camera is released exactly once, as the last action |
| Sampling.SecondFrameSwitchesOnce | switcher.py:64-107 | three frames 1/3 s apart, only the second showing "Headphones" at 0.92: three captures and one switch right after the second |
| Sampling.BroadcastPerSwitch | switcher.py:39-52 | switcher.py sends one message per switch call, always the `WM_APPCOMMAND` broadcast to `HWND_BROADCAST` |
| Sampling.RootPass | switcher.py:70-96 | one pass of switcher.py: the actions and new `last_capture_time` that `Step` specifies, stopping on a failed read; one broadcast per switch |
| Sampling.RootMain | switcher.py:64-107 | the loop's actions and exit reason are those of `MainRun`, and the messages sent are one broadcast per switch |
| Sampling.PassReadFails | client/switcher.py:65-68 | from a due pass with a failed read, the rest of the run is empty and ends with the read failure |
| Sampling.PassCompletes | client/switcher.py:63-93 | any other pass contributes its actions and then quits or continues from the updated `last_capture_time` |
| Sampling.ClientPass | client/switcher.py:60-86 | one pass of client/switcher.py: as `Step` specifies, with a pycaw scan per switch (history grows by the chosen device) |
| Sampling.ClientMain | client/switcher.py:54-97 | the loop's actions and exit are those of `MainRun`; the default-device history is the chosen device repeated once per switch, and the default is that device once any switch ran |
| OutputNames.Digits | server/server.py:38 | a `%0wd` field: exactly `w` decimal digits; `DigitsRoundTrip` states that it holds the value |
| OutputNames.Stamp | server/server.py:38 | `strftime('%Y%m%d_%H%M%S')`: always 15 characters; `FilenameRoundTrip` states that it keeps every field |
| OutputNames.ParseFilename | server/server.py:38-39 | reads a timestamp back out of a file name; `FilenameRoundTrip` states that it inverts `Filename` |
| OutputNames.DigitsRoundTrip | server/server.py:38 | zero-padded decimal fields read back to their value |
| OutputNames.FieldsRoundTrip | server/server.py:38 | `%Y%m%d` and `%H%M%S` read back to their three fields |
| OutputNames.Filename | server/server.py:38-39 | the file name is 30 characters long and never starts with '/' |
| OutputNames.FilenameRoundTrip | server/server.py:38-39 | parsing `prediction_YYYYMMDD_HHMMSS.jpg` gives back the timestamp it was built from |
| OutputNames.FilenameInjective | server/server.py:38-39 | two requests get the same file name iff they fall in the same second |
| OutputNames.Join | server/server.py:21 | `os.path.join` with an absolute second part discards the directory |
| OutputNames.OutputPath | server/server.py:40 | `os.path.join(OUTPUT_DIR, name)`; `OutputPathInDirectory` states where it lands |
| OutputNames.OutputPathInDirectory | server/server.py:40 | a relative name lands at `output_images/<name>`, and different names give different paths |
| OutputNames.ImageUrl | server/server.py:58 | `f'/output_images/{output_filename}'`; `RouteInvertsImageUrl` states that the route inverts it |
| OutputNames.Route | server/server.py:19 | the rule `/output_images/<path:filename>`; `RouteInvertsImageUrl` states which URLs it matches and what it yields |
| OutputNames.RouteInvertsImageUrl | server/server.py:19-20 | the route `/output_images/<path:filename>` matches a URL iff it is `'/output_images/' + name` for a non-empty name not starting with '/', and yields that name |
| OutputNames.ImageUrlServesWrittenPath | server/server.py:38-58 | the URL built from a file name routes back to that name, and its path `output_images/<name>` is reached under that same name whenever `output_images` exists |
| OutputNames.Walk | server/server.py:21 | the kernel's component-by-component lookup: each further component is looked up in a directory, `.` and empty components stay, `..` steps to the parent; the lemmas below state its effect on the served names |
| OutputNames.Locate | server/server.py:21 | the name of the file a path reaches, or none when the lookup fails on the way |
| OutputNames.FilenameIsPlain | server/server.py:39 | the generated file name is one component: no '/', and neither `.` nor `..` |
| OutputNames.LocatePlainName | server/server.py:21 | a plain name joined onto `output_images` is reached under that path iff `output_images` exists, and otherwise the lookup fails |
| OutputNames.WrittenPathLocated | server/server.py:38-44 | the path `predict` writes to is reached as `output_images/<name>` iff `output_images` exists |
| OutputNames.LocateDotSlash | server/server.py:21 | `./<name>` reaches the same file as `<name>`, and fails exactly when it fails |
| OutputNames.LocateParent | server/server.py:21 | `../<name>` reaches `<name>`, beside `output_images`, iff `output_images` exists |
| OutputNames.LocateThroughComponent | server/server.py:21 | `<c>/../<name>` reaches what `<name>` reaches iff `output_images/<c>` is an existing directory, and otherwise the lookup fails |
| OutputNames.ParentEscapes | server/server.py:21-44 | no generated name is ever reached as `<name>` beside `output_images` |
| Server.ClassIndex | server/server.py:51 | `int(box.cls[0])`, truncation toward zero as `Trunc` states |
| Server.BoxPrediction | server/server.py:50-54 | one prediction from a box: its class name, confidence and box, as `FlattenBoxesValues` states |
| Server.FlattenBoxes | server/server.py:49-55 | the inner loop over one result's boxes; `FlattenBoxesSucceeds`, `FlattenBoxesValues` and `FlattenBoxesFirstError` state its outcome |
| Server.Flatten | server/server.py:47-55 | both loops; `FlattenSucceeds`, `FlattenValues` and `FlattenErrorIsFirstUnnamedBox` state its outcome |
| Server.KeyErrorText | server/server.py:66-67 | `str(e)` of a `KeyError`; `KeyErrorTextNamesKey` and `NatTextRoundTrip` state that it names the key |
| Server.PredictOutcome | server/server.py:23-67 | the reply and the file written by `predict`; `MissingImageIsRejected`, `InferenceFailureIsReported`, `StatusesAreExhaustive`, `SuccessReply` and `UnnamedClassWritesThenFails` state its cases |
| Server.Store | server/server.py:44 | `cv2.imwrite` stores the plot under the name its path reaches, and stores nothing when the lookup fails or that name is a directory |
| Server.Trunc | server/server.py:51 | `int()` of a float truncates toward zero: the result is within 1 of the input, on the zero side |
| Server.NatTextRoundTrip | server/server.py:66-67 | the decimal text of a natural number reads back to that number |
| Server.KeyErrorTextNamesKey | server/server.py:66-67 | `str(KeyError(k))` is the key's sign and digits |
| Server.FlattenBoxesSucceeds | server/server.py:49-51 | one result's boxes flatten without `KeyError` iff every box's class index is in `result.names` |
| Server.FlattenBoxesValues | server/server.py:49-55 | one result's boxes give one prediction each, in box order, with `class = names[int(cls)]`, `confidence` and `bbox` |
| Server.FlattenBoxesFirstError | server/server.py:49-51 | a `KeyError` carries the class index of the first box whose class is missing |
| Server.FlattenSucceeds | server/server.py:47-55 | the whole flattening succeeds iff every class index of every result is named |
| Server.FlattenValues | server/server.py:47-55 | the predictions number the total boxes, ordered by result then by box, each shaped from its box |
| Server.FlattenErrorIsFirstUnnamedBox | server/server.py:47-51 | a failed flattening reports the class index of the first box, by result then by box, whose class is missing: every box before it is named |
| Server.CollectPredictions | server/server.py:47-55 | the nested append loops produce exactly `Flatten`, stopping at the first `KeyError` |
| Server.Serve | server/server.py:19-21 | a file is served iff the lookup of `output_images/<filename>` succeeds and reaches an existing file that is not a directory, and then it is that file; otherwise the status is 500 |
| Server.ServeDotSlash | server/server.py:19-21 | the route passes `./<name>` through, and it serves the same as `<name>` |
| Server.ServeThroughComponent | server/server.py:19-21 | the route passes `<c>/../<name>` through; it serves the same as `<name>` when `output_images/<c>` is a directory, and 500 when `<c>` is missing or a file |
| Server.ServeEscapesOutputDir | server/server.py:19-21 | the route passes `../<name>` through, and it serves the file `<name>` beside the output directory, or 500 when there is no such file |
| Server.WritesMissParent | server/server.py:19-44 | no image `predict` writes changes what `../<name>` serves |
| Server.MissingImageIsRejected | server/server.py:26-27 | without an `image` part the reply is 400 `{'error': 'No image file provided'}`, nothing is written, and the model is never consulted |
| Server.InferenceFailureIsReported | server/server.py:32-67 | when decoding or the model raises, or the model gives no results so `results[0]` raises `IndexError`, the reply is 500 with `str(e)` and nothing is written |
| Server.StatusesAreExhaustive | server/server.py:23-67 | every reply is 200 with a success body, 400 exactly for a missing image part, or 500; a 200 always wrote the image |
| Server.SuccessReply | server/server.py:38-64 | a 200 reply carries one prediction per box ordered by result then box, and the URL of the image written under this second's name |
| Server.UnnamedClassWritesThenFails | server/server.py:43-67 | a class index missing from `names` gives 500 with the text of the first such box's key, after the image was already written |
| Server.PredictThenServe | server/server.py:19-58 | a 200 reply's URL routes to its file name, which `serve_image` resolves to the image that request wrote, or 500 when a directory stands under that name |
| Server.SameSecondOverwrites | server/server.py:38-44 | two successful requests in the same second share a URL, and that URL then serves the second image (500 when a directory stands under the name) |
| Server.OutputStore.constructor | server/server.py:13-14 | start-up keeps the existing files and adds `output_images` to the existing directories; it requires that no file stands under `output_images`, where `os.makedirs` raises `FileExistsError` |
| Server.OutputStore.Predict | server/server.py:23-67 | the reply and the new output directory are those `PredictOutcome` specifies (the image written only when inference gave results) |
| Server.OutputStore.ServeImage | server/server.py:19-21 | serving reads the output directory as `Serve` specifies |

## Left out

- Camera capture, colour conversion, JPEG encoding, `requests.post`, Flask request parsing, `send_file` streaming, YOLO inference and plotting are foreign I/O. A frame is not represented. A reply is `Raised` or a decoded body: `requests.post` is called without a timeout (switcher.py:36, client/switcher.py:29), so a reply that never arrives would block the pass forever and never reach the `finally`; the model assumes every reply arrives. An inference is `Raised(message)` or its results. A plot is an opaque `Picture`.
- `time.time` and `cv2.waitKey` become fields of each trace entry. `time.sleep(0.01)` only delays the next clock reading, which the trace already gives, so it is not modelled. The infinite `while True` runs over a finite trace, and reaching the trace's end is the extra exit `TraceEnded`.
- `ctypes.windll.user32.SendMessageW` is recorded as the message sent. What Windows does with it is not modelled.
- pycaw `GetAllDevices` and `SetDefaultDevice` are the fields of `AudioSystem`. The device list does not change during a run.
- The `print` calls (switcher.py:77, 86, 91, 94 and client/switcher.py:41, 67, 76, 81, 84) only log to the console, so they are not modelled. The `'image_url' in response` test guards one of them and is left out with it.
- Exceptions raised by the switch call itself, and by malformed prediction entries (a missing `class` or `confidence` key), are not modelled. The loop would swallow them.
- Float arithmetic: times, the interval 1/3, confidences and box coordinates are exact reals.
- Text.Lower: only ASCII letters are lowered; Unicode case mapping is not modelled.
- Server.CollectPredictions: a box is taken as its first row (`cls[0]`, `conf[0]`, `xyxy[0]`), so an empty tensor's `IndexError` is not modelled.
- OutputNames.Filename: the year is limited to 1000-9999, where `%Y` is four digits on every platform. The date and time come in as fields: `datetime.now()` and `strftime` internals are not modelled.
- OutputNames.Locate: symbolic links are not followed, and permissions are not checked. Files and directories are keyed by their resolved path relative to the server's directory. A path that climbs above that directory keeps its leading `..` components, and every such ancestor counts as a directory.
- OutputNames.Join: the POSIX `os.path.join` is modelled. `send_file` resolves the relative path against the application root, and `cv2.imwrite` against the working directory. The model treats both as the same directory.
- Server.OutputStore.Predict: `cv2.imwrite` failing for reasons other than a failed lookup (a full disk, permissions, an encoder error) is not modelled. The directories do not change after start-up.
- train.py and app.py are one-line calls into the ultralytics trainer and are not part of this model.
