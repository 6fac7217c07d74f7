/**
 * The fixed-rate sampling loop `main`, the same in switcher.py and
 * client/switcher.py. Time, the camera, the HTTP exchange and the keyboard
 * are read from a finite trace of loop iterations; what the loop does is
 * recorded as a sequence of actions.
 */
module Sampling {
  import opened Wrappers
  import opened Protocol
  import opened Detection
  import opened AudioSwitch
  import opened Text

  /** `interval = 1/3` seconds between captures (3 frames per second). */
  const INTERVAL: real := 1.0 / 3.0

  /** `ord('q')` */
  const QUIT_KEY: int := 113

  function Pow2(n: nat): (r: nat)
    ensures r >= 1
  {
    if n == 0 then 1 else 2 * Pow2(n - 1)
  }

  /**
   * Python's `x & m` for a non-negative mask `m`, bit by bit from the lowest:
   * `x / 2` and `x % 2` are the shift and the low bit of `x` in two's
   * complement, negative `x` included.
   */
  function BitAnd(x: int, m: nat): int
    decreases m
  {
    if m == 0 then 0
    else 2 * BitAnd(x / 2, m / 2) + (if x % 2 == 1 && m % 2 == 1 then 1 else 0)
  }

  /**
   * `cv2.waitKey(1) & 0xFF == ord('q')`, with the mask written as the
   * remainder modulo 256 that `QuitPressedMasksLowByte` shows it equals.
   */
  predicate QuitPressed(key: int)
  {
    key % 256 == QUIT_KEY
  }

  /** What `send_image_to_api(frame)` produced: an exception, or a decoded JSON body. */
  datatype Reply = Raised | Received(body: Body)

  /**
   * The inputs of one pass of `while True`: the clock reading, whether
   * `cap.read()` returned a frame, the reply to that frame, and the key code
   * `cv2.waitKey(1)` returned. The frame and reply are consulted only when a
   * capture is due.
   */
  datatype Tick = Tick(now: real, frameRead: bool, reply: Reply, key: int)

  /** Observable effects: a frame captured and sent, the switch action, the camera released. */
  datatype Action = Captured(at: real) | Switched(at: real) | Released

  /** Why the loop ended; `TraceEnded` stands for the end of the finite input. */
  datatype Exit = ReadFailed | Quit | TraceEnded

  datatype StepOutcome = Next(last: real, actions: seq<Action>) | Stop(exit: Exit, actions: seq<Action>)

  datatype Run = Run(actions: seq<Action>, exit: Exit)

  /** `current_time - last_capture_time >= interval` */
  predicate Due(last: real, now: real)
  {
    now - last >= INTERVAL
  }

  /**
   * Whether processing a reply calls the switch: `has_headphones(response['predictions'])`.
   * An exception while sending, and an error body without `predictions` (a
   * KeyError), are both swallowed by the `except` and call nothing.
   */
  predicate WantsSwitch(reply: Reply)
  {
    reply.Received? && reply.body.SuccessBody? && HasHeadphones(reply.body.predictions)
  }

  /** The actions of a pass that did not fail to read: the capture, then the switch if called. */
  function PassActions(last: real, t: Tick): seq<Action>
  {
    if Due(last, t.now) then [Captured(t.now)] + (if WantsSwitch(t.reply) then [Switched(t.now)] else []) else []
  }

  /** One pass of the loop body, from `last_capture_time` and the pass's inputs. */
  function Step(last: real, t: Tick): StepOutcome
  {
    if Due(last, t.now) && !t.frameRead then Stop(ReadFailed, [])
    else
      var last' := if Due(last, t.now) then t.now else last;
      if QuitPressed(t.key) then Stop(Quit, PassActions(last, t)) else Next(last', PassActions(last, t))
  }

  /** The passes of the loop from position `i` of the trace, with `last_capture_time == last`, before cleanup. */
  function RunAt(trace: seq<Tick>, i: nat, last: real): Run
    decreases |trace| - i
  {
    if i >= |trace| then Run([], TraceEnded)
    else match Step(last, trace[i])
      case Stop(exit, actions) => Run(actions, exit)
      case Next(last', actions) =>
        var rest := RunAt(trace, i + 1, last');
        Run(actions + rest.actions, rest.exit)
  }

  /** `main`: `last_capture_time = 0`, the loop, and the `finally` that releases the camera. */
  function MainRun(trace: seq<Tick>): Run
  {
    var r := RunAt(trace, 0, 0.0);
    Run(r.actions + [Released], r.exit)
  }

  function CountSwitched(actions: seq<Action>): nat
  {
    if actions == [] then 0
    else (if actions[0].Switched? then 1 else 0) + CountSwitched(actions[1..])
  }

  function CountCaptured(actions: seq<Action>): nat
  {
    if actions == [] then 0
    else (if actions[0].Captured? then 1 else 0) + CountCaptured(actions[1..])
  }

  /** The times of the captures, in order. */
  function CaptureTimes(actions: seq<Action>): seq<real>
  {
    if actions == [] then []
    else (if actions[0].Captured? then [actions[0].at] else []) + CaptureTimes(actions[1..])
  }

  function Repeat<T>(s: seq<T>, n: nat): seq<T>
  {
    if n == 0 then [] else Repeat(s, n - 1) + s
  }

  /** The messages switcher.py broadcasts for a run: one device-change broadcast per switch. */
  function Broadcasts(actions: seq<Action>): seq<WindowMessage>
  {
    if actions == [] then []
    else (if actions[0].Switched? then [DEVICE_CHANGE_BROADCAST] else []) + Broadcasts(actions[1..])
  }

  /** Captures are at least one interval after `last` and at least one interval apart. */
  ghost predicate SpacedFrom(times: seq<real>, last: real)
  {
    && (|times| > 0 ==> times[0] - last >= INTERVAL)
    && forall k :: 0 <= k < |times| - 1 ==> times[k + 1] - times[k] >= INTERVAL
  }

  /** Every `Switched` directly follows the `Captured` of the same pass. */
  ghost predicate SwitchesFollowCaptures(actions: seq<Action>)
  {
    forall k :: 0 <= k < |actions| && actions[k].Switched? ==> 0 < k && actions[k - 1] == Captured(actions[k].at)
  }

  lemma AppendAssoc<T>(a: seq<T>, b: seq<T>, c: seq<T>)
    ensures (a + b) + c == a + (b + c)
  {
  }

  lemma {:induction false} CaptureTimesAppend(a: seq<Action>, b: seq<Action>)
    ensures CaptureTimes(a + b) == CaptureTimes(a) + CaptureTimes(b)
  {
    if a != [] {
      assert (a + b)[1..] == a[1..] + b;
      CaptureTimesAppend(a[1..], b);
    } else {
      assert a + b == b;
    }
  }

  lemma {:induction false} CountsAppend(a: seq<Action>, b: seq<Action>)
    ensures CountSwitched(a + b) == CountSwitched(a) + CountSwitched(b)
    ensures CountCaptured(a + b) == CountCaptured(a) + CountCaptured(b)
  {
    if a != [] {
      assert (a + b)[1..] == a[1..] + b;
      CountsAppend(a[1..], b);
    } else {
      assert a + b == b;
    }
  }

  /** Appending a non-switch action leaves the switch count alone; appending a switch adds one. */
  lemma CountSwitchedSnoc(log: seq<Action>, a: Action)
    ensures CountSwitched(log + [a]) == CountSwitched(log) + if a.Switched? then 1 else 0
  {
    CountsAppend(log, [a]);
  }

  /** switcher.py broadcasts the one device-change message once per switch, and nothing else. */
  lemma {:induction false} BroadcastPerSwitch(actions: seq<Action>)
    ensures |Broadcasts(actions)| == CountSwitched(actions)
    ensures forall m <- Broadcasts(actions) :: m == DEVICE_CHANGE_BROADCAST
  {
    if actions != [] {
      BroadcastPerSwitch(actions[1..]);
    }
  }

  lemma BroadcastsSnoc(log: seq<Action>, a: Action)
    ensures a.Switched? ==> Broadcasts(log + [a]) == Broadcasts(log) + [DEVICE_CHANGE_BROADCAST]
    ensures !a.Switched? ==> Broadcasts(log + [a]) == Broadcasts(log)
  {
    if log != [] {
      assert (log + [a])[1..] == log[1..] + [a];
      BroadcastsSnoc(log[1..], a);
    } else {
      assert [a][1..] == [];
    }
  }

  /** A pass captures a frame exactly when one is due and `cap.read()` succeeded. */
  lemma StepCaptures(last: real, t: Tick, x: real)
    ensures Captured(x) in Step(last, t).actions <==> Due(last, t.now) && t.frameRead && x == t.now
  {
  }

  /**
   * A pass calls the switch exactly when it captured a frame and the reply's
   * `predictions` satisfy `has_headphones`; at most once, however many predictions qualify.
   */
  lemma StepSwitches(last: real, t: Tick)
    ensures CountSwitched(Step(last, t).actions) == if Due(last, t.now) && t.frameRead && WantsSwitch(t.reply) then 1 else 0
  {
    var a := Step(last, t).actions;
    if Due(last, t.now) && t.frameRead {
      var tail := if WantsSwitch(t.reply) then [Switched(t.now)] else [];
      assert a == [Captured(t.now)] + tail;
      assert a[1..] == tail;
      if tail != [] {
        assert tail[1..] == [];
        assert CountSwitched(tail) == 1;
      }
    } else {
      assert a == [];
    }
  }

  /**
   * After a pass that captured a frame, `last_capture_time` is that pass's
   * clock reading whatever the reply was; after any other continuing pass it is unchanged.
   */
  lemma StepUpdatesLast(last: real, t: Tick)
    requires !QuitPressed(t.key)
    requires !Due(last, t.now) || t.frameRead
    ensures Step(last, t).Next?
    ensures Step(last, t).last == if Due(last, t.now) then t.now else last
  {
  }

  /** A failed camera read on a due pass ends the loop at once, with nothing captured. */
  lemma StepReadFailure(last: real, t: Tick)
    requires Due(last, t.now) && !t.frameRead
    ensures Step(last, t) == Stop(ReadFailed, [])
  {
  }

  /** The quit key ends the loop whether or not the pass captured a frame. */
  lemma StepQuit(last: real, t: Tick)
    requires QuitPressed(t.key)
    ensures Step(last, t).Stop?
    ensures Step(last, t).exit == if Due(last, t.now) && !t.frameRead then ReadFailed else Quit
  {
  }

  lemma {:induction false} MulAtLeast(k: nat, d: nat)
    requires d >= 1
    ensures k * d >= k
    decreases d
  {
    if d > 1 {
      MulAtLeast(k, d - 1);
      assert k * d == k * (d - 1) + k;
    }
  }

  /** A quotient and remainder in range are the ones `/` and `%` give. */
  lemma ModUnique(x: int, k: int, q: int, r: int)
    requires k > 0 && x == k * q + r && 0 <= r < k
    ensures x % k == r
  {
    var q', r' := x / k, x % k;
    assert x == k * q' + r';
    assert k * q' - k * q == k * (q' - q);
    if q' > q {
      MulAtLeast(k, q' - q);
    } else if q' < q {
      MulAtLeast(k, q - q');
    }
  }

  lemma ModDouble(x: int, p: nat)
    requires p > 0
    ensures x % (2 * p) == 2 * ((x / 2) % p) + x % 2
  {
    var h := x / 2;
    var q, r := h / p, h % p;
    assert h == p * q + r;
    assert x == 2 * h + x % 2;
    assert 2 * h == (2 * p) * q + 2 * r;
    ModUnique(x, 2 * p, q, 2 * r + x % 2);
  }

  /** Masking with `n` one bits keeps `x` modulo `2^n`, also for negative `x`. */
  lemma {:induction false} LowBits(x: int, n: nat)
    ensures BitAnd(x, Pow2(n) - 1) == x % Pow2(n)
    decreases n
  {
    if n > 0 {
      assert (Pow2(n) - 1) / 2 == Pow2(n - 1) - 1;
      assert (Pow2(n) - 1) % 2 == 1;
      LowBits(x / 2, n - 1);
      ModDouble(x, Pow2(n - 1));
    }
  }

  /** The quit test is the source's bitwise test: `key & 0xFF` is `key` modulo 256. */
  lemma QuitPressedMasksLowByte(key: int)
    ensures QuitPressed(key) <==> BitAnd(key, 0xFF) == QUIT_KEY
  {
    assert Pow2(8) == 256;
    LowBits(key, 8);
  }

  /** A key code with extra high bits set still quits; `-1` (no key) and `Q` do not. */
  lemma QuitKeyMask()
    ensures QuitPressed(113) && QuitPressed(113 + 256) && QuitPressed(113 - 256)
    ensures !QuitPressed(-1) && !QuitPressed(81)
  {
  }

  /** Captures happen only on due passes: consecutive captures are at least `INTERVAL` apart. */
  lemma {:induction false} CapturesSpaced(trace: seq<Tick>, i: nat, last: real)
    ensures SpacedFrom(CaptureTimes(RunAt(trace, i, last).actions), last)
    decreases |trace| - i
  {
    if i < |trace| {
      var t := trace[i];
      match Step(last, t)
      case Stop(exit, actions) =>
        if actions != [] {
          assert actions == [Captured(t.now)] + actions[1..];
          CaptureTimesAppend([Captured(t.now)], actions[1..]);
        }
      case Next(last', actions) =>
        var rest := RunAt(trace, i + 1, last').actions;
        CapturesSpaced(trace, i + 1, last');
        CaptureTimesAppend(actions, rest);
        if Due(last, t.now) {
          assert actions == [Captured(t.now)] + actions[1..];
          CaptureTimesAppend([Captured(t.now)], actions[1..]);
          assert CaptureTimes(actions) == [t.now];
        } else {
          assert actions == [];
        }
    }
  }

  /** Every switch call directly follows the capture of the frame it was decided on. */
  lemma {:induction false} SwitchesFollowTheirCapture(trace: seq<Tick>, i: nat, last: real)
    ensures SwitchesFollowCaptures(RunAt(trace, i, last).actions)
    decreases |trace| - i
  {
    if i < |trace| {
      match Step(last, trace[i])
      case Stop(exit, actions) =>
      case Next(last', actions) =>
        var rest := RunAt(trace, i + 1, last').actions;
        SwitchesFollowTheirCapture(trace, i + 1, last');
        var all := actions + rest;
        forall k | 0 <= k < |all| && all[k].Switched?
          ensures 0 < k && all[k - 1] == Captured(all[k].at)
        {
          if k >= |actions| {
            assert all[k] == rest[k - |actions|];
            if k == |actions| {
              assert false;
            }
          }
        }
    }
  }

  /** The switch is called at most once per captured frame. */
  lemma {:induction false} AtMostOneSwitchPerCapture(trace: seq<Tick>, i: nat, last: real)
    ensures CountSwitched(RunAt(trace, i, last).actions) <= CountCaptured(RunAt(trace, i, last).actions)
    decreases |trace| - i
  {
    if i < |trace| {
      var t := trace[i];
      var actions := Step(last, t).actions;
      StepSwitches(last, t);
      if Due(last, t.now) && t.frameRead {
        assert actions == [Captured(t.now)] + actions[1..];
        CountsAppend([Captured(t.now)], actions[1..]);
      }
      match Step(last, t)
      case Stop(exit, _) =>
      case Next(last', _) =>
        AtMostOneSwitchPerCapture(trace, i + 1, last');
        CountsAppend(actions, RunAt(trace, i + 1, last').actions);
    }
  }

  /** With no reply whose predictions qualify, the switch is never called. */
  lemma {:induction false} NoQualifyingReplyNoSwitch(trace: seq<Tick>, i: nat, last: real)
    requires forall j :: 0 <= j < |trace| ==> !WantsSwitch(trace[j].reply)
    ensures CountSwitched(RunAt(trace, i, last).actions) == 0
    decreases |trace| - i
  {
    if i < |trace| {
      StepSwitches(last, trace[i]);
      match Step(last, trace[i])
      case Stop(exit, _) =>
      case Next(last', actions) =>
        NoQualifyingReplyNoSwitch(trace, i + 1, last');
        CountsAppend(actions, RunAt(trace, i + 1, last').actions);
    }
  }

  /** The loop itself never releases the camera. */
  lemma {:induction false} LoopNeverReleases(trace: seq<Tick>, i: nat, last: real)
    ensures Released !in RunAt(trace, i, last).actions
    decreases |trace| - i
  {
    if i < |trace| {
      match Step(last, trace[i])
      case Stop(exit, _) =>
      case Next(last', actions) =>
        LoopNeverReleases(trace, i + 1, last');
    }
  }

  /** On every exit path, the read failure included, the camera is released exactly once, last. */
  lemma ReleasedOnceAtEnd(trace: seq<Tick>)
    ensures |MainRun(trace).actions| > 0
    ensures MainRun(trace).actions[|MainRun(trace).actions| - 1] == Released
    ensures Released !in MainRun(trace).actions[..|MainRun(trace).actions| - 1]
  {
    var r := RunAt(trace, 0, 0.0);
    LoopNeverReleases(trace, 0, 0.0);
    assert MainRun(trace).actions[..|r.actions|] == r.actions;
  }

  /**
   * Three frames a third of a second apart, only the second of which shows
   * "Headphones" at 0.92: the switch is called once, right after the second capture.
   */
  lemma SecondFrameSwitchesOnce()
    ensures
      var none := SuccessBody([], "/output_images/a.jpg");
      var hit := SuccessBody([Prediction("Headphones", 0.92, [])], "/output_images/b.jpg");
      var trace := [Tick(1.0 / 3.0, true, Received(none), -1),
                    Tick(2.0 / 3.0, true, Received(hit), -1),
                    Tick(1.0, true, Received(none), -1)];
      MainRun(trace).actions == [Captured(1.0 / 3.0), Captured(2.0 / 3.0), Switched(2.0 / 3.0), Captured(1.0), Released]
  {
    var none := SuccessBody([], "/output_images/a.jpg");
    var hit := SuccessBody([Prediction("Headphones", 0.92, [])], "/output_images/b.jpg");
    assert Lower("Headphones") == "headphones";
    assert HasHeadphones(hit.predictions);
    var trace := [Tick(1.0 / 3.0, true, Received(none), -1),
                  Tick(2.0 / 3.0, true, Received(hit), -1),
                  Tick(1.0, true, Received(none), -1)];
    assert RunAt(trace, 3, 1.0) == Run([], TraceEnded);
    assert RunAt(trace, 2, 2.0 / 3.0) == Run([Captured(1.0)], TraceEnded);
    assert RunAt(trace, 1, 1.0 / 3.0) == Run([Captured(2.0 / 3.0), Switched(2.0 / 3.0), Captured(1.0)], TraceEnded);
    assert RunAt(trace, 0, 0.0) == Run([Captured(1.0 / 3.0), Captured(2.0 / 3.0), Switched(2.0 / 3.0), Captured(1.0)], TraceEnded);
  }

  /** A due pass whose camera read failed ends the loop with nothing more done. */
  lemma PassReadFails(trace: seq<Tick>, i: nat, last: real)
    requires i < |trace| && Due(last, trace[i].now) && !trace[i].frameRead
    ensures RunAt(trace, i, last) == Run([], ReadFailed)
  {
  }

  /**
   * Any other pass does its actions, then either quits or continues with
   * `last_capture_time` moved to the clock reading if it captured.
   */
  lemma PassCompletes(trace: seq<Tick>, i: nat, last: real, last': real, before: seq<Action>, added: seq<Action>)
    requires i < |trace| && (!Due(last, trace[i].now) || trace[i].frameRead)
    requires added == PassActions(last, trace[i])
    requires last' == if Due(last, trace[i].now) then trace[i].now else last
    ensures QuitPressed(trace[i].key) ==> RunAt(trace, i, last) == Run(added, Quit)
    ensures !QuitPressed(trace[i].key) ==>
      && before + RunAt(trace, i, last).actions == (before + added) + RunAt(trace, i + 1, last').actions
      && RunAt(trace, i, last).exit == RunAt(trace, i + 1, last').exit
  {
    AppendAssoc(before, added, RunAt(trace, i + 1, last').actions);
  }

  lemma {:induction false} BroadcastsAppend(a: seq<Action>, b: seq<Action>)
    ensures Broadcasts(a + b) == Broadcasts(a) + Broadcasts(b)
  {
    if a != [] {
      assert (a + b)[1..] == a[1..] + b;
      BroadcastsAppend(a[1..], b);
    } else {
      assert a + b == b;
    }
  }

  /**
   * Lines 70-96 of `main` in switcher.py: when a capture is due, read a frame
   * (stopping on failure), send it, broadcast the device change if the reply
   * shows headphones, and move `last_capture_time`.
   */
  method RootPass(last: real, t: Tick) returns (added: seq<Action>, last': real, readFailed: bool, sent: seq<WindowMessage>)
    ensures readFailed <==> Due(last, t.now) && !t.frameRead
    ensures readFailed ==> added == [] && sent == []
    ensures !readFailed ==> added == PassActions(last, t) && last' == if Due(last, t.now) then t.now else last
    ensures sent == Broadcasts(added)
  {
    added, last', readFailed, sent := [], last, false, [];
    var currentTime := t.now;
    if currentTime - last >= INTERVAL {
      if !t.frameRead {
        readFailed := true;
        return;
      }
      added := [Captured(currentTime)];
      BroadcastsSnoc([], Captured(currentTime));
      if WantsSwitch(t.reply) {
        BroadcastsSnoc(added, Switched(currentTime));
        added := added + [Switched(currentTime)];
        sent := [DEVICE_CHANGE_BROADCAST];
      }
      last' := currentTime;
    }
  }

  /** `main` in switcher.py: every switch broadcasts the device-change message. */
  method RootMain(trace: seq<Tick>) returns (log: seq<Action>, exit: Exit, sent: seq<WindowMessage>)
    ensures Run(log, exit) == MainRun(trace)
    ensures sent == Broadcasts(log)
  {
    var lastCaptureTime := 0.0;
    log, exit, sent := [], TraceEnded, [];
    var i := 0;
    ghost var spec := RunAt(trace, 0, 0.0);
    while i < |trace|
      invariant 0 <= i <= |trace|
      invariant log + RunAt(trace, i, lastCaptureTime).actions == spec.actions
      invariant RunAt(trace, i, lastCaptureTime).exit == spec.exit
      invariant sent == Broadcasts(log)
    {
      var t := trace[i];
      var added, last', readFailed, broadcast := RootPass(lastCaptureTime, t);
      if readFailed {
        PassReadFails(trace, i, lastCaptureTime);
        exit := ReadFailed;
        break;
      }
      PassCompletes(trace, i, lastCaptureTime, last', log, added);
      BroadcastsAppend(log, added);
      log, sent, lastCaptureTime := log + added, sent + broadcast, last';
      if QuitPressed(t.key) {
        exit := Quit;
        break;
      }
      i := i + 1;
    }
    BroadcastsAppend(log, [Released]);
    log := log + [Released];
  }

  /**
   * The default device after `n` calls of the pycaw `switch_to_headphones()`,
   * each of which sets the `chosen` device if there is one.
   */
  function DefaultAfter(chosen: seq<Device>, current: Option<Device>, n: nat): Option<Device>
  {
    if n > 0 && chosen != [] then Some(chosen[0]) else current
  }

  lemma {:induction false} RepeatAppend<T>(s: seq<T>, m: nat, n: nat)
    ensures Repeat(s, m) + Repeat(s, n) == Repeat(s, m + n)
    decreases n
  {
    if n == 0 {
      assert Repeat(s, m) + [] == Repeat(s, m);
    } else {
      RepeatAppend(s, m, n - 1);
      AppendAssoc(Repeat(s, m), Repeat(s, n - 1), s);
    }
  }

  /** `m` switches and then `n` more leave the same history and default as `m + n` switches. */
  lemma SwitchesCompose(chosen: seq<Device>, history: seq<Device>, current: Option<Device>, m: nat, n: nat)
    ensures history + Repeat(chosen, m) + Repeat(chosen, n) == history + Repeat(chosen, m + n)
    ensures DefaultAfter(chosen, DefaultAfter(chosen, current, m), n) == DefaultAfter(chosen, current, m + n)
  {
    RepeatAppend(chosen, m, n);
    AppendAssoc(history, Repeat(chosen, m), Repeat(chosen, n));
  }

  /**
   * Lines 60-86 of `main` in client/switcher.py: as in switcher.py, but a
   * switch runs the pycaw scan for the default target "Headphones".
   */
  method ClientPass(last: real, t: Tick, audio: AudioSystem) returns (added: seq<Action>, last': real, readFailed: bool)
    modifies audio
    ensures readFailed <==> Due(last, t.now) && !t.frameRead
    ensures readFailed ==> added == []
    ensures !readFailed ==> added == PassActions(last, t) && last' == if Due(last, t.now) then t.now else last
    ensures audio.devices == old(audio.devices)
    ensures audio.setLog == old(audio.setLog) + Repeat(Chosen(audio.devices, DEFAULT_TARGET), CountSwitched(added))
    ensures audio.defaultDevice == DefaultAfter(Chosen(audio.devices, DEFAULT_TARGET), old(audio.defaultDevice), CountSwitched(added))
  {
    added, last', readFailed := [], last, false;
    var currentTime := t.now;
    if currentTime - last >= INTERVAL {
      if !t.frameRead {
        readFailed := true;
        return;
      }
      added := [Captured(currentTime)];
      if WantsSwitch(t.reply) {
        CountSwitchedSnoc([], Captured(currentTime));
        CountSwitchedSnoc(added, Switched(currentTime));
        added := added + [Switched(currentTime)];
        audio.SwitchToHeadphones(DEFAULT_TARGET);
      }
      last' := currentTime;
    }
  }

  /**
   * `main` in client/switcher.py: every switch runs the pycaw scan for the
   * default target "Headphones" over the devices the system enumerates.
   */
  method ClientMain(trace: seq<Tick>, audio: AudioSystem) returns (log: seq<Action>, exit: Exit)
    modifies audio
    ensures Run(log, exit) == MainRun(trace)
    ensures audio.devices == old(audio.devices)
    ensures audio.setLog == old(audio.setLog) + Repeat(Chosen(audio.devices, DEFAULT_TARGET), CountSwitched(log))
    ensures audio.defaultDevice == DefaultAfter(Chosen(audio.devices, DEFAULT_TARGET), old(audio.defaultDevice), CountSwitched(log))
  {
    var lastCaptureTime := 0.0;
    log, exit := [], TraceEnded;
    var i := 0;
    ghost var spec := RunAt(trace, 0, 0.0);
    ghost var chosen, history, initial := Chosen(audio.devices, DEFAULT_TARGET), audio.setLog, audio.defaultDevice;
    while i < |trace|
      invariant 0 <= i <= |trace|
      invariant log + RunAt(trace, i, lastCaptureTime).actions == spec.actions
      invariant RunAt(trace, i, lastCaptureTime).exit == spec.exit
      invariant audio.devices == old(audio.devices)
      invariant audio.setLog == history + Repeat(chosen, CountSwitched(log))
      invariant audio.defaultDevice == DefaultAfter(chosen, initial, CountSwitched(log))
    {
      var t := trace[i];
      ghost var m := CountSwitched(log);
      var added, last', readFailed := ClientPass(lastCaptureTime, t, audio);
      if readFailed {
        PassReadFails(trace, i, lastCaptureTime);
        exit := ReadFailed;
        break;
      }
      PassCompletes(trace, i, lastCaptureTime, last', log, added);
      CountsAppend(log, added);
      SwitchesCompose(chosen, history, initial, m, CountSwitched(added));
      log, lastCaptureTime := log + added, last';
      if QuitPressed(t.key) {
        exit := Quit;
        break;
      }
      i := i + 1;
    }
    ghost var n := CountSwitched(log);
    CountSwitchedSnoc(log, Released);
    log := log + [Released];
    assert CountSwitched(log) == n;
  }
}
