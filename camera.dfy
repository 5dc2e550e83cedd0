/**
 * The QR side of the camera reader (src/hardware/camera_thread.py): of the
 * codes decoded in a frame only the first counts, and a code equal to the last
 * one emitted is suppressed unless more than the cooldown has passed since.
 * Capturing and decoding frames is left to the caller: a frame is the list of
 * decoded objects, each the UTF-8 text of its data or nothing when that text
 * does not decode, and the clock reading `time.time()` at that point.
 */
module Camera {
  import opened Wrappers

  /** `_qr_cooldown`, in seconds. */
  const Cooldown: real := 3.0

  /** What the reader remembers: `_last_qr_data` and `_last_qr_time`. */
  datatype Memory = Memory(lastData: Option<string>, lastTime: real)

  /** The memory a new reader starts with (no code yet, time 0). */
  const Initial: Memory := Memory(None, 0.0)

  /** The test in front of `emit`: a different code, or the cooldown has passed. */
  predicate Fires(m: Memory, qr: string, now: real)
  {
    m.lastData != Some(qr) || now - m.lastTime > Cooldown
  }

  /** One decoded frame: the decoded objects in order, and the clock reading. */
  datatype Sighting = Sighting(decoded: seq<Option<string>>, now: real)

  /**
   * The effect of one frame: the new memory and the code emitted, if any.  A
   * frame without objects, or whose first object does not decode (the
   * exception is caught and printed), changes nothing.
   */
  function Step(m: Memory, f: Sighting): (r: (Memory, Option<string>))
    ensures r.1.None? ==> r.0 == m
    ensures r.1.Some? ==> |f.decoded| > 0 && f.decoded[0] == r.1 && Fires(m, r.1.value, f.now) &&
                          r.0 == Memory(r.1, f.now)
    ensures |f.decoded| > 0 && f.decoded[0].Some? && Fires(m, f.decoded[0].value, f.now) ==> r.1.Some?
  {
    if |f.decoded| == 0 then (m, None)
    else
      match f.decoded[0]
      case None => (m, None)
      case Some(qr) => if Fires(m, qr, f.now) then (Memory(Some(qr), f.now), Some(qr)) else (m, None)
  }

  /** The codes emitted over a run of frames, each with the clock reading it was emitted at, and the final memory. */
  function Run(m: Memory, fs: seq<Sighting>): (Memory, seq<(string, real)>)
    decreases |fs|
  {
    if fs == [] then (m, [])
    else
      var s := Step(m, fs[0]);
      var rest := Run(s.0, fs[1..]);
      (rest.0, (if s.1.Some? then [(s.1.value, fs[0].now)] else []) + rest.1)
  }

  /** The memory after a run is its last emission, or the starting memory when nothing was emitted. */
  lemma {:induction false} RunRemembersLast(m: Memory, fs: seq<Sighting>)
    ensures var r := Run(m, fs);
            r.1 == [] ==> r.0 == m
    ensures var r := Run(m, fs);
            r.1 != [] ==> r.0 == Memory(Some(r.1[|r.1| - 1].0), r.1[|r.1| - 1].1)
    decreases |fs|
  {
    if fs != [] {
      RunRemembersLast(Step(m, fs[0]).0, fs[1..]);
    }
  }

  /** An emission repeating the code emitted just before it comes more than the cooldown after that one. */
  predicate Spaced(e: seq<(string, real)>)
  {
    forall k :: 0 < k < |e| && e[k].0 == e[k - 1].0 ==> e[k].1 - e[k - 1].1 > Cooldown
  }

  /** An emission in front of spaced ones keeps them spaced when it is spaced from the first of them. */
  lemma SpacedCons(x: (string, real), r: seq<(string, real)>)
    requires Spaced(r)
    requires |r| > 0 && r[0].0 == x.0 ==> r[0].1 - x.1 > Cooldown
    ensures Spaced([x] + r)
  {
    var e := [x] + r;
    forall k | 0 < k < |e| && e[k].0 == e[k - 1].0 ensures e[k].1 - e[k - 1].1 > Cooldown {
      if k > 1 {
        assert e[k] == r[k - 1] && e[k - 1] == r[k - 2];
      }
    }
  }

  /**
   * Over any run, the emissions are spaced; the first emission of a run that
   * repeats the remembered code comes more than the cooldown after it too.
   */
  lemma {:induction false} RepeatsAreSpaced(m: Memory, fs: seq<Sighting>)
    ensures Spaced(Run(m, fs).1)
    ensures var e := Run(m, fs).1;
            |e| > 0 && m.lastData == Some(e[0].0) ==> e[0].1 - m.lastTime > Cooldown
    decreases |fs|
  {
    if fs != [] {
      var s := Step(m, fs[0]);
      var rest := Run(s.0, fs[1..]);
      RepeatsAreSpaced(s.0, fs[1..]);
      if s.1.Some? {
        SpacedCons((s.1.value, fs[0].now), rest.1);
      }
    }
  }

  /** A new reader emits the first code it decodes. */
  lemma FirstCodeEmitted(qr: string, rest: seq<Option<string>>, now: real)
    ensures Step(Initial, Sighting([Some(qr)] + rest, now)) == (Memory(Some(qr), now), Some(qr))
  {
  }

  /** A code other than the last one emitted is emitted whatever the time. */
  lemma NewCodeEmitted(m: Memory, qr: string, rest: seq<Option<string>>, now: real)
    requires m.lastData != Some(qr)
    ensures Step(m, Sighting([Some(qr)] + rest, now)) == (Memory(Some(qr), now), Some(qr))
  {
  }

  /** The last code seen again within the cooldown is suppressed and nothing is remembered. */
  lemma RepeatSuppressed(m: Memory, qr: string, rest: seq<Option<string>>, now: real)
    requires m.lastData == Some(qr) && now - m.lastTime <= Cooldown
    ensures Step(m, Sighting([Some(qr)] + rest, now)) == (m, None)
  {
  }

  /** Only the first object counts: what follows it never changes the outcome. */
  lemma OnlyFirstObject(m: Memory, first: Option<string>, a: seq<Option<string>>, b: seq<Option<string>>, now: real)
    ensures Step(m, Sighting([first] + a, now)) == Step(m, Sighting([first] + b, now))
  {
  }

  /** The de-duplicating part of `CameraThread`. */
  class QrDebouncer {
    var lastQrData: Option<string>
    var lastQrTime: real

    /** `_last_qr_data = None`, `_last_qr_time = 0`. */
    constructor ()
      ensures Memory(lastQrData, lastQrTime) == Initial
    {
      lastQrData, lastQrTime := None, 0.0;
    }

    /** The QR handling of one pass of the camera loop: returns the code `qr_decoded` emits, if any. */
    method OnFrame(decoded: seq<Option<string>>, now: real) returns (emitted: Option<string>)
      modifies this
      ensures (Memory(lastQrData, lastQrTime), emitted) == Step(old(Memory(lastQrData, lastQrTime)), Sighting(decoded, now))
    {
      emitted := None;
      if |decoded| > 0 {
        match decoded[0] {
          case Some(qrData) =>
            if Some(qrData) != lastQrData || now - lastQrTime > Cooldown {
              lastQrData := Some(qrData);
              lastQrTime := now;
              emitted := Some(qrData);
            }
          case None =>
        }
      }
    }
  }
}
