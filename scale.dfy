/**
 * The scale reader (src/hardware/weight_thread.py): the serial line carries
 * frames `STX <ASCII weight> ETX`; each read is appended to a buffer and every
 * complete frame is cut out of it and reported as an integer weight.
 */
module Scale {
  import opened Wrappers
  import opened Json
  import Text

  type byte = x: int | 0 <= x < 256

  /** Start of text, `b'\x02'`. */
  const STX: byte := 2
  /** End of text, `b'\x03'`. */
  const ETX: byte := 3
  /** A buffer longer than this is thrown away. */
  const MaxBuffer: nat := 256

  /** `bytearray.find(b)`: the first index holding `b`, or -1 (`FindFirst`). */
  function Find(buf: seq<byte>, b: byte): (r: int)
    ensures -1 <= r < |buf|
    ensures r >= 0 ==> buf[r] == b
  {
    FindFrom(buf, b, 0)
  }

  /** The first index from `i` on that holds `b`, or -1. */
  function FindFrom(buf: seq<byte>, b: byte, i: nat): (r: int)
    requires i <= |buf|
    ensures -1 <= r < |buf|
    ensures r >= 0 ==> i <= r && buf[r] == b
    decreases |buf| - i
  {
    if i == |buf| then -1 else if buf[i] == b then i else FindFrom(buf, b, i + 1)
  }

  /** No index from `i` on before the one found holds `b`; with -1, none at all does. */
  lemma {:induction false} FindFromFirst(buf: seq<byte>, b: byte, i: nat)
    requires i <= |buf|
    ensures var r := FindFrom(buf, b, i);
            forall j :: i <= j < |buf| && (r == -1 || j < r) ==> buf[j] != b
    decreases |buf| - i
  {
    if i < |buf| && buf[i] != b {
      FindFromFirst(buf, b, i + 1);
    }
  }

  /** `Find` gives the first occurrence: every earlier byte differs, and -1 means `b` is absent. */
  lemma FindFirst(buf: seq<byte>, b: byte)
    ensures Find(buf, b) >= 0 ==> buf[Find(buf, b)] == b && b !in buf[..Find(buf, b)]
    ensures Find(buf, b) == -1 <==> b !in buf
  {
    FindFromFirst(buf, b, 0);
    var r := Find(buf, b);
    if r >= 0 {
      assert forall j :: 0 <= j < r ==> buf[j] != b;
      assert forall j :: 0 <= j < r ==> buf[..r][j] == buf[j];
    }
  }

  /** The first occurrence found is the only one before it. */
  lemma FindAt(buf: seq<byte>, b: byte, k: nat)
    requires k < |buf| && buf[k] == b && b !in buf[..k]
    ensures Find(buf, b) == k
  {
    FindFromFirst(buf, b, 0);
    forall j | 0 <= j < k ensures buf[j] != b {
      assert buf[..k][j] == buf[j];
    }
  }

  /** `bytes.decode('ascii')`: fails (UnicodeDecodeError) on any byte of 128 or more. */
  function DecodeAscii(bs: seq<byte>): (r: Option<string>)
    ensures r.Some? <==> forall i :: 0 <= i < |bs| ==> bs[i] < 128
    ensures r.Some? ==> |r.value| == |bs| && forall i :: 0 <= i < |bs| ==> r.value[i] as int == bs[i]
  {
    if forall i :: 0 <= i < |bs| ==> bs[i] < 128 then Some(seq(|bs|, i requires 0 <= i < |bs| => bs[i] as char))
    else None
  }

  /**
   * The weight a frame's payload gives: `int(payload.decode('ascii').strip())`,
   * or none when either step raises.  `int()` ignores surrounding whitespace
   * itself, so the explicit `strip()` changes nothing (`StripBeforeInt`).
   */
  function FrameWeight(payload: seq<byte>): Option<int>
  {
    match DecodeAscii(payload)
    case Some(s) => Text.PyInt(s)
    case None => None
  }

  /** Stripping before `int()` gives the same result as not stripping. */
  lemma StripBeforeInt(s: string)
    ensures Text.PyInt(Text.Strip(s)) == Text.PyInt(s)
  {
    Text.StripIdempotent(s);
  }

  /** The buffer holds a frame the reader cuts out: an STX found before the first ETX. */
  predicate HasFrame(buf: seq<byte>)
  {
    Find(buf, STX) != -1 && Find(buf, ETX) != -1 && Find(buf, STX) < Find(buf, ETX)
  }

  /** An emitted weight, or nothing for a payload that does not parse. */
  function Weights(w: Option<int>): seq<int>
  {
    if w.Some? then [w.value] else []
  }

  /**
   * How the inner `while True` loop cuts a buffer: the payloads of the frames
   * it finds, in order, and the buffer it leaves (ending on the last ETX used).
   */
  function Cut(buf: seq<byte>): (seq<seq<byte>>, seq<byte>)
    decreases |buf|
  {
    if HasFrame(buf) then
      var e := Find(buf, ETX);
      var rest := Cut(buf[e + 1..]);
      ([buf[Find(buf, STX) + 1..e]] + rest.0, rest.1)
    else ([], buf)
  }

  /** The weights of the payloads that parse, in order. */
  function Parsed(payloads: seq<seq<byte>>): seq<int>
  {
    if payloads == [] then [] else Weights(FrameWeight(payloads[0])) + Parsed(payloads[1..])
  }

  /** What the inner loop does to a buffer: the weights it reports and the buffer it leaves. */
  function Extract(buf: seq<byte>): (seq<int>, seq<byte>)
  {
    (Parsed(Cut(buf).0), Cut(buf).1)
  }

  /** The payload of the first frame of a buffer that holds one. */
  function FirstPayload(buf: seq<byte>): seq<byte>
    requires HasFrame(buf)
  {
    buf[Find(buf, STX) + 1..Find(buf, ETX)]
  }

  /** What follows the first frame's ETX. */
  function AfterFirst(buf: seq<byte>): seq<byte>
    requires HasFrame(buf)
  {
    buf[Find(buf, ETX) + 1..]
  }

  /** The weights `done` already reported, in front of what a buffer gives. */
  function After(done: seq<int>, x: (seq<int>, seq<byte>)): (seq<int>, seq<byte>)
  {
    (done + x.0, x.1)
  }

  /** One frame cut: its payload, then whatever the rest of the buffer gives, after the weights already reported. */
  lemma ExtractStep(done: seq<int>, buf: seq<byte>)
    requires HasFrame(buf)
    ensures After(done, Extract(buf)) == After(done + Weights(FrameWeight(FirstPayload(buf))), Extract(AfterFirst(buf)))
  {
    var ps := Cut(buf).0;
    assert ps == [FirstPayload(buf)] + Cut(AfterFirst(buf)).0;
    assert ps[1..] == Cut(AfterFirst(buf)).0;
    var w := Weights(FrameWeight(FirstPayload(buf)));
    assert Extract(buf).0 == w + Extract(AfterFirst(buf)).0;
    assert done + (w + Extract(AfterFirst(buf)).0) == (done + w) + Extract(AfterFirst(buf)).0;
  }

  /** A buffer without a frame reports nothing and is kept. */
  lemma ExtractNone(buf: seq<byte>)
    requires !HasFrame(buf)
    ensures Extract(buf) == ([], buf)
  {
  }

  /**
   * One turn of the inner loop on a buffer that holds a frame: the frame's
   * weight, if it parses, is reported and the buffer is cut after its ETX.
   */
  method TakeFrame(weights: seq<int>, rest: seq<byte>, startIndex: int, endIndex: int) returns (weights': seq<int>, rest': seq<byte>)
    requires startIndex == Find(rest, STX) && endIndex == Find(rest, ETX)
    requires startIndex != -1 && endIndex != -1 && startIndex < endIndex
    ensures After(weights, Extract(rest)) == After(weights', Extract(rest'))
    ensures |rest'| < |rest|
  {
    ExtractStep(weights, rest);
    weights' := weights + Weights(FrameWeight(rest[startIndex + 1..endIndex]));
    rest' := rest[endIndex + 1..];
  }

  /**
   * The inner `while True` loop: cut out the first frame while the buffer
   * holds one, reporting the weights that parse.
   */
  method CutFrames(buf: seq<byte>) returns (weights: seq<int>, rest: seq<byte>)
    ensures (weights, rest) == Extract(buf)
  {
    weights, rest := [], buf;
    assert [] + Extract(buf).0 == Extract(buf).0;
    while true
      invariant Extract(buf) == After(weights, Extract(rest))
      decreases |rest|
    {
      var startIndex := Find(rest, STX);
      var endIndex := Find(rest, ETX);
      if startIndex != -1 && endIndex != -1 && startIndex < endIndex {
        weights, rest := TakeFrame(weights, rest, startIndex, endIndex);
      } else {
        ExtractNone(rest);
        assert weights + [] == weights;
        return;
      }
    }
  }

  /**
   * One pass of the reading loop after `ser.read(32)` returned `data`:
   * non-empty data is appended and every complete frame cut out; then a
   * buffer over 256 bytes is cleared.
   */
  method ReadIteration(buffer: seq<byte>, data: seq<byte>) returns (next: seq<byte>, weights: seq<int>)
    ensures data == [] ==> weights == [] && next == (if |buffer| > MaxBuffer then [] else buffer)
    ensures data != [] ==> var x := Extract(buffer + data);
                           weights == x.0 && next == (if |x.1| > MaxBuffer then [] else x.1)
    ensures |next| <= MaxBuffer
  {
    next, weights := buffer, [];
    if data != [] {
      weights, next := CutFrames(buffer + data);
    }
    if |next| > MaxBuffer {
      next := [];
    }
  }

  /**
   * What is left in the buffer is a suffix of it (bytes are only ever dropped
   * from the front) and holds no frame the reader would cut.
   */
  lemma {:induction false} CutLeavesSuffix(buf: seq<byte>)
    ensures exists k :: 0 <= k <= |buf| && Cut(buf).1 == buf[k..]
    ensures !HasFrame(Cut(buf).1)
    decreases |buf|
  {
    if HasFrame(buf) {
      var tail := AfterFirst(buf);
      assert Cut(buf).1 == Cut(tail).1;
      CutLeavesSuffix(tail);
      var k :| 0 <= k <= |tail| && Cut(tail).1 == tail[k..];
      assert tail[k..] == buf[Find(buf, ETX) + 1 + k..];
    } else {
      assert Cut(buf).1 == buf[0..];
    }
  }

  /** The bytes of a text, one per character (its low eight bits; the identity on ASCII). */
  function Ascii(s: string): (r: seq<byte>)
    ensures |r| == |s|
  {
    seq(|s|, i requires 0 <= i < |s| => (s[i] as int) % 256)
  }

  /** The text a scale sends for a weight: space padding, then the decimal digits. */
  function Reading(pad: nat, w: int): string
  {
    seq(pad, _ => ' ') + Text.IntToString(w)
  }

  /** The payload of a scale's frame for a weight. */
  function Payload(pad: nat, w: int): seq<byte>
  {
    Ascii(Reading(pad, w))
  }

  /** The frame a scale sends for a weight. */
  function Frame(pad: nat, w: int): seq<byte>
  {
    [STX] + Payload(pad, w) + [ETX]
  }

  /** Padding then sign and digits: the text a scale sends, none of whose characters is STX or ETX. */
  predicate Clean(t: string)
  {
    forall i :: 0 <= i < |t| ==> t[i] == ' ' || t[i] == '-' || Text.IsDigit(t[i])
  }

  /** Such a text is ASCII, so its bytes decode back to it, and neither STX nor ETX is among them. */
  lemma CleanBytes(t: string)
    requires Clean(t)
    ensures DecodeAscii(Ascii(t)) == Some(t)
    ensures STX !in Ascii(t) && ETX !in Ascii(t)
  {
    var bs := Ascii(t);
    assert forall i :: 0 <= i < |t| ==> bs[i] == t[i] as int;
    assert DecodeAscii(bs).value == t;
  }

  /** Padding in front of a sign-and-digits text keeps it clean. */
  lemma PaddedClean(pad: nat, d: string)
    requires forall k :: 0 <= k < |d| ==> d[k] == '-' || Text.IsDigit(d[k])
    ensures Clean(seq(pad, _ => ' ') + d)
  {
    var t := seq(pad, _ => ' ') + d;
    forall i | 0 <= i < |t| ensures t[i] == ' ' || t[i] == '-' || Text.IsDigit(t[i]) {
      if i >= pad {
        assert t[i] == d[i - pad];
      }
    }
  }

  /** A reading is ASCII, so its bytes decode back to it, and none of them is STX or ETX. */
  lemma ReadingBytes(pad: nat, w: int)
    ensures DecodeAscii(Payload(pad, w)) == Some(Reading(pad, w))
    ensures STX !in Payload(pad, w) && ETX !in Payload(pad, w)
  {
    Text.RenderingChars(w);
    PaddedClean(pad, Text.IntToString(w));
    CleanBytes(Reading(pad, w));
  }

  /** Leading padding is dropped by `lstrip()`. */
  lemma {:induction false} TrimPadding(pad: nat, s: string)
    ensures Text.TrimStart(seq(pad, _ => ' ') + s) == Text.TrimStart(s)
  {
    if pad > 0 {
      var p := seq(pad, _ => ' ') + s;
      assert p[1..] == seq(pad - 1, _ => ' ') + s;
      TrimPadding(pad - 1, s);
    } else {
      assert seq(pad, _ => ' ') + s == s;
    }
  }

  /** Leading padding is dropped by `strip()`. */
  lemma StripPadding(pad: nat, s: string)
    requires s != [] && !Text.IsSpace(s[0]) && !Text.IsSpace(s[|s| - 1])
    ensures Text.Strip(seq(pad, _ => ' ') + s) == s
  {
    TrimPadding(pad, s);
    Text.StripUnchanged(s);
  }

  /** A clean padded text parses as its unpadded part does. */
  lemma PaddedWeight(pad: nat, d: string)
    requires d != [] && !Text.IsSpace(d[0]) && !Text.IsSpace(d[|d| - 1])
    requires Clean(seq(pad, _ => ' ') + d)
    ensures FrameWeight(Ascii(seq(pad, _ => ' ') + d)) == Text.PyInt(d)
  {
    var t := seq(pad, _ => ' ') + d;
    CleanBytes(t);
    StripPadding(pad, d);
    StripBeforeInt(t);
    StripBeforeInt(d);
    Text.StripUnchanged(d);
  }

  /** A padded reading's payload parses back to its weight. */
  lemma FrameWeightOfReading(pad: nat, w: int)
    ensures FrameWeight(Payload(pad, w)) == Some(w)
  {
    var d := Text.IntToString(w);
    Text.RenderingChars(w);
    PaddedClean(pad, d);
    PaddedWeight(pad, d);
    Text.PyIntRoundTrip(w);
  }

  /**
   * A frame after junk holding neither STX nor ETX is cut out whole, and the
   * reader goes on with what follows it.
   */
  lemma CutAfterJunk(junk: seq<byte>, p: seq<byte>, tail: seq<byte>)
    requires STX !in junk && ETX !in junk && STX !in p && ETX !in p
    ensures Cut(junk + ([STX] + p + [ETX]) + tail) == ([p] + Cut(tail).0, Cut(tail).1)
  {
    var buf := junk + ([STX] + p + [ETX]) + tail;
    var s := |junk|;
    var e := |junk| + 1 + |p|;
    assert buf[s] == STX && buf[..s] == junk;
    FindAt(buf, STX, s);
    assert buf[e] == ETX;
    assert buf[..e] == junk + [STX] + p;
    FindAt(buf, ETX, e);
    assert buf[s + 1..e] == p;
    assert buf[e + 1..] == tail;
  }

  /** A scale's frame after such junk is reported with its weight. */
  lemma FrameRoundTrip(junk: seq<byte>, pad: nat, w: int, tail: seq<byte>)
    requires STX !in junk && ETX !in junk
    ensures Extract(junk + Frame(pad, w) + tail) == ([w] + Extract(tail).0, Extract(tail).1)
  {
    ReadingBytes(pad, w);
    CutAfterJunk(junk, Payload(pad, w), tail);
    FrameWeightOfReading(pad, w);
    var ps := [Payload(pad, w)] + Cut(tail).0;
    assert ps[1..] == Cut(tail).0;
  }

  /** The frames around a sequence of payloads, one after the other. */
  function Framed(ps: seq<seq<byte>>): seq<byte>
  {
    if ps == [] then [] else [STX] + ps[0] + [ETX] + Framed(ps[1..])
  }

  /** Frames around payloads free of STX and ETX are cut back into exactly those payloads. */
  lemma {:induction false} CutFramed(ps: seq<seq<byte>>)
    requires forall i :: 0 <= i < |ps| ==> STX !in ps[i] && ETX !in ps[i]
    ensures Cut(Framed(ps)) == (ps, [])
  {
    if ps != [] {
      var tail := Framed(ps[1..]);
      assert Framed(ps) == [] + ([STX] + ps[0] + [ETX]) + tail;
      CutFramed(ps[1..]);
      CutAfterJunk([], ps[0], tail);
      assert [ps[0]] + ps[1..] == ps;
    }
  }

  /** The unpadded payloads of a sequence of weights. */
  function Payloads(ws: seq<int>): seq<seq<byte>>
  {
    seq(|ws|, i requires 0 <= i < |ws| => Payload(0, ws[i]))
  }

  /** Payloads each parsing to a weight give exactly those weights. */
  lemma {:induction false} ParsedAll(ps: seq<seq<byte>>, ws: seq<int>)
    requires |ps| == |ws|
    requires forall i :: 0 <= i < |ps| ==> FrameWeight(ps[i]) == Some(ws[i])
    ensures Parsed(ps) == ws
  {
    if ps != [] {
      ParsedAll(ps[1..], ws[1..]);
      assert [ws[0]] + ws[1..] == ws;
    }
  }

  /** Those payloads parse back to the weights. */
  lemma ParsedPayloads(ws: seq<int>)
    ensures Parsed(Payloads(ws)) == ws
  {
    var ps := Payloads(ws);
    forall i | 0 <= i < |ps| ensures FrameWeight(ps[i]) == Some(ws[i]) {
      FrameWeightOfReading(0, ws[i]);
    }
    ParsedAll(ps, ws);
  }

  /** The byte stream of a scale sending these weights, unpadded. */
  function Stream(ws: seq<int>): seq<byte>
  {
    Framed(Payloads(ws))
  }

  /** Every weight of a clean stream is reported, in order, and nothing is left in the buffer. */
  lemma StreamRoundTrip(ws: seq<int>)
    ensures Extract(Stream(ws)) == (ws, [])
  {
    var ps := Payloads(ws);
    forall i | 0 <= i < |ps| ensures STX !in ps[i] && ETX !in ps[i] {
      ReadingBytes(0, ws[i]);
    }
    CutFramed(ps);
    ParsedPayloads(ws);
  }

  /**
   * An ETX ahead of the first STX (the tail of a frame the reader joined
   * half-way) hides every complete frame behind it: nothing is reported and
   * the buffer is kept whole, until it outgrows 256 bytes and is cleared.
   */
  lemma StrayEtxHidesFrame(pad: nat, w: int, tail: seq<byte>)
    ensures Extract([ETX] + Frame(pad, w) + tail) == ([], [ETX] + Frame(pad, w) + tail)
  {
    var buf := [ETX] + Frame(pad, w) + tail;
    FindAt(buf, ETX, 0);
    assert buf[1] == STX && buf[..1] == [ETX];
    FindAt(buf, STX, 1);
    assert Cut(buf) == ([], buf);
  }

  /** The line settings the reader passes to the serial port. */
  datatype Parity = ParityNone | ParityEven | ParityOdd

  /**
   * `parity_map.get(config.get('scale.parity', 'N').upper(), PARITY_NONE)`:
   * `N`, `E`, `O` in either case select that parity, any other text selects
   * none, and a value that is not a string raises AttributeError (no result).
   */
  function ParityFromSetting(setting: Json): (r: Option<Parity>)
    ensures r.None? <==> !setting.JStr?
    ensures r == Some(ParityEven) <==> setting == JStr("E") || setting == JStr("e")
    ensures r == Some(ParityOdd) <==> setting == JStr("O") || setting == JStr("o")
  {
    match setting
    case JStr(s) =>
      if s == "E" || s == "e" then Some(ParityEven)
      else if s == "O" || s == "o" then Some(ParityOdd)
      else Some(ParityNone)
    case _ => None
  }
}
