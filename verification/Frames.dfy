/** The WebSocket framing of sections 5.2 and 5.3 of RFC 6455, as the app-server client writes and reads it. Bytes
    are numbers; masks, shifts and disjoint ors on header bytes are written as remainder, division and sum. */
module Frames {
  import opened Results

  const MAX_MESSAGE_BYTES: nat := 1024 * 1024

  type byte = x: int | 0 <= x < 256

  datatype Frame = Frame(opcode: nat, payload: seq<byte>)

  datatype FrameError = Fragmented | TooLong | ControlTooLong

  // ---------------------------------------------------------------- numbers on the wire

  function Pow2(n: nat): nat { if n == 0 then 1 else 2 * Pow2(n - 1) }

  /** Exclusive or of the lowest `n` bits. */
  function XorBits(a: nat, b: nat, n: nat): (r: nat)
    ensures r < Pow2(n)
  {
    if n == 0 then 0 else (a + b) % 2 + 2 * XorBits(a / 2, b / 2, n - 1)
  }

  lemma NoMultiple(e: int, d: int, x: int)
    requires e * d == x && -d < x < d
    ensures e == 0
  {
  }

  lemma QuotientIs(n: nat, d: nat, q: nat, r: nat)
    requires n == q * d + r && r < d
    ensures n / d == q
  {
    NoMultiple(q - n / d, d, n % d - r);
  }

  lemma Parts(m: nat, a: nat, k: nat, q: nat, b: nat, r: nat)
    requires m == q * b + r && r < b && k < a
    ensures m * a + k == q * (a * b) + (r * a + k) && r * a + k < a * b
  {
    assert m * a == q * b * a + r * a && q * b * a == q * (a * b);
    assert (r + 1) * a <= b * a;
  }

  /** Dividing twice is dividing by the product. */
  lemma DivideTwice(n: nat, a: nat, b: nat)
    requires a > 0 && b > 0
    ensures a * b > 0 && n / a / b == n / (a * b)
  {
    Parts(n / a, a, n % a, n / a / b, b, n / a % b);
    QuotientIs(n, a * b, n / a / b, n / a % b * a + n % a);
  }

  function BitOf(n: nat, i: nat): nat {
    Pow2Positive(i);
    n / Pow2(i) % 2
  }

  lemma {:induction false} Pow2Positive(i: nat)
    ensures Pow2(i) > 0
  {
    if i > 0 { Pow2Positive(i - 1); }
  }

  lemma NextBit(n: nat, i: nat)
    ensures BitOf(n, i + 1) == BitOf(n / 2, i)
  {
    Pow2Positive(i);
    DivideTwice(n, 2, Pow2(i));
  }

  lemma LowestOnly(a: nat, b: nat, y: nat)
    ensures BitOf((a + b) % 2 + 2 * y, 0) == 1 <==> BitOf(a, 0) != BitOf(b, 0)
  {
    assert Pow2(0) == 1;
  }

  /** The result has a bit set exactly where the two numbers differ. */
  lemma {:induction false} XorBitsAt(a: nat, b: nat, n: nat, i: nat)
    requires i < n
    ensures BitOf(XorBits(a, b, n), i) == 1 <==> BitOf(a, i) != BitOf(b, i)
  {
    if i == 0 {
      LowestOnly(a, b, XorBits(a / 2, b / 2, n - 1));
    } else {
      hide BitOf;
      XorBitsAt(a / 2, b / 2, n - 1, i - 1);
      NextBit(a, i - 1);
      NextBit(b, i - 1);
      NextBit(XorBits(a, b, n), i - 1);
      LowestBit(a, b, XorBits(a / 2, b / 2, n - 1));
    }
  }

  lemma LowestBit(a: nat, b: nat, y: nat)
    ensures ((a + b) % 2 + 2 * y) / 2 == y && (((a + b) % 2 + 2 * y) + b) % 2 == a % 2
  {
  }

  lemma {:induction false} XorBitsTwice(a: nat, b: nat, n: nat)
    requires a < Pow2(n)
    ensures XorBits(XorBits(a, b, n), b, n) == a
  {
    if n > 0 {
      XorBitsTwice(a / 2, b / 2, n - 1);
      LowestBit(a, b, XorBits(a / 2, b / 2, n - 1));
    }
  }

  lemma EightBits()
    ensures Pow2(8) == 256
  {
    assert Pow2(4) == 16;
  }

  function Xor(a: byte, b: byte): byte {
    EightBits();
    XorBits(a, b, 8)
  }

  lemma XorTwice(a: byte, b: byte)
    ensures Xor(Xor(a, b), b) == a
  {
    EightBits();
    XorBitsTwice(a, b, 8);
  }

  function Pow256(n: nat): nat { if n == 0 then 1 else 256 * Pow256(n - 1) }

  function BigEndian(n: nat, width: nat): (s: seq<byte>)
    ensures |s| == width
  {
    if width == 0 then [] else BigEndian(n / 256, width - 1) + [n % 256]
  }

  function FromBigEndian(s: seq<byte>): nat {
    if s == [] then 0 else 256 * FromBigEndian(s[..|s| - 1]) + s[|s| - 1]
  }

  lemma {:induction false} BigEndianBack(n: nat, width: nat)
    requires n < Pow256(width)
    ensures FromBigEndian(BigEndian(n, width)) == n
  {
    if width > 0 {
      BigEndianBack(n / 256, width - 1);
      assert BigEndian(n, width)[..width - 1] == BigEndian(n / 256, width - 1);
    }
  }

  lemma {:induction false} Pow256Positive(n: nat)
    ensures Pow256(n) > 0
  {
    if n > 0 { Pow256Positive(n - 1); }
  }

  /** Network byte order: the first byte written is the one that counts most. */
  lemma {:induction false} BigEndianAt(n: nat, width: nat, i: nat)
    requires i < width
    ensures Pow256(width - 1 - i) > 0 && BigEndian(n, width)[i] == n / Pow256(width - 1 - i) % 256
  {
    Pow256Positive(width - 1 - i);
    if i < width - 1 {
      BigEndianAt(n / 256, width - 1, i);
      DivideTwice(n, 256, Pow256(width - 2 - i));
    }
  }

  /** The byte as a number. */
  function ByteAt(s: seq<byte>, i: nat): nat
    requires i < |s|
  {
    s[i]
  }

  lemma TwoBytes(s: seq<byte>)
    requires |s| == 2
    ensures FromBigEndian(s) == 256 * ByteAt(s, 0) + s[1]
  {
    assert FromBigEndian(s[..1]) == s[0];
  }

  lemma FourBytes(s: seq<byte>)
    requires |s| == 4
    ensures FromBigEndian(s) == 0x100_0000 * ByteAt(s, 0) + 0x1_0000 * ByteAt(s, 1) + 256 * ByteAt(s, 2) + s[3]
  {
    assert s[..3][..2] == s[..2];
    TwoBytes(s[..2]);
    assert FromBigEndian(s[..3]) == 256 * FromBigEndian(s[..2]) + s[2];
  }

  lemma EightBytes(s: seq<byte>)
    requires |s| == 8
    ensures FromBigEndian(s)
         == 0x100_0000_0000_0000 * ByteAt(s, 0) + 0x1_0000_0000_0000 * ByteAt(s, 1)
            + 0x100_0000_0000 * ByteAt(s, 2) + 0x1_0000_0000 * ByteAt(s, 3)
            + 0x100_0000 * ByteAt(s, 4) + 0x1_0000 * ByteAt(s, 5) + 0x100 * ByteAt(s, 6) + ByteAt(s, 7)
  {
    assert s[..7][..6] == s[..6] && s[..6][..5] == s[..5] && s[..5][..4] == s[..4];
    FourBytes(s[..4]);
    assert FromBigEndian(s[..5]) == 256 * FromBigEndian(s[..4]) + s[4];
    assert FromBigEndian(s[..6]) == 256 * FromBigEndian(s[..5]) + s[5];
    assert FromBigEndian(s[..7]) == 256 * FromBigEndian(s[..6]) + s[6];
  }

  // ---------------------------------------------------------------- the standard

  predicate IsControl(opcode: nat) { opcode / 8 % 2 == 1 }

  /** Section 5.3: octet `i` of the data is combined with octet `i` modulo 4 of the key. */
  function Masked(payload: seq<byte>, key: seq<byte>): seq<byte>
    requires |key| == 4
  {
    seq(|payload|, i requires 0 <= i < |payload| => Xor(payload[i], key[i % 4]))
  }

  lemma MaskTwice(payload: seq<byte>, key: seq<byte>)
    requires |key| == 4
    ensures Masked(Masked(payload, key), key) == payload
  {
    forall i | 0 <= i < |payload| ensures Masked(Masked(payload, key), key)[i] == payload[i] {
      XorTwice(payload[i], key[i % 4]);
    }
  }

  /** The seven-bit length and the extension that a payload length takes: the shortest of the three forms. */
  function ShortLength(n: nat): nat { if n <= 125 then n else if n <= 65535 then 126 else 127 }

  function Extension(n: nat): seq<byte> {
    if n <= 125 then [] else if n <= 65535 then BigEndian(n, 2) else BigEndian(n, 8)
  }

  /** The header of a final frame up to its key. */
  function Head(opcode: nat, masked: bool, length: nat): seq<byte>
    requires opcode < 16
  {
    [128 + opcode, (if masked then 128 else 0) + ShortLength(length)] + Extension(length)
  }

  /** A final frame as section 5.2 writes it, masked when there is a key. */
  function Wire(f: Frame, key: Option<seq<byte>>): seq<byte>
    requires f.opcode < 16 && (key.Some? ==> |key.value| == 4)
  {
    Head(f.opcode, key.Some?, |f.payload|) + (if key.Some? then key.value + Masked(f.payload, key.value) else f.payload)
  }

  predicate Sendable(f: Frame) {
    f.opcode < 16 && |f.payload| <= MAX_MESSAGE_BYTES && (IsControl(f.opcode) ==> |f.payload| <= 125)
  }

  datatype Header = Header(opcode: nat, masked: bool, length: nat, size: nat) | NoHeader | BadHeader(error: FrameError)

  datatype Parsed = Whole(frame: Frame, size: nat) | Short | Malformed(error: FrameError)

  function ExtensionSize(short: nat): nat { if short == 126 then 2 else if short == 127 then 8 else 0 }

  function LengthOf(short: nat, extension: seq<byte>): nat {
    if short < 126 then short else FromBigEndian(extension)
  }

  /** The header at the front of `s` up to its key: only final frames of at most a mebibyte are accepted, and control
      frames of at most 125 bytes. */
  function ParseHead(s: seq<byte>): Header {
    if |s| < 2 then NoHeader
    else if s[0] < 128 then BadHeader(Fragmented)
    else if |s| < 2 + ExtensionSize(s[1] % 128) then NoHeader
    else
      var length := LengthOf(s[1] % 128, s[2..2 + ExtensionSize(s[1] % 128)]);
      if length > MAX_MESSAGE_BYTES then BadHeader(TooLong)
      else if IsControl(s[0] % 16) && length > 125 then BadHeader(ControlTooLong)
      else Header(s[0] % 16, s[1] >= 128, length, 2 + ExtensionSize(s[1] % 128))
  }

  /** What the header says, by the bytes: the length is the short one, or the two or eight bytes after it, the first
      counting most. */
  lemma HeaderBytes(s: seq<byte>)
    requires ParseHead(s).Header?
    ensures ParseHead(s).opcode == s[0] % 16 && s[0] >= 128 && (ParseHead(s).masked <==> s[1] >= 128)
    ensures s[1] % 128 < 126 ==> ParseHead(s).length == s[1] % 128 && ParseHead(s).size == 2
    ensures s[1] % 128 == 126 ==>
              ParseHead(s).size == 4 <= |s| && ParseHead(s).length == 0x100 * ByteAt(s, 2) + ByteAt(s, 3)
    ensures s[1] % 128 == 127 ==>
              && ParseHead(s).size == 10 <= |s|
              && ParseHead(s).length
                 == 0x100_0000_0000_0000 * ByteAt(s, 2) + 0x1_0000_0000_0000 * ByteAt(s, 3)
                    + 0x100_0000_0000 * ByteAt(s, 4) + 0x1_0000_0000 * ByteAt(s, 5)
                    + 0x100_0000 * ByteAt(s, 6) + 0x1_0000 * ByteAt(s, 7) + 0x100 * ByteAt(s, 8) + ByteAt(s, 9)
  {
    if s[1] % 128 == 126 { TwoBytes(s[2..4]); }
    if s[1] % 128 == 127 { EightBytes(s[2..10]); }
  }

  function FrameSize(h: Header): nat
    requires h.Header?
  {
    h.size + (if h.masked then 4 else 0) + h.length
  }

  /** Reads one frame from the front of `s`. */
  function Parse(s: seq<byte>): Parsed {
    match ParseHead(s)
    case NoHeader => Short
    case BadHeader(e) => Malformed(e)
    case Header(opcode, masked, length, size) =>
      if |s| < FrameSize(ParseHead(s)) then Short
      else Whole(Frame(opcode, Body(s[size..FrameSize(ParseHead(s))], masked)), FrameSize(ParseHead(s)))
  }

  /** The payload after a header: unmasked with the key that comes first, if there is one. */
  function Body(s: seq<byte>, masked: bool): seq<byte>
    requires masked ==> |s| >= 4
  {
    if masked then Masked(s[4..], s[..4]) else s
  }

  lemma PrefixSlice(p: seq<byte>, rest: seq<byte>, i: nat, j: nat)
    requires i <= j <= |p|
    ensures (p + rest)[i..j] == p[i..j]
  {
  }

  lemma HeadLocal(p: seq<byte>, rest: seq<byte>)
    requires ParseHead(p).Header? || (ParseHead(p + rest).Header? && ParseHead(p + rest).size <= |p|)
    ensures ParseHead(p + rest) == ParseHead(p)
  {
    PrefixSlice(p, rest, 2, 2 + ExtensionSize(p[1] % 128));
  }

  /** What follows a whole frame does not change how it reads. */
  lemma ParseLocal(p: seq<byte>, rest: seq<byte>)
    requires (Parse(p).Whole? && Parse(p).size == |p|) || (Parse(p + rest).Whole? && Parse(p + rest).size == |p|)
    ensures Parse(p + rest) == Parse(p) && Parse(p).Whole?
  {
    HeadLocal(p, rest);
    PrefixSlice(p, rest, ParseHead(p).size, |p|);
  }

  lemma LengthBack(n: nat)
    requires n <= MAX_MESSAGE_BYTES
    ensures |Extension(n)| == ExtensionSize(ShortLength(n)) && LengthOf(ShortLength(n), Extension(n)) == n
  {
    if 125 < n <= 65535 {
      assert Pow256(2) == 65536;
      BigEndianBack(n, 2);
    } else if n > 65535 {
      assert Pow256(4) == 0x1_0000_0000 && Pow256(8) >= Pow256(4);
      BigEndianBack(n, 8);
    }
  }

  lemma HeadParses(opcode: nat, masked: bool, length: nat)
    requires Sendable(Frame(opcode, [])) && length <= MAX_MESSAGE_BYTES && (IsControl(opcode) ==> length <= 125)
    ensures var head := Head(opcode, masked, length); ParseHead(head) == Header(opcode, masked, length, |head|)
  {
    LengthBack(length);
    var head := Head(opcode, masked, length);
    assert head[2..] == Extension(length);
    assert head[2..|head|] == head[2..];
  }

  lemma BodyBack(payload: seq<byte>, key: Option<seq<byte>>)
    requires key.Some? ==> |key.value| == 4
    ensures Body(if key.Some? then key.value + Masked(payload, key.value) else payload, key.Some?) == payload
  {
    if key.Some? {
      var s := key.value + Masked(payload, key.value);
      assert s[..4] == key.value && s[4..] == Masked(payload, key.value);
      MaskTwice(payload, key.value);
    }
  }

  /** Every frame that may be sent, masked with any key or unmasked, reads back as itself, whatever follows it. */
  lemma WireParses(f: Frame, key: Option<seq<byte>>, rest: seq<byte>)
    requires Sendable(f) && (key.Some? ==> |key.value| == 4)
    ensures Parse(Wire(f, key) + rest) == Whole(f, |Wire(f, key)|)
    ensures |Wire(f, key)| > 0
  {
    var head := Head(f.opcode, key.Some?, |f.payload|);
    var tail := if key.Some? then key.value + Masked(f.payload, key.value) else f.payload;
    HeadParses(f.opcode, key.Some?, |f.payload|);
    HeadLocal(head, tail);
    BodyBack(f.payload, key);
    assert (head + tail)[|head|..|head + tail|] == tail;
    ParseLocal(Wire(f, key), rest);
  }

  // ---------------------------------------------------------------- streams of frames

  /** `s` is exactly the frames `fs`, one after the other. */
  predicate IsFrames(s: seq<byte>, fs: seq<Frame>)
    decreases |fs|
  {
    if fs == [] then s == []
    else Parse(s).Whole? && Parse(s).frame == fs[0] && IsFrames(s[Parse(s).size..], fs[1..])
  }

  lemma AppendSlices(s: seq<byte>, n: nat, t: seq<byte>)
    requires n <= |s|
    ensures (s + t)[n..] == s[n..] + t
  {
  }

  lemma AppendRest(fs: seq<Frame>, gs: seq<Frame>)
    requires fs != []
    ensures (fs + gs)[0] == fs[0] && (fs + gs)[1..] == fs[1..] + gs
  {
  }

  /** Whole frames followed by whole frames are the frames of both. */
  lemma {:induction false} FramesConcat(s: seq<byte>, fs: seq<Frame>, t: seq<byte>, gs: seq<Frame>)
    requires IsFrames(s, fs) && IsFrames(t, gs)
    ensures IsFrames(s + t, fs + gs)
    decreases |fs|
  {
    if fs == [] {
      assert s + t == t && fs + gs == gs;
    } else {
      var n := Parse(s).size;
      FirstFrame(s, t);
      FramesConcat(s[n..], fs[1..], t, gs);
      AppendSlices(s, n, t);
      AppendRest(fs, gs);
    }
  }

  lemma OneFrame(t: seq<byte>)
    requires Parse(t).Whole? && Parse(t).size == |t|
    ensures IsFrames(t, [Parse(t).frame])
  {
    assert t[|t|..] == [] && [Parse(t).frame][1..] == [];
  }

  lemma FramesAppend(s: seq<byte>, fs: seq<Frame>, t: seq<byte>)
    requires IsFrames(s, fs) && Parse(t).Whole? && Parse(t).size == |t|
    ensures IsFrames(s + t, fs + [Parse(t).frame])
  {
    OneFrame(t);
    FramesConcat(s, fs, t, [Parse(t).frame]);
  }

  lemma WholeTakesBytes(s: seq<byte>)
    requires Parse(s).Whole?
    ensures 0 < Parse(s).size <= |s|
  {
  }

  /** The whole frames at the front of `s`, as far as they go. */
  function FramesIn(s: seq<byte>): seq<Frame>
    decreases |s|
  {
    if !Parse(s).Whole? then []
    else
      WholeTakesBytes(s);
      [Parse(s).frame] + FramesIn(s[Parse(s).size..])
  }

  lemma {:induction false} FramesInAre(s: seq<byte>, fs: seq<Frame>)
    requires IsFrames(s, fs)
    ensures FramesIn(s) == fs
    decreases |fs|
  {
    if fs != [] {
      FramesInAre(s[Parse(s).size..], fs[1..]);
      assert fs == [fs[0]] + fs[1..];
    }
  }

  lemma FirstFrame(s: seq<byte>, t: seq<byte>)
    requires Parse(s).Whole?
    ensures Parse(s + t) == Parse(s)
  {
    var n := Parse(s).size;
    assert s == s[..n] + s[n..];
    ParseLocal(s[..n], s[n..]);
    assert s + t == s[..n] + (s[n..] + t);
    ParseLocal(s[..n], s[n..] + t);
  }

  /** Bytes that are whole frames read as the first of the frames that a longer stream holds. */
  lemma {:induction false} FramesPrefix(s: seq<byte>, fs: seq<Frame>, t: seq<byte>, gs: seq<Frame>)
    requires IsFrames(s, fs) && IsFrames(s + t, gs)
    ensures fs <= gs
    decreases |fs|
  {
    if fs != [] {
      FirstFrame(s, t);
      var n := Parse(s).size;
      assert (s + t)[n..] == s[n..] + t;
      FramesPrefix(s[n..], fs[1..], t, gs[1..]);
      assert gs == [gs[0]] + gs[1..] && fs == [fs[0]] + fs[1..];
    }
  }

  datatype Item = Item(frame: Frame, key: Option<seq<byte>>)

  predicate Good(item: Item) {
    Sendable(item.frame) && (item.key.Some? ==> |item.key.value| == 4)
  }

  function Stream(items: seq<Item>): seq<byte>
    requires forall i :: 0 <= i < |items| ==> Good(items[i])
  {
    if items == [] then []
    else
      assert Good(items[0]);
      Wire(items[0].frame, items[0].key) + Stream(items[1..])
  }

  function FramesOf(items: seq<Item>): seq<Frame> {
    if items == [] then [] else [items[0].frame] + FramesOf(items[1..])
  }

  /** Any sequence of frames, each masked with any key or unmasked, concatenated, reads back as those frames. */
  lemma {:induction false} StreamReadsBack(items: seq<Item>)
    requires forall i :: 0 <= i < |items| ==> Good(items[i])
    ensures IsFrames(Stream(items), FramesOf(items))
  {
    if items != [] {
      WireParses(items[0].frame, items[0].key, Stream(items[1..]));
      StreamReadsBack(items[1..]);
      var n := |Wire(items[0].frame, items[0].key)|;
      assert Stream(items)[n..] == Stream(items[1..]);
    }
  }

  // ---------------------------------------------------------------- encoding

  /** The extension of a length of at most a mebibyte, byte by byte. */
  lemma ExtensionBytes(n: nat)
    requires n <= MAX_MESSAGE_BYTES
    ensures n <= 125 ==> Extension(n) == []
    ensures 125 < n <= 65535 ==> Extension(n) == [n / 256, n % 256]
    ensures n > 65535 ==> Extension(n) == [0, 0, 0, 0, 0, n / 65536, n / 256 % 256, n % 256]
  {
    if 125 < n <= 65535 {
      assert BigEndian(n / 256, 1) == [n / 256];
    } else if n > 65535 {
      assert n / 256 / 256 == n / 65536;
      ZeroBytes(5);
      assert BigEndian(n / 65536, 6) == [0, 0, 0, 0, 0] + [n / 65536];
      assert BigEndian(n / 256, 7) == [0, 0, 0, 0, 0, n / 65536] + [n / 256 % 256];
    }
  }

  lemma ZeroBytes(width: nat)
    ensures BigEndian(0, width) == seq(width, _ => 0)
  {
  }

  /** The bytes of a masked frame: the final bit and the opcode, the mask bit and the short length, the length in
      network byte order if it is longer, the key, and the payload combined with it. */
  lemma WireBytes(f: Frame, key: seq<byte>)
    requires Sendable(f) && |key| == 4
    ensures var s, n := Wire(f, Some(key)), |f.payload|;
            var h := if n <= 125 then 2 else if n <= 65535 then 4 else 10;
      && |s| == h + 4 + n && s[0] == 128 + f.opcode
      && (n <= 125 ==> s[1] == 128 + n)
      && (125 < n <= 65535 ==> s[1..h] == [128 + 126, n / 256, n % 256])
      && (n > 65535 ==> s[1..h] == [128 + 127, 0, 0, 0, 0, 0, n / 65536, n / 256 % 256, n % 256])
      && s[h..h + 4] == key && forall i :: 0 <= i < n ==> s[h + 4 + i] == Xor(f.payload[i], key[i % 4])
  {
    ExtensionBytes(|f.payload|);
  }

  /** The encoder always masks; it refuses a payload over a mebibyte and a control payload over 125 bytes. */
  method EncodeFrame(opcode: nat, payload: seq<byte>, mask: seq<byte>) returns (r: Result<seq<byte>, FrameError>)
    requires opcode < 16 && |mask| == 4
    ensures r == if |payload| > MAX_MESSAGE_BYTES then Failure(TooLong)
                 else if opcode >= 8 && |payload| > 125 then Failure(ControlTooLong)
                 else Success(Wire(Frame(opcode, payload), Some(mask)))
    ensures r.Success? ==>
              var s, n := r.value, |payload|;
              var h := if n <= 125 then 2 else if n <= 65535 then 4 else 10;
              && |s| == h + 4 + n && s[0] == 128 + opcode
              && (n <= 125 ==> s[1] == 128 + n)
              && (125 < n <= 65535 ==> s[1..h] == [128 + 126, n / 256, n % 256])
              && (n > 65535 ==> s[1..h] == [128 + 127, 0, 0, 0, 0, 0, n / 65536, n / 256 % 256, n % 256])
              && s[h..h + 4] == mask && forall i :: 0 <= i < n ==> s[h + 4 + i] == Xor(payload[i], mask[i % 4])
  {
    if |payload| > MAX_MESSAGE_BYTES {
      return Failure(TooLong);
    }
    if opcode / 8 % 2 != 0 && |payload| > 125 {
      return Failure(ControlTooLong);
    }
    var frame: seq<byte> := [128 + opcode % 16];
    if |payload| <= 125 {
      frame := frame + [128 + |payload|];
    } else if |payload| <= 65535 {
      frame := frame + [128 + 126] + BigEndian(|payload|, 2);
    } else {
      frame := frame + [128 + 127] + BigEndian(|payload|, 8);
    }
    assert frame == Head(opcode, true, |payload|);
    var body: seq<byte> := [];
    for idx := 0 to |payload|
      invariant body == Masked(payload, mask)[..idx]
    {
      body := body + [Xor(payload[idx], mask[idx % 4])];
    }
    assert body == Masked(payload, mask);
    WireBytes(Frame(opcode, payload), mask);
    return Success(frame + (mask + body));
  }
}
