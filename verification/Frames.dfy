/** WebSocket frames as src/codex.rs writes and reads them: the base framing of
    section 5.2 of RFC 6455 with its three length forms, and the masking of
    section 5.3. Bytes are numbers below 256, so the bit tests of the source
    read as arithmetic: `b & 0x80 != 0` is `b >= 128`, `b & 0x7f` is `b % 128`,
    `b & 0x0f` is `b % 16`, and `0x80 | n` is `128 + n` for `n < 128`. */
module Frames {
  import opened Basics

  type Byte = b: int | 0 <= b < 256

  type Bytes = seq<Byte>

  type Mask = m: seq<Byte> | |m| == 4 witness [0, 0, 0, 0]

  const MAX_FRAME_BYTES: nat := 64 * 1024 * 1024

  datatype Frame = Frame(fin: bool, opcode: nat, payload: Bytes)

  // ------------------------------------------------------------------- xor --

  function Pow2(n: nat): nat { if n == 0 then 1 else 2 * Pow2(n - 1) }

  function XorBits(a: nat, b: nat, n: nat): nat {
    if n == 0 then 0
    else 2 * XorBits(a / 2, b / 2, n - 1) + (if a % 2 != b % 2 then 1 else 0)
  }

  lemma {:induction false} XorBitsBound(a: nat, b: nat, n: nat)
    ensures XorBits(a, b, n) < Pow2(n)
  {
    if n > 0 {
      XorBitsBound(a / 2, b / 2, n - 1);
    }
  }

  lemma {:induction false} XorBitsTwice(a: nat, b: nat, n: nat)
    requires a < Pow2(n)
    ensures XorBits(XorBits(a, b, n), b, n) == a
  {
    if n > 0 {
      XorBitsTwice(a / 2, b / 2, n - 1);
      var x := XorBits(a, b, n);
      assert x / 2 == XorBits(a / 2, b / 2, n - 1);
    }
  }

  /** The bit of weight two to the `i`. */
  function Bit(n: nat, i: nat): nat
    decreases i
  {
    if i == 0 then n % 2 else Bit(n / 2, i - 1)
  }

  /** Bit by bit: the result differs from `a` exactly where `b` has a one. */
  lemma {:induction false} XorBitsFlip(a: nat, b: nat, n: nat, i: nat)
    requires i < n
    ensures Bit(XorBits(a, b, n), i) != Bit(a, i) <==> Bit(b, i) == 1
    decreases n
  {
    var x := XorBits(a, b, n);
    assert x / 2 == XorBits(a / 2, b / 2, n - 1) && x % 2 == if a % 2 != b % 2 then 1 else 0;
    if i == 0 {
    } else {
      XorBitsFlip(a / 2, b / 2, n - 1, i - 1);
    }
  }

  lemma Pow2Byte()
    ensures Pow2(8) == 256
  {
    assert Pow2(8) == 2 * Pow2(7) == 4 * Pow2(6) == 8 * Pow2(5) == 16 * Pow2(4);
    assert Pow2(4) == 2 * Pow2(3) == 4 * Pow2(2) == 8 * Pow2(1) == 16 * Pow2(0);
  }

  function Xor(a: Byte, b: Byte): Byte {
    XorBitsBound(a, b, 8);
    Pow2Byte();
    XorBits(a, b, 8)
  }

  function Masked(payload: Bytes, mask: Mask): (r: Bytes)
    ensures |r| == |payload|
  {
    seq(|payload|, i requires 0 <= i < |payload| => Xor(payload[i], mask[i % 4]))
  }

  /** Section 5.3 of RFC 6455, bit by bit: byte `i` is changed exactly where byte `i`
      modulo 4 of the mask has a one. */
  lemma MaskedFlips(payload: Bytes, mask: Mask, i: nat, k: nat)
    requires i < |payload| && k < 8
    ensures Bit(Masked(payload, mask)[i], k) != Bit(payload[i], k) <==> Bit(mask[i % 4], k) == 1
  {
    XorBitsFlip(payload[i], mask[i % 4], 8, k);
  }

  /** Masking is its own inverse. */
  lemma MaskedTwice(payload: Bytes, mask: Mask)
    ensures Masked(Masked(payload, mask), mask) == payload
  {
    Pow2Byte();
    forall i | 0 <= i < |payload|
      ensures Masked(Masked(payload, mask), mask)[i] == payload[i]
    {
      XorBitsTwice(payload[i], mask[i % 4], 8);
    }
  }

  // --------------------------------------------------------------- lengths --

  function Pow256(n: nat): nat { if n == 0 then 1 else 256 * Pow256(n - 1) }

  // `to_be_bytes`, truncated to `width` bytes.
  function BigEndian(n: nat, width: nat): (r: Bytes)
    ensures |r| == width
  {
    if width == 0 then [] else BigEndian(n / 256, width - 1) + [n % 256]
  }

  function FromBigEndian(bs: Bytes): nat {
    if bs == [] then 0 else 256 * FromBigEndian(bs[..|bs| - 1]) + bs[|bs| - 1]
  }

  lemma {:induction false} BigEndianRoundTrip(n: nat, width: nat)
    requires n < Pow256(width)
    ensures FromBigEndian(BigEndian(n, width)) == n
  {
    if width > 0 {
      BigEndianRoundTrip(n / 256, width - 1);
      assert BigEndian(n, width)[..width - 1] == BigEndian(n / 256, width - 1);
    }
  }

  lemma Pow256Values()
    ensures Pow256(2) == 65536 && Pow256(8) > 0x1_0000_0000
  {
    assert Pow256(2) == 256 * Pow256(1) == 65536 * Pow256(0);
    assert Pow256(8) == 65536 * Pow256(6) && Pow256(6) == 65536 * Pow256(4) && Pow256(4) == 65536 * Pow256(2);
  }

  /** How the payload length is written: in the second byte, in two more bytes,
      or in eight more. */
  datatype Form = Inline | Medium | Wide

  function Offset(form: Form): nat {
    match form
    case Inline => 2
    case Medium => 4
    case Wide => 10
  }

  predicate Fits(form: Form, len: nat) {
    match form
    case Inline => len < 126
    case Medium => len < Pow256(2)
    case Wide => len < Pow256(8)
  }

  // --------------------------------------------------------------- writing --

  function LengthBytes(form: Form, masked: bool, len: nat): (r: Bytes)
    requires Fits(form, len)
    ensures |r| == Offset(form) - 1
  {
    var bit := if masked then 128 else 0;
    match form
    case Inline => [bit + len]
    case Medium => [bit + 126] + BigEndian(len, 2)
    case Wide => [bit + 127] + BigEndian(len, 8)
  }

  /** Any frame a peer may put on the wire, in any length form that holds its
      length, masked or not. */
  function Encode(f: Frame, form: Form, mask: Option<Mask>): Bytes
    requires f.opcode < 16 && Fits(form, |f.payload|)
  {
    [(if f.fin then 128 else 0) + f.opcode]
    + LengthBytes(form, mask.Some?, |f.payload|)
    + (match mask
       case None => f.payload
       case Some(m) => m + Masked(f.payload, m))
  }

  // The frame `send_frame` builds.
  function SendFrame(opcode: nat, payload: Bytes, mask: Mask): Bytes
    requires opcode < 16
  {
    var len := |payload|;
    [128 + opcode]
    + (if len < 126 then [128 + len]
       else if len <= 65535 then [128 + 126] + BigEndian(len, 2)
       else [128 + 127] + BigEndian(len, 8))
    + mask
    + Masked(payload, mask)
  }

  // --------------------------------------------------------------- reading --

  datatype Parsed = NeedMore | TooLong(len: nat) | Whole(frame: Frame, total: nat)

  function FormOf(second: Byte): Form {
    if second % 128 == 126 then Medium else if second % 128 == 127 then Wide else Inline
  }

  function LengthAt(buf: Bytes): nat
    requires |buf| >= 2 && |buf| >= Offset(FormOf(buf[1]))
  {
    match FormOf(buf[1])
    case Inline => buf[1] % 128
    case Medium => FromBigEndian(buf[2..4])
    case Wide => FromBigEndian(buf[2..10])
  }

  // The four bytes of a mask.
  function MaskAt(buf: Bytes, i: nat): (m: Mask)
    requires i + 4 <= |buf|
    ensures m == buf[i..i + 4]
  {
    [buf[i], buf[i + 1], buf[i + 2], buf[i + 3]]
  }

  // One turn of the loop in `read_message`, on the bytes buffered so far.
  function Parse(buf: Bytes): (p: Parsed)
    ensures p.Whole? ==> 2 <= p.total <= |buf| && |p.frame.payload| < p.total
  {
    if |buf| < 2 || |buf| < Offset(FormOf(buf[1])) then NeedMore
    else
      var offset := Offset(FormOf(buf[1]));
      var len := LengthAt(buf);
      var maskLen := if buf[1] >= 128 then 4 else 0;
      var total := offset + maskLen + len;
      if len > MAX_FRAME_BYTES then TooLong(len)
      else if |buf| < total then NeedMore
      else
        var raw := buf[offset + maskLen..total];
        var payload := if maskLen == 4 then Masked(raw, MaskAt(buf, offset)) else raw;
        Whole(Frame(buf[0] >= 128, buf[0] % 16, payload), total)
  }

  /** The header does not change as the payload arrives. */
  lemma SameHead(head: Bytes, buf: Bytes)
    requires |head| >= 2 && |head| >= Offset(FormOf(head[1])) && |head| <= |buf| && buf[..|head|] == head
    ensures FormOf(buf[1]) == FormOf(head[1]) && LengthAt(buf) == LengthAt(head)
    ensures buf[0] == head[0] && buf[1] == head[1]
  {
    assert buf[1] == buf[..|head|][1] && buf[0] == buf[..|head|][0];
    assert |head| >= 4 ==> buf[2..4] == buf[..|head|][2..4];
    assert |head| >= 10 ==> buf[2..10] == buf[..|head|][2..10];
  }

  /** Once the parser has decided, more bytes change nothing. */
  lemma ParseIsStable(buf: Bytes, more: Bytes)
    requires !Parse(buf).NeedMore?
    ensures Parse(buf + more) == Parse(buf)
  {
    hide FromBigEndian, Masked;
    var all := buf + more;
    var form := FormOf(buf[1]);
    assert all[..|buf|] == buf;
    SameHead(buf, all);
    hide FormOf, LengthAt;
    if Parse(buf).Whole? {
      var total := Parse(buf).total;
      SameSlice(buf, more, Offset(form), total);
      if buf[1] >= 128 {
        SameSlice(buf, more, Offset(form), Offset(form) + 4);
        SameSlice(buf, more, Offset(form) + 4, total);
      }
    }
  }

  lemma SameSlice(buf: Bytes, more: Bytes, i: nat, j: nat)
    requires i <= j <= |buf|
    ensures (buf + more)[i..j] == buf[i..j]
  {
  }

  // ------------------------------------------------------------ round trip --

  lemma LengthReadsBack(form: Form, masked: bool, len: nat, first: Byte, rest: Bytes)
    requires Fits(form, len)
    ensures var buf := [first] + LengthBytes(form, masked, len) + rest;
            && FormOf(buf[1]) == form
            && LengthAt(buf) == len
            && (buf[1] >= 128 <==> masked)
  {
    hide BigEndian, FromBigEndian, Pow256;
    var buf := [first] + LengthBytes(form, masked, len) + rest;
    match form
    case Inline =>
    case Medium =>
      BigEndianRoundTrip(len, 2);
      assert buf[2..4] == BigEndian(len, 2);
    case Wide =>
      BigEndianRoundTrip(len, 8);
      assert buf[2..10] == BigEndian(len, 8);
  }

  /** Reading what any conforming peer wrote, with anything after it: the frame
      comes back whole and exactly its bytes are consumed, unless its payload is
      over the limit, which is refused whatever the length form. */
  lemma ParseEncoded(f: Frame, form: Form, mask: Option<Mask>, rest: Bytes)
    requires f.opcode < 16 && Fits(form, |f.payload|)
    ensures var wire := Encode(f, form, mask);
            Parse(wire + rest) ==
              if |f.payload| <= 67_108_864 then Whole(f, |wire|) else TooLong(|f.payload|)
  {
    hide LengthBytes, LengthAt, Masked, Fits, Parse;
    var first: Byte := (if f.fin then 128 else 0) + f.opcode;
    var lb := LengthBytes(form, mask.Some?, |f.payload|);
    var body := match mask case None => f.payload case Some(m) => m + Masked(f.payload, m);
    var buf := Encode(f, form, mask) + rest;
    assert Encode(f, form, mask) == [first] + lb + body;
    assert buf == [first] + lb + (body + rest);
    LengthReadsBack(form, mask.Some?, |f.payload|, first, body + rest);
    BodyReadsBack([first] + lb, f.payload, mask, rest);
    assert buf == [first] + lb + body + rest;
    ParseFrom(buf, f, form, mask);
  }

  /** `Parse` from the facts about its buffer. */
  lemma ParseFrom(buf: Bytes, f: Frame, form: Form, mask: Option<Mask>)
    requires |buf| >= Offset(form) && FormOf(buf[1]) == form && LengthAt(buf) == |f.payload|
    requires f.opcode < 16 && buf[0] == (if f.fin then 128 else 0) + f.opcode
    requires buf[1] >= 128 <==> mask.Some?
    requires var o := Offset(form);
             var n := |f.payload|;
             match mask
             case None => |buf| >= o + n && buf[o..o + n] == f.payload
             case Some(m) => |buf| >= o + 4 + n && buf[o..o + 4] == m && Masked(buf[o + 4..o + 4 + n], m) == f.payload
    ensures Parse(buf) ==
              if |f.payload| <= MAX_FRAME_BYTES
              then Whole(f, Offset(form) + (if mask.Some? then 4 else 0) + |f.payload|)
              else TooLong(|f.payload|)
  {
    hide LengthAt, Masked;
  }

  lemma BodyReadsBack(head: Bytes, payload: Bytes, mask: Option<Mask>, rest: Bytes)
    ensures var o := |head|;
            var n := |payload|;
            match mask
            case None => var buf := head + payload + rest; |buf| >= o + n && buf[o..o + n] == payload
            case Some(m) =>
              var buf := head + (m + Masked(payload, m)) + rest;
              && |buf| >= o + 4 + n
              && buf[o..o + 4] == m
              && Masked(buf[o + 4..o + 4 + n], m) == payload
  {
    hide Masked;
    match mask
    case None =>
    case Some(m) =>
      var buf := head + (m + Masked(payload, m)) + rest;
      var o := |head|;
      assert buf[o..o + 4] == m;
      assert buf[o + 4..o + 4 + |payload|] == Masked(payload, m);
      MaskedTwice(payload, m);
  }

  /** The length form `send_frame` picks: the first that fits. */
  function SentForm(len: nat): Form {
    if len < 126 then Inline else if len <= 65535 then Medium else Wide
  }

  /** Every payload up to the limit and every mask: what `send_frame` writes is
      read back as one final frame with that opcode and payload, and consumes
      exactly the bytes written. No encoding of that frame under a mask is
      shorter, so the length form is the least one that fits. The frame is masked,
      with the mask just before the payload. */
  lemma SendFrameRoundTrip(opcode: nat, payload: Bytes, mask: Mask, rest: Bytes, form: Form, other: Mask)
    requires opcode < 16 && |payload| <= 67_108_864
    ensures var wire := SendFrame(opcode, payload, mask);
            && Parse(wire + rest) == Whole(Frame(true, opcode, payload), |wire|)
            && |wire| >= 6 + |payload| && wire[1] >= 128
            && wire[|wire| - |payload|..] == Masked(payload, mask)
            && wire[|wire| - |payload| - 4..|wire| - |payload|] == mask
            && (Fits(form, |payload|) ==> |wire| <= |Encode(Frame(true, opcode, payload), form, Some(other))|)
  {
    Pow256Values();
    hide Pow256, Masked, BigEndian, Parse;
    var f := Frame(true, opcode, payload);
    var sent := SentForm(|payload|);
    assert SendFrame(opcode, payload, mask) == Encode(f, sent, Some(mask));
    ParseEncoded(f, sent, Some(mask), rest);
    TailOfSent([128 + opcode] + LengthBytes(sent, true, |payload|), mask, Masked(payload, mask));
  }

  lemma TailOfSent(head: Bytes, mask: Bytes, body: Bytes)
    requires |mask| == 4
    ensures var wire := head + (mask + body);
            && wire[|wire| - |body|..] == body
            && wire[|wire| - |body| - 4..|wire| - |body|] == mask
            && (|head| > 1 ==> wire[1] == head[1])
  {
  }

  // ---------------------------------------------------- masking in place --

  /** The loop that unmasks a payload where it lies. */
  method Unmask(payload: array<Byte>, mask: Mask)
    modifies payload
    ensures payload[..] == Masked(old(payload[..]), mask)
  {
    hide Xor;
    var i := 0;
    while i < payload.Length
      invariant 0 <= i <= payload.Length
      invariant forall k | 0 <= k < i :: payload[k] == Masked(old(payload[..]), mask)[k]
      invariant forall k | i <= k < payload.Length :: payload[k] == old(payload[k])
    {
      payload[i] := Xor(payload[i], mask[i % 4]);
      i := i + 1;
    }
  }
}
