/**
 WebSocket frames (RFC 6455, sections 5.2 and 5.3): the unmasked text frames the server sends, and
 the masked ones it reads through a TLS connection that delivers bytes in pieces.
 */
module WebSocket {
  import opened Wrappers
  import opened Torus

  type Byte = b: int | 0 <= b < 256 witness 0

  const TEXT_FINAL: Byte := 0x81
  const LIMIT: int := 0x1_0000_0000_0000_0000  // of an unsigned 64-bit word

  // ----- numbers as bytes -----

  function Pow256(n: nat): (p: nat)
    ensures p > 0
  {
    if n == 0 then 1 else 256 * Pow256(n - 1)
  }

  /** The n low bytes of a number, most significant first. */
  ghost function BigEndian(v: nat, n: nat): (r: seq<Byte>)
    ensures |r| == n
  {
    if n == 0 then [] else BigEndian(v / 256, n - 1) + [v % 256]
  }

  /** Shifting in one byte after the other; the bits never overlap, so the `or` is a sum. */
  function Value(bytes: seq<Byte>): (v: nat) {
    if bytes == [] then 0 else 256 * Value(bytes[..|bytes| - 1]) + bytes[|bytes| - 1]
  }

  lemma {:induction false} ValueOfBigEndian(v: nat, n: nat)
    requires v < Pow256(n)
    ensures Value(BigEndian(v, n)) == v
  {
    if n > 0 {
      ValueOfBigEndian(v / 256, n - 1);
      assert BigEndian(v, n)[..n - 1] == BigEndian(v / 256, n - 1);
    }
  }

  lemma {:induction false} ValueBounded(bytes: seq<Byte>)
    ensures Value(bytes) < Pow256(|bytes|)
  {
    if bytes != [] {
      ValueBounded(bytes[..|bytes| - 1]);
    }
  }

  lemma DivTwice(v: nat, p: nat)
    requires p > 0
    ensures (v / 256) / p == v / (256 * p)
  {
    var q, r := v / 256, v % 256;
    var s, t := q / p, q % p;
    assert q == s * p + t;
    assert 256 * (s * p) == s * (256 * p);
    Quotient(v, 256 * p, s, 256 * t + r);
  }

  lemma HalfTwice(v: nat, p: nat)
    requires p > 0
    ensures (v / 2) / p == v / (2 * p)
  {
    var q, r := v / 2, v % 2;
    var s, t := q / p, q % p;
    assert q == s * p + t;
    assert 2 * (s * p) == s * (2 * p);
    Quotient(v, 2 * p, s, 2 * t + r);
  }

  /** The byte with weight 256^i. */
  lemma {:induction false} BigEndianAt(v: nat, n: nat, i: nat)
    requires i < n
    ensures BigEndian(v, n)[n - 1 - i] == (v / Pow256(i)) % 256
  {
    if i > 0 {
      BigEndianAt(v / 256, n - 1, i - 1);
      DivTwice(v, Pow256(i - 1));
    }
  }

  lemma EightBytes()
    ensures Pow256(8) == LIMIT && Pow256(2) == 0x1_0000
  {
    assert Pow256(2) == 256 * Pow256(1);
    assert Pow256(4) == 256 * Pow256(3);
    assert Pow256(6) == 256 * Pow256(5);
    assert Pow256(8) == 256 * Pow256(7);
  }

  // ----- masking -----

  /** Exclusive or of the low bits. */
  function Xor(a: nat, b: nat, bits: nat): nat {
    if bits == 0 then 0 else (a % 2 + b % 2) % 2 + 2 * Xor(a / 2, b / 2, bits - 1)
  }

  function Pow2(n: nat): (p: nat)
    ensures p > 0
  {
    if n == 0 then 1 else 2 * Pow2(n - 1)
  }

  /** Bit j of a number. */
  ghost function Bit(v: nat, j: nat): nat {
    (v / Pow2(j)) % 2
  }

  lemma {:induction false} XorBounded(a: nat, b: nat, bits: nat)
    ensures Xor(a, b, bits) < Pow2(bits)
  {
    if bits > 0 {
      XorBounded(a / 2, b / 2, bits - 1);
    }
  }

  lemma LowBit(bit: nat, high: nat)
    requires bit < 2
    ensures (bit + 2 * high) % 2 == bit && (bit + 2 * high) / 2 == high
  {
  }

  lemma XorParts(a: nat, b: nat, bits: nat)
    requires bits > 0
    ensures Xor(a, b, bits) % 2 == (a % 2 + b % 2) % 2 && Xor(a, b, bits) / 2 == Xor(a / 2, b / 2, bits - 1)
  {
    LowBit((a % 2 + b % 2) % 2, Xor(a / 2, b / 2, bits - 1));
  }

  lemma BitShifts(v: nat, j: nat)
    ensures Bit(v, 0) == v % 2 && Bit(v, j + 1) == Bit(v / 2, j)
  {
    HalfTwice(v, Pow2(j));
  }

  /** Every bit of the exclusive or is one exactly when one of the two bits is. */
  lemma {:induction false} XorBit(a: nat, b: nat, bits: nat, j: nat)
    requires j < bits
    ensures Bit(Xor(a, b, bits), j) == (Bit(a, j) + Bit(b, j)) % 2
  {
    XorParts(a, b, bits);
    if j == 0 {
      BitShifts(a, 0);
      BitShifts(b, 0);
      BitShifts(Xor(a, b, bits), 0);
    } else {
      XorBit(a / 2, b / 2, bits - 1, j - 1);
      BitShifts(a, j - 1);
      BitShifts(b, j - 1);
      BitShifts(Xor(a, b, bits), j - 1);
    }
  }

  lemma Halves(a: nat, b: nat)
    requires a % 2 == b % 2 && a / 2 == b / 2
    ensures a == b
  {
  }

  /** Numbers with the same bits are the same. */
  lemma {:induction false} BitsDetermine(a: nat, b: nat, bits: nat)
    requires a < Pow2(bits) && b < Pow2(bits) && forall j | 0 <= j < bits :: Bit(a, j) == Bit(b, j)
    ensures a == b
  {
    if bits > 0 {
      forall j | 0 <= j < bits - 1
        ensures Bit(a / 2, j) == Bit(b / 2, j)
      {
        BitShifts(a, j);
        BitShifts(b, j);
        assert Bit(a, j + 1) == Bit(b, j + 1);
      }
      BitsDetermine(a / 2, b / 2, bits - 1);
      BitShifts(a, 0);
      BitShifts(b, 0);
      assert Bit(a, 0) == Bit(b, 0);
      Halves(a, b);
    }
  }

  lemma EightBits()
    ensures Pow2(8) == 256
  {
    assert Pow2(2) == 2 * Pow2(1);
    assert Pow2(4) == 2 * Pow2(3);
    assert Pow2(6) == 2 * Pow2(5);
  }

  function MaskByte(a: Byte, b: Byte): Byte {
    XorBounded(a, b, 8);
    EightBits();
    Xor(a, b, 8)
  }

  /** Every byte against the mask byte of its place modulo four. */
  function Masked(payload: seq<Byte>, mask: seq<Byte>): (r: seq<Byte>)
    requires |mask| == 4
    ensures |r| == |payload|
  {
    seq(|payload|, i requires 0 <= i < |payload| => MaskByte(payload[i], mask[i % 4]))
  }

  /** Bit for bit, every byte is the exclusive or of the byte at its place and the mask byte of its place modulo four. */
  ghost predicate XorOf(r: seq<Byte>, data: seq<Byte>, mask: seq<Byte>)
    requires |mask| == 4
  {
    && |r| == |data|
    && forall i, j | 0 <= i < |data| && 0 <= j < 8 :: Bit(r[i], j) == (Bit(data[i], j) + Bit(mask[i % 4], j)) % 2
  }

  lemma MaskedIsXor(payload: seq<Byte>, mask: seq<Byte>)
    requires |mask| == 4
    ensures XorOf(Masked(payload, mask), payload, mask)
  {
    forall i, j | 0 <= i < |payload| && 0 <= j < 8
      ensures Bit(Masked(payload, mask)[i], j) == (Bit(payload[i], j) + Bit(mask[i % 4], j)) % 2
    {
      XorBit(payload[i], mask[i % 4], 8, j);
    }
  }

  lemma BitBack(r: nat, a: nat, b: nat, j: nat)
    requires Bit(r, j) == (Bit(a, j) + Bit(b, j)) % 2
    ensures Bit(a, j) == (Bit(r, j) + Bit(b, j)) % 2
  {
  }

  /** What masks to `data` is what `data` unmasks to: there is only one. */
  lemma XorOfUnmasks(data: seq<Byte>, payload: seq<Byte>, mask: seq<Byte>)
    requires |mask| == 4 && XorOf(data, payload, mask)
    ensures Masked(data, mask) == payload
  {
    MaskedIsXor(data, mask);
    EightBits();
    forall i | 0 <= i < |payload|
      ensures Masked(data, mask)[i] == payload[i]
    {
      forall j | 0 <= j < 8
        ensures Bit(payload[i], j) == Bit(Masked(data, mask)[i], j)
      {
        BitBack(data[i], payload[i], mask[i % 4], j);
      }
      BitsDetermine(payload[i], Masked(data, mask)[i], 8);
    }
  }

  /** Masking twice is not masking. */
  lemma MaskedTwice(payload: seq<Byte>, mask: seq<Byte>)
    requires |mask| == 4
    ensures Masked(Masked(payload, mask), mask) == payload
  {
    MaskedIsXor(payload, mask);
    XorOfUnmasks(Masked(payload, mask), payload, mask);
  }

  // ----- sending -----

  /** The header of a text frame for a length. */
  ghost function Header(len: nat): seq<Byte> {
    if len < 126 then [TEXT_FINAL, len]
    else if len <= 0xFFFF then [TEXT_FINAL, 126] + BigEndian(len, 2)
    else [TEXT_FINAL, 127] + BigEndian(len, 8)
  }

  /** The length a header states, by the length path of ws_read; None when the header is cut short. */
  ghost function StatedLength(header: seq<Byte>): Option<nat> {
    if |header| < 2 then None
    else
      var len := header[1] % 128;
      if len == 126 then if |header| == 4 then Some(Value(header[2..])) else None
      else if len == 127 then if |header| == 10 then Some(Value(header[2..])) else None
      else if |header| == 2 then Some(len) else None
  }

  /** The header of an unmasked text frame that is its message's last (FIN set, opcode 1) states the length. */
  lemma HeaderStatesLength(len: nat)
    requires len < LIMIT
    ensures StatedLength(Header(len)) == Some(len)
    ensures Bit(Header(len)[0], 7) == 1 && Header(len)[0] % 128 == 1 && Header(len)[1] < 128
  {
    assert Bit(TEXT_FINAL, 7) == 1 by {
      EightBits();
    }
    EightBytes();
    if len > 0xFFFF {
      ValueOfBigEndian(len, 8);
      assert Header(len)[2..] == BigEndian(len, 8);
    } else if len >= 126 {
      ValueOfBigEndian(len, 2);
      assert Header(len)[2..] == BigEndian(len, 2);
    }
  }

  /** No header that states the same length is shorter. */
  lemma HeaderIsShortest(len: nat, header: seq<Byte>)
    requires StatedLength(header) == Some(len)
    ensures |Header(len)| <= |header|
  {
    EightBytes();
    if |header| == 4 {
      ValueBounded(header[2..]);
    }
  }

  method FrameSize(len: nat) returns (size: nat)
    ensures size == |Header(len)| + len
  {
    size := 2;
    if len < 126 {
      size := size + len;
    } else if len <= 0xFFFF {
      size := size + 2 + len;
    } else {
      size := size + 8 + len;
    }
  }

  /** The header, at the front of a frame; `offset` is the first place after it. */
  method WriteHeader(frame: array<Byte>, len: nat) returns (offset: nat)
    requires len < LIMIT && frame.Length == |Header(len)| + len
    modifies frame
    ensures offset == |Header(len)| <= frame.Length && frame[..offset] == Header(len)
  {
    frame[0] := TEXT_FINAL;
    offset := 1;
    if len < 126 {
      frame[offset] := len;
      offset := offset + 1;
    } else if len <= 0xFFFF {
      frame[1] := 126;
      frame[2] := (len / 256) % 256;
      frame[3] := len % 256;
      offset := 4;
      BigEndianAt(len, 2, 0);
      BigEndianAt(len, 2, 1);
      assert BigEndian(len, 2) == [(len / 256) % 256, len % 256];
    } else {
      frame[1] := 127;
      offset := 2;
      var i := 7;
      while i >= 0
        invariant -1 <= i <= 7 && offset == 9 - i
        invariant frame[..2] == [TEXT_FINAL, 127]
        invariant frame[2..offset] == BigEndian(len, 8)[..7 - i]
      {
        BigEndianAt(len, 8, i);
        frame[offset] := (len / Pow256(i)) % 256;
        offset := offset + 1;
        i := i - 1;
      }
      assert frame[..10] == frame[..2] + frame[2..10];
    }
  }

  /** ws_send: the frame that is allocated, filled from the front. */
  method WsSend(buf: array<Byte>) returns (frame: array<Byte>)
    requires buf.Length < LIMIT
    ensures fresh(frame) && frame[..] == Header(buf.Length) + buf[..]
  {
    var len := buf.Length;
    var frameSize := FrameSize(len);
    frame := new Byte[frameSize](_ => 0);
    var offset := WriteHeader(frame, len);
    var i := 0;
    while i < len
      invariant 0 <= i <= len && offset + len == frame.Length
      invariant frame[..offset + i] == Header(len) + buf[..i]
      modifies frame
    {
      frame[offset + i] := buf[i];
      i := i + 1;
    }
  }

  // ----- a connection -----

  /** The bytes still to come and how many each read will get at most. */
  datatype Conn = Conn(data: seq<Byte>, cuts: seq<nat>)

  function Min(a: nat, b: nat): nat {
    if a < b then a else b
  }

  /** SSL_read: some bytes, at most `max`; None for a result of zero or less. */
  function Read(c: Conn, max: nat): (r: (Option<seq<Byte>>, Conn))
    ensures r.0.Some? ==> 0 < |r.0.value| <= max
  {
    if max == 0 || c.data == [] || c.cuts == [] || c.cuts[0] == 0 then (None, c)
    else
      var n := Min(max, Min(|c.data|, c.cuts[0]));
      (Some(c.data[..n]), Conn(c.data[n..], c.cuts[1..]))
  }

  /** Reads until `need` bytes are there. */
  function ReadAll(c: Conn, need: nat): (r: (Option<seq<Byte>>, Conn))
    ensures r.0.Some? ==> |r.0.value| == need
    decreases need
  {
    if need == 0 then (Some([]), c)
    else
      var (first, c') := Read(c, need);
      if first.None? then (None, c')
      else
        var (rest, c'') := ReadAll(c', need - |first.value|);
        if rest.None? then (None, c'') else (Some(first.value + rest.value), c'')
  }

  /** One read that must bring exactly n bytes. */
  function ReadOnce(c: Conn, n: nat): (Option<seq<Byte>>, Conn) {
    match Read(c, n)
    case (None, c') => (None, c')
    case (Some(b), c') => (if |b| == n then Some(b) else None, c')
  }

  // ----- receiving -----

  /** A control frame sent in answer. */
  datatype Control = Close(code: int) | Pong(payload: seq<Byte>)

  const SUCCESS: int := 0
  const ERROR: int := -1
  const PING_MAX: nat := 125

  /** What ws_read returns, what it sent, and what it left in the buffer when it read a payload. */
  datatype Outcome = Outcome(ret: int, sent: seq<Control>, got: Option<seq<Byte>>)

  /** The cast of a length to a 32-bit int. */
  function ToInt(n: nat): int {
    (n + 0x8000_0000) % 0x1_0000_0000 - 0x8000_0000
  }

  /** Answers a ping: the pong repeats the bytes that follow the header, or is empty. */
  function AnswerPing(c: Conn, len: nat): (Outcome, Conn) {
    if 0 < len <= PING_MAX then
      match ReadOnce(c, len)
      case (None, c') => (Outcome(1, [Pong([])], None), c')
      case (Some(b), c') => (Outcome(1, [Pong(b)], None), c')
    else (Outcome(1, [Pong([])], None), c)
  }

  /** The payload length, extended or not; an extension must come in one read. */
  function ReadLength(c: Conn, len: nat): (Option<nat>, Conn) {
    if len == 126 || len == 127 then
      match ReadOnce(c, if len == 126 then 2 else 8)
      case (None, c') => (None, c')
      case (Some(b), c') => (Some(Value(b)), c')
    else (Some(len), c)
  }

  /** The mask, in one read, and the payload, in any pieces. */
  function ReadPayload(c: Conn, len: nat): (Outcome, Conn) {
    match ReadOnce(c, 4)
    case (None, c') => (Outcome(0, [Close(1002)], None), c')
    case (Some(mask), c') =>
      match ReadAll(c', len)
      case (None, c'') => (Outcome(ERROR, [], None), c'')
      case (Some(b), c'') =>
        (Outcome(ToInt(len), [], Some(if |mask| == 4 then Masked(b, mask) else b)), c'')
  }

  function ReadBody(c: Conn, len: nat, bufsize: nat): (Outcome, Conn) {
    match ReadLength(c, len)
    case (None, c') => (Outcome(ERROR, [], None), c')
    case (Some(n), c') => if n > bufsize then (Outcome(ERROR, [], None), c') else ReadPayload(c', n)
  }

  /** What follows the two bytes of the header. */
  function Dispatch(opcode: int, len: nat, c: Conn, bufsize: nat): (Outcome, Conn) {
    if opcode == 8 then (Outcome(SUCCESS, [Close(1000)], None), c)
    else if opcode == 9 then AnswerPing(c, len)
    else if opcode != 1 then (Outcome(0, [Close(1002)], None), c)
    else ReadBody(c, len, bufsize)
  }

  /** ws_read */
  function ReadFrame(c: Conn, bufsize: nat): (Outcome, Conn) {
    var (header, c') := ReadAll(c, 2);
    match header
    case None => (Outcome(ERROR, [], None), c')
    case Some(h) => Dispatch(h[0] % 16, h[1] % 128, c', bufsize)
  }

  // ----- what a client sends -----

  /** A text frame with these masked bytes. */
  ghost function ClientFrame(data: seq<Byte>, mask: seq<Byte>): seq<Byte> {
    var h := Header(|data|);
    [h[0], h[1] + 128] + h[2..] + mask + data
  }

  /** Pieces that add up to n. */
  ghost predicate Adds(cuts: seq<nat>, n: nat)
    decreases |cuts|
  {
    if cuts == [] then n == 0 else 0 < cuts[0] <= n && Adds(cuts[1..], n - cuts[0])
  }

  /**
   A delivery of a frame: the two bytes of the header and the payload in any pieces, the extended
   length and the mask in one piece each.
   */
  ghost predicate Delivers(head: seq<nat>, body: seq<nat>, len: nat) {
    Adds(head, 2) && Adds(body, len)
  }

  ghost function ExtensionCut(len: nat): seq<nat> {
    if len < 126 then [] else if len <= 0xFFFF then [2] else [8]
  }

  ghost function Cuts(head: seq<nat>, body: seq<nat>, len: nat): seq<nat> {
    head + ExtensionCut(len) + [4] + body
  }

  lemma {:induction false} ReadAllDelivers(data: seq<Byte>, rest: seq<Byte>, cuts: seq<nat>, more: seq<nat>)
    requires Adds(cuts, |data|)
    ensures ReadAll(Conn(data + rest, cuts + more), |data|) == (Some(data), Conn(rest, more))
    decreases |cuts|
  {
    if cuts == [] {
      assert data + rest == rest && cuts + more == more;
    } else {
      var n := cuts[0];
      var c := Conn(data + rest, cuts + more);
      assert c.data[..n] == data[..n] && c.cuts[0] == n;
      assert Read(c, |data|).0 == Some(data[..n]);
      assert (data + rest)[n..] == data[n..] + rest && (cuts + more)[1..] == cuts[1..] + more;
      ReadAllDelivers(data[n..], rest, cuts[1..], more);
      assert data[..n] + data[n..] == data;
    }
  }

  lemma ReadOnceDelivers(data: seq<Byte>, rest: seq<Byte>, more: seq<nat>)
    requires data != []
    ensures ReadOnce(Conn(data + rest, [|data|] + more), |data|) == (Some(data), Conn(rest, more))
  {
    assert (data + rest)[..|data|] == data && (data + rest)[|data|..] == rest;
    assert ([|data|] + more)[1..] == more;
  }

  lemma ReadPayloadDelivers(data: seq<Byte>, mask: seq<Byte>, rest: seq<Byte>, body: seq<nat>, more: seq<nat>)
    requires |mask| == 4 && Adds(body, |data|)
    ensures ReadPayload(Conn(mask + (data + rest), [4] + (body + more)), |data|)
      == (Outcome(ToInt(|data|), [], Some(Masked(data, mask))), Conn(rest, more))
  {
    ReadOnceDelivers(mask, data + rest, body + more);
    ReadAllDelivers(data, rest, body, more);
  }

  lemma ReadLengthDelivers(len: nat, rest: seq<Byte>, more: seq<nat>)
    requires len < LIMIT
    ensures var ext := Header(len)[2..];
      ReadLength(Conn(ext + rest, (if len < 126 then [] else [|ext|]) + more), Header(len)[1]) == (Some(len), Conn(rest, more))
  {
    EightBytes();
    var ext := Header(len)[2..];
    if len < 126 {
      assert ext + rest == rest && [] + more == more;
    } else {
      var n := if len <= 0xFFFF then 2 else 8;
      assert ext == BigEndian(len, n);
      ValueOfBigEndian(len, n);
      ReadOnceDelivers(ext, rest, more);
    }
  }

  lemma FrameIsDispatched(c: Conn, bufsize: nat, two: seq<Byte>, c': Conn)
    requires |two| == 2 && ReadAll(c, 2) == (Some(two), c')
    ensures ReadFrame(c, bufsize) == Dispatch(two[0] % 16, two[1] % 128, c', bufsize)
  {
  }

  /** A delivered header leads on by its opcode and its length. */
  lemma HeadDelivers(first: Byte, second: Byte, opcode: int, len: nat, bufsize: nat, head: seq<nat>, rest: seq<Byte>, more: seq<nat>)
    requires Adds(head, 2) && opcode == first % 16 && len == second % 128
    ensures ReadFrame(Conn([first, second] + rest, head + more), bufsize) == Dispatch(opcode, len, Conn(rest, more), bufsize)
  {
    var two: seq<Byte> := [first, second];
    ReadAllDelivers(two, rest, head, more);
    FrameIsDispatched(Conn(two + rest, head + more), bufsize, two, Conn(rest, more));
  }

  lemma TextIsRead(len: nat, c: Conn, bufsize: nat)
    ensures Dispatch(1, len, c, bufsize) == ReadBody(c, len, bufsize)
  {
  }

  lemma TextDelivers(h: Byte, bufsize: nat, head: seq<nat>, rest: seq<Byte>, more: seq<nat>)
    requires h < 128 && Adds(head, 2)
    ensures ReadFrame(Conn([TEXT_FINAL, h + 128] + rest, head + more), bufsize) == ReadBody(Conn(rest, more), h, bufsize)
  {
    HeadDelivers(TEXT_FINAL, h + 128, 1, h, bufsize, head, rest, more);
    TextIsRead(h, Conn(rest, more), bufsize);
  }

  lemma BodyDelivers(len: nat, bufsize: nat, rest: seq<Byte>, more: seq<nat>)
    requires len < LIMIT
    ensures ReadBody(Conn(Header(len)[2..] + rest, ExtensionCut(len) + more), Header(len)[1], bufsize)
      == if len > bufsize then (Outcome(ERROR, [], None), Conn(rest, more)) else ReadPayload(Conn(rest, more), len)
  {
    ReadLengthDelivers(len, rest, more);
  }

  lemma FiveParts<T>(a: seq<T>, b: seq<T>, c: seq<T>, d: seq<T>, e: seq<T>)
    ensures (a + b + c + d) + e == a + (b + (c + (d + e)))
  {
  }

  lemma FrameParts(data: seq<Byte>, mask: seq<Byte>, rest: seq<Byte>, head: seq<nat>, body: seq<nat>, more: seq<nat>)
    ensures ClientFrame(data, mask) + rest
      == [TEXT_FINAL, Header(|data|)[1] + 128] + (Header(|data|)[2..] + (mask + (data + rest)))
    ensures Cuts(head, body, |data|) + more == head + (ExtensionCut(|data|) + ([4] + (body + more)))
  {
    FiveParts([TEXT_FINAL, Header(|data|)[1] + 128], Header(|data|)[2..], mask, data, rest);
    FiveParts(head, ExtensionCut(|data|), [4], body, more);
    assert Cuts(head, body, |data|) == head + ExtensionCut(|data|) + [4] + body;
  }

  /** The header and the length of a text frame, however they come in, lead to its mask. */
  lemma FrameReaches(data: seq<Byte>, mask: seq<Byte>, bufsize: nat, head: seq<nat>, body: seq<nat>,
                     rest: seq<Byte>, more: seq<nat>)
    requires |data| < LIMIT && Delivers(head, body, |data|)
    ensures var c := Conn(mask + (data + rest), [4] + (body + more));
      ReadFrame(Conn(ClientFrame(data, mask) + rest, Cuts(head, body, |data|) + more), bufsize)
      == if |data| > bufsize then (Outcome(ERROR, [], None), c) else ReadPayload(c, |data|)
  {
    var len := |data|;
    var tail, tailCuts := mask + (data + rest), [4] + (body + more);
    FrameParts(data, mask, rest, head, body, more);
    TextDelivers(Header(len)[1], bufsize, head, Header(len)[2..] + tail, ExtensionCut(len) + tailCuts);
    BodyDelivers(len, bufsize, tail, tailCuts);
  }

  /**
   Whatever the bytes and the mask, and however the header and the bytes are cut into pieces: what is
   read is, bit for bit, the exclusive or of each byte and the mask byte of its place modulo four.
   */
  lemma ReadsTheXor(data: seq<Byte>, mask: seq<Byte>, bufsize: nat, head: seq<nat>, body: seq<nat>,
                    rest: seq<Byte>, more: seq<nat>)
    requires |mask| == 4 && |data| <= bufsize && |data| < LIMIT && Delivers(head, body, |data|)
    ensures var (o, c) := ReadFrame(Conn(ClientFrame(data, mask) + rest, Cuts(head, body, |data|) + more), bufsize);
      o.ret == ToInt(|data|) && o.sent == [] && o.got.Some? && XorOf(o.got.value, data, mask) && c == Conn(rest, more)
  {
    FrameReaches(data, mask, bufsize, head, body, rest, more);
    ReadPayloadDelivers(data, mask, rest, body, more);
    MaskedIsXor(data, mask);
  }

  /** So a text frame that fits the buffer is read back whole, and nothing after it is touched. */
  lemma ReadsWhatWasSent(payload: seq<Byte>, data: seq<Byte>, mask: seq<Byte>, bufsize: nat, head: seq<nat>, body: seq<nat>,
                         rest: seq<Byte>, more: seq<nat>)
    requires |mask| == 4 && XorOf(data, payload, mask)
    requires |payload| <= bufsize && |payload| < LIMIT && Delivers(head, body, |payload|)
    ensures ReadFrame(Conn(ClientFrame(data, mask) + rest, Cuts(head, body, |data|) + more), bufsize)
      == (Outcome(ToInt(|payload|), [], Some(payload)), Conn(rest, more))
  {
    FrameReaches(data, mask, bufsize, head, body, rest, more);
    ReadPayloadDelivers(data, mask, rest, body, more);
    XorOfUnmasks(data, payload, mask);
  }

  /** The number returned is the length exactly below 2 to the 31; from there on the cast turns it into another. */
  lemma ReturnsLengthExactlyWhen(n: nat)
    requires n < LIMIT
    ensures ToInt(n) == n <==> n < 0x8000_0000
  {
  }

  /** A frame that does not fit is refused before its mask is read. */
  lemma TooLongIsRefused(data: seq<Byte>, mask: seq<Byte>, bufsize: nat, head: seq<nat>, body: seq<nat>,
                         rest: seq<Byte>, more: seq<nat>)
    requires |mask| == 4 && bufsize < |data| < LIMIT && Delivers(head, body, |data|)
    ensures ReadFrame(Conn(ClientFrame(data, mask) + rest, Cuts(head, body, |data|) + more), bufsize)
      == (Outcome(ERROR, [], None), Conn(mask + (data + rest), [4] + (body + more)))
  {
    FrameReaches(data, mask, bufsize, head, body, rest, more);
  }

  // ----- frames that are no text -----

  /** A close is answered, a frame of any other kind but text and ping ends the connection; nothing after the header is read. */
  lemma OpcodeDecides(first: Byte, second: Byte, bufsize: nat, head: seq<nat>, rest: seq<Byte>, more: seq<nat>)
    requires Adds(head, 2) && first % 16 != 1 && first % 16 != 9
    ensures ReadFrame(Conn([first, second] + rest, head + more), bufsize)
      == (Outcome(0, [Close(if first % 16 == 8 then 1000 else 1002)], None), Conn(rest, more))
  {
    HeadDelivers(first, second, first % 16, second % 128, bufsize, head, rest, more);
  }

  /** The bytes after the header of a ping, as many as it states, come back in a pong. */
  lemma PingComesBack(first: Byte, second: Byte, bytes: seq<Byte>, bufsize: nat, head: seq<nat>, rest: seq<Byte>, more: seq<nat>)
    requires Adds(head, 2) && first % 16 == 9 && second % 128 == |bytes| <= 125
    ensures ReadFrame(Conn([first, second] + (bytes + rest), head + ((if bytes == [] then [] else [|bytes|]) + more)), bufsize)
      == (Outcome(1, [Pong(bytes)], None), Conn(rest, more))
  {
    var cuts := (if bytes == [] then [] else [|bytes|]) + more;
    HeadDelivers(first, second, 9, |bytes|, bufsize, head, bytes + rest, cuts);
    if bytes == [] {
      assert bytes + rest == rest && cuts == more;
    } else {
      ReadOnceDelivers(bytes, rest, more);
    }
  }

  /** A ping that states an extended length gets an empty pong, and nothing of it is read. */
  lemma LongPingIsNotRead(first: Byte, second: Byte, bufsize: nat, head: seq<nat>, rest: seq<Byte>, more: seq<nat>)
    requires Adds(head, 2) && first % 16 == 9 && second % 128 > 125
    ensures ReadFrame(Conn([first, second] + rest, head + more), bufsize) == (Outcome(1, [Pong([])], None), Conn(rest, more))
  {
    HeadDelivers(first, second, 9, second % 128, bufsize, head, rest, more);
  }

  /**
   The mask of a masked ping is taken for the first of its bytes: the pong starts with it, and the last
   four bytes of the frame are left to be read as the next frame.
   */
  lemma MaskedPingIsMisread(data: seq<Byte>, mask: seq<Byte>, bufsize: nat, head: seq<nat>, rest: seq<Byte>, more: seq<nat>)
    requires Adds(head, 2) && |mask| == 4 && 0 < |data| <= 125
    ensures var all := mask + data;
      ReadFrame(Conn([0x89, 128 + |data|] + (all + rest), head + ([|data|] + more)), bufsize)
      == (Outcome(1, [Pong(all[..|data|])], None), Conn(all[|data|..] + rest, more))
  {
    var all := mask + data;
    assert all + rest == all[..|data|] + (all[|data|..] + rest);
    PingComesBack(0x89, 128 + |data|, all[..|data|], bufsize, head, all[|data|..] + rest, more);
  }

  // ----- frames that come in other pieces, or not at all -----

  lemma ReadOnceInPieces(data: seq<Byte>, n: nat, cut: nat, more: seq<nat>)
    requires 0 < cut < n <= |data|
    ensures ReadOnce(Conn(data, [cut] + more), n) == (None, Conn(data[cut..], more))
  {
    assert ([cut] + more)[1..] == more;
  }

  lemma {:induction false} ReadAllShort(c: Conn, need: nat)
    requires |c.data| < need
    ensures ReadAll(c, need).0.None?
    decreases need
  {
    var (first, c') := Read(c, need);
    if first.Some? {
      ReadAllShort(c', need - |first.value|);
    }
  }

  /** A connection that ends within the first two bytes is an error. */
  lemma HeaderCutShort(c: Conn, bufsize: nat)
    requires |c.data| < 2
    ensures ReadFrame(c, bufsize).0 == Outcome(ERROR, [], None)
  {
    ReadAllShort(c, 2);
  }

  /** An extended length that comes in two pieces is an error. */
  lemma LengthInPieces(h: Byte, bufsize: nat, head: seq<nat>, rest: seq<Byte>, cut: nat, more: seq<nat>)
    requires Adds(head, 2) && (h == 126 || h == 127)
    requires 0 < cut < (if h == 126 then 2 else 8) <= |rest|
    ensures ReadFrame(Conn([TEXT_FINAL, h + 128] + rest, head + ([cut] + more)), bufsize)
      == (Outcome(ERROR, [], None), Conn(rest[cut..], more))
  {
    TextDelivers(h, bufsize, head, rest, [cut] + more);
    ReadOnceInPieces(rest, if h == 126 then 2 else 8, cut, more);
  }

  /** A mask that comes in two pieces ends the connection with 1002. */
  lemma MaskInPieces(h: Byte, bufsize: nat, head: seq<nat>, rest: seq<Byte>, cut: nat, more: seq<nat>)
    requires Adds(head, 2) && h < 126 && h <= bufsize && 0 < cut < 4 <= |rest|
    ensures ReadFrame(Conn([TEXT_FINAL, h + 128] + rest, head + ([cut] + more)), bufsize)
      == (Outcome(0, [Close(1002)], None), Conn(rest[cut..], more))
  {
    TextDelivers(h, bufsize, head, rest, [cut] + more);
    ReadOnceInPieces(rest, 4, cut, more);
  }

  /** A payload that the connection does not bring to its end is an error. */
  lemma PayloadCutShort(h: Byte, mask: seq<Byte>, bufsize: nat, head: seq<nat>, rest: seq<Byte>, more: seq<nat>)
    requires Adds(head, 2) && h < 126 && h <= bufsize && |mask| == 4 && |rest| < h
    ensures ReadFrame(Conn([TEXT_FINAL, h + 128] + (mask + rest), head + ([4] + more)), bufsize).0 == Outcome(ERROR, [], None)
  {
    TextDelivers(h, bufsize, head, mask + rest, [4] + more);
    ReadOnceDelivers(mask, rest, more);
    ReadAllShort(Conn(rest, more), h);
  }

  /** A ping whose bytes come in two pieces gets an empty pong, and the second piece is left in the stream. */
  lemma PingInPieces(first: Byte, second: Byte, bufsize: nat, head: seq<nat>, rest: seq<Byte>, cut: nat, more: seq<nat>)
    requires Adds(head, 2) && first % 16 == 9 && 0 < cut < second % 128 <= 125 && second % 128 <= |rest|
    ensures ReadFrame(Conn([first, second] + rest, head + ([cut] + more)), bufsize)
      == (Outcome(1, [Pong([])], None), Conn(rest[cut..], more))
  {
    HeadDelivers(first, second, 9, second % 128, bufsize, head, rest, [cut] + more);
    ReadOnceInPieces(rest, second % 128, cut, more);
  }

  /** What a read gave, after bytes that are already there. */
  ghost function After(done: seq<Byte>, r: (Option<seq<Byte>>, Conn)): (Option<seq<Byte>>, Conn) {
    match r.0
    case None => r
    case Some(b) => (Some(done + b), r.1)
  }

  lemma AfterNothing(r: (Option<seq<Byte>>, Conn))
    ensures After([], r) == r
  {
    if r.0.Some? {
      assert [] + r.0.value == r.0.value;
    }
  }

  /** What is there already and what is still to be read make the goal. */
  ghost predicate Toward(done: seq<Byte>, c: Conn, need: nat, goal: (Option<seq<Byte>>, Conn)) {
    After(done, ReadAll(c, need)) == goal
  }

  /** One more piece. */
  lemma TowardNext(done: seq<Byte>, c: Conn, need: nat, goal: (Option<seq<Byte>>, Conn))
    requires need > 0 && Toward(done, c, need, goal)
    ensures var (o, c') := Read(c, need);
      match o
      case None => goal == (None, c')
      case Some(b) => Toward(done + b, c', need - |b|, goal)
  {
    var (o, c') := Read(c, need);
    if o.Some? {
      var (more, c'') := ReadAll(c', need - |o.value|);
      if more.Some? {
        assert done + (o.value + more.value) == (done + o.value) + more.value;
      }
    }
  }

  lemma TowardEnd(done: seq<Byte>, c: Conn, goal: (Option<seq<Byte>>, Conn))
    requires Toward(done, c, 0, goal)
    ensures goal == (Some(done), c)
  {
    assert done + [] == done;
  }

  // ----- ws_read in place -----

  class Socket {
    var conn: Conn
    var sent: seq<Control>

    constructor (conn: Conn)
      ensures this.conn == conn && sent == []
    {
      this.conn, sent := conn, [];
    }

    method SslRead(max: nat) returns (r: int, bytes: seq<Byte>)
      modifies this`conn
      ensures match Read(old(conn), max)
        case (None, c) => r <= 0 && bytes == [] && conn == c
        case (Some(b), c) => r == |b| && bytes == b && conn == c
    {
      var (o, c) := Read(conn, max);
      conn := c;
      r, bytes := if o.Some? then |o.value| else -1, if o.Some? then o.value else [];
    }

    /** One read into a buffer that is filled up to `received`. */
    method FillPiece(dest: array<Byte>, received: nat, need: nat) returns (r: int)
      requires received < need <= dest.Length
      modifies this`conn, dest
      ensures conn == Read(old(conn), need - received).1
      ensures match Read(old(conn), need - received).0
        case None => r <= 0
        case Some(b) => r == |b| && dest[..received + r] == old(dest[..received]) + b
    {
      var bytes;
      r, bytes := SslRead(need - received);
      if r > 0 {
        Store(dest, received, bytes);
      }
    }

    /** The read loops of ws_read, into a buffer from the front on. */
    method FillFrom(dest: array<Byte>, need: nat) returns (ok: bool)
      requires need <= dest.Length
      modifies this`conn, dest
      ensures conn == ReadAll(old(conn), need).1
      ensures match ReadAll(old(conn), need).0
        case None => !ok
        case Some(b) => ok && dest[..need] == b
    {
      var received := 0;
      ghost var goal := ReadAll(conn, need);
      AfterNothing(goal);
      assert dest[..0] == [];
      while received < need
        invariant 0 <= received <= need
        invariant Toward(dest[..received], conn, need - received, goal)
      {
        TowardNext(dest[..received], conn, need - received, goal);
        var r := FillPiece(dest, received, need);
        if r <= 0 {
          return false;
        }
        received := received + r;
      }
      ok := true;
      TowardEnd(dest[..need], conn, goal);
    }

    method Store(dest: array<Byte>, at: nat, bytes: seq<Byte>)
      requires at + |bytes| <= dest.Length
      modifies dest
      ensures dest[..at + |bytes|] == old(dest[..at]) + bytes
    {
      var i := 0;
      while i < |bytes|
        invariant 0 <= i <= |bytes|
        invariant dest[..at + i] == old(dest[..at]) + bytes[..i]
      {
        dest[at + i] := bytes[i];
        i := i + 1;
      }
    }

    /** The loop that takes the mask off. */
    method Unmask(dest: array<Byte>, len: nat, mask: seq<Byte>)
      requires len <= dest.Length && |mask| == 4
      modifies dest
      ensures dest[..len] == Masked(old(dest[..len]), mask) && dest[len..] == old(dest[len..])
      ensures XorOf(dest[..len], old(dest[..len]), mask)
    {
      var i := 0;
      while i < len
        invariant 0 <= i <= len
        invariant forall k | 0 <= k < i :: dest[k] == MaskByte(old(dest[k]), mask[k % 4])
        invariant forall k | i <= k < dest.Length :: dest[k] == old(dest[k])
      {
        dest[i] := MaskByte(dest[i], mask[i % 4]);
        i := i + 1;
      }
      MaskedIsXor(old(dest[..len]), mask);
    }

    /** The pong for a ping. */
    method Ping(len: nat) returns (ret: int)
      modifies this
      ensures var (o, c) := AnswerPing(old(conn), len);
        ret == o.ret && conn == c && sent == old(sent) + o.sent
    {
      if 0 < len <= PING_MAX {
        var r, payload := SslRead(len);
        if r != len {
          sent := sent + [Pong([])];
          return 1;
        }
        sent := sent + [Pong(payload)];
      } else {
        sent := sent + [Pong([])];
      }
      ret := 1;
    }

    /** ws_read, after the opcode of a text frame. */
    method Body(buf: array<Byte>, len7: nat) returns (ret: int)
      modifies this, buf
      ensures var (o, c) := ReadBody(old(conn), len7, buf.Length);
        && ret == o.ret && conn == c && sent == old(sent) + o.sent
        && (o.got.Some? ==> |o.got.value| <= buf.Length && buf[..|o.got.value|] == o.got.value)
    {
      var len := len7;
      if len7 == 126 || len7 == 127 {
        var want := if len7 == 126 then 2 else 8;
        var r, ext := SslRead(want);
        if r != want {
          return ERROR;
        }
        len := Value(ext);
      }
      if len > buf.Length {
        return ERROR;
      }
      var r, mask := SslRead(4);
      if r != 4 {
        sent := sent + [Close(1002)];
        return 0;
      }
      var ok := FillFrom(buf, len);
      if !ok {
        return ERROR;
      }
      Unmask(buf, len, mask);
      ret := ToInt(len);
    }

    /** ws_read */
    method WsRead(buf: array<Byte>) returns (ret: int)
      modifies this, buf
      ensures var (o, c) := ReadFrame(old(conn), buf.Length);
        && ret == o.ret && conn == c && sent == old(sent) + o.sent
        && (o.got.Some? ==> |o.got.value| <= buf.Length && buf[..|o.got.value|] == o.got.value)
    {
      var header := new Byte[2](_ => 0);
      var ok := FillFrom(header, 2);
      if !ok {
        return ERROR;
      }
      assert header[..2] == [header[0], header[1]];
      var opcode, len := header[0] % 16, header[1] % 128;
      if opcode == 8 {
        sent := sent + [Close(1000)];
        return SUCCESS;
      } else if opcode == 9 {
        ret := Ping(len);
        return;
      } else if opcode != 1 {
        sent := sent + [Close(1002)];
        return 0;
      }
      ret := Body(buf, len);
    }
  }
}
