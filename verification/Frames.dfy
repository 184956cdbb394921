/**
 * The binary frame codec (src/protocol.rs): one type byte, 36 bytes of id, then the payload.
 * UTF-8 validity of the id is section 4 of RFC 3629.
 */
module Frames {
  import opened Common

  const PTY_OUTPUT: byte := 0x01
  const PTY_INPUT: byte := 0x02
  const PTY_SCROLLBACK: byte := 0x03
  const PTY_FILE_CHUNK: byte := 0x04
  const PTY_FILE_DOWNLOAD_CHUNK: byte := 0x05
  const ID_LEN: nat := 36
  const BINARY_HEADER_LEN: nat := 1 + ID_LEN
  const SPACE: byte := 0x20

  datatype Frame = Frame(kind: byte, id: Bytes, payload: Bytes)

  datatype ProtocolError =
    | FrameTooShort(got: nat, expected: nat)
    | UnknownFrameType(kind: byte)
    | InvalidUuid

  predicate Known(kind: byte) {
    kind in {PTY_OUTPUT, PTY_INPUT, PTY_SCROLLBACK, PTY_FILE_CHUNK, PTY_FILE_DOWNLOAD_CHUNK}
  }

  // ---------------------------------------------------------------- UTF-8

  predicate Between(b: byte, lo: int, hi: int) {
    lo <= b <= hi
  }

  /** A continuation byte (UTF8-tail). */
  predicate Tail(b: byte) {
    Between(b, 0x80, 0xBF)
  }

  /** Length of the character a first byte announces, zero if it cannot start one. */
  function Announced(b: byte): nat {
    if b <= 0x7F then 1
    else if Between(b, 0xC2, 0xDF) then 2
    else if Between(b, 0xE0, 0xEF) then 3
    else if Between(b, 0xF0, 0xF4) then 4
    else 0
  }

  /** The second byte of a long character is restricted further for some first bytes. */
  predicate SecondOk(first: byte, second: byte) {
    && Tail(second)
    && (first == 0xE0 ==> second >= 0xA0)
    && (first == 0xED ==> second <= 0x9F)
    && (first == 0xF0 ==> second >= 0x90)
    && (first == 0xF4 ==> second <= 0x8F)
  }

  /** The bytes start with a whole character (UTF8-1, -2, -3 or -4). */
  predicate StartsWithChar(s: Bytes) {
    && s != []
    && 0 < Announced(s[0]) <= |s|
    && (Announced(s[0]) > 1 ==> SecondOk(s[0], s[1]))
    && (Announced(s[0]) > 2 ==> Tail(s[2]))
    && (Announced(s[0]) > 3 ==> Tail(s[3]))
  }

  predicate ValidUtf8(s: Bytes)
    decreases |s|
  {
    s == [] || (StartsWithChar(s) && ValidUtf8(s[Announced(s[0])..]))
  }

  lemma CharThenRest(first: Bytes, rest: Bytes)
    requires StartsWithChar(first)
    ensures StartsWithChar(first + rest) && (first + rest)[0] == first[0]
    ensures (first + rest)[Announced(first[0])..] == first[Announced(first[0])..] + rest
  {
  }

  lemma {:induction false} ValidConcat(a: Bytes, b: Bytes)
    requires ValidUtf8(a) && ValidUtf8(b)
    ensures ValidUtf8(a + b)
    decreases |a|
  {
    if a == [] {
      assert a + b == b;
    } else {
      var n := Announced(a[0]);
      CharThenRest(a, b);
      ValidConcat(a[n..], b);
    }
  }

  /** `is_char_boundary`: a valid string can be cut exactly where the next byte is no continuation. */
  lemma {:induction false} CutAtBoundary(s: Bytes, k: nat)
    requires ValidUtf8(s) && k <= |s|
    ensures ValidUtf8(s[..k]) <==> (k == |s| || !Tail(s[k]))
    decreases |s|
  {
    if s == [] || k == 0 {
    } else {
      var n := Announced(s[0]);
      if k >= n {
        CutAtBoundary(s[n..], k - n);
        assert s[..k][n..] == s[n..][..k - n];
      }
    }
  }

  /** A Unicode scalar value: a code point that is no surrogate. */
  type Scalar = c: int | 0 <= c <= 0x10FFFF && !(0xD800 <= c <= 0xDFFF)

  /** The encoding of one scalar value (section 3 of RFC 3629). */
  function EncodeOne(c: Scalar): (s: Bytes)
    ensures s != []
  {
    if c < 0x80 then [c]
    else if c < 0x800 then [0xC0 + c / 0x40, 0x80 + c % 0x40]
    else if c < 0x10000 then [0xE0 + c / 0x1000, 0x80 + c / 0x40 % 0x40, 0x80 + c % 0x40]
    else [0xF0 + c / 0x40000, 0x80 + c / 0x1000 % 0x40, 0x80 + c / 0x40 % 0x40, 0x80 + c % 0x40]
  }

  function Encode(cs: seq<Scalar>): Bytes {
    if cs == [] then [] else EncodeOne(cs[0]) + Encode(cs[1..])
  }

  lemma OneIsChar(c: Scalar)
    ensures StartsWithChar(EncodeOne(c))
    ensures Announced(EncodeOne(c)[0]) == |EncodeOne(c)|
  {
    if c < 0x80 {
    } else if c < 0x800 {
    } else if c < 0x10000 {
      assert Between(0xE0 + c / 0x1000, 0xE0, 0xEF);
    } else {
      assert Between(0xF0 + c / 0x40000, 0xF0, 0xF4);
    }
  }

  /** A number put together from a head and base-64 digits comes apart into them. */
  lemma Digits(head: int, d2: int, d1: int, d0: int)
    requires 0 <= head && 0 <= d2 < 0x40 && 0 <= d1 < 0x40 && 0 <= d0 < 0x40
    ensures
      var c := ((head * 0x40 + d2) * 0x40 + d1) * 0x40 + d0;
      && c % 0x40 == d0 && c / 0x40 % 0x40 == d1 && c / 0x1000 % 0x40 == d2 && c / 0x40000 == head
  {
    var c := ((head * 0x40 + d2) * 0x40 + d1) * 0x40 + d0;
    assert c / 0x40 == (head * 0x40 + d2) * 0x40 + d1;
    assert c / 0x1000 == head * 0x40 + d2;
  }

  /** Whole characters of one and two, three, and four bytes are encodings of scalar values. */
  lemma ShortChar(s: Bytes) returns (c: Scalar)
    requires StartsWithChar(s) && Announced(s[0]) <= 2
    ensures s[..Announced(s[0])] == EncodeOne(c)
  {
    if Announced(s[0]) == 1 {
      c := s[0];
    } else {
      var head: int, d0: int := s[0] - 0xC0, s[1] - 0x80;
      c := head * 0x40 + d0;
    }
  }

  lemma ThreeByteChar(s: Bytes) returns (c: Scalar)
    requires StartsWithChar(s) && Announced(s[0]) == 3
    ensures s[..3] == EncodeOne(c)
  {
    var head: int, d1: int, d0: int := s[0] - 0xE0, s[1] - 0x80, s[2] - 0x80;
    Digits(0, head, d1, d0);
    c := (head * 0x40 + d1) * 0x40 + d0;
    assert EncodeOne(c) == [s[0], s[1], s[2]];
  }

  lemma FourByteChar(s: Bytes) returns (c: Scalar)
    requires StartsWithChar(s) && Announced(s[0]) == 4
    ensures s[..4] == EncodeOne(c)
  {
    var head: int, d2: int, d1: int, d0: int := s[0] - 0xF0, s[1] - 0x80, s[2] - 0x80, s[3] - 0x80;
    Digits(head, d2, d1, d0);
    c := ((head * 0x40 + d2) * 0x40 + d1) * 0x40 + d0;
    assert EncodeOne(c) == [s[0], s[1], s[2], s[3]];
  }

  lemma CharIsOne(s: Bytes) returns (c: Scalar)
    requires StartsWithChar(s)
    ensures s[..Announced(s[0])] == EncodeOne(c)
  {
    if Announced(s[0]) <= 2 {
      c := ShortChar(s);
    } else if Announced(s[0]) == 3 {
      c := ThreeByteChar(s);
    } else {
      c := FourByteChar(s);
    }
  }

  lemma {:induction false} EncodedIsValid(cs: seq<Scalar>)
    ensures ValidUtf8(Encode(cs))
  {
    if cs != [] {
      EncodedIsValid(cs[1..]);
      OneIsChar(cs[0]);
      CharThenRest(EncodeOne(cs[0]), Encode(cs[1..]));
      var n := |EncodeOne(cs[0])|;
      assert Encode(cs)[n..] == Encode(cs[1..]);
    }
  }

  lemma {:induction false} ValidIsEncoded(s: Bytes) returns (cs: seq<Scalar>)
    requires ValidUtf8(s)
    ensures Encode(cs) == s
    decreases |s|
  {
    if s == [] {
      cs := [];
    } else {
      var n := Announced(s[0]);
      var c := CharIsOne(s);
      var rest := ValidIsEncoded(s[n..]);
      cs := [c] + rest;
      assert cs[1..] == rest && s == s[..n] + s[n..];
    }
  }

  /** The byte grammar accepts exactly the encodings of sequences of scalar values. */
  lemma Utf8Exactly(s: Bytes)
    ensures ValidUtf8(s) <==> exists cs :: Encode(cs) == s
  {
    if ValidUtf8(s) {
      var cs := ValidIsEncoded(s);
    }
    forall cs | Encode(cs) == s ensures ValidUtf8(s) {
      EncodedIsValid(cs);
    }
  }

  // ---------------------------------------------------------------- codec

  function Spaces(n: nat): Bytes {
    seq(n, _ => SPACE)
  }

  /** The id slot: cut to 36 bytes, or filled up with spaces. */
  function Padded(id: Bytes): (slot: Bytes)
    ensures |slot| == ID_LEN
  {
    var n := Min(|id|, ID_LEN);
    id[..n] + Spaces(ID_LEN - n)
  }

  function Build(frame: Frame): Bytes {
    [frame.kind] + Padded(frame.id) + frame.payload
  }

  /** `parse_binary_frame` */
  function Parse(data: Bytes): Result<Frame, ProtocolError> {
    if |data| < BINARY_HEADER_LEN then Err(FrameTooShort(|data|, BINARY_HEADER_LEN))
    else if !Known(data[0]) then Err(UnknownFrameType(data[0]))
    else if !ValidUtf8(data[1..BINARY_HEADER_LEN]) then Err(InvalidUuid)
    else Ok(Frame(data[0], data[1..BINARY_HEADER_LEN], data[BINARY_HEADER_LEN..]))
  }

  /** `build_binary_frame`: pad the id into a fixed buffer, then append the parts. */
  method BuildBinaryFrame(kind: byte, id: Bytes, payload: Bytes) returns (buf: Bytes)
    ensures buf == Build(Frame(kind, id, payload))
  {
    buf := [kind];
    var padded := new byte[ID_LEN](_ => SPACE);
    var copyLen := if |id| < ID_LEN then |id| else ID_LEN;
    var i := 0;
    while i < copyLen
      invariant 0 <= i <= copyLen
      invariant padded[..i] == id[..i]
      invariant forall j :: i <= j < ID_LEN ==> padded[j] == SPACE
    {
      padded[i] := id[i];
      i := i + 1;
    }
    assert padded[copyLen..] == Spaces(ID_LEN - copyLen);
    assert padded[..] == padded[..copyLen] + padded[copyLen..];
    buf := buf + padded[..];
    buf := buf + payload;
  }

  lemma {:induction false} SpacesValid(n: nat)
    ensures ValidUtf8(Spaces(n))
  {
    if n > 0 {
      SpacesValid(n - 1);
      assert Spaces(n)[1..] == Spaces(n - 1);
    }
  }

  lemma FilledValid(id: Bytes)
    requires ValidUtf8(id) && |id| <= ID_LEN
    ensures ValidUtf8(Padded(id))
  {
    SpacesValid(ID_LEN - |id|);
    ValidConcat(id, Spaces(ID_LEN - |id|));
    assert Padded(id) == id + Spaces(ID_LEN - |id|);
  }

  /** Filling up a short id keeps it valid; cutting a long one does exactly at a character boundary. */
  lemma PaddedValid(id: Bytes)
    requires ValidUtf8(id)
    ensures ValidUtf8(Padded(id)) <==> (|id| <= ID_LEN || !Tail(id[ID_LEN]))
  {
    if |id| <= ID_LEN {
      FilledValid(id);
    } else {
      CutAtBoundary(id, ID_LEN);
      assert Padded(id) == id[..ID_LEN];
    }
  }

  /** The slot byte by byte: the id as far as it goes, then spaces. */
  lemma PaddedExactly(id: Bytes)
    ensures |Padded(id)| == 36
    ensures forall i :: 0 <= i < 36 ==> Padded(id)[i] == if i < |id| then id[i] else 0x20
  {
  }

  /**
   * Exactly when a frame is accepted or refused, and why: it has 37 bytes at least, a type from 1
   * to 5, and an id that encodes a sequence of Unicode scalar values; then its parts are those
   * bytes.
   */
  lemma ParseExactly(data: Bytes)
    ensures Parse(data) == Err(FrameTooShort(|data|, 37)) <==> |data| < 37
    ensures |data| >= 37 ==>
      var known := 1 <= data[0] <= 5;
      var text := exists cs :: Encode(cs) == data[1..37];
      && (Parse(data) == Err(UnknownFrameType(data[0])) <==> !known)
      && (Parse(data) == Err(InvalidUuid) <==> known && !text)
      && (Parse(data) == Ok(Frame(data[0], data[1..37], data[37..])) <==> known && text)
  {
    if |data| >= 37 {
      Utf8Exactly(data[1..37]);
    }
  }

  /** Building what was parsed gives back every byte of an accepted frame. */
  lemma BuildUndoesParse(data: Bytes)
    requires Parse(data).Ok?
    ensures Build(Parse(data).value) == data
    ensures |Parse(data).value.payload| == |data| - BINARY_HEADER_LEN
  {
    var frame := Parse(data).value;
    assert Padded(frame.id) == frame.id;
    assert data == [data[0]] + data[1..BINARY_HEADER_LEN] + data[BINARY_HEADER_LEN..];
  }

  /**
   * Parsing what was built gives back the type, the padded id and the payload, for every
   * string id, if and only if the type is known and the id is not cut inside a character; the
   * error otherwise says which of the two failed.
   */
  lemma ParseUndoesBuild(frame: Frame)
    requires ValidUtf8(frame.id)
    ensures
      Parse(Build(frame)) ==
      if !Known(frame.kind) then Err(UnknownFrameType(frame.kind))
      else if |frame.id| > ID_LEN && Tail(frame.id[ID_LEN]) then Err(InvalidUuid)
      else Ok(frame.(id := Padded(frame.id)))
  {
    PaddedValid(frame.id);
    var data := Build(frame);
    assert data[1..BINARY_HEADER_LEN] == Padded(frame.id);
    assert data[BINARY_HEADER_LEN..] == frame.payload;
  }

  /** Ids for which the round trip fails: a two-byte character astride the end of the slot. */
  lemma CutCharacterIsRefused(kind: byte, payload: Bytes)
    requires Known(kind)
    ensures
      var id := Letters(ID_LEN - 1) + [0xC3, 0xA9];
      ValidUtf8(id) && Parse(Build(Frame(kind, id, payload))) == Err(InvalidUuid)
  {
    LettersValid(ID_LEN - 1);
    assert StartsWithChar([0xC3, 0xA9]) && [0xC3, 0xA9][2..] == [];
    ValidConcat(Letters(ID_LEN - 1), [0xC3, 0xA9]);
    ParseUndoesBuild(Frame(kind, Letters(ID_LEN - 1) + [0xC3, 0xA9], payload));
  }

  function Letters(n: nat): Bytes {
    seq(n, _ => 0x61)
  }

  lemma {:induction false} LettersValid(n: nat)
    ensures ValidUtf8(Letters(n))
  {
    if n > 0 {
      LettersValid(n - 1);
      assert Letters(n)[1..] == Letters(n - 1);
    }
  }
}
