/** UTF-8, against the Unicode standard's own definition: tags are texts, in their one encoding. */
module Text {
  import opened Basics
  import opened State

  /** A Unicode scalar value: any code point but the surrogates. */
  predicate Scalar(c: int) {
    0 <= c < 0xD800 || 0xE000 <= c < 0x110000
  }

  /** Table 3-6 of the Unicode Standard: the bits of a scalar value over one to four bytes. */
  function ScalarBytes(c: int): bytes
    requires Scalar(c)
  {
    if c < 0x80 then [c]
    else if c < 0x800 then [0xC0 + c / 0x40, 0x80 + c % 0x40]
    else if c < 0x1_0000 then [0xE0 + c / 0x1000, 0x80 + c / 0x40 % 0x40, 0x80 + c % 0x40]
    else [0xF0 + c / 0x4_0000, 0x80 + c / 0x1000 % 0x40, 0x80 + c / 0x40 % 0x40, 0x80 + c % 0x40]
  }

  ghost predicate Scalars(s: seq<int>) {
    forall i :: 0 <= i < |s| ==> Scalar(s[i])
  }

  function TextBytes(s: seq<int>): bytes
    requires forall i :: 0 <= i < |s| ==> Scalar(s[i])
  {
    if s == [] then [] else ScalarBytes(s[0]) + TextBytes(s[1..])
  }

  /** The scalar value that two, three or four bytes stand for. */
  function Two(x: int, y: int): int {
    (x - 0xC0) * 0x40 + (y - 0x80)
  }

  function Three(x: int, y: int, z: int): int {
    (x - 0xE0) * 0x1000 + (y - 0x80) * 0x40 + (z - 0x80)
  }

  function Four(x: int, y: int, z: int, w: int): int {
    (x - 0xF0) * 0x4_0000 + (y - 0x80) * 0x1000 + (z - 0x80) * 0x40 + (w - 0x80)
  }

  lemma TwoBack(x: int, y: int)
    requires 0xC2 <= x <= 0xDF && 0x80 <= y <= 0xBF
    ensures var c := Two(x, y); 0x80 <= c < 0x800 && 0xC0 + c / 0x40 == x && 0x80 + c % 0x40 == y
  {
  }

  lemma ThreeBack(x: int, y: int, z: int)
    requires 0xE0 <= x <= 0xEF && 0x80 <= y <= 0xBF && 0x80 <= z <= 0xBF
    ensures var c := Three(x, y, z);
            && 0 <= c < 0x1_0000 && (x != 0xE0 || y >= 0xA0 ==> 0x800 <= c)
            && (x != 0xED || y <= 0x9F ==> c < 0xD800 || 0xE000 <= c)
            && 0xE0 + c / 0x1000 == x && 0x80 + c / 0x40 % 0x40 == y && 0x80 + c % 0x40 == z
  {
    var c := Three(x, y, z);
    assert c / 0x40 == (x - 0xE0) * 0x40 + (y - 0x80);
  }

  lemma FourBack(x: int, y: int, z: int, w: int)
    requires 0xF0 <= x <= 0xF4 && 0x80 <= y <= 0xBF && 0x80 <= z <= 0xBF && 0x80 <= w <= 0xBF
    ensures var c := Four(x, y, z, w);
            && 0 <= c && (x != 0xF0 || y >= 0x90 ==> 0x1_0000 <= c) && (x != 0xF4 || y <= 0x8F ==> c < 0x11_0000)
            && 0xF0 + c / 0x4_0000 == x && 0x80 + c / 0x1000 % 0x40 == y && 0x80 + c / 0x40 % 0x40 == z
            && 0x80 + c % 0x40 == w
  {
    var c := Four(x, y, z, w);
    assert c / 0x40 == (x - 0xF0) * 0x1000 + (y - 0x80) * 0x40 + (z - 0x80);
    assert c / 0x1000 == (x - 0xF0) * 0x40 + (y - 0x80);
  }

  /** What the reader accepts at the front of `b` is one scalar value in its own encoding. */
  lemma FrontIsScalar(b: bytes) returns (c: int)
    requires b != [] && ScalarLength(b) > 0
    ensures Scalar(c) && ScalarBytes(c) == b[..ScalarLength(b)]
  {
    if ScalarLength(b) == 1 {
      c := b[0];
    } else if ScalarLength(b) == 2 {
      c := Two(b[0], b[1]);
      TwoBack(b[0], b[1]);
      hide Two;
    } else if ScalarLength(b) == 3 {
      c := Three(b[0], b[1], b[2]);
      ThreeBack(b[0], b[1], b[2]);
      hide Three;
    } else {
      c := Four(b[0], b[1], b[2], b[3]);
      FourBack(b[0], b[1], b[2], b[3]);
      hide Four;
    }
  }

  lemma ScalarIsRead(c: int, rest: bytes)
    requires Scalar(c)
    ensures ScalarLength(ScalarBytes(c) + rest) == |ScalarBytes(c)|
    ensures (ScalarBytes(c) + rest)[|ScalarBytes(c)|..] == rest
  {
    var b := ScalarBytes(c) + rest;
    assert forall i :: 0 <= i < |ScalarBytes(c)| ==> b[i] == ScalarBytes(c)[i];
  }

  lemma {:induction false} TextIsUtf8(s: seq<int>)
    requires Scalars(s)
    ensures Utf8(TextBytes(s))
  {
    if s != [] {
      TextIsUtf8(s[1..]);
      ScalarIsRead(s[0], TextBytes(s[1..]));
    }
  }

  lemma {:induction false} Utf8IsText(b: bytes) returns (s: seq<int>)
    requires Utf8(b)
    ensures Scalars(s) && TextBytes(s) == b
    decreases |b|
  {
    s := [];
    if b != [] {
      var n := ScalarLength(b);
      var c := FrontIsScalar(b);
      var rest := Utf8IsText(b[n..]);
      s := [c] + rest;
      assert s[1..] == rest;
    }
  }

  /** The bytes that a tag may have are exactly the encodings of texts. */
  lemma Utf8Exactly(b: bytes)
    ensures Utf8(b) <==> exists s: seq<int> :: Scalars(s) && TextBytes(s) == b
  {
    if Utf8(b) {
      var s := Utf8IsText(b);
    }
    if s: seq<int> :| Scalars(s) && TextBytes(s) == b {
      TextIsUtf8(s);
    }
  }
}
