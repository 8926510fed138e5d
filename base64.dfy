/**
 * Base64 with the standard alphabet and '=' padding (section 4 of RFC 4648),
 * as Python's base64.b64encode / b64decode use it.
 */
module Base64 {
  import opened Values

  /** The 64 characters of the alphabet (RFC 4648, Table 1). */
  predicate IsBase64Char(c: char) {
    ('A' <= c <= 'Z') || ('a' <= c <= 'z') || ('0' <= c <= '9') || c == '+' || c == '/'
  }

  /** A character that may occur in encoded text: the alphabet or the pad character. */
  predicate IsEncodedChar(c: char) {
    IsBase64Char(c) || c == '='
  }

  /** Text made only of alphabet and pad characters, in whole 4-character groups. */
  predicate IsBase64Text(s: string) {
    |s| % 4 == 0 && forall i | 0 <= i < |s| :: IsEncodedChar(s[i])
  }

  function CharOf(i: int): (c: char)
    requires 0 <= i < 64
    ensures IsBase64Char(c)
  {
    if i < 26 then ('A' as int + i) as char
    else if i < 52 then ('a' as int + (i - 26)) as char
    else if i < 62 then ('0' as int + (i - 52)) as char
    else if i == 62 then '+'
    else '/'
  }

  function IndexOf(c: char): (i: int)
    requires IsBase64Char(c)
    ensures 0 <= i < 64
  {
    if 'A' <= c <= 'Z' then c as int - 'A' as int
    else if 'a' <= c <= 'z' then c as int - 'a' as int + 26
    else if '0' <= c <= '9' then c as int - '0' as int + 52
    else if c == '+' then 62
    else 63
  }

  lemma IndexOfCharOf(i: int)
    requires 0 <= i < 64
    ensures IndexOf(CharOf(i)) == i
  {
  }

  /** One group of 1 to 3 bytes as 4 characters, padded with '=' when short. */
  function EncodeGroup(g: seq<byte>): (q: string)
    requires 1 <= |g| <= 3
    ensures |q| == 4 && IsBase64Text(q)
  {
    var c0 := CharOf(g[0] / 4);
    if |g| == 1 then [c0, CharOf((g[0] % 4) * 16), '=', '=']
    else
      var c1 := CharOf((g[0] % 4) * 16 + g[1] / 16);
      if |g| == 2 then [c0, c1, CharOf((g[1] % 16) * 4), '=']
      else [c0, c1, CharOf((g[1] % 16) * 4 + g[2] / 64), CharOf(g[2] % 64)]
  }

  /** b64encode: every 3 bytes become 4 characters. */
  function Encode(b: seq<byte>): (s: string)
    ensures |s| == 4 * ((|b| + 2) / 3)
    ensures IsBase64Text(s)
    decreases |b|
  {
    if |b| == 0 then ""
    else if |b| <= 3 then EncodeGroup(b)
    else
      var head, tail := EncodeGroup(b[..3]), Encode(b[3..]);
      assert (|b| + 2) / 3 == 1 + (|b| - 3 + 2) / 3;
      ConcatBase64Text(head, tail);
      head + tail
  }

  /** Whole groups joined are whole groups. */
  lemma ConcatBase64Text(a: string, b: string)
    requires IsBase64Text(a) && IsBase64Text(b)
    ensures IsBase64Text(a + b)
  {
    var s := a + b;
    forall i | 0 <= i < |s| ensures IsEncodedChar(s[i]) {
      if i >= |a| { assert s[i] == b[i - |a|]; }
    }
  }

  /**
   * One group of 4 characters.  Padding is accepted only in the last group;
   * as in Python, the unused low bits before the padding are ignored.
   */
  function DecodeGroup(q: string, last: bool): Option<seq<byte>>
    requires |q| == 4
  {
    if !IsBase64Char(q[0]) || !IsBase64Char(q[1]) then None
    else
      var i0, i1 := IndexOf(q[0]), IndexOf(q[1]);
      if last && q[2] == '=' && q[3] == '=' then Some([i0 * 4 + i1 / 16])
      else if !IsBase64Char(q[2]) then None
      else
        var i2 := IndexOf(q[2]);
        if last && q[3] == '=' then Some([i0 * 4 + i1 / 16, (i1 % 16) * 16 + i2 / 4])
        else if !IsBase64Char(q[3]) then None
        else
          var i3 := IndexOf(q[3]);
          Some([i0 * 4 + i1 / 16, (i1 % 16) * 16 + i2 / 4, (i2 % 4) * 64 + i3])
  }

  /** b64decode of clean text; None where Python raises binascii.Error or would skip characters. */
  function Decode(s: string): (r: Option<seq<byte>>)
    ensures r.Some? ==> |s| % 4 == 0 && |r.value| <= 3 * (|s| / 4)
    ensures r.Some? && |s| > 0 ==> 3 * (|s| / 4) - 2 <= |r.value|
    decreases |s|
  {
    if |s| == 0 then Some([])
    else if |s| < 4 then None
    else
      match DecodeGroup(s[..4], |s| == 4)
      case None => None
      case Some(group) =>
        match Decode(s[4..])
        case None => None
        case Some(rest) => Some(group + rest)
  }

  lemma DivOfSum16(hi: int, lo: int)
    requires 0 <= lo < 16 && 0 <= hi
    ensures (hi * 16 + lo) / 16 == hi && (hi * 16 + lo) % 16 == lo
  {
  }

  lemma DivOfSum4(hi: int, lo: int)
    requires 0 <= lo < 4 && 0 <= hi
    ensures (hi * 4 + lo) / 4 == hi && (hi * 4 + lo) % 4 == lo
  {
  }

  lemma DecodeGroup1(b0: byte)
    ensures DecodeGroup([CharOf(b0 / 4), CharOf((b0 % 4) * 16), '=', '='], true) == Some([b0])
  {
    var x0, x1 := b0 / 4, (b0 % 4) * 16;
    IndexOfCharOf(x0); IndexOfCharOf(x1);
    DivOfSum16(b0 % 4, 0);
  }

  lemma DecodeGroup2(b0: byte, b1: byte)
    ensures DecodeGroup([CharOf(b0 / 4), CharOf((b0 % 4) * 16 + b1 / 16), CharOf((b1 % 16) * 4), '='], true)
            == Some([b0, b1])
  {
    var x0, x1, x2 := b0 / 4, (b0 % 4) * 16 + b1 / 16, (b1 % 16) * 4;
    IndexOfCharOf(x0); IndexOfCharOf(x1); IndexOfCharOf(x2);
    DivOfSum16(b0 % 4, b1 / 16);
    DivOfSum4(b1 % 16, 0);
  }

  lemma DecodeGroup3(b0: byte, b1: byte, b2: byte, last: bool)
    ensures DecodeGroup([CharOf(b0 / 4), CharOf((b0 % 4) * 16 + b1 / 16),
                         CharOf((b1 % 16) * 4 + b2 / 64), CharOf(b2 % 64)], last)
            == Some([b0, b1, b2])
  {
    var x0, x1 := b0 / 4, (b0 % 4) * 16 + b1 / 16;
    var x2, x3 := (b1 % 16) * 4 + b2 / 64, b2 % 64;
    IndexOfCharOf(x0); IndexOfCharOf(x1); IndexOfCharOf(x2); IndexOfCharOf(x3);
    DivOfSum16(b0 % 4, b1 / 16);
    DivOfSum4(b1 % 16, b2 / 64);
  }

  lemma DecodeEncodeSingle(g: seq<byte>)
    requires |g| == 1
    ensures DecodeGroup(EncodeGroup(g), true) == Some(g)
  {
    DecodeGroup1(g[0]);
    assert [g[0]] == g;
  }

  lemma DecodeEncodePair(g: seq<byte>)
    requires |g| == 2
    ensures DecodeGroup(EncodeGroup(g), true) == Some(g)
  {
    DecodeGroup2(g[0], g[1]);
    assert [g[0], g[1]] == g;
  }

  lemma DecodeEncodeTriple(g: seq<byte>, last: bool)
    requires |g| == 3
    ensures DecodeGroup(EncodeGroup(g), last) == Some(g)
  {
    DecodeGroup3(g[0], g[1], g[2], last);
    assert [g[0], g[1], g[2]] == g;
  }

  /** A group Encode makes decodes to its bytes; a full group also when it is not the last. */
  lemma DecodeEncodeGroup(g: seq<byte>, last: bool)
    requires 1 <= |g| <= 3
    requires |g| < 3 ==> last
    ensures DecodeGroup(EncodeGroup(g), last) == Some(g)
  {
    if |g| == 1 {
      DecodeEncodeSingle(g);
    } else if |g| == 2 {
      DecodeEncodePair(g);
    } else {
      DecodeEncodeTriple(g, last);
    }
  }

  lemma DecodeOneGroup(s: string)
    requires |s| == 4
    ensures Decode(s) == DecodeGroup(s, true)
  {
    assert s[..4] == s && s[4..] == [];
    match DecodeGroup(s, true)
    case None =>
    case Some(g) => assert g + [] == g;
  }

  /** Decoding undoes encoding. */
  lemma {:induction false} DecodeEncode(b: seq<byte>)
    ensures Decode(Encode(b)) == Some(b)
    decreases |b|
  {
    if |b| == 0 {
    } else if |b| <= 3 {
      DecodeEncodeGroup(b, true);
      DecodeOneGroup(Encode(b));
    } else {
      var s := Encode(b);
      var group := EncodeGroup(b[..3]);
      assert s[..4] == group;
      assert s[4..] == Encode(b[3..]);
      DecodeEncodeGroup(b[..3], false);
      DecodeEncode(b[3..]);
      assert b[..3] + b[3..] == b;
    }
  }

  /** Encoded text never holds a character that a JSON string literal would have to escape. */
  lemma EncodedNeedsNoJsonEscape(b: seq<byte>)
    ensures '"' !in Encode(b) && '\\' !in Encode(b)
  {
    var s := Encode(b);
    assert forall i | 0 <= i < |s| :: s[i] != '"' && s[i] != '\\' by {
      forall i | 0 <= i < |s| ensures s[i] != '"' && s[i] != '\\' {
        assert IsEncodedChar(s[i]);
      }
    }
  }

  /** The characters of a whole group, from its four 6-bit values. */
  lemma EncodeGroupChars(b0: byte, b1: byte, b2: byte, c0: char, c1: char, c2: char, c3: char)
    requires CharOf(b0 / 4) == c0 && CharOf((b0 % 4) * 16 + b1 / 16) == c1
    requires CharOf((b1 % 16) * 4 + b2 / 64) == c2 && CharOf(b2 % 64) == c3
    ensures EncodeGroup([b0, b1, b2]) == [c0, c1, c2, c3]
  {
  }

  /** The characters of a closing 2-byte group, one pad character included. */
  lemma EncodePairChars(b0: byte, b1: byte, c0: char, c1: char, c2: char)
    requires CharOf(b0 / 4) == c0 && CharOf((b0 % 4) * 16 + b1 / 16) == c1 && CharOf((b1 % 16) * 4) == c2
    ensures Encode([b0, b1]) == [c0, c1, c2, '=']
  {
  }

  /** A whole leading group is encoded on its own, ahead of the rest. */
  lemma EncodeFullGroup(g: seq<byte>, rest: seq<byte>, q: string, tail: string)
    requires |g| == 3 && rest != []
    requires EncodeGroup(g) == q && Encode(rest) == tail
    ensures Encode(g + rest) == q + tail
  {
    assert (g + rest)[..3] == g && (g + rest)[3..] == rest;
  }
}
