/**
 * `base64.StdEncoding` (the standard alphabet of section 4 of RFC 4648,
 * with `=` padding), used to turn a cluster's random bytes into its token.
 * `Decode` is a reference inverse: the source never decodes a token, and
 * it is here only to show that encoding loses nothing.
 */
module Base64 {
  import opened Errors

  /** The character for a six-bit value: A-Z, a-z, 0-9, `+`, `/`. */
  function Char(i: int): (c: char)
    requires 0 <= i < 64
    ensures c != '='
  {
    if i < 26 then ('A' as int + i) as char
    else if i < 52 then ('a' as int + i - 26) as char
    else if i < 62 then ('0' as int + i - 52) as char
    else if i == 62 then '+'
    else '/'
  }

  /** The six-bit value of an alphabet character. */
  function Index(c: char): (r: Option<int>)
    ensures r.Some? ==> 0 <= r.value < 64 && Char(r.value) == c
  {
    if 'A' <= c <= 'Z' then Some(c as int - 'A' as int)
    else if 'a' <= c <= 'z' then Some(c as int - 'a' as int + 26)
    else if '0' <= c <= '9' then Some(c as int - '0' as int + 52)
    else if c == '+' then Some(62)
    else if c == '/' then Some(63)
    else None
  }

  lemma IndexChar(i: int)
    requires 0 <= i < 64
    ensures Index(Char(i)) == Some(i)
  {
  }

  /** Three bytes as four six-bit values, most significant first. */
  function Sextets(x: bv8, y: bv8, z: bv8): (s: seq<bv8>)
    ensures |s| == 4 && forall k :: 0 <= k < 4 ==> s[k] < 64
  {
    var n: bv24 := (x as bv24 << 16) | (y as bv24 << 8) | (z as bv24);
    [(n >> 18) as bv8, ((n >> 12) & 63) as bv8, ((n >> 6) & 63) as bv8, (n & 63) as bv8]
  }

  /** Four six-bit values as three bytes, most significant first. */
  function Octets(a: bv8, b: bv8, c: bv8, d: bv8): (r: seq<bv8>)
    requires a < 64 && b < 64 && c < 64 && d < 64
    ensures |r| == 3
  {
    var n: bv24 := (a as bv24 << 18) | (b as bv24 << 12) | (c as bv24 << 6) | (d as bv24);
    [(n >> 16) as bv8, ((n >> 8) & 255) as bv8, (n & 255) as bv8]
  }

  lemma GroupRoundTrip(x: bv8, y: bv8, z: bv8)
    ensures var s := Sextets(x, y, z); Octets(s[0], s[1], s[2], s[3]) == [x, y, z]
  {
  }

  function Quad(x: bv8, y: bv8, z: bv8): (q: string)
    ensures |q| == 4 && '=' !in q
  {
    var s := Sextets(x, y, z);
    [Char(s[0] as int), Char(s[1] as int), Char(s[2] as int), Char(s[3] as int)]
  }

  /** `base64.StdEncoding.EncodeToString`. */
  function Encode(b: seq<bv8>): (r: string)
    decreases |b|
  {
    if b == [] then ""
    else if |b| == 1 then Quad(b[0], 0, 0)[..2] + "=="
    else if |b| == 2 then Quad(b[0], b[1], 0)[..3] + "="
    else Quad(b[0], b[1], b[2]) + Encode(b[3..])
  }

  /** Every started group of three bytes becomes four characters. */
  lemma {:induction false} EncodeLength(b: seq<bv8>)
    ensures |Encode(b)| == 4 * ((|b| + 2) / 3)
    decreases |b|
  {
    if |b| > 2 {
      EncodeLength(b[3..]);
    }
  }

  /** Padding appears only at the end: as many `=` as the last group lacks bytes. */
  lemma {:induction false} EncodePadding(b: seq<bv8>)
    ensures forall i :: 0 <= i < |Encode(b)| - (2 - (|b| + 2) % 3) ==> Encode(b)[i] != '='
    ensures forall i :: |Encode(b)| - (2 - (|b| + 2) % 3) <= i < |Encode(b)| ==> Encode(b)[i] == '='
    decreases |b|
  {
    EncodeLength(b);
    if |b| > 2 {
      EncodePadding(b[3..]);
      var q := Quad(b[0], b[1], b[2]);
      assert Encode(b) == q + Encode(b[3..]);
      assert forall i :: 0 <= i < 4 ==> Encode(b)[i] == q[i];
      assert forall i :: 4 <= i < |Encode(b)| ==> Encode(b)[i] == Encode(b[3..])[i - 4];
    }
  }

  function Value(c: char): (v: bv8)
    ensures v < 64
  {
    match Index(c)
    case Some(v) => v as bv8
    case None => 0
  }

  lemma ValueChar(v: bv8)
    requires v < 64
    ensures InAlphabet(Char(v as int)) && Value(Char(v as int)) == v
  {
    IndexChar(v as int);
  }

  predicate InAlphabet(c: char) {
    Index(c).Some?
  }

  /** Reference decoder for padded standard base64. */
  function Decode(s: string): (r: Option<seq<bv8>>)
    decreases |s|
  {
    if s == [] then Some([])
    else if |s| < 4 || !InAlphabet(s[0]) || !InAlphabet(s[1]) then None
    else
      var v0, v1 := Value(s[0]), Value(s[1]);
      if |s| == 4 && s[2] == '=' && s[3] == '=' then
        Some(Octets(v0, v1, 0, 0)[..1])
      else if !InAlphabet(s[2]) then None
      else
        var v2 := Value(s[2]);
        if |s| == 4 && s[3] == '=' then Some(Octets(v0, v1, v2, 0)[..2])
        else if !InAlphabet(s[3]) then None
        else
          match Decode(s[4..])
          case None => None
          case Some(rest) => Some(Octets(v0, v1, v2, Value(s[3])) + rest)
  }

  lemma DecodeOne(x: bv8)
    ensures Decode(Encode([x])) == Some([x])
  {
    var s := Sextets(x, 0, 0);
    ValueChar(s[0]); ValueChar(s[1]);
    GroupRoundTrip(x, 0, 0);
    assert s[2] == 0 && s[3] == 0;
    var e := Encode([x]);
    assert e == [Char(s[0] as int), Char(s[1] as int), '=', '='];
    assert Value(e[0]) == s[0] && Value(e[1]) == s[1];
    assert Octets(s[0], s[1], 0, 0) == [x, 0, 0];
    assert Decode(e) == Some(Octets(Value(e[0]), Value(e[1]), 0, 0)[..1]);
    assert Octets(s[0], s[1], 0, 0)[..1] == [x];
  }

  lemma DecodeTwo(x: bv8, y: bv8)
    ensures Decode(Encode([x, y])) == Some([x, y])
  {
    var s := Sextets(x, y, 0);
    ValueChar(s[0]); ValueChar(s[1]); ValueChar(s[2]);
    GroupRoundTrip(x, y, 0);
    assert s[3] == 0;
    var e := Encode([x, y]);
    assert e == [Char(s[0] as int), Char(s[1] as int), Char(s[2] as int), '='];
    assert e[2] != '=';
    assert Value(e[0]) == s[0] && Value(e[1]) == s[1] && Value(e[2]) == s[2];
    assert Octets(s[0], s[1], s[2], 0) == [x, y, 0];
    assert Decode(e) == Some(Octets(Value(e[0]), Value(e[1]), Value(e[2]), 0)[..2]);
    assert Octets(s[0], s[1], s[2], 0)[..2] == [x, y];
  }

  /** A full group in front decodes to its three bytes, followed by what the rest decodes to. */
  lemma DecodeGroup(x: bv8, y: bv8, z: bv8, rest: string)
    ensures Decode(Quad(x, y, z) + rest) ==
      match Decode(rest)
      case None => None
      case Some(r) => Some([x, y, z] + r)
  {
    var s := Sextets(x, y, z);
    ValueChar(s[0]); ValueChar(s[1]); ValueChar(s[2]); ValueChar(s[3]);
    GroupRoundTrip(x, y, z);
    var e := Quad(x, y, z) + rest;
    assert e[..4] == Quad(x, y, z) && e[4..] == rest;
    assert e[2] != '=' && e[3] != '=';
  }

  /** Decoding an encoding gives back the bytes. */
  lemma {:induction false} DecodeEncode(b: seq<bv8>)
    ensures Decode(Encode(b)) == Some(b)
    decreases |b|
  {
    if |b| == 1 {
      assert b == [b[0]];
      DecodeOne(b[0]);
    } else if |b| == 2 {
      assert b == [b[0], b[1]];
      DecodeTwo(b[0], b[1]);
    } else if |b| > 2 {
      var rest := Encode(b[3..]);
      assert Encode(b) == Quad(b[0], b[1], b[2]) + rest;
      DecodeEncode(b[3..]);
      DecodeGroup(b[0], b[1], b[2], rest);
      assert b == [b[0], b[1], b[2]] + b[3..];
    }
  }
}
