/**
 * Base64 as in section 4 of RFC 4648 (alphabet `A-Z a-z 0-9 + /`, `=` padding),
 * which is what Node's `buffer.toString('base64')` emits.
 */
module Base64 {

  import opened Wrappers

  type byte = x: int | 0 <= x < 256
  type sextet = x: int | 0 <= x < 64

  /** The alphabet of section 4, table 1 of RFC 4648. */
  function IndexChar(i: sextet): (c: char)
    ensures c != '='
  {
    if i < 26 then ('A' as int + i) as char
    else if i < 52 then ('a' as int + (i - 26)) as char
    else if i < 62 then ('0' as int + (i - 52)) as char
    else if i == 62 then '+'
    else '/'
  }

  /** The inverse of the alphabet table: `None` for characters outside it. */
  function CharIndex(c: char): Option<sextet> {
    if 'A' <= c <= 'Z' then Some(c as int - 'A' as int)
    else if 'a' <= c <= 'z' then Some(c as int - 'a' as int + 26)
    else if '0' <= c <= '9' then Some(c as int - '0' as int + 52)
    else if c == '+' then Some(62)
    else if c == '/' then Some(63)
    else None
  }

  lemma CharIndexOfIndexChar(i: sextet)
    ensures CharIndex(IndexChar(i)) == Some(i)
  {
  }

  /** Three bytes as four characters. */
  function EncodeGroup(a: byte, b: byte, c: byte): string {
    [IndexChar(a / 4), IndexChar((a % 4) * 16 + b / 16), IndexChar((b % 16) * 4 + c / 64), IndexChar(c % 64)]
  }

  /** The encoding of a byte string, with `=` padding on the last group. */
  function Encode(bs: seq<byte>): (r: string)
    ensures |r| % 4 == 0
    ensures |bs| > 0 ==> |r| >= 4
    decreases |bs|
  {
    if |bs| == 0 then ""
    else if |bs| == 1 then [IndexChar(bs[0] / 4), IndexChar((bs[0] % 4) * 16), '=', '=']
    else if |bs| == 2 then
      [IndexChar(bs[0] / 4), IndexChar((bs[0] % 4) * 16 + bs[1] / 16), IndexChar((bs[1] % 16) * 4), '=']
    else EncodeGroup(bs[0], bs[1], bs[2]) + Encode(bs[3..])
  }

  /** Four characters without padding as three bytes. */
  function DecodeFullQuad(q: string): Option<seq<byte>>
    requires |q| == 4
  {
    match (CharIndex(q[0]), CharIndex(q[1]), CharIndex(q[2]), CharIndex(q[3]))
    case (Some(i0), Some(i1), Some(i2), Some(i3)) =>
      Some([i0 as int * 4 + i1 / 16, (i1 as int % 16) * 16 + i2 / 4, (i2 as int % 4) * 64 + i3])
    case _ => None
  }

  /** The last group, which may carry one or two `=` of padding. */
  function DecodeLastQuad(q: string): Option<seq<byte>>
    requires |q| == 4
  {
    if q[2] == '=' && q[3] == '=' then
      match (CharIndex(q[0]), CharIndex(q[1]))
      case (Some(i0), Some(i1)) => Some([i0 as int * 4 + i1 / 16])
      case _ => None
    else if q[3] == '=' then
      match (CharIndex(q[0]), CharIndex(q[1]), CharIndex(q[2]))
      case (Some(i0), Some(i1), Some(i2)) => Some([i0 as int * 4 + i1 / 16, (i1 as int % 16) * 16 + i2 / 4])
      case _ => None
    else DecodeFullQuad(q)
  }

  /** Decoding; `None` for text that is not a padded Base64 string. */
  function Decode(s: string): Option<seq<byte>>
    decreases |s|
  {
    if |s| == 0 then Some([])
    else if |s| < 4 then None
    else if |s| == 4 then DecodeLastQuad(s)
    else match (DecodeFullQuad(s[..4]), Decode(s[4..]))
      case (Some(head), Some(tail)) => Some(head + tail)
      case _ => None
  }

  lemma GroupRoundTrip(a: byte, b: byte, c: byte)
    ensures DecodeFullQuad(EncodeGroup(a, b, c)) == Some([a, b, c])
  {
    var i0, i1, i2, i3 := a / 4, (a % 4) * 16 + b / 16, (b % 16) * 4 + c / 64, c % 64;
    CharIndexOfIndexChar(i0);
    CharIndexOfIndexChar(i1);
    CharIndexOfIndexChar(i2);
    CharIndexOfIndexChar(i3);
    assert i1 / 16 == a % 4 && i1 % 16 == b / 16;
    assert i2 / 4 == b % 16 && i2 % 4 == c / 64;
  }

  lemma LastOneRoundTrip(a: byte)
    ensures Decode(Encode([a])) == Some([a])
  {
    CharIndexOfIndexChar(a / 4);
    CharIndexOfIndexChar((a % 4) * 16);
  }

  lemma LastTwoRoundTrip(a: byte, b: byte)
    ensures Decode(Encode([a, b])) == Some([a, b])
  {
    var i1 := (a % 4) * 16 + b / 16;
    CharIndexOfIndexChar(a / 4);
    CharIndexOfIndexChar(i1);
    CharIndexOfIndexChar((b % 16) * 4);
    assert i1 / 16 == a % 4 && i1 % 16 == b / 16;
    assert ((b % 16) * 4) / 4 == b % 16;
    var s := Encode([a, b]);
    assert s[2] != '=' && s[3] == '=';
  }

  /** One step of `Decode` on a string longer than one group. */
  lemma DecodeStep(s: string, head: seq<byte>, tail: seq<byte>)
    requires |s| > 4
    requires DecodeFullQuad(s[..4]) == Some(head)
    requires Decode(s[4..]) == Some(tail)
    ensures Decode(s) == Some(head + tail)
  {
  }

  lemma EncodeCons(bs: seq<byte>)
    requires |bs| > 3
    ensures Encode(bs) == EncodeGroup(bs[0], bs[1], bs[2]) + Encode(bs[3..])
  {
  }

  lemma SplitFirstGroup(g: string, rest: string)
    requires |g| == 4
    ensures (g + rest)[..4] == g && (g + rest)[4..] == rest
  {
  }

  lemma GroupDecodes(head: seq<byte>, q: string)
    requires |head| == 3
    requires q == EncodeGroup(head[0], head[1], head[2])
    ensures DecodeFullQuad(q) == Some(head)
  {
    GroupRoundTrip(head[0], head[1], head[2]);
    assert head == [head[0], head[1], head[2]];
  }

  lemma ConsRoundTrip(head: seq<byte>, tail: seq<byte>, s: string)
    requires |head| == 3 && |tail| > 0
    requires Decode(Encode(tail)) == Some(tail)
    requires s == EncodeGroup(head[0], head[1], head[2]) + Encode(tail)
    ensures Decode(s) == Some(head + tail)
  {
    var g := EncodeGroup(head[0], head[1], head[2]);
    SplitFirstGroup(g, Encode(tail));
    GroupDecodes(head, s[..4]);
    DecodeStep(s, head, tail);
  }

  /** Decoding undoes encoding, for every byte string. */
  lemma {:induction false} DecodeEncode(bs: seq<byte>)
    ensures Decode(Encode(bs)) == Some(bs)
    decreases |bs|
  {
    if |bs| == 1 {
      assert bs == [bs[0]];
      LastOneRoundTrip(bs[0]);
    } else if |bs| == 2 {
      assert bs == [bs[0], bs[1]];
      LastTwoRoundTrip(bs[0], bs[1]);
    } else if |bs| == 3 {
      GroupRoundTrip(bs[0], bs[1], bs[2]);
      assert bs == [bs[0], bs[1], bs[2]];
      assert Encode(bs) == EncodeGroup(bs[0], bs[1], bs[2]);
    } else if |bs| > 3 {
      DecodeEncode(bs[3..]);
      EncodeCons(bs);
      ConsRoundTrip(bs[..3], bs[3..], Encode(bs));
      assert bs == bs[..3] + bs[3..];
    }
  }
}
