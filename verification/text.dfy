/**
 String helpers the call controller relies on: the character replacement of
 .NET's `string.Replace(char, char)`, and the decoding of `+` as a space that
 the web host applies to query-string values.
 */
module Text {

  /** `s.Replace(from, to)`: every occurrence of `from` becomes `to`, every
      other character is kept where it is. */
  function ReplaceChar(s: string, from: char, to: char): (r: string)
    ensures |r| == |s|
    ensures forall i :: 0 <= i < |s| && s[i] == from ==> r[i] == to
    ensures forall i :: 0 <= i < |s| && s[i] != from ==> r[i] == s[i]
    ensures from != to ==> from !in r
  {
    if |s| == 0 then ""
    else [if s[0] == from then to else s[0]] + ReplaceChar(s[1..], from, to)
  }

  /** Replacing a character by itself changes nothing. */
  lemma {:induction false} ReplaceCharSelf(s: string, c: char)
    ensures ReplaceChar(s, c, c) == s
  {
    if |s| > 0 {
      ReplaceCharSelf(s[1..], c);
      assert s == [s[0]] + s[1..];
    }
  }

  /** A second replacement of the same character finds nothing left to do. */
  lemma ReplaceCharIdempotent(s: string, from: char, to: char)
    ensures ReplaceChar(ReplaceChar(s, from, to), from, to) == ReplaceChar(s, from, to)
  {
    var r := ReplaceChar(s, from, to);
    if from == to {
      ReplaceCharSelf(s, from);
      ReplaceCharSelf(s, from);
    } else {
      var rr := ReplaceChar(r, from, to);
      assert |rr| == |r|;
      forall i | 0 <= i < |r| ensures rr[i] == r[i] {
        assert r[i] != from;
      }
    }
  }

  /** Replacing `a` by `b` and then `b` by `a` gives back the original
      whenever `b` did not occur in it beforehand. */
  lemma ReplaceCharRoundTrip(s: string, a: char, b: char)
    requires b !in s
    ensures ReplaceChar(ReplaceChar(s, a, b), b, a) == s
  {
    var r := ReplaceChar(ReplaceChar(s, a, b), b, a);
    assert |r| == |s|;
    forall i | 0 <= i < |s| ensures r[i] == s[i] {
      assert s[i] != b;
    }
  }

  /** The query-string value the web host hands to a handler: a `+` in the
      URI stands for a space. */
  function QueryDecode(raw: string): (value: string)
    ensures |value| == |raw|
    ensures '+' !in value
  {
    ReplaceChar(raw, '+', ' ')
  }

  /** Equal suffixes behind a common prefix are equal. */
  lemma {:induction false} PrefixCancel(p: string, x: string, y: string)
    requires p + x == p + y
    ensures x == y
  {
    assert x == (p + x)[|p|..];
    assert y == (p + y)[|p|..];
  }
}
