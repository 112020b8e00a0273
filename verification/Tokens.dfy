/** The token estimator of the context compiler: four UTF-8 bytes to a token, and truncation to a budget
    without splitting a character. */
module Tokens {
  import opened Text
  import opened Octets
  import opened Utf8

  function TokensFor(bytes: nat): nat {
    (bytes + 3) / 4
  }

  function Estimate(text: string): nat {
    TokensFor(|Encode(text)|)
  }

  /** As many whole characters as fit into `limit` bytes. */
  function Cut(text: string, limit: nat): string {
    if text == "" || Width(text[0]) > limit then ""
    else [text[0]] + Cut(text[1..], limit - Width(text[0]))
  }

  function Truncated(text: string, max: int): string {
    if max <= 0 then ""
    else if Estimate(text) <= max then text
    else Rstrip(Cut(text, 4 * max))
  }

  lemma {:induction false} EncodeConcat(a: string, b: string)
    ensures Encode(a + b) == Encode(a) + Encode(b)
  {
    hide EncodeOne;
    if a == "" {
      assert a + b == b;
    } else {
      assert (a + b)[1..] == a[1..] + b;
      EncodeConcat(a[1..], b);
      assert Encode(a) + Encode(b) == EncodeOne(a[0]) + (Encode(a[1..]) + Encode(b));
    }
  }

  lemma EncodePrefix(a: string, b: string)
    requires a <= b
    ensures Encode(a) <= Encode(b)
  {
    hide Encode;
    assert b == a + b[|a|..];
    EncodeConcat(a, b[|a|..]);
  }

  lemma LongerEncodesLonger(a: string, b: string)
    requires a <= b && |a| < |b|
    ensures |Encode(a)| < |Encode(b)|
  {
    hide Encode;
    var rest := b[|a|..];
    assert b == a + rest;
    EncodeConcat(a, rest);
    EncodesToSomething(rest);
  }

  lemma EncodesToSomething(text: string)
    requires text != ""
    ensures |Encode(text)| > 0
  {
    assert Encode(text) == EncodeOne(text[0]) + Encode(text[1..]);
  }

  lemma {:induction false} CutIsPrefix(text: string, limit: nat)
    ensures Cut(text, limit) <= text && |Encode(Cut(text, limit))| <= limit
  {
    hide EncodeOne;
    if text != "" && Width(text[0]) <= limit {
      var rest := Cut(text[1..], limit - Width(text[0]));
      CutIsPrefix(text[1..], limit - Width(text[0]));
      assert ([text[0]] + rest)[1..] == rest;
      assert text == [text[0]] + text[1..];
    }
  }

  /** No longer prefix fits. */
  lemma {:induction false} CutIsLongest(text: string, limit: nat, other: string)
    requires other <= text && |Encode(other)| <= limit
    ensures |other| <= |Cut(text, limit)|
  {
    hide EncodeOne;
    if other != "" {
      assert other[0] == text[0] && other[1..] <= text[1..];
      assert |Encode(other)| == Width(text[0]) + |Encode(other[1..])|;
      CutIsLongest(text[1..], limit - Width(text[0]), other[1..]);
    }
  }

  lemma FirstCharacter(c: char, a: seq<byte>, d: char, b: seq<byte>)
    requires EncodeOne(c) + a <= EncodeOne(d) + b
    ensures c == d && a <= b
  {
    hide EncodeOne, DecodeOne;
    var big := EncodeOne(d) + b;
    var rest := big[|EncodeOne(c) + a|..];
    assert big == EncodeOne(c) + (a + rest);
    EncodedOneDecodes(c, a + rest);
    EncodedOneDecodes(d, b);
    OneDropped(c, a);
    OneDropped(d, b);
    assert (EncodeOne(c) + a)[Width(c)..] <= big[Width(c)..];
  }

  /** The code is prefix free. */
  lemma {:induction false} PrefixDecodesToPrefix(a: string, b: string)
    requires Encode(a) <= Encode(b)
    ensures a <= b
  {
    hide EncodeOne;
    if a != "" {
      OneDropped(a[0], Encode(a[1..]));
      assert b != "";
      FirstCharacter(a[0], Encode(a[1..]), b[0], Encode(b[1..]));
      PrefixDecodesToPrefix(a[1..], b[1..]);
      assert a == [a[0]] + a[1..] && b == [b[0]] + b[1..];
    }
  }

  lemma CutDecodes(text: string, limit: nat)
    ensures var n := |Encode(Cut(text, limit))|;
      n <= |Encode(text)| && n <= limit && Decode(Encode(text)[..n]) == Some(Cut(text, limit))
  {
    hide Encode, Decode, Cut;
    var cut := Cut(text, limit);
    CutIsPrefix(text, limit);
    EncodePrefix(cut, text);
    assert Encode(text)[..|Encode(cut)|] == Encode(cut);
    DecodeEncoded(cut);
  }

  /** What decodes between the cut and the limit is the cut. */
  lemma OnlyCutDecodes(text: string, limit: nat, n: nat)
    requires |Encode(Cut(text, limit))| <= n <= limit && n <= |Encode(text)| && Decode(Encode(text)[..n]).Some?
    ensures Decode(Encode(text)[..n]).value == Cut(text, limit)
  {
    hide Encode, Decode, Cut;
    var cut, t := Cut(text, limit), Decode(Encode(text)[..n]).value;
    EncodeDecoded(Encode(text)[..n]);
    PrefixDecodesToPrefix(t, text);
    CutIsLongest(text, limit, t);
    CutIsPrefix(text, limit);
    if |t| < |cut| {
      LongerEncodesLonger(t, cut);
    }
  }

  /** `truncate`. The loop after the decoding never runs: what was cut to the byte limit is within the
      token limit. */
  method Truncate(text: string, max: int) returns (r: string)
    ensures r == Truncated(text, max)
  {
    hide Encode, Decode, Cut;
    if max <= 0 {
      return "";
    }
    if Estimate(text) <= max {
      return text;
    }
    var limit := 4 * max;
    var all := Encode(text);
    assert |all| > limit;
    CutDecodes(text, limit);
    var encoded := all[..limit];
    while encoded != [] && Decode(encoded).None?
      invariant |encoded| <= limit && encoded == all[..|encoded|]
      invariant |Encode(Cut(text, limit))| <= |encoded|
      decreases |encoded|
    {
      encoded := encoded[..|encoded| - 1];
    }
    if encoded == [] {
      NothingEncoded(Cut(text, limit));
      return "";
    }
    OnlyCutDecodes(text, limit, |encoded|);
    var result := Decode(encoded).value;
    CutIsPrefix(text, limit);
    assert Estimate(result) <= max;
    r := Rstrip(result);
  }

  lemma NothingEncoded(text: string)
    requires Encode(text) == []
    ensures text == "" && Rstrip(text) == ""
  {
    hide EncodeOne;
  }

  /** What the compiler needs of an estimator: a truncated text is a prefix within the budget. */
  lemma TruncatedFits(text: string, max: nat)
    ensures Truncated(text, max) <= text && Estimate(Truncated(text, max)) <= max
  {
    hide Encode, Cut;
    if 0 < max < Estimate(text) {
      var cut := Cut(text, 4 * max);
      CutIsPrefix(text, 4 * max);
      assert Rstrip(cut) <= cut;
      EncodePrefix(Rstrip(cut), cut);
    } else if max == 0 {
      EmptyEncodes();
    }
  }

  lemma EmptyEncodes()
    ensures Encode("") == []
  {
  }

  // ---- Less room, less text ----

  lemma {:induction false} CutShrinks(text: string, less: nat, limit: nat)
    requires less <= limit
    ensures Cut(text, less) <= Cut(text, limit)
  {
    hide EncodeOne;
    if text != "" && Width(text[0]) <= less {
      CutShrinks(text[1..], less - Width(text[0]), limit - Width(text[0]));
    }
  }

  lemma {:induction false} BlankSqueezes(s: string)
    requires Squeeze(s) == "" && s != ""
    ensures IsSpace(s[|s| - 1])
  {
    var n := |s| - 1;
    assert s == s[..n] + [s[n]];
    SqueezeConcat(s[..n], [s[n]]);
  }

  /** A prefix of a blank text is blank. */
  lemma BlankPrefix(a: string, b: string)
    requires a <= b && Rstrip(b) == ""
    ensures Rstrip(a) == ""
  {
    hide Rstrip, Squeeze;
    assert Squeeze(b) == "" by { SqueezeBlank(""); }
    assert b == a + b[|a|..];
    SqueezeConcat(a, b[|a|..]);
    if Rstrip(a) != "" {
      BlankSqueezes(Rstrip(a));
    }
  }

  /** If nothing is left of a text at one budget, nothing is left of it at a smaller one. */
  lemma TruncatedShrinks(text: string, less: nat, max: nat)
    requires less <= max < Estimate(text) && Truncated(text, max) == ""
    ensures Truncated(text, less) == ""
  {
    hide Encode, Cut, Rstrip;
    if less > 0 {
      CutShrinks(text, 4 * less, 4 * max);
      BlankPrefix(Cut(text, 4 * less), Cut(text, 4 * max));
    }
  }

  /** Four bytes to a token, rounded up. */
  lemma EstimateIsCeiling(text: string)
    ensures 4 * (Estimate(text) - 1) < |Encode(text)| <= 4 * Estimate(text)
  {
    hide Encode;
  }

  /** A text that has to be cut is cut to the longest prefix of whole characters, less its trailing
      whitespace. */
  lemma TruncatedIsCut(text: string, max: nat) returns (blank: string)
    requires 0 < max < Estimate(text)
    ensures Cut(text, 4 * max) == Truncated(text, max) + blank && Squeeze(blank) == ""
    ensures Truncated(text, max) != "" ==> !IsSpace(Truncated(text, max)[|Truncated(text, max)| - 1])
  {
    hide Encode, Cut, Rstrip, Squeeze, IsSpace;
    blank := RstripDrops(Cut(text, 4 * max));
  }
}
