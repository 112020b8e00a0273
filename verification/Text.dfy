/** Strings as Python sees them: which characters are whitespace, how `strip` trims,
    and what is left of a text when whitespace is ignored. */
module Text {

  datatype Option<+T> = None | Some(value: T)

  /** `str.isspace` for one character; `\s` of the `re` module matches the same set. */
  predicate IsSpace(c: char) {
    var n := c as int;
    || 0x09 <= n <= 0x0D || 0x1C <= n <= 0x20 || n == 0x85 || n == 0xA0 || n == 0x1680
    || 0x2000 <= n <= 0x200A || n == 0x2028 || n == 0x2029 || n == 0x202F || n == 0x205F
    || n == 0x3000
  }

  function Lstrip(s: string): (r: string)
    ensures |r| <= |s| && r == s[|s| - |r|..]
    ensures r != [] ==> !IsSpace(r[0])
    ensures Squeeze(r) == Squeeze(s)
  {
    if s != [] && IsSpace(s[0]) then Lstrip(s[1..]) else s
  }

  function Rstrip(s: string): (r: string)
    ensures |r| <= |s| && r == s[..|r|]
    ensures r != [] ==> !IsSpace(r[|r| - 1])
    ensures Squeeze(r) == Squeeze(s)
  {
    if s != [] && IsSpace(s[|s| - 1]) then
      assert s == s[..|s| - 1] + [s[|s| - 1]];
      SqueezeConcat(s[..|s| - 1], [s[|s| - 1]]);
      Rstrip(s[..|s| - 1])
    else s
  }

  function Strip(s: string): (r: string)
    ensures |r| <= |s|
    ensures Trimmed(r)
    ensures Squeeze(r) == Squeeze(s)
  {
    Rstrip(Lstrip(s))
  }

  predicate Trimmed(s: string) {
    s != [] ==> !IsSpace(s[0]) && !IsSpace(s[|s| - 1])
  }

  /** The characters of `s` that are not whitespace, in order. */
  function Squeeze(s: string): string {
    if s == [] then []
    else if IsSpace(s[0]) then Squeeze(s[1..])
    else [s[0]] + Squeeze(s[1..])
  }

  lemma {:induction false} SqueezeConcat(a: string, b: string)
    ensures Squeeze(a + b) == Squeeze(a) + Squeeze(b)
  {
    if a == [] {
      assert a + b == b;
    } else {
      assert (a + b)[1..] == a[1..] + b;
      SqueezeConcat(a[1..], b);
    }
  }

  lemma ThreeParts<T>(s: seq<T>, i: nat, j: nat)
    requires i <= j <= |s|
    ensures s == s[..i] + (s[i..j] + s[j..])
  {
  }

  lemma {:induction false} SqueezeBlank(s: string)
    requires forall i :: 0 <= i < |s| ==> IsSpace(s[i])
    ensures Squeeze(s) == []
  {
    if s != [] { SqueezeBlank(s[1..]); }
  }

  function Join(parts: seq<string>): string {
    if parts == [] then [] else parts[0] + Join(parts[1..])
  }

  lemma {:induction false} JoinConcat(a: seq<string>, b: seq<string>)
    ensures Join(a + b) == Join(a) + Join(b)
  {
    if a == [] {
      assert a + b == b;
    } else {
      assert (a + b)[1..] == a[1..] + b;
      JoinConcat(a[1..], b);
    }
  }

  lemma LstripDrops(s: string) returns (before: string)
    ensures s == before + Lstrip(s) && Squeeze(before) == []
  {
    hide Lstrip, Squeeze, IsSpace;
    var l := Lstrip(s);
    before := s[..|s| - |l|];
    assert s == before + l;
    SqueezeConcat(before, l);
    assert |Squeeze(before)| == 0;
  }

  lemma RstripDrops(s: string) returns (after: string)
    ensures s == Rstrip(s) + after && Squeeze(after) == []
  {
    hide Rstrip, Squeeze, IsSpace;
    var r := Rstrip(s);
    after := s[|r|..];
    assert s == r + after;
    SqueezeConcat(r, after);
    assert |Squeeze(after)| == 0;
  }

  /** `strip` takes whitespace off both ends and leaves the middle as it is. */
  lemma StripIsMiddle(s: string) returns (before: string, after: string)
    ensures s == before + (Strip(s) + after)
    ensures Squeeze(before) == [] && Squeeze(after) == []
  {
    hide Lstrip, Rstrip, Squeeze, IsSpace;
    before := LstripDrops(s);
    after := RstripDrops(Lstrip(s));
  }
}
