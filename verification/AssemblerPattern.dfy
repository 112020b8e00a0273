/** The boundary pattern of the assembler as a regular expression, matched by backtracking; what the
    assembler looks for is what a leftmost search for it finds. */
module AssemblerPattern {
  import opened Text
  import opened Assembler

  /** Classes of characters: `[...]`, `\s` and a single character. */
  datatype Class = AnyOf(chars: string) | White | Only(letter: char)

  predicate In(c: char, k: Class) {
    match k
    case AnyOf(chars) => c in chars
    case White => IsSpace(c)
    case Only(d) => c == d
  }

  /** `Many` is one or more, as many as possible; `End` is the end of the text, or before its last newline. */
  datatype Regex =
    | One(of: Class)
    | Many(of: Class)
    | End
    | Then(first: Regex, second: Regex)
    | Or(first: Regex, second: Regex)

  /** Where matches that start at `i` end, in the order in which backtracking finds them. */
  function Ends(r: Regex, s: string, i: nat): (ends: seq<nat>)
    requires i <= |s|
    ensures forall k | 0 <= k < |ends| :: ends[k] <= |s|
    decreases r, 0, |s| - i
  {
    match r
    case One(k) => if i < |s| && In(s[i], k) then [i + 1] else []
    case Many(k) => if i < |s| && In(s[i], k) then Ends(r, s, i + 1) + [i + 1] else []
    case End => if i == |s| || (i + 1 == |s| && s[i] == '\n') then [i] else []
    case Then(a, b) => EndsAfter(b, s, Ends(a, s, i))
    case Or(a, b) => Ends(a, s, i) + Ends(b, s, i)
  }

  function EndsAfter(r: Regex, s: string, starts: seq<nat>): (ends: seq<nat>)
    requires forall k | 0 <= k < |starts| :: starts[k] <= |s|
    ensures forall k | 0 <= k < |ends| :: ends[k] <= |s|
    decreases r, 1, |starts|
  {
    if starts == [] then [] else Ends(r, s, starts[0]) + EndsAfter(r, s, starts[1..])
  }

  datatype Match = Match(start: nat, end: nat)

  /** The leftmost match at or after `i`, the one backtracking finds first. */
  function Search(r: Regex, s: string, i: nat): Option<Match>
    requires i <= |s|
    decreases |s| - i
  {
    if Ends(r, s, i) != [] then Some(Match(i, Ends(r, s, i)[0]))
    else if i == |s| then None
    else Search(r, s, i + 1)
  }

  /** `[.!?](?:\s+|$)|[\u3002\uff01\uff1f]|\n+` */
  const GAP := Or(Many(White), End)
  const SENTENCE := Then(One(AnyOf(".!?")), GAP)
  const IDEOGRAPHIC := One(AnyOf("\U{3002}\U{FF01}\U{FF1F}"))
  const NEWLINES := Many(Only('\n'))
  const PATTERN := Or(SENTENCE, Or(IDEOGRAPHIC, NEWLINES))

  lemma {:induction false} ManySpaces(s: string, i: nat)
    requires i <= |s|
    ensures var ends := Ends(Many(White), s, i);
      && (ends != [] <==> i < |s| && IsSpace(s[i])) && (ends != [] ==> ends[0] == SkipSpace(s, i))
    decreases |s| - i
  {
    hide IsSpace;
    if i < |s| && IsSpace(s[i]) {
      ManySpaces(s, i + 1);
    }
  }

  lemma {:induction false} ManyNewlines(s: string, i: nat)
    requires i <= |s|
    ensures var ends := Ends(NEWLINES, s, i);
      && (ends != [] <==> i < |s| && s[i] == '\n') && (ends != [] ==> ends[0] == SkipNewlines(s, i))
    decreases |s| - i
  {
    if i < |s| && s[i] == '\n' {
      ManyNewlines(s, i + 1);
    }
  }

  lemma NewlineIsSpace()
    ensures IsSpace('\n')
  {
  }

  /** After a mark: whitespace, or the end. */
  lemma GapMatches(s: string, i: nat)
    requires i <= |s|
    ensures var ends := Ends(GAP, s, i);
      && (ends != [] <==> i == |s| || IsSpace(s[i])) && (ends != [] ==> ends[0] == SkipSpace(s, i))
  {
    hide IsSpace;
    ManySpaces(s, i);
    NewlineIsSpace();
  }

  lemma SentenceMatches(s: string, i: nat)
    requires i <= |s|
    ensures var ends := Ends(SENTENCE, s, i);
      && (ends != [] <==> i < |s| && SentenceEndAt(s, i)) && (ends != [] ==> ends[0] == SkipSpace(s, i + 1))
  {
    hide IsSpace, GAP;
    if i < |s| && s[i] in ".!?" {
      GapMatches(s, i + 1);
      assert EndsAfter(GAP, s, [i + 1]) == Ends(GAP, s, i + 1) + EndsAfter(GAP, s, []);
    }
  }

  lemma PatternMatches(s: string, i: nat)
    requires i <= |s|
    ensures var ends := Ends(PATTERN, s, i);
      && (ends != [] <==> i < |s| && BoundaryAt(s, i)) && (ends != [] ==> ends[0] == MatchEnd(s, i))
  {
    hide SENTENCE, NEWLINES, SentenceEndAt, IsSpace;
    SentenceMatches(s, i);
    ManyNewlines(s, i);
    assert Ends(PATTERN, s, i) == Ends(SENTENCE, s, i) + (Ends(IDEOGRAPHIC, s, i) + Ends(NEWLINES, s, i));
  }

  /** The boundary the assembler cuts at, and where it goes on, are those of the search. */
  lemma {:induction false} BoundaryIsSearch(s: string, i: nat)
    requires i <= |s|
    ensures Search(PATTERN, s, i).None? <==> FindBoundary(s, i).None?
    ensures FindBoundary(s, i).Some? ==>
      var k := FindBoundary(s, i).value; Search(PATTERN, s, i) == Some(Match(k, MatchEnd(s, k)))
    decreases |s| - i
  {
    hide PATTERN, BoundaryAt;
    PatternMatches(s, i);
    if i < |s| && !BoundaryAt(s, i) {
      BoundaryIsSearch(s, i + 1);
    }
  }
}
