/** The compiled history is bounded, chronological and made of prefixes; the search finds the longest one,
    with one exception. */
module HistoryProofs {
  import opened Text
  import opened Ranking
  import opened History

  // ---- The search ----

  function Pow2(k: nat): nat {
    if k == 0 then 1 else 2 * Pow2(k - 1)
  }

  /** The binary length of the message decides: after adding two, its second digit must be zero. */
  ghost predicate StartsOneZero(h: nat) {
    exists k: nat :: 4 * Pow2(k) <= h + 2 < 6 * Pow2(k)
  }

  lemma {:induction false} ProbesOneExactly(h: nat)
    ensures ProbesOne(h) <==> StartsOneZero(h)
  {
    if h <= 3 {
      assert Pow2(0) == 1;
      if h >= 2 {
        assert 4 * Pow2(0) <= h + 2 < 6 * Pow2(0);
      } else {
        forall k: nat ensures 4 * Pow2(k) > h + 2 {
          PowPositive(k);
        }
      }
    } else {
      var half := h / 2 - 1;
      ProbesOneExactly(half);
      if StartsOneZero(half) {
        var k: nat :| 4 * Pow2(k) <= half + 2 < 6 * Pow2(k);
        assert 4 * Pow2(k + 1) <= h + 2 < 6 * Pow2(k + 1);
      }
      if StartsOneZero(h) {
        var k: nat :| 4 * Pow2(k) <= h + 2 < 6 * Pow2(k);
        assert k > 0 by { assert Pow2(0) == 1; }
        assert 4 * Pow2(k - 1) <= half + 2 < 6 * Pow2(k - 1);
      }
    }
  }

  lemma {:induction false} PowPositive(k: nat)
    ensures Pow2(k) >= 1
  {
    if k > 0 {
      PowPositive(k - 1);
    }
  }

  /** The longest fitting prefix is kept whenever it has at least two characters; one of a single character
      is kept exactly when the length of the message, plus two, starts with the binary digits 1 and 0. */
  lemma LongestPrefixKept(p: Policy, m: Message, newer: seq<Message>)
    requires !Fits(p, m, newer)
    ensures var k := Longest(p, m, newer, |m.content|);
      && (k >= 2 ==> Fitted(p, m, newer) == Some(Shortened(m, k)))
      && (k == 1 ==> Fitted(p, m, newer) == if StartsOneZero(|m.content|) then Some(Shortened(m, 1)) else None)
      && (k == 0 ==> Fitted(p, m, newer) == None)
      && (forall j | 0 < j <= |m.content| :: PrefixFits(p, m, newer, j) <==> j <= k)
  {
    hide Fits, PrefixFits, Longest, StartsOneZero, ProbesOne;
    ProbesOneExactly(|m.content|);
    forall j | 0 < j <= |m.content|
      ensures PrefixFits(p, m, newer, j) <==> j <= Longest(p, m, newer, |m.content|) {
      LongestSplits(p, m, newer, j);
    }
  }

  /** The whole text is kept and marked as cut exactly when the message is one character over the limit: the
      mark "true" is that one character shorter than "false". A text of a single character is not found. */
  lemma WholeTextMarkedCut(p: Policy, m: Message, newer: seq<Message>)
    requires !m.truncated
    ensures Fitted(p, m, newer) == Some(Shortened(m, |m.content|)) <==>
      |Render([m] + newer)| == p.maxChars + 1 && |m.content| >= 2
  {
    hide Render, Longest, ProbesOne;
    var n := |m.content|;
    MarkSavesOne(m, newer);
    LongestIs(p, m, newer, n);
    assert n == 1 ==> !ProbesOne(1) by { ProbesNothing(); }
    var k := Longest(p, m, newer, n);
    assert |Shortened(m, k).content| == k && |Shortened(m, n).content| == n;
    assert PrefixFits(p, m, newer, n) <==> |Render([m] + newer)| - 1 <= p.maxChars;
  }

  lemma ProbesNothing()
    ensures !ProbesOne(1) && !ProbesOne(0)
  {
  }

  lemma MarkSavesOne(m: Message, newer: seq<Message>)
    requires !m.truncated
    ensures |Render([Shortened(m, |m.content|)] + newer)| == |Render([m] + newer)| - 1
  {
    hide Render, Escape, Quote, Number;
    assert m.content[..|m.content|] == m.content;
    RenderLength(m, newer);
    RenderLength(Shortened(m, |m.content|), newer);
  }

  /** Four characters of which one would fit: it is missed. */
  lemma OneCharacterMissed(m: Message)
    requires m.content == "abcd" && !m.truncated
    ensures var p := Policy(1, |Render([Shortened(m, 1)] + [])|, 4, 1);
      PrefixFits(p, m, [], 1) && Fitted(p, m, []) == None
  {
    hide Render, Longest;
    LengthsDiffer(m);
    var p := Policy(1, |Render([Shortened(m, 1)] + [])|, 4, 1);
    LongestPrefixKeptBelowTwo(p, m);
  }

  lemma LengthsDiffer(m: Message)
    requires m.content == "abcd" && !m.truncated
    ensures |Render([Shortened(m, 1)] + [])| < |Render([Shortened(m, 2)] + [])|
    ensures |Render([Shortened(m, 1)] + [])| < |Render([m] + [])|
  {
    hide Render, Escape, Quote, Number;
    RenderLength(m, []);
    RenderLength(Shortened(m, 1), []);
    RenderLength(Shortened(m, 2), []);
    SmallEscapes();
    assert m.content[..1] == "a" && m.content[..2] == "ab";
  }

  lemma LongestPrefixKeptBelowTwo(p: Policy, m: Message)
    requires |m.content| == 4 && !Fits(p, m, []) && !PrefixFits(p, m, [], 2)
    ensures Fitted(p, m, []) == None
  {
    hide Fits, PrefixFits, Longest;
    LongestSplits(p, m, [], 2);
    assert !ProbesOne(4) by { assert !ProbesOne(1); }
  }

  lemma SmallEscapes()
    ensures |Escape("a")| == 1 && |Escape("ab")| == 2 && |Escape("abcd")| == 4
  {
    assert Escape("d") == "d" by { assert "d"[1..] == ""; }
    assert Escape("b") == "b" by { assert "b"[1..] == ""; }
    assert Escape("a") == "a" by { assert "a"[1..] == ""; }
    assert |Escape("ab")| == 2 by { assert "ab"[1..] == "b"; }
    assert |Escape("cd")| == 2 by { assert "cd"[1..] == "d"; }
    assert |Escape("bcd")| == 3 by { assert "bcd"[1..] == "cd"; }
    assert "abcd"[1..] == "bcd";
  }

  // ---- The whole history ----

  /** A message, or a non-empty prefix of it that is marked as cut. */
  predicate CutFrom(m: Message, whole: Message) {
    && m == whole.(content := m.content, truncated := m.truncated)
    && m.content != "" && m.content <= whole.content && (m == whole || m.truncated)
  }

  /** `chosen` picks some of `window`, in the same order. */
  predicate Picked(chosen: seq<Message>, window: seq<Message>)
    decreases |window|
  {
    if window == [] then chosen == []
    else
      || (chosen != [] && CutFrom(chosen[0], window[0]) && Picked(chosen[1..], window[1..]))
      || Picked(chosen, window[1..])
  }

  predicate NoneEmpty(ms: seq<Message>) {
    forall i | 0 <= i < |ms| :: ms[i].content != ""
  }

  lemma FittedIsCut(p: Policy, m: Message, newer: seq<Message>)
    requires m.content != "" && Fitted(p, m, newer).Some?
    ensures CutFrom(Fitted(p, m, newer).value, m)
    ensures |Render([Fitted(p, m, newer).value] + newer)| <= p.maxChars
  {
    hide Render, Longest;
    var k := Longest(p, m, newer, |m.content|);
    LongestIs(p, m, newer, |m.content|);
  }

  /** The history never exceeds the limit, and is a chronological choice of non-empty prefixes. */
  lemma {:induction false} SelectOk(p: Policy, window: seq<Message>)
    requires NoneEmpty(window)
    ensures Picked(Select(p, window), window)
    ensures Select(p, window) != [] ==> |Render(Select(p, window))| <= p.maxChars
  {
    hide Render, Fitted, CutFrom;
    if window != [] {
      var newer := Select(p, window[1..]);
      SelectOk(p, window[1..]);
      if Fitted(p, window[0], newer).Some? {
        FittedIsCut(p, window[0], newer);
        assert ([Fitted(p, window[0], newer).value] + newer)[1..] == newer;
      }
    }
  }

  lemma {:induction false} EligibleNoneEmpty(p: Policy, records: seq<Record>, sessionId: string, before: int)
    requires ValidPolicy(p)
    ensures NoneEmpty(Eligible(p, records, sessionId, before))
  {
    hide Strip, Seen;
    if records != [] {
      EligibleNoneEmpty(p, records[..|records| - 1], sessionId, before);
    }
  }

  /** In order of sequence number, each identifier once. */
  predicate Chronological(ms: seq<Message>) {
    forall i, j | 0 <= i < j < |ms| :: Later(ms[i], ms[j])
  }

  predicate Later(a: Message, b: Message) {
    a.sequence <= b.sequence && a.id != b.id
  }

  lemma {:induction false} EligibleFrom(p: Policy, records: seq<Record>, sessionId: string, before: int, i: nat)
    requires i < |Eligible(p, records, sessionId, before)|
    ensures var m := Eligible(p, records, sessionId, before)[i];
      exists k | 0 <= k < |records| :: records[k].id == m.id && records[k].sequence == m.sequence && records[k].sessionId == sessionId
  {
    hide Strip, Seen;
    var n := |records| - 1;
    var init := Eligible(p, records[..n], sessionId, before);
    if i < |init| {
      EligibleFrom(p, records[..n], sessionId, before, i);
      var k :| 0 <= k < n && records[..n][k].id == init[i].id && records[..n][k].sequence == init[i].sequence && records[..n][k].sessionId == sessionId;
      assert records[k] == records[..n][k];
    } else {
      assert records[n].id == Eligible(p, records, sessionId, before)[i].id;
    }
  }

  lemma {:induction false} EligibleChronological(p: Policy, records: seq<Record>, sessionId: string, before: int)
    requires Sorted(RecordKey, records)
    ensures Chronological(Eligible(p, records, sessionId, before))
  {
    hide Strip, Before;
    if records != [] {
      var n := |records| - 1;
      SortedPrefix(RecordKey, records);
      EligibleChronological(p, records[..n], sessionId, before);
      if Qualifies(records[n], records[..n], sessionId, before) {
        QualifiedHasGeneration(records[n], records[..n], sessionId, before);
        AllEarlier(p, records[..n], records[n], sessionId, before);
      }
    }
  }

  lemma QualifiedHasGeneration(r: Record, earlier: seq<Record>, sessionId: string, before: int)
    requires Qualifies(r, earlier, sessionId, before)
    ensures r.generation.Some? && !Seen(earlier, sessionId, r.id)
  {
  }

  predicate AllLater(ms: seq<Message>, sequence: int, id: string) {
    forall i | 0 <= i < |ms| :: ms[i].sequence <= sequence && ms[i].id != id
  }

  lemma AllEarlier(p: Policy, earlier: seq<Record>, r: Record, sessionId: string, before: int)
    requires forall k | 0 <= k < |earlier| :: Before(RecordKey(earlier[k]), RecordKey(r))
    requires !Seen(earlier, sessionId, r.id)
    ensures AllLater(Eligible(p, earlier, sessionId, before), r.sequence, r.id)
  {
    hide Eligible, TextBefore;
    var ms := Eligible(p, earlier, sessionId, before);
    forall i | 0 <= i < |ms| ensures ms[i].sequence <= r.sequence && ms[i].id != r.id {
      EligibleFrom(p, earlier, sessionId, before, i);
      var k :| 0 <= k < |earlier| && earlier[k].id == ms[i].id && earlier[k].sequence == ms[i].sequence && earlier[k].sessionId == sessionId;
      assert Before(RecordKey(earlier[k]), RecordKey(r));
    }
  }

  lemma WindowKeeps(p: Policy, ms: seq<Message>)
    requires NoneEmpty(ms) && Chronological(ms)
    ensures NoneEmpty(Window(p, ms)) && Chronological(Window(p, ms)) && |Window(p, ms)| <= p.maxMessages
  {
    hide Later;
    var w := Window(p, ms);
    var d := |ms| - |w|;
    assert forall i | 0 <= i < |w| :: w[i] == ms[d + i];
  }

  /** Picking keeps the order. */
  lemma {:induction false} PickedFrom(chosen: seq<Message>, window: seq<Message>, i: nat)
    requires Picked(chosen, window) && i < |chosen|
    ensures exists k | 0 <= k < |window| :: CutFrom(chosen[i], window[k])
    decreases |window|
  {
    hide CutFrom;
    if chosen != [] && CutFrom(chosen[0], window[0]) && Picked(chosen[1..], window[1..]) {
      if i > 0 {
        PickedFrom(chosen[1..], window[1..], i - 1);
        var k :| 0 <= k < |window[1..]| && CutFrom(chosen[1..][i - 1], window[1..][k]);
        assert window[1..][k] == window[k + 1];
      }
    } else {
      PickedFrom(chosen, window[1..], i);
      var k :| 0 <= k < |window[1..]| && CutFrom(chosen[i], window[1..][k]);
      assert window[1..][k] == window[k + 1];
    }
  }

  lemma {:induction false} PickedChronological(chosen: seq<Message>, window: seq<Message>)
    requires Picked(chosen, window) && Chronological(window)
    ensures Chronological(chosen)
    decreases |window|
  {
    if window != [] {
      TailChronological(window);
      if chosen != [] && CutFrom(chosen[0], window[0]) && Picked(chosen[1..], window[1..]) {
        PickedChronological(chosen[1..], window[1..]);
        HeadBeforeRest(chosen, window);
      } else {
        PickedChronological(chosen, window[1..]);
      }
    }
  }

  lemma TailChronological(ms: seq<Message>)
    requires ms != [] && Chronological(ms)
    ensures Chronological(ms[1..])
  {
    hide Later;
  }

  lemma HeadBeforeRest(chosen: seq<Message>, window: seq<Message>)
    requires chosen != [] && window != [] && CutFrom(chosen[0], window[0]) && Picked(chosen[1..], window[1..])
    requires Chronological(window) && Chronological(chosen[1..])
    ensures Chronological(chosen)
  {
    hide Picked;
    forall i, j | 0 <= i < j < |chosen| ensures Later(chosen[i], chosen[j]) {
      if i == 0 {
        PickedFrom(chosen[1..], window[1..], j - 1);
        var k :| 0 <= k < |window[1..]| && CutFrom(chosen[1..][j - 1], window[1..][k]);
        assert Later(window[0], window[k + 1]);
      } else {
        assert Later(chosen[1..][i - 1], chosen[1..][j - 1]);
      }
    }
  }

  /** The rendered history is within the character limit, and consists of non-empty prefixes of the last
      `maxMessages` eligible messages of the session, in order, no message twice. */
  lemma HistoryIsBounded(p: Policy, records: seq<Record>, sessionId: string, before: int)
    requires ValidPolicy(p)
    ensures var h := Compiled(p, records, sessionId, before);
      && |h.rendered| <= p.maxChars && Chronological(h.messages)
      && |Window(p, Eligible(p, Sort(RecordKey, records), sessionId, before))| <= p.maxMessages
      && (h.messages == [] || Picked(h.messages, Window(p, Eligible(p, Sort(RecordKey, records), sessionId, before))))
  {
    hide Render, Sort, Eligible, Window, Select, Picked, Chronological;
    var sorted := Sort(RecordKey, records);
    SortSorts(RecordKey, records);
    var eligible := Eligible(p, sorted, sessionId, before);
    EligibleNoneEmpty(p, sorted, sessionId, before);
    EligibleChronological(p, sorted, sessionId, before);
    WindowKeeps(p, eligible);
    SelectOk(p, Window(p, eligible));
    PickedChronological(Select(p, Window(p, eligible)), Window(p, eligible));
    assert Chronological([]) by { NothingChronological(); }
  }

  lemma NothingChronological()
    ensures Chronological([])
  {
  }
}
