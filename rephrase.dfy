/**
 * `rephrase`: four word-replacement rules tried in a fixed order, each at most
 * once; a rule that matches fires only when its random draw is below 0.4 and
 * then replaces every match with one candidate.
 */
module Rephrase {
  import opened Text

  datatype Rule = Rule(word: String, candidates: seq<String>)

  /** The rules `/\bi'm\b/gi`, `/\byou\?\b/gi`, `/\byeah\b/gi` and `/\bhmm\b/gi` with their candidates. */
  const RULES: seq<Rule> := [
    Rule("i'm", ["I am", "doing", "feeling"]),
    Rule("you?", ["you doing?", "your side?", "you there?"]),
    Rule("yeah", ["ya", "yep", "yes"]),
    Rule("hmm", ["hmm", "ya", "ok"])
  ]

  /** The two `Math.random()` results a rule can consume: the gate in [0, 1) and the candidate index it selects. */
  datatype Draw = Draw(gate: real, pick: nat)

  predicate DrawsFit(draws: seq<Draw>)
  {
    |draws| == |RULES|
    && forall k :: 0 <= k < |draws| ==> 0 as real <= draws[k].gate < 1 as real && draws[k].pick < |RULES[k].candidates|
  }

  /** `r.find.test(out)`. */
  predicate RuleMatches(r: Rule, out: String)
  {
    HasWord(Lower(out), r.word)
  }

  /** One iteration of the loop: the rule fires when it matches and its gate is below 0.4. */
  function ApplyRule(out: String, k: nat, d: Draw): (r: String)
    requires k < |RULES| && d.pick < |RULES[k].candidates|
    ensures !RuleMatches(RULES[k], out) ==> r == out
    ensures d.gate >= 4 as real / 10 as real ==> r == out
    ensures RuleMatches(RULES[k], out) && d.gate < 4 as real / 10 as real ==>
      r == ReplaceWords(out, RULES[k].word, RULES[k].candidates[d.pick])
  {
    var rule := RULES[k];
    if RuleMatches(rule, out) && d.gate < 4 as real / 10 as real then
      ReplaceWords(out, rule.word, rule.candidates[d.pick])
    else out
  }

  /** The text after the first `n` rules. */
  function RephraseUpTo(text: String, draws: seq<Draw>, n: nat): String
    requires DrawsFit(draws) && n <= |RULES|
  {
    if n == 0 then text else ApplyRule(RephraseUpTo(text, draws, n - 1), n - 1, draws[n - 1])
  }

  function RephraseText(text: String, draws: seq<Draw>): String
    requires DrawsFit(draws)
  {
    RephraseUpTo(text, draws, |RULES|)
  }

  /** `rephrase` as the source writes it, a loop over the rules reassigning `out`. */
  method RephraseLoop(text: String, draws: seq<Draw>) returns (out: String)
    requires DrawsFit(draws)
    ensures out == RephraseText(text, draws)
  {
    out := text;
    for k := 0 to |RULES|
      invariant out == RephraseUpTo(text, draws, k)
    {
      var rule := RULES[k];
      if RuleMatches(rule, out) && draws[k].gate < 4 as real / 10 as real {
        out := ReplaceWords(out, rule.word, rule.candidates[draws[k].pick]);
      }
    }
  }

  /** When no rule's gate opens, the text is returned unchanged. */
  lemma {:induction false} NoFiringNoChange(text: String, draws: seq<Draw>)
    requires DrawsFit(draws)
    requires forall k :: 0 <= k < |draws| ==> draws[k].gate >= 4 as real / 10 as real
    ensures RephraseText(text, draws) == text
  {
    assert RephraseUpTo(text, draws, 1) == text;
    assert RephraseUpTo(text, draws, 2) == text;
    assert RephraseUpTo(text, draws, 3) == text;
  }

  /** Text in which none of the four words occurs is returned unchanged, whatever the draws. */
  lemma {:induction false} NoPatternNoChange(text: String, draws: seq<Draw>)
    requires DrawsFit(draws)
    requires forall k :: 0 <= k < |RULES| ==> !RuleMatches(RULES[k], text)
    ensures RephraseText(text, draws) == text
  {
    assert RephraseUpTo(text, draws, 1) == text;
    assert RephraseUpTo(text, draws, 2) == text;
    assert RephraseUpTo(text, draws, 3) == text;
  }

  /**
   * A rule that fires keeps the text before the first match of its word, writes the chosen
   * candidate there, and goes on replacing after the match.
   */
  lemma RuleWritesCandidateAtFirstMatch(out: String, w: String, v: String)
    requires |w| > 0 && HasWord(Lower(out), w)
    ensures var m := FindWordFrom(Lower(out), w, 0).value;
      m + |w| <= |out| && ReplaceWords(out, w, v) == out[..m] + v + ReplaceWordsFrom(out, w, v, m + |w|)
  {
    var m := FindWordFrom(Lower(out), w, 0).value;
    FoundFirst(out, w, 0, m);
    FirstMatchReplaced(out, w, v, 0, m);
  }

  /** No match of `w` starts at a position from `i` up to, not including, `m`. */
  predicate NoWordBetween(s: String, w: String, i: nat, m: nat)
    decreases m - i
  {
    i >= m || (!WordAtIgnoringCase(s, w, i) && NoWordBetween(s, w, i + 1, m))
  }

  /** The first match found from `i` has no match before it. */
  lemma {:induction false} FoundFirst(s: String, w: String, i: nat, m: nat)
    requires |w| > 0 && FindWordFrom(Lower(s), w, i) == Some(m)
    ensures i <= m && WordAtIgnoringCase(s, w, m) && NoWordBetween(s, w, i, m)
    decreases m - i
  {
    if i < m {
      SearchGoesOn(s, w, i, m);
      FoundFirst(s, w, i + 1, m);
    }
  }

  /**
   * Scanning from `i` up to the first match at `m`, the output keeps the text before `m`
   * and then writes the candidate.
   */
  lemma FirstMatchReplaced(s: String, w: String, v: String, i: nat, m: nat)
    requires |w| > 0 && i <= m && WordAtIgnoringCase(s, w, m) && NoWordBetween(s, w, i, m)
    ensures m + |w| <= |s|
    ensures ReplaceWordsFrom(s, w, v, i) == s[i..m] + v + ReplaceWordsFrom(s, w, v, m + |w|)
  {
    MatchInside(s, w, m);
    CopiedUpTo(s, w, v, i, m);
    ReplaceWordsFromMatch(s, w, v, m);
  }

  /** Where no match starts between `i` and `m`, the text in between is copied as it is. */
  lemma {:induction false} CopiedUpTo(s: String, w: String, v: String, i: nat, m: nat)
    requires |w| > 0 && i <= m <= |s| && NoWordBetween(s, w, i, m)
    ensures ReplaceWordsFrom(s, w, v, i) == s[i..m] + ReplaceWordsFrom(s, w, v, m)
    decreases m - i
  {
    if i < m {
      CopiedUpTo(s, w, v, i + 1, m);
      ReplaceWordsFromSkip(s, w, v, i);
      ConsFront(s, i, m, ReplaceWordsFrom(s, w, v, m));
    } else {
      assert s[i..m] == [];
    }
  }

  /** Where a match starts, the replacement writes the candidate and goes on after the match. */
  lemma ReplaceWordsFromMatch(s: String, w: String, v: String, m: nat)
    requires |w| > 0 && m < |s| && WordAtIgnoringCase(s, w, m)
    ensures ReplaceWordsFrom(s, w, v, m) == v + ReplaceWordsFrom(s, w, v, m + |w|)
  {
  }

  /** Before the first match the search moves on by one character and still finds it. */
  lemma SearchGoesOn(s: String, w: String, i: nat, m: nat)
    requires |w| > 0 && i < m && FindWordFrom(Lower(s), w, i) == Some(m)
    ensures !WordAtIgnoringCase(s, w, i) && FindWordFrom(Lower(s), w, i + 1) == Some(m)
  {
  }

  /** Putting `s[i]` in front of a text that starts with `s[i + 1..m]` gives one that starts with `s[i..m]`. */
  lemma ConsFront(s: String, i: nat, m: nat, rest: String)
    requires i < m <= |s|
    ensures [s[i]] + (s[i + 1..m] + rest) == s[i..m] + rest
  {
    assert s[i..m] == [s[i]] + s[i + 1..m];
  }

  /** A match lies inside the text. */
  lemma MatchInside(s: String, w: String, m: nat)
    requires WordAtIgnoringCase(s, w, m)
    ensures m + |w| <= |s|
  {
  }

  /** Where no match starts, the replacement copies the character and goes on. */
  lemma ReplaceWordsFromSkip(s: String, w: String, v: String, i: nat)
    requires |w| > 0 && i < |s| && !WordAtIgnoringCase(s, w, i)
    ensures ReplaceWordsFrom(s, w, v, i) == [s[i]] + ReplaceWordsFrom(s, w, v, i + 1)
  {
  }
}
