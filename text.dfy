/**
 * String helpers shared by every module: the JavaScript string and regular
 * expression operations the chat server applies to message text, written out
 * exactly for the literal patterns it uses.
 */
module Text {

  type String = seq<char>

  datatype Option<T> = None | Some(value: T)

  /** JavaScript's WhiteSpace and LineTerminator characters (`\s`, and what `trim` removes). */
  predicate IsSpace(c: char)
  {
    c == ' ' || c == '\t' || c == '\n' || c == '\r' || c == '\U{000B}' || c == '\U{000C}'
    || c == '\U{00A0}' || c == '\U{1680}' || ('\U{2000}' <= c <= '\U{200A}')
    || c == '\U{2028}' || c == '\U{2029}' || c == '\U{202F}' || c == '\U{205F}'
    || c == '\U{3000}' || c == '\U{FEFF}'
  }

  /** How many white-space characters open `s`. */
  function LeadingSpace(s: String): (n: nat)
    ensures n <= |s| && (n < |s| ==> !IsSpace(s[n]))
    ensures forall k :: 0 <= k < n ==> IsSpace(s[k])
  {
    if |s| > 0 && IsSpace(s[0]) then 1 + LeadingSpace(s[1..]) else 0
  }

  /** How many white-space characters close `s`. */
  function TrailingSpace(s: String): (n: nat)
    ensures n <= |s| && (n < |s| ==> !IsSpace(s[|s| - 1 - n]))
    ensures forall k :: |s| - n <= k < |s| ==> IsSpace(s[k])
  {
    if |s| > 0 && IsSpace(s[|s| - 1]) then 1 + TrailingSpace(s[..|s| - 1]) else 0
  }

  /** `String.prototype.trimStart`. */
  function TrimStart(s: String): String
  {
    s[LeadingSpace(s)..]
  }

  /** `String.prototype.trimEnd`. */
  function TrimEnd(s: String): String
  {
    s[..|s| - TrailingSpace(s)]
  }

  /** `String.prototype.trim`: the text between the first and the last character that is not white space. */
  function Trim(s: String): (r: String)
    ensures |r| <= |s|
    ensures r == [] || (!IsSpace(r[0]) && !IsSpace(r[|r| - 1]))
  {
    var t := TrimStart(s);
    var r := TrimEnd(t);
    assert r != [] ==> r[0] == s[LeadingSpace(s)] && r[|r| - 1] == t[|t| - 1 - TrailingSpace(t)];
    r
  }

  /** The trim is the slice of the text left after dropping white space at both ends. */
  lemma TrimIsSlice(s: String)
    ensures var i := LeadingSpace(s); i + |Trim(s)| <= |s| && Trim(s) == s[i..i + |Trim(s)|]
  {
    var t := TrimStart(s);
    var e := TrimEnd(t);
    PrefixOfSuffix(s, t, e, LeadingSpace(s));
  }

  /** Only white space follows the trim. */
  lemma TrimDropsTrailingSpace(s: String)
    ensures forall k :: LeadingSpace(s) + |Trim(s)| <= k < |s| ==> IsSpace(s[k])
  {
    var t := TrimStart(s);
    var i := LeadingSpace(s);
    var e := TrimEnd(t);
    assert |e| == |t| - TrailingSpace(t);
    forall k | i + |e| <= k < |s| ensures IsSpace(s[k]) {
      assert IsSpace(t[k - i]);
      assert t[k - i] == s[k];
    }
  }

  /** A prefix of a suffix is a slice. */
  lemma PrefixOfSuffix<T>(s: seq<T>, t: seq<T>, e: seq<T>, i: nat)
    requires i <= |s| && t == s[i..] && |e| <= |t| && e == t[..|e|]
    ensures i + |e| <= |s| && e == s[i..i + |e|]
  {
    forall k | 0 <= k < |e| ensures e[k] == s[i + k] {
      assert e[k] == t[k];
    }
  }

  /** A character absent from a text is absent from its trim. */
  lemma TrimKeepsOut(s: String, c: char)
    requires c !in s
    ensures c !in Trim(s)
  {
    var r := Trim(s);
    var i := LeadingSpace(s);
    TrimIsSlice(s);
    forall k | 0 <= k < |r| ensures r[k] != c {
      assert r[k] == s[i + k];
    }
  }

  /** Text that neither starts nor ends with white space is its own trim. */
  lemma TrimUnspaced(s: String)
    requires s == [] || (!IsSpace(s[0]) && !IsSpace(s[|s| - 1]))
    ensures Trim(s) == s
  {
    assert LeadingSpace(s) == 0;
    assert TrimStart(s) == s;
    assert TrailingSpace(s) == 0;
  }

  /** The trimmed text is empty exactly when the text is all white space. */
  lemma TrimEmptyIffBlank(s: String)
    ensures Trim(s) == [] <==> forall k :: 0 <= k < |s| ==> IsSpace(s[k])
  {
    if forall k :: 0 <= k < |s| ==> IsSpace(s[k]) {
      TrimStartBlank(s);
    } else {
      var k :| 0 <= k < |s| && !IsSpace(s[k]);
      assert LeadingSpace(s) <= k;
      assert TrimStart(s) != [] && TrailingSpace(TrimStart(s)) < |TrimStart(s)|;
    }
  }

  lemma {:induction false} TrimStartBlank(s: String)
    requires forall k :: 0 <= k < |s| ==> IsSpace(s[k])
    ensures LeadingSpace(s) == |s| && TrimStart(s) == []
  {
    if |s| > 0 {
      TrimStartBlank(s[1..]);
    }
  }

  /** Trimming twice is trimming once. */
  lemma TrimIdempotent(s: String)
    ensures Trim(Trim(s)) == Trim(s)
  {
    TrimUnspaced(Trim(s));
  }

  /** ASCII case mapping used for `toLowerCase`. */
  function LowerChar(c: char): char
  {
    if 'A' <= c <= 'Z' then (c as int + 32) as char else c
  }

  /** `String.prototype.toLowerCase`, restricted to the ASCII letters. */
  function Lower(s: String): (r: String)
    ensures |r| == |s| && forall k :: 0 <= k < |s| ==> r[k] == LowerChar(s[k])
  {
    seq(|s|, k requires 0 <= k < |s| => LowerChar(s[k]))
  }

  /** Lowercasing twice is lowercasing once. */
  lemma LowerIdempotent(s: String)
    ensures Lower(Lower(s)) == Lower(s)
  {
    assert forall k :: 0 <= k < |s| ==> LowerChar(LowerChar(s[k])) == LowerChar(s[k]);
  }

  lemma LowerSlice(s: String, i: nat, j: nat)
    requires i <= j <= |s|
    ensures Lower(s)[i..j] == Lower(s[i..j])
  {
  }

  /** The UTF-16 code units of a character: two above U+FFFF (a surrogate pair), else one. */
  function Utf16Units(c: char): nat
  {
    if c as int > 0xFFFF then 2 else 1
  }

  /** JavaScript's `s.length`: the UTF-16 code units of `s`, between one and two per character. */
  function Utf16Length(s: String): (n: nat)
    ensures |s| <= n <= 2 * |s|
    ensures n == |s| <==> forall k :: 0 <= k < |s| ==> s[k] as int <= 0xFFFF
  {
    if s == [] then 0 else Utf16Units(s[0]) + Utf16Length(s[1..])
  }

  /** A character above U+FFFF is two code units. */
  lemma Utf16LengthAstral(s: String)
    requires |s| == 1 && s[0] as int > 0xFFFF
    ensures Utf16Length(s) == 2
  {
    assert s[1..] == [];
  }

  /** The code units of a concatenation are those of its parts. */
  lemma {:induction false} Utf16LengthAppend(s: String, t: String)
    ensures Utf16Length(s + t) == Utf16Length(s) + Utf16Length(t)
    decreases |s|
  {
    if s == [] {
      assert s + t == t;
    } else {
      assert (s + t)[0] == s[0] && (s + t)[1..] == s[1..] + t;
      Utf16LengthAppend(s[1..], t);
    }
  }

  /** `s.slice(0, n)` for a non-negative `n`. */
  function Take(s: String, n: nat): (r: String)
    ensures |r| == if |s| <= n then |s| else n
    ensures r == s[..|r|]
  {
    if |s| <= n then s else s[..n]
  }

  /** `xs.slice(-n)` for a non-negative `n`: the last `n` items, but the whole sequence when `n` is 0. */
  function SliceFromEnd<T>(xs: seq<T>, n: nat): (r: seq<T>)
    ensures n > 0 ==> |r| == if |xs| <= n then |xs| else n
    ensures n == 0 ==> r == xs
    ensures r == xs[|xs| - |r|..]
  {
    if n == 0 || |xs| <= n then xs else xs[|xs| - n..]
  }

  /**
   * `xs.push(x)` followed by `if (xs.length > cap) xs = xs.slice(-cap)`: the list keeps its newest
   * `cap` items, the new one last.
   */
  function PushCapped<T>(xs: seq<T>, x: T, cap: nat): (r: seq<T>)
    requires cap > 0
    ensures |r| == if |xs| + 1 <= cap then |xs| + 1 else cap
    ensures r == (xs + [x])[|xs| + 1 - |r|..]
    ensures r[|r| - 1] == x
  {
    var ys := xs + [x];
    if |ys| > cap then ys[|ys| - cap..] else ys
  }

  /**
   * `xs[Math.floor(Math.random() * xs.length)]`: the draw is any natural number taken modulo the
   * length, so every item can be chosen.
   */
  function Pick<T>(xs: seq<T>, k: nat): (r: T)
    requires |xs| > 0
    ensures r in xs
  {
    xs[k % |xs|]
  }

  /** `s.startsWith(w)`. */
  predicate StartsWith(s: String, w: String)
  {
    |w| <= |s| && s[..|w|] == w
  }

  /** `a || b` for strings: the empty string is falsy. */
  function OrElse(a: String, b: String): String
  {
    if a == [] then b else a
  }

  /** `w` occurs in `s` at position `i`. */
  predicate OccursAt(s: String, w: String, i: nat)
  {
    i + |w| <= |s| && s[i..i + |w|] == w
  }

  /** `s.indexOf(w, i)` as an option: the first position at or after `i` where `w` occurs. */
  function FindFrom(s: String, w: String, i: nat): (r: Option<nat>)
    decreases |s| - i
    ensures r.Some? ==> i <= r.value && OccursAt(s, w, r.value)
    ensures r.Some? ==> forall j :: i <= j < r.value ==> !OccursAt(s, w, j)
    ensures r.None? ==> forall j :: i <= j ==> !OccursAt(s, w, j)
  {
    if i + |w| > |s| then None
    else if OccursAt(s, w, i) then Some(i)
    else FindFrom(s, w, i + 1)
  }

  /** `s.includes(w)`. */
  predicate Contains(s: String, w: String)
  {
    FindFrom(s, w, 0).Some?
  }

  lemma ContainsAt(s: String, w: String, i: nat)
    requires OccursAt(s, w, i)
    ensures Contains(s, w)
  {
  }

  /** `s.includes(w)` for some `w` of `ws` (`ws.some(w => s.includes(w))`). */
  predicate ContainsAny(s: String, ws: seq<String>)
  {
    exists k :: 0 <= k < |ws| && Contains(s, ws[k])
  }

  /**
   * `s.replace(pat, v)` with a string pattern: only the first occurrence is replaced. The `$`
   * patterns of `v` (`$&`, `$$`, `` $` ``, `$'`), which JavaScript expands, are inserted literally.
   */
  function ReplaceFirst(s: String, pat: String, v: String): (r: String)
    ensures !Contains(s, pat) ==> r == s
    ensures Contains(s, pat) ==>
      var i := FindFrom(s, pat, 0).value;
      r == s[..i] + v + s[i + |pat|..]
  {
    match FindFrom(s, pat, 0)
    case None => s
    case Some(i) => s[..i] + v + s[i + |pat|..]
  }

  /** Word characters of regular expressions without the `u` flag. */
  predicate IsWordChar(c: char)
  {
    ('a' <= c <= 'z') || ('A' <= c <= 'Z') || ('0' <= c <= '9') || c == '_'
  }

  /** The assertion `\b` at position `p`: exactly one of the neighbouring characters is a word character. */
  predicate Boundary(s: String, p: nat)
    requires p <= |s|
  {
    (p > 0 && IsWordChar(s[p - 1])) != (p < |s| && IsWordChar(s[p]))
  }

  /** `\bw\b` matches at position `i` of `s`. */
  predicate WordAt(s: String, w: String, i: nat)
  {
    OccursAt(s, w, i) && Boundary(s, i) && Boundary(s, i + |w|)
  }

  /** The first position at or after `i` where `\bw\b` matches. */
  function FindWordFrom(s: String, w: String, i: nat): (r: Option<nat>)
    decreases |s| - i
    ensures r.Some? ==> i <= r.value && WordAt(s, w, r.value)
    ensures r.Some? ==> forall j :: i <= j < r.value ==> !WordAt(s, w, j)
    ensures r.None? ==> forall j :: i <= j ==> !WordAt(s, w, j)
  {
    if i + |w| > |s| then None
    else if WordAt(s, w, i) then Some(i)
    else FindWordFrom(s, w, i + 1)
  }

  /** `/\bw\b/.test(s)`. */
  predicate HasWord(s: String, w: String)
  {
    FindWordFrom(s, w, 0).Some?
  }

  lemma HasWordAt(s: String, w: String, i: nat)
    requires WordAt(s, w, i)
    ensures HasWord(s, w)
  {
  }

  /** `/\b(w1|w2|...)\b/.test(s)`. */
  predicate HasAnyWord(s: String, ws: seq<String>)
  {
    exists k :: 0 <= k < |ws| && HasWord(s, ws[k])
  }

  /** `/\bw\b/i` over text of any case, for a lower-case `w`: matching is done on the lower-cased text. */
  predicate WordAtIgnoringCase(s: String, w: String, i: nat)
  {
    WordAt(Lower(s), w, i)
  }

  /**
   * `s.replace(/\bw\b/gi, v)` for a lower-case `w`, scanning from position `i`:
   * each match, leftmost first and not overlapping, becomes `v`; other characters are kept.
   */
  function ReplaceWordsFrom(s: String, w: String, v: String, i: nat): String
    requires |w| > 0
    decreases |s| - i
  {
    if i >= |s| then []
    else if WordAtIgnoringCase(s, w, i) then v + ReplaceWordsFrom(s, w, v, i + |w|)
    else [s[i]] + ReplaceWordsFrom(s, w, v, i + 1)
  }

  function ReplaceWords(s: String, w: String, v: String): String
    requires |w| > 0
  {
    ReplaceWordsFrom(s, w, v, 0)
  }

  /** Where the pattern does not occur from `i` on, replacing all occurrences keeps the rest of the text. */
  lemma {:induction false} ReplaceWordsFromAbsent(s: String, w: String, v: String, i: nat)
    requires |w| > 0
    requires forall j :: i <= j ==> !WordAtIgnoringCase(s, w, j)
    ensures i <= |s| ==> ReplaceWordsFrom(s, w, v, i) == s[i..]
    decreases |s| - i
  {
    if i < |s| {
      ReplaceWordsFromAbsent(s, w, v, i + 1);
    }
  }

  /** `s.replace(/\bw\b/gi, v)` leaves text without a match unchanged. */
  lemma ReplaceWordsAbsent(s: String, w: String, v: String)
    requires |w| > 0
    requires !HasWord(Lower(s), w)
    ensures ReplaceWords(s, w, v) == s
  {
    ReplaceWordsFromAbsent(s, w, v, 0);
  }

  /** Replacing each match by the text it matched leaves lower-case text unchanged. */
  lemma {:induction false} ReplaceWordsBySelf(s: String, w: String, i: nat)
    requires |w| > 0 && Lower(s) == s
    ensures i <= |s| ==> ReplaceWordsFrom(s, w, w, i) == s[i..]
    decreases |s| - i
  {
    if i < |s| {
      if WordAtIgnoringCase(s, w, i) {
        ReplaceWordsBySelf(s, w, i + |w|);
        assert s[i..i + |w|] == w;
        assert s[i..] == w + s[i + |w|..];
      } else {
        ReplaceWordsBySelf(s, w, i + 1);
        assert s[i..] == [s[i]] + s[i + 1..];
      }
    }
  }

  /** The text before the first `sep` (`s.split(sep)[0]`). */
  function BeforeFirst(s: String, sep: char): (r: String)
    ensures |r| <= |s| && r == s[..|r|]
    ensures sep !in r
    ensures |r| < |s| ==> s[|r|] == sep
  {
    if s == [] then []
    else if s[0] == sep then []
    else [s[0]] + BeforeFirst(s[1..], sep)
  }

  /** When `body` holds no `sep` and `rest` is empty or starts with one, the text before the first `sep` is `body`. */
  lemma {:induction false} BeforeFirstPrefix(body: String, rest: String, sep: char)
    requires sep !in body && (rest == [] || rest[0] == sep)
    ensures BeforeFirst(body + rest, sep) == body
    decreases |body|
  {
    if body != [] {
      assert (body + rest)[1..] == body[1..] + rest;
      BeforeFirstPrefix(body[1..], rest, sep);
    }
  }

  /** The text before the first character satisfying `stop` (`s.split(/[...]/)[0]`). */
  function BeforeFirstOf(s: String, stop: char -> bool): (r: String)
    ensures |r| <= |s| && r == s[..|r|]
    ensures forall k :: 0 <= k < |r| ==> !stop(r[k])
    ensures |r| < |s| ==> stop(s[|r|])
  {
    if s == [] then []
    else if stop(s[0]) then []
    else [s[0]] + BeforeFirstOf(s[1..], stop)
  }

  /** `s.replace(/\s+/g, ' ')`: every maximal run of white space becomes one space. */
  function CollapseSpaces(s: String): (r: String)
    ensures |r| <= |s|
    decreases |s|
  {
    if s == [] then []
    else if IsSpace(s[0]) then [' '] + CollapseSpaces(TrimStart(s[1..]))
    else [s[0]] + CollapseSpaces(s[1..])
  }

  /** After collapsing, no two spaces stand next to each other and no other white space is left. */
  lemma {:induction false} CollapseSpacesNoRuns(s: String)
    ensures forall k :: 0 <= k < |CollapseSpaces(s)| ==> (IsSpace(CollapseSpaces(s)[k]) ==> CollapseSpaces(s)[k] == ' ')
    ensures forall k :: 0 <= k < |CollapseSpaces(s)| - 1 ==> !(IsSpace(CollapseSpaces(s)[k]) && IsSpace(CollapseSpaces(s)[k + 1]))
    decreases |s|
  {
    if s == [] {
    } else if IsSpace(s[0]) {
      var d := TrimStart(s[1..]);
      assert d == [] || d[0] == s[1..][LeadingSpace(s[1..])];
      CollapseSpacesNoRuns(d);
      CollapseHead(d);
    } else {
      CollapseSpacesNoRuns(s[1..]);
    }
  }

  /** Collapsing text that does not start with white space does not start with white space. */
  lemma CollapseHead(s: String)
    requires s == [] || !IsSpace(s[0])
    ensures CollapseSpaces(s) == [] || !IsSpace(CollapseSpaces(s)[0])
  {
  }

  /** `xs.join(sep)`. */
  function Join(xs: seq<String>, sep: String): String
  {
    if xs == [] then [] else if |xs| == 1 then xs[0] else xs[0] + sep + Join(xs[1..], sep)
  }
}
