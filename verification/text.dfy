/** String operations of Python's `str` that the modelled code relies on:
    whitespace (`isspace`, the regex class `\s`), `strip`, `split()`,
    `split(sep)`, `sep.join(xs)`, `startswith`, and decimal formatting of
    integers in f-strings. Strings are sequences of Unicode scalar values,
    as Python's are. */
module Text {

  /** Python's `str.isspace()` on one character; a `str` regex's `\s` and
      `str.split()` with no argument use the same set. */
  predicate IsSpace(c: char)
  {
    || c == ' ' || c == '\t' || c == '\n' || c == '\r'
    || c == '\U{B}' || c == '\U{C}'
    || c == '\U{1C}' || c == '\U{1D}' || c == '\U{1E}' || c == '\U{1F}'
    || c == '\U{85}' || c == '\U{A0}' || c == '\U{1680}'
    || ('\U{2000}' <= c <= '\U{200A}')
    || c == '\U{2028}' || c == '\U{2029}' || c == '\U{202F}' || c == '\U{205F}' || c == '\U{3000}'
  }

  predicate AllSpace(s: string)
  {
    forall i :: 0 <= i < |s| ==> IsSpace(s[i])
  }

  // ---------------------------------------------------------------------------
  // strip()

  /** Python's `s.lstrip()`. */
  function TrimStart(s: string): (r: string)
    ensures |r| <= |s|
    ensures r == [] || !IsSpace(r[0])
    decreases |s|
  {
    if s != [] && IsSpace(s[0]) then TrimStart(s[1..]) else s
  }

  /** Python's `s.rstrip()`. */
  function TrimEnd(s: string): (r: string)
    ensures |r| <= |s|
    ensures r == s[..|r|]
    ensures r == [] || !IsSpace(r[|r| - 1])
    decreases |s|
  {
    if s != [] && IsSpace(s[|s| - 1]) then TrimEnd(s[..|s| - 1]) else s
  }

  /** Python's `s.strip()`. */
  function Trim(s: string): string
  {
    TrimEnd(TrimStart(s))
  }

  /** A stripped string is empty or starts and ends with a non-space. */
  lemma TrimmedEnds(s: string)
    ensures var t := Trim(s); t == [] || (!IsSpace(t[0]) && !IsSpace(t[|t| - 1]))
  {
    var u := TrimStart(s);
    var t := TrimEnd(u);
    if t != [] {
      assert t[0] == u[0];
    }
  }

  lemma {:induction false} TrimStartIdempotent(s: string)
    ensures TrimStart(TrimStart(s)) == TrimStart(s)
  {
  }

  /** Stripping twice changes nothing more. */
  lemma TrimIdempotent(s: string)
    ensures Trim(Trim(s)) == Trim(s)
  {
    TrimmedEnds(s);
    var t := Trim(s);
    if t != [] {
      TrimStartKeeps(t);
    }
  }

  /** A string that starts with a non-space is left alone by lstrip. */
  lemma TrimStartKeeps(s: string)
    requires s == [] || !IsSpace(s[0])
    ensures TrimStart(s) == s
  {
  }

  /** Stripping a string whose last character is not a space keeps that
      character last (and keeps the string non-empty). */
  lemma {:induction false} TrimKeepsLast(s: string)
    requires s != [] && !IsSpace(s[|s| - 1])
    ensures Trim(s) != [] && Trim(s)[|Trim(s)| - 1] == s[|s| - 1]
  {
    TrimStartKeepsLast(s);
    var u := TrimStart(s);
    assert TrimEnd(u) == u;
  }

  lemma {:induction false} TrimStartKeepsLast(s: string)
    requires s != [] && !IsSpace(s[|s| - 1])
    ensures TrimStart(s) != [] && TrimStart(s)[|TrimStart(s)| - 1] == s[|s| - 1]
    decreases |s|
  {
    if IsSpace(s[0]) {
      assert |s| > 1;
      assert s[1..][|s[1..]| - 1] == s[|s| - 1];
      TrimStartKeepsLast(s[1..]);
    }
  }

  // ---------------------------------------------------------------------------
  // The non-space content of a string

  /** The characters of `s` that are not whitespace, in order. */
  function Squeeze(s: string): string
    decreases |s|
  {
    if s == [] then [] else (if IsSpace(s[0]) then [] else [s[0]]) + Squeeze(s[1..])
  }

  lemma {:induction false} SqueezeAppend(a: string, b: string)
    ensures Squeeze(a + b) == Squeeze(a) + Squeeze(b)
    decreases |a|
  {
    if a == [] {
      assert a + b == b;
    } else {
      assert (a + b)[0] == a[0];
      assert (a + b)[1..] == a[1..] + b;
      SqueezeAppend(a[1..], b);
    }
  }

  lemma {:induction false} SqueezeAllSpace(s: string)
    requires AllSpace(s)
    ensures Squeeze(s) == []
    decreases |s|
  {
    if s != [] {
      SqueezeAllSpace(s[1..]);
    }
  }

  lemma {:induction false} SqueezeEmptyAllSpace(s: string)
    requires Squeeze(s) == []
    ensures AllSpace(s)
    decreases |s|
  {
    if s != [] {
      assert IsSpace(s[0]);
      SqueezeEmptyAllSpace(s[1..]);
    }
  }

  lemma {:induction false} SqueezeTrimStart(s: string)
    ensures Squeeze(TrimStart(s)) == Squeeze(s)
    decreases |s|
  {
    if s != [] && IsSpace(s[0]) {
      SqueezeTrimStart(s[1..]);
    }
  }

  lemma {:induction false} SqueezeTrimEnd(s: string)
    ensures Squeeze(TrimEnd(s)) == Squeeze(s)
    decreases |s|
  {
    if s != [] && IsSpace(s[|s| - 1]) {
      var n := |s| - 1;
      assert s == s[..n] + [s[n]];
      SqueezeAppend(s[..n], [s[n]]);
      SqueezeTrimEnd(s[..n]);
    }
  }

  /** strip() removes whitespace only. */
  lemma SqueezeTrim(s: string)
    ensures Squeeze(Trim(s)) == Squeeze(s)
  {
    SqueezeTrimStart(s);
    SqueezeTrimEnd(TrimStart(s));
  }

  /** Cutting a whitespace run out of a text loses no content. */
  lemma SqueezeCut(t: string, a: string, b: string, c: string)
    requires t == a + (b + c)
    requires AllSpace(b)
    ensures Squeeze(t) == Squeeze(a) + Squeeze(c)
  {
    SqueezeAllSpace(b);
    SqueezeAppend(b, c);
    SqueezeAppend(a, b + c);
  }

  lemma SpaceSlice(t: string, i: nat, j: nat)
    requires i <= j <= |t|
    requires forall k :: i <= k < j ==> IsSpace(t[k])
    ensures AllSpace(t[i..j])
  {
    forall k | 0 <= k < j - i ensures IsSpace(t[i..j][k]) {
      assert t[i..j][k] == t[i + k];
    }
  }

  lemma {:induction false} TrimStartIsSuffix(s: string)
    ensures TrimStart(s) == s[|s| - |TrimStart(s)|..]
    decreases |s|
  {
    if s != [] && IsSpace(s[0]) {
      TrimStartIsSuffix(s[1..]);
    }
  }

  lemma TrimIsInfix(s: string)
    ensures exists i, k :: 0 <= i <= k <= |s| && Trim(s) == s[i..k]
  {
    TrimStartIsSuffix(s);
    var u := TrimStart(s);
    var i := |s| - |u|;
    var t := TrimEnd(u);
    assert t == u[..|t|] == s[i..i + |t|];
  }

  /** A character that strip() keeps is a character of the original. */
  lemma TrimKeepsOnlyOwnChars(s: string, c: char)
    requires c in Trim(s)
    ensures c in s
  {
    TrimIsInfix(s);
    var i, k :| 0 <= i <= k <= |s| && Trim(s) == s[i..k];
    var n :| 0 <= n < |Trim(s)| && Trim(s)[n] == c;
    assert s[i + n] == c;
  }

  /** Python's `"".join(xs)`. */
  function Concat(xs: seq<string>): string
    decreases |xs|
  {
    if xs == [] then "" else xs[0] + Concat(xs[1..])
  }

  // ---------------------------------------------------------------------------
  // startswith and find

  predicate StartsWith(s: string, prefix: string)
  {
    |prefix| <= |s| && s[..|prefix|] == prefix
  }

  /** `pat` occurs in `s` starting at index `k`. */
  predicate OccursAt(s: string, pat: string, k: nat)
  {
    k + |pat| <= |s| && s[k..k + |pat|] == pat
  }

  /** The index of the first occurrence of `pat` in `s` at or after `from`,
      or `|s|` when there is none (the end of the piece `str.split` cuts). */
  function Find(s: string, pat: string, from: nat): (k: nat)
    requires pat != []
    ensures from <= k <= |s| || k == |s|
    decreases |s| - from
  {
    if from + |pat| > |s| then |s|
    else if s[from..from + |pat|] == pat then from
    else Find(s, pat, from + 1)
  }

  /** When every position from `from` up to `to` fails to start `pat` and
      `pat` occurs at `to`, Find answers `to`. */
  lemma {:induction false} FindAt(s: string, pat: string, from: nat, to: nat)
    requires pat != []
    requires from <= to && OccursAt(s, pat, to)
    requires forall k: nat :: from <= k < to ==> !OccursAt(s, pat, k)
    ensures Find(s, pat, from) == to
    decreases (to as int) - (from as int)
  {
    if from < to {
      assert !OccursAt(s, pat, from);
      FindAt(s, pat, from + 1, to);
    } else {
      assert OccursAt(s, pat, from);
    }
  }

  /** Python's `pat in s` for strings. */
  predicate Contains(s: string, pat: string)
  {
    exists k: nat :: k <= |s| && OccursAt(s, pat, k)
  }

  /** `str.lower()` restricted to ASCII letters. */
  function LowerChar(c: char): char
  {
    if 'A' <= c <= 'Z' then (c as int + 32) as char else c
  }

  function AsciiLower(s: string): (r: string)
    ensures |r| == |s|
    ensures forall i :: 0 <= i < |s| ==> r[i] == LowerChar(s[i])
  {
    seq(|s|, i requires 0 <= i < |s| => LowerChar(s[i]))
  }

  /** When `pat` does not occur at or after `from`, Find answers `|s|`. */
  lemma {:induction false} FindNone(s: string, pat: string, from: nat)
    requires pat != []
    requires forall k: nat :: from <= k ==> !OccursAt(s, pat, k)
    ensures Find(s, pat, from) == |s|
    decreases |s| - from
  {
    if from + |pat| <= |s| {
      assert !OccursAt(s, pat, from);
      FindNone(s, pat, from + 1);
    }
  }

  // ---------------------------------------------------------------------------
  // sep.join(xs) and s.split(c)

  /** Python's `sep.join(xs)`. */
  function Join(sep: string, xs: seq<string>): string
    decreases |xs|
  {
    if xs == [] then "" else if |xs| == 1 then xs[0] else xs[0] + sep + Join(sep, xs[1..])
  }

  lemma JoinStartsWithFirst(sep: string, xs: seq<string>)
    requires xs != []
    ensures StartsWith(Join(sep, xs), xs[0])
  {
    if |xs| > 1 {
      var j := Join(sep, xs);
      assert j == xs[0] + (sep + Join(sep, xs[1..]));
      assert j[..|xs[0]|] == xs[0];
    }
  }

  /** Every joined piece occurs in the joined string, at a position this
      lemma names. */
  lemma {:induction false} JoinContains(sep: string, xs: seq<string>, i: nat)
    requires i < |xs|
    ensures exists k: nat :: OccursAt(Join(sep, xs), xs[i], k)
    decreases |xs|
  {
    var j := Join(sep, xs);
    if i == 0 {
      JoinStartsWithFirst(sep, xs);
      assert OccursAt(j, xs[0], 0);
    } else {
      var rest := Join(sep, xs[1..]);
      assert |xs| > 1;
      assert j == (xs[0] + sep) + rest;
      JoinContains(sep, xs[1..], i - 1);
      var k: nat :| OccursAt(rest, xs[1..][i - 1], k);
      var off := |xs[0] + sep|;
      assert j[off + k..off + k + |xs[i]|] == rest[k..k + |xs[i]|];
      assert OccursAt(j, xs[i], off + k);
    }
  }

  /** The first index of `c` in `s`, or `|s|`. */
  function IndexOf(s: string, c: char): (i: nat)
    ensures i <= |s|
    ensures forall k :: 0 <= k < i ==> s[k] != c
    ensures i < |s| ==> s[i] == c
    decreases |s|
  {
    if s == [] then 0 else if s[0] == c then 0 else 1 + IndexOf(s[1..], c)
  }

  /** Python's `s.split(c)` for a one-character separator. */
  function SplitOn(s: string, c: char): (r: seq<string>)
    ensures |r| >= 1
    decreases |s|
  {
    var i := IndexOf(s, c);
    if i == |s| then [s] else [s[..i]] + SplitOn(s[i + 1..], c)
  }

  /** Splitting and joining again on the same separator gives back the string. */
  lemma {:induction false} JoinSplitOn(s: string, c: char)
    ensures Join([c], SplitOn(s, c)) == s
    decreases |s|
  {
    var i := IndexOf(s, c);
    if i < |s| {
      var rest := SplitOn(s[i + 1..], c);
      JoinSplitOn(s[i + 1..], c);
      var parts := [s[..i]] + rest;
      assert parts[1..] == rest;
      assert Join([c], parts) == s[..i] + [c] + Join([c], rest);
      assert s == s[..i] + [c] + s[i + 1..];
    }
  }

  /** Joining pieces that do not contain the separator and splitting again
      gives back the pieces. */
  lemma {:induction false} SplitOnJoin(xs: seq<string>, c: char)
    requires xs != []
    requires forall i :: 0 <= i < |xs| ==> c !in xs[i]
    ensures SplitOn(Join([c], xs), c) == xs
    decreases |xs|
  {
    var x := xs[0];
    if |xs| == 1 {
      forall k | 0 <= k < |x| ensures x[k] != c {
        assert x[k] in x;
      }
    } else {
      var rest := Join([c], xs[1..]);
      var s := x + [c] + rest;
      assert Join([c], xs) == s;
      assert s[|x|] == c;
      forall k | 0 <= k < |x| ensures s[k] != c {
        assert s[k] == x[k] && x[k] in x;
      }
      assert s[..|x|] == x;
      assert s[|x| + 1..] == rest;
      SplitOnJoin(xs[1..], c);
    }
  }

  // ---------------------------------------------------------------------------
  // s.split() with no argument: whitespace-separated words

  /** The index of the first whitespace character of `s`, or `|s|`. */
  function WordEnd(s: string): (k: nat)
    ensures k <= |s|
    ensures forall i :: 0 <= i < k ==> !IsSpace(s[i])
    ensures k < |s| ==> IsSpace(s[k])
    decreases |s|
  {
    if s == [] || IsSpace(s[0]) then 0 else 1 + WordEnd(s[1..])
  }

  /** Python's `s.split()`: the maximal runs of non-whitespace, in order. */
  function Words(s: string): seq<string>
    decreases |s|
  {
    var t := TrimStart(s);
    if t == [] then [] else var k := WordEnd(t); [t[..k]] + Words(t[k..])
  }

  predicate IsWord(w: string)
  {
    w != [] && forall i :: 0 <= i < |w| ==> !IsSpace(w[i])
  }

  /** Every word is non-empty and holds no whitespace. */
  lemma {:induction false} WordsAreWords(s: string)
    ensures forall i :: 0 <= i < |Words(s)| ==> IsWord(Words(s)[i])
    decreases |s|
  {
    var t := TrimStart(s);
    if t != [] {
      WordsAreWords(t[WordEnd(t)..]);
    }
  }

  /** `split()` finds no word exactly when the string is all whitespace. */
  lemma {:induction false} WordsEmptyIffAllSpace(s: string)
    ensures Words(s) == [] <==> AllSpace(s)
    decreases |s|
  {
    if s != [] && IsSpace(s[0]) {
      WordsEmptyIffAllSpace(s[1..]);
      assert Words(s) == Words(s[1..]);
      if AllSpace(s[1..]) {
        forall i | 1 <= i < |s| ensures IsSpace(s[i]) {
          assert s[i] == s[1..][i - 1];
        }
      }
    }
  }

  lemma WordsOfTrimmed(s: string)
    ensures Words(TrimStart(s)) == Words(s)
  {
    TrimStartIdempotent(s);
  }

  /** A single word splits to itself. */
  lemma WordsOfWord(w: string)
    requires IsWord(w)
    ensures Words(w) == [w]
  {
    TrimStartKeeps(w);
    assert WordEnd(w) == |w|;
    assert w[..|w|] == w && w[|w|..] == [];
    assert Words(w) == [w] + Words([]);
  }

  /** A word, one space, then text that does not start with whitespace: the
      word comes first and the rest splits on its own. */
  lemma WordsCons(w: string, rest: string)
    requires IsWord(w)
    requires rest == [] || !IsSpace(rest[0])
    ensures Words(w + " " + rest) == [w] + Words(rest)
  {
    var s := w + " " + rest;
    TrimStartKeeps(s);
    assert IsSpace(s[|w|]);
    forall k | 0 <= k < |w| ensures !IsSpace(s[k]) {
      assert s[k] == w[k];
    }
    assert WordEnd(s) == |w|;
    assert s[..|w|] == w;
    var tail := s[|w|..];
    assert tail == " " + rest;
    assert TrimStart(tail) == TrimStart(rest);
    TrimStartKeeps(rest);
    WordsOfTrimmed(tail);
    assert Words(s) == [w] + Words(tail);
  }

  /** Joining words with single spaces and splitting again gives back the words. */
  lemma {:induction false} WordsJoin(ws: seq<string>)
    requires forall i :: 0 <= i < |ws| ==> IsWord(ws[i])
    ensures Words(Join(" ", ws)) == ws
    decreases |ws|
  {
    if |ws| == 1 {
      WordsOfWord(ws[0]);
    } else if |ws| > 1 {
      var rest := Join(" ", ws[1..]);
      assert Join(" ", ws) == ws[0] + " " + rest;
      JoinStartsWithFirst(" ", ws[1..]);
      WordsCons(ws[0], rest);
      WordsJoin(ws[1..]);
      assert ws == [ws[0]] + ws[1..];
    }
  }

  // ---------------------------------------------------------------------------
  // Decimal formatting of natural numbers (`f"{n}"`, `str(n)`)

  function DigitChar(d: nat): char
    requires d < 10
  {
    (48 + d) as char
  }

  function Decimal(n: nat): string
    decreases n
  {
    if n < 10 then [DigitChar(n)] else Decimal(n / 10) + [DigitChar(n % 10)]
  }

  lemma {:induction false} DecimalLength(n: nat)
    ensures |Decimal(n)| >= 1
    ensures |Decimal(n)| == 1 <==> n < 10
    decreases n
  {
    if n >= 10 {
      DecimalLength(n / 10);
    }
  }

  /** Different numbers print differently. */
  lemma {:induction false} DecimalInjective(a: nat, b: nat)
    requires Decimal(a) == Decimal(b)
    ensures a == b
    decreases a
  {
    DecimalLength(a);
    DecimalLength(b);
    if a >= 10 && b >= 10 {
      var da, db := Decimal(a), Decimal(b);
      assert da[|da| - 1] == DigitChar(a % 10) && db[|db| - 1] == DigitChar(b % 10);
      assert a % 10 == b % 10;
      assert da[..|da| - 1] == Decimal(a / 10);
      assert db[..|db| - 1] == Decimal(b / 10);
      DecimalInjective(a / 10, b / 10);
    }
  }
}
