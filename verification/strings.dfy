/**
 * Text operations shared by the browser client and the chat backend:
 * substring search (JavaScript `String.prototype.includes`, Python `in`),
 * Python's `str.strip()` with its notion of whitespace, and Python's
 * `str.lower()` as far as it can affect a match against ASCII text.
 */
module Strings {

  // ---------------------------------------------------------------------
  // Substring search
  // ---------------------------------------------------------------------

  /** `sub` occurs in `s` starting at index `i`. */
  ghost predicate OccursAt(s: string, sub: string, i: int)
  {
    0 <= i && i + |sub| <= |s| && s[i..i + |sub|] == sub
  }

  /** `sub` is a (possibly empty) substring of `s`, scanning from the left. */
  function Contains(s: string, sub: string): bool
    decreases |s|
  {
    |sub| <= |s| && (s[..|sub|] == sub || (s != [] && Contains(s[1..], sub)))
  }

  /** The scan agrees with the positional definition, in both directions. */
  lemma {:induction false} ContainsIff(s: string, sub: string)
    ensures Contains(s, sub) <==> exists i :: OccursAt(s, sub, i)
    decreases |s|
  {
    if Contains(s, sub) {
      if s[..|sub|] == sub {
        assert OccursAt(s, sub, 0);
      } else {
        ContainsIff(s[1..], sub);
        var i :| OccursAt(s[1..], sub, i);
        assert s[1..][i..i + |sub|] == s[i + 1..i + 1 + |sub|];
        assert OccursAt(s, sub, i + 1);
      }
    } else {
      forall i | OccursAt(s, sub, i) ensures false {
        if i != 0 {
          assert s[1..][i - 1..i - 1 + |sub|] == s[i..i + |sub|];
          assert OccursAt(s[1..], sub, i - 1);
          ContainsIff(s[1..], sub);
        }
      }
    }
  }

  /** Any occurrence is found by the scan. */
  lemma ContainsAt(s: string, sub: string, i: int)
    requires OccursAt(s, sub, i)
    ensures Contains(s, sub)
  {
    ContainsIff(s, sub);
  }

  /** A piece of a concatenation is contained in it. */
  lemma ContainsMiddle(a: string, b: string, c: string)
    ensures Contains(a + b + c, b)
  {
    assert (a + b + c)[|a|..|a| + |b|] == b;
    ContainsAt(a + b + c, b, |a|);
  }

  // ---------------------------------------------------------------------
  // Python str.isspace() and str.strip()
  // ---------------------------------------------------------------------

  /** The characters Python's `str.isspace()` accepts (Unicode White_Space
      as Python defines it: bidirectional classes WS, B, S and category Zs). */
  predicate IsSpace(c: char)
  {
    c == ' ' || ('\t' <= c <= '\r') || ('\U{1C}' <= c <= '\U{1F}')
    || c == '\U{85}' || c == '\U{A0}' || c == '\U{1680}'
    || ('\U{2000}' <= c <= '\U{200A}') || c == '\U{2028}' || c == '\U{2029}'
    || c == '\U{202F}' || c == '\U{205F}' || c == '\U{3000}'
  }

  ghost predicate AllSpace(s: string)
  {
    forall k :: 0 <= k < |s| ==> IsSpace(s[k])
  }

  /** Number of whitespace characters at the front of `s`. */
  function LeadingSpaces(s: string): (n: nat)
    ensures n <= |s|
  {
    if s != [] && IsSpace(s[0]) then 1 + LeadingSpaces(s[1..]) else 0
  }

  /** Number of whitespace characters at the end of `s`. */
  function TrailingSpaces(s: string): (n: nat)
    ensures n <= |s|
  {
    if s != [] && IsSpace(s[|s| - 1]) then 1 + TrailingSpaces(s[..|s| - 1]) else 0
  }

  /** The leading run is all whitespace and ends at a non-whitespace
      character or at the end of the text. */
  lemma {:induction false} LeadingSpacesRun(s: string)
    ensures forall k :: 0 <= k < LeadingSpaces(s) ==> IsSpace(s[k])
    ensures LeadingSpaces(s) < |s| ==> !IsSpace(s[LeadingSpaces(s)])
    decreases |s|
  {
    if s != [] && IsSpace(s[0]) {
      var t := s[1..];
      LeadingSpacesRun(t);
      forall k | 1 <= k < LeadingSpaces(s) ensures IsSpace(s[k]) {
        assert s[k] == t[k - 1];
      }
      if LeadingSpaces(s) < |s| {
        assert s[LeadingSpaces(s)] == t[LeadingSpaces(t)];
      }
    }
  }

  /** The trailing run is all whitespace and starts after a
      non-whitespace character or at the start of the text. */
  lemma {:induction false} TrailingSpacesRun(s: string)
    ensures forall k :: |s| - TrailingSpaces(s) <= k < |s| ==> IsSpace(s[k])
    ensures TrailingSpaces(s) < |s| ==> !IsSpace(s[|s| - TrailingSpaces(s) - 1])
    decreases |s|
  {
    if s != [] && IsSpace(s[|s| - 1]) {
      var t := s[..|s| - 1];
      TrailingSpacesRun(t);
      forall k | |s| - TrailingSpaces(s) <= k < |s| - 1 ensures IsSpace(s[k]) {
        assert s[k] == t[k];
      }
      if TrailingSpaces(s) < |s| {
        assert s[|s| - TrailingSpaces(s) - 1] == t[|t| - TrailingSpaces(t) - 1];
      }
    }
  }

  /** `r` is `s` with a whitespace prefix and a whitespace suffix removed,
      and `r` neither starts nor ends with whitespace. */
  ghost predicate StrippedOf(s: string, r: string)
  {
    (r == [] || (!IsSpace(r[0]) && !IsSpace(r[|r| - 1])))
    && exists i, j :: 0 <= i <= j <= |s| && r == s[i..j]
                      && (forall k :: 0 <= k < i ==> IsSpace(s[k]))
                      && (forall k :: j <= k < |s| ==> IsSpace(s[k]))
  }

  /** Python's `str.strip()` with no argument. */
  function Strip(s: string): (r: string)
    ensures |r| <= |s|
  {
    var i, j := LeadingSpaces(s), |s| - TrailingSpaces(s);
    if j <= i then [] else s[i..j]
  }

  /** `strip()` removes exactly a whitespace prefix and suffix, and what
      remains neither starts nor ends with whitespace. */
  lemma StripRemovesSurroundingSpace(s: string)
    ensures StrippedOf(s, Strip(s))
  {
    LeadingSpacesRun(s);
    TrailingSpacesRun(s);
    var i, j := LeadingSpaces(s), |s| - TrailingSpaces(s);
    if i == |s| {
      assert Strip(s) == s[i..i];
    } else {
      TrailingSpacesAfter(s, i);
      StripSlice(s, i, j);
      var r := s[i..j];
      assert r[0] == s[i] && r[|r| - 1] == s[j - 1];
    }
  }

  /** `strip()` leaves nothing exactly when the text is all whitespace. */
  lemma StripEmptyIffAllSpace(s: string)
    ensures Strip(s) == [] <==> AllSpace(s)
  {
    LeadingSpacesRun(s);
    var i, j := LeadingSpaces(s), |s| - TrailingSpaces(s);
    if i < |s| {
      TrailingSpacesAfter(s, i);
      StripSlice(s, i, j);
      assert !IsSpace(s[i]);
    }
  }

  /** Stripping twice is stripping once. */
  lemma StripIdempotent(s: string)
    ensures Strip(Strip(s)) == Strip(s)
  {
    StripRemovesSurroundingSpace(s);
    var r := Strip(s);
    if r != [] {
      assert LeadingSpaces(r) == 0;
      assert TrailingSpaces(r) == 0;
      assert r[0..|r|] == r;
    }
  }

  /** Stripping stops at the first non-whitespace character. */
  lemma LeadingSpacesBefore(s: string, p: nat)
    requires p < |s| && !IsSpace(s[p])
    ensures LeadingSpaces(s) <= p
  {
    LeadingSpacesRun(s);
  }

  /** Stripping stops at the last non-whitespace character. */
  lemma TrailingSpacesAfter(s: string, q: nat)
    requires q < |s| && !IsSpace(s[q])
    ensures q < |s| - TrailingSpaces(s)
  {
    TrailingSpacesRun(s);
  }

  /** Between non-overlapping whitespace runs, stripping keeps the slice
      that separates them. */
  lemma StripSlice(s: string, i: nat, j: nat)
    requires i == LeadingSpaces(s) && j == |s| - TrailingSpaces(s) && i < j
    ensures Strip(s) == s[i..j]
  {
  }

  /** An occurrence inside a slice that covers it. */
  lemma OccursInSlice(s: string, w: string, p: int, i: int, j: int)
    requires OccursAt(s, w, p) && 0 <= i <= p && p + |w| <= j <= |s|
    ensures OccursAt(s[i..j], w, p - i)
  {
    var u, v := s[i..j][p - i..p - i + |w|], s[p..p + |w|];
    forall k | 0 <= k < |w| ensures u[k] == v[k] {
    }
    assert u == v;
  }

  /** The ends of an occurrence are the ends of the word. */
  lemma OccurrenceEnds(s: string, w: string, p: int)
    requires OccursAt(s, w, p) && w != []
    ensures s[p] == w[0] && s[p + |w| - 1] == w[|w| - 1]
  {
    assert s[p..p + |w|][0] == s[p];
    assert s[p..p + |w|][|w| - 1] == s[p + |w| - 1];
  }

  /** An occurrence of a word that starts and ends with non-whitespace
      lies within the stripped text, shifted by the leading run. */
  lemma OccursInStrip(s: string, w: string, p: int)
    requires OccursAt(s, w, p)
    requires w != [] && !IsSpace(w[0]) && !IsSpace(w[|w| - 1])
    ensures LeadingSpaces(s) <= p
    ensures OccursAt(Strip(s), w, p - LeadingSpaces(s))
  {
    OccurrenceEnds(s, w, p);
    LeadingSpacesBefore(s, p);
    TrailingSpacesAfter(s, p + |w| - 1);
    var i, j := LeadingSpaces(s), |s| - TrailingSpaces(s);
    StripSlice(s, i, j);
    assert Strip(s) == s[i..j];
    OccursInSlice(s, w, p, i, j);
  }

  /** A word that starts and ends with non-whitespace, found in the
      text, is still found after stripping. */
  lemma OccurrenceSurvivesStrip(s: string, w: string, p: int)
    requires OccursAt(s, w, p)
    requires w != [] && !IsSpace(w[0]) && !IsSpace(w[|w| - 1])
    ensures Contains(Strip(s), w)
  {
    OccursInStrip(s, w, p);
    ContainsAt(Strip(s), w, p - LeadingSpaces(s));
  }

  // ---------------------------------------------------------------------
  // Python str.lower()
  // ---------------------------------------------------------------------

  /** The full lower-case mapping of one character, as far as it produces
      ASCII text: A-Z, KELVIN SIGN (which lowers to 'k') and LATIN CAPITAL
      LETTER I WITH DOT ABOVE (which lowers to 'i' and a combining dot).
      Every other character is kept. */
  function LowerChar(c: char): (r: string)
    ensures r != []
    ensures IsSpace(c) ==> r == [c]
    ensures !IsSpace(c) ==> !IsSpace(r[0]) && !IsSpace(r[|r| - 1])
  {
    if 'A' <= c <= 'Z' then [(c as int + 32) as char]
    else if c == '\U{212A}' then ['k']
    else if c == '\U{130}' then ['i', '\U{307}']
    else [c]
  }

  /** The lowering the model applies for Python's `str.lower()`: each
      character on its own, through `LowerChar`, so that only the characters
      that can produce ASCII text are changed. */
  function Lower(s: string): string
  {
    if s == [] then [] else LowerChar(s[0]) + Lower(s[1..])
  }

  lemma {:induction false} LowerAppend(a: string, b: string)
    ensures Lower(a + b) == Lower(a) + Lower(b)
    decreases |a|
  {
    if a == [] {
      assert a + b == b;
    } else {
      assert (a + b)[1..] == a[1..] + b;
      LowerAppend(a[1..], b);
    }
  }

  /** Text whose characters all lower to themselves is unchanged by lowering. */
  lemma {:induction false} LowerFixed(s: string)
    requires forall k :: 0 <= k < |s| ==> LowerChar(s[k]) == [s[k]]
    ensures Lower(s) == s
    decreases |s|
  {
    if s != [] {
      LowerFixed(s[1..]);
    }
  }

  /** Lowering cannot turn non-whitespace ends into whitespace ends. */
  lemma LowerEnds(w: string)
    requires w != []
    ensures Lower(w) != []
    ensures !IsSpace(Lower(w)[0]) ==> !IsSpace(w[0])
    ensures !IsSpace(Lower(w)[|Lower(w)| - 1]) ==> !IsSpace(w[|w| - 1])
  {
    var n := |w|;
    assert w == w[..n - 1] + [w[n - 1]];
    LowerAppend(w[..n - 1], [w[n - 1]]);
    assert Lower([w[n - 1]]) == LowerChar(w[n - 1]);
  }

  /** Case-insensitive search: an occurrence of `w` in `s`, in any letter
      case, shows up as an occurrence of `Lower(w)` in `Lower(s)`. */
  lemma LowerPreservesOccurrence(s: string, w: string, p: int)
    requires OccursAt(s, w, p)
    ensures Contains(Lower(s), Lower(w))
  {
    var a, c := s[..p], s[p + |w|..];
    assert s == a + w + c;
    LowerAppend(a + w, c);
    LowerAppend(a, w);
    ContainsMiddle(Lower(a), Lower(w), Lower(c));
  }
}
