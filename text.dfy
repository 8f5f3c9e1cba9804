/**
 * The JavaScript string built-ins the client relies on, written out over
 * `seq<char>`: `trim`, `startsWith`, `replace` with a string pattern,
 * `slice(0, n)`, the digit filter `replace(/[^0-9]/g, "")`,
 * `filter(Boolean).join(sep)` and the relational `<` on strings.
 */
module Text {
  import opened Wrappers

  /** The WhiteSpace and LineTerminator code points of ECMAScript, the set `trim` strips. */
  predicate IsJsWhitespace(c: char) {
    c == '\U{9}' || c == '\U{B}' || c == '\U{C}' || c == ' ' || c == '\U{A0}' || c == '\U{FEFF}'
    || c == '\U{A}' || c == '\U{D}' || c == '\U{2028}' || c == '\U{2029}'
    || c == '\U{1680}' || ('\U{2000}' <= c <= '\U{200A}') || c == '\U{202F}' || c == '\U{205F}'
    || c == '\U{3000}'
  }

  predicate AllIn(s: string, space: char -> bool) {
    forall i :: 0 <= i < |s| ==> space(s[i])
  }

  /** The number of leading characters of `s` in the class `space`. */
  function LeadingCount(s: string, space: char -> bool): (n: nat)
    ensures n <= |s|
    ensures forall i :: 0 <= i < n ==> space(s[i])
    ensures n < |s| ==> !space(s[n])
  {
    if s != [] && space(s[0]) then
      var m := LeadingCount(s[1..], space);
      assert forall i :: 1 <= i < 1 + m ==> s[i] == s[1..][i - 1];
      1 + m
    else 0
  }

  /** The number of trailing characters of `s` in the class `space`. */
  function TrailingCount(s: string, space: char -> bool): (n: nat)
    ensures n <= |s|
    ensures forall i :: |s| - n <= i < |s| ==> space(s[i])
    ensures n < |s| ==> !space(s[|s| - 1 - n])
  {
    if s != [] && space(s[|s| - 1]) then
      var m := TrailingCount(s[..|s| - 1], space);
      assert forall i :: 0 <= i < |s| - 1 ==> s[i] == s[..|s| - 1][i];
      1 + m
    else 0
  }

  /** Drops the leading characters in the class `space`. */
  function TrimStartBy(s: string, space: char -> bool): (r: string)
    ensures |r| <= |s| && r == s[|s| - |r|..]
    ensures AllIn(s[..|s| - |r|], space)
    ensures r != [] ==> !space(r[0])
    ensures r == [] <==> AllIn(s, space)
  {
    var n := LeadingCount(s, space);
    assert forall i :: 0 <= i < n ==> s[..n][i] == s[i];
    assert n < |s| ==> !AllIn(s, space);
    s[n..]
  }

  /** Drops the trailing characters in the class `space`. */
  function TrimEndBy(s: string, space: char -> bool): (r: string)
    ensures |r| <= |s| && r == s[..|r|]
    ensures AllIn(s[|r|..], space)
    ensures r != [] ==> !space(r[|r| - 1])
    ensures r == [] <==> AllIn(s, space)
  {
    var n := TrailingCount(s, space);
    var k := |s| - n;
    assert forall i :: 0 <= i < n ==> s[k..][i] == s[k + i];
    assert k > 0 ==> !AllIn(s, space);
    s[..k]
  }

  /**
   * `s.trim()`: the contiguous slice of `s` left once JavaScript whitespace is
   * removed from both ends; what is cut on either side is whitespace only,
   * and the result is empty exactly when `s` is all whitespace.
   */
  function Trim(s: string): (r: string)
    ensures |r| <= |s|
    ensures exists k: nat :: OccursAt(s, r, k) && AllIn(s[..k], IsJsWhitespace) && AllIn(s[k + |r|..], IsJsWhitespace)
    ensures r != [] ==> !IsJsWhitespace(r[0]) && !IsJsWhitespace(r[|r| - 1])
    ensures r == [] <==> AllIn(s, IsJsWhitespace)
  {
    var t := TrimStartBy(s, IsJsWhitespace);
    var r := TrimEndBy(t, IsJsWhitespace);
    var k: nat := |s| - |t|;
    TrimCutsOnlyWhitespace(s);
    TrimLeavesNoWhitespaceEnds(s);
    assert OccursAt(s, r, k) && AllIn(s[..k], IsJsWhitespace) && AllIn(s[k + |r|..], IsJsWhitespace);
    r
  }

  /** Trimming the start and then the end cuts whitespace off both sides of one slice of `s`. */
  lemma TrimCutsOnlyWhitespace(s: string)
    ensures var t := TrimStartBy(s, IsJsWhitespace);
      var r := TrimEndBy(t, IsJsWhitespace);
      var k := |s| - |t|;
      OccursAt(s, r, k) && AllIn(s[..k], IsJsWhitespace) && AllIn(s[k + |r|..], IsJsWhitespace)
  {
    var t := TrimStartBy(s, IsJsWhitespace);
    var k := |s| - |t|;
    var r := TrimEndBy(t, IsJsWhitespace);
    assert s[k..][..|r|] == s[k..k + |r|];
    assert s[k + |r|..] == t[|r|..];
  }

  /** What both trims leave is empty exactly for an all-whitespace `s`, and otherwise starts and ends outside the class. */
  lemma TrimLeavesNoWhitespaceEnds(s: string)
    ensures var r := TrimEndBy(TrimStartBy(s, IsJsWhitespace), IsJsWhitespace);
      (r == [] <==> AllIn(s, IsJsWhitespace)) &&
      (r != [] ==> !IsJsWhitespace(r[0]) && !IsJsWhitespace(r[|r| - 1]))
  {
    var t := TrimStartBy(s, IsJsWhitespace);
    var r := TrimEndBy(t, IsJsWhitespace);
    if t != [] {
      assert !IsJsWhitespace(t[0]);
      assert !AllIn(t, IsJsWhitespace);
      assert r[0] == t[0];
    }
  }

  /** Trimming is idempotent. */
  lemma TrimIdempotent(s: string)
    ensures Trim(Trim(s)) == Trim(s)
  {
    var r := Trim(s);
    if r != [] {
      assert TrimStartBy(r, IsJsWhitespace) == r;
      assert TrimEndBy(r, IsJsWhitespace) == r;
    }
  }

  /** `s.startsWith(p)`. */
  predicate StartsWith(s: string, p: string) {
    |p| <= |s| && s[..|p|] == p
  }

  predicate OccursAt(s: string, pat: string, k: nat) {
    k + |pat| <= |s| && s[k..k + |pat|] == pat
  }

  /** The first index at or after `from` where `pat` occurs in `s`. */
  function IndexOfFrom(s: string, pat: string, from: nat): (r: Option<nat>)
    requires from <= |s|
    ensures r.Some? ==> from <= r.value && OccursAt(s, pat, r.value)
    ensures r.Some? ==> forall k :: from <= k < r.value ==> !OccursAt(s, pat, k)
    ensures r.None? ==> forall k :: from <= k <= |s| ==> !OccursAt(s, pat, k)
    decreases |s| - from
  {
    if OccursAt(s, pat, from) then Some(from)
    else if from == |s| then None
    else IndexOfFrom(s, pat, from + 1)
  }

  /** `s.indexOf(pat)`, with `None` for JavaScript's -1. */
  function IndexOf(s: string, pat: string): Option<nat> {
    IndexOfFrom(s, pat, 0)
  }

  /** `s.replace(pat, rep)` for a string pattern: only the first occurrence is replaced. */
  function ReplaceFirst(s: string, pat: string, rep: string): (r: string)
    ensures (forall k :: 0 <= k <= |s| ==> !OccursAt(s, pat, k)) ==> r == s
    ensures forall k :: 0 <= k <= |s| && OccursAt(s, pat, k)
              && (forall j :: 0 <= j < k ==> !OccursAt(s, pat, j))
              ==> r == s[..k] + rep + s[k + |pat|..]
  {
    match IndexOf(s, pat)
    case None => s
    case Some(k) => s[..k] + rep + s[k + |pat|..]
  }

  predicate IsDigit(c: char) {
    '0' <= c <= '9'
  }

  predicate AllDigits(s: string) {
    forall i :: 0 <= i < |s| ==> IsDigit(s[i])
  }

  /**
   * `s.replace(/[^0-9]/g, "")`: the digits of `s`, in order.  A single
   * character is kept exactly when it is a digit; with `KeepDigitsAppend`
   * this fixes the result for every string.
   */
  function KeepDigits(s: string): (r: string)
    ensures AllDigits(r)
    ensures |r| <= |s|
    ensures |s| == 1 ==> r == (if IsDigit(s[0]) then s else [])
  {
    if s == [] then []
    else if IsDigit(s[0]) then [s[0]] + KeepDigits(s[1..])
    else KeepDigits(s[1..])
  }

  /** The digit filter distributes over concatenation: it works character by character, keeping the order. */
  lemma {:induction false} KeepDigitsAppend(a: string, b: string)
    ensures KeepDigits(a + b) == KeepDigits(a) + KeepDigits(b)
  {
    if a != [] {
      assert (a + b)[0] == a[0] && (a + b)[1..] == a[1..] + b;
      KeepDigitsAppend(a[1..], b);
      if IsDigit(a[0]) {
        assert [a[0]] + (KeepDigits(a[1..]) + KeepDigits(b)) == ([a[0]] + KeepDigits(a[1..])) + KeepDigits(b);
      }
    } else {
      assert a + b == b;
    }
  }

  /** A string of digits passes the filter unchanged; in particular the filter is idempotent. */
  lemma {:induction false} KeepDigitsOfDigits(s: string)
    requires AllDigits(s)
    ensures KeepDigits(s) == s
  {
    if s != [] {
      KeepDigitsOfDigits(s[1..]);
    }
  }

  /** `s.slice(0, n)` for a non-negative `n`. */
  function Take(s: string, n: nat): (r: string)
    ensures |r| <= n && |r| <= |s|
    ensures StartsWith(s, r)
    ensures |s| <= n ==> r == s
    ensures |s| > n ==> |r| == n
  {
    if |s| <= n then s else s[..n]
  }

  /** JavaScript truthiness of an optional string: present and non-empty. */
  predicate Truthy(o: Option<string>) {
    o.Some? && o.value != ""
  }

  /** `parts.filter(Boolean)`: the present, non-empty parts in their order. */
  function KeepTruthy(parts: seq<Option<string>>): (r: seq<string>)
    ensures forall i :: 0 <= i < |r| ==> r[i] != ""
    ensures |r| <= |parts|
    ensures r == [] <==> forall i :: 0 <= i < |parts| ==> !Truthy(parts[i])
  {
    if parts == [] then []
    else if Truthy(parts[0]) then [parts[0].value] + KeepTruthy(parts[1..])
    else
      var r := KeepTruthy(parts[1..]);
      assert (forall i :: 0 <= i < |parts| ==> !Truthy(parts[i])) <==>
             (forall i :: 0 <= i < |parts[1..]| ==> !Truthy(parts[1..][i]));
      r
  }

  /** `xs.join(sep)`: the parts in order with `sep` between neighbours; see JoinConcat. */
  function Join(xs: seq<string>, sep: string): (r: string)
    ensures xs == [] ==> r == ""
    ensures |xs| == 1 ==> r == xs[0]
    ensures xs != [] ==> StartsWith(r, xs[0])
  {
    if xs == [] then ""
    else if |xs| == 1 then xs[0]
    else xs[0] + sep + Join(xs[1..], sep)
  }

  /** Joining two non-empty lists back to back puts one separator between their joins. */
  lemma {:induction false} JoinConcat(a: seq<string>, b: seq<string>, sep: string)
    requires a != [] && b != []
    ensures Join(a + b, sep) == Join(a, sep) + sep + Join(b, sep)
  {
    assert (a + b)[0] == a[0];
    if |a| == 1 {
      assert (a + b)[1..] == b;
    } else {
      assert (a + b)[1..] == a[1..] + b;
      JoinConcat(a[1..], b, sep);
    }
  }

  /** Join of non-empty strings is empty only for the empty list. */
  lemma JoinEmptyIff(xs: seq<string>, sep: string)
    requires forall i :: 0 <= i < |xs| ==> xs[i] != ""
    ensures Join(xs, sep) == "" <==> xs == []
  {
    if |xs| >= 1 {
      assert |Join(xs, sep)| >= |xs[0]|;
    }
  }

  /** `parts.filter(Boolean).join(sep)`. */
  function JoinTruthy(parts: seq<Option<string>>, sep: string): (r: string)
    ensures r == "" <==> forall i :: 0 <= i < |parts| ==> !Truthy(parts[i])
  {
    var kept := KeepTruthy(parts);
    JoinEmptyIff(kept, sep);
    Join(kept, sep)
  }

  /** `parts.filter(Boolean)` peels off its first part. */
  lemma KeepTruthyCons(p: Option<string>, rest: seq<Option<string>>)
    ensures KeepTruthy([p] + rest) == (if Truthy(p) then [p.value] else []) + KeepTruthy(rest)
  {
    assert ([p] + rest)[1..] == rest;
  }

  /** `[a, b].filter(Boolean).join(sep)`, case by case. */
  lemma JoinTruthyTwo(a: Option<string>, b: Option<string>, sep: string)
    ensures JoinTruthy([a, b], sep) ==
      if Truthy(a) && Truthy(b) then a.value + sep + b.value
      else if Truthy(a) then a.value
      else if Truthy(b) then b.value
      else ""
  {
    KeepTruthyCons(b, []);
    assert [b] + [] == [b];
    KeepTruthyCons(a, [b]);
    assert [a] + [b] == [a, b];
    var kept := KeepTruthy([a, b]);
    assert JoinTruthy([a, b], sep) == Join(kept, sep);
    if Truthy(a) && Truthy(b) {
      assert kept == [a.value, b.value];
      assert kept[1..] == [b.value];
      assert Join(kept, sep) == a.value + sep + Join([b.value], sep);
    } else if Truthy(a) {
      assert kept == [a.value];
    } else if Truthy(b) {
      assert kept == [b.value];
    } else {
      assert kept == [];
    }
  }

  /** `[a, b, c].filter(Boolean).join(sep)` when all three are present and non-empty. */
  lemma JoinTruthyThree(a: Option<string>, b: Option<string>, c: Option<string>, sep: string)
    ensures Truthy(a) && Truthy(b) && Truthy(c) ==>
      JoinTruthy([a, b, c], sep) == a.value + sep + b.value + sep + c.value
  {
    if Truthy(a) && Truthy(b) && Truthy(c) {
      KeepTruthyCons(c, []);
      assert [c] + [] == [c];
      KeepTruthyCons(b, [c]);
      assert [b] + [c] == [b, c];
      KeepTruthyCons(a, [b, c]);
      assert [a] + [b, c] == [a, b, c];
      var kept := [a.value, b.value, c.value];
      assert KeepTruthy([a, b, c]) == kept;
      assert JoinTruthy([a, b, c], sep) == Join(kept, sep);
      assert kept[1..] == [b.value, c.value] && kept[1..][1..] == [c.value];
      assert Join([b.value, c.value], sep) == b.value + sep + c.value;
      assert Join(kept, sep) == a.value + sep + (b.value + sep + c.value);
    }
  }

  /** JavaScript's `a < b` on strings: lexicographic, a proper prefix is smaller. */
  predicate LexLess(a: string, b: string)
    ensures LexLess(a, b) ==> b != []
    ensures StartsWith(b, a) ==> (LexLess(a, b) <==> |a| < |b|)
    ensures StartsWith(a, b) ==> !LexLess(a, b)
  {
    if a == [] then b != []
    else if b == [] then false
    else if a[0] == b[0] then LexLess(a[1..], b[1..])
    else a[0] < b[0]
  }

  lemma {:induction false} LexLessIrreflexive(a: string)
    ensures !LexLess(a, a)
  {
    if a != [] {
      LexLessIrreflexive(a[1..]);
    }
  }

  /** Exactly one of `a < b`, `a == b`, `b < a` holds. */
  lemma {:induction false} LexLessTrichotomy(a: string, b: string)
    ensures LexLess(a, b) || a == b || LexLess(b, a)
    ensures !(LexLess(a, b) && LexLess(b, a))
  {
    if a != [] && b != [] && a[0] == b[0] {
      LexLessTrichotomy(a[1..], b[1..]);
      if a[1..] == b[1..] {
        assert a == [a[0]] + a[1..] && b == [b[0]] + b[1..];
      }
    }
  }

  lemma {:induction false} LexLessTransitive(a: string, b: string, c: string)
    requires LexLess(a, b) && LexLess(b, c)
    ensures LexLess(a, c)
  {
    if a != [] && a[0] == b[0] && b[0] == c[0] {
      LexLessTransitive(a[1..], b[1..], c[1..]);
    }
  }

  /**
   * A numeric input's `e.target.value === "" ? null : Number(e.target.value)`.
   * `parse` stands for `Number`, whose float and NaN results are not modelled.
   */
  function NumberOrNull(raw: string, parse: string -> int): (r: Nullable<int>)
    ensures r == Null <==> raw == ""
    ensures r.NonNull? ==> r.value == parse(raw)
  {
    if raw == "" then Null else NonNull(parse(raw))
  }
}
