/**
 * Exercise-name canonicalisation: `String(s ?? "").trim().toLowerCase()`,
 * written twice in the store (`norm`, `normalizeExercise`), once in the
 * day radar (`norm`) and inline in the scoring loops. `trim` removes the
 * characters ECMAScript counts as white space or line terminators;
 * `toLowerCase` is modelled on ASCII letters only.
 */
module Text {

  /** ECMAScript WhiteSpace and LineTerminator code points, as removed by `String.prototype.trim`. */
  predicate IsSpace(c: char)
  {
    var n := c as int;
    n == 0x09 || n == 0x0A || n == 0x0B || n == 0x0C || n == 0x0D || n == 0x20
    || n == 0xA0 || n == 0x1680 || (0x2000 <= n <= 0x200A) || n == 0x2028 || n == 0x2029
    || n == 0x202F || n == 0x205F || n == 0x3000 || n == 0xFEFF
  }

  predicate IsUpper(c: char) { 'A' <= c <= 'Z' }

  function LowerChar(c: char): (d: char)
    ensures !IsUpper(d)
    ensures IsSpace(d) <==> IsSpace(c)
    ensures !IsUpper(c) ==> d == c
  {
    if IsUpper(c) then (c as int + 32) as char else c
  }

  /** Drops leading white space. */
  function TrimStart(s: string): string
  {
    if |s| > 0 && IsSpace(s[0]) then TrimStart(s[1..]) else s
  }

  /** Drops trailing white space. */
  function TrimEnd(s: string): string
  {
    if |s| > 0 && IsSpace(s[|s| - 1]) then TrimEnd(s[..|s| - 1]) else s
  }

  /** `s.trim()`. */
  function Trim(s: string): string
  {
    TrimEnd(TrimStart(s))
  }

  /** `s.toLowerCase()` on ASCII letters. */
  function Lower(s: string): string
  {
    if s == [] then [] else [LowerChar(s[0])] + Lower(s[1..])
  }

  /** The canonical exercise key: trimmed, then lower-cased. */
  function Norm(s: string): string
  {
    Lower(Trim(s))
  }

  /** `TrimStart` removes a prefix made of white space and stops at the first other character. */
  lemma {:induction false} TrimStartSpec(s: string)
    ensures var r := TrimStart(s);
      && |r| <= |s| && r == s[|s| - |r|..]
      && (r == [] || !IsSpace(r[0]))
      && (forall i :: 0 <= i < |s| - |r| ==> IsSpace(s[i]))
  {
    if |s| > 0 && IsSpace(s[0]) {
      TrimStartSpec(s[1..]);
    }
  }

  /** `TrimEnd` removes a suffix made of white space and stops at the last other character. */
  lemma {:induction false} TrimEndSpec(s: string)
    ensures var r := TrimEnd(s);
      && |r| <= |s| && r == s[..|r|]
      && (r == [] || !IsSpace(r[|r| - 1]))
      && (forall i :: |r| <= i < |s| ==> IsSpace(s[i]))
  {
    if |s| > 0 && IsSpace(s[|s| - 1]) {
      TrimEndSpec(s[..|s| - 1]);
    }
  }

  /** `r` is the slice `s[i..i + |r|]` and everything of `s` outside it is white space. */
  ghost predicate SliceWithSpaceAround(s: string, r: string, i: int)
  {
    && 0 <= i <= |s| - |r|
    && r == s[i..i + |r|]
    && (forall j :: 0 <= j < i ==> IsSpace(s[j]))
    && (forall j :: i + |r| <= j < |s| ==> IsSpace(s[j]))
  }

  /** `s.trim()` is the slice of `s` left after removing white space at both ends, and neither of its ends is white space. */
  lemma TrimSpec(s: string)
    ensures exists i :: SliceWithSpaceAround(s, Trim(s), i)
    ensures Trim(s) == [] || (!IsSpace(Trim(s)[0]) && !IsSpace(Trim(s)[|Trim(s)| - 1]))
  {
    var t := TrimStart(s);
    var r := TrimEnd(t);
    TrimStartSpec(s);
    TrimEndSpec(t);
    var i := |s| - |t|;
    assert r == Trim(s);
    assert SliceWithSpaceAround(s, r, i);
  }

  /** Lower-casing maps every character through `LowerChar` and keeps the length. */
  lemma {:induction false} LowerSpec(s: string)
    ensures |Lower(s)| == |s|
    ensures forall i :: 0 <= i < |s| ==> Lower(s)[i] == LowerChar(s[i])
  {
    if s != [] {
      LowerSpec(s[1..]);
    }
  }

  /** A string without white space at either end is its own trim. */
  lemma TrimOfTrimmed(s: string)
    requires s == [] || (!IsSpace(s[0]) && !IsSpace(s[|s| - 1]))
    ensures Trim(s) == s
  {
  }

  /** Lower-casing twice is lower-casing once. */
  lemma LowerIdempotent(s: string)
    ensures Lower(Lower(s)) == Lower(s)
  {
    LowerSpec(s);
    LowerSpec(Lower(s));
  }

  /** Canonicalising a canonical key gives it back, so a key stored by `setMuscleGoal` is found again. */
  lemma {:induction false} NormIdempotent(s: string)
    ensures Norm(Norm(s)) == Norm(s)
  {
    var t := Trim(s);
    var l := Lower(t);
    TrimSpec(s);
    LowerSpec(t);
    assert l == [] || (!IsSpace(l[0]) && !IsSpace(l[|l| - 1]));
    TrimOfTrimmed(l);
    LowerIdempotent(t);
  }

  /** The key is empty exactly when the name is white space only. */
  lemma NormEmpty(s: string)
    ensures Norm(s) == [] <==> forall i :: 0 <= i < |s| ==> IsSpace(s[i])
  {
    var r := Trim(s);
    TrimSpec(s);
    LowerSpec(r);
    if r == [] {
      var i :| SliceWithSpaceAround(s, r, i);
    } else {
      var i :| SliceWithSpaceAround(s, r, i);
      assert s[i] == r[0] && !IsSpace(s[i]);
    }
  }

  /** Trimming `" Bench Press "` drops exactly the two outer blanks. */
  lemma TrimBenchPress(padded: string)
    requires padded == " Bench Press "
    ensures Trim(padded) == "Bench Press"
  {
    assert padded[1..] == "Bench Press ";
    assert TrimStart(padded) == "Bench Press ";
    assert "Bench Press "[..11] == "Bench Press";
    assert TrimEnd("Bench Press ") == "Bench Press";
  }

  /** Lower-casing `"Bench Press"` gives `"bench press"`, which lower-casing leaves alone. */
  lemma LowerBenchPress(inner: string, lower: string)
    requires inner == "Bench Press" && lower == "bench press"
    ensures Lower(inner) == lower && Lower(lower) == lower
  {
    var l, l' := Lower(inner), Lower(lower);
    LowerSpec(inner);
    LowerSpec(lower);
    assert |l| == |lower| && |l'| == |lower|;
    forall i | 0 <= i < |lower| ensures l[i] == lower[i] && l'[i] == lower[i] {
      assert l[i] == LowerChar(inner[i]) && l'[i] == LowerChar(lower[i]);
    }
  }

  /** Case and surrounding white space do not matter: `" Bench Press "` and `"bench press"` give one key. */
  lemma BenchPressKey(padded: string, lower: string)
    requires padded == " Bench Press " && lower == "bench press"
    ensures Norm(padded) == lower && Norm(lower) == lower
  {
    TrimBenchPress(padded);
    LowerBenchPress("Bench Press", lower);
    TrimOfTrimmed(lower);
  }
}
