/**
 * String helpers the renderer is built from: the left-folded join that
 * `reduce(|a, b| format!("{a}{sep}{b}"))` computes, Rust's `str::trim`,
 * right alignment (`{:>w}`), `str::split_inclusive(", ")` (the word
 * separator of the legend line) and a split on one character, which is the
 * inverse of a join and serves as its partner in the lemmas.
 */
module Strings {

  /** `parts` joined with `sep` between neighbours; the empty sequence joins to "". */
  function Join(sep: string, parts: seq<string>): string
  {
    if |parts| == 0 then ""
    else if |parts| == 1 then parts[0]
    else Join(sep, parts[..|parts| - 1]) + sep + parts[|parts| - 1]
  }

  /** Join unfolded at the front instead of at the back. */
  lemma {:induction false} JoinFront(sep: string, parts: seq<string>)
    requires |parts| >= 2
    ensures Join(sep, parts) == parts[0] + sep + Join(sep, parts[1..])
  {
    if |parts| == 2 {
      assert parts[1..] == [parts[1]];
    } else {
      var init := parts[..|parts| - 1];
      JoinFront(sep, init);
      assert init[1..] == parts[1..][..|parts[1..]| - 1];
      assert init[0] == parts[0];
    }
  }

  /**
   * One more part: the join of the first `k + 1` parts, and the join
   * written after a prefix `b` (the string it is being appended to).
   */
  lemma JoinStep(sep: string, parts: seq<string>, k: nat)
    requires k < |parts|
    ensures k == 0 ==> Join(sep, parts[..k + 1]) == parts[0]
    ensures k > 0 ==> Join(sep, parts[..k + 1]) == Join(sep, parts[..k]) + sep + parts[k]
    ensures forall b :: k > 0 ==> b + Join(sep, parts[..k]) + sep + parts[k] == b + Join(sep, parts[..k + 1])
  {
    assert parts[..k + 1][..k] == parts[..k];
  }

  /** Concatenation regrouped, for any kind of element. */
  lemma AppendAssoc<T>(a: seq<T>, b: seq<T>, c: seq<T>)
    ensures a + b + c == a + (b + c)
  {
  }

  /** Appending five pieces one at a time is appending their concatenation. */
  lemma AppendFive(b: string, a1: string, a2: string, a3: string, a4: string, a5: string)
    ensures b + a1 + a2 + a3 + a4 + a5 == b + Concat([a1, a2, a3, a4, a5])
  {
    assert Concat([a5]) == a5 by {
      assert [a5][1..] == [];
    }
    assert Concat([a4, a5]) == a4 + a5 by {
      assert [a4, a5][1..] == [a5];
    }
    assert Concat([a3, a4, a5]) == a3 + (a4 + a5) by {
      assert [a3, a4, a5][1..] == [a4, a5];
    }
    assert Concat([a2, a3, a4, a5]) == a2 + (a3 + (a4 + a5)) by {
      assert [a2, a3, a4, a5][1..] == [a3, a4, a5];
    }
    assert Concat([a1, a2, a3, a4, a5]) == a1 + (a2 + (a3 + (a4 + a5))) by {
      assert [a1, a2, a3, a4, a5][1..] == [a2, a3, a4, a5];
    }
    assert b + a1 + a2 == b + (a1 + a2);
    assert b + (a1 + a2) + a3 == b + (a1 + (a2 + a3));
    assert b + (a1 + (a2 + a3)) + a4 + a5 == b + (a1 + (a2 + (a3 + (a4 + a5))));
  }

  // ---------------------------------------------------------------------
  // Whitespace trimming (`str::trim`, Unicode White_Space)

  /** `char::is_whitespace`: the characters with the Unicode White_Space property. */
  predicate IsWhitespace(c: char)
  {
    ('\t' <= c <= '\r') || c == ' ' || c == '\U{0085}' || c == '\U{00A0}' || c == '\U{1680}'
    || ('\U{2000}' <= c <= '\U{200A}') || c == '\U{2028}' || c == '\U{2029}' || c == '\U{202F}'
    || c == '\U{205F}' || c == '\U{3000}'
  }

  predicate AllWhitespace(s: string)
  {
    forall i :: 0 <= i < |s| ==> IsWhitespace(s[i])
  }

  function TrimStart(s: string): string
  {
    if |s| > 0 && IsWhitespace(s[0]) then TrimStart(s[1..]) else s
  }

  function TrimEnd(s: string): string
  {
    if |s| > 0 && IsWhitespace(s[|s| - 1]) then TrimEnd(s[..|s| - 1]) else s
  }

  /** `TrimStart` drops a whitespace prefix and stops at the first other character. */
  lemma {:induction false} TrimStartShape(s: string)
    ensures var r := TrimStart(s);
      |r| <= |s| && r == s[|s| - |r|..] && AllWhitespace(s[..|s| - |r|])
      && (|r| > 0 ==> !IsWhitespace(r[0]))
  {
    if |s| > 0 && IsWhitespace(s[0]) {
      TrimStartShape(s[1..]);
      var r := TrimStart(s);
      assert s[..|s| - |r|] == [s[0]] + s[1..][..|s| - 1 - |r|];
    }
  }

  /** `TrimEnd` drops a whitespace suffix and stops at the last other character. */
  lemma {:induction false} TrimEndShape(s: string)
    ensures var r := TrimEnd(s);
      |r| <= |s| && r == s[..|r|] && AllWhitespace(s[|r|..])
      && (|r| > 0 ==> !IsWhitespace(r[|r| - 1]))
  {
    if |s| > 0 && IsWhitespace(s[|s| - 1]) {
      TrimEndShape(s[..|s| - 1]);
      var r := TrimEnd(s);
      assert s[|r|..] == s[..|s| - 1][|r|..] + [s[|s| - 1]];
    }
  }

  /** `str::trim`: `s` without its leading and trailing whitespace. */
  function Trim(s: string): string
  {
    TrimEnd(TrimStart(s))
  }

  /**
   * What trimming keeps: a contiguous slice of `s` that neither starts nor
   * ends with whitespace, with only whitespace cut off on either side.
   */
  lemma TrimSlice(s: string)
    ensures exists i, j ::
              0 <= i <= j <= |s| && Trim(s) == s[i..j] && AllWhitespace(s[..i]) && AllWhitespace(s[j..])
    ensures |Trim(s)| > 0 ==> !IsWhitespace(Trim(s)[0]) && !IsWhitespace(Trim(s)[|Trim(s)| - 1])
  {
    var t := TrimStart(s);
    TrimStartShape(s);
    TrimEndShape(t);
    var i := |s| - |t|;
    var j := i + |TrimEnd(t)|;
    assert Trim(s) == s[i..j];
    assert s[j..] == t[|TrimEnd(t)|..];
  }

  // ---------------------------------------------------------------------
  // Right alignment (`{:>width}`)

  function Spaces(n: nat): (r: string)
    ensures |r| == n && forall i :: 0 <= i < n ==> r[i] == ' '
  {
    if n == 0 then "" else Spaces(n - 1) + " "
  }

  /** `format!("{:>width$}", s)`: `s` right-aligned in a field of `width` characters. */
  function PadLeft(s: string, width: nat): (r: string)
    ensures |r| == if |s| < width then width else |s|
    ensures r[|r| - |s|..] == s
    ensures forall i :: 0 <= i < |r| - |s| ==> r[i] == ' '
  {
    if |s| < width then Spaces(width - |s|) + s else s
  }

  // ---------------------------------------------------------------------
  // `split_inclusive(", ")`

  /** A `", "` starts at position `j` of `s`. */
  predicate SepAt(s: string, j: int)
  {
    0 <= j && j + 1 < |s| && s[j] == ',' && s[j + 1] == ' '
  }

  predicate NoSep(s: string)
  {
    forall j :: 0 <= j < |s| ==> !SepAt(s, j)
  }

  /** The first position at or after `k` where a `", "` starts, or `|s|` when there is none. */
  function FirstSep(s: string, k: nat): (r: nat)
    requires k <= |s|
    decreases |s| - k
    ensures k <= r <= |s|
    ensures r < |s| ==> SepAt(s, r)
    ensures forall j :: k <= j < r ==> !SepAt(s, j)
  {
    if k + 1 >= |s| then |s|
    else if SepAt(s, k) then k
    else FirstSep(s, k + 1)
  }

  /**
   * `s.split_inclusive(", ")`: `s` cut right after every `", "`, each piece
   * keeping its separator; no empty piece is produced, so "" gives [].
   */
  function SplitInclusive(s: string): seq<string>
    decreases |s|
  {
    if |s| == 0 then []
    else
      var i := FirstSep(s, 0);
      if i < |s| then [s[..i + 2]] + SplitInclusive(s[i + 2..]) else [s]
  }

  function Concat(parts: seq<string>): string
  {
    if |parts| == 0 then "" else parts[0] + Concat(parts[1..])
  }

  /** Splitting loses nothing: the pieces put back together are the input. */
  lemma {:induction false} SplitInclusiveConcat(s: string)
    ensures Concat(SplitInclusive(s)) == s
    decreases |s|
  {
    if |s| > 0 {
      var i := FirstSep(s, 0);
      if i < |s| {
        SplitInclusiveConcat(s[i + 2..]);
        assert s == s[..i + 2] + s[i + 2..];
      }
    }
  }

  /**
   * The shape of the pieces: none is empty, none holds a `", "` except as
   * its last two characters, and every piece but the last ends with one.
   */
  lemma {:induction false} SplitInclusivePieces(s: string)
    ensures var p := SplitInclusive(s);
      forall k :: 0 <= k < |p| ==>
        |p[k]| > 0
        && (forall j :: 0 <= j < |p[k]| - 2 ==> !SepAt(p[k], j))
        && (k < |p| - 1 ==> SepAt(p[k], |p[k]| - 2))
    decreases |s|
  {
    if |s| > 0 {
      var i := FirstSep(s, 0);
      if i < |s| {
        var rest := s[i + 2..];
        SplitInclusivePieces(rest);
        var head := s[..i + 2];
        assert forall j :: 0 <= j < |head| - 2 ==> (SepAt(head, j) <==> SepAt(s, j));
        assert SepAt(head, |head| - 2);
        var p := SplitInclusive(s);
        assert p == [head] + SplitInclusive(rest);
        forall k | 0 < k < |p|
          ensures p[k] == SplitInclusive(rest)[k - 1]
        {
        }
      } else {
        assert forall j :: 0 <= j < |s| - 2 ==> !SepAt(s, j);
      }
    }
  }

  /** `parts` with `", "` put back after every part but the last. */
  function Terminated(parts: seq<string>): (r: seq<string>)
    ensures |r| == |parts|
  {
    if |parts| <= 1 then parts else [parts[0] + ", "] + Terminated(parts[1..])
  }

  /**
   * The reason for the legend's word separator: a `", "`-join of non-empty
   * parts that hold no `", "` themselves splits back into exactly those parts,
   * each still carrying its separator, so no break falls inside a part.
   */
  lemma {:induction false} SplitInclusiveJoin(parts: seq<string>)
    requires forall k :: 0 <= k < |parts| ==> |parts[k]| > 0 && NoSep(parts[k])
    ensures SplitInclusive(Join(", ", parts)) == Terminated(parts)
  {
    if |parts| == 1 {
      var s := parts[0];
      assert FirstSep(s, 0) == |s|;
    } else if |parts| >= 2 {
      JoinFront(", ", parts);
      var a := parts[0];
      var rest := Join(", ", parts[1..]);
      var s := a + ", " + rest;
      assert SepAt(s, |a|);
      forall j | 0 <= j < |a|
        ensures !SepAt(s, j)
      {
        if j < |a| - 1 {
          assert s[j] == a[j] && s[j + 1] == a[j + 1];
          assert !SepAt(a, j);
        } else {
          assert s[j + 1] == ',';
        }
      }
      assert FirstSep(s, 0) == |a|;
      assert s[..|a| + 2] == a + ", ";
      assert s[|a| + 2..] == rest;
      SplitInclusiveJoin(parts[1..]);
    }
  }

  // ---------------------------------------------------------------------
  // Splitting on one character, the inverse of a join

  /** The first position of `c` in `s`, or `|s|`. */
  function FirstOf(s: string, c: char): (r: nat)
    ensures r <= |s|
    ensures r < |s| ==> s[r] == c
    ensures forall j :: 0 <= j < r ==> s[j] != c
  {
    if |s| == 0 then 0 else if s[0] == c then 0 else FirstOf(s[1..], c) + 1
  }

  /** `s.split(c)`: always at least one field. */
  function SplitOn(s: string, c: char): (r: seq<string>)
    decreases |s|
    ensures |r| > 0
  {
    var i := FirstOf(s, c);
    if i < |s| then [s[..i]] + SplitOn(s[i + 1..], c) else [s]
  }

  /** Joining on `c` and splitting on `c` give back parts that hold no `c`. */
  lemma {:induction false} SplitOnJoin(parts: seq<string>, c: char)
    requires |parts| > 0
    requires forall k, j :: 0 <= k < |parts| && 0 <= j < |parts[k]| ==> parts[k][j] != c
    ensures SplitOn(Join([c], parts), c) == parts
  {
    if |parts| == 1 {
      assert FirstOf(parts[0], c) == |parts[0]|;
    } else {
      JoinFront([c], parts);
      var a := parts[0];
      var s := a + [c] + Join([c], parts[1..]);
      assert s[|a|] == c;
      assert forall j :: 0 <= j < |a| ==> s[j] == a[j] && a[j] != c;
      assert FirstOf(s, c) == |a|;
      assert s[..|a|] == a;
      assert s[|a| + 1..] == Join([c], parts[1..]);
      SplitOnJoin(parts[1..], c);
      assert [a] + parts[1..] == parts;
    }
  }
}
