/**
 * `tag_color` (lib.rs:67-85): the colour a recipe tag is painted with. Every
 * character contributes its code point times its position; the products
 * are added with `usize::wrapping_add` (a 64-bit `usize`, so everything is
 * taken mod 2^64), the sum is reduced mod 7 and picks one of seven
 * colours. A tag with no characters has no sum and gets colour 0.
 */
module Tags {
  import opened Options

  const WordSize: int := 0x1_0000_0000_0000_0000

  /** The seven colours, in the order of the `match` arms. */
  datatype Color = Red | Blue | Cyan | Yellow | Green | Magenta | White

  /** The arm of the `match` a colour comes from. */
  function ColorIndex(c: Color): (k: nat)
    ensures k < 7
  {
    match c
    case Red => 0
    case Blue => 1
    case Cyan => 2
    case Yellow => 3
    case Green => 4
    case Magenta => 5
    case White => 6
  }

  /** `match hash { 0 => Red, …, 6 => White }` over the values `h % 7` can take. */
  function ColorOf(k: nat): (c: Color)
    requires k < 7
    ensures ColorIndex(c) == k
  {
    if k == 0 then Red
    else if k == 1 then Blue
    else if k == 2 then Cyan
    else if k == 3 then Yellow
    else if k == 4 then Green
    else if k == 5 then Magenta
    else White
  }

  /** `c as usize * i` on a 64-bit `usize`. */
  function Term(c: char, i: nat): (t: nat)
    ensures t < WordSize
  {
    (c as int * i) % WordSize
  }

  /** `usize::wrapping_add`. */
  function WrappingAdd(a: nat, b: nat): (s: nat)
    ensures s < WordSize
  {
    (a + b) % WordSize
  }

  /** The `reduce(usize::wrapping_add)` over the terms of the first `n` characters; none for no characters. */
  function HashPrefix(tag: string, n: nat): (h: Option<nat>)
    requires n <= |tag|
    ensures h.Some? <==> n > 0
  {
    if n == 0 then None
    else if n == 1 then Some(Term(tag[0], 0))
    else Some(WrappingAdd(HashPrefix(tag, n - 1).value, Term(tag[n - 1], n - 1)))
  }

  /** The unbounded sum of code point times position over the first `n` characters. */
  function WeightedSum(tag: string, n: nat): nat
    requires n <= |tag|
  {
    if n == 0 then 0 else WeightedSum(tag, n - 1) + tag[n - 1] as int * (n - 1)
  }

  /** Wrapping at every step is wrapping once at the end: the reduce computes the weighted sum mod 2^64. */
  lemma {:induction false} HashPrefixIsSum(tag: string, n: nat)
    requires 0 < n <= |tag|
    ensures HashPrefix(tag, n) == Some(WeightedSum(tag, n) % WordSize)
  {
    if n > 1 {
      HashPrefixIsSum(tag, n - 1);
      var a := WeightedSum(tag, n - 1);
      var b := tag[n - 1] as int * (n - 1);
      ModAddBoth(a, b);
    }
  }

  /** Reducing the summands first does not change a sum mod 2^64. */
  lemma ModAddBoth(a: nat, b: nat)
    ensures (a % WordSize + b % WordSize) % WordSize == (a + b) % WordSize
  {
  }

  /** `tag_color(tag)`. */
  function TagColor(tag: string): (c: Color)
    ensures |tag| > 0 ==> ColorIndex(c) == WeightedSum(tag, |tag|) % WordSize % 7
    ensures |tag| == 0 ==> c == Red
  {
    match HashPrefix(tag, |tag|)
    case Some(h) => HashPrefixIsSum(tag, |tag|); ColorOf(h % 7)
    case None => Red
  }

  /**
   * A tag of at most one character is red: the only product is the first
   * character's, and its position is 0.
   */
  lemma ShortTagsRed(tag: string)
    requires |tag| <= 1
    ensures TagColor(tag) == Red
  {
    if |tag| == 1 {
      assert WeightedSum(tag, 1) == 0;
    }
  }

  /**
   * Only the characters after the first weigh in: changing the first
   * character of a tag never changes its colour.
   */
  lemma {:induction false} FirstCharIgnored(tag: string, c: char)
    requires |tag| > 0
    ensures TagColor(tag) == TagColor([c] + tag[1..])
  {
    var other := [c] + tag[1..];
    WeightedSumIgnoresFirst(tag, other, |tag|);
  }

  lemma {:induction false} WeightedSumIgnoresFirst(s: string, t: string, n: nat)
    requires n <= |s| == |t| && |s| > 0 && s[1..] == t[1..]
    ensures WeightedSum(s, n) == WeightedSum(t, n)
  {
    if n > 1 {
      WeightedSumIgnoresFirst(s, t, n - 1);
      assert s[n - 1] == s[1..][n - 2] == t[n - 1];
    }
  }
}
