/** The `Shorten` component of the first web app (src/ui/components/Shorten.tsx):
    a long value (a key, a hash) is shown as its first and last seven
    characters around an ellipsis. */
module ShortenText {
  /** Values up to this length are shown whole. */
  const MAX_LENGTH: nat := 19

  /** How many characters are kept at each end of a long value. */
  const KEEP: nat := 7

  /** The text `Shorten({value})` renders. */
  function Shorten(value: string): (r: string)
    ensures |value| <= MAX_LENGTH ==> r == value
    ensures |value| > MAX_LENGTH ==>
              && |r| == 2 * KEEP + 3
              && r[..KEEP] == value[..KEEP]
              && r[KEEP..KEEP + 3] == "..."
              && r[KEEP + 3..] == value[|value| - KEEP..]
    ensures |r| <= MAX_LENGTH
  {
    var n := |value|;
    if n > MAX_LENGTH then value[0..KEEP] + "..." + value[n - KEEP..n] else value
  }

  /** Shortening what is already shortened changes nothing. */
  lemma ShortenIdempotent(value: string)
    ensures Shorten(Shorten(value)) == Shorten(value)
  {
  }

  /** Two long values are shown alike exactly when they agree on their
      first and last seven characters. */
  lemma ShortenCollides(a: string, b: string)
    requires |a| > MAX_LENGTH && |b| > MAX_LENGTH
    ensures Shorten(a) == Shorten(b) <==> a[..KEEP] == b[..KEEP] && a[|a| - KEEP..] == b[|b| - KEEP..]
  {
    var ra, rb := Shorten(a), Shorten(b);
    if a[..KEEP] == b[..KEEP] && a[|a| - KEEP..] == b[|b| - KEEP..] {
      assert ra == ra[..KEEP] + ra[KEEP..KEEP + 3] + ra[KEEP + 3..];
      assert rb == rb[..KEEP] + rb[KEEP..KEEP + 3] + rb[KEEP + 3..];
    }
  }
}
