/** The five-star scale both rating widgets draw (InteractiveStars.tsx:23-38,
    StarRating.tsx:22-38): star k is filled when k is at most the displayed
    level. */
module Stars {

  const StarCount: nat := 5

  /** A star button's value: the widgets render stars 1..5 only. */
  type Star = k: int | 1 <= k <= StarCount witness 1

  /** A level clamped to the scale 0..5. */
  function Clamp(level: int): nat {
    if level < 0 then 0 else if level > StarCount then StarCount else level
  }

  /** Which of the stars 1..5 are filled at `level`, star 1 first: as many
      filled stars as the level allows on the scale, then empty ones. */
  function LitRow(level: int): (r: seq<bool>)
    ensures r == seq(Clamp(level), _ => true) + seq(StarCount - Clamp(level), _ => false)
  {
    seq(StarCount, i => i + 1 <= level)
  }

  /** Star k is filled iff k is at most the level. */
  lemma LitStar(level: int, k: int)
    requires 1 <= k <= StarCount
    ensures LitRow(level)[k - 1] <==> k <= level
  {
    var c := Clamp(level);
    assert LitRow(level)[k - 1] == (k - 1 < c);
  }

  /** The number of filled stars in a row. */
  function LitCount(row: seq<bool>): (n: nat)
    ensures n <= |row|
  {
    if row == [] then 0 else (if row[0] then 1 else 0) + LitCount(row[1..])
  }

  /** The filled stars are always a prefix of the row: no gap. */
  lemma LitRowIsPrefix(level: int, i: int, j: int)
    requires 0 <= j <= i < StarCount
    ensures LitRow(level)[i] ==> LitRow(level)[j]
  {
    LitStar(level, i + 1);
    LitStar(level, j + 1);
  }

  /** The number of filled stars in `seq(n, _ => true)` is `n`, and in
      `seq(n, _ => false)` none. */
  lemma {:induction false} LitCountUniform(n: nat, b: bool)
    ensures LitCount(seq(n, _ => b)) == if b then n else 0
  {
    if n > 0 {
      assert seq(n, _ => b)[1..] == seq(n - 1, _ => b);
      LitCountUniform(n - 1, b);
    }
  }

  /** Counting filled stars distributes over concatenation. */
  lemma {:induction false} LitCountConcat(a: seq<bool>, b: seq<bool>)
    ensures LitCount(a + b) == LitCount(a) + LitCount(b)
  {
    if a == [] {
      assert a + b == b;
    } else {
      assert (a + b)[1..] == a[1..] + b;
      LitCountConcat(a[1..], b);
    }
  }

  /** Exactly `level` stars are filled, clamped to 0..5: no level fills none,
      a rating of k fills the first k. */
  lemma LitCountIsLevel(level: int)
    ensures LitCount(LitRow(level)) == if level < 0 then 0 else if level > StarCount then StarCount else level
  {
    var c := Clamp(level);
    LitCountConcat(seq(c, _ => true), seq(StarCount - c, _ => false));
    LitCountUniform(c, true);
    LitCountUniform(StarCount - c, false);
  }
}
