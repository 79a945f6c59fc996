/**
 * The profile record the classifiers and the scan read, its defaulted counts,
 * the follower ratio `followers / Math.max(1, follows)` and its
 * `toFixed(3)` rendering.
 */
module Profiles {
  import opened Common
  import opened Text

  /** A fetched profile. Every field may be missing; counts are non-negative when present. */
  datatype Profile = Profile(
    did: Option<string>,
    handle: Option<string>,
    displayName: Option<string>,
    description: Option<string>,
    followsCount: Option<nat>,
    followersCount: Option<nat>,
    postsCount: Option<nat>)

  /** `Number(user?.followsCount ?? 0)` and its two siblings. */
  function Follows(p: Profile): nat { p.followsCount.GetOr(0) }
  function Followers(p: Profile): nat { p.followersCount.GetOr(0) }
  function Posts(p: Profile): nat { p.postsCount.GetOr(0) }

  /** `Math.max(1, follows)`: the divisor of the ratio, never zero. */
  function Divisor(follows: nat): (d: nat)
    ensures d >= 1 && d >= follows
    ensures follows >= 1 ==> d == follows
  {
    if follows < 1 then 1 else follows
  }

  /** `followers / Math.max(1, follows)`, as an exact rational. */
  function Ratio(followers: nat, follows: nat): (r: real)
    ensures r >= 0.0
    ensures r * Divisor(follows) as real == followers as real
  {
    followers as real / Divisor(follows) as real
  }

  function ProfileRatio(p: Profile): real {
    Ratio(Followers(p), Follows(p))
  }

  lemma ScaleLess(a: real, b: real, k: real)
    requires k > 0.0
    ensures a < b <==> a * k < b * k
  {
    if a < b {
      assert (b - a) * k > 0.0;
    } else {
      assert (a - b) * k >= 0.0;
    }
  }

  /**
   * A ratio threshold `num / den` can be tested without dividing:
   * `followers / max(1, follows) < num / den` exactly when
   * `followers * den < num * max(1, follows)`.
   */
  lemma RatioBelowIff(followers: nat, follows: nat, num: nat, den: nat)
    requires den > 0
    ensures Ratio(followers, follows) < num as real / den as real
        <==> followers * den < num * Divisor(follows)
  {
    var f, d, n, m := followers as real, Divisor(follows) as real, num as real, den as real;
    var r, q := Ratio(followers, follows), n / m;
    assert q * m == n;
    ScaleLess(r, q, d * m);
    Regroup(r, d, m, f);
    Regroup(q, m, d, n);
    CastProduct(followers, den);
    CastProduct(num, Divisor(follows));
  }

  lemma Regroup(a: real, b: real, c: real, ab: real)
    requires a * b == ab
    ensures a * (b * c) == ab * c && a * (c * b) == ab * c
  {
  }

  lemma CastProduct(x: nat, y: nat)
    ensures (x * y) as real == x as real * y as real
  {
  }

  /** `Math.round`-style rounding of `1000 * ratio`, halves rounded up. */
  function RoundedThousandths(followers: nat, follows: nat): (n: nat)
    ensures 2 * Divisor(follows) * n <= 2000 * followers + Divisor(follows)
    ensures 2000 * followers + Divisor(follows) < 2 * Divisor(follows) * (n + 1)
  {
    var d := Divisor(follows);
    var x := 2000 * followers + d;
    var n := x / (2 * d);
    assert x == 2 * d * n + x % (2 * d);
    n
  }

  /** The three digits of `k`, zero-padded. */
  function Pad3(k: nat): (r: string)
    requires k < 1000
    ensures |r| == 3 && forall i :: 0 <= i < 3 ==> IsDigit(r[i])
  {
    [DigitChar(k / 100), DigitChar(k / 10 % 10), DigitChar(k % 10)]
  }

  /**
   * `(followers / Math.max(1, follows)).toFixed(3)`: whole part, a point and
   * exactly three decimals, which never need quoting in a CSV cell.
   */
  function FixedRatio(followers: nat, follows: nat): (r: string)
    ensures |r| >= 5 && r[|r| - 4] == '.'
    ensures forall i :: 0 <= i < |r| && i != |r| - 4 ==> IsDigit(r[i])
  {
    var n := RoundedThousandths(followers, follows);
    NatToString(n / 1000) + "." + Pad3(n % 1000)
  }

  function ProfileFixedRatio(p: Profile): string {
    FixedRatio(Followers(p), Follows(p))
  }
}
