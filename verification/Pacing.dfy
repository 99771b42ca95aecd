/** The predictive request and the Wilson bound it divides by, in exact arithmetic
    (src/smartdialer/pacing). */
module Pacing {

  /** The part of MetricsSnapshot the pacing formula reads. */
  datatype Load = Load(
    available: nat, connected: nat, ringing: nat, answerRateUb: real, avgSetup: real, avgTalk: real)

  function Clamp(rate: real): real {
    if (if rate <= 1.0 then rate else 1.0) <= 0.01 then 0.01 else if rate <= 1.0 then rate else 1.0
  }

  function Freeing(s: Load): real {
    if s.avgTalk > 0.0 then s.connected as real * (s.avgSetup / s.avgTalk) else 0.0
  }

  /** Agents idle now or expected idle by the time an answer arrives. */
  function Supply(s: Load): real { s.available as real + Freeing(s) }

  /** `PredictivePacing.decide`, for answer rate p. */
  function Request(s: Load, p: real): nat
    requires p > 0.0
  {
    var capacity := Supply(s) - s.ringing as real * p;
    var n := (capacity / p).Floor;
    if n >= 0 then n else 0
  }

  function Decide(s: Load): nat { Request(s, Clamp(s.answerRateUb)) }

  lemma FloorDivides(x: real, p: real, k: int)
    requires p > 0.0
    ensures k as real * p <= x <==> k <= (x / p).Floor
  {
    var q := x / p;
    assert q * p == x;
    if k <= q.Floor {
      assert k as real <= q;
      assert k as real * p <= q * p;
    } else {
      assert k as real > q;
      assert k as real * p > q * p;
    }
  }

  /** The request is the most calls whose expected answers, with those already ringing, the supply of
      agents covers: k more calls fit if and only if k does not exceed it. */
  lemma RequestIsTheLargestThatFits(s: Load, p: real, k: nat)
    requires p > 0.0 && 1 <= k
    ensures p * (s.ringing + k) as real <= Supply(s) <==> k <= Request(s, p)
  {
    var capacity := Supply(s) - s.ringing as real * p;
    FloorDivides(capacity, p, k);
    assert p * (s.ringing + k) as real == s.ringing as real * p + k as real * p;
  }

  /** The request over the snapshot's own numbers: with p the upper bound, held between 0.01 and 1, k more
      calls are asked for exactly if p of them and of those ringing are covered by the idle agents and
      the share of connected ones that setup takes of talk. */
  lemma RequestCoversItsAnswers(s: Load, k: nat, p: real, freeing: real)
    requires 1 <= k
    requires p == if s.answerRateUb < 0.01 then 0.01 else if s.answerRateUb > 1.0 then 1.0 else s.answerRateUb
    requires if s.avgTalk > 0.0 then freeing * s.avgTalk == s.connected as real * s.avgSetup else freeing == 0.0
    ensures p * (s.ringing + k) as real <= s.available as real + freeing <==> k <= Decide(s)
  {
    if s.avgTalk > 0.0 {
      var share := s.avgSetup / s.avgTalk;
      assert share * s.avgTalk == s.avgSetup;
      SameFactor(freeing, s.connected as real * share, s.avgTalk);
    }
    assert Freeing(s) == freeing;
    hide Freeing;
    RequestIsTheLargestThatFits(s, p, k);
  }

  lemma TimesOrders(x: real, y: real, d: real)
    requires d > 0.0 && x * d <= y * d
    ensures x <= y
  {
    if y < x {
      PositiveProduct(x - y, d, x * d - y * d);
    }
  }

  lemma SameFactor(x: real, y: real, d: real)
    requires d > 0.0 && x * d == y * d
    ensures x == y
  {
    TimesOrders(x, y, d);
    TimesOrders(y, x, d);
  }

  /** Assuming a higher answer rate never asks for more calls. */
  lemma RequestIsAntitone(s: Load, p: real, q: real)
    requires 0.0 < p <= q
    ensures Request(s, q) <= Request(s, p)
  {
    var n := Request(s, q);
    if 1 <= n {
      RequestIsTheLargestThatFits(s, q, n);
      assert p * (s.ringing + n) as real <= q * (s.ringing + n) as real;
      RequestIsTheLargestThatFits(s, p, n);
    }
  }

  // ---- the Wilson interval

  function WilsonDenominator(n: nat, z: real): real
    requires n > 0
  {
    1.0 + z * z / n as real
  }

  /** The quantity under the square root. */
  function WilsonSpread(phat: real, n: nat, z: real): real
    requires n > 0
  {
    phat * (1.0 - phat) / n as real + z * z / (4.0 * n as real * n as real)
  }

  /** `wilson_bounds`; `root` is the square root it takes. */
  function WilsonBounds(phat: real, n: nat, z: real, root: real): (real, real)
    requires n > 0 ==> root >= 0.0 && root * root == WilsonSpread(phat, n, z)
  {
    if n == 0 then (0.05, 1.0) else
    var centre := phat + z * z / (2.0 * n as real);
    var margin := z * root;
    var denom := WilsonDenominator(n, z);
    var lo := (centre - margin) / denom;
    var hi := (centre + margin) / denom;
    (if lo >= 0.01 then lo else 0.01, if hi <= 1.0 then hi else 1.0)
  }

  lemma Product(a: real, b: real)
    requires 0.0 <= a && 0.0 <= b
    ensures 0.0 <= a * b
  {
  }

  lemma PositiveProduct(a: real, b: real, c: real)
    requires 0.0 < a && 0.0 < b && c == a * b
    ensures 0.0 < c
  {
  }

  lemma QuotientIs(a: real, b: real, c: real)
    requires 0.0 < b && a == c * b
    ensures a / b == c
  {
  }

  lemma SquaresOrder(a: real, b: real)
    requires 0.0 <= a && 0.0 <= b && a * a <= b * b
    ensures a <= b
  {
    if b < a {
      assert (a - b) * (a + b) == a * a - b * b;
      PositiveProduct(a - b, a + b, a * a - b * b);
    }
  }

  /** The margin is at least half of z squared over n, whatever the sample. */
  lemma MarginIsWide(phat: real, n: nat, z: real, root: real)
    requires n > 0 && 0.0 <= z && 0.0 <= phat <= 1.0
    requires root >= 0.0 && root * root == WilsonSpread(phat, n, z)
    ensures z * root >= z * z / (2.0 * n as real)
  {
    var m := n as real;
    var half := z / (2.0 * m);
    var d := 4.0 * m * m;
    assert d == (2.0 * m) * (2.0 * m);
    SquareOfQuotient(z, 2.0 * m, half, d);
    Product(phat, 1.0 - phat);
    QuotientIsNatural(phat * (1.0 - phat), m);
    SquaresOrder(half, root);
    assert z * root >= z * half;
    assert z * half == z * z / (2.0 * m);
  }

  lemma SquareOfQuotient(z: real, k: real, h: real, d: real)
    requires 0.0 < k && h * k == z && d == k * k
    ensures 0.0 < d && h * h == z * z / d
  {
    PositiveProduct(k, k, d);
    assert z * z == h * h * d by { assert z * z == (h * k) * (h * k); }
    QuotientIs(z * z, d, h * h);
  }

  /** The upper bound is never below the observed rate. */
  lemma UpperBoundCoversThePoint(phat: real, n: nat, z: real, root: real)
    requires 0.0 <= z && 0.0 <= phat <= 1.0
    requires n > 0 ==> root >= 0.0 && root * root == WilsonSpread(phat, n, z)
    ensures phat <= WilsonBounds(phat, n, z, root).1 <= 1.0
  {
    if n > 0 {
      var m := n as real;
      MarginIsWide(phat, n, z, root);
      HalfQuotient(z * z, m);
      Product(z, z);
      QuotientIsNatural(z * z, m);
      var q := z * z / m;
      CoveredByTop(phat, q, z * root);
      DivisionOrders(phat, phat + q / 2.0 + z * root, 1.0 + q);
    }
  }

  lemma HalfQuotient(a: real, m: real)
    requires m > 0.0
    ensures a / (2.0 * m) == a / m / 2.0
  {
    var q := a / m;
    assert q * m == a;
    QuotientIs(a, 2.0 * m, q / 2.0);
  }

  lemma QuotientIsNatural(a: real, m: real)
    requires m > 0.0 && a >= 0.0
    ensures a / m >= 0.0
  {
  }

  lemma CoveredByTop(phat: real, q: real, margin: real)
    requires 0.0 <= phat <= 1.0 && 0.0 <= q && q / 2.0 <= margin
    ensures phat * (1.0 + q) <= phat + q / 2.0 + margin
  {
    Product(1.0 - phat, q);
    assert (1.0 - phat) * q == q - phat * q;
    assert phat * (1.0 + q) == phat + phat * q;
  }

  lemma DivisionOrders(a: real, b: real, d: real)
    requires d > 0.0 && a * d <= b
    ensures a <= b / d
  {
    var c := b / d;
    assert c * d == b;
    if c < a {
      assert c * d < a * d;
    }
  }

  /** A root of the quadratic that the interval inverts, for u = z squared over n. */
  lemma RootOfTheTest(phat: real, u: real, g: real, q: real)
    requires 0.0 <= u && g * g == u * (phat * (1.0 - phat)) + u * u / 4.0
    requires q * (1.0 + u) == phat + u / 2.0 + g
    ensures (phat - q) * (phat - q) == u * (q * (1.0 - q))
  {
    var c, a := phat + u / 2.0, q * (1.0 + u);
    assert a * (a - 2.0 * c) == (g + c) * (g - c) == g * g - c * c;
    assert c * c == phat * phat + phat * u + u * u / 4.0;
    assert u * (phat * (1.0 - phat)) == u * phat - u * (phat * phat);
    var rest := (phat - q) * (phat - q) - u * (q * (1.0 - q));
    assert rest == phat * phat - 2.0 * c * q + q * a by {
      assert (phat - q) * (phat - q) == phat * phat - 2.0 * phat * q + q * q;
      assert u * (q * (1.0 - q)) == u * q - u * q * q;
      assert q * a == q * q + u * q * q;
    }
    assert rest * (1.0 + u) == phat * phat * (1.0 + u) - 2.0 * c * a + a * a by {
      assert (q * a) * (1.0 + u) == a * a;
      assert (2.0 * c * q) * (1.0 + u) == 2.0 * c * a;
    }
    assert rest * (1.0 + u) == 0.0;
    if rest != 0.0 {
      NoZeroDivisor(rest, 1.0 + u);
    }
  }

  lemma NoZeroDivisor(x: real, d: real)
    requires x * d == 0.0 && d > 0.0
    ensures x == 0.0
  {
  }

  lemma MarginSquared(phat: real, n: nat, z: real, root: real, u: real)
    requires n > 0 && root * root == WilsonSpread(phat, n, z) && u * n as real == z * z
    ensures (z * root) * (z * root) == u * (phat * (1.0 - phat)) + u * u / 4.0
  {
    var m, v := n as real, phat * (1.0 - phat);
    var x, y := v / m, z * z / (4.0 * m * m);
    assert (z * root) * (z * root) == (z * z) * (root * root);
    assert (z * z) * x == u * v by { assert x * m == v; assert (u * m) * x == u * (m * x); }
    assert (z * z) * y == u * u / 4.0 by {
      assert y * (4.0 * m * m) == z * z;
      assert z * z == u * m && y * 4.0 * m * m == u * m;
      Cancelled(y * 4.0 * m, u, m);
      assert (z * z) * y == u * (m * y);
    }
  }

  lemma Cancelled(x: real, y: real, m: real)
    requires m > 0.0 && x * m == y * m
    ensures x == y
  {
    SameFactor(x, y, m);
  }

  /** q lies where the observed rate is z standard errors away. */
  predicate AtTheEdge(phat: real, n: nat, z: real, q: real) {
    n as real * ((phat - q) * (phat - q)) == z * z * (q * (1.0 - q))
  }

  lemma EdgeOfTheTest(phat: real, n: nat, z: real, u: real, g: real, q: real)
    requires n > 0 && u * n as real == z * z && 0.0 <= u
    requires g * g == u * (phat * (1.0 - phat)) + u * u / 4.0 && q * (1.0 + u) == phat + u / 2.0 + g
    ensures AtTheEdge(phat, n, z, q)
  {
    RootOfTheTest(phat, u, g, q);
    var d := (phat - q) * (phat - q);
    assert n as real * d == n as real * (u * (q * (1.0 - q)));
    assert n as real * (u * (q * (1.0 - q))) == (n as real * u) * (q * (1.0 - q));
  }

  /** The interval reaches from the one edge to the other; only the lower one is cut off, at 0.01. */
  lemma BoundsAreTheEdges(phat: real, n: nat, z: real, root: real) returns (q: real)
    requires n > 0 && 0.0 <= z && 0.0 <= phat <= 1.0
    requires root >= 0.0 && root * root == WilsonSpread(phat, n, z)
    ensures var (lo, hi) := WilsonBounds(phat, n, z, root);
      && phat <= hi && AtTheEdge(phat, n, z, hi)
      && q <= phat && AtTheEdge(phat, n, z, q) && lo == if q >= 0.01 then q else 0.01
  {
    hide WilsonBounds, WilsonSpread, AtTheEdge;
    var u, g := z * z / n as real, z * root;
    MarginOf(phat, n, z, root, u, g);
    var top, low := EdgesOf(phat, n, z, u, g);
    WilsonIs(phat, n, z, root, u, g, top, low);
    UpperBoundCoversThePoint(phat, n, z, root);
    q := low;
  }

  /** With no sample at all the answer rate is taken to be certain, and pacing asks for no more than one call
      per agent; the lower bound is one in twenty. */
  lemma NoSampleMeansCertainty(s: Load, phat: real, z: real, root: real, k: nat)
    requires 1 <= k && s.answerRateUb == WilsonBounds(phat, 0, z, root).1
    ensures (s.ringing + k) as real <= Supply(s) <==> k <= Decide(s)
    ensures WilsonBounds(phat, 0, z, root).0 * 20.0 == 1.0
  {
    hide Supply;
    RequestIsTheLargestThatFits(s, 1.0, k);
  }

  lemma MarginOf(phat: real, n: nat, z: real, root: real, u: real, g: real)
    requires n > 0 && 0.0 <= z && 0.0 <= phat <= 1.0 && u == z * z / n as real && g == z * root
    requires root >= 0.0 && root * root == WilsonSpread(phat, n, z)
    ensures u * n as real == z * z && 0.0 <= u && z * z / (2.0 * n as real) == u / 2.0 <= g
    ensures g * g == u * (phat * (1.0 - phat)) + u * u / 4.0
  {
    hide WilsonSpread;
    Product(z, z);
    QuotientTimes(z * z, n as real);
    QuotientIsNatural(z * z, n as real);
    HalfQuotient(z * z, n as real);
    MarginSquared(phat, n, z, root, u);
    MarginIsWide(phat, n, z, root);
  }

  lemma QuotientTimes(a: real, b: real)
    requires 0.0 < b
    ensures a / b * b == a
  {
  }

  lemma WilsonIs(phat: real, n: nat, z: real, root: real, u: real, g: real, top: real, low: real)
    requires n > 0 && root >= 0.0 && root * root == WilsonSpread(phat, n, z)
    requires u == z * z / n as real && g == z * root && z * z / (2.0 * n as real) == u / 2.0 && 0.0 <= u
    requires top == (phat + u / 2.0 + g) / (1.0 + u) && low == (phat + u / 2.0 - g) / (1.0 + u)
    ensures WilsonBounds(phat, n, z, root) == (if low >= 0.01 then low else 0.01, if top <= 1.0 then top else 1.0)
  {
    hide WilsonSpread;
  }

  lemma EdgesOf(phat: real, n: nat, z: real, u: real, g: real) returns (top: real, low: real)
    requires n > 0 && u * n as real == z * z && 0.0 <= u && 0.0 <= phat <= 1.0
    requires g * g == u * (phat * (1.0 - phat)) + u * u / 4.0 && u / 2.0 <= g
    ensures top == (phat + u / 2.0 + g) / (1.0 + u) && low == (phat + u / 2.0 - g) / (1.0 + u)
    ensures AtTheEdge(phat, n, z, top) && top <= 1.0 && AtTheEdge(phat, n, z, low) && low <= phat
  {
    hide AtTheEdge;
    top, low := (phat + u / 2.0 + g) / (1.0 + u), (phat + u / 2.0 - g) / (1.0 + u);
    QuotientTimes(phat + u / 2.0 + g, 1.0 + u);
    QuotientTimes(phat + u / 2.0 - g, 1.0 + u);
    EdgeOfTheTest(phat, n, z, u, g, top);
    assert (-g) * (-g) == g * g;
    EdgeOfTheTest(phat, n, z, u, -g, low);
    TopIsAtMostOne(phat, u, g, top);
    LowIsBelow(phat, u, g, low);
  }

  lemma MarginFitsAbove(phat: real, u: real, g: real)
    requires 0.0 <= phat <= 1.0 && 0.0 <= u && 0.0 <= g && g * g == u * (phat * (1.0 - phat)) + u * u / 4.0
    ensures g <= 1.0 - phat + u / 2.0
  {
    var h := 1.0 - phat + u / 2.0;
    assert h * h == (1.0 - phat) * (1.0 - phat) + u * (1.0 - phat) + u * u / 4.0;
    Product(1.0 - phat, 1.0 - phat);
    Product(u, (1.0 - phat) * (1.0 - phat));
    assert u * (phat * (1.0 - phat)) == u * (1.0 - phat) - u * ((1.0 - phat) * (1.0 - phat));
    SquaresOrder(g, h);
  }

  lemma TopIsAtMostOne(phat: real, u: real, g: real, top: real)
    requires 0.0 <= phat <= 1.0 && 0.0 <= u && 0.0 <= g
    requires g * g == u * (phat * (1.0 - phat)) + u * u / 4.0 && top * (1.0 + u) == phat + u / 2.0 + g
    ensures top <= 1.0
  {
    MarginFitsAbove(phat, u, g);
    AtMostOne(top, 1.0 + u, phat + u / 2.0 + g);
  }

  lemma AtMostOne(x: real, d: real, product: real)
    requires d > 0.0 && x * d == product <= d
    ensures x <= 1.0
  {
    TimesOrders(x, 1.0, d);
  }

  lemma LowIsBelow(phat: real, u: real, g: real, low: real)
    requires 0.0 <= phat && 0.0 <= u && u / 2.0 <= g && low * (1.0 + u) == phat + u / 2.0 - g
    ensures low <= phat
  {
    Product(phat, u);
    assert phat * (1.0 + u) == phat + phat * u;
    TimesOrders(low, phat, 1.0 + u);
  }

  /** Pacing on the upper bound never asks for more calls than pacing on the observed rate would. */
  lemma UpperBoundIsCautious(s: Load, phat: real, n: nat, z: real, root: real)
    requires 0.0 <= z && 0.0 <= phat <= 1.0
    requires n > 0 ==> root >= 0.0 && root * root == WilsonSpread(phat, n, z)
    requires s.answerRateUb == WilsonBounds(phat, n, z, root).1
    ensures Decide(s) <= Request(s, Clamp(phat))
  {
    UpperBoundCoversThePoint(phat, n, z, root);
    RequestIsAntitone(s, Clamp(phat), Clamp(s.answerRateUb));
  }
}
