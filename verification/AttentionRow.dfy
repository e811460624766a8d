/**
 * Scaled dot-product attention of one query row over a list of key and value
 * rows, with the masked scores at minus infinity and the softmax computed by
 * subtracting the row maximum (src/attention.rs, src/moe.rs).  The exponential
 * is any positive function.
 */
module AttentionRow {
  import opened Moments
  import opened KvRows

  datatype Score = NegInf | Fin(x: real)

  ghost predicate Positive(exp: real -> real) {
    forall x :: exp(x) > 0.0
  }

  ghost predicate Wide(rows: seq<Row>, d: nat) {
    forall t :: 0 <= t < |rows| ==> |rows[t]| == d
  }

  function Scaled(q: Row, key: Row, scale: real): real
    requires |key| == |q|
  {
    Dot(q, key) * scale
  }

  /** The scaled scores, those from position `seen` on masked out. */
  function Scores(q: Row, keys: seq<Row>, seen: nat, scale: real): (s: seq<Score>)
    requires Wide(keys, |q|)
    ensures |s| == |keys|
  {
    seq(|keys|, t requires 0 <= t < |keys| => if t < seen then Fin(Scaled(q, keys[t], scale)) else NegInf)
  }

  lemma ScoresPrefix(q: Row, keys: seq<Row>, n: nat, seen: nat, scale: real)
    requires Wide(keys, |q|) && n <= |keys|
    ensures Scores(q, keys, seen, scale)[..n] == Scores(q, keys[..n], seen, scale)
  {
    forall t | 0 <= t < n
      ensures Scores(q, keys, seen, scale)[t] == Scores(q, keys[..n], seen, scale)[t]
    {
      assert keys[..n][t] == keys[t];
    }
  }

  function Greater(a: Score, b: Score): Score {
    if a.NegInf? then b else if b.NegInf? then a else if a.x < b.x then b else a
  }

  function Top(s: seq<Score>): Score {
    if s == [] then NegInf else Greater(Top(s[..|s| - 1]), s[|s| - 1])
  }

  function Weight(s: Score, top: Score, exp: real -> real): real {
    if s.NegInf? || top.NegInf? then 0.0 else exp(s.x - top.x)
  }

  function Total(s: seq<Score>, top: Score, exp: real -> real): real {
    if s == [] then 0.0 else Total(s[..|s| - 1], top, exp) + Weight(s[|s| - 1], top, exp)
  }

  /** The probability-weighted sum of one column of the value rows. */
  function Blend(s: seq<Score>, top: Score, total: real, exp: real -> real, values: seq<Row>, c: nat): real
    requires |s| == |values| && total != 0.0
    requires forall t :: 0 <= t < |values| ==> c < |values[t]|
  {
    if s == [] then 0.0
    else
      var n := |s| - 1;
      Blend(s[..n], top, total, exp, values[..n], c) + Weight(s[n], top, exp) / total * values[n][c]
  }

  lemma {:induction false} TotalPositive(s: seq<Score>, top: Score, exp: real -> real)
    requires Positive(exp) && top.Fin?
    ensures Total(s, top, exp) >= 0.0
    ensures (exists t :: 0 <= t < |s| && s[t].Fin?) ==> Total(s, top, exp) > 0.0
  {
    if s != [] {
      var n := |s| - 1;
      TotalPositive(s[..n], top, exp);
      if s[n].NegInf? && (exists t :: 0 <= t < |s| && s[t].Fin?) {
        var t :| 0 <= t < |s| && s[t].Fin?;
        assert s[..n][t].Fin?;
      }
    }
  }

  lemma {:induction false} TopFinite(s: seq<Score>)
    ensures (exists t :: 0 <= t < |s| && s[t].Fin?) ==> Top(s).Fin?
  {
    if s != [] {
      var n := |s| - 1;
      TopFinite(s[..n]);
      if s[n].NegInf? && (exists t :: 0 <= t < |s| && s[t].Fin?) {
        var t :| 0 <= t < |s| && s[t].Fin?;
        assert s[..n][t].Fin?;
      }
    }
  }

  /** A row that sees at least one position has a positive normaliser. */
  lemma Normal(q: Row, keys: seq<Row>, seen: nat, scale: real, exp: real -> real)
    requires Wide(keys, |q|) && 0 < seen && keys != [] && Positive(exp)
    ensures var s := Scores(q, keys, seen, scale); Total(s, Top(s), exp) > 0.0
  {
    var s := Scores(q, keys, seen, scale);
    assert s[0].Fin?;
    TopFinite(s);
    TotalPositive(s, Top(s), exp);
  }

  /** Column c of the attention of q over the rows, the first `seen` of them visible. */
  function Context(q: Row, keys: seq<Row>, values: seq<Row>, seen: nat, scale: real, exp: real -> real, c: nat): real
    requires Wide(keys, |q|) && |keys| == |values| && 0 < seen && keys != [] && Positive(exp)
    requires forall t :: 0 <= t < |values| ==> c < |values[t]|
  {
    Normal(q, keys, seen, scale, exp);
    var s := Scores(q, keys, seen, scale);
    Blend(s, Top(s), Total(s, Top(s), exp), exp, values, c)
  }

  /** Masked positions do not matter, however many follow. */
  lemma {:induction false} OnlySeenMatters(q: Row, keys: seq<Row>, values: seq<Row>, seen: nat, scale: real,
                                           exp: real -> real, c: nat)
    requires Wide(keys, |q|) && |keys| == |values| && 0 < seen <= |keys| && Positive(exp)
    requires forall t :: 0 <= t < |values| ==> c < |values[t]|
    ensures Context(q, keys, values, seen, scale, exp, c)
         == Context(q, keys[..seen], values[..seen], seen, scale, exp, c)
    decreases |keys|
  {
    if seen == |keys| {
      assert keys[..seen] == keys && values[..seen] == values;
    } else {
      var n := |keys| - 1;
      var s := Scores(q, keys, seen, scale);
      ScoresPrefix(q, keys, n, seen, scale);
      assert s[n] == NegInf;
      OnlySeenMatters(q, keys[..n], values[..n], seen, scale, exp, c);
      assert keys[..n][..seen] == keys[..seen] && values[..n][..seen] == values[..seen];
      Normal(q, keys, seen, scale, exp);
    }
  }

  /** Two lists that agree on the visible rows give one context. */
  lemma SameContext(q: Row, k1: seq<Row>, v1: seq<Row>, k2: seq<Row>, v2: seq<Row>, seen: nat, scale: real,
                    exp: real -> real, c: nat)
    requires Wide(k1, |q|) && |k1| == |v1| && Wide(k2, |q|) && |k2| == |v2| && Positive(exp)
    requires 0 < seen <= |k1| && seen <= |k2| && k1[..seen] == k2[..seen] && v1[..seen] == v2[..seen]
    requires forall t :: 0 <= t < |v1| ==> c < |v1[t]|
    requires forall t :: 0 <= t < |v2| ==> c < |v2[t]|
    ensures Context(q, k1, v1, seen, scale, exp, c) == Context(q, k2, v2, seen, scale, exp, c)
  {
    OnlySeenMatters(q, k1, v1, seen, scale, exp, c);
    OnlySeenMatters(q, k2, v2, seen, scale, exp, c);
  }

  // ---- What the context is, over plain sums ----

  function Column(values: seq<Row>, c: nat): (r: seq<real>)
    requires forall t :: 0 <= t < |values| ==> c < |values[t]|
    ensures |r| == |values|
  {
    seq(|values|, t requires 0 <= t < |values| => values[t][c])
  }

  /** The share `p` of the total that the exponential of a score less the greatest has. */
  ghost predicate IsShare(p: real, s: Score, exp: real -> real, top: real, total: real) {
    match s
    case NegInf => p == 0.0
    case Fin(x) => x <= top && p > 0.0 && p * total == exp(x - top)
  }

  /** The scaled inner products with the visible keys, the others masked. */
  ghost predicate AreScores(s: seq<Score>, q: Row, keys: seq<Row>, seen: nat, scale: real)
    requires Wide(keys, |q|)
  {
    |s| == |keys| && forall t :: 0 <= t < |s| ==> s[t] == if t < seen then Fin(Dot(q, keys[t]) * scale) else NegInf
  }

  /** The softmax of a row of scores: probabilities in proportion, and nothing on a masked position. */
  ghost predicate IsSoftmax(p: seq<real>, s: seq<Score>, exp: real -> real, top: real, total: real) {
    && |p| == |s| && Sum(p) == 1.0 && Fin(top) in s
    && forall t :: 0 <= t < |s| ==> IsShare(p[t], s[t], exp, top, total)
  }

  function Weights(s: seq<Score>, top: Score, total: real, exp: real -> real): (p: seq<real>)
    requires total != 0.0
    ensures |p| == |s|
  {
    seq(|s|, t requires 0 <= t < |s| => Weight(s[t], top, exp) / total)
  }

  lemma {:induction false} BlendIsDot(s: seq<Score>, top: Score, total: real, exp: real -> real, values: seq<Row>,
                                      c: nat)
    requires |s| == |values| && total != 0.0
    requires forall t :: 0 <= t < |values| ==> c < |values[t]|
    ensures Blend(s, top, total, exp, values, c) == Dot(Weights(s, top, total, exp), Column(values, c))
  {
    if s != [] {
      var n := |s| - 1;
      BlendIsDot(s[..n], top, total, exp, values[..n], c);
      assert Weights(s, top, total, exp)[..n] == Weights(s[..n], top, total, exp);
      assert Column(values, c)[..n] == Column(values[..n], c);
    }
  }

  ghost predicate Splits(p: real, total: real, w: real) {
    p * total == w
  }

  /** Shares of a total add up to the share of the sum; the sums are named. */
  lemma {:induction false} SharesSum(s: seq<Score>, top: Score, total: real, exp: real -> real, p: seq<real>,
                                     sum: real, all: real)
    requires |p| == |s| && forall t :: 0 <= t < |s| ==> Splits(p[t], total, Weight(s[t], top, exp))
    requires sum == Sum(p) && all == Total(s, top, exp)
    ensures sum * total == all
  {
    if s != [] {
      var n := |s| - 1;
      SharesSum(s[..n], top, total, exp, p[..n], Sum(p[..n]), Total(s[..n], top, exp));
      Distribute(total, Sum(p[..n]), p[n], sum);
    }
  }

  lemma Distribute(a: real, b: real, c: real, n: real)
    requires n == b + c
    ensures n * a == b * a + c * a
  {
  }

  lemma {:induction false} TopIsGreatest(s: seq<Score>)
    ensures Top(s).NegInf? ==> forall t :: 0 <= t < |s| ==> s[t].NegInf?
    ensures Top(s).Fin? ==> forall t :: 0 <= t < |s| && s[t].Fin? ==> s[t].x <= Top(s).x
    ensures Top(s).Fin? ==> exists t :: 0 <= t < |s| && s[t] == Top(s)
  {
    if s != [] {
      var n := |s| - 1;
      TopIsGreatest(s[..n]);
      if Top(s[..n]).Fin? {
        var t :| 0 <= t < n && s[..n][t] == Top(s[..n]);
        assert s[t] == Top(s[..n]);
      }
      assert forall t :: 0 <= t < n ==> s[t] == s[..n][t];
    }
  }

  lemma ShareIsOne(p: real, total: real)
    requires p * total == total && total > 0.0
    ensures p == 1.0
  {
  }

  lemma WeightIsShare(p: real, s: Score, exp: real -> real, top: real, total: real)
    requires Positive(exp) && total > 0.0 && Splits(p, total, Weight(s, Fin(top), exp))
    requires s.Fin? ==> s.x <= top
    ensures IsShare(p, s, exp, top, total)
  {
  }

  lemma SharesAreSoftmax(p: seq<real>, s: seq<Score>, exp: real -> real, top: real, total: real)
    requires Positive(exp) && Top(s) == Fin(top) && total == Total(s, Fin(top), exp) && total > 0.0
    requires |p| == |s| && forall t :: 0 <= t < |s| ==> Splits(p[t], total, Weight(s[t], Fin(top), exp))
    ensures IsSoftmax(p, s, exp, top, total)
  {
    TopIsGreatest(s);
    SharesSum(s, Fin(top), total, exp, p, Sum(p), total);
    ShareIsOne(Sum(p), total);
    forall t | 0 <= t < |s| ensures IsShare(p[t], s[t], exp, top, total) {
      WeightIsShare(p[t], s[t], exp, top, total);
    }
  }

  lemma Divided(w: real, total: real)
    requires total > 0.0
    ensures Splits(w / total, total, w)
  {
  }

  lemma BlendIsAverage(s: seq<Score>, exp: real -> real, values: seq<Row>, c: nat, top: real, total: real)
    returns (p: seq<real>)
    requires |s| == |values| && forall t :: 0 <= t < |values| ==> c < |values[t]|
    requires Positive(exp) && Top(s) == Fin(top) && total == Total(s, Fin(top), exp) && total > 0.0
    ensures IsSoftmax(p, s, exp, top, total)
    ensures Blend(s, Fin(top), total, exp, values, c) == Dot(p, Column(values, c))
  {
    p := Weights(s, Fin(top), total, exp);
    forall t | 0 <= t < |s| ensures Splits(p[t], total, Weight(s[t], Fin(top), exp)) {
      Divided(Weight(s[t], Fin(top), exp), total);
    }
    SharesAreSoftmax(p, s, exp, top, total);
    BlendIsDot(s, Fin(top), total, exp, values, c);
  }

  lemma ScoresAre(q: Row, keys: seq<Row>, seen: nat, scale: real)
    requires Wide(keys, |q|)
    ensures AreScores(Scores(q, keys, seen, scale), q, keys, seen, scale)
    ensures keys != [] && 0 < seen ==> Scores(q, keys, seen, scale)[0].Fin?
  {
  }

  /** The context is the average of the values under the softmax of the scaled, masked inner products. */
  lemma ContextIsAverage(q: Row, keys: seq<Row>, values: seq<Row>, seen: nat, scale: real, exp: real -> real, c: nat)
    returns (s: seq<Score>, p: seq<real>, top: real, total: real)
    requires Wide(keys, |q|) && |keys| == |values| && 0 < seen && keys != [] && Positive(exp)
    requires forall t :: 0 <= t < |values| ==> c < |values[t]|
    ensures AreScores(s, q, keys, seen, scale)
    ensures IsSoftmax(p, s, exp, top, total)
    ensures Context(q, keys, values, seen, scale, exp, c) == Dot(p, Column(values, c))
  {
    Normal(q, keys, seen, scale, exp);
    s := Scores(q, keys, seen, scale);
    ScoresAre(q, keys, seen, scale);
    TopFinite(s);
    top, total := Top(s).x, Total(s, Top(s), exp);
    p := BlendIsAverage(s, exp, values, c, top, total);
  }

  lemma {:induction false} AverageBetween(p: seq<real>, x: seq<real>, lo: real, hi: real, n: real, d: real)
    requires |p| == |x| && n == Sum(p) && d == Dot(p, x)
    requires forall t :: 0 <= t < |p| ==> p[t] >= 0.0 && (p[t] > 0.0 ==> lo <= x[t] <= hi)
    ensures lo * n <= d <= hi * n
  {
    if p != [] {
      var k := |p| - 1;
      var m, e := Sum(p[..k]), Dot(p[..k], x[..k]);
      AverageBetween(p[..k], x[..k], lo, hi, m, e);
      AverageStep(p[k], x[k], lo, hi, m, e, n, d);
    }
  }

  lemma AverageStep(p: real, x: real, lo: real, hi: real, m: real, e: real, n: real, d: real)
    requires p >= 0.0 && (p > 0.0 ==> lo <= x <= hi)
    requires lo * m <= e <= hi * m && n == m + p && d == e + p * x
    ensures lo * n <= d <= hi * n
  {
    assert lo * p <= p * x <= hi * p;
    assert lo * n == lo * m + lo * p;
    assert hi * n == hi * m + hi * p;
  }

  /** The context lies between the least and the greatest visible value. */
  lemma ContextBetween(q: Row, keys: seq<Row>, values: seq<Row>, seen: nat, scale: real, exp: real -> real, c: nat,
                       lo: real, hi: real)
    requires Wide(keys, |q|) && |keys| == |values| && 0 < seen && keys != [] && Positive(exp)
    requires forall t :: 0 <= t < |values| ==> c < |values[t]|
    requires forall t :: 0 <= t < |values| && t < seen ==> lo <= values[t][c] <= hi
    ensures lo <= Context(q, keys, values, seen, scale, exp, c) <= hi
  {
    var s, p, _, _ := ContextIsAverage(q, keys, values, seen, scale, exp, c);
    AverageBetween(p, Column(values, c), lo, hi, 1.0, Dot(p, Column(values, c)));
  }
}
