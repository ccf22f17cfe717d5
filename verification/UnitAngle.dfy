/** The sine and cosine of one by their power series, and their first 36 decimals. */
module UnitAngle {
  predicate Near(x: real, y: real, e: real) {
    -e <= x - y <= e
  }

  /** 1/m! */
  function Inverse(m: nat): real {
    if m == 0 then 1.0 else Inverse(m - 1) / (m as real)
  }

  /** The first `k` terms of 1 - 1/3! + 1/5! - ... */
  function SineSum(k: nat): real {
    if k == 0 then 0.0 else SineSum(k - 1) + if k % 2 == 1 then Inverse(2 * k - 1) else -Inverse(2 * k - 1)
  }

  /** The first `k` terms of 1 - 1/2! + 1/4! - ... */
  function CosineSum(k: nat): real {
    if k == 0 then 0.0 else CosineSum(k - 1) + if k % 2 == 1 then Inverse(2 * k - 2) else -Inverse(2 * k - 2)
  }

  /** The number between any two consecutive partial sums of the series. */
  ghost predicate IsSineOfOne(s: real) {
    forall k: nat :: SineWithin(s, k)
  }

  predicate SineWithin(s: real, k: nat) {
    SineSum(2 * k) <= s <= SineSum(2 * k + 1)
  }

  ghost predicate IsCosineOfOne(c: real) {
    forall k: nat :: CosineWithin(c, k)
  }

  predicate CosineWithin(c: real, k: nat) {
    CosineSum(2 * k) <= c <= CosineSum(2 * k + 1)
  }

  // Decimals of the reciprocals.

  function Decimal(m: nat): real
    requires m <= 36
  {
    if m < 8 then
      [
        1.00000000000000000000000000000000000000000000,
        1.00000000000000000000000000000000000000000000,
        0.50000000000000000000000000000000000000000000,
        0.16666666666666666666666666666666666666666667,
        0.04166666666666666666666666666666666666666667,
        0.00833333333333333333333333333333333333333333,
        0.00138888888888888888888888888888888888888889,
        0.00019841269841269841269841269841269841269841
      ][m]
    else if m < 16 then
      [
        0.00002480158730158730158730158730158730158730,
        0.00000275573192239858906525573192239858906526,
        0.00000027557319223985890652557319223985890653,
        0.00000002505210838544171877505210838544171878,
        0.00000000208767569878680989792100903212014323,
        0.00000000016059043836821614599392377170154948,
        0.00000000001147074559772972471385169797868211,
        0.00000000000076471637318198164759011319857881
      ][m - 8]
    else if m < 24 then
      [
        0.00000000000004779477332387385297438207491118,
        0.00000000000000281145725434552076319894558301,
        0.00000000000000015619206968586226462216364350,
        0.00000000000000000822063524662432971695598124,
        0.00000000000000000041103176233121648584779906,
        0.00000000000000000001957294106339126123084757,
        0.00000000000000000000088967913924505732867489,
        0.00000000000000000000003868170170630684037717
      ][m - 16]
    else if m < 32 then
      [
        0.00000000000000000000000161173757109611834905,
        0.00000000000000000000000006446950284384473396,
        0.00000000000000000000000000247959626322479746,
        0.00000000000000000000000000009183689863795546,
        0.00000000000000000000000000000327988923706984,
        0.00000000000000000000000000000011309962886448,
        0.00000000000000000000000000000000376998762882,
        0.00000000000000000000000000000000012161250416
      ][m - 24]
    else if m < 36 then
      [
        0.00000000000000000000000000000000000380039075,
        0.00000000000000000000000000000000000011516336,
        0.00000000000000000000000000000000000000338716,
        0.00000000000000000000000000000000000000009678
      ][m - 32]
    else 0.00000000000000000000000000000000000000000269
  }

  predicate Spaced(d: real, before: real, n: real) {
    Near(d * n, before, n * 0.000000000000000000000000000000000000000000005)
  }

  ghost predicate RowOk(m: nat)
    requires 1 <= m <= 36
  {
    Spaced(Decimal(m), Decimal(m - 1), m as real)
  }

  lemma Row(m: nat, n: real, before: real, d: real)
    requires 1 <= m <= 36 && n == m as real && Decimal(m - 1) == before && Decimal(m) == d
    requires Spaced(d, before, n)
    ensures RowOk(m)
  {
  }

  lemma RowsFrom1(m: nat)
    requires 1 <= m < 13
    ensures RowOk(m)
  {
    Row(1, 1.0, 1.00000000000000000000000000000000000000000000, 1.00000000000000000000000000000000000000000000);
    Row(2, 2.0, 1.00000000000000000000000000000000000000000000, 0.50000000000000000000000000000000000000000000);
    Row(3, 3.0, 0.50000000000000000000000000000000000000000000, 0.16666666666666666666666666666666666666666667);
    Row(4, 4.0, 0.16666666666666666666666666666666666666666667, 0.04166666666666666666666666666666666666666667);
    Row(5, 5.0, 0.04166666666666666666666666666666666666666667, 0.00833333333333333333333333333333333333333333);
    Row(6, 6.0, 0.00833333333333333333333333333333333333333333, 0.00138888888888888888888888888888888888888889);
    Row(7, 7.0, 0.00138888888888888888888888888888888888888889, 0.00019841269841269841269841269841269841269841);
    Row(8, 8.0, 0.00019841269841269841269841269841269841269841, 0.00002480158730158730158730158730158730158730);
    Row(9, 9.0, 0.00002480158730158730158730158730158730158730, 0.00000275573192239858906525573192239858906526);
    Row(10, 10.0, 0.00000275573192239858906525573192239858906526, 0.00000027557319223985890652557319223985890653);
    Row(11, 11.0, 0.00000027557319223985890652557319223985890653, 0.00000002505210838544171877505210838544171878);
    Row(12, 12.0, 0.00000002505210838544171877505210838544171878, 0.00000000208767569878680989792100903212014323);
  }

  lemma RowsFrom13(m: nat)
    requires 13 <= m < 25
    ensures RowOk(m)
  {
    Row(13, 13.0, 0.00000000208767569878680989792100903212014323, 0.00000000016059043836821614599392377170154948);
    Row(14, 14.0, 0.00000000016059043836821614599392377170154948, 0.00000000001147074559772972471385169797868211);
    Row(15, 15.0, 0.00000000001147074559772972471385169797868211, 0.00000000000076471637318198164759011319857881);
    Row(16, 16.0, 0.00000000000076471637318198164759011319857881, 0.00000000000004779477332387385297438207491118);
    Row(17, 17.0, 0.00000000000004779477332387385297438207491118, 0.00000000000000281145725434552076319894558301);
    Row(18, 18.0, 0.00000000000000281145725434552076319894558301, 0.00000000000000015619206968586226462216364350);
    Row(19, 19.0, 0.00000000000000015619206968586226462216364350, 0.00000000000000000822063524662432971695598124);
    Row(20, 20.0, 0.00000000000000000822063524662432971695598124, 0.00000000000000000041103176233121648584779906);
    Row(21, 21.0, 0.00000000000000000041103176233121648584779906, 0.00000000000000000001957294106339126123084757);
    Row(22, 22.0, 0.00000000000000000001957294106339126123084757, 0.00000000000000000000088967913924505732867489);
    Row(23, 23.0, 0.00000000000000000000088967913924505732867489, 0.00000000000000000000003868170170630684037717);
    Row(24, 24.0, 0.00000000000000000000003868170170630684037717, 0.00000000000000000000000161173757109611834905);
  }

  lemma RowsFrom25(m: nat)
    requires 25 <= m < 37
    ensures RowOk(m)
  {
    Row(25, 25.0, 0.00000000000000000000000161173757109611834905, 0.00000000000000000000000006446950284384473396);
    Row(26, 26.0, 0.00000000000000000000000006446950284384473396, 0.00000000000000000000000000247959626322479746);
    Row(27, 27.0, 0.00000000000000000000000000247959626322479746, 0.00000000000000000000000000009183689863795546);
    Row(28, 28.0, 0.00000000000000000000000000009183689863795546, 0.00000000000000000000000000000327988923706984);
    Row(29, 29.0, 0.00000000000000000000000000000327988923706984, 0.00000000000000000000000000000011309962886448);
    Row(30, 30.0, 0.00000000000000000000000000000011309962886448, 0.00000000000000000000000000000000376998762882);
    Row(31, 31.0, 0.00000000000000000000000000000000376998762882, 0.00000000000000000000000000000000012161250416);
    Row(32, 32.0, 0.00000000000000000000000000000000012161250416, 0.00000000000000000000000000000000000380039075);
    Row(33, 33.0, 0.00000000000000000000000000000000000380039075, 0.00000000000000000000000000000000000011516336);
    Row(34, 34.0, 0.00000000000000000000000000000000000011516336, 0.00000000000000000000000000000000000000338716);
    Row(35, 35.0, 0.00000000000000000000000000000000000000338716, 0.00000000000000000000000000000000000000009678);
    Row(36, 36.0, 0.00000000000000000000000000000000000000009678, 0.00000000000000000000000000000000000000000269);
  }

  lemma Rows(m: nat)
    requires 1 <= m <= 36
    ensures RowOk(m)
  {
    if m < 13 {
      RowsFrom1(m);
    } else if m < 25 {
      RowsFrom13(m);
    } else {
      RowsFrom25(m);
    }
  }

  lemma PositiveFactor(x: real, n: real)
    requires n > 0.0 && x * n >= 0.0
    ensures x >= 0.0
  {
  }

  lemma MulAtMost(n: real, a: real, b: real)
    requires n >= 0.0 && a <= b
    ensures n * a <= n * b
  {
  }

  lemma BothNear(x: real, y: real, z: real, e: real, h: real, q: real)
    requires Near(x, y, e) && Near(z, y, h) && e <= q && h <= q
    ensures Near(x, z, q + q)
  {
  }

  lemma SignsOf(v: real, t: real, n: real, e: real, u: real, tn: real, q: real)
    requires v * n == u && t * n == tn && q == n * (e / 2.0) && Near(u, tn, q + q)
    ensures (e - (v - t)) * n >= 0.0 && (e + (v - t)) * n >= 0.0
  {
    assert q + q == e * n;
    assert (e - (v - t)) * n == e * n - v * n + t * n;
    assert (e + (v - t)) * n == e * n + v * n - t * n;
  }

  lemma QuotientClose(v: real, u: real, t: real, d: real, n: real, e: real, h: real)
    requires n >= 2.0 && v * n == u && e >= 2.0 * h >= 0.0 && Near(u, d, e) && Near(t * n, d, n * h)
    ensures Near(v, t, e)
  {
    var q := n * (e / 2.0);
    MulAtMost(n, h, e / 2.0);
    MulAtMost(e / 2.0, 2.0, n);
    BothNear(u, d, t * n, e, n * h, q);
    SignsOf(v, t, n, e, u, t * n, q);
    PositiveFactor(e - (v - t), n);
    PositiveFactor(e + (v - t), n);
  }

  lemma InverseTimes(m: nat)
    requires m > 0
    ensures Inverse(m) * (m as real) == Inverse(m - 1)
  {
  }

  lemma InverseNext(m: nat, before: real, d: real)
    requires m >= 2 && Near(Inverse(m - 1), before, 0.00000000000000000000000000000000000000000001)
      && Spaced(d, before, m as real)
    ensures Near(Inverse(m), d, 0.00000000000000000000000000000000000000000001)
  {
    InverseTimes(m);
    QuotientClose(Inverse(m), Inverse(m - 1), d, before, m as real, 0.00000000000000000000000000000000000000000001,
                  0.000000000000000000000000000000000000000000005);
  }

  /** The decimals are those of the reciprocals. */
  lemma {:induction false} InverseClose(m: nat)
    requires m <= 36
    ensures Near(Inverse(m), Decimal(m), 0.00000000000000000000000000000000000000000001)
  {
    if m < 2 {
      FirstReciprocals();
    } else {
      InverseClose(m - 1);
      Rows(m);
      RowLeads(m);
    }
  }

  lemma RowLeads(m: nat)
    requires 2 <= m <= 36 && RowOk(m)
      && Near(Inverse(m - 1), Decimal(m - 1), 0.00000000000000000000000000000000000000000001)
    ensures Near(Inverse(m), Decimal(m), 0.00000000000000000000000000000000000000000001)
  {
    InverseNext(m, Decimal(m - 1), Decimal(m));
  }

  lemma FirstReciprocals()
    ensures Inverse(0) == 1.0 == Inverse(1) && Decimal(0) == 1.0 == Decimal(1)
  {
  }

  // Partial sums of the decimals.

  function SineDecimals(k: nat): real
    requires k <= 18
  {
    if k == 0 then 0.0
    else SineDecimals(k - 1) + if k % 2 == 1 then Decimal(2 * k - 1) else -Decimal(2 * k - 1)
  }

  lemma {:induction false} SineClose(k: nat)
    requires k <= 18
    ensures Near(SineSum(k), SineDecimals(k), (k as real) * 0.00000000000000000000000000000000000000000001)
  {
    if k > 0 {
      var n: nat := k - 1;
      SineClose(n);
      InverseClose(2 * k - 1);
    }
  }

  lemma SineNext(k: nat, before: real, d: real)
    requires 1 <= k <= 18 && SineDecimals(k - 1) == before && Decimal(2 * k - 1) == d
    ensures SineDecimals(k) == if k % 2 == 1 then before + d else before - d
  {
  }

  lemma SineTotal(k: nat)
    requires k == 17
    ensures SineDecimals(k + 1) == 0.84147098480789650665250232163029899962256297
      && SineDecimals(k) == 0.84147098480789650665250232163029899962265975
  {
    SineNext(1, 0.00000000000000000000000000000000000000000000, 1.00000000000000000000000000000000000000000000);
    SineNext(2, 1.00000000000000000000000000000000000000000000, 0.16666666666666666666666666666666666666666667);
    SineNext(3, 0.83333333333333333333333333333333333333333333, 0.00833333333333333333333333333333333333333333);
    SineNext(4, 0.84166666666666666666666666666666666666666666, 0.00019841269841269841269841269841269841269841);
    SineNext(5, 0.84146825396825396825396825396825396825396825, 0.00000275573192239858906525573192239858906526);
    SineNext(6, 0.84147100970017636684303350970017636684303351, 0.00000002505210838544171877505210838544171878);
    SineNext(7, 0.84147098464806798140131473464806798140131473, 0.00000000016059043836821614599392377170154948);
    SineNext(8, 0.84147098480865841976953088064199175310286421, 0.00000000000076471637318198164759011319857881);
    SineNext(9, 0.84147098480789370339634889899440163990428540, 0.00000000000000281145725434552076319894558301);
    SineNext(10, 0.84147098480789651485360324451516483884986841, 0.00000000000000000822063524662432971695598124);
    SineNext(11, 0.84147098480789650663296799789083512189388717, 0.00000000000000000001957294106339126123084757);
    SineNext(12, 0.84147098480789650665254093895422638312473474, 0.00000000000000000000003868170170630684037717);
    SineNext(13, 0.84147098480789650665250225725252007628435757, 0.00000000000000000000000006446950284384473396);
    SineNext(14, 0.84147098480789650665250232172202292012909153, 0.00000000000000000000000000009183689863795546);
    SineNext(15, 0.84147098480789650665250232163018602149113607, 0.00000000000000000000000000000011309962886448);
    SineNext(16, 0.84147098480789650665250232163029912112000055, 0.00000000000000000000000000000000012161250416);
    SineNext(17, 0.84147098480789650665250232163029899950749639, 0.00000000000000000000000000000000000011516336);
    SineNext(18, 0.84147098480789650665250232163029899962265975, 0.00000000000000000000000000000000000000009678);
  }

  function CosineDecimals(k: nat): real
    requires k <= 18
  {
    if k == 0 then 0.0
    else CosineDecimals(k - 1) + if k % 2 == 1 then Decimal(2 * k - 2) else -Decimal(2 * k - 2)
  }

  lemma {:induction false} CosineClose(k: nat)
    requires k <= 18
    ensures Near(CosineSum(k), CosineDecimals(k), (k as real) * 0.00000000000000000000000000000000000000000001)
  {
    if k > 0 {
      var n: nat := k - 1;
      CosineClose(n);
      InverseClose(2 * k - 2);
    }
  }

  lemma CosineNext(k: nat, before: real, d: real)
    requires 1 <= k <= 18 && CosineDecimals(k - 1) == before && Decimal(2 * k - 2) == d
    ensures CosineDecimals(k) == if k % 2 == 1 then before + d else before - d
  {
  }

  lemma CosineTotal(k: nat)
    requires k == 17
    ensures CosineDecimals(k + 1) == 0.54030230586813971740093660744297660373230772
      && CosineDecimals(k) == 0.54030230586813971740093660744297660373569488
  {
    CosineNext(1, 0.00000000000000000000000000000000000000000000, 1.00000000000000000000000000000000000000000000);
    CosineNext(2, 1.00000000000000000000000000000000000000000000, 0.50000000000000000000000000000000000000000000);
    CosineNext(3, 0.50000000000000000000000000000000000000000000, 0.04166666666666666666666666666666666666666667);
    CosineNext(4, 0.54166666666666666666666666666666666666666667, 0.00138888888888888888888888888888888888888889);
    CosineNext(5, 0.54027777777777777777777777777777777777777778, 0.00002480158730158730158730158730158730158730);
    CosineNext(6, 0.54030257936507936507936507936507936507936508, 0.00000027557319223985890652557319223985890653);
    CosineNext(7, 0.54030230379188712522045855379188712522045855, 0.00000000208767569878680989792100903212014323);
    CosineNext(8, 0.54030230587956282400726845171289615734060178, 0.00000000001147074559772972471385169797868211);
    CosineNext(9, 0.54030230586809207840953872699904445936191967, 0.00000000000004779477332387385297438207491118);
    CosineNext(10, 0.54030230586813987318286260085201884143683085, 0.00000000000000015619206968586226462216364350);
    CosineNext(11, 0.54030230586813971699079291498975421927318735, 0.00000000000000000041103176233121648584779906);
    CosineNext(12, 0.54030230586813971740182467732097070512098641, 0.00000000000000000000088967913924505732867489);
    CosineNext(13, 0.54030230586813971740093499818172564779231152, 0.00000000000000000000000161173757109611834905);
    CosineNext(14, 0.54030230586813971740093660991929674391066057, 0.00000000000000000000000000247959626322479746);
    CosineNext(15, 0.54030230586813971740093660743970048068586311, 0.00000000000000000000000000000327988923706984);
    CosineNext(16, 0.54030230586813971740093660744298036992293295, 0.00000000000000000000000000000000376998762882);
    CosineNext(17, 0.54030230586813971740093660744297659993530413, 0.00000000000000000000000000000000000380039075);
    CosineNext(18, 0.54030230586813971740093660744297660373569488, 0.00000000000000000000000000000000000000338716);
  }

  lemma Squeezed(x: real, low: real, high: real, l: real, h: real, e: real, d: real, r: real)
    requires low <= x <= high && Near(low, l, e) && Near(high, h, e)
    requires d - r <= l - e && h + e <= d + r
    ensures Near(x, d, r)
  {
  }

  lemma SineBetween(s: real, k: nat)
    requires IsSineOfOne(s) && k == 8
    ensures SineSum(2 * k + 2) <= s <= SineSum(2 * k + 1)
  {
    assert SineWithin(s, k) && SineWithin(s, k + 1);
    assert 2 * (k + 1) == 2 * k + 2;
  }

  lemma SineNear(k: nat, x: real)
    requires k <= 18 && SineDecimals(k) == x
    ensures Near(SineSum(k), x, 18.0 * 0.00000000000000000000000000000000000000000001)
  {
    SineClose(k);
  }

  lemma SineEnds(k: nat)
    requires k == 17
    ensures Near(SineSum(k), 0.84147098480789650665250232163029899962265975,
                 18.0 * 0.00000000000000000000000000000000000000000001)
    ensures Near(SineSum(k + 1), 0.84147098480789650665250232163029899962256297,
                 18.0 * 0.00000000000000000000000000000000000000000001)
  {
    SineTotal(k);
    SineNear(k, 0.84147098480789650665250232163029899962265975);
    SineNear(k + 1, 0.84147098480789650665250232163029899962256297);
  }

  lemma SineAt(s: real, k: nat)
    requires IsSineOfOne(s) && k == 8
    ensures Near(s, 0.841470984807896506652502321630299000, 0.000000000000000000000000000000000001)
  {
    SineEnds(2 * k + 1);
    SineBetween(s, k);
    Squeezed(s, SineSum(2 * k + 2), SineSum(2 * k + 1),
             0.84147098480789650665250232163029899962256297, 0.84147098480789650665250232163029899962265975,
             18.0 * 0.00000000000000000000000000000000000000000001,
             0.841470984807896506652502321630299000, 0.000000000000000000000000000000000001);
  }

  /** Sine of one, to 36 decimals. */
  lemma SineOfOne(s: real)
    requires IsSineOfOne(s)
    ensures Near(s, 0.841470984807896506652502321630299000, 0.000000000000000000000000000000000001)
  {
    SineAt(s, 8);
  }

  lemma CosineBetween(c: real, k: nat)
    requires IsCosineOfOne(c) && k == 8
    ensures CosineSum(2 * k + 2) <= c <= CosineSum(2 * k + 1)
  {
    assert CosineWithin(c, k) && CosineWithin(c, k + 1);
    assert 2 * (k + 1) == 2 * k + 2;
  }

  lemma CosineNear(k: nat, x: real)
    requires k <= 18 && CosineDecimals(k) == x
    ensures Near(CosineSum(k), x, 18.0 * 0.00000000000000000000000000000000000000000001)
  {
    CosineClose(k);
  }

  lemma CosineEnds(k: nat)
    requires k == 17
    ensures Near(CosineSum(k), 0.54030230586813971740093660744297660373569488,
                 18.0 * 0.00000000000000000000000000000000000000000001)
    ensures Near(CosineSum(k + 1), 0.54030230586813971740093660744297660373230772,
                 18.0 * 0.00000000000000000000000000000000000000000001)
  {
    CosineTotal(k);
    CosineNear(k, 0.54030230586813971740093660744297660373569488);
    CosineNear(k + 1, 0.54030230586813971740093660744297660373230772);
  }

  lemma CosineAt(c: real, k: nat)
    requires IsCosineOfOne(c) && k == 8
    ensures Near(c, 0.540302305868139717400936607442976604, 0.000000000000000000000000000000000001)
  {
    CosineEnds(2 * k + 1);
    CosineBetween(c, k);
    Squeezed(c, CosineSum(2 * k + 2), CosineSum(2 * k + 1),
             0.54030230586813971740093660744297660373230772, 0.54030230586813971740093660744297660373569488,
             18.0 * 0.00000000000000000000000000000000000000000001,
             0.540302305868139717400936607442976604, 0.000000000000000000000000000000000001);
  }

  /** Cosine of one, to 36 decimals. */
  lemma CosineOfOne(c: real)
    requires IsCosineOfOne(c)
    ensures Near(c, 0.540302305868139717400936607442976604, 0.000000000000000000000000000000000001)
  {
    CosineAt(c, 8);
  }
}
