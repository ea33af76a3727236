/**
 * The bearing-to-compass mapper `transformar_grados_a_direccion` of utils.py.
 * A bearing in degrees (exact reals; no IEEE rounding) becomes one of eight
 * Spanish labels, or "N/A" when there is no bearing.
 */
module Direction {
  import opened Wrappers

  /** The list `direcciones`, clockwise from north. */
  const Labels: seq<string> := ["Norte", "Noreste", "Este", "Sureste", "Sur", "Suroeste", "Oeste", "Noroeste"]

  /** The label returned for a missing bearing. */
  const NotAvailable: string := "N/A"

  /** Python's `int()` on a float: drops the fraction, rounding toward zero. */
  function Trunc(x: real): (n: int)
    ensures 0.0 <= x ==> 0 <= n && n as real <= x < n as real + 1.0
    ensures x < 0.0 ==> n <= 0 && n as real - 1.0 < x <= n as real
  {
    if x >= 0.0 then x.Floor else -((-x).Floor)
  }

  /** `int((grados + 22.5) / 45) % 8`; Python's `%` by 8 is never negative, like Dafny's. */
  function SectorIndex(g: real): (i: int)
    ensures 0 <= i < |Labels|
  {
    Trunc((g + 22.5) / 45.0) % 8
  }

  /** The mapper itself: "N/A" exactly when there is no bearing, otherwise one of the eight labels. */
  function ToCardinal(grados: Option<real>): (texto: string)
    ensures grados.None? <==> texto == NotAvailable
    ensures grados.Some? ==> texto in Labels
  {
    match grados
    case None => NotAvailable
    case Some(g) => Labels[SectorIndex(g)]
  }

  /**
   * For bearings from -22.5 up, the 45-degree band centred on k*45 is sector k,
   * wrapped by `% 8`: [0, 22.5) and [337.5, 360) are both "Norte".
   */
  lemma SectorBand(g: real, k: nat)
    requires k as real * 45.0 - 22.5 <= g < k as real * 45.0 + 22.5
    ensures SectorIndex(g) == k % 8
    ensures ToCardinal(Some(g)) == Labels[k % 8]
  {
    var q := (g + 22.5) / 45.0;
    assert k as real <= q < k as real + 1.0;
    var n := Trunc(q);
    assert n as real <= q < n as real + 1.0;
    assert n == k;
  }

  /** The bearings in [0, 360) in sector order: the k-th band of width 45, and the northern wrap. */
  lemma TurnSectors(g: real)
    requires 0.0 <= g < 360.0
    ensures g < 22.5 ==> ToCardinal(Some(g)) == "Norte"
    ensures 337.5 <= g ==> ToCardinal(Some(g)) == "Norte"
    ensures forall k: nat :: 1 <= k < 8 && k as real * 45.0 - 22.5 <= g < k as real * 45.0 + 22.5 ==>
              ToCardinal(Some(g)) == Labels[k]
  {
    var k := Trunc((g + 22.5) / 45.0);
    SectorBand(g, k);
    assert 0 <= k <= 8;
  }

  /** Below -22.5 Python's truncation moves every band but its lower edge one sector clockwise. */
  lemma NegativeBand(g: real, k: int)
    requires k < 0
    requires k as real * 45.0 - 22.5 <= g < k as real * 45.0 + 22.5
    ensures SectorIndex(g) == if g == k as real * 45.0 - 22.5 then k % 8 else (k + 1) % 8
  {
    var q := (g + 22.5) / 45.0;
    assert k as real <= q < k as real + 1.0;
    var n := Trunc(q);
    if g == k as real * 45.0 - 22.5 {
      assert q == k as real;
      assert n == k;
    } else {
      assert k as real < q < 0.0;
      assert n == k + 1;
    }
  }

  /** A full turn does not change the label of any bearing from -22.5 up. */
  lemma FullTurn(g: real)
    requires g >= -22.5
    ensures ToCardinal(Some(g + 360.0)) == ToCardinal(Some(g))
  {
    var q := (g + 22.5) / 45.0;
    assert q >= 0.0;
    var k := Trunc(q);
    assert k as real <= q < k as real + 1.0;
    assert k as real * 45.0 - 22.5 <= g < k as real * 45.0 + 22.5;
    SectorBand(g, k);
    SectorBand(g + 360.0, k + 8);
    assert (k + 8) % 8 == k % 8;
  }

  /**
   * The bound -22.5 above cannot be dropped: -30 degrees is the same direction as
   * 330 degrees, yet truncation labels it "Norte" and 330 "Noroeste".
   */
  lemma FullTurnFailsBelowBound()
    ensures ToCardinal(Some(-30.0)) == "Norte"
    ensures ToCardinal(Some(-30.0 + 360.0)) == "Noroeste"
  {
    NegativeBand(-30.0, -1);
    SectorBand(330.0, 7);
  }
}
