/**
 * The bit-rate selection of stf_dphy_configure over m31_dphy_configs:
 * rounding the requested rate up to a multiple of 10 MHz in u32 arithmetic,
 * then a first-match search for an equal bit rate.
 */
module ConfigLookup {
  import opened ConfigTable

  /** m31_dphy_configs as a sequence: the rows in declaration order. */
  function Table(): (t: seq<M31Config>)
    ensures |t| == 74
  {
    seq(74, i requires 0 <= i < 74 => Row(i))
  }

  /**
   * The table has 74 rows, all for a 12 MHz reference clock; row `i` is for
   * CoveredRate(i), and every value fits the field it is written into.
   * This is ConfigTable.RowsShape lifted from Row(i) to Table()[i].
   */
  lemma TableShape()
    ensures |Table()| == 74
    ensures forall i :: 0 <= i < |Table()| ==> Table()[i].bitrate == CoveredRate(i)
    ensures forall i :: 0 <= i < |Table()| ==> Table()[i].refClk == 12000000 && FitsFields(Table()[i])
  {
    RowsShape();
  }

  /** The table's bit rates strictly increase, in declaration order. */
  lemma TableStrictlyIncreasing()
    ensures forall i, j :: 0 <= i < j < |Table()| ==> Table()[i].bitrate < Table()[j].bitrate
  {
    TableShape();
  }

  /** So no two rows have the same bit rate: at most one row matches any rate. */
  lemma AtMostOneRow(b: nat, i: nat, j: nat)
    requires i < |Table()| && j < |Table()|
    requires Table()[i].bitrate == b && Table()[j].bitrate == b
    ensures i == j
  {
    TableStrictlyIncreasing();
  }

  /**
   * The rounding of stf_dphy_configure on its u32 local `bitrate`: a rate
   * that is not a multiple of 10 MHz is raised by the distance to the next
   * multiple, and the sum wraps modulo 2^32.  Below the last multiple that fits
   * in 32 bits (4,290,000,000) the result is the next multiple; above it the
   * sum overflows to 5,032,704.
   */
  function RoundRate(b: nat): (r: nat)
    requires b < 0x1_0000_0000
    ensures r < 0x1_0000_0000
    ensures b % 10000000 == 0 ==> r == b
    ensures b % 10000000 != 0 && b <= 4290000000 ==> r % 10000000 == 0 && b < r < b + 10000000
    ensures b > 4290000000 ==> r == 5032704
  {
    if b % 10000000 != 0 then (b + (10000000 - b % 10000000)) % 0x1_0000_0000 else b
  }

  /** Without overflow the rounded rate is the least multiple of 10 MHz not below `b`. */
  lemma RoundRateLeast(b: nat, m: nat)
    requires b <= 4290000000
    requires m % 10000000 == 0 && b <= m
    ensures RoundRate(b) <= m
  {
    if b % 10000000 != 0 {
      var q := b / 10000000;
      assert b == 10000000 * q + b % 10000000;
      assert RoundRate(b) == 10000000 * (q + 1);
      var k := m / 10000000;
      assert m == 10000000 * k;
      assert q < k;
    }
  }

  /** 163 MHz is rounded to 170 MHz. */
  lemma RoundRateExample()
    ensures RoundRate(163000000) == 170000000
    ensures RoundRate(170000000) == 170000000
    ensures RoundRate(4294967295) == 5032704
  {
  }

  /** No row of `t` from index `lo` up to, not including, `hi` is for bit rate `b`. */
  predicate NoRowFor(t: seq<M31Config>, b: nat, lo: nat, hi: nat)
    requires hi <= |t|
  {
    forall j :: lo <= j < hi ==> t[j].bitrate != b
  }

  /**
   * The driver's linear scan of the table, from row `i` of `t` on: the index of the first row whose bit rate equals `b`,
   * or |t| when the loop runs to its end without a match.
   */
  function SearchFrom(t: seq<M31Config>, b: nat, i: nat): (r: nat)
    requires i <= |t|
    decreases |t| - i
    ensures i <= r <= |t|
    ensures r < |t| ==> t[r].bitrate == b
    ensures NoRowFor(t, b, i, r)
  {
    if i == |t| then |t|
    else if t[i].bitrate == b then i
    else SearchFrom(t, b, i + 1)
  }

  /** The search stops at once at a row for `b`, and past the last row. */
  lemma SearchStopsAt(t: seq<M31Config>, b: nat, i: nat)
    requires i <= |t| && (i == |t| || t[i].bitrate == b)
    ensures SearchFrom(t, b, i) == i
  {
  }

  /**
   * The row index stf_dphy_configure ends its loop at for the rounded rate
   * `b`: the first, and only, match, or |Table()| when no row matches.
   */
  function SelectIndex(b: nat): (r: nat)
    ensures r <= |Table()|
    ensures r < |Table()| ==> Table()[r].bitrate == b
    ensures NoRowFor(Table(), b, 0, r)
  {
    SearchFrom(Table(), b, 0)
  }

  /** A table laid out like m31_dphy_configs: row `i` is for CoveredRate(i). */
  predicate HasCoveredRates(t: seq<M31Config>)
  {
    |t| == 74 && forall i :: 0 <= i < |t| ==> t[i].bitrate == CoveredRate(i)
  }

  /** In such a table the search finds a row exactly for the covered rates. */
  lemma {:induction false} FindsIffCovered(t: seq<M31Config>, b: nat)
    requires HasCoveredRates(t)
    ensures SearchFrom(t, b, 0) < |t| <==> Covered(b)
  {
    if Covered(b) {
      var i: nat := if b <= 200000000 then (b - 160000000) / 10000000 else 5 + (b - 320000000) / 10000000;
      assert CoveredRate(i) == b;
      assert t[i].bitrate == b;
    }
    if SearchFrom(t, b, 0) < |t| {
      var i := SearchFrom(t, b, 0);
      assert CoveredRate(i) == b;
    }
  }

  /** In such a table the search for the rate of row `k` stops at row `k`. */
  lemma FindsItsRow(t: seq<M31Config>, k: nat)
    requires HasCoveredRates(t) && k < 74
    ensures SearchFrom(t, CoveredRate(k), 0) == k
  {
    assert t[k].bitrate == CoveredRate(k);
  }

  /** A row matches exactly when the rate is one the table covers. */
  lemma RowFoundIff(b: nat)
    ensures SelectIndex(b) < |Table()| <==> Covered(b)
  {
    TableShape();
    FindsIffCovered(Table(), b);
  }

  /** A rate from the gap between 200 MHz and 320 MHz, once rounded, selects no row. */
  lemma GapSelectsNothing(b: nat)
    requires 200000000 < b <= 310000000
    ensures SelectIndex(RoundRate(b)) == |Table()|
  {
    RowFoundIff(RoundRate(b));
  }

  /** The 630 MHz rate selects row 36. */
  lemma Select630()
    ensures SelectIndex(630000000) == 36
  {
    TableShape();
    FindsItsRow(Table(), 36);
  }

  /** Row 36 holds the values the driver programs for 630 MHz. */
  lemma Row630()
    ensures Table()[36] == M31Config(12000000, 630000000, 0x0, 0x69, 0x0, 0x1, 0x7, 0x12, 0xd, 0x5, 0x2a, 0xc, 0x1, 0x15)
  {
    assert Table()[36] == Row(36);
  }
}
