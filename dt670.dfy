/**
 * The DT-670 silicon diode calibration curve: 144 points of temperature (kelvin), sensor
 * voltage (volts) and slope dV/dT (millivolts per kelvin), in order of rising temperature.
 *
 * The table is stored as twelve rows of twelve points so that each ordering fact is
 * checked on a short literal; the lemmas below lift them to the whole curve. The values
 * are the decimal literals of the table, as real numbers.
 */
module Dt670 {
  /** One calibration point: (temperature, voltage, dV/dT). */
  type Point = (real, real, real)

  const ROWS_0: seq<Point> := [
    (1.4, 1.644290, -12.5),
    (1.5, 1.642990, -13.6),
    (1.6, 1.641570, -14.8),
    (1.7, 1.640030, -16.0),
    (1.8, 1.638370, -17.1),
    (1.9, 1.636600, -18.3),
    (2.0, 1.634720, -19.3),
    (2.1, 1.632740, -20.3),
    (2.2, 1.630670, -21.1),
    (2.3, 1.628520, -21.9),
    (2.4, 1.626290, -22.6),
    (2.5, 1.624000, -23.2)
  ]

  const ROWS_1: seq<Point> := [
    (2.6, 1.621660, -23.6),
    (2.7, 1.619280, -24.0),
    (2.8, 1.616870, -24.2),
    (2.9, 1.614450, -24.4),
    (3.0, 1.612000, -24.7),
    (3.1, 1.609510, -25.1),
    (3.2, 1.606970, -25.6),
    (3.3, 1.604380, -26.2),
    (3.4, 1.601730, -26.8),
    (3.5, 1.599020, -27.4),
    (3.6, 1.596260, -27.9),
    (3.7, 1.59344, -28.4)
  ]

  const ROWS_2: seq<Point> := [
    (3.8, 1.59057, -29.0),
    (3.9, 1.58764, -29.6),
    (4.0, 1.58465, -30.2),
    (4.2, 1.57848, -31.6),
    (4.4, 1.57202, -32.9),
    (4.6, 1.56533, -34.0),
    (4.8, 1.55845, -34.7),
    (5.0, 1.55145, -35.2),
    (5.2, 1.54436, -35.6),
    (5.4, 1.53721, -35.9),
    (5.6, 1.53000, -36.2),
    (5.8, 1.52273, -36.5)
  ]

  const ROWS_3: seq<Point> := [
    (6.0, 1.51541, -36.7),
    (6.5, 1.49698, -36.9),
    (7.0, 1.47868, -36.2),
    (7.5, 1.46086, -35.0),
    (8.0, 1.44374, -33.4),
    (8.5, 1.42747, -31.7),
    (9.0, 1.41207, -29.9),
    (9.5, 1.39751, -28.3),
    (10.0, 1.38373, -26.8),
    (10.5, 1.37065, -25.5),
    (11.0, 1.35820, -24.3),
    (11.5, 1.34632, -23.2)
  ]

  const ROWS_4: seq<Point> := [
    (12.0, 1.33499, -22.1),
    (12.5, 1.32416, -21.2),
    (13.0, 1.31381, -20.3),
    (13.5, 1.30390, -19.4),
    (14.0, 1.29439, -18.6),
    (14.5, 1.28526, -17.9),
    (15.0, 1.27645, -17.3),
    (15.5, 1.26794, -16.8),
    (16.0, 1.25967, -16.3),
    (16.5, 1.25161, -15.9),
    (17.0, 1.24372, -15.6),
    (17.5, 1.23596, -15.4)
  ]

  const ROWS_5: seq<Point> := [
    (18.0, 1.22830, -15.3),
    (18.5, 1.22070, -15.2),
    (19.0, 1.21311, -15.2),
    (19.5, 1.20548, -15.3),
    (20.0, 1.197748, -15.6),
    (21.0, 1.181548, -17.0),
    (22.0, 1.162797, -21.1),
    (23.0, 1.140817, -20.8),
    (24.0, 1.125923, -9.42),
    (25.0, 1.119448, -4.60),
    (26.0, 1.115658, -3.19),
    (27.0, 1.112810, -2.58)
  ]

  const ROWS_6: seq<Point> := [
    (28.0, 1.110421, -2.25),
    (29.0, 1.108261, -2.08),
    (30.0, 1.106244, -1.96),
    (31.0, 1.104324, -1.88),
    (32.0, 1.102476, -1.82),
    (33.0, 1.100681, -1.77),
    (34.0, 1.098930, -1.73),
    (35.0, 1.097216, -1.70),
    (36.0, 1.095534, -1.69),
    (37.0, 1.093878, -1.64),
    (38.0, 1.092244, -1.62),
    (39.0, 1.090627, -1.61)
  ]

  const ROWS_7: seq<Point> := [
    (40.0, 1.089024, -1.60),
    (42.0, 1.085842, -1.59),
    (44.0, 1.082669, -1.59),
    (46.0, 1.079492, -1.59),
    (48.0, 1.076303, -1.60),
    (50.0, 1.073099, -1.61),
    (52.0, 1.069881, -1.61),
    (54.0, 1.066650, -1.62),
    (56.0, 1.063403, -1.63),
    (58.0, 1.060141, -1.64),
    (60.0, 1.056862, -1.64),
    (65.0, 1.048584, -1.67)
  ]

  const ROWS_8: seq<Point> := [
    (70.0, 1.040183, -1.69),
    (75.0, 1.031651, -1.72),
    (77.35, 1.027594, -1.73),
    (80.0, 1.022984, -1.75),
    (85.0, 1.014181, -1.77),
    (90.0, 1.005244, -1.80),
    (100.0, 0.986974, -1.85),
    (110.0, 0.968209, -1.90),
    (120.0, 0.949000, -1.94),
    (130.0, 0.929390, -1.98),
    (140.0, 0.909416, -2.01),
    (150.0, 0.889114, -2.05)
  ]

  const ROWS_9: seq<Point> := [
    (160.0, 0.868518, -2.07),
    (170.0, 0.847659, -2.10),
    (180.0, 0.826560, -2.12),
    (190.0, 0.805242, -2.14),
    (200.0, 0.783720, -2.16),
    (210.0, 0.762007, -2.18),
    (220.0, 0.740115, -2.20),
    (230.0, 0.718054, -2.21),
    (240.0, 0.695834, -2.23),
    (250.0, 0.673462, -2.24),
    (260.0, 0.650949, -2.26),
    (270.0, 0.628302, -2.27)
  ]

  const ROWS_10: seq<Point> := [
    (273.0, 0.621141, -2.28),
    (280.0, 0.605528, -2.28),
    (290.0, 0.582637, -2.29),
    (300.0, 0.559639, -2.30),
    (310.0, 0.536542, -2.31),
    (320.0, 0.513361, -2.32),
    (330.0, 0.490106, -2.33),
    (340.0, 0.466760, -2.34),
    (350.0, 0.443371, -2.34),
    (360.0, 0.419960, -2.34),
    (370.0, 0.396503, -2.35),
    (380.0, 0.373002, -2.35)
  ]

  const ROWS_11: seq<Point> := [
    (390.0, 0.349453, -2.36),
    (400.0, 0.325839, -2.36),
    (410.0, 0.302161, -2.37),
    (420.0, 0.278416, -2.38),
    (430.0, 0.254592, -2.39),
    (440.0, 0.230697, -2.39),
    (450.0, 0.206758, -2.39),
    (460.0, 0.182832, -2.39),
    (470.0, 0.159010, -2.37),
    (480.0, 0.135480, -2.33),
    (490.0, 0.112553, -2.25),
    (500.0, 0.090681, -2.12)
  ]

  /** `CURVE`: the whole table, lowest temperature first. */
  const CURVE: seq<Point> :=
    ROWS_0 + ROWS_1 + ROWS_2 + ROWS_3 + ROWS_4 + ROWS_5 +
    ROWS_6 + ROWS_7 + ROWS_8 + ROWS_9 + ROWS_10 + ROWS_11

  /** `q` comes after `p` on the curve: it is hotter and its voltage is lower. */
  predicate Follows(p: Point, q: Point) {
    p.0 < q.0 && q.1 < p.1
  }

  /** Every slope is negative and every point is followed by the next one. */
  predicate Monotone(s: seq<Point>) {
    (forall i :: 0 <= i < |s| ==> s[i].2 < 0.0) &&
    (forall i :: 0 <= i < |s| - 1 ==> Follows(s[i], s[i + 1]))
  }

  /** `Monotone` for the points from `i` on, one point at a time, so that it unfolds on a literal. */
  predicate CheckedFrom(s: seq<Point>, i: nat)
    decreases |s| - i
  {
    i >= |s| || (s[i].2 < 0.0 && (i + 1 == |s| || Follows(s[i], s[i + 1])) && CheckedFrom(s, i + 1))
  }

  lemma {:induction false} CheckedMonotone(s: seq<Point>, i: nat)
    requires i <= |s| && CheckedFrom(s, i)
    ensures forall k :: i <= k < |s| ==> s[k].2 < 0.0
    ensures forall k :: i <= k < |s| - 1 ==> Follows(s[k], s[k + 1])
    decreases |s| - i
  {
    if i < |s| {
      CheckedMonotone(s, i + 1);
    }
  }

  lemma Rows0Checked()
    ensures Monotone(ROWS_0)
  {
    assert CheckedFrom(ROWS_0, 10);
    assert CheckedFrom(ROWS_0, 8);
    assert CheckedFrom(ROWS_0, 6);
    assert CheckedFrom(ROWS_0, 4);
    assert CheckedFrom(ROWS_0, 2);
    assert CheckedFrom(ROWS_0, 0);
    CheckedMonotone(ROWS_0, 0);
  }

  lemma Rows1Checked()
    ensures Monotone(ROWS_1)
  {
    assert CheckedFrom(ROWS_1, 10);
    assert CheckedFrom(ROWS_1, 8);
    assert CheckedFrom(ROWS_1, 6);
    assert CheckedFrom(ROWS_1, 4);
    assert CheckedFrom(ROWS_1, 2);
    assert CheckedFrom(ROWS_1, 0);
    CheckedMonotone(ROWS_1, 0);
  }

  lemma Rows2Checked()
    ensures Monotone(ROWS_2)
  {
    assert CheckedFrom(ROWS_2, 10);
    assert CheckedFrom(ROWS_2, 8);
    assert CheckedFrom(ROWS_2, 6);
    assert CheckedFrom(ROWS_2, 4);
    assert CheckedFrom(ROWS_2, 2);
    assert CheckedFrom(ROWS_2, 0);
    CheckedMonotone(ROWS_2, 0);
  }

  lemma Rows3Checked()
    ensures Monotone(ROWS_3)
  {
    assert CheckedFrom(ROWS_3, 10);
    assert CheckedFrom(ROWS_3, 8);
    assert CheckedFrom(ROWS_3, 6);
    assert CheckedFrom(ROWS_3, 4);
    assert CheckedFrom(ROWS_3, 2);
    assert CheckedFrom(ROWS_3, 0);
    CheckedMonotone(ROWS_3, 0);
  }

  lemma Rows4Checked()
    ensures Monotone(ROWS_4)
  {
    assert CheckedFrom(ROWS_4, 10);
    assert CheckedFrom(ROWS_4, 8);
    assert CheckedFrom(ROWS_4, 6);
    assert CheckedFrom(ROWS_4, 4);
    assert CheckedFrom(ROWS_4, 2);
    assert CheckedFrom(ROWS_4, 0);
    CheckedMonotone(ROWS_4, 0);
  }

  lemma Rows5Checked()
    ensures Monotone(ROWS_5)
  {
    assert CheckedFrom(ROWS_5, 10);
    assert CheckedFrom(ROWS_5, 8);
    assert CheckedFrom(ROWS_5, 6);
    assert CheckedFrom(ROWS_5, 4);
    assert CheckedFrom(ROWS_5, 2);
    assert CheckedFrom(ROWS_5, 0);
    CheckedMonotone(ROWS_5, 0);
  }

  lemma Rows6Checked()
    ensures Monotone(ROWS_6)
  {
    assert CheckedFrom(ROWS_6, 10);
    assert CheckedFrom(ROWS_6, 8);
    assert CheckedFrom(ROWS_6, 6);
    assert CheckedFrom(ROWS_6, 4);
    assert CheckedFrom(ROWS_6, 2);
    assert CheckedFrom(ROWS_6, 0);
    CheckedMonotone(ROWS_6, 0);
  }

  lemma Rows7Checked()
    ensures Monotone(ROWS_7)
  {
    assert CheckedFrom(ROWS_7, 10);
    assert CheckedFrom(ROWS_7, 8);
    assert CheckedFrom(ROWS_7, 6);
    assert CheckedFrom(ROWS_7, 4);
    assert CheckedFrom(ROWS_7, 2);
    assert CheckedFrom(ROWS_7, 0);
    CheckedMonotone(ROWS_7, 0);
  }

  lemma Rows8Checked()
    ensures Monotone(ROWS_8)
  {
    assert CheckedFrom(ROWS_8, 10);
    assert CheckedFrom(ROWS_8, 8);
    assert CheckedFrom(ROWS_8, 6);
    assert CheckedFrom(ROWS_8, 4);
    assert CheckedFrom(ROWS_8, 2);
    assert CheckedFrom(ROWS_8, 0);
    CheckedMonotone(ROWS_8, 0);
  }

  lemma Rows9Checked()
    ensures Monotone(ROWS_9)
  {
    assert CheckedFrom(ROWS_9, 10);
    assert CheckedFrom(ROWS_9, 8);
    assert CheckedFrom(ROWS_9, 6);
    assert CheckedFrom(ROWS_9, 4);
    assert CheckedFrom(ROWS_9, 2);
    assert CheckedFrom(ROWS_9, 0);
    CheckedMonotone(ROWS_9, 0);
  }

  lemma Rows10Checked()
    ensures Monotone(ROWS_10)
  {
    assert CheckedFrom(ROWS_10, 10);
    assert CheckedFrom(ROWS_10, 8);
    assert CheckedFrom(ROWS_10, 6);
    assert CheckedFrom(ROWS_10, 4);
    assert CheckedFrom(ROWS_10, 2);
    assert CheckedFrom(ROWS_10, 0);
    CheckedMonotone(ROWS_10, 0);
  }

  lemma Rows11Checked()
    ensures Monotone(ROWS_11)
  {
    assert CheckedFrom(ROWS_11, 10);
    assert CheckedFrom(ROWS_11, 8);
    assert CheckedFrom(ROWS_11, 6);
    assert CheckedFrom(ROWS_11, 4);
    assert CheckedFrom(ROWS_11, 2);
    assert CheckedFrom(ROWS_11, 0);
    CheckedMonotone(ROWS_11, 0);
  }

  /** Two monotone pieces joined where the first one's last point is followed by the second one's first. */
  lemma ConcatMonotone(a: seq<Point>, b: seq<Point>)
    requires Monotone(a) && Monotone(b) && a != [] && b != [] && Follows(a[|a| - 1], b[0])
    ensures Monotone(a + b)
  {
    var s := a + b;
    forall i | 0 <= i < |s| - 1
      ensures Follows(s[i], s[i + 1])
    {
      if i + 1 < |a| {
        assert s[i] == a[i] && s[i + 1] == a[i + 1];
      } else if i + 1 == |a| {
        assert s[i] == a[|a| - 1] && s[i + 1] == b[0];
      } else {
        assert s[i] == b[i - |a|] && s[i + 1] == b[i - |a| + 1];
      }
    }
  }

  /**
   * The table has 144 points; adjacent points rise in temperature and fall in voltage,
   * and every slope is negative.
   */
  lemma CurveMonotone()
    ensures |CURVE| == 144
    ensures forall i :: 0 <= i < 144 ==> CURVE[i].2 < 0.0
    ensures forall i :: 0 <= i < 143 ==> CURVE[i].0 < CURVE[i + 1].0 && CURVE[i + 1].1 < CURVE[i].1
  {
    Rows0Checked();
    Rows1Checked();
    Rows2Checked();
    Rows3Checked();
    Rows4Checked();
    Rows5Checked();
    Rows6Checked();
    Rows7Checked();
    Rows8Checked();
    Rows9Checked();
    Rows10Checked();
    Rows11Checked();
    var s := ROWS_0;
    ConcatMonotone(s, ROWS_1);
    s := s + ROWS_1;
    ConcatMonotone(s, ROWS_2);
    s := s + ROWS_2;
    ConcatMonotone(s, ROWS_3);
    s := s + ROWS_3;
    ConcatMonotone(s, ROWS_4);
    s := s + ROWS_4;
    ConcatMonotone(s, ROWS_5);
    s := s + ROWS_5;
    ConcatMonotone(s, ROWS_6);
    s := s + ROWS_6;
    ConcatMonotone(s, ROWS_7);
    s := s + ROWS_7;
    ConcatMonotone(s, ROWS_8);
    s := s + ROWS_8;
    ConcatMonotone(s, ROWS_9);
    s := s + ROWS_9;
    ConcatMonotone(s, ROWS_10);
    s := s + ROWS_10;
    ConcatMonotone(s, ROWS_11);
    s := s + ROWS_11;
    assert s == CURVE;
  }

  /** The first point is (1.4 K, 1.644290 V, -12.5 mV/K) and the last (500 K, 0.090681 V, -2.12 mV/K). */
  lemma CurveEnds()
    ensures |CURVE| == 144
    ensures CURVE[0] == (1.4, 1.644290, -12.5)
    ensures CURVE[143] == (500.0, 0.090681, -2.12)
  {
  }

  /** On a monotone sequence, any later point is hotter and at a lower voltage. */
  lemma {:induction false} MonotoneSpread(s: seq<Point>, i: nat, j: nat)
    requires Monotone(s) && i < j < |s|
    ensures Follows(s[i], s[j])
    decreases j - i
  {
    if j > i + 1 {
      MonotoneSpread(s, i, j - 1);
    }
  }

  /** Temperature rises and voltage falls between any two points, not only adjacent ones. */
  lemma CurveSpread(i: int, j: int)
    requires 0 <= i < j < 144
    ensures CURVE[i].0 < CURVE[j].0 && CURVE[j].1 < CURVE[i].1
  {
    CurveMonotone();
    MonotoneSpread(CURVE, i, j);
  }

  /** Every voltage of the table lies between the last point's and the first point's. */
  lemma VoltageSpan(i: int)
    requires 0 <= i < 144
    ensures 0.090681 <= CURVE[i].1 <= 1.644290
  {
    CurveEnds();
    if 0 < i {
      CurveSpread(0, i);
    }
    if i < 143 {
      CurveSpread(i, 143);
    }
  }

  /** `v` lies between the voltages of points `i` and `i + 1`. */
  predicate Brackets(s: seq<Point>, i: int, v: real) {
    0 <= i < |s| - 1 && s[i + 1].1 <= v <= s[i].1
  }

  lemma {:induction false} BracketFrom(s: seq<Point>, k: nat, v: real)
    requires Monotone(s) && k < |s| - 1 && s[|s| - 1].1 <= v <= s[k].1
    ensures exists i :: k <= i && Brackets(s, i, v)
    decreases |s| - k
  {
    if s[k + 1].1 <= v {
      assert Brackets(s, k, v);
    } else if k + 1 == |s| - 1 {
      assert false;
    } else {
      BracketFrom(s, k + 1, v);
    }
  }

  /** Every voltage the table spans falls between two adjacent points. */
  lemma BracketExists(v: real)
    requires 0.090681 <= v <= 1.644290
    ensures exists i :: Brackets(CURVE, i, v)
  {
    CurveMonotone();
    CurveEnds();
    BracketFrom(CURVE, 0, v);
  }

  /**
   * The bracketing pair is unique, except at a table voltage itself, which closes one
   * pair and opens the next.
   */
  lemma BracketUnique(v: real, i: int, j: int)
    requires Brackets(CURVE, i, v) && Brackets(CURVE, j, v) && i < j
    ensures j == i + 1 && v == CURVE[j].1
  {
    if j > i + 1 {
      CurveSpread(i + 1, j);
    }
  }
}
