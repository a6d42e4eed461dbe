/** The per-pollutant sub-index: a concentration mapped to a score through a
    six-segment piecewise-linear table with hard-coded constants. */
module SubIndexCalculator {
  import opened Options
  import opened Pollutants
  import opened Breakpoints

  /** The sub-index of a (present) concentration, branch for branch as the
      program writes it. Each branch's upper bound is inclusive, the last
      branch is open-ended, and the first branch has no lower bound, so a
      negative concentration yields a negative score. Two Ozone constants
      are kept as written: the 208-748 segment divides by 539 rather than
      540, and the open segment above 748 subtracts 400 rather than 748. */
  function SubIndex(p: Pollutant, value: real): real
  {
    match p
    case PM25 =>
      if value <= 30.0 then value * (50.0 / 30.0)
      else if 30.0 < value <= 60.0 then 50.0 + (value - 30.0) * (50.0 / 30.0)
      else if 60.0 < value <= 90.0 then 100.0 + (value - 60.0) * (100.0 / 30.0)
      else if 90.0 < value <= 120.0 then 200.0 + (value - 90.0) * (100.0 / 30.0)
      else if 120.0 < value <= 250.0 then 300.0 + (value - 120.0) * (100.0 / 130.0)
      else 400.0 + (value - 250.0) * (100.0 / 130.0)
    case PM10 =>
      if value <= 50.0 then value
      else if 50.0 < value <= 100.0 then value
      else if 100.0 < value <= 250.0 then 100.0 + (value - 100.0) * (100.0 / 150.0)
      else if 250.0 < value <= 350.0 then 200.0 + (value - 250.0)
      else if 350.0 < value <= 430.0 then 300.0 + (value - 350.0) * (100.0 / 80.0)
      else 400.0 + (value - 430.0) * (100.0 / 80.0)
    case NO2 =>
      if value <= 40.0 then value * (50.0 / 40.0)
      else if 40.0 < value <= 80.0 then 50.0 + (value - 40.0) * (50.0 / 40.0)
      else if 80.0 < value <= 180.0 then 100.0 + (value - 80.0) * 100.0 / 100.0
      else if 180.0 < value <= 280.0 then 200.0 + (value - 180.0) * (100.0 / 100.0)
      else if 280.0 < value <= 400.0 then 300.0 + (value - 280.0) * (100.0 / 120.0)
      else 400.0 + (value - 400.0) * (100.0 / 120.0)
    case SO2 =>
      if value <= 40.0 then value * (50.0 / 40.0)
      else if 40.0 < value <= 80.0 then 50.0 + (value - 40.0) * (50.0 / 40.0)
      else if 80.0 < value <= 380.0 then 100.0 + (value - 80.0) * (100.0 / 300.0)
      else if 380.0 < value <= 800.0 then 200.0 + (value - 380.0) * (100.0 / 420.0)
      else if 800.0 < value <= 1600.0 then 300.0 + (value - 800.0) * (100.0 / 800.0)
      else 400.0 + (value - 1600.0) * (100.0 / 800.0)
    case CO =>
      if value <= 1.0 then value * (50.0 / 1.0)
      else if 1.0 < value <= 2.0 then 50.0 + (value - 1.0) * (50.0 / 1.0)
      else if 2.0 < value <= 10.0 then 100.0 + (value - 2.0) * (100.0 / 8.0)
      else if 10.0 < value <= 17.0 then 200.0 + (value - 10.0) * (100.0 / 7.0)
      else if 17.0 < value <= 34.0 then 300.0 + (value - 17.0) * (100.0 / 17.0)
      else 400.0 + (value - 34.0) * (100.0 / 17.0)
    case Ozone =>
      if value <= 50.0 then value * 50.0 / 50.0
      else if 50.0 < value <= 100.0 then 50.0 + (value - 50.0) * 50.0 / 50.0
      else if 100.0 < value <= 168.0 then 100.0 + (value - 100.0) * 100.0 / 68.0
      else if 168.0 < value <= 208.0 then 200.0 + (value - 168.0) * (100.0 / 40.0)
      else if 208.0 < value <= 748.0 then 300.0 + (value - 208.0) * (100.0 / 539.0)
      else 400.0 + (value - 400.0) * (100.0 / 539.0)
  }

  /** The sub-index of a possibly missing reading for a pollutant given by
      name. A missing reading fails every comparison of the branch chain and
      an unrecognised name matches no branch; both give no score. */
  function CalculateSubIndex(value: Option<real>, pollutant: string): (r: Option<real>)
    ensures r.Some? <==> value.Some? && Parse(pollutant).Some?
    ensures Parse(pollutant).None? ==> r == None
  {
    match Parse(pollutant)
    case None => None
    case Some(p) =>
      match value
      case None => None
      case Some(v) => Some(SubIndex(p, v))
  }

  /** The same tables as breakpoint tables: finite upper bounds, and for each
      segment its index at the lower end, its lower end and its slope. */
  function TableOf(p: Pollutant): (t: Table)
    ensures |t.bounds| == 5 && |t.pieces| == 6
  {
    match p
    case PM25 => Table([30.0, 60.0, 90.0, 120.0, 250.0],
      [Piece(0.0, 0.0, 50.0 / 30.0), Piece(50.0, 30.0, 50.0 / 30.0), Piece(100.0, 60.0, 100.0 / 30.0),
       Piece(200.0, 90.0, 100.0 / 30.0), Piece(300.0, 120.0, 100.0 / 130.0), Piece(400.0, 250.0, 100.0 / 130.0)])
    case PM10 => Table([50.0, 100.0, 250.0, 350.0, 430.0],
      [Piece(0.0, 0.0, 1.0), Piece(50.0, 50.0, 1.0), Piece(100.0, 100.0, 100.0 / 150.0),
       Piece(200.0, 250.0, 1.0), Piece(300.0, 350.0, 100.0 / 80.0), Piece(400.0, 430.0, 100.0 / 80.0)])
    case NO2 => Table([40.0, 80.0, 180.0, 280.0, 400.0],
      [Piece(0.0, 0.0, 50.0 / 40.0), Piece(50.0, 40.0, 50.0 / 40.0), Piece(100.0, 80.0, 1.0),
       Piece(200.0, 180.0, 1.0), Piece(300.0, 280.0, 100.0 / 120.0), Piece(400.0, 400.0, 100.0 / 120.0)])
    case SO2 => Table([40.0, 80.0, 380.0, 800.0, 1600.0],
      [Piece(0.0, 0.0, 50.0 / 40.0), Piece(50.0, 40.0, 50.0 / 40.0), Piece(100.0, 80.0, 100.0 / 300.0),
       Piece(200.0, 380.0, 100.0 / 420.0), Piece(300.0, 800.0, 100.0 / 800.0), Piece(400.0, 1600.0, 100.0 / 800.0)])
    case CO => Table([1.0, 2.0, 10.0, 17.0, 34.0],
      [Piece(0.0, 0.0, 50.0), Piece(50.0, 1.0, 50.0), Piece(100.0, 2.0, 100.0 / 8.0),
       Piece(200.0, 10.0, 100.0 / 7.0), Piece(300.0, 17.0, 100.0 / 17.0), Piece(400.0, 34.0, 100.0 / 17.0)])
    case Ozone => Table([50.0, 100.0, 168.0, 208.0, 748.0],
      [Piece(0.0, 0.0, 1.0), Piece(50.0, 50.0, 1.0), Piece(100.0, 100.0, 100.0 / 68.0),
       Piece(200.0, 168.0, 100.0 / 40.0), Piece(300.0, 208.0, 100.0 / 539.0), Piece(400.0, 400.0, 100.0 / 539.0)])
  }

  /** The score at each finite bound, as the tables intend it. */
  const BoundIndex: seq<real> := [50.0, 100.0, 200.0, 300.0, 400.0]

  /** Every table has five increasing finite bounds. */
  lemma TableValid(p: Pollutant)
    ensures Valid(TableOf(p))
  {
    var t := TableOf(p);
    forall i, j | 0 <= i < j < 5
      ensures t.bounds[i] < t.bounds[j]
    {
    }
  }

  /** Every table is strictly rising within each segment and never drops at
      a bound; all but Ozone's are also continuous. */
  lemma TableShape(p: Pollutant)
    ensures Rising(TableOf(p)) && NoDrop(TableOf(p))
    ensures p != Ozone ==> Continuous(TableOf(p))
  {
    var t := TableOf(p);
    TableValid(p);
    forall i | 0 <= i < 6
      ensures t.pieces[i].slope > 0.0
    {
    }
    forall i | 0 <= i < 5
      ensures Eval(t.pieces[i], t.bounds[i]) <= Eval(t.pieces[i + 1], t.bounds[i])
      ensures p != Ozone ==> Eval(t.pieces[i], t.bounds[i]) == Eval(t.pieces[i + 1], t.bounds[i])
    {
    }
  }

  /** The branch chain is exactly the lookup of the pollutant's breakpoint
      table: each value is scored by the formula of the one segment that
      covers it, with a value on a bound belonging to the lower segment. */
  lemma MatchesTable(p: Pollutant, v: real)
    ensures Valid(TableOf(p))
    ensures SubIndex(p, v) == Lookup(TableOf(p), v)
  {
    BranchesAreChain(p, v);
    TableValid(p);
    UnrollFive(TableOf(p), v);
  }

  /** Each branch chain, constants as written, is the six-way chain of the
      pollutant's table. */
  lemma BranchesAreChain(p: Pollutant, v: real)
    ensures SubIndex(p, v) == Chain(TableOf(p), v)
  {
  }

  /** For every pollutant the score strictly increases with the concentration,
      across all segments, including Ozone's upward jump at 748. */
  lemma Monotone(p: Pollutant, a: real, b: real)
    requires a < b
    ensures SubIndex(p, a) < SubIndex(p, b)
  {
    TableShape(p);
    MatchesTable(p, a);
    MatchesTable(p, b);
    StrictlyIncreasing(TableOf(p), a, b);
  }

  /** The steepest slope of a pollutant's table. */
  function SteepestSlope(p: Pollutant): real
  {
    match p
    case PM25 => 100.0 / 30.0
    case PM10 => 100.0 / 80.0
    case NO2 => 50.0 / 40.0
    case SO2 => 50.0 / 40.0
    case CO => 50.0
    case Ozone => 100.0 / 40.0
  }

  lemma SlopesWithinSteepest(p: Pollutant)
    ensures SlopesWithin(TableOf(p), SteepestSlope(p))
  {
    var t := TableOf(p);
    forall i | 0 <= i < |t.pieces|
      ensures 0.0 <= t.pieces[i].slope <= SteepestSlope(p)
    {
      match p
      case PM25 =>
      case PM10 =>
      case NO2 =>
      case SO2 =>
      case CO =>
      case Ozone =>
    }
  }

  /** Every pollutant but Ozone is continuous: the score never rises faster
      than the steepest segment, so there is no jump at any bound. */
  lemma ContinuousExceptOzone(p: Pollutant, a: real, b: real)
    requires p != Ozone && a <= b
    ensures 0.0 <= SubIndex(p, b) - SubIndex(p, a) <= SteepestSlope(p) * (b - a)
  {
    var t := TableOf(p);
    TableShape(p);
    SlopesWithinSteepest(p);
    MatchesTable(p, a);
    MatchesTable(p, b);
    RiseBounded(t, SteepestSlope(p), a, b);
  }

  /** Ozone is the exception: at 748 its score is just above 400, and every
      concentration past 748 scores more than 64 points higher, so no slope
      bound holds across that bound. */
  lemma OzoneJump(v: real)
    requires v > 748.0
    ensures SubIndex(Ozone, 748.0) == 300.0 + 540.0 * 100.0 / 539.0
    ensures 400.0 < SubIndex(Ozone, 748.0) < 400.2
    ensures SubIndex(Ozone, v) - SubIndex(Ozone, 748.0) > 64.0
  {
  }

  /** Every finite bound scores its table index (50, 100, 200, 300, 400),
      using the lower segment; the one exception is Ozone's last bound. */
  lemma BreakpointValues(p: Pollutant, i: int)
    requires 0 <= i < 5
    ensures p != Ozone || i < 4 ==> SubIndex(p, TableOf(p).bounds[i]) == BoundIndex[i]
  {
    match p
    case PM25 =>
    case PM10 =>
    case NO2 =>
    case SO2 =>
    case CO =>
    case Ozone =>
  }

  /** Zero scores zero, the score has the sign of the concentration, and a
      negative concentration still gets a (negative) score from the first
      branch, for example PM2.5 at -1 scores -5/3. */
  lemma ZeroAndSign(p: Pollutant, v: real)
    ensures SubIndex(p, 0.0) == 0.0
    ensures v >= 0.0 <==> SubIndex(p, v) >= 0.0
    ensures v < 0.0 <==> SubIndex(p, v) < 0.0
    ensures SubIndex(PM25, -1.0) == -5.0 / 3.0
  {
    if v < 0.0 {
      Monotone(p, v, 0.0);
    } else if v > 0.0 {
      Monotone(p, 0.0, v);
    }
  }

  /** Above the last finite bound the score extrapolates from 400 with the
      slope of the segment below, anchored at that bound; Ozone's open
      segment is anchored at 400 instead of 748. */
  lemma OpenSegment(p: Pollutant, v: real)
    requires v > TableOf(p).bounds[4]
    ensures var t := TableOf(p);
      SubIndex(p, v) == 400.0 + (v - (if p == Ozone then 400.0 else t.bounds[4])) * t.pieces[4].slope
    ensures p == PM25 ==> SubIndex(p, v) == 400.0 + (v - 250.0) * (100.0 / 130.0)
    ensures p == Ozone ==> SubIndex(p, v) == 400.0 + (v - 400.0) * (100.0 / 539.0)
  {
    TableValid(p);
    MatchesTable(p, v);
    SelectsSegment(TableOf(p), 5, v);
  }
}
