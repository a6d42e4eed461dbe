/** Piecewise-linear breakpoint tables, independent of any particular
    pollutant: the reference reading of a sub-index table as "find the
    segment whose inclusive upper bound first reaches the value, then apply
    that segment's linear formula", with the last segment open-ended. */
module Breakpoints {

  /** One linear formula `base + (v - anchor) * slope`. */
  datatype Piece = Piece(base: real, anchor: real, slope: real)

  function Eval(p: Piece, v: real): real
  {
    p.base + (v - p.anchor) * p.slope
  }

  /** `bounds` holds the inclusive upper bounds of the finite segments;
      `pieces` holds one formula per finite segment and, last, the formula
      of the open-ended segment above the last bound. */
  datatype Table = Table(bounds: seq<real>, pieces: seq<Piece>)

  predicate Valid(t: Table)
  {
    && |t.pieces| == |t.bounds| + 1
    && forall i, j :: 0 <= i < j < |t.bounds| ==> t.bounds[i] < t.bounds[j]
  }

  /** The table without its first segment. */
  function Rest(t: Table): (r: Table)
    requires Valid(t) && |t.bounds| > 0
    ensures Valid(r) && |r.bounds| == |t.bounds| - 1
    ensures forall i :: 0 <= i < |r.bounds| ==> r.bounds[i] == t.bounds[i + 1]
    ensures forall i :: 0 <= i < |r.pieces| ==> r.pieces[i] == t.pieces[i + 1]
  {
    Table(t.bounds[1..], t.pieces[1..])
  }

  /** Evaluates a table: the first segment whose bound is at least `v` wins,
      so a value exactly on a bound belongs to the lower segment. */
  function Lookup(t: Table, v: real): real
    requires Valid(t)
    decreases |t.bounds|
  {
    if |t.bounds| == 0 || v <= t.bounds[0] then Eval(t.pieces[0], v)
    else Lookup(Rest(t), v)
  }

  /** Segment `i` covers the half-open interval (bounds[i-1], bounds[i]]; the
      first segment is unbounded below and the last unbounded above. */
  predicate InSegment(t: Table, i: int, v: real)
    requires Valid(t)
  {
    && 0 <= i <= |t.bounds|
    && (i == 0 || t.bounds[i - 1] < v)
    && (i == |t.bounds| || v <= t.bounds[i])
  }

  /** A value is evaluated with the formula of the segment that covers it. */
  lemma {:induction false} SelectsSegment(t: Table, i: int, v: real)
    requires Valid(t) && InSegment(t, i, v)
    ensures Lookup(t, v) == Eval(t.pieces[i], v)
    decreases |t.bounds|
  {
    if i > 0 {
      assert t.bounds[0] <= t.bounds[i - 1];
      SelectsSegment(Rest(t), i - 1, v);
    }
  }

  /** Every value is covered by exactly one segment. */
  lemma {:induction false} SegmentsPartition(t: Table, v: real)
    requires Valid(t)
    ensures exists i :: InSegment(t, i, v)
    ensures forall i, j :: InSegment(t, i, v) && InSegment(t, j, v) ==> i == j
    decreases |t.bounds|
  {
    if |t.bounds| == 0 || v <= t.bounds[0] {
      assert InSegment(t, 0, v);
    } else {
      SegmentsPartition(Rest(t), v);
      var k :| InSegment(Rest(t), k, v);
      assert InSegment(t, k + 1, v);
    }
  }

  lemma EvalStrict(p: Piece, x: real, y: real)
    requires p.slope > 0.0 && x < y
    ensures Eval(p, x) < Eval(p, y)
  {
    assert Eval(p, y) - Eval(p, x) == (y - x) * p.slope;
  }

  lemma EvalSteps(p: Piece, x: real, y: real, limit: real)
    requires 0.0 <= p.slope <= limit && x <= y
    ensures 0.0 <= Eval(p, y) - Eval(p, x) <= limit * (y - x)
  {
    assert Eval(p, y) - Eval(p, x) == (y - x) * p.slope;
    assert (y - x) * p.slope <= (y - x) * limit;
  }

  /** Every formula strictly increases. */
  predicate Rising(t: Table)
  {
    forall i :: 0 <= i < |t.pieces| ==> t.pieces[i].slope > 0.0
  }

  /** At every bound the next formula starts no lower than the previous one ends. */
  predicate NoDrop(t: Table)
  {
    && Valid(t)
    && forall i :: 0 <= i < |t.bounds| ==> Eval(t.pieces[i], t.bounds[i]) <= Eval(t.pieces[i + 1], t.bounds[i])
  }

  /** At every bound the next formula starts exactly where the previous one ends. */
  predicate Continuous(t: Table)
  {
    && Valid(t)
    && forall i :: 0 <= i < |t.bounds| ==> Eval(t.pieces[i], t.bounds[i]) == Eval(t.pieces[i + 1], t.bounds[i])
  }

  predicate SlopesWithin(t: Table, limit: real)
  {
    forall i :: 0 <= i < |t.pieces| ==> 0.0 <= t.pieces[i].slope <= limit
  }

  /** A value exactly on a bound is evaluated by the formula of the segment
      below it. */
  lemma BoundUsesLowerSegment(t: Table, i: int)
    requires Valid(t) && 0 <= i < |t.bounds|
    ensures Lookup(t, t.bounds[i]) == Eval(t.pieces[i], t.bounds[i])
  {
    if i > 0 {
      assert t.bounds[i - 1] < t.bounds[i];
    }
    SelectsSegment(t, i, t.bounds[i]);
  }

  /** Rising formulas that never drop at a bound make the whole table strictly increasing. */
  lemma {:induction false} StrictlyIncreasing(t: Table, a: real, b: real)
    requires Rising(t) && NoDrop(t) && a < b
    ensures Lookup(t, a) < Lookup(t, b)
    decreases |t.bounds|
  {
    if |t.bounds| == 0 || b <= t.bounds[0] {
      EvalStrict(t.pieces[0], a, b);
    } else if a <= t.bounds[0] {
      var c := t.bounds[0];
      var r := Rest(t);
      if a < c {
        EvalStrict(t.pieces[0], a, c);
      }
      assert Eval(t.pieces[0], c) <= Eval(t.pieces[1], c);
      if |r.bounds| > 0 {
        assert c < t.bounds[1];
      }
      assert Lookup(r, c) == Eval(r.pieces[0], c);
      StrictlyIncreasing(r, c, b);
    } else {
      StrictlyIncreasing(Rest(t), a, b);
    }
  }

  /** A continuous table whose slopes are at most `limit` never rises faster
      than `limit`: it is continuous everywhere, with no jump at any bound. */
  lemma {:induction false} RiseBounded(t: Table, limit: real, a: real, b: real)
    requires Continuous(t) && SlopesWithin(t, limit) && a <= b
    ensures 0.0 <= Lookup(t, b) - Lookup(t, a) <= limit * (b - a)
    decreases |t.bounds|
  {
    if |t.bounds| == 0 || b <= t.bounds[0] {
      EvalSteps(t.pieces[0], a, b, limit);
    } else if a <= t.bounds[0] {
      var c := t.bounds[0];
      var r := Rest(t);
      EvalSteps(t.pieces[0], a, c, limit);
      assert Eval(t.pieces[0], c) == Eval(t.pieces[1], c);
      if |r.bounds| > 0 {
        assert c < t.bounds[1];
      }
      assert Lookup(r, c) == Eval(r.pieces[0], c);
      RiseBounded(r, limit, c, b);
      assert limit * (b - c) + limit * (c - a) == limit * (b - a);
    } else {
      RiseBounded(Rest(t), limit, a, b);
    }
  }

  /** The six-way branch chain of a table with five finite bounds. */
  function Chain(t: Table, v: real): real
    requires |t.bounds| == 5 && |t.pieces| == 6
  {
    if v <= t.bounds[0] then Eval(t.pieces[0], v)
    else if v <= t.bounds[1] then Eval(t.pieces[1], v)
    else if v <= t.bounds[2] then Eval(t.pieces[2], v)
    else if v <= t.bounds[3] then Eval(t.pieces[3], v)
    else if v <= t.bounds[4] then Eval(t.pieces[4], v)
    else Eval(t.pieces[5], v)
  }

  /** A table with five finite bounds is evaluated by the six-way branch chain. */
  lemma UnrollFive(t: Table, v: real)
    requires Valid(t) && |t.bounds| == 5
    ensures Lookup(t, v) == Chain(t, v)
  {
    if v <= t.bounds[0] {
      SelectsSegment(t, 0, v);
    } else if v <= t.bounds[1] {
      SelectsSegment(t, 1, v);
    } else if v <= t.bounds[2] {
      SelectsSegment(t, 2, v);
    } else if v <= t.bounds[3] {
      SelectsSegment(t, 3, v);
    } else if v <= t.bounds[4] {
      SelectsSegment(t, 4, v);
    } else {
      SelectsSegment(t, 5, v);
    }
  }
}
