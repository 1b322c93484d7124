/** The `Chart` class of src/chart.js: it stores a sequence of x values and a
    sequence of y values, and renders them as a sequence of `{x, y}` points,
    one per x value, the y taken from the same index.  The two sequences may
    have different lengths: the class neither checks nor reports it. */
module Charts {
  import opened Wrappers

  /** One rendered point `{x, y}`; `y` is `None` where JavaScript yields `undefined`. */
  datatype Point<X, Y> = Point(x: X, y: Option<Y>)

  /** `s[i]` as JavaScript evaluates it on an array: the element, or
      `undefined` (no error) when the index lies past the end. */
  function At<T>(s: seq<T>, i: nat): (r: Option<T>)
    ensures r.Some? <==> i < |s|
    ensures r.Some? ==> r.value == s[i]
  {
    if i < |s| then Some(s[i]) else None
  }

  function Min(a: nat, b: nat): (m: nat)
  {
    if a <= b then a else b
  }

  /** The `map` over the x values in `render()`: point `i` pairs `xs[i]`
      with `ys[i]`, read the JavaScript way. */
  function Points<X, Y>(xs: seq<X>, ys: seq<Y>): (points: seq<Point<X, Y>>)
    ensures |points| == |xs|
    ensures forall i :: 0 <= i < |points| ==> points[i].x == xs[i]
    ensures forall i :: 0 <= i < |points| && i < |ys| ==> points[i].y == Some(ys[i])
    ensures forall i :: 0 <= i < |points| ==> (points[i].y == None <==> |ys| <= i)
  {
    seq(|xs|, i requires 0 <= i < |xs| => Point(xs[i], At(ys, i)))
  }

  // ---------------------------------------------------------------------------
  // An independent reference definition and two projections
  // ---------------------------------------------------------------------------

  function First<T>(s: seq<T>): (head: Option<T>)
  {
    if s == [] then None else Some(s[0])
  }

  function Rest<T>(s: seq<T>): (tail: seq<T>)
  {
    if s == [] then [] else s[1..]
  }

  /** Reference definition of rendering: walk both sequences in step, pairing
      their heads; once the y values run out, every remaining y is `None`. */
  function Zip<X, Y>(xs: seq<X>, ys: seq<Y>): (points: seq<Point<X, Y>>)
    ensures |points| == |xs|
    decreases |xs|
  {
    if xs == [] then [] else [Point(xs[0], First(ys))] + Zip(xs[1..], Rest(ys))
  }

  /** The x coordinates of a sequence of points, in order. */
  function Xs<X, Y>(points: seq<Point<X, Y>>): (xs: seq<X>)
  {
    if points == [] then [] else [points[0].x] + Xs(points[1..])
  }

  /** The defined y coordinates of a sequence of points, in order; a point
      whose y is undefined contributes nothing. */
  function DefinedYs<X, Y>(points: seq<Point<X, Y>>): (ys: seq<Y>)
  {
    if points == [] then []
    else (match points[0].y case Some(y) => [y] case None => []) + DefinedYs(points[1..])
  }

  // ---------------------------------------------------------------------------
  // Properties of rendering
  // ---------------------------------------------------------------------------

  /** The `map` expression agrees with the step-by-step reference definition. */
  lemma {:induction false} PointsIsZip<X, Y>(xs: seq<X>, ys: seq<Y>)
    ensures Points(xs, ys) == Zip(xs, ys)
  {
    if xs != [] {
      PointsIsZip(xs[1..], Rest(ys));
      var p, tail := Points(xs, ys), Points(xs[1..], Rest(ys));
      forall k | 0 <= k < |tail|
        ensures p[1..][k] == tail[k]
      {
        assert At(Rest(ys), k) == At(ys, k + 1);
      }
      assert p == [p[0]] + tail;
    }
  }

  lemma {:induction false} XsOfZip<X, Y>(xs: seq<X>, ys: seq<Y>)
    ensures Xs(Zip(xs, ys)) == xs
  {
    if xs != [] {
      var z, tail := Zip(xs, ys), Zip(xs[1..], Rest(ys));
      XsOfZip(xs[1..], Rest(ys));
      assert z == [Point(xs[0], First(ys))] + tail;
      assert z[1..] == tail;
      assert Xs(z) == [xs[0]] + Xs(tail);
      assert xs == [xs[0]] + xs[1..];
    }
  }

  lemma {:induction false} DefinedYsOfZip<X, Y>(xs: seq<X>, ys: seq<Y>)
    ensures DefinedYs(Zip(xs, ys)) == ys[..Min(|xs|, |ys|)]
  {
    if xs != [] {
      DefinedYsOfZip(xs[1..], Rest(ys));
      assert Zip(xs, ys)[1..] == Zip(xs[1..], Rest(ys));
      if ys != [] {
        assert ys[..Min(|xs|, |ys|)] == [ys[0]] + ys[1..][..Min(|xs| - 1, |ys| - 1)];
      }
    }
  }

  /** Rendering keeps every x value, in input order, and nothing else. */
  lemma XsOfPoints<X, Y>(xs: seq<X>, ys: seq<Y>)
    ensures Xs(Points(xs, ys)) == xs
  {
    PointsIsZip(xs, ys);
    XsOfZip(xs, ys);
  }

  /** The defined y values of the rendering are exactly the y values at the
      indices of x values, in order: a longer `ys` loses its tail, a shorter
      one is used whole. */
  lemma DefinedYsOfPoints<X, Y>(xs: seq<X>, ys: seq<Y>)
    ensures DefinedYs(Points(xs, ys)) == ys[..Min(|xs|, |ys|)]
  {
    PointsIsZip(xs, ys);
    DefinedYsOfZip(xs, ys);
  }

  /** When the y values do not outnumber the x values (in particular when
      the lengths are equal), rendering loses nothing: both inputs can be
      read back from the points. */
  lemma RoundTrip<X, Y>(xs: seq<X>, ys: seq<Y>)
    requires |ys| <= |xs|
    ensures Xs(Points(xs, ys)) == xs && DefinedYs(Points(xs, ys)) == ys
  {
    XsOfPoints(xs, ys);
    DefinedYsOfPoints(xs, ys);
    assert ys[..|ys|] == ys;
  }

  /** The y values at indices past the last x value are never read: only
      the leading `|xs|` of them decide the result. */
  lemma OnlyLeadingYsRead<X, Y>(xs: seq<X>, ys: seq<Y>)
    ensures Points(xs, ys) == Points(xs, ys[..Min(|xs|, |ys|)])
  {
  }

  /** Appending y values to a y sequence that already covers every x value
      leaves the rendering unchanged. */
  lemma ExtraYsIgnored<X, Y>(xs: seq<X>, ys: seq<Y>, extra: seq<Y>)
    requires |xs| <= |ys|
    ensures Points(xs, ys + extra) == Points(xs, ys)
  {
  }

  /** Concrete renderings: the input of the repository's Chart test, a y
      sequence that runs out early, and empty x values. */
  lemma Examples()
    ensures Points([1, 2], [10, 20]) == [Point(1, Some(10)), Point(2, Some(20))]
    ensures Points([1, 2, 3], [10]) == [Point(1, Some(10)), Point(2, None), Point(3, None)]
    ensures Points<int, int>([], [10, 20]) == []
  {
  }

  // ---------------------------------------------------------------------------
  // The class
  // ---------------------------------------------------------------------------

  class Chart<X, Y> {
    var xvalues: seq<X>
    var yvalues: seq<Y>

    /** Stores both sequences as given; unequal lengths are accepted. */
    constructor (xvalues: seq<X>, yvalues: seq<Y>)
      ensures this.xvalues == xvalues && this.yvalues == yvalues
    {
      this.xvalues := xvalues;
      this.yvalues := yvalues;
    }

    /** `render()`: reads the two fields, changes nothing, and so returns
        equal results however often it is called on the same chart. */
    function Render(): (points: seq<Point<X, Y>>)
      reads this
      ensures points == Zip(xvalues, yvalues)
      ensures Xs(points) == xvalues
      ensures DefinedYs(points) == yvalues[..Min(|xvalues|, |yvalues|)]
    {
      PointsIsZip(xvalues, yvalues);
      XsOfPoints(xvalues, yvalues);
      DefinedYsOfPoints(xvalues, yvalues);
      Points(xvalues, yvalues)
    }
  }
}
