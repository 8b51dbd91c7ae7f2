/** The explanation table: each feature's attribution value labelled with its
    direction, ordered by magnitude, first six rows shown (app.py lines 135-144). */
module Attribution {

  datatype Impact = IncreasesRisk | DecreasesRisk

  /** One row of the explanation table. */
  datatype Row = Row(feature: string, value: real, impact: Impact)

  function Abs(x: real): real {
    if x < 0.0 then -x else x
  }

  /** Number of rows the table shows. */
  const ShownRows: nat := 6

  /** The direction label: only a strictly positive value increases risk; zero
      counts as decreasing it. */
  function ImpactOf(v: real): (i: Impact)
    ensures i == IncreasesRisk <==> v > 0.0
    ensures i == DecreasesRisk <==> v <= 0.0
  {
    if v > 0.0 then IncreasesRisk else DecreasesRisk
  }

  /** The unsorted table: one row per feature, in feature order, each value
      labelled by its sign. */
  function LabelRows(features: seq<string>, values: seq<real>): (rows: seq<Row>)
    requires |features| == |values|
    ensures |rows| == |features|
    ensures forall i :: 0 <= i < |rows| ==>
      rows[i].feature == features[i] && rows[i].value == values[i]
      && (rows[i].impact == IncreasesRisk <==> values[i] > 0.0)
  {
    seq(|features|, i requires 0 <= i < |features| => Row(features[i], values[i], ImpactOf(values[i])))
  }

  /** Rows in non-increasing order of absolute value. */
  predicate ByMagnitude(rows: seq<Row>) {
    forall i, j :: 0 <= i < j < |rows| ==> Abs(rows[i].value) >= Abs(rows[j].value)
  }

  /** A row at least as large as every row of an ordered table can head it. */
  lemma ConsByMagnitude(h: Row, t: seq<Row>)
    requires ByMagnitude(t)
    requires forall y :: y in multiset(t) ==> Abs(h.value) >= Abs(y.value)
    ensures ByMagnitude([h] + t)
  {
    var s := [h] + t;
    forall i, j | 0 <= i < j < |s|
      ensures Abs(s[i].value) >= Abs(s[j].value)
    {
      if i == 0 {
        assert s[j] == t[j - 1];
        assert s[j] in multiset(t);
      } else {
        assert s[i] == t[i - 1] && s[j] == t[j - 1];
      }
    }
  }

  /** Places a row into a magnitude-ordered table. */
  function Insert(x: Row, rows: seq<Row>): (r: seq<Row>)
    requires ByMagnitude(rows)
    ensures ByMagnitude(r)
    ensures multiset(r) == multiset(rows) + multiset{x}
    ensures |r| == |rows| + 1
  {
    if |rows| == 0 then [x]
    else if Abs(x.value) >= Abs(rows[0].value) then
      ConsByMagnitude(x, rows);
      [x] + rows
    else
      var tail := Insert(x, rows[1..]);
      assert rows == [rows[0]] + rows[1..];
      assert forall y :: y in multiset(rows[1..]) ==> Abs(rows[0].value) >= Abs(y.value);
      ConsByMagnitude(rows[0], tail);
      [rows[0]] + tail
  }

  /** Sorts rows by descending absolute value. Rows of equal magnitude may come out
      in any order. */
  function SortByMagnitude(rows: seq<Row>): (r: seq<Row>)
    ensures ByMagnitude(r)
    ensures multiset(r) == multiset(rows)
    ensures |r| == |rows|
  {
    if |rows| == 0 then []
    else
      assert rows == [rows[0]] + rows[1..];
      Insert(rows[0], SortByMagnitude(rows[1..]))
  }

  function Min(a: nat, b: nat): nat {
    if a <= b then a else b
  }

  /** In a magnitude-ordered table, every row of a prefix is at least as large as
      every row after it. */
  lemma PrefixDominatesSuffix(sorted: seq<Row>, k: nat)
    requires ByMagnitude(sorted) && k <= |sorted|
    ensures forall x, y :: x in sorted[..k] && y in multiset(sorted[k..]) ==> Abs(x.value) >= Abs(y.value)
  {
    forall x, y | x in sorted[..k] && y in multiset(sorted[k..])
      ensures Abs(x.value) >= Abs(y.value)
    {
      var i :| 0 <= i < k && sorted[..k][i] == x;
      assert y in sorted[k..];
      var j :| 0 <= j < |sorted| - k && sorted[k..][j] == y;
      assert sorted[i] == x && sorted[k + j] == y;
    }
  }

  /** Removing a prefix's rows from the whole leaves the suffix's rows. */
  lemma PrefixSuffixSplit(s: seq<Row>, k: nat)
    requires k <= |s|
    ensures multiset(s) - multiset(s[..k]) == multiset(s[k..])
    ensures multiset(s[..k]) <= multiset(s)
  {
    assert s == s[..k] + s[k..];
  }

  /** The rows shown: the first `ShownRows` of the magnitude order. Every shown row
      comes from the input (as often as it occurs there at most), and none is
      smaller in magnitude than any row left out. */
  function TopAttributions(rows: seq<Row>): (top: seq<Row>)
    ensures |top| == Min(ShownRows, |rows|)
    ensures multiset(top) <= multiset(rows)
    ensures ByMagnitude(top)
    ensures forall x, y :: x in top && y in multiset(rows) - multiset(top) ==> Abs(x.value) >= Abs(y.value)
  {
    var sorted := SortByMagnitude(rows);
    var k := Min(ShownRows, |rows|);
    PrefixSuffixSplit(sorted, k);
    PrefixDominatesSuffix(sorted, k);
    sorted[..k]
  }

  /** The table the page shows for the scorer's feature names and the attribution
      values aligned with them: labelled rows, at most as often as each occurs, none
      smaller in magnitude than a row left out. */
  function Explanation(features: seq<string>, values: seq<real>): (shown: seq<Row>)
    requires |features| == |values|
    ensures |shown| == Min(ShownRows, |features|)
    ensures ByMagnitude(shown)
    ensures forall x :: x in shown ==> exists i :: 0 <= i < |features| && x == Row(features[i], values[i], ImpactOf(values[i]))
    ensures forall x :: x in shown ==> (x.impact == IncreasesRisk <==> x.value > 0.0)
    ensures multiset(shown) <= multiset(LabelRows(features, values))
    ensures forall x, y ::
      (x in shown && y in multiset(LabelRows(features, values)) - multiset(shown)
       ==> Abs(x.value) >= Abs(y.value))
  {
    var rows := LabelRows(features, values);
    var shown := TopAttributions(rows);
    assert forall x :: x in shown ==> x in rows by {
      forall x | x in shown
        ensures x in rows
      {
        assert x in multiset(shown);
      }
    }
    shown
  }
}
