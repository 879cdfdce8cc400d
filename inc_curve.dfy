/** The incremental-capacity curve builder: from the ordered (charge, voltage)
    samples of a battery to the rows of its dQ/dV table. */
module IncCurve {
  import opened Common
  import opened Indexing

  /** One ICA sample: the charge and the voltage of one measurement step. */
  datatype Sample = Sample(charge: real, voltage: real)

  /** One row of the dQ/dV table. `rowLabel` is the row's index label, assigned
      contiguously by `reset_index` after the duplicates are dropped; rows
      removed later by the non-negative filter leave gaps in the labels. */
  datatype Row = Row(rowLabel: nat, voltage: real, charge: real, dV: real, dQ: real, dQdV: real)

  /** The sample count that selects the first stage (all samples). */
  const FirstStage: int := 30
  /** The sample count that the second-stage analysis asks for. */
  const SecondStage: int := 60
  /** Any stage other than the first reads the slice `[30:61]`. */
  const WindowStart: nat := 30
  const WindowEnd: nat := 61

  /** The samples a stage reads: none unless the battery has exactly `staps`
      samples (and at least one, since the count comes from a join that yields
      no group for a battery without samples); all of them for stage 30, and
      the slice `[30:61]` of them for any other stage. */
  function StageSamples(ica: seq<Sample>, staps: int): (w: Option<seq<Sample>>)
    ensures w.Some? <==> 0 < |ica| && |ica| == staps
    ensures w.Some? && staps == FirstStage ==> w.value == ica
    ensures w.Some? && staps != FirstStage ==>
      |w.value| == (if staps <= 30 then 0 else if staps <= 61 then staps - 30 else 31) &&
      forall k :: 0 <= k < |w.value| ==> w.value[k] == ica[WindowStart + k]
  {
    if |ica| == 0 || |ica| != staps then None
    else if staps == FirstStage then Some(ica)
    else Some(Slice(ica, WindowStart, WindowEnd))
  }

  /** With 60 samples, the second stage reads the 30 samples at positions 30 to 59. */
  lemma SecondStageWindow(ica: seq<Sample>)
    requires |ica| == SecondStage
    ensures StageSamples(ica, SecondStage) == Some(ica[30..60])
  {
    var w := StageSamples(ica, SecondStage).value;
    assert |w| == 30;
    assert forall k :: 0 <= k < 30 ==> w[k] == ica[30..60][k];
    assert w == ica[30..60];
  }

  // ---------------------------------------------------------------------------
  // drop_duplicates(subset=['roundedV'])
  // ---------------------------------------------------------------------------

  /** Sample `i` is the first with its rounded voltage. */
  predicate FirstOccurrence(s: seq<Sample>, round3: real -> int, i: int)
    requires 0 <= i < |s|
  {
    forall j :: 0 <= j < i ==> round3(s[j].voltage) != round3(s[i].voltage)
  }

  lemma PrefixFirstOccurrence(s: seq<Sample>, round3: real -> int, n: nat)
    requires n <= |s|
    ensures forall i :: 0 <= i < n ==> (FirstOccurrence(s[..n], round3, i) <==> FirstOccurrence(s, round3, i))
  {
    assert forall j :: 0 <= j < n ==> s[..n][j] == s[j];
  }

  /** The positions drop_duplicates keeps: exactly the first occurrences, in
      increasing order. */
  function KeptPositions(s: seq<Sample>, round3: real -> int): (kp: seq<nat>)
    ensures forall k :: 0 <= k < |kp| ==> kp[k] < |s| && FirstOccurrence(s, round3, kp[k])
    ensures forall k, m :: 0 <= k < m < |kp| ==> kp[k] < kp[m]
    ensures forall i :: 0 <= i < |s| && FirstOccurrence(s, round3, i) ==> i in kp
    decreases |s|
  {
    if |s| == 0 then []
    else
      var n := |s| - 1;
      PrefixFirstOccurrence(s, round3, n);
      KeptPositions(s[..n], round3) + if FirstOccurrence(s, round3, n) then [n] else []
  }

  /** A strictly increasing sequence of positions below n has at most n entries. */
  lemma {:induction false} IncreasingBounded(kp: seq<nat>, n: nat)
    requires forall k :: 0 <= k < |kp| ==> kp[k] < n
    requires forall k, m :: 0 <= k < m < |kp| ==> kp[k] < kp[m]
    ensures |kp| <= n
  {
    if |kp| > 0 {
      var last := kp[|kp| - 1];
      IncreasingBounded(kp[..|kp| - 1], last);
    }
  }

  /** Every rounded voltage has a first occurrence at or before any sample carrying it. */
  lemma {:induction false} FirstOccurrenceExists(s: seq<Sample>, round3: real -> int, i: nat)
    requires i < |s|
    ensures exists f :: 0 <= f <= i && round3(s[f].voltage) == round3(s[i].voltage) && FirstOccurrence(s, round3, f)
  {
    if !FirstOccurrence(s, round3, i) {
      var j :| 0 <= j < i && round3(s[j].voltage) == round3(s[i].voltage);
      FirstOccurrenceExists(s, round3, j);
    }
  }

  /** `drop_duplicates(subset=['roundedV'])` followed by `reset_index`: the
      samples at the kept positions. */
  function DropDuplicateVoltages(s: seq<Sample>, round3: real -> int): (d: seq<Sample>)
    ensures |d| <= |s|
    ensures forall k, m :: 0 <= k < m < |d| ==> round3(d[k].voltage) != round3(d[m].voltage)
    ensures forall i :: 0 <= i < |s| ==>
      exists k :: 0 <= k < |d| && round3(d[k].voltage) == round3(s[i].voltage)
  {
    var kp := KeptPositions(s, round3);
    var d := seq(|kp|, k requires 0 <= k < |kp| => s[kp[k]]);
    KeptRowsFacts(s, round3, kp, d);
    d
  }

  lemma KeptRowsFacts(s: seq<Sample>, round3: real -> int, kp: seq<nat>, d: seq<Sample>)
    requires kp == KeptPositions(s, round3)
    requires |d| == |kp| && forall k :: 0 <= k < |d| ==> d[k] == s[kp[k]]
    ensures |d| <= |s|
    ensures forall k, m :: 0 <= k < m < |d| ==> round3(d[k].voltage) != round3(d[m].voltage)
    ensures forall i :: 0 <= i < |s| ==>
      exists k :: 0 <= k < |d| && round3(d[k].voltage) == round3(s[i].voltage)
  {
    IncreasingBounded(kp, |s|);
    forall k, m | 0 <= k < m < |d|
      ensures round3(d[k].voltage) != round3(d[m].voltage)
    {
      assert kp[k] < kp[m];
      assert FirstOccurrence(s, round3, kp[m]);
      assert d[k] == s[kp[k]] && d[m] == s[kp[m]];
    }
    forall i | 0 <= i < |s|
      ensures exists k :: 0 <= k < |d| && round3(d[k].voltage) == round3(s[i].voltage)
    {
      FirstOccurrenceExists(s, round3, i);
      var f :| 0 <= f <= i && round3(s[f].voltage) == round3(s[i].voltage) && FirstOccurrence(s, round3, f);
      assert f in kp;
      var k :| 0 <= k < |kp| && kp[k] == f;
      assert d[k] == s[f];
    }
  }

  /** The kept rows are the first occurrences of `s`, in their original order. */
  lemma DropDuplicatesKeepsFirst(s: seq<Sample>, round3: real -> int)
    ensures var kp := KeptPositions(s, round3);
      var d := DropDuplicateVoltages(s, round3);
      |d| == |kp| && forall k :: 0 <= k < |d| ==> d[k] == s[kp[k]]
  {
  }

  // ---------------------------------------------------------------------------
  // diff(), dQ/dV and fillna(0)
  // ---------------------------------------------------------------------------

  /** Consecutive rows have different voltages, so every dV after the first is non-zero. */
  predicate DistinctNeighbours(d: seq<Sample>) {
    forall k :: 1 <= k < |d| ==> d[k].voltage != d[k - 1].voltage
  }

  /** Rows with distinct rounded voltages have distinct voltages. */
  lemma DistinctKeysDistinctVoltages(d: seq<Sample>, round3: real -> int)
    requires forall k, m :: 0 <= k < m < |d| ==> round3(d[k].voltage) != round3(d[m].voltage)
    ensures DistinctNeighbours(d)
  {
    forall k | 1 <= k < |d|
      ensures d[k].voltage != d[k - 1].voltage
    {
      assert round3(d[k - 1].voltage) != round3(d[k].voltage);
    }
  }

  /** Row k of the table: `diff()` leaves NaN in row 0 and `fillna(0)` turns the
      three derived columns of that row into 0. */
  function DiffRow(d: seq<Sample>, k: nat): (row: Row)
    requires k < |d| && DistinctNeighbours(d)
    ensures row.rowLabel == k && row.voltage == d[k].voltage && row.charge == d[k].charge
    ensures k == 0 ==> row.dV == 0.0 && row.dQ == 0.0 && row.dQdV == 0.0
    ensures k > 0 ==> row.dV == d[k].voltage - d[k - 1].voltage && row.dQ == d[k].charge - d[k - 1].charge
    ensures k > 0 ==> row.dV != 0.0 && row.dQdV * row.dV == row.dQ
  {
    if k == 0 then Row(0, d[0].voltage, d[0].charge, 0.0, 0.0, 0.0)
    else
      var dV := d[k].voltage - d[k - 1].voltage;
      var dQ := d[k].charge - d[k - 1].charge;
      Row(k, d[k].voltage, d[k].charge, dV, dQ, dQ / dV)
  }

  /** The table with the `dV`, `Charge_dQ` and `dQ/dV` columns. */
  function Differences(d: seq<Sample>): (rows: seq<Row>)
    requires DistinctNeighbours(d)
    ensures |rows| == |d|
    ensures forall k :: 0 <= k < |d| ==> rows[k] == DiffRow(d, k)
  {
    seq(|d|, k requires 0 <= k < |d| => DiffRow(d, k))
  }

  /** The sum of the first n entries of the dV column. */
  function SumDV(rows: seq<Row>, n: nat): real
    requires n <= |rows|
  {
    if n == 0 then 0.0 else SumDV(rows, n - 1) + rows[n - 1].dV
  }

  /** The sum of the first n entries of the dQ column. */
  function SumDQ(rows: seq<Row>, n: nat): real
    requires n <= |rows|
  {
    if n == 0 then 0.0 else SumDQ(rows, n - 1) + rows[n - 1].dQ
  }

  /** The differences undo: the first voltage and charge plus the cumulative
      sum of dV and dQ up to row k give back the voltage and charge of row k. */
  lemma {:induction false} DifferencesTelescope(d: seq<Sample>, n: nat)
    requires DistinctNeighbours(d)
    requires 0 < n <= |d|
    ensures d[0].voltage + SumDV(Differences(d), n) == d[n - 1].voltage
    ensures d[0].charge + SumDQ(Differences(d), n) == d[n - 1].charge
  {
    if n > 1 {
      DifferencesTelescope(d, n - 1);
    }
  }

  // ---------------------------------------------------------------------------
  // data[data['dQ/dV'] >= 0]
  // ---------------------------------------------------------------------------

  /** Labels strictly increase down the table. */
  predicate LabelsIncreasing(rows: seq<Row>) {
    forall i, j :: 0 <= i < j < |rows| ==> rows[i].rowLabel < rows[j].rowLabel
  }

  /** The rows whose dQ/dV is not negative, in their original order and with
      their labels. */
  function KeepNonNegative(rows: seq<Row>): (r: seq<Row>)
    ensures |r| <= |rows|
    ensures forall x :: x in r <==> x in rows && x.dQdV >= 0.0
    ensures LabelsIncreasing(rows) ==> LabelsIncreasing(r)
    ensures |r| == |rows| ==> r == rows
  {
    if |rows| == 0 then []
    else
      var tail := KeepNonNegative(rows[1..]);
      KeepHeadAndTail(rows, tail);
      if rows[0].dQdV >= 0.0 then [rows[0]] + tail else tail
  }

  lemma KeepHeadAndTail(rows: seq<Row>, tail: seq<Row>)
    requires |rows| > 0
    requires |tail| <= |rows| - 1
    requires forall x :: x in tail <==> x in rows[1..] && x.dQdV >= 0.0
    requires LabelsIncreasing(rows[1..]) ==> LabelsIncreasing(tail)
    requires |tail| == |rows| - 1 ==> tail == rows[1..]
    ensures var r := if rows[0].dQdV >= 0.0 then [rows[0]] + tail else tail;
      (forall x :: x in r <==> x in rows && x.dQdV >= 0.0) &&
      (LabelsIncreasing(rows) ==> LabelsIncreasing(r)) &&
      (|r| == |rows| ==> r == rows)
  {
    assert rows == [rows[0]] + rows[1..];
    if LabelsIncreasing(rows) {
      assert LabelsIncreasing(rows[1..]);
      forall k | 0 <= k < |tail|
        ensures rows[0].rowLabel < tail[k].rowLabel
      {
        assert tail[k] in rows[1..];
      }
    }
  }

  /** `make_inc_curve(staps)`: no curve unless the count guard holds; otherwise
      the stage's samples, deduplicated on rounded voltage, differenced, and
      filtered to non-negative dQ/dV. */
  function MakeIncCurve(ica: seq<Sample>, staps: int, round3: real -> int): (curve: Option<seq<Row>>)
    ensures curve.Some? <==> 0 < |ica| && |ica| == staps
  {
    match StageSamples(ica, staps)
    case None => None
    case Some(w) =>
      var d := DropDuplicateVoltages(w, round3);
      DistinctKeysDistinctVoltages(d, round3);
      Some(KeepNonNegative(Differences(d)))
  }

  /** The table of the stage before the non-negative filter: row k, labelled
      k, carries the voltage and charge of the k-th first occurrence of a
      rounded voltage in the stage, and no rounded voltage appears twice. */
  function Deduplicated(ica: seq<Sample>, staps: int, round3: real -> int): (rows: seq<Row>)
    requires 0 < |ica| && |ica| == staps
    ensures var w := StageSamples(ica, staps).value;
      var kp := KeptPositions(w, round3);
      |rows| == |kp| &&
      forall k :: 0 <= k < |rows| ==>
        rows[k].rowLabel == k && rows[k].voltage == w[kp[k]].voltage && rows[k].charge == w[kp[k]].charge
    ensures forall k, m :: 0 <= k < m < |rows| ==> round3(rows[k].voltage) != round3(rows[m].voltage)
  {
    var w := StageSamples(ica, staps).value;
    var d := DropDuplicateVoltages(w, round3);
    DropDuplicatesKeepsFirst(w, round3);
    DistinctKeysDistinctVoltages(d, round3);
    Differences(d)
  }

  /** The curve is the deduplicated table with the negative dQ/dV rows removed. */
  lemma CurveFiltersDeduplicated(ica: seq<Sample>, staps: int, round3: real -> int)
    requires 0 < |ica| && |ica| == staps
    ensures MakeIncCurve(ica, staps, round3) == Some(KeepNonNegative(Deduplicated(ica, staps, round3)))
  {
  }

  /** Each curve row is the deduplicated row of its label, and labels increase. */
  lemma CurveRowsAreLabelledRows(ica: seq<Sample>, staps: int, round3: real -> int)
    requires 0 < |ica| && |ica| == staps
    ensures var c := MakeIncCurve(ica, staps, round3).value;
      var rows := Deduplicated(ica, staps, round3);
      |c| <= |rows| && LabelsIncreasing(c) &&
      forall j :: 0 <= j < |c| ==> c[j].rowLabel < |rows| && c[j] == rows[c[j].rowLabel]
  {
    var c := MakeIncCurve(ica, staps, round3).value;
    var rows := Deduplicated(ica, staps, round3);
    CurveFiltersDeduplicated(ica, staps, round3);
    assert LabelsIncreasing(rows);
    forall j | 0 <= j < |c|
      ensures c[j].rowLabel < |rows| && c[j] == rows[c[j].rowLabel]
    {
      assert c[j] in rows;
      var k :| 0 <= k < |rows| && rows[k] == c[j];
    }
  }

  /** What every curve satisfies: at most as many rows as the stage has
      samples, no two rows with the same rounded voltage, and no negative dQ/dV. */
  lemma CurveProperties(ica: seq<Sample>, staps: int, round3: real -> int)
    requires 0 < |ica| && |ica| == staps
    ensures var c := MakeIncCurve(ica, staps, round3).value;
      |c| <= |StageSamples(ica, staps).value| &&
      (forall j, k :: 0 <= j < k < |c| ==> round3(c[j].voltage) != round3(c[k].voltage)) &&
      (forall j :: 0 <= j < |c| ==> c[j].dQdV >= 0.0)
  {
    var c := MakeIncCurve(ica, staps, round3).value;
    var rows := Deduplicated(ica, staps, round3);
    var d := DropDuplicateVoltages(StageSamples(ica, staps).value, round3);
    CurveFiltersDeduplicated(ica, staps, round3);
    CurveRowsAreLabelledRows(ica, staps, round3);
    forall j | 0 <= j < |c|
      ensures c[j].dQdV >= 0.0
    {
      assert c[j] in c;
    }
    forall j, k | 0 <= j < k < |c|
      ensures round3(c[j].voltage) != round3(c[k].voltage)
    {
      var a, b := c[j].rowLabel, c[k].rowLabel;
      assert a < b;
      assert c[j].voltage == d[a].voltage && c[k].voltage == d[b].voltage;
    }
  }

  /** The first row of a curve from a non-empty stage is the stage's first
      sample with dV, dQ and dQ/dV all 0: row 0 is never dropped, since
      fillna makes its dQ/dV 0. */
  lemma CurveFirstRowZero(ica: seq<Sample>, staps: int, round3: real -> int)
    requires 0 < |ica| && |ica| == staps
    requires staps == FirstStage || staps > WindowStart
    ensures var c := MakeIncCurve(ica, staps, round3).value;
      |c| > 0 && c[0].rowLabel == 0 && c[0].voltage == StageSamples(ica, staps).value[0].voltage &&
      c[0].dV == 0.0 && c[0].dQ == 0.0 && c[0].dQdV == 0.0
  {
    var c := MakeIncCurve(ica, staps, round3).value;
    var w := StageSamples(ica, staps).value;
    var rows := Deduplicated(ica, staps, round3);
    CurveFiltersDeduplicated(ica, staps, round3);
    CurveRowsAreLabelledRows(ica, staps, round3);
    var d := DropDuplicateVoltages(w, round3);
    DropDuplicatesKeepsFirst(w, round3);
    var kp := KeptPositions(w, round3);
    assert FirstOccurrence(w, round3, 0);
    assert 0 in kp;
    assert kp[0] == 0;
    assert rows[0] in c;
    var j :| 0 <= j < |c| && c[j] == rows[0];
  }

  /** Every row voltage is the voltage of one of the stage's samples. */
  lemma CurveVoltagesAreSampled(ica: seq<Sample>, staps: int, round3: real -> int)
    requires 0 < |ica| && |ica| == staps
    ensures var c := MakeIncCurve(ica, staps, round3).value;
      var w := StageSamples(ica, staps).value;
      forall j :: 0 <= j < |c| ==> exists i :: 0 <= i < |w| && w[i].voltage == c[j].voltage
  {
    var c := MakeIncCurve(ica, staps, round3).value;
    var w := StageSamples(ica, staps).value;
    CurveRowsAreLabelledRows(ica, staps, round3);
    DropDuplicatesKeepsFirst(w, round3);
    var kp := KeptPositions(w, round3);
    forall j | 0 <= j < |c|
      ensures exists i :: 0 <= i < |w| && w[i].voltage == c[j].voltage
    {
      var l := c[j].rowLabel;
      assert w[kp[l]].voltage == c[j].voltage;
    }
  }

  /** Every row voltage of the second-stage curve is the voltage of one of
      the ICA samples at positions 30 to 59. */
  lemma SecondStageVoltagesAreSampled(ica: seq<Sample>, round3: real -> int)
    requires |ica| == SecondStage
    ensures var c := MakeIncCurve(ica, SecondStage, round3).value;
      forall row :: row in c ==> exists i :: 30 <= i < 60 && ica[i].voltage == row.voltage
  {
    CurveVoltagesAreSampled(ica, SecondStage, round3);
    SecondStageWindow(ica);
    WindowVoltagesAreSampled(ica, MakeIncCurve(ica, SecondStage, round3).value);
  }

  lemma WindowVoltagesAreSampled(ica: seq<Sample>, c: seq<Row>)
    requires |ica| == SecondStage
    requires forall j :: 0 <= j < |c| ==>
      exists i :: 0 <= i < |ica[30..60]| && ica[30..60][i].voltage == c[j].voltage
    ensures forall row :: row in c ==> exists i :: 30 <= i < 60 && ica[i].voltage == row.voltage
  {
    var w := ica[30..60];
    forall row | row in c
      ensures exists i :: 30 <= i < 60 && ica[i].voltage == row.voltage
    {
      var j :| 0 <= j < |c| && c[j] == row;
      var i :| 0 <= i < |w| && w[i].voltage == c[j].voltage;
      assert ica[30 + i] == w[i];
    }
  }

  // ---------------------------------------------------------------------------
  // Label lookup
  // ---------------------------------------------------------------------------

  /** The position of the row labelled `wanted`, as `Series[wanted]` finds it. */
  function FindLabel(curve: seq<Row>, wanted: int): (r: Option<nat>)
    ensures r.Some? ==> r.value < |curve| && curve[r.value].rowLabel == wanted
    ensures r.None? ==> forall j :: 0 <= j < |curve| ==> curve[j].rowLabel != wanted
  {
    if |curve| == 0 then None
    else if curve[0].rowLabel == wanted then Some(0)
    else match FindLabel(curve[1..], wanted)
      case None => None
      case Some(j) => Some(j + 1)
  }

  /** With increasing labels the lookup finds exactly the row with that label. */
  lemma FindLabelUnique(curve: seq<Row>, j: nat)
    requires LabelsIncreasing(curve) && j < |curve|
    ensures FindLabel(curve, curve[j].rowLabel) == Some(j)
  {
  }

  /** When the filter drops no row, labels are positions, so a label lookup
      reads the same row as a positional one. */
  lemma NoDropLabelIsPosition(ica: seq<Sample>, staps: int, round3: real -> int)
    requires 0 < |ica| && |ica| == staps
    ensures var c := MakeIncCurve(ica, staps, round3).value;
      |c| == |Deduplicated(ica, staps, round3)| ==>
        forall j :: 0 <= j < |c| ==> FindLabel(c, j) == Some(j)
  {
    var c := MakeIncCurve(ica, staps, round3).value;
    CurveFiltersDeduplicated(ica, staps, round3);
    CurveRowsAreLabelledRows(ica, staps, round3);
    if |c| == |Deduplicated(ica, staps, round3)| {
      assert c == Deduplicated(ica, staps, round3);
      forall j | 0 <= j < |c|
        ensures FindLabel(c, j) == Some(j)
      {
        FindLabelUnique(c, j);
      }
    }
  }
}
