/** `ProjectProgress`: per-phase progress figures, the overall percentage,
    and the pie chart built from them. */
module ProjectProgress {
  import opened Wrappers
  import opened Rounding

  /** One phase: work done (`concluído`) out of the work planned (`total`). */
  datatype ProgressEntry = ProgressEntry(name: string, done: int, total: int)

  datatype PieSlice = PieSlice(name: string, value: int)

  const ProgressData: seq<ProgressEntry> := [
    ProgressEntry("Planejamento", 100, 100),
    ProgressEntry("Design", 80, 100),
    ProgressEntry("Desenvolvimento", 45, 100),
    ProgressEntry("Testes", 20, 100),
    ProgressEntry("Lançamento", 0, 100)
  ]

  const Colors: seq<string> := ["#0088FE", "#00C49F", "#FFBB28", "#FF8042", "#8884d8"]

  /** `data.reduce((acc, item) => acc + item.concluído, 0)`. */
  function TotalDone(data: seq<ProgressEntry>): int
  {
    if |data| == 0 then 0 else data[0].done + TotalDone(data[1..])
  }

  /** `data.reduce((acc, item) => acc + item.total, 0)`. */
  function TotalPlanned(data: seq<ProgressEntry>): int
  {
    if |data| == 0 then 0 else data[0].total + TotalPlanned(data[1..])
  }

  /** `calculateOverallProgress`: the rounded percentage of all work done.
      `None` when nothing is planned, where the quotient is not a finite number. */
  function OverallProgress(data: seq<ProgressEntry>): (r: Option<int>)
    ensures r.None? <==> TotalPlanned(data) == 0
    ensures TotalPlanned(data) > 0 ==>
      2 * TotalPlanned(data) * r.value <= 200 * TotalDone(data) + TotalPlanned(data) < 2 * TotalPlanned(data) * (r.value + 1)
  {
    var done, planned := TotalDone(data), TotalPlanned(data);
    if planned > 0 then Some(RoundHalfUp(100 * done, planned))
    else if planned < 0 then Some(RoundHalfUp(-100 * done, -planned))
    else None
  }

  /** Every phase has done no more than it planned, and nothing negative. */
  predicate Consistent(data: seq<ProgressEntry>)
  {
    forall k :: 0 <= k < |data| ==> 0 <= data[k].done <= data[k].total
  }

  lemma {:induction false} TotalsOrdered(data: seq<ProgressEntry>)
    requires Consistent(data)
    ensures 0 <= TotalDone(data) <= TotalPlanned(data)
  {
    if |data| > 0 {
      TotalsOrdered(data[1..]);
    }
  }

  /** With consistent phases and some work planned, the overall progress is a
      percentage, 0 when nothing is done and 100 when everything is. */
  lemma OverallProgressBounds(data: seq<ProgressEntry>)
    requires Consistent(data) && TotalPlanned(data) > 0
    ensures OverallProgress(data).Some?
    ensures 0 <= OverallProgress(data).value <= 100
    ensures TotalDone(data) == 0 ==> OverallProgress(data).value == 0
    ensures TotalDone(data) == TotalPlanned(data) ==> OverallProgress(data).value == 100
  {
    TotalsOrdered(data);
    PercentBounds(TotalDone(data), TotalPlanned(data));
  }

  /** The overall progress is the nearest whole percentage to done/planned:
      it is off by at most half a percent. */
  lemma OverallProgressNearest(data: seq<ProgressEntry>)
    requires TotalPlanned(data) > 0
    ensures var r, d, p := OverallProgress(data).value, TotalDone(data), TotalPlanned(data);
      2 * p * r - p <= 200 * d < 2 * p * r + p
  {
  }

  /** For the dashboard's figures: 245 done of 500 planned, shown as 49%. */
  lemma FixedDataProgress()
    ensures TotalDone(ProgressData) == 245 && TotalPlanned(ProgressData) == 500
    ensures OverallProgress(ProgressData) == Some(49)
  {
    var d := ProgressData;
    assert d[1..][1..][1..][1..][1..] == [];
    assert TotalDone(d) == 245;
    assert TotalPlanned(d) == 500;
    RoundHalfUpUnique(100 * 245, 500, 49);
  }

  // ---------------------------------------------------------------------
  // The pie chart

  /** `progressData.map(item => ({ name: item.name, value: item.concluído }))`. */
  function PieData(data: seq<ProgressEntry>): (pie: seq<PieSlice>)
    ensures |pie| == |data|
  {
    seq(|data|, k requires 0 <= k < |data| => PieSlice(data[k].name, data[k].done))
  }

  function SliceTotal(pie: seq<PieSlice>): int
  {
    if |pie| == 0 then 0 else pie[0].value + SliceTotal(pie[1..])
  }

  /** The pie keeps the phases in order, one slice per phase named after it,
      and the slices add up to the total work done. */
  lemma {:induction false} PieDataFaithful(data: seq<ProgressEntry>)
    ensures forall k :: 0 <= k < |data| ==> PieData(data)[k].name == data[k].name && PieData(data)[k].value == data[k].done
    ensures SliceTotal(PieData(data)) == TotalDone(data)
  {
    if |data| > 0 {
      PieDataFaithful(data[1..]);
      assert PieData(data)[1..] == PieData(data[1..]);
    }
  }

  /** `COLORS[index % COLORS.length]`. */
  function SegmentColor(index: nat): (c: string)
    ensures c in Colors
  {
    Colors[index % |Colors|]
  }

  /** The colours repeat every five segments, and neighbouring segments differ. */
  lemma SegmentColorsCycle(index: nat)
    ensures SegmentColor(index + 5) == SegmentColor(index)
    ensures SegmentColor(index) != SegmentColor(index + 1)
  {
    assert (index + 1) % 5 == if index % 5 == 4 then 0 else index % 5 + 1;
  }
}
