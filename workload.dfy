/** The workload table of sender.py (class `flow`): the empirical flow-size
    distribution, weighted random choice over it, and the size accessors.

    In the Python code `flowSizes` and `flowWeights` are class attributes:
    one pair of lists shared by every `flow` object, which every
    construction appends to. `FlowTables` is that shared pair; each `Flow`
    holds a reference to it and its own `flowType`. */
module Workload {
  import opened Wrappers
  import opened PyOps
  import opened Priority

  const WebSearchFile: string := "flows/websearch.txt"
  const DataMiningFile: string := "flows/datamining.txt"
  /** The fixed reference means (class attributes `avgSearchSize`,
      `avgDataMiningSize`); they are not computed from the table. */
  const AvgSearchSize: int := 1620
  const AvgDataMiningSize: int := 9500

  /** One parsed line of a workload file: size bucket, flow count and
      cumulative fraction. */
  datatype CdfRow = CdfRow(size: real, count: real, cum: real)

  /** The two file names the `flow` constructor accepts. */
  predicate ValidWorkloadName(filename: string)
  {
    filename == WebSearchFile || filename == DataMiningFile
  }

  /** The sizes a load appends: `int(row[0])` for every row, in order. */
  function Sizes(rows: seq<CdfRow>): seq<int>
  {
    seq(|rows|, i requires 0 <= i < |rows| => TruncToInt(rows[i].size))
  }

  /** Cumulative value before row i; the running `prev` starts at 0. */
  function PrevCum(rows: seq<CdfRow>, i: nat): real
    requires i < |rows|
  {
    if i == 0 then 0.0 else rows[i - 1].cum
  }

  /** The weights a load appends: successive differences of the
      cumulative column. */
  function Weights(rows: seq<CdfRow>): seq<real>
  {
    seq(|rows|, i requires 0 <= i < |rows| => rows[i].cum - PrevCum(rows, i))
  }

  function Sum(s: seq<real>): real
  {
    if s == [] then 0.0 else Sum(s[..|s| - 1]) + s[|s| - 1]
  }

  /** The `totals` list of `weightedChoice`: entry i is the sum of the
      first i + 1 weights. */
  function RunningTotals(w: seq<real>): seq<real>
  {
    seq(|w|, i requires 0 <= i < |w| => Sum(w[..i + 1]))
  }

  /** The first index whose total exceeds `rnd`, or `None` when there is
      none. */
  function FirstExceeding(totals: seq<real>, rnd: real): (r: Option<nat>)
    ensures r.Some? ==> r.value < |totals| && rnd < totals[r.value]
    ensures r.Some? ==> forall j :: 0 <= j < r.value ==> totals[j] <= rnd
    ensures r.None? <==> forall j :: 0 <= j < |totals| ==> totals[j] <= rnd
  {
    if totals == [] then None
    else if rnd < totals[0] then Some(0)
    else match FirstExceeding(totals[1..], rnd)
      case None => None
      case Some(i) => Some(i + 1)
  }

  /** The index `weightedChoice` picks for the uniform draw `draw`
      (`random.random()`), which it scales by the total weight. */
  function Choice(w: seq<real>, draw: real): Option<nat>
  {
    FirstExceeding(RunningTotals(w), Scaled(draw, Sum(w)))
  }

  /** `random.random() * runningTotal`. */
  function Scaled(draw: real, total: real): real
  {
    draw * total
  }

  /** The size `randomSize` returns; `None` when `weightedChoice` found no
      index (the Python code then indexes with `None` and raises) or the
      index is beyond the size list. */
  function SampledSize(sizes: seq<int>, w: seq<real>, draw: real): (r: Option<int>)
    ensures r.Some? ==> r.value in sizes
    ensures r.Some? <==> Choice(w, draw).Some? && Choice(w, draw).value < |sizes|
  {
    match Choice(w, draw)
    case None => None
    case Some(i) => if i < |sizes| then Some(sizes[i]) else None
  }

  lemma {:induction false} SumAppend(a: seq<real>, b: seq<real>)
    ensures Sum(a + b) == Sum(a) + Sum(b)
    decreases |b|
  {
    if b != [] {
      var b' := b[..|b| - 1];
      assert (a + b)[..|a + b| - 1] == a + b';
      SumAppend(a, b');
    } else {
      assert a + b == a;
    }
  }

  /** Telescoping: the first k + 1 appended weights add up to the
      cumulative value of row k, so the running totals reproduce the
      cumulative column exactly. */
  lemma {:induction false} WeightsTelescope(rows: seq<CdfRow>, k: nat)
    requires k < |rows|
    ensures Sum(Weights(rows)[..k + 1]) == rows[k].cum
  {
    var w := Weights(rows);
    assert w[..k + 1][..k] == w[..k];
    if k > 0 {
      WeightsTelescope(rows, k - 1);
    }
  }

  /** Running totals of a loaded table are its cumulative column. */
  lemma RunningTotalsAreCumulative(rows: seq<CdfRow>)
    ensures |RunningTotals(Weights(rows))| == |rows|
    ensures forall k :: 0 <= k < |rows| ==> RunningTotals(Weights(rows))[k] == rows[k].cum
  {
    forall k | 0 <= k < |rows|
      ensures RunningTotals(Weights(rows))[k] == rows[k].cum
    {
      WeightsTelescope(rows, k);
    }
  }

  /** Loading rows onto existing weights adds the final cumulative value
      of the rows to the total weight. */
  lemma LoadedTotalWeight(prior: seq<real>, rows: seq<CdfRow>)
    requires rows != []
    ensures Sum(prior + Weights(rows)) == Sum(prior) + rows[|rows| - 1].cum
  {
    SumAppend(prior, Weights(rows));
    WeightsTelescope(rows, |rows| - 1);
    assert Weights(rows)[..|rows|] == Weights(rows);
  }

  /** The weights of a table are all non-negative exactly when its
      cumulative column starts at or above 0 and never decreases. */
  lemma WeightsNonNegativeIff(rows: seq<CdfRow>)
    ensures (forall i :: 0 <= i < |rows| ==> Weights(rows)[i] >= 0.0) <==>
            (forall i :: 0 <= i < |rows| ==> PrevCum(rows, i) <= rows[i].cum)
  {
    var w := Weights(rows);
    assert forall i :: 0 <= i < |rows| ==> w[i] == rows[i].cum - PrevCum(rows, i);
  }

  /** With a positive total weight and a draw below 1 (the range of
      `random.random()`), `weightedChoice` always finds an index, and it
      is within bounds. */
  lemma ChoiceExists(w: seq<real>, draw: real)
    requires Sum(w) > 0.0 && draw < 1.0
    ensures Choice(w, draw).Some? && Choice(w, draw).value < |w|
  {
    var totals := RunningTotals(w);
    var rnd := Scaled(draw, Sum(w));
    assert w[..|w|] == w;
    assert |totals| == |w| > 0;
    assert totals[|w| - 1] == Sum(w);
    ScaledBelow(draw, Sum(w));
    assert rnd < totals[|w| - 1];
    assert FirstExceeding(totals, rnd).Some?;
  }

  /** A draw below 1 scales a positive total to less than itself. */
  lemma ScaledBelow(d: real, s: real)
    requires d < 1.0 && s > 0.0
    ensures Scaled(d, s) < s
  {
  }

  /** So, when the two lists have equal length, `randomSize` always
      returns a size from the table. */
  lemma SampleDefined(sizes: seq<int>, w: seq<real>, draw: real)
    requires |sizes| == |w| && Sum(w) > 0.0 && draw < 1.0
    ensures SampledSize(sizes, w, draw).Some?
    ensures SampledSize(sizes, w, draw).value in sizes
  {
    ChoiceExists(w, draw);
  }

  /** `flowType` of a valid workload name: `filename.split('.')[0]`. */
  lemma FlowTypeOfWorkload(filename: string)
    requires ValidWorkloadName(filename)
    ensures BeforeFirstDot(filename) == (if filename == WebSearchFile then "flows/websearch" else "flows/datamining")
  {
    if filename == WebSearchFile {
      assert filename == "flows/websearch" + ".txt";
      BeforeFirstDotAppend("flows/websearch", ".txt");
    } else {
      assert filename == "flows/datamining" + ".txt";
      BeforeFirstDotAppend("flows/datamining", ".txt");
    }
  }

  /** The class-level lists `flow.flowSizes` and `flow.flowWeights`,
      shared by every `flow` object. */
  class FlowTables {
    var flowSizes: seq<int>
    var flowWeights: seq<real>

    /** Every load appends one size and one weight per row. */
    ghost predicate Valid()
      reads this
    {
      |flowSizes| == |flowWeights|
    }

    /** The lists as the class definition creates them: empty. */
    constructor ()
      ensures Valid() && flowSizes == [] && flowWeights == []
    {
      flowSizes := [];
      flowWeights := [];
    }

    /** The loop of the `flow` constructor: one size and one weight per
        row, appended after the entries already there; the running `prev`
        starts at 0. */
    method AppendRows(rows: seq<CdfRow>)
      modifies this
      ensures flowSizes == old(flowSizes) + Sizes(rows)
      ensures flowWeights == old(flowWeights) + Weights(rows)
      ensures old(Valid()) ==> Valid()
    {
      ghost var sizes, weights := Sizes(rows), Weights(rows);
      var prev := 0.0;
      var i := 0;
      while i < |rows|
        invariant 0 <= i <= |rows|
        invariant i < |rows| ==> prev == PrevCum(rows, i)
        invariant flowSizes == old(flowSizes) + sizes[..i]
        invariant flowWeights == old(flowWeights) + weights[..i]
      {
        assert sizes[..i + 1] == sizes[..i] + [sizes[i]];
        assert weights[..i + 1] == weights[..i] + [weights[i]];
        flowSizes := flowSizes + [TruncToInt(rows[i].size)];
        flowWeights := flowWeights + [rows[i].cum - prev];
        prev := rows[i].cum;
        i := i + 1;
      }
      assert sizes[..i] == sizes;
      assert weights[..i] == weights;
    }
  }

  /** One `flow` object: its own `flowType` and the shared tables. */
  class Flow {
    const tables: FlowTables
    const flowType: string

    constructor (tables: FlowTables, flowType: string)
      ensures this.tables == tables && this.flowType == flowType
    {
      this.tables := tables;
      this.flowType := flowType;
    }

    /** `flow(filename)` for a file whose lines parse to `rows`: raises
        ValueError unless the name is one of the two workloads; otherwise
        appends one size and one weight per row to the shared lists (the
        running `prev` starts at 0) and leaves the earlier entries as they
        were. */
    static method Load(filename: string, rows: seq<CdfRow>, tables: FlowTables) returns (r: Result<Flow>)
      modifies tables
      ensures r.Err? <==> !ValidWorkloadName(filename)
      ensures r.Err? ==> r.message == "Incorrect input file" && unchanged(tables)
      ensures r.Ok? ==> fresh(r.value) && r.value.tables == tables
      ensures r.Ok? ==> r.value.flowType == BeforeFirstDot(filename)
      ensures r.Ok? ==> tables.flowSizes == old(tables.flowSizes) + Sizes(rows)
      ensures r.Ok? ==> tables.flowWeights == old(tables.flowWeights) + Weights(rows)
      ensures old(tables.Valid()) ==> tables.Valid()
    {
      if !ValidWorkloadName(filename) {
        return Err("Incorrect input file");
      }
      tables.AppendRows(rows);
      var f := new Flow(tables, BeforeFirstDot(filename));
      return Ok(f);
    }

    /** `weightedChoice` with `random.random()` given as `draw`: it builds
        the running totals, scales the draw by the total weight and returns
        the least index whose total exceeds it (`None` if there is none). */
    method WeightedChoice(draw: real) returns (r: Option<nat>)
      ensures r == Choice(tables.flowWeights, draw)
      ensures r.Some? ==> r.value < |tables.flowWeights|
    {
      var w := tables.flowWeights;
      var totals: seq<real> := [];
      var runningTotal := 0.0;
      var i := 0;
      while i < |w|
        invariant 0 <= i <= |w|
        invariant runningTotal == Sum(w[..i])
        invariant totals == RunningTotals(w)[..i]
      {
        assert w[..i + 1][..i] == w[..i];
        runningTotal := runningTotal + w[i];
        totals := totals + [runningTotal];
        i := i + 1;
      }
      assert w[..i] == w;
      assert totals == RunningTotals(w) && runningTotal == Sum(w);
      var rnd := Scaled(draw, runningTotal);
      var j := 0;
      while j < |totals|
        invariant 0 <= j <= |totals|
        invariant forall k :: 0 <= k < j ==> totals[k] <= rnd
      {
        if rnd < totals[j] {
          r := Some(j);
          SameLeast(totals, rnd, j);
          return;
        }
        j := j + 1;
      }
      assert FirstExceeding(totals, rnd).None?;
      r := None;
    }

    /** `randomSize`: the size at the index `weightedChoice` picks. */
    method RandomSize(draw: real) returns (r: Option<int>)
      ensures r == SampledSize(tables.flowSizes, tables.flowWeights, draw)
      ensures r.Some? ==> r.value in tables.flowSizes
      // parallel lists of positive total weight rule out the IndexError
      ensures tables.Valid() && Sum(tables.flowWeights) > 0.0 && draw < 1.0 ==> r.Some?
    {
      if tables.Valid() && Sum(tables.flowWeights) > 0.0 && draw < 1.0 {
        SampleDefined(tables.flowSizes, tables.flowWeights, draw);
      }
      var index := WeightedChoice(draw);
      if index.None? || index.value >= |tables.flowSizes| {
        return None;
      }
      return Some(tables.flowSizes[index.value]);
    }

    /** `meanSize`: the fixed reference mean of the workload type. */
    function MeanSize(): (r: int)
      ensures r == AvgSearchSize || r == AvgDataMiningSize
    {
      if flowType == "flows/websearch" then AvgSearchSize else AvgDataMiningSize
    }

    /** `maxSize`: the last entry of the shared size list; `None` (an
        IndexError) when the list is empty. */
    function MaxSize(): (r: Option<int>)
      reads tables
      ensures r.None? <==> tables.flowSizes == []
      ensures r.Some? ==> r.value in tables.flowSizes
    {
      if |tables.flowSizes| == 0 then None
      else Some(tables.flowSizes[|tables.flowSizes| - 1])
    }

    /** `getPriority(remaining)`: the band of `remaining` against the
        current `maxSize`. */
    function GetPriority(remaining: int): (r: Option<int>)
      reads tables
      ensures r.None? <==> MaxSize().None? || 0 <= MaxSize().value < NumBands
      ensures r.Some? ==> r.value <= NumBands
      ensures r.Some? && remaining >= 0 && MaxSize().value >= NumBands ==> 1 <= r.value
    {
      match MaxSize()
      case None => None
      case Some(m) => PriorityBand(remaining, m)
    }
  }

  /** The least index with `rnd < totals[j]` is the one `FirstExceeding`
      names. */
  lemma SameLeast(totals: seq<real>, rnd: real, j: nat)
    requires j < |totals| && rnd < totals[j]
    requires forall k :: 0 <= k < j ==> totals[k] <= rnd
    ensures FirstExceeding(totals, rnd) == Some(j)
  {
  }

  /** `meanSize` of a loaded table depends only on its file name: 1620 for
      the web-search workload, 9500 for data mining. */
  lemma MeanSizeOfWorkload(f: Flow, filename: string)
    requires ValidWorkloadName(filename) && f.flowType == BeforeFirstDot(filename)
    ensures f.MeanSize() == if filename == WebSearchFile then AvgSearchSize else AvgDataMiningSize
  {
    FlowTypeOfWorkload(filename);
  }

  /** After a load of a non-empty table, `maxSize` is the size of that
      table's last row, whatever earlier loads put into the shared list. */
  lemma MaxSizeAfterLoad(f: Flow, prior: seq<int>, rows: seq<CdfRow>)
    requires rows != [] && f.tables.flowSizes == prior + Sizes(rows)
    ensures f.MaxSize() == Some(TruncToInt(rows[|rows| - 1].size))
  {
  }
}
