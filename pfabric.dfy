/** The configuration rules of the experiment driver: which command-line
    arguments it accepts, the switch queue length it sets for each
    congestion-control variant, the workload file and output directory it
    hands to the senders, and the table of `tc` filters that sends each
    priority marker byte to its band of the switch's prio qdisc. */
module Pfabric {
  import opened Wrappers
  import opened PyOps
  import opened Priority
  import opened Workload

  /** The parsed command line (`--out`, `--traffic`, `--cong`, `--kary`,
      `--hosts`, `--time`, `--topo`). */
  datatype Args = Args(out: string, traffic: string, cong: string, kary: int,
                       hosts: int, time: int, topo: string)

  /** The arguments with every optional one at its default. */
  function DefaultArgs(traffic: string, cong: string): Args
  {
    Args("outputs/", traffic, cong, 3, 54, 180, "star")
  }

  const CongError: string := "Wrong congestion method, use: tcp, mintcp"
  const TrafficError: string := "Wrong traffic type, use: web or data"
  const KaryError: string := "Value of k must be between 1 and 3"
  const HostsError: string := "Number of hosts must be at least 1"
  const TimeError: string := "Runtime too short"
  const TopoError: string := "Network topology should be star"

  predicate ValidCong(cong: string) { cong == "tcp" || cong == "mintcp" }
  predicate ValidTraffic(traffic: string) { traffic == "web" || traffic == "data" }

  /** Every argument check of the driver, as one conjunction. */
  predicate ValidArgs(a: Args)
  {
    && ValidCong(a.cong)
    && ValidTraffic(a.traffic)
    && 1 <= a.kary <= 3
    && a.hosts >= 1
    && a.time >= 60
    && a.topo == "star"
  }

  /** The message of the first check that fails, in the order the driver
      makes them (each `parser.error` exits), or `None` when all pass. */
  function ArgError(a: Args): (r: Option<string>)
    ensures r.None? <==> ValidArgs(a)
    ensures r == Some(CongError) <==> !ValidCong(a.cong)
    ensures r == Some(TrafficError) <==> ValidCong(a.cong) && !ValidTraffic(a.traffic)
    ensures r == Some(KaryError) <==>
              ValidCong(a.cong) && ValidTraffic(a.traffic) && !(1 <= a.kary <= 3)
    ensures r == Some(HostsError) <==>
              ValidCong(a.cong) && ValidTraffic(a.traffic) && 1 <= a.kary <= 3 && a.hosts < 1
    ensures r == Some(TimeError) <==>
              ValidCong(a.cong) && ValidTraffic(a.traffic) && 1 <= a.kary <= 3 && a.hosts >= 1 &&
              a.time < 60
    ensures r == Some(TopoError) <==>
              ValidCong(a.cong) && ValidTraffic(a.traffic) && 1 <= a.kary <= 3 && a.hosts >= 1 &&
              a.time >= 60 && a.topo != "star"
  {
    if a.cong !in ["tcp", "mintcp"] then Some(CongError)
    else if a.traffic !in ["web", "data"] then Some(TrafficError)
    else if a.kary < 1 || a.kary > 3 then Some(KaryError)
    else if a.hosts < 1 then Some(HostsError)
    else if a.time < 60 then Some(TimeError)
    else if a.topo !in ["star"] then Some(TopoError)
    else None
  }

  /** Only `--traffic` and `--cong` are required: with the defaults for the
      rest, the arguments pass exactly when those two are valid. */
  lemma DefaultsAccepted(traffic: string, cong: string)
    ensures ArgError(DefaultArgs(traffic, cong)).None? <==> ValidTraffic(traffic) && ValidCong(cong)
  {
  }

  const MinTcpBufferBytes: int := 36000
  const DropTailBufferBytes: int := 225000
  const Mtu: int := 1460
  const DefaultQueueLength: int := 1000

  /** The queue-length part of `adjustSysSettings`: `qSize` starts at 1000
      and is overwritten for `mintcp` and `tcp` with the buffer size in
      whole MTU-sized packets (Python 2 integer division); then every
      switch port `s0-eth1` .. `s0-eth<hosts>` gets that txqueuelen,
      recorded here as (port number, queue length). */
  method AdjustSysSettings(cong: string, hosts: int) returns (qSize: int, txQueueLens: seq<(int, int)>)
    ensures cong == "mintcp" ==> qSize == 24
    ensures cong == "tcp" ==> qSize == 154
    ensures !ValidCong(cong) ==> qSize == DefaultQueueLength
    // the pFabric and drop-tail queues hold the whole packets that fit their buffer
    ensures cong == "mintcp" ==> qSize * Mtu <= MinTcpBufferBytes < (qSize + 1) * Mtu
    ensures cong == "tcp" ==> qSize * Mtu <= DropTailBufferBytes < (qSize + 1) * Mtu
    ensures |txQueueLens| == if hosts < 0 then 0 else hosts
    ensures forall k :: 0 <= k < |txQueueLens| ==> txQueueLens[k] == (k + 1, qSize)
  {
    qSize := DefaultQueueLength;
    if cong == "mintcp" {
      qSize := FloorDiv(MinTcpBufferBytes, Mtu);
    }
    if cong == "tcp" {
      qSize := FloorDiv(DropTailBufferBytes, Mtu);
    }
    txQueueLens := [];
    var n := 1;
    while n < hosts + 1
      invariant 1 <= n <= (if hosts < 0 then 0 else hosts) + 1
      invariant |txQueueLens| == n - 1
      invariant forall k :: 0 <= k < |txQueueLens| ==> txQueueLens[k] == (k + 1, qSize)
    {
      txQueueLens := txQueueLens + [(n, qSize)];
      n := n + 1;
    }
  }

  /** The workload file `main` hands to every sender. */
  function WorkloadPath(traffic: string): (r: string)
    ensures ValidWorkloadName(r)
    ensures r == WebSearchFile <==> traffic == "web"
    ensures r == DataMiningFile <==> traffic != "web"
  {
    if traffic == "web" then WebSearchFile else DataMiningFile
  }

  /** A sender built on the chosen workload file reports the mean flow size
      of the traffic type: 1620 for web search, 9500 for data mining. */
  lemma MeanSizeForTraffic(traffic: string, f: Flow)
    requires f.flowType == BeforeFirstDot(WorkloadPath(traffic))
    ensures f.MeanSize() == if traffic == "web" then AvgSearchSize else AvgDataMiningSize
  {
    MeanSizeOfWorkload(f, WorkloadPath(traffic));
  }

  /** The output directory `"%s/%s_%s" % (out, traffic, cong)`. */
  function OutDir(out: string, traffic: string, cong: string): (r: string)
    ensures |r| == |out| + |traffic| + |cong| + 2
    ensures r[..|out|] == out && r[|out|] == '/'
    ensures r[|out| + 1..|out| + 1 + |traffic|] == traffic
    ensures r[|out| + 1 + |traffic|] == '_' && r[|out| + 2 + |traffic|..] == cong
  {
    out + "/" + traffic + "_" + cong
  }

  /** Under one `--out`, the four accepted (traffic, cong) pairs write to
      four different directories. */
  lemma {:induction false} OutDirInjective(out: string, t1: string, c1: string, t2: string, c2: string)
    requires ValidTraffic(t1) && ValidTraffic(t2) && ValidCong(c1) && ValidCong(c2)
    requires OutDir(out, t1, c1) == OutDir(out, t2, c2)
    ensures t1 == t2 && c1 == c2
  {
    var d := OutDir(out, t1, c1);
    var tail := d[|out| + 1..];
    assert tail == t1 + "_" + c1;
    assert tail == t2 + "_" + c2;
    // "web" and "data" differ at their first letter, "tcp" and "mintcp" too
    assert tail[0] == t1[0] && tail[0] == t2[0];
    assert t1 == t2;
    assert tail[|t1| + 1] == c1[0] && tail[|t1| + 1] == c2[0];
  }

  /** One iteration of the filter loop of `addPriorityQDisc`: a netem child
      qdisc with handle `flowId + 2` under class `2:flowId`, and a u32 filter
      that sends packets whose byte 52 (the first payload byte, the
      sender's marker) equals `matchByte` to class `2:flowId`. */
  datatype BandRule = BandRule(parentClass: int, netemHandle: int, matchByte: int, flowId: int)

  /** The rule the loop issues for band `i`. */
  function RuleFor(i: int): BandRule
  {
    BandRule(i, i + 2, 64 + i, i)
  }

  /** The rules for `i` in `range(2, 17)`, in order. */
  function BandRules(): seq<BandRule>
  {
    seq(NumBands - 1, k requires 0 <= k < NumBands - 1 => RuleFor(k + 2))
  }

  /** The per-interface filter loop of `addPriorityQDisc`. */
  method AddPriorityQDisc() returns (rules: seq<BandRule>)
    ensures rules == BandRules()
    ensures |rules| == 15
    ensures forall k :: 0 <= k < |rules| ==> rules[k].matchByte == 64 + rules[k].flowId
    ensures forall k :: 0 <= k < |rules| ==> 2 <= rules[k].flowId <= NumBands
  {
    rules := [];
    var i := 2;
    while i < 17
      invariant 2 <= i <= 17
      invariant |rules| == i - 2
      invariant forall k :: 0 <= k < |rules| ==> rules[k] == RuleFor(k + 2)
    {
      rules := rules + [RuleFor(i)];
      i := i + 1;
    }
  }

  /** The band a packet whose marker byte is `byte` ends in: the first
      matching filter's flow id, or band 1 (`2:1`) when none matches, since
      the prio qdisc's priomap sends every unfiltered packet to its first
      band. */
  function ClassOf(rules: seq<BandRule>, byte: int): (band: int)
    ensures (forall k :: 0 <= k < |rules| ==> rules[k].matchByte != byte) ==> band == 1
    ensures band == 1 || exists k :: 0 <= k < |rules| && rules[k].matchByte == byte && rules[k].flowId == band
  {
    if rules == [] then 1
    else if rules[0].matchByte == byte then rules[0].flowId
    else ClassOf(rules[1..], byte)
  }

  /** The first matching rule decides the band. */
  lemma {:induction false} ClassOfFirstMatch(rules: seq<BandRule>, byte: int, k: nat)
    requires k < |rules| && rules[k].matchByte == byte
    requires forall j :: 0 <= j < k ==> rules[j].matchByte != byte
    ensures ClassOf(rules, byte) == rules[k].flowId
    decreases k
  {
    if k > 0 {
      ClassOfFirstMatch(rules[1..], byte, k - 1);
    }
  }

  /** The switch and the sender agree: a packet carrying the marker of band
      `b` lands in band `b` of the prio qdisc, for every band 1..16; band 1
      ('A') is matched by no filter and reaches band 1 by the default. */
  lemma SwitchHonoursMarkers()
    ensures forall b :: 1 <= b <= NumBands ==> ClassOf(BandRules(), Marker(b) as int) == b
    ensures forall k :: 0 <= k < |BandRules()| ==> BandRules()[k].matchByte != Marker(1) as int
  {
    var rules := BandRules();
    forall b | 1 <= b <= NumBands
      ensures ClassOf(rules, Marker(b) as int) == b
    {
      if b >= 2 {
        ClassOfFirstMatch(rules, Marker(b) as int, b - 2);
      }
    }
  }
}
