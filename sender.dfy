/** Class `Sender` of sender.py: destination handling, the band to marker
    map, and `sendFlow`, the transmitter of one flow.

    The clock, the TCP unacknowledged-byte count and the random draws are
    parameters. `clock(k)` is the value of the k-th `time.time()` call of
    one `sendFlow` run: call 0 is `flowStartTime`, calls 1..n are the
    deadline checks before the n packets, the following calls are the
    checks of the drain loop, and the last one is read for the completion
    time. `unacked(k)` is the k-th `getTCPUnacked` poll. The packets that
    `socket.send` would write are returned as `sent`. */
module FlowSender {
  import opened Wrappers
  import PyOps
  import opened Priority
  import opened Workload

  /** Length of one packet: one marker character and 1023 filler bytes. */
  const PacketSize: int := 1024

  /** The payload `"0" * 1023`. */
  function Filler(): string
  {
    seq(PacketSize - 1, _ => '0')
  }

  /** `prioMap[priority] + payload`: the marker, then the filler. */
  function Packet(marker: char): (p: string)
    ensures |p| == PacketSize && p[0] == marker
    ensures forall j :: 1 <= j < |p| ==> p[j] == '0'
  {
    [marker] + Filler()
  }

  /** What `sendFlow` returns: `(flowSize, FCT)`, `None` after a deadline
      check fired, or an exception (an index with `None`, a zero band
      width, a band missing from `prioMap`). */
  datatype SendOutcome = Completed(flowSize: int, fct: real) | Aborted | Crashed

  /** How the send loop of `sendFlow` ends: every packet out, a deadline
      check fired (`return None`), or the marker lookup raised. */
  datatype SendLoopEnd = AllSent | DeadlinePassed | MarkerMissing

  /** The deadline check `(time.time() - starttime) > runtime` at clock
      call i. */
  predicate LateAt(clock: nat -> real, starttime: real, runtime: real, i: nat)
  {
    clock(i) - starttime > runtime
  }

  /** The number of packets a flow of `flowSize` takes: `toSend` starts at
      `flowSize` and drops by one per packet. */
  function PacketCount(flowSize: int): nat
  {
    if flowSize > 0 then flowSize else 0
  }

  /** The drain loop after n packets ends with the m-th poll at zero:
      polls 0..m-1 were positive and none of the m checks it made (clock
      calls n + 1 .. n + m) fired. */
  ghost predicate DrainFinishesAt(unacked: nat -> int, clock: nat -> real, starttime: real, runtime: real,
                                  n: nat, m: nat)
  {
    var base := 1 + n;
    && unacked(m) <= 0
    && (forall j :: 0 <= j < m ==> unacked(j) > 0)
    && (forall i :: base <= i < base + m ==> !LateAt(clock, starttime, runtime, i))
  }

  /** The drain loop after n packets stops at its check number m: polls
      0..m were all positive, the earlier checks passed and clock call
      n + 1 + m is past the deadline. */
  ghost predicate DrainAbortsAt(unacked: nat -> int, clock: nat -> real, starttime: real, runtime: real,
                                n: nat, m: nat)
  {
    var base := 1 + n;
    && (forall j :: 0 <= j <= m ==> unacked(j) > 0)
    && (forall i :: base <= i < base + m ==> !LateAt(clock, starttime, runtime, i))
    && LateAt(clock, starttime, runtime, base + m)
  }

  /** `prioMap[getPriority(remaining)]` for a table whose `maxSize` is
      `maxSize`; `None` when either step raises (no last size, a zero band
      width, a band missing from the map). */
  function MarkerOf(prioMap: map<int, char>, maxSize: Option<int>, remaining: int): Option<char>
  {
    match maxSize
    case None => None
    case Some(m) =>
      match PriorityBand(remaining, m)
      case None => None
      case Some(p) => if p in prioMap then Some(prioMap[p]) else None
  }

  /** With the map `createPrioMap` builds and a last size of at least 16,
      a flow with packets left gets the marker of its band. */
  lemma MarkerOfBand(maxSize: int, r: int)
    requires maxSize >= NumBands && 0 <= r
    ensures PriorityBand(r, maxSize).Some? && 1 <= PriorityBand(r, maxSize).value <= NumBands
    ensures MarkerOf(BandMarkers(), Some(maxSize), r) == Some(Marker(PriorityBand(r, maxSize).value))
  {
    BandBounds(r, maxSize);
    var b := PriorityBand(r, maxSize).value;
    assert b in BandMarkers() && BandMarkers()[b] == Marker(b);
  }

  /** ... and fewer remaining packets never give a later letter. */
  lemma MarkersNonIncreasing(maxSize: int, r1: int, r2: int)
    requires maxSize >= NumBands && 0 <= r1 <= r2
    ensures MarkerOf(BandMarkers(), Some(maxSize), r1).Some?
    ensures MarkerOf(BandMarkers(), Some(maxSize), r2).Some?
    ensures MarkerOf(BandMarkers(), Some(maxSize), r1).value <= MarkerOf(BandMarkers(), Some(maxSize), r2).value
  {
    MarkerOfBand(maxSize, r1);
    MarkerOfBand(maxSize, r2);
    BandMonotone(r1, r2, maxSize);
    var b1, b2 := PriorityBand(r1, maxSize).value, PriorityBand(r2, maxSize).value;
    assert Marker(b1) as int == 64 + b1 <= 64 + b2 == Marker(b2) as int;
  }

  /** `s` without any copy of `x`, the rest in order (the list that
      `removeSelfFromDestList` builds). */
  function Without<T(==)>(s: seq<T>, x: T): seq<T>
  {
    if s == [] then []
    else Without(s[..|s| - 1], x) + (if s[|s| - 1] == x then [] else [s[|s| - 1]])
  }

  /** Every element other than `x` stays, and no copy of `x` does. */
  lemma {:induction false} WithoutMembership<T>(s: seq<T>, x: T, y: T)
    ensures y in Without(s, x) <==> y in s && y != x
  {
    if s != [] {
      var init := s[..|s| - 1];
      WithoutMembership(init, x, y);
      assert s == init + [s[|s| - 1]];
    }
  }

  /** Each element other than `x` keeps its number of copies. */
  lemma {:induction false} WithoutMultiplicity<T>(s: seq<T>, x: T, y: T)
    ensures multiset(Without(s, x))[y] == if y == x then 0 else multiset(s)[y]
  {
    if s != [] {
      var init := s[..|s| - 1];
      WithoutMultiplicity(init, x, y);
      assert s == init + [s[|s| - 1]];
      assert multiset(s) == multiset(init) + multiset{s[|s| - 1]};
      assert Without(s, x) == Without(init, x) + (if s[|s| - 1] == x then [] else [s[|s| - 1]]);
    }
  }

  /** Filtering a concatenation filters each part in place: the order of
      the kept elements is the original order. */
  lemma {:induction false} WithoutConcat<T>(a: seq<T>, b: seq<T>, x: T)
    ensures Without(a + b, x) == Without(a, x) + Without(b, x)
    decreases |b|
  {
    if b == [] {
      assert a + b == a;
    } else {
      var b' := b[..|b| - 1];
      assert (a + b)[..|a + b| - 1] == a + b';
      WithoutConcat(a, b', x);
    }
  }

  /** The packet `sendFlow` sends as its k-th for a flow of `size`:
      the one for `size - k` remaining; `None` when the lookup raises. */
  function ExpectedPacket(prioMap: map<int, char>, maxSize: Option<int>, size: int, k: int): Option<string>
  {
    match MarkerOf(prioMap, maxSize, size - k)
    case None => None
    case Some(m) => Some(Packet(m))
  }

  /** Packet k of `sent` is the expected k-th packet, for every k. */
  ghost predicate PacketsMatch(prioMap: map<int, char>, maxSize: Option<int>, size: int, sent: seq<string>)
  {
    forall k :: 0 <= k < |sent| ==> ExpectedPacket(prioMap, maxSize, size, k) == Some(sent[k])
  }

  /** Sending the expected next packet keeps the packets in step. */
  lemma PacketsMatchSnoc(prioMap: map<int, char>, maxSize: Option<int>, size: int, sent: seq<string>, packet: string)
    requires PacketsMatch(prioMap, maxSize, size, sent)
    requires ExpectedPacket(prioMap, maxSize, size, |sent|) == Some(packet)
    ensures PacketsMatch(prioMap, maxSize, size, sent + [packet])
  {
    var longer := sent + [packet];
    forall k | 0 <= k < |longer|
      ensures ExpectedPacket(prioMap, maxSize, size, k) == Some(longer[k])
    {
      if k < |sent| {
        assert longer[k] == sent[k];
      }
    }
  }

  class Sender {
    const IP: string
    const flowSource: string
    const cong: string
    const destPort: int
    var destList: seq<string>
    var prioMap: map<int, char>
    /** The `flow` object `createFlowObj` makes; null before it runs. */
    var flow: Flow?
    /** Set by `setTimers`; 0 before it runs. */
    var starttime: real
    var runtime: real

    /** What the constructor establishes: the full band map, and the
        sender's own address absent from its destinations. */
    ghost predicate Valid()
      reads this
    {
      prioMap == BandMarkers() && IP !in destList
    }

    /** `Sender(sourceIP, flowSource, cong, destList, destPort)`: stores
        the settings, builds the prio map and drops the sender's own
        address from the destinations. */
    constructor (sourceIP: string, flowSource: string := WebSearchFile, cong: string := "mintcp",
                 destList: seq<string> := [], destPort: int := 8000)
      ensures Valid()
      ensures IP == sourceIP && this.flowSource == flowSource && this.cong == cong && this.destPort == destPort
      ensures this.destList == Without(destList, sourceIP)
      ensures flow == null
    {
      IP := sourceIP;
      this.flowSource := flowSource;
      this.destList := destList;
      this.destPort := destPort;
      this.cong := cong;
      flow := null;
      starttime, runtime := 0.0, 0.0;
      new;
      CreatePrioMap();
      RemoveSelfFromDestList();
      WithoutMembership(destList, sourceIP, sourceIP);
    }

    /** `removeSelfFromDestList`: keeps, in order, every destination other
        than the sender's own address. */
    method RemoveSelfFromDestList()
      modifies this`destList
      ensures destList == Without(old(destList), IP)
    {
      var dests: seq<string> := [];
      var i := 0;
      while i < |destList|
        invariant 0 <= i <= |destList|
        invariant dests == Without(destList[..i], IP)
      {
        assert destList[..i + 1][..i] == destList[..i];
        if destList[i] != IP {
          dests := dests + [destList[i]];
        }
        i := i + 1;
      }
      assert destList[..i] == destList;
      destList := dests;
    }

    /** `createPrioMap`: band i of 1..16 maps to `chr(64 + i)`, the
        running `val` starting at 65. */
    method CreatePrioMap()
      modifies this`prioMap
      ensures prioMap == BandMarkers()
    {
      var val := 65;
      prioMap := map[];
      var i := 1;
      while i < NumBands + 1
        invariant 1 <= i <= NumBands + 1 && val == 64 + i
        invariant prioMap == map b | 1 <= b < i :: Marker(b)
      {
        prioMap := prioMap[i := val as char];
        val := val + 1;
        i := i + 1;
      }
    }

    /** `createFlowObj`: builds the `flow` object for `flowSource`, whose
        file parses to `rows`, appending to the shared tables; the
        ValueError for a wrong name comes back as `Some(message)`. */
    method CreateFlowObj(rows: seq<CdfRow>, tables: FlowTables) returns (err: Option<string>)
      modifies this`flow, tables
      ensures err.None? <==> ValidWorkloadName(flowSource)
      ensures err.Some? ==> flow == old(flow) && unchanged(tables)
      ensures err.None? ==> flow != null && fresh(flow) && flow.tables == tables
      ensures err.None? ==> flow.flowType == PyOps.BeforeFirstDot(flowSource)
      ensures err.None? ==> tables.flowSizes == old(tables.flowSizes) + Sizes(rows)
      ensures err.None? ==> tables.flowWeights == old(tables.flowWeights) + Weights(rows)
    {
      var r := Flow.Load(flowSource, rows, tables);
      if r.Err? {
        return Some(r.message);
      }
      flow := r.value;
      return None;
    }

    /** `setTimers(st, rt)`. */
    method SetTimers(st: real, rt: real)
      modifies this`starttime, this`runtime
      ensures starttime == st && runtime == rt
    {
      starttime := st;
      runtime := rt;
    }

    /** `pickDest` with `random.randrange(len(destList))` given as `i`:
        the destination at that index; `None` (randrange's ValueError)
        when there is no destination. */
    method PickDest(i: nat) returns (dest: Option<string>)
      requires destList != [] ==> i < |destList|
      ensures dest.None? <==> destList == []
      ensures dest.Some? ==> dest.value == destList[i] && dest.value in destList
      ensures dest.Some? && Valid() ==> dest.value != IP
    {
      if destList == [] {
        return None;
      }
      return Some(destList[i]);
    }

    /** The flow size `randomSize` draws for `draw`. */
    ghost function SampledFlowSize(draw: real): Option<int>
      requires flow != null
      reads this, flow, flow.tables
    {
      SampledSize(flow.tables.flowSizes, flow.tables.flowWeights, draw)
    }

    /** `prioMap[self.flow.getPriority(remaining)]`. */
    function MarkerFor(remaining: int): (r: Option<char>)
      requires flow != null
      reads this, flow, flow.tables
      // the lookup fails exactly when getPriority raises or its band is no key
      ensures r.None? <==> flow.GetPriority(remaining).None? || flow.GetPriority(remaining).value !in prioMap
      ensures r.Some? ==> r == Some(prioMap[flow.GetPriority(remaining).value])
      ensures r.Some? && prioMap == BandMarkers() ==> 'A' <= r.value <= 'P'
    {
      MarkerOf(prioMap, flow.MaxSize(), remaining)
    }

    /** Packet k of `sent` is the packet of a flow of `size` with
        `size - k` packets still to send, under this sender's map and
        table. */
    ghost predicate PacketsFor(size: int, sent: seq<string>)
      requires flow != null
      reads this, flow, flow.tables
    {
      PacketsMatch(prioMap, flow.MaxSize(), size, sent)
    }

    /** The same, read at one index as a marker and its packet. */
    lemma PacketsForAt(size: int, sent: seq<string>, k: nat)
      requires flow != null && PacketsFor(size, sent) && k < |sent|
      ensures MarkerFor(size - k).Some? && sent[k] == Packet(MarkerFor(size - k).value)
    {
      assert ExpectedPacket(prioMap, flow.MaxSize(), size, k) == Some(sent[k]);
    }

    /** The configuration under which no marker lookup fails: the map
        `createPrioMap` builds and a last table size of at least 16. */
    ghost predicate Banded()
      requires flow != null
      reads this, flow, flow.tables
    {
      prioMap == BandMarkers() && flow.MaxSize().Some? && flow.MaxSize().value >= NumBands
    }

    /** Under that configuration every flow with packets left has a
        marker. */
    lemma BandedMarkersDefined(remaining: int)
      requires flow != null && Banded() && remaining >= 0
      ensures MarkerFor(remaining).Some?
    {
      MarkerOfBand(flow.MaxSize().value, remaining);
    }

    /** Under that configuration the markers of a flow's packets never
        rise from one packet to a later one. */
    lemma PacketMarkersNonIncreasing(size: int, sent: seq<string>)
      requires flow != null && Banded() && PacketsFor(size, sent) && |sent| <= PacketCount(size)
      ensures forall k :: 0 <= k < |sent| ==> |sent[k]| == PacketSize
      ensures forall k1, k2 :: 0 <= k1 <= k2 < |sent| ==> sent[k2][0] <= sent[k1][0]
    {
      forall k | 0 <= k < |sent|
        ensures |sent[k]| == PacketSize
      {
        PacketsForAt(size, sent, k);
      }
      forall k1, k2 | 0 <= k1 <= k2 < |sent|
        ensures sent[k2][0] <= sent[k1][0]
      {
        PacketsForAt(size, sent, k1);
        PacketsForAt(size, sent, k2);
        MarkersNonIncreasing(flow.MaxSize().value, size - k2, size - k1);
      }
    }

    /** `sendFlow`. The flow size is drawn with `draw`; the packets go out
        while `toSend > 0`, each after a deadline check, packet k carrying
        the marker for `flowSize - k` remaining; then the unacked count is
        polled until it is zero, with a deadline check after each poll.
        `lateFrom` is a clock call from which every deadline check fires:
        the experiment's end, after which the drain loop cannot go on. */
    method SendFlow(draw: real, clock: nat -> real, unacked: nat -> int, ghost lateFrom: nat)
      returns (outcome: SendOutcome, sent: seq<string>)
      requires flow != null
      requires forall i: nat :: lateFrom <= i ==> LateAt(clock, starttime, runtime, i)
      // no size drawn: nothing is sent
      ensures SampledFlowSize(draw).None? ==> outcome == Crashed && sent == []
      // every packet sent passed its deadline check
      ensures forall i :: 1 <= i <= |sent| ==> !LateAt(clock, starttime, runtime, i)
      // the packets are those of the drawn size, one per remaining count
      ensures SampledFlowSize(draw).Some? ==>
                |sent| <= PacketCount(SampledFlowSize(draw).value) &&
                PacketsFor(SampledFlowSize(draw).value, sent)
      // a crash while sending is a missing marker for the next packet
      ensures outcome == Crashed && SampledFlowSize(draw).Some? ==>
                var size := SampledFlowSize(draw).value;
                && |sent| < PacketCount(size)
                && !LateAt(clock, starttime, runtime, 1 + |sent|)
                && MarkerFor(size - |sent|).None?
      // an abort is a deadline check firing, in the send loop or the drain loop
      ensures outcome == Aborted ==>
                SampledFlowSize(draw).Some? &&
                var n := PacketCount(SampledFlowSize(draw).value);
                || (|sent| < n && LateAt(clock, starttime, runtime, 1 + |sent|))
                || (|sent| == n && exists m :: DrainAbortsAt(unacked, clock, starttime, runtime, n, m))
      // a completed flow sent every packet, drained, and reports (size, FCT)
      ensures outcome.Completed? ==>
                SampledFlowSize(draw).Some? &&
                var size := SampledFlowSize(draw).value;
                && outcome.flowSize == size
                && |sent| == PacketCount(size)
                && exists m :: DrainFinishesAt(unacked, clock, starttime, runtime, |sent|, m)
                               && outcome.fct == clock(1 + |sent| + m) - clock(0)
      // a deadline already past at the first check: no packet, None
      ensures (SampledFlowSize(draw).Some? && SampledFlowSize(draw).value > 0 &&
               LateAt(clock, starttime, runtime, 1)) ==> outcome == Aborted && sent == []
      // with the full band map and a last size of at least 16, a flow whose
      // checks all pass sends exactly flowSize packets
      ensures SampledFlowSize(draw).Some? && Banded() &&
              (forall i :: 1 <= i <= PacketCount(SampledFlowSize(draw).value) ==>
                 !LateAt(clock, starttime, runtime, i)) ==>
                |sent| == PacketCount(SampledFlowSize(draw).value) && outcome != Crashed
      // with a clock that never goes back, the completion time is not negative
      ensures outcome.Completed? && (forall i: nat, j: nat :: i <= j ==> clock(i) <= clock(j)) ==>
                outcome.fct >= 0.0
    {
      var size := flow.RandomSize(draw);
      if size.None? {
        return Crashed, [];
      }
      var flowSize := size.value;
      var flowStartTime := clock(0);
      var loopEnd;
      loopEnd, sent := SendPackets(flowSize, clock);
      if loopEnd == DeadlinePassed {
        return Aborted, sent;
      }
      if loopEnd == MarkerMissing {
        if Banded() {
          BandedMarkersDefined(flowSize - |sent|);
        }
        return Crashed, sent;
      }
      var fctAt := DrainUnacked(clock, unacked, |sent|, lateFrom);
      if fctAt.None? {
        return Aborted, sent;
      }
      return Completed(flowSize, clock(fctAt.value) - flowStartTime), sent;
    }

    /** The send loop of `sendFlow` for a flow of `flowSize` packets:
        while `toSend > 0`, check the deadline (clock call `1 + |sent|`),
        look up the marker for `toSend` and send one packet. */
    method SendPackets(flowSize: int, clock: nat -> real) returns (loopEnd: SendLoopEnd, sent: seq<string>)
      requires flow != null
      ensures |sent| <= PacketCount(flowSize) && PacketsFor(flowSize, sent)
      ensures forall i :: 1 <= i <= |sent| ==> !LateAt(clock, starttime, runtime, i)
      ensures loopEnd == AllSent <==> |sent| == PacketCount(flowSize)
      ensures loopEnd == DeadlinePassed ==> LateAt(clock, starttime, runtime, 1 + |sent|)
      ensures loopEnd == MarkerMissing ==>
                !LateAt(clock, starttime, runtime, 1 + |sent|) && MarkerFor(flowSize - |sent|).None?
    {
      var toSend := flowSize;
      var c: nat := 1;
      sent := [];
      while toSend > 0
        invariant toSend == flowSize - |sent| && |sent| <= PacketCount(flowSize)
        invariant c == 1 + |sent|
        invariant forall i :: 1 <= i <= |sent| ==> !LateAt(clock, starttime, runtime, i)
        invariant PacketsFor(flowSize, sent)
        decreases toSend
      {
        if LateAt(clock, starttime, runtime, c) {
          return DeadlinePassed, sent;
        }
        var priority := flow.GetPriority(toSend);
        if priority.None? || priority.value !in prioMap {
          return MarkerMissing, sent;
        }
        var marker := prioMap[priority.value];
        var packet := Packet(marker);
        assert ExpectedPacket(prioMap, flow.MaxSize(), flowSize, |sent|) == Some(packet);
        PacketsMatchSnoc(prioMap, flow.MaxSize(), flowSize, sent, packet);
        sent := sent + [packet];
        toSend := toSend - 1;
        c := c + 1;
      }
      return AllSent, sent;
    }

    /** The drain loop of `sendFlow` after `n` packets: poll the unacked
        count until it is zero, checking the deadline after every poll.
        Returns the index of the clock call that timestamps completion, or
        `None` when a check fired. */
    method DrainUnacked(clock: nat -> real, unacked: nat -> int, n: nat, ghost lateFrom: nat)
      returns (fctAt: Option<nat>)
      requires forall i: nat :: 1 <= i <= n ==> !LateAt(clock, starttime, runtime, i)
      requires forall i: nat :: lateFrom <= i ==> LateAt(clock, starttime, runtime, i)
      ensures fctAt.Some? ==> exists m :: DrainFinishesAt(unacked, clock, starttime, runtime, n, m) && fctAt.value == 1 + n + m
      ensures fctAt.None? ==> exists m :: DrainAbortsAt(unacked, clock, starttime, runtime, n, m)
    {
      var c: nat := 1 + n;
      var numUnacked := unacked(0);
      var m: nat := 0;
      while numUnacked > 0
        invariant numUnacked == unacked(m)
        invariant forall j :: 0 <= j < m ==> unacked(j) > 0
        invariant c == 1 + n + m
        invariant forall i :: 1 + n <= i < c ==> !LateAt(clock, starttime, runtime, i)
        decreases if c <= lateFrom then lateFrom - c else 0
      {
        numUnacked := unacked(m + 1);
        if LateAt(clock, starttime, runtime, c) {
          assert DrainAbortsAt(unacked, clock, starttime, runtime, n, m);
          return None;
        }
        m := m + 1;
        c := c + 1;
      }
      assert DrainFinishesAt(unacked, clock, starttime, runtime, n, m);
      return Some(c);
    }
  }
}
