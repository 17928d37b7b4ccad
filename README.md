# pFabric sender and experiment configuration, in Dafny

This project models the sending side of a pFabric experiment run on Mininet.
pFabric schedules packets by flow size: the fewer packets a flow still has to
send, the higher the priority its packets carry.

The model covers these parts:

- **The workload table.** This is the `flow` class of `sender.py`. It checks
  the workload file name. It turns the parsed cumulative-distribution rows
  into a size list and a weight list, with each weight the difference of two
  consecutive cumulative fractions. Both lists are shared by every `flow`
  object and each construction appends to them. It draws a flow size with
  `weightedChoice`/`randomSize`, and it has the `meanSize` and `maxSize`
  accessors.
- **The priority classifier.** `getPriority` computes
  `remaining / (maxSize / 16) + 1` in Python 2 integer division and caps the
  result at 16. `createPrioMap` maps band i to the marker character
  `chr(64 + i)`.
- **The `Sender` object.** It removes its own address from the destination
  list and picks a destination. `sendFlow` sends one flow as 1024-character
  packets, each a marker followed by 1023 `'0'`. It then waits until the
  TCP unacknowledged count drains to zero. Each packet is preceded by a
  check against the experiment deadline. The first poll of the unacked
  count has no check; each later poll, inside the drain loop, is followed
  by one, so a zero read there can still end in an abort.
- **The configuration rules of `pfabric.py`.**
  - Which command-line arguments are accepted.
  - The switch queue length per congestion-control variant.
  - The workload file and output directory handed to the senders.
  - The `tc` filter table that sends each marker byte to its band of the
    switch's prio qdisc. It is proved to agree with the sender's marker map.

Modules:

- `Wrappers`: `Option` and `Result`.
- `PyOps`: Python 2 `/` on ints, `int()` on a float, `split('.')[0]`.
- `Priority`: `getPriority` and the marker map.
- `Workload`: the `flow` class. `FlowTables` holds the two class-level lists
  and `Flow` is one `flow` object that references them.
- `FlowSender`: the `Sender` class.
- `Pfabric`: the driver's rules.

The model has no I/O. Randomness, the clock and the socket are parameters:

- the uniform draw of `random.random()`;
- the index `random.randrange` returns;
- `clock(k)`, the value of the k-th `time.time()` call in one `sendFlow`
  run;
- `unacked(k)`, the k-th `getTCPUnacked` poll.

The packets `socket.send` would write come back as a sequence.

Points where the code's behaviour is easy to misread:

- The band grows with the remaining size. A flow of the table's largest size
  starts in band 16 ('P') and drops to band 1 ('A') in its last band-width of
  packets (`BandAtMaxSize`, `BandOneIff`). Band 1 is the prio qdisc's first
  and most urgent band, so short remainders still get the highest priority.
- The comment at `pfabric.py:113` says the filters run up to 'O' for band 16.
  The code (`pfabric.py:115-116`) matches `64 + 16`, which is 'P'. The model
  follows the code, and the code agrees with the sender's map
  (`SwitchHonoursMarkers`).
- `flowSize` counts 1024-character packets, not bytes: `toSend` drops by one
  per packet.

## Model

| member | source | states |
|---|---|---|
| PyOps.FloorDivBounds | sender.py:65 | `FloorDiv`, Python 2 `/` on ints, is the floor quotient: bounded as floor division requires for both signs of the divisor |
| PyOps.TruncToInt | sender.py:31 | `int(x)` truncates toward zero: the result is within one of x, on x's side of zero |
| PyOps.BeforeFirstDot | sender.py:27 | `split('.')[0]` is a dot-free prefix of the name, followed in it by a '.' unless it is the whole name |
| PyOps.BeforeFirstDotAppend | sender.py:27 | a dot-free prefix of the name is kept whole by `split('.')[0]` |
| Priority.PriorityBand | sender.py:63-66 | the band is undefined (ZeroDivisionError) exactly when 0 <= maxSize < 16, and it never exceeds 16 |
| Priority.BandWidth | sender.py:65 | for maxSize >= 16 the band width maxSize/16 is at least 1 and 16 widths fit in maxSize |
| Priority.BandBounds | sender.py:63-66 | for maxSize >= 16 and remaining >= 0 the band exists and lies in 1..16 |
| Priority.BandMonotone | sender.py:63-66 | the band is non-decreasing in the remaining size |
| Priority.BandOneIff | sender.py:65-66 | band 1 exactly when remaining < maxSize/16 |
| Priority.BandSixteenIff | sender.py:65-66 | band 16 exactly when remaining >= 15 * (maxSize/16) |
| Priority.BandAtMaxSize | sender.py:64-66 | a flow of the largest size gets band 16 |
| Priority.Marker | sender.py:94-99 | band i's marker `chr(64+i)` lies in 'A'..'P' |
| Priority.BandMarkersProps | sender.py:94-99 | the prio map has exactly the keys 1..16, maps i to code 64+i, is injective and order-preserving |
| Workload.FirstExceeding | sender.py:46-48 | the least index whose running total exceeds rnd; None exactly when no total does |
| Workload.SampledSize | sender.py:50-52 | a drawn size is a member of the size list; it exists exactly when the chosen index is in range |
| Workload.SumAppend | sender.py:41-43 | the running sum of a concatenation is the sum of the parts |
| Workload.WeightsTelescope | sender.py:29-33 | the first k+1 appended weights sum to row k's cumulative fraction |
| Workload.RunningTotalsAreCumulative | sender.py:38-43 | the running totals over one table's weights are its cumulative column |
| Workload.LoadedTotalWeight | sender.py:29-43 | after a load the total weight grows by the table's last cumulative fraction |
| Workload.WeightsNonNegativeIff | sender.py:32 | all weights are non-negative exactly when the cumulative column never decreases from 0 |
| Workload.ScaledBelow | sender.py:45 | a draw below 1 scaled by a positive total stays below the total |
| Workload.ChoiceExists | sender.py:45-48 | with positive total weight and a draw below 1 an index is found, within the weight list |
| Workload.SampleDefined | sender.py:50-52 | with parallel lists of positive total weight `randomSize` returns a member of the size list |
| Workload.SameLeast | sender.py:46-48 | the least index with rnd < totals[j] is the one chosen |
| Workload.FlowTypeOfWorkload | sender.py:27 | the recorded flowType is "flows/websearch" or "flows/datamining" for the two accepted names |
| Workload.MeanSizeOfWorkload | sender.py:54-58 | meanSize is 1620 for the web-search file and 9500 for data mining, whatever the table holds |
| Workload.MaxSizeAfterLoad | sender.py:60-61 | after a load of a non-empty table maxSize is `int` of its last row's size |
| Workload.FlowTables.constructor | sender.py:11-12 | the shared lists start empty and parallel |
| Workload.FlowTables.AppendRows | sender.py:29-33 | appends one `int(size)` and one cumulative difference per row, keeping earlier entries and the lists parallel |
| Workload.Flow.Load | sender.py:17-33 | rejects every name but the two workload files with "Incorrect input file", leaving the tables alone; otherwise records flowType and appends the rows |
| Workload.Flow.WeightedChoice | sender.py:37-48 | returns the least index whose running total exceeds the scaled draw, within the weight list |
| Workload.Flow.RandomSize | sender.py:50-52 | returns the size at the chosen index, a member of the size list; with parallel lists (`FlowTables.Valid`) of positive total weight and a draw below 1 it never hits the IndexError |
| Workload.Flow.MeanSize | sender.py:54-58 | one of the two reference means, 1620 or 9500; `MeanSizeOfWorkload` fixes which from the file name |
| Workload.Flow.MaxSize | sender.py:60-61 | the last entry is a member of the size list, and an IndexError exactly when the list is empty; `MaxSizeAfterLoad` ties it to the loaded table |
| Workload.Flow.GetPriority | sender.py:63-66 | raises exactly when there is no last size or its band width is zero; otherwise at most 16, and at least 1 for remaining >= 0 and maxSize >= 16; the `Band*` lemmas of `Priority` give its shape |
| FlowSender.Packet | sender.py:131-133 | a packet has 1024 characters: the marker, then 1023 '0' |
| FlowSender.Sender.MarkerFor | sender.py:129-133 | `prioMap[getPriority(remaining)]`: fails exactly when getPriority raises or the band is no key, else the map's entry, a letter 'A'..'P' under the full map; `MarkerOfBand` gives the letter |
| FlowSender.MarkerOfBand | sender.py:129-133 | with the full map and maxSize >= 16 a packet's marker is the marker of its band in 1..16 |
| FlowSender.MarkersNonIncreasing | sender.py:129-133 | fewer remaining packets never give a later marker letter |
| FlowSender.WithoutMembership | sender.py:80-85 | the filtered list holds every address other than the own one, and no copy of the own one |
| FlowSender.WithoutMultiplicity | sender.py:80-85 | every other address keeps its number of copies |
| FlowSender.WithoutConcat | sender.py:80-85 | filtering keeps the original order of the kept elements |
| FlowSender.Sender.constructor | sender.py:70-78 | stores the settings, builds the full prio map and removes the own address from the destinations |
| FlowSender.Sender.RemoveSelfFromDestList | sender.py:80-85 | the new destination list is the old one without the own address |
| FlowSender.Sender.CreatePrioMap | sender.py:94-99 | the map built is band i to `chr(64+i)` for i in 1..16 |
| FlowSender.Sender.CreateFlowObj | sender.py:87-88 | fails exactly for a wrong workload name, leaving the tables alone; otherwise installs a fresh flow over the shared tables |
| FlowSender.Sender.SetTimers | sender.py:90-92 | stores the start time and the run time |
| FlowSender.Sender.PickDest | sender.py:109-113 | the destination at the drawn index, a member of the list and never the own address; none for an empty list |
| FlowSender.PacketsMatchSnoc | sender.py:133-137 | sending the expected next packet keeps every packet equal to its expected one |
| FlowSender.Sender.PacketsForAt | sender.py:129-133 | packet k of a sent flow carries the marker for size - k remaining and is that marker's packet |
| FlowSender.Sender.BandedMarkersDefined | sender.py:129-133 | with the full map and maxSize >= 16 no marker lookup of a flow with packets left raises |
| FlowSender.Sender.PacketMarkersNonIncreasing | sender.py:125-137 | the markers of a flow's packets never rise from one packet to a later one |
| FlowSender.Sender.SendFlow | sender.py:120-146 | every packet passed its deadline check; packet k carries the marker for flowSize-k remaining; an abort is a check firing in the send or drain loop; a past deadline at the first check sends nothing; with all checks passing exactly flowSize packets go out; completion returns (flowSize, FCT) after the unacked count reached zero, and FCT >= 0 for a monotone clock |
| FlowSender.Sender.SendPackets | sender.py:125-137 | the send loop: every packet sent passed its check and matches its marker; it stops with all flowSize packets out, at a check that fired, or at a marker lookup that raised |
| FlowSender.Sender.DrainUnacked | sender.py:139-145 | returns the completion clock call after a poll at zero with no check fired, or none when a check fired while polls were positive |
| Pfabric.ArgError | pfabric.py:62-73 | no error exactly when all six checks hold; otherwise the message of the first failing check, in source order |
| Pfabric.DefaultsAccepted | pfabric.py:28-73 | with the parser's defaults for the optional arguments (`DefaultArgs`: out "outputs/", k 3, 54 hosts, time 180, topology star), the arguments pass exactly when traffic and cong are valid |
| Pfabric.AdjustSysSettings | pfabric.py:84-94 | qSize is 24 for mintcp, 154 for tcp and 1000 otherwise, the whole MTUs that fit each buffer; ports 1..hosts each get qSize |
| Pfabric.WorkloadPath | pfabric.py:137-141 | the workload file is one of the two names `flow` accepts, the web-search one exactly for "web" |
| Pfabric.MeanSizeForTraffic | pfabric.py:137-141 | a flow built on the chosen file reports mean 1620 for web traffic and 9500 otherwise |
| Pfabric.OutDir | pfabric.py:133 | the directory is out, '/', traffic, '_', cong, each at its position |
| Pfabric.OutDirInjective | pfabric.py:133 | under one out, the four accepted (traffic, cong) pairs give four different directories |
| Pfabric.AddPriorityQDisc | pfabric.py:108-116 | the loop over bands 2..16 yields exactly the 15 rules of `BandRules`, each matching byte 64+i to class 2:i with i in 2..16 |
| Pfabric.ClassOf | pfabric.py:108-116 | a packet goes to the flow id of a matching rule, or to band 1 when no rule matches |
| Pfabric.ClassOfFirstMatch | pfabric.py:114-116 | the first matching filter decides the band |
| Pfabric.SwitchHonoursMarkers | pfabric.py:108-116 | a packet carrying band b's marker lands in band b for every b in 1..16; 'A' matches no filter |

## Left out

- `receiver.py` is not part of this model. It is a socket accept loop with one thread per connection, with no data logic.
- Sockets and the kernel are left out. `openTCPConnection`, `socket.send`, `sendRoutine` and the `TCP_INFO` read of `getTCPUnacked` are replaced by the `unacked` oracle and the returned packet sequence. Partial writes of `socket.send` are not modelled.
- Randomness is not modelled. `random.random()` and `random.randrange` are given draws, and nothing statistical is stated.
- `main` of `sender.py` is left out: the float rate, the sleep-based arrival loop, the pickle load and the locked append to the result file.
- Text parsing of the workload files is left out. Rows arrive as parsed numbers and weights are exact reals, so float rounding is not modelled.
- The driver's orchestration is left out: the Mininet topology, `os.system`, `switch.cmd`, `popen`, the pickle dump and the list of loads. `AdjustSysSettings` records the queue lengths it would set instead of running `ifconfig`. `AddPriorityQDisc` returns the rules of one interface; the loop over the switch's interfaces, the root htb qdisc and the command text are not modelled.
- `deleteQDiscs`, `resetSystem` and `makeHostList` only issue commands or query Mininet, so they are left out.
- FlowSender.Sender.SendFlow: termination of the drain loop relies on a ghost `lateFrom`, a clock call from which every deadline check fires. The Python loop may poll forever if the clock never passes the deadline; that case is not modelled.
- FlowSender.Sender.SendFlow: exceptions (a `None` index, a zero band width, a band missing from `prioMap`) are all one `Crashed` outcome, without the exception type.
- FlowSender.Sender: `starttime` and `runtime` start at 0 rather than being absent before `setTimers`. Reading them earlier raises AttributeError in Python, and the model does not capture that.
- Workload.Flow.Load: the `with open(...)` read of the file is the `rows` parameter, so a missing file's IOError is not modelled.
