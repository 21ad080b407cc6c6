/**
 * Request synthesis of the bulk slice driver: the slice and flow records that
 * the create and update workflows send (createSliceDtos, updateSliceDto,
 * createRequestFlowDto).
 *
 * java.util.Random is replaced by the bits it hands out: `Coin(p, k)` is what
 * `nextBoolean()` returns for the k-th flow built by one call. Counters are
 * unbounded (Java int overflow is not modelled).
 */
module SliceRequests {
  import opened Wrappers
  import opened Decimal
  import opened Dtos
  import opened Tabulation
  import opened ConfigKeys

  const CePortNoOffset: nat := 100
  const ReqBandWidth: int := 1      // 1 Mbps
  const LargeReqDelay: int := 9999
  const SmallReqDelay: int := 10
  const ModFlowType: string := "mod"

  /**
   * What every flow of one request batch shares: the optional bandwidth and
   * latency given on the command line, the configured source component name
   * (`clientConfig.getSrcComponentName()`), and the random bits drawn for
   * the flows, in order.
   */
  datatype FlowParams = FlowParams(
    bandWidth: Option<int>,
    latency: Option<int>,
    srcComponentName: Option<string>,
    coins: seq<bool>)

  /**
   * The bit `nextBoolean()` gives for flow `g`. Any finite run draws finitely many
   * bits, so every run is described by a long enough `coins`; bits past its end
   * read as false.
   */
  function Coin(p: FlowParams, g: nat): bool {
    g < |p.coins| && p.coins[g]
  }

  /** A Java loop `for (i = 0; i < n; i++)` runs this many times. */
  function Count(n: int): nat {
    if n < 0 then 0 else n
  }

  function SliceName(i: nat): string {
    "slice" + Pad8(i)
  }

  function FlowName(i: nat): string {
    "flow" + Pad8(i)
  }

  /** "123" unless the configured source component is the "other" client type (null counts as not equal). */
  function NodeNameSuffix(srcComponentName: Option<string>): (sfx: string)
    ensures sfx == "" <==> srcComponentName == Some(ClientTypeOther)
  {
    if srcComponentName == Some(ClientTypeOther) then "" else "123"
  }

  function RequestDelay(latency: Option<int>, coin: bool): int {
    if latency.Some? then latency.value else if coin then LargeReqDelay else SmallReqDelay
  }

  /** The flow record createRequestFlowDto returns; `coin` is the bit drawn for it. */
  function RequestFlow(name: string, portNo: nat, p: FlowParams, coin: bool): FlowDto {
    var sfx := NodeNameSuffix(p.srcComponentName);
    FlowDto(
      id := None,
      name := Some(name),
      srcCENodeName := Some("tokyo" + sfx),
      srcCEPortNo := Some(Pad8(portNo)),
      dstCENodeName := Some("osaka" + sfx),
      dstCEPortNo := Some(Pad8(portNo)),
      reqBandWidth := Some(p.bandWidth.GetOr(ReqBandWidth)),
      reqDelay := Some(RequestDelay(p.latency, coin)),
      protectionLevel := Some("0"),
      flowType := None,
      flowTypeName := None)
  }

  /** createRequestFlowDto: a fresh FlowDto filled in field by field. */
  method CreateRequestFlowDto(name: string, portNo: nat, p: FlowParams, coin: bool) returns (f: FlowDto)
    ensures f == RequestFlow(name, portNo, p, coin)
  {
    var nodeNameSuffix := "";
    if p.srcComponentName != Some(ClientTypeOther) {
      nodeNameSuffix := "123";
    }
    var sPortNo := Pad8(portNo);
    f := EmptyFlow;
    f := f.(name := Some(name));
    f := f.(srcCENodeName := Some("tokyo" + nodeNameSuffix));
    f := f.(srcCEPortNo := Some(sPortNo));
    f := f.(dstCENodeName := Some("osaka" + nodeNameSuffix));
    f := f.(dstCEPortNo := Some(sPortNo));
    if p.bandWidth.Some? {
      f := f.(reqBandWidth := p.bandWidth);
    } else {
      f := f.(reqBandWidth := Some(ReqBandWidth));
    }
    if p.latency.Some? {
      f := f.(reqDelay := p.latency);
    } else {
      f := f.(reqDelay := Some(if coin then LargeReqDelay else SmallReqDelay));
    }
    f := f.(protectionLevel := Some("0"));
  }

  /**
   * What a request flow carries: the given name; one zero-padded port, equal on
   * both ends, that parses back to `portNo`; bandwidth and delay as supplied or
   * else 1 and one of 9999 / 10; protection level "0"; nodes tokyo/osaka with the
   * suffix "123" except for the "other" client type; no id, type or type name.
   */
  lemma RequestFlowFields(name: string, portNo: nat, p: FlowParams, coin: bool)
    ensures var f := RequestFlow(name, portNo, p, coin);
      && f.name == Some(name)
      && f.srcCEPortNo == f.dstCEPortNo == Some(Pad8(portNo))
      && Value(f.srcCEPortNo.value) == portNo
      && (p.bandWidth.None? ==> f.reqBandWidth == Some(1))
      && (p.bandWidth.Some? ==> f.reqBandWidth == p.bandWidth)
      && (p.latency.Some? ==> f.reqDelay == p.latency)
      && (p.latency.None? ==> f.reqDelay == Some(9999) || f.reqDelay == Some(10))
      && f.protectionLevel == Some("0")
      && (p.srcComponentName == Some(ClientTypeOther) ==>
            f.srcCENodeName == Some("tokyo") && f.dstCENodeName == Some("osaka"))
      && (p.srcComponentName != Some(ClientTypeOther) ==>
            f.srcCENodeName == Some("tokyo123") && f.dstCENodeName == Some("osaka123"))
      && f.id == None && f.flowType == None && f.flowTypeName == None
  {
    Pad8Value(portNo);
    assert "tokyo" + "" == "tokyo" && "osaka" + "" == "osaka";
    assert "tokyo" + "123" == "tokyo123" && "osaka" + "123" == "osaka123";
  }

  /** The flow with global index `g` of a create batch: name and port both come from `g`. */
  function BatchFlow(g: nat, p: FlowParams): FlowDto {
    RequestFlow(FlowName(g), CePortNoOffset + g, p, Coin(p, g))
  }

  /** The first `k` flows of a slice whose flows start at global index `base`. */
  function BatchFlows(base: nat, k: nat, p: FlowParams): seq<FlowDto> {
    Tabulate(g => BatchFlow(g, p), base, k)
  }

  /** Slice `s` of a create batch; its `m` flows take the global indexes from `base` on. */
  function CreatedSlice(s: nat, base: nat, m: nat, p: FlowParams): SliceDto {
    SliceDto(id := None, name := Some(SliceName(s)), flows := Some(BatchFlows(base, m, p)))
  }

  /** The first `n` slices of a create batch with `m` flows per slice: slice s starts at global index s*m. */
  function CreateBatch(n: nat, m: nat, p: FlowParams): seq<SliceDto> {
    Tabulate((s: nat) => CreatedSlice(s, SliceBase(s, m), m, p), 0, n)
  }

  /**
   * createSliceDtos: nested loops with a flow counter and a port counter shared
   * by the whole batch (never reset between slices).
   */
  method CreateSliceDtos(nSlice: int, nFlowForSlice: int, p: FlowParams) returns (sliceDtos: seq<SliceDto>)
    ensures sliceDtos == CreateBatch(Count(nSlice), Count(nFlowForSlice), p)
  {
    ghost var n := Count(nSlice);
    ghost var m := Count(nFlowForSlice);
    sliceDtos := [];
    var nTotalFlowIdx: nat := 0;
    var portNo: nat := CePortNoOffset;
    var sliceIdx: nat := 0;
    while sliceIdx < nSlice
      invariant sliceIdx <= n
      invariant nTotalFlowIdx == SliceBase(sliceIdx, m)
      invariant portNo == CePortNoOffset + nTotalFlowIdx
      invariant sliceDtos == CreateBatch(sliceIdx, m, p)
    {
      var sliceDto := EmptySlice.(name := Some(SliceName(sliceIdx)));
      ghost var base := nTotalFlowIdx;
      var flows: seq<FlowDto> := [];
      var flowIdx: nat := 0;
      while flowIdx < nFlowForSlice
        invariant flowIdx <= m
        invariant nTotalFlowIdx == base + flowIdx
        invariant portNo == CePortNoOffset + nTotalFlowIdx
        invariant flows == BatchFlows(base, flowIdx, p)
      {
        var flowName := FlowName(nTotalFlowIdx);
        var flow := CreateRequestFlowDto(flowName, portNo, p, Coin(p, nTotalFlowIdx));
        TabulateSnoc(g => BatchFlow(g, p), base, flowIdx);
        flows := flows + [flow];
        nTotalFlowIdx := nTotalFlowIdx + 1;
        portNo := portNo + 1;
        flowIdx := flowIdx + 1;
      }
      sliceDto := sliceDto.(flows := Some(flows));
      assert nTotalFlowIdx == SliceBase(sliceIdx + 1, m);
      TabulateSnoc((s: nat) => CreatedSlice(s, SliceBase(s, m), m, p), 0, sliceIdx);
      sliceDtos := sliceDtos + [sliceDto];
      sliceIdx := sliceIdx + 1;
    }
  }

  /** Flow k of a slice starting at `base` is the batch flow with global index base + k. */
  lemma BatchFlowsAt(base: nat, k: nat, i: nat, p: FlowParams)
    requires i < k
    ensures |BatchFlows(base, k, p)| == k
    ensures BatchFlows(base, k, p)[i] == BatchFlow(base + i, p)
  {
  }

  /** Slice s of a create batch is the s-th created slice, starting at global index s*m. */
  lemma CreateBatchAt(n: nat, m: nat, s: nat, p: FlowParams)
    requires s < n
    ensures |CreateBatch(n, m, p)| == n
    ensures CreateBatch(n, m, p)[s] == CreatedSlice(s, SliceBase(s, m), m, p)
  {
  }

  /**
   * The global index at which slice `s` starts when every slice has `m` flows:
   * the flow counter is shared by all slices, so it is the sum of the earlier
   * slices' sizes (s*m, as SliceBaseIsProduct shows).
   */
  function SliceBase(s: nat, m: nat): nat {
    if s == 0 then 0 else SliceBase(s - 1, m) + m
  }

  lemma {:induction false} SliceBaseIsProduct(s: nat, m: nat)
    ensures SliceBase(s, m) == s * m
  {
    if s > 0 {
      SliceBaseIsProduct(s - 1, m);
    }
  }

  lemma {:induction false} SliceBaseMonotone(s1: nat, s2: nat, m: nat)
    requires s1 <= s2
    ensures SliceBase(s1, m) <= SliceBase(s2, m)
    decreases s2 - s1
  {
    if s1 < s2 {
      SliceBaseMonotone(s1, s2 - 1, m);
    }
  }

  /** In slice order then flow order, global flow indexes strictly increase; hence they are unique. */
  lemma GlobalIndexOrdered(m: nat, s1: nat, k1: nat, s2: nat, k2: nat)
    requires k1 < m && k2 < m
    requires s1 < s2 || (s1 == s2 && k1 < k2)
    ensures SliceBase(s1, m) + k1 < SliceBase(s2, m) + k2
  {
    if s1 < s2 {
      SliceBaseMonotone(s1 + 1, s2, m);
    }
  }

  /**
   * The shape and naming of a create batch: n slices named "slice"+pad8(s), each
   * with m flows; flow k of slice s is named "flow"+pad8(s*m+k) and uses port
   * pad8(100+s*m+k) on both ends.
   */
  lemma CreateBatchShape(n: nat, m: nat, p: FlowParams, s: nat, k: nat)
    requires s < n && k < m
    ensures var b := CreateBatch(n, m, p);
      && |b| == n
      && b[s].id == None
      && b[s].name == Some("slice" + Pad8(s))
      && b[s].flows.Some? && |b[s].flows.value| == m
      && b[s].flows.value[k].name == Some("flow" + Pad8(SliceBase(s, m) + k))
      && b[s].flows.value[k].srcCEPortNo == Some(Pad8(100 + SliceBase(s, m) + k))
      && b[s].flows.value[k].dstCEPortNo == Some(Pad8(100 + SliceBase(s, m) + k))
  {
    CreateBatchAt(n, m, s, p);
    BatchFlowsAt(SliceBase(s, m), m, k, p);
  }

  /** All slice names of a create batch are distinct. */
  lemma CreateBatchSliceNamesDistinct(n: nat, m: nat, p: FlowParams, s1: nat, s2: nat)
    requires s1 < s2 < n
    ensures CreateBatch(n, m, p)[s1].name != CreateBatch(n, m, p)[s2].name
  {
    CreateBatchAt(n, m, s1, p);
    CreateBatchAt(n, m, s2, p);
    Pad8Injective(s1, s2);
    assert SliceName(s1)[5..] == Pad8(s1) && SliceName(s2)[5..] == Pad8(s2);
  }

  /** Flows with different global indexes have different names. */
  lemma BatchFlowNamesDistinct(g1: nat, g2: nat, p: FlowParams)
    requires g1 != g2
    ensures BatchFlow(g1, p).name != BatchFlow(g2, p).name
  {
    Pad8Injective(g1, g2);
    assert FlowName(g1)[4..] == Pad8(g1) && FlowName(g2)[4..] == Pad8(g2);
  }

  /** All flow names of a create batch are distinct, across slices as well as within one. */
  lemma CreateBatchFlowNamesDistinct(n: nat, m: nat, p: FlowParams, s1: nat, k1: nat, s2: nat, k2: nat)
    requires s1 < n && s2 < n && k1 < m && k2 < m
    requires s1 != s2 || k1 != k2
    ensures var b := CreateBatch(n, m, p);
      && |b| == n
      && b[s1].flows.Some? && k1 < |b[s1].flows.value|
      && b[s2].flows.Some? && k2 < |b[s2].flows.value|
      && b[s1].flows.value[k1].name != b[s2].flows.value[k2].name
  {
    var g1, g2 := SliceBase(s1, m) + k1, SliceBase(s2, m) + k2;
    assert g1 != g2 by {
      if s1 < s2 || (s1 == s2 && k1 < k2) {
        GlobalIndexOrdered(m, s1, k1, s2, k2);
      } else {
        GlobalIndexOrdered(m, s2, k2, s1, k1);
      }
    }
    BatchFlowNamesDistinct(g1, g2, p);
    CreateBatchFlowAt(n, m, p, s1, k1);
    CreateBatchFlowAt(n, m, p, s2, k2);
  }

  /** The number a flow's source port string denotes, if it is a string of digits. */
  function PortNumber(f: FlowDto): Option<nat> {
    if f.srcCEPortNo.Some? && AllDigits(f.srcCEPortNo.value) then Some(Value(f.srcCEPortNo.value)) else None
  }

  /** The batch flow with global index g uses port number 100 + g. */
  lemma BatchFlowPort(g: nat, p: FlowParams)
    ensures PortNumber(BatchFlow(g, p)) == Some(100 + g)
  {
    Pad8Value(CePortNoOffset + g);
  }

  /** Flow k of slice s in a create batch is the batch flow with global index SliceBase(s, m) + k. */
  lemma CreateBatchFlowAt(n: nat, m: nat, p: FlowParams, s: nat, k: nat)
    requires s < n && k < m
    ensures var b := CreateBatch(n, m, p);
      && |b| == n && b[s].flows.Some? && |b[s].flows.value| == m
      && b[s].flows.value[k] == BatchFlow(SliceBase(s, m) + k, p)
  {
    CreateBatchAt(n, m, s, p);
    BatchFlowsAt(SliceBase(s, m), m, k, p);
  }

  /**
   * The flow at global position SliceBase(s, m) + k carries port number
   * 100 + SliceBase(s, m) + k, so ports strictly increase across the whole batch,
   * in slice order and then flow order.
   */
  lemma CreateBatchPortsIncrease(n: nat, m: nat, p: FlowParams, s1: nat, k1: nat, s2: nat, k2: nat)
    requires s1 < n && s2 < n && k1 < m && k2 < m
    requires s1 < s2 || (s1 == s2 && k1 < k2)
    ensures var b := CreateBatch(n, m, p);
      && |b| == n
      && b[s1].flows.Some? && k1 < |b[s1].flows.value|
      && b[s2].flows.Some? && k2 < |b[s2].flows.value|
      && PortNumber(b[s1].flows.value[k1]) == Some(100 + SliceBase(s1, m) + k1)
      && PortNumber(b[s2].flows.value[k2]) == Some(100 + SliceBase(s2, m) + k2)
      && SliceBase(s1, m) + k1 < SliceBase(s2, m) + k2
  {
    var b := CreateBatch(n, m, p);
    var g1, g2 := SliceBase(s1, m) + k1, SliceBase(s2, m) + k2;
    CreateBatchFlowAt(n, m, p, s1, k1);
    CreateBatchFlowAt(n, m, p, s2, k2);
    var f1, f2 := b[s1].flows.value[k1], b[s2].flows.value[k2];
    assert PortNumber(f1) == Some(100 + g1) by {
      BatchFlowPort(g1, p);
    }
    assert PortNumber(f2) == Some(100 + g2) by {
      BatchFlowPort(g2, p);
    }
    GlobalIndexOrdered(m, s1, k1, s2, k2);
  }

  /** Output flow `k` of updateSliceDto for the registered flow `existing`. */
  function UpdateFlow(existing: FlowDto, k: nat, p: FlowParams): FlowDto {
    RequestFlow(FlowName(k), CePortNoOffset + k, p, Coin(p, k)).(flowType := Some(ModFlowType), id := existing.id)
  }

  /** The update flows for the first `k` registered flows. */
  function UpdateFlows(registered: seq<FlowDto>, k: nat, p: FlowParams): seq<FlowDto>
    requires k <= |registered|
  {
    MapIndexed((f, i) => UpdateFlow(f, i, p), registered, k)
  }

  /** The replacement slice updateSliceDto builds from a registered slice that has a flow list. */
  function UpdatedSlice(registered: SliceDto, p: FlowParams): SliceDto
    requires registered.flows.Some?
  {
    var flows := registered.flows.value;
    SliceDto(id := registered.id, name := None, flows := Some(UpdateFlows(flows, |flows|, p)))
  }

  /**
   * updateSliceDto. Iterating over `registeredSlice.flows` throws a
   * NullPointerException when the registered slice has no flow list; that is the
   * None result.
   */
  method UpdateSliceDto(registeredSlice: SliceDto, p: FlowParams) returns (r: Option<SliceDto>)
    ensures r.Some? <==> registeredSlice.flows.Some?
    ensures r.Some? ==> r.value == UpdatedSlice(registeredSlice, p)
  {
    if registeredSlice.flows.None? {
      return None;
    }
    var registeredFlows := registeredSlice.flows.value;
    var nTotalFlowIdx: nat := 0;
    var portNo: nat := CePortNoOffset;
    var sliceDto := EmptySlice.(id := registeredSlice.id);
    var flows: seq<FlowDto> := [];
    while nTotalFlowIdx < |registeredFlows|
      invariant nTotalFlowIdx <= |registeredFlows|
      invariant portNo == CePortNoOffset + nTotalFlowIdx
      invariant flows == UpdateFlows(registeredFlows, nTotalFlowIdx, p)
    {
      var flow := registeredFlows[nTotalFlowIdx];
      var flowName := FlowName(nTotalFlowIdx);
      var updateFlow := CreateRequestFlowDto(flowName, portNo, p, Coin(p, nTotalFlowIdx));
      updateFlow := updateFlow.(flowType := Some(ModFlowType));
      updateFlow := updateFlow.(id := flow.id);
      MapIndexedSnoc((f, i) => UpdateFlow(f, i, p), registeredFlows, nTotalFlowIdx);
      flows := flows + [updateFlow];
      nTotalFlowIdx := nTotalFlowIdx + 1;
      portNo := portNo + 1;
    }
    sliceDto := sliceDto.(flows := Some(flows));
    r := Some(sliceDto);
  }

  lemma UpdateFlowsAt(registered: seq<FlowDto>, k: nat, i: nat, p: FlowParams)
    requires i < k <= |registered|
    ensures |UpdateFlows(registered, k, p)| == k
    ensures UpdateFlows(registered, k, p)[i] == UpdateFlow(registered[i], i, p)
  {
  }

  /**
   * The update request keeps the slice id and sets no name; it has one flow per
   * registered flow, in order, each keeping the registered flow's id and tagged
   * "mod"; names and ports restart at flow00000000 and port 100 for every slice.
   */
  lemma UpdatedSliceKeepsIdentity(registered: SliceDto, p: FlowParams, k: nat)
    requires registered.flows.Some? && k < |registered.flows.value|
    ensures var u := UpdatedSlice(registered, p);
      && u.id == registered.id
      && u.name == None
      && u.flows.Some? && |u.flows.value| == |registered.flows.value|
      && u.flows.value[k].id == registered.flows.value[k].id
      && u.flows.value[k].flowType == Some("mod")
      && u.flows.value[k].name == Some("flow" + Pad8(k))
      && u.flows.value[k].srcCEPortNo == Some(Pad8(100 + k))
      && u.flows.value[k].dstCEPortNo == Some(Pad8(100 + k))
      && u.flows.value[k].reqBandWidth == Some(p.bandWidth.GetOr(1))
      && u.flows.value[k].reqDelay == Some(RequestDelay(p.latency, Coin(p, k)))
  {
    UpdateFlowsAt(registered.flows.value, |registered.flows.value|, k, p);
  }

  lemma SliceNameDigit(d: nat)
    requires d < 10
    ensures SliceName(d) == "slice0000000" + [DigitChar(d)]
  {
    assert Zeros(7) == "0000000";
  }

  lemma FlowNameDigit(d: nat)
    requires d < 10
    ensures FlowName(d) == "flow0000000" + [DigitChar(d)]
  {
    assert Zeros(7) == "0000000";
  }

  lemma PortDigit(d: nat)
    requires d < 10
    ensures Pad8(100 + d) == "0000010" + [DigitChar(d)]
  {
    assert Digits(10) == "10";
    assert Digits(100 + d) == "10" + [DigitChar(d)];
    assert Zeros(5) == "00000";
  }

  lemma ExampleStrings()
    ensures SliceName(0) == "slice00000000" && SliceName(1) == "slice00000001"
    ensures FlowName(0) == "flow00000000" && FlowName(1) == "flow00000001"
    ensures FlowName(3) == "flow00000003" && FlowName(5) == "flow00000005"
    ensures Pad8(100) == "00000100" && Pad8(105) == "00000105"
  {
    SliceNameDigit(0); SliceNameDigit(1);
    FlowNameDigit(0); FlowNameDigit(1); FlowNameDigit(3); FlowNameDigit(5);
    PortDigit(0); PortDigit(5);
    assert DigitChar(0) == '0' && DigitChar(1) == '1' && DigitChar(3) == '3' && DigitChar(5) == '5';
  }

  /** Two slices of three flows, default bandwidth and latency: the names, ports and defaults of the batch. */
  lemma CreateBatchExample(p: FlowParams)
    requires p.bandWidth == None && p.latency == None
    ensures var b := CreateBatch(2, 3, p);
      && b[0].name == Some("slice00000000") && b[1].name == Some("slice00000001")
      && b[0].flows.Some? && b[1].flows.Some?
      && |b[0].flows.value| == 3 && |b[1].flows.value| == 3
      && b[0].flows.value[0].name == Some("flow00000000")
      && b[1].flows.value[0].name == Some("flow00000003")
      && b[1].flows.value[2].name == Some("flow00000005")
      && b[0].flows.value[0].srcCEPortNo == Some("00000100")
      && b[1].flows.value[2].dstCEPortNo == Some("00000105")
      && b[1].flows.value[2].reqBandWidth == Some(1)
      && b[1].flows.value[2].protectionLevel == Some("0")
  {
    assert SliceBase(1, 3) == 3;
    CreateBatchAt(2, 3, 0, p);
    CreateBatchAt(2, 3, 1, p);
    CreateBatchFlowAt(2, 3, p, 0, 0);
    CreateBatchFlowAt(2, 3, p, 1, 0);
    CreateBatchFlowAt(2, 3, p, 1, 2);
    ExampleStrings();
  }

  /**
   * One registered slice with flows whose ids are 1 and 2, bandwidth 50 and
   * latency 20: the update keeps the slice id and both flow ids, tags both "mod",
   * and names them flow00000000 and flow00000001.
   */
  lemma UpdateExample(registered: SliceDto, p: FlowParams)
    requires registered.flows.Some? && |registered.flows.value| == 2
    requires registered.flows.value[0].id == Some(1) && registered.flows.value[1].id == Some(2)
    requires p.bandWidth == Some(50) && p.latency == Some(20)
    ensures var u := UpdatedSlice(registered, p);
      && u.id == registered.id
      && u.flows.Some? && |u.flows.value| == 2
      && u.flows.value[0].id == Some(1) && u.flows.value[1].id == Some(2)
      && u.flows.value[0].name == Some("flow00000000") && u.flows.value[1].name == Some("flow00000001")
      && u.flows.value[0].flowType == Some("mod") && u.flows.value[1].flowType == Some("mod")
      && u.flows.value[0].reqBandWidth == Some(50) && u.flows.value[1].reqBandWidth == Some(50)
      && u.flows.value[0].reqDelay == Some(20) && u.flows.value[1].reqDelay == Some(20)
  {
    UpdatedSliceKeepsIdentity(registered, p, 0);
    UpdatedSliceKeepsIdentity(registered, p, 1);
    ExampleStrings();
  }
}
