/**
 * The data side of the slice information view (MloInfoViewController): the
 * JavaScript call that hands a slice's flows to the topology page, the
 * name-to-id map of the listed slices, and the id-only records the view
 * hands to the read and delete tasks.
 */
module InfoView {
  import opened Wrappers
  import opened Decimal
  import opened Dtos
  import opened Tabulation
  import opened LinkedMaps

  // ---------------------------------------------------------------- topology script

  const UnknownFlowTypeName: string := "== UNKNOWN =="

  /** The slice-name argument: the name in single quotes, or `null`. */
  function NameArg(slice: Option<SliceDto>): string {
    if slice.Some? && slice.value.name.Some? then "'" + slice.value.name.value + "'" else "null"
  }

  /** The flow's name, or `Flow-<idx>` for the flow at 1-based position idx. */
  function FlowLabel(f: FlowDto, idx: nat): string {
    if f.name.Some? then f.name.value else "Flow-" + Show(idx)
  }

  function TypeLabel(f: FlowDto): string {
    if f.flowTypeName.Some? then f.flowTypeName.value else UnknownFlowTypeName
  }

  /** `String.format("{flowName:\"%s\", flowTypeName:\"%s\"}", …)` */
  function Element(f: FlowDto, idx: nat): string {
    "{flowName:\"" + FlowLabel(f, idx) + "\", flowTypeName:\"" + TypeLabel(f) + "\"}"
  }

  /** The elements of the first k flows, flow i at 1-based position i + 1. */
  function Elements(flows: seq<FlowDto>, k: nat): seq<string>
    requires k <= |flows|
  {
    MapIndexed((f: FlowDto, i: nat) => Element(f, i + 1), flows, k)
  }

  /** The strings separated by single commas. */
  function Joined(es: seq<string>): string {
    if |es| == 0 then ""
    else if |es| == 1 then es[0]
    else Joined(es[..|es| - 1]) + "," + es[|es| - 1]
  }

  /** The flow-list argument: the bracketed element list, or `null`. */
  function ListArg(slice: Option<SliceDto>): string {
    if slice.Some? && slice.value.flows.Some? then
      var flows := slice.value.flows.value;
      "[" + Joined(Elements(flows, |flows|)) + "]"
    else "null"
  }

  function Script(slice: Option<SliceDto>): string {
    "window.APP.api.setFlowListItems(" + NameArg(slice) + ", " + ListArg(slice) + ");"
  }

  lemma ElementNonEmpty(f: FlowDto, idx: nat)
    ensures |Element(f, idx)| > 0 && Element(f, idx)[0] == '{'
  {
  }

  /** Appending one more element adds it after a comma, except to an empty list. */
  lemma JoinedSnoc(es: seq<string>, e: string)
    ensures Joined(es + [e]) == if es == [] then e else Joined(es) + "," + e
  {
    var ese := es + [e];
    assert ese[..|ese| - 1] == es;
  }

  /** Joining non-empty elements gives the empty text only for no elements. */
  lemma {:induction false} JoinedEmpty(es: seq<string>)
    requires forall i :: 0 <= i < |es| ==> |es[i]| > 0
    ensures |Joined(es)| > 0 <==> |es| > 0
  {
    if |es| >= 2 {
      JoinedEmpty(es[..|es| - 1]);
    }
  }

  lemma ElementsSnoc(flows: seq<FlowDto>, i: nat)
    requires i < |flows|
    ensures Elements(flows, i + 1) == Elements(flows, i) + [Element(flows[i], i + 1)]
  {
    MapIndexedSnoc((f: FlowDto, j: nat) => Element(f, j + 1), flows, i);
  }

  lemma ElementsNonEmpty(flows: seq<FlowDto>, i: nat)
    requires i <= |flows|
    ensures forall j :: 0 <= j < i ==> |Elements(flows, i)[j]| > 0
  {
    forall j | 0 <= j < i
      ensures |Elements(flows, i)[j]| > 0
    {
      ElementNonEmpty(flows[j], j + 1);
    }
  }

  /** Appending to a join of non-empty strings puts a comma first exactly when the join is non-empty. */
  lemma JoinedStep(es: seq<string>, e: string)
    requires forall j :: 0 <= j < |es| ==> |es[j]| > 0
    ensures Joined(es + [e]) == Joined(es) + ((if |Joined(es)| > 0 then "," else "") + e)
  {
    JoinedSnoc(es, e);
    JoinedEmpty(es);
  }

  /** One loop step: the next element, after a comma exactly when the text so far is non-empty. */
  lemma FlowListStep(flows: seq<FlowDto>, i: nat)
    requires i < |flows|
    ensures var sb := Joined(Elements(flows, i));
      Joined(Elements(flows, i + 1)) == sb + ((if |sb| > 0 then "," else "") + Element(flows[i], i + 1))
  {
    ElementsSnoc(flows, i);
    ElementsNonEmpty(flows, i);
    JoinedStep(Elements(flows, i), Element(flows[i], i + 1));
  }

  /**
   * The flow-list loop of setTopologyViewFlowList: a StringBuilder that gets a
   * comma before an element exactly when it is already non-empty, and an index
   * counting the flows from 1.
   */
  method FlowListItems(flows: seq<FlowDto>) returns (sb: string)
    ensures sb == Joined(Elements(flows, |flows|))
  {
    sb := "";
    var idx := 1;
    var i := 0;
    while i < |flows|
      invariant i <= |flows|
      invariant idx == i + 1
      invariant sb == Joined(Elements(flows, i))
    {
      var flowDto := flows[i];
      var flowName := if flowDto.name.Some? then flowDto.name.value else "Flow-" + Show(idx);
      var flowTypeName := if flowDto.flowTypeName.Some? then flowDto.flowTypeName.value else UnknownFlowTypeName;
      var ele := "{flowName:\"" + flowName + "\", flowTypeName:\"" + flowTypeName + "\"}";
      assert ele == Element(flowDto, i + 1);
      var prefix := "";
      if |sb| > 0 {
        prefix := ",";
      }
      FlowListStep(flows, i);
      sb := sb + (prefix + ele);
      idx := idx + 1;
      i := i + 1;
    }
  }

  /** setTopologyViewFlowList: the script handed to the topology page. */
  method TopologyScript(slice: Option<SliceDto>) returns (script: string)
    ensures script == Script(slice)
  {
    var sliceName: string;
    if slice.Some? && slice.value.name.Some? {
      sliceName := "'" + slice.value.name.value + "'";
    } else {
      sliceName := "null";
    }
    var flowList: string;
    if slice.Some? && slice.value.flows.Some? {
      var sb := FlowListItems(slice.value.flows.value);
      flowList := "[" + sb + "]";
    } else {
      flowList := "null";
    }
    script := "window.APP.api.setFlowListItems(" + sliceName + ", " + flowList + ");";
  }

  /** clearTopologyViewFlowList: both arguments are `null`. */
  lemma ClearScript()
    ensures Script(None) == "window.APP.api.setFlowListItems(null, null);"
  {
  }

  /** The name argument is `null` exactly when there is no slice or no name. */
  lemma NameArgCases(slice: Option<SliceDto>)
    ensures NameArg(slice) == "null" <==> slice.None? || slice.value.name.None?
    ensures slice.Some? && slice.value.name.Some? ==> NameArg(slice) == "'" + slice.value.name.value + "'"
  {
    if slice.Some? && slice.value.name.Some? {
      assert NameArg(slice)[0] == '\'';
    }
  }

  /** The list argument is `null` exactly when there is no slice or no flow list. */
  lemma ListArgCases(slice: Option<SliceDto>)
    ensures ListArg(slice) == "null" <==> slice.None? || slice.value.flows.None?
  {
    if slice.Some? && slice.value.flows.Some? {
      assert ListArg(slice)[0] == '[';
    }
  }

  /** Flow i of the list is element i, carrying its own labels and its 1-based position i + 1. */
  lemma ElementsAt(flows: seq<FlowDto>, i: nat)
    requires i < |flows|
    ensures |Elements(flows, |flows|)| == |flows|
    ensures Elements(flows, |flows|)[i] ==
      "{flowName:\"" + FlowLabel(flows[i], i + 1) + "\", flowTypeName:\"" + TypeLabel(flows[i]) + "\"}"
    ensures flows[i].name.None? ==> FlowLabel(flows[i], i + 1) == "Flow-" + Show(i + 1)
    ensures flows[i].flowTypeName.None? ==> TypeLabel(flows[i]) == "== UNKNOWN =="
  {
  }

  /** Joining is associative around one comma: every neighbouring pair is separated by exactly one comma. */
  lemma {:induction false} JoinedAppend(a: seq<string>, b: seq<string>)
    requires |a| > 0 && |b| > 0
    ensures Joined(a + b) == Joined(a) + "," + Joined(b)
    decreases |b|
  {
    var ab := a + b;
    assert ab[..|ab| - 1] == a + b[..|b| - 1];
    if |b| == 1 {
      assert ab[..|ab| - 1] == a;
    } else {
      JoinedAppend(a, b[..|b| - 1]);
    }
  }

  /**
   * With elements that are non-empty and neither start nor end with a comma,
   * the joined text is empty only for no elements, begins with the first
   * element and ends with the last, so there is no leading or trailing comma.
   */
  lemma {:induction false} JoinedEnds(es: seq<string>)
    requires forall i :: 0 <= i < |es| ==> |es[i]| > 0 && es[i][0] != ',' && es[i][|es[i]| - 1] != ','
    ensures Joined(es) == "" <==> es == []
    ensures es != [] ==>
      && |Joined(es)| >= |es[0]| && Joined(es)[..|es[0]|] == es[0]
      && |Joined(es)| >= |es[|es| - 1]| && Joined(es)[|Joined(es)| - |es[|es| - 1]|..] == es[|es| - 1]
      && Joined(es)[0] != ',' && Joined(es)[|Joined(es)| - 1] != ','
  {
    if |es| >= 2 {
      var front := es[..|es| - 1];
      JoinedEnds(front);
      var j := Joined(es);
      assert j == Joined(front) + "," + es[|es| - 1];
      assert front[0] == es[0];
      assert j[..|es[0]|] == Joined(front)[..|es[0]|];
    }
  }

  /** The flow list holds one element per flow, in order, with no leading or trailing comma. */
  lemma FlowListShape(flows: seq<FlowDto>)
    ensures var body := Joined(Elements(flows, |flows|));
      && (body == "" <==> flows == [])
      && (flows != [] ==> body[0] == '{' && body[|body| - 1] == '}')
  {
    var es := Elements(flows, |flows|);
    forall i | 0 <= i < |es|
      ensures |es[i]| > 0 && es[i][0] != ',' && es[i][|es[i]| - 1] != ','
    {
      assert es[i][0] == '{' && es[i][|es[i]| - 1] == '}';
    }
    JoinedEnds(es);
    if flows != [] {
      var body := Joined(es);
      var last := es[|es| - 1];
      assert body[|body| - 1] == body[|body| - |last|..][|last| - 1];
      assert last[|last| - 1] == '}';
      assert body[0] == body[..|es[0]|][0];
    }
  }

  // ---------------------------------------------------------------- slice map

  type SliceMap = LinkedMap<Option<string>, Option<int>>

  /** The `name ↦ id` puts of the listed slices, in list order. */
  function SliceEntries(slices: seq<SliceDto>): seq<(Option<string>, Option<int>)> {
    seq(|slices|, i requires 0 <= i < |slices| => (slices[i].name, slices[i].id))
  }

  function SliceMapOf(sliceDtos: Option<seq<SliceDto>>): SliceMap {
    if sliceDtos.None? then Empty() else PutAll(SliceEntries(sliceDtos.value))
  }

  /** The success handler of the slice-list task: a fresh map filled from the list, if any. */
  method BuildSliceMap(sliceDtos: Option<seq<SliceDto>>) returns (m: SliceMap)
    ensures m == SliceMapOf(sliceDtos)
  {
    m := Empty();
    if sliceDtos.Some? {
      var slices := sliceDtos.value;
      var i := 0;
      while i < |slices|
        invariant i <= |slices|
        invariant m == PutAll(SliceEntries(slices)[..i])
      {
        assert SliceEntries(slices)[..i + 1][..i] == SliceEntries(slices)[..i];
        m := Put(m, slices[i].name, slices[i].id);
        i := i + 1;
      }
      assert SliceEntries(slices)[..i] == SliceEntries(slices);
    }
  }

  function Names(slices: seq<SliceDto>): seq<Option<string>> {
    KeysOf(SliceEntries(slices))
  }

  /**
   * The slice map lists every listed name once, in the order of its first
   * appearance, and maps it to the id of the last slice with that name; a null
   * list gives the empty map.
   */
  lemma SliceMapSpec(sliceDtos: Option<seq<SliceDto>>)
    ensures Valid(SliceMapOf(sliceDtos))
    ensures sliceDtos.None? ==> SliceMapOf(sliceDtos) == LinkedMap([], map[])
    ensures sliceDtos.Some? ==>
      var slices, m := sliceDtos.value, SliceMapOf(sliceDtos);
      && (forall k :: k in m.values <==> k in Names(slices))
      && (forall k :: k in m.values ==> k in Names(slices) && m.values[k] == slices[LastIndex(Names(slices), k)].id)
      && (forall a, b :: 0 <= a < b < |m.keys| ==>
            && m.keys[a] in Names(slices) && m.keys[b] in Names(slices)
            && FirstIndex(Names(slices), m.keys[a]) < FirstIndex(Names(slices), m.keys[b]))
  {
    if sliceDtos.Some? {
      var es := SliceEntries(sliceDtos.value);
      PutAllKeys(es);
      PutAllValues(es);
      PutAllOrder(es);
    }
  }

  /** A name listed twice keeps its first position and takes the later id. */
  lemma SliceMapDuplicateExample(a: SliceDto, b: SliceDto, c: SliceDto)
    requires a.name == c.name && a.name != b.name
    ensures SliceMapOf(Some([a, b, c])).keys == [a.name, b.name]
    ensures Lookup(SliceMapOf(Some([a, b, c])), a.name) == Some(c.id)
    ensures Lookup(SliceMapOf(Some([a, b, c])), b.name) == Some(b.id)
  {
    var es := SliceEntries([a, b, c]);
    assert es[..1][..0] == [];
    assert PutAll(es[..1]) == LinkedMap([a.name], map[a.name := a.id]);
    assert es[..2][..1] == es[..1];
    assert PutAll(es[..2]) == LinkedMap([a.name, b.name], map[a.name := a.id, b.name := b.id]);
    assert es[..2] == es[..3][..2] && es[..3] == es;
    assert PutAll(es) == LinkedMap([a.name, b.name], map[a.name := c.id, b.name := b.id]);
  }

  // ---------------------------------------------------------------- view state

  /** The view's slice state: the slice on display, the name-to-id map and the selected name. */
  class Controller {
    var targetSlice: Option<SliceDto>
    var sliceMap: Option<SliceMap>
    var selectSliceName: Option<string>

    /** setUpView: nothing on display, no list loaded yet, nothing selected. */
    constructor ()
      ensures targetSlice.None? && sliceMap.None? && selectSliceName.None?
    {
      targetSlice := None;
      sliceMap := None;
      selectSliceName := None;
    }

    /** The slice-list task succeeded: store the new map and clear the topology page's flow list. */
    method OnSlicesListed(sliceDtos: Option<seq<SliceDto>>) returns (script: string)
      modifies this
      ensures sliceMap == Some(SliceMapOf(sliceDtos))
      ensures targetSlice == old(targetSlice) && selectSliceName == old(selectSliceName)
      ensures script == Script(None)
    {
      var newSliceMap := BuildSliceMap(sliceDtos);
      sliceMap := Some(newSliceMap);
      script := TopologyScript(None);
    }

    /** The list selection changed to the given name. */
    method SelectSlice(name: Option<string>)
      modifies this
      ensures selectSliceName == name
      ensures targetSlice == old(targetSlice) && sliceMap == old(sliceMap)
    {
      selectSliceName := name;
    }

    /**
     * The read task succeeded: the first returned slice, if any, goes on display,
     * and the topology page gets its flows (or nulls when nothing came back).
     * A first slice whose flows are null is put on display but then throws in
     * the flows panel, so no script is sent (None).
     */
    method OnSliceRead(sliceDtos: Option<seq<SliceDto>>) returns (script: Option<string>)
      modifies this
      ensures sliceDtos.Some? && |sliceDtos.value| > 0 ==>
        && targetSlice == Some(sliceDtos.value[0])
        && (sliceDtos.value[0].flows.None? ==> script == None)
        && (sliceDtos.value[0].flows.Some? ==> script == Some(Script(Some(sliceDtos.value[0]))))
      ensures !(sliceDtos.Some? && |sliceDtos.value| > 0) ==>
        targetSlice == old(targetSlice) && script == Some(Script(None))
      ensures sliceMap == old(sliceMap) && selectSliceName == old(selectSliceName)
    {
      var sliceDto: Option<SliceDto> := None;
      if sliceDtos.Some? && |sliceDtos.value| > 0 {
        sliceDto := Some(sliceDtos.value[0]);
        targetSlice := sliceDto;
        if sliceDto.value.flows.None? {
          return None;
        }
      }
      var text := TopologyScript(sliceDto);
      script := Some(text);
    }

    /** getDeleteSliceData: a record holding only the displayed slice's id; None is the NullPointerException with nothing on display. */
    method GetDeleteSliceData() returns (r: Option<SliceDto>)
      ensures r.Some? <==> targetSlice.Some?
      ensures r.Some? ==> r.value == EmptySlice.(id := targetSlice.value.id)
    {
      if targetSlice.None? {
        return None;
      }
      r := Some(EmptySlice.(id := targetSlice.value.id));
    }

    /**
     * getReadSliceDto: a record holding only the id the map gives the selected
     * name (null when the name is not in the map); None is the
     * NullPointerException before any list was loaded.
     */
    method GetReadSliceDto() returns (r: Option<SliceDto>)
      ensures r.Some? <==> sliceMap.Some?
      ensures r.Some? ==>
        r.value == EmptySlice.(id := if selectSliceName in sliceMap.value.values then sliceMap.value.values[selectSliceName] else None)
    {
      if sliceMap.None? {
        return None;
      }
      var id := Lookup(sliceMap.value, selectSliceName);
      r := Some(EmptySlice.(id := if id.Some? then id.value else None));
    }
  }

  /**
   * Listing slices and then selecting one by name makes the read request ask
   * for the id of the last listed slice with that name.
   */
  method ListThenRead(view: Controller, slices: seq<SliceDto>, i: nat) returns (r: Option<SliceDto>)
    requires i < |slices|
    modifies view
    ensures r.Some? && r.value.name.None? && r.value.flows.None?
    ensures var names := Names(slices);
      && i < |names| && names[i] == slices[i].name
      && r.value.id == slices[LastIndex(names, slices[i].name)].id
  {
    var _ := view.OnSlicesListed(Some(slices));
    view.SelectSlice(slices[i].name);
    SliceMapSpec(Some(slices));
    assert Names(slices)[i] == slices[i].name;
    r := view.GetReadSliceDto();
  }
}
