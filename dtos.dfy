/**
 * The slice and flow records exchanged with the slice-management server.
 * Every field of the Java DTOs is a nullable reference, so every field is an
 * Option here; a freshly constructed DTO has every field None.
 */
module Dtos {
  import opened Wrappers

  datatype FlowDto = FlowDto(
    id: Option<int>,
    name: Option<string>,
    srcCENodeName: Option<string>,
    srcCEPortNo: Option<string>,
    dstCENodeName: Option<string>,
    dstCEPortNo: Option<string>,
    reqBandWidth: Option<int>,
    reqDelay: Option<int>,
    protectionLevel: Option<string>,
    flowType: Option<string>,      // the `type` field: "mod" and friends in update requests
    flowTypeName: Option<string>)

  datatype SliceDto = SliceDto(
    id: Option<int>,
    name: Option<string>,
    flows: Option<seq<FlowDto>>)

  /** `new FlowDto()` */
  const EmptyFlow: FlowDto :=
    FlowDto(None, None, None, None, None, None, None, None, None, None, None)

  /** `new SliceDto()` */
  const EmptySlice: SliceDto := SliceDto(None, None, None)
}
