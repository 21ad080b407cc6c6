/**
 * The three bulk workflows of the slice driver (doCreateSlices,
 * doUpdateAllSlices, doDeleteAllSlices) and the command-line dispatcher
 * doProcess, run sequentially.
 *
 * The slice-management server is a SliceDataManager value: it answers
 * every call from the request alone. The thread pool becomes a submit loop
 * that queues tasks, followed by a gather loop that runs each queued task once,
 * in order, and records its outcome.
 */
module BatchWorkflows {
  import opened Wrappers
  import opened Decimal
  import opened Dtos
  import opened SliceRequests

  /** The exception a collaborator call throws: an MloNbiException carries the server's error record. */
  datatype ClientError = NbiError(cause: string, detail: string) | OtherClientError

  /** What one create, update or delete call gives back; a `None` response is a null reply. */
  datatype Outcome = Succeeded(response: Option<SliceDto>) | Failed(error: ClientError)

  /** The collaborator, as the answers it gives. */
  datatype SliceDataManager = SliceDataManager(
    sliceList: Result<Option<seq<SliceDto>>, ClientError>,   // getSliceList; None is a null list
    sliceInfo: SliceDto -> Result<SliceDto, ClientError>,    // getSliceInfo
    create: SliceDto -> Outcome,                             // createSliceInfo
    update: SliceDto -> Outcome,                             // updateSliceInfo
    delete: SliceDto -> Outcome)                             // deleteSliceInfo

  datatype OpKind = CreateOp | UpdateOp | DeleteOp

  /** ClientSliceOperationTask: a name for the log, the operation and the request slice. */
  datatype Task = Task(name: Option<string>, kind: OpKind, request: SliceDto)

  /** ClientSliceOperationTask.call: the operation applied to the request; an exception is rethrown as the failure. */
  function Perform(sdm: SliceDataManager, t: Task): Outcome {
    match t.kind
    case CreateOp => sdm.create(t.request)
    case UpdateOp => sdm.update(t.request)
    case DeleteOp => sdm.delete(t.request)
  }

  /**
   * The outcome of every task, in submission order; a failed task is recorded
   * and the next one still runs.
   */
  function Outcomes(sdm: SliceDataManager, tasks: seq<Task>): (r: seq<Outcome>)
    ensures |r| == |tasks|
    ensures forall i :: 0 <= i < |tasks| ==> r[i] == Perform(sdm, tasks[i])
  {
    if tasks == [] then [] else Outcomes(sdm, tasks[..|tasks| - 1]) + [Perform(sdm, tasks[|tasks| - 1])]
  }

  /** A failure in one part of a batch does not change what the rest of the batch reports. */
  lemma {:induction false} OutcomesAppend(sdm: SliceDataManager, a: seq<Task>, b: seq<Task>)
    ensures Outcomes(sdm, a + b) == Outcomes(sdm, a) + Outcomes(sdm, b)
    decreases |b|
  {
    if b != [] {
      var b' := b[..|b| - 1];
      assert (a + b)[..|a + b| - 1] == a + b';
      OutcomesAppend(sdm, a, b');
    }
  }

  /**
   * How far the gather loop gets: logging a null response throws, so the first
   * null response ends the loop; every earlier outcome, failures included, has
   * been reported by then.
   */
  function GatherEnd(outs: seq<Outcome>): (j: nat)
    ensures j <= |outs|
    ensures forall i :: 0 <= i < j ==> outs[i] != Succeeded(None)
    ensures j < |outs| ==> outs[j] == Succeeded(None)
  {
    if outs == [] || outs[0] == Succeeded(None) then 0
    else
      var j := GatherEnd(outs[1..]);
      assert forall i :: 1 <= i < j + 1 ==> outs[i] == outs[1..][i - 1];
      j + 1
  }

  /** The end of a workflow whose tasks were all submitted and whose futures give `outs`, in order. */
  function Gathered(tasks: seq<Task>, outs: seq<Outcome>): Workflow {
    var j := GatherEnd(outs);
    if j == |outs| then Completed(tasks, outs) else Interrupted(tasks, outs[..j])
  }

  /**
   * The gather completes exactly when no response is null; otherwise it reports
   * the outcomes before the first null response and stops there.
   */
  lemma GatheredCases(tasks: seq<Task>, outs: seq<Outcome>)
    ensures Gathered(tasks, outs).submitted == tasks
    ensures Gathered(tasks, outs).Completed? <==> forall i :: 0 <= i < |outs| ==> outs[i] != Succeeded(None)
    ensures Gathered(tasks, outs).Completed? ==> Gathered(tasks, outs).reports == outs
    ensures Gathered(tasks, outs).Interrupted? ==>
      var j := |Gathered(tasks, outs).reports|;
      && j < |outs| && outs[j] == Succeeded(None)
      && Gathered(tasks, outs).reports == outs[..j]
      && (forall i :: 0 <= i < j ==> outs[i] != Succeeded(None))
  {
    var j := GatherEnd(outs);
    if j < |outs| {
      assert outs[j] == Succeeded(None);
    }
  }

  /**
   * The executor's gather loop over the submitted tasks: each future is gathered
   * once, in order; a failed future is handled (logged) and the loop goes on,
   * while a null response ends it.
   */
  method RunBatch(sdm: SliceDataManager, tasks: seq<Task>) returns (w: Workflow)
    ensures w == Gathered(tasks, Outcomes(sdm, tasks))
  {
    ghost var outs := Outcomes(sdm, tasks);
    var reports: seq<Outcome> := [];
    var j := 0;
    while j < |tasks|
      invariant j <= |tasks|
      invariant reports == outs[..j]
      invariant forall i :: 0 <= i < j ==> outs[i] != Succeeded(None)
    {
      var outcome := Perform(sdm, tasks[j]);
      if outcome == Succeeded(None) {
        assert GatherEnd(outs) == j;
        return Interrupted(tasks, reports);
      }
      reports := reports + [outcome];
      j := j + 1;
    }
    assert GatherEnd(outs) == |outs|;
    assert reports == outs;
    w := Completed(tasks, reports);
  }

  /** Why a workflow threw an IllegalStateException or NullPointerException before gathering. */
  datatype AbortReason =
    | ListFailed(listError: ClientError)   // getSliceList threw
    | ListNull                              // getSliceList returned null
    | ReadFailed(readError: ClientError)    // getSliceInfo threw for a listed slice
    | FlowsNull                             // a registered slice had no flow list (updateSliceDto)

  /**
   * How a workflow ends: it gathers all outcomes; or it throws before gathering,
   * after the tasks in `submitted` were already handed to the pool, whose results
   * are then never gathered; or a null response throws out of the gather loop
   * after `reports` were logged, leaving the pool running.
   */
  datatype Workflow =
    | Completed(submitted: seq<Task>, reports: seq<Outcome>)
    | Aborted(reason: AbortReason, submitted: seq<Task>)
    | Interrupted(submitted: seq<Task>, reports: seq<Outcome>)

  function CreateTask(s: SliceDto): Task {
    Task(s.name, CreateOp, s)
  }

  function CreateTasks(reqs: seq<SliceDto>): seq<Task> {
    seq(|reqs|, i requires 0 <= i < |reqs| => CreateTask(reqs[i]))
  }

  /** doCreateSlices: one create task per synthesised slice, all submitted, then gathered. */
  method DoCreateSlices(sdm: SliceDataManager, nSlice: int, nFlowForSlice: int, p: FlowParams) returns (w: Workflow)
    ensures var tasks := CreateTasks(CreateBatch(Count(nSlice), Count(nFlowForSlice), p));
      w == Gathered(tasks, Outcomes(sdm, tasks))
  {
    var reqSliceDtos := CreateSliceDtos(nSlice, nFlowForSlice, p);
    var tasks: seq<Task> := [];
    var i := 0;
    while i < |reqSliceDtos|
      invariant i <= |reqSliceDtos|
      invariant tasks == CreateTasks(reqSliceDtos[..i])
    {
      tasks := tasks + [CreateTask(reqSliceDtos[i])];
      i := i + 1;
    }
    assert reqSliceDtos[..i] == reqSliceDtos;
    w := RunBatch(sdm, tasks);
  }

  /** The random bits for the flows of the i-th listed slice of an update run. */
  function SliceCoins(coins: seq<seq<bool>>, i: nat): seq<bool> {
    if i < |coins| then coins[i] else []
  }

  /**
   * The arguments of one update run: bandwidth and latency from the command line,
   * the configured source component name, and the random bits drawn while
   * rebuilding each listed slice.
   */
  datatype UpdateArgs = UpdateArgs(bandWidth: Option<int>, latency: Option<int>, src: Option<string>, coins: seq<seq<bool>>)

  function UpdateParams(a: UpdateArgs, i: nat): FlowParams {
    FlowParams(a.bandWidth, a.latency, a.src, SliceCoins(a.coins, i))
  }

  /** What the update submit loop has done after the first `k` listed slices. */
  datatype Plan = Planned(tasks: seq<Task>) | Stopped(why: AbortReason, tasks: seq<Task>)

  /**
   * The update submit loop over `list[..k]`: read each slice back, rebuild it as an
   * update request and queue it; the first read error or missing flow list stops
   * the loop with the tasks queued so far.
   */
  function PlanUpdates(sdm: SliceDataManager, list: seq<SliceDto>, k: nat,
                       a: UpdateArgs): (pl: Plan)
    requires k <= |list|
    ensures |pl.tasks| <= k
    ensures pl.Planned? ==> |pl.tasks| == k
  {
    if k == 0 then Planned([])
    else
      var prev := PlanUpdates(sdm, list, k - 1, a);
      if prev.Stopped? then prev
      else match sdm.sliceInfo(list[k - 1])
        case Err(e) => Stopped(ReadFailed(e), prev.tasks)
        case Ok(registered) =>
          if registered.flows.None? then Stopped(FlowsNull, prev.tasks)
          else
            var u := UpdatedSlice(registered, UpdateParams(a, k - 1));
            Planned(prev.tasks + [Task(list[k - 1].name, UpdateOp, u)])
  }

  /** doUpdateAllSlices. */
  method DoUpdateAllSlices(sdm: SliceDataManager, a: UpdateArgs) returns (w: Workflow)
    ensures sdm.sliceList.Err? ==> w == Aborted(ListFailed(sdm.sliceList.error), [])
    ensures sdm.sliceList == Ok(None) ==> w == Aborted(ListNull, [])
    ensures sdm.sliceList.Ok? && sdm.sliceList.value.Some? ==>
      var list := sdm.sliceList.value.value;
      var pl := PlanUpdates(sdm, list, |list|, a);
      && (pl.Stopped? ==> w == Aborted(pl.why, pl.tasks))
      && (pl.Planned? ==> w == Gathered(pl.tasks, Outcomes(sdm, pl.tasks)))
  {
    if sdm.sliceList.Err? {
      return Aborted(ListFailed(sdm.sliceList.error), []);
    }
    if sdm.sliceList.value.None? {
      return Aborted(ListNull, []);
    }
    var sliceDtos := sdm.sliceList.value.value;
    var tasks: seq<Task> := [];
    var i := 0;
    while i < |sliceDtos|
      invariant i <= |sliceDtos|
      invariant PlanUpdates(sdm, sliceDtos, i, a) == Planned(tasks)
    {
      var listSliceDto := sliceDtos[i];
      var info := sdm.sliceInfo(listSliceDto);
      if info.Err? {
        PlanStaysStopped(sdm, sliceDtos, i + 1, |sliceDtos|, a);
        return Aborted(ReadFailed(info.error), tasks);
      }
      var updateSlice := UpdateSliceDto(info.value, UpdateParams(a, i));
      if updateSlice.None? {
        PlanStaysStopped(sdm, sliceDtos, i + 1, |sliceDtos|, a);
        return Aborted(FlowsNull, tasks);
      }
      tasks := tasks + [Task(listSliceDto.name, UpdateOp, updateSlice.value)];
      i := i + 1;
    }
    w := RunBatch(sdm, tasks);
  }

  /** Once the update loop has stopped, later slices change nothing: the exception has already left the loop. */
  lemma {:induction false} PlanStaysStopped(sdm: SliceDataManager, list: seq<SliceDto>, k: nat, k2: nat, a: UpdateArgs)
    requires k <= k2 <= |list|
    requires PlanUpdates(sdm, list, k, a).Stopped?
    ensures PlanUpdates(sdm, list, k2, a) == PlanUpdates(sdm, list, k, a)
    decreases k2 - k
  {
    if k < k2 {
      PlanStaysStopped(sdm, list, k, k2 - 1, a);
    }
  }

  /** Every listed slice among the first k reads back without error and with a flow list. */
  predicate AllReadable(sdm: SliceDataManager, list: seq<SliceDto>, k: nat)
    requires k <= |list|
  {
    forall i :: 0 <= i < k ==> sdm.sliceInfo(list[i]).Ok? && sdm.sliceInfo(list[i]).value.flows.Some?
  }

  /**
   * The update loop gets through the first k slices exactly when all of them read
   * back with flows; it then queues, in order, one update per listed slice, named
   * after the listed slice and built from what was read back.
   */
  lemma {:induction false} PlanUpdatesCompletes(sdm: SliceDataManager, list: seq<SliceDto>, k: nat, a: UpdateArgs)
    requires k <= |list|
    ensures var pl := PlanUpdates(sdm, list, k, a);
      && (pl.Planned? <==> AllReadable(sdm, list, k))
      && (pl.Planned? ==>
            forall i :: 0 <= i < k ==>
              && sdm.sliceInfo(list[i]).Ok?
              && sdm.sliceInfo(list[i]).value.flows.Some?
              && pl.tasks[i] == Task(list[i].name, UpdateOp,
                   UpdatedSlice(sdm.sliceInfo(list[i]).value, UpdateParams(a, i))))
  {
    if k > 0 {
      PlanUpdatesCompletes(sdm, list, k - 1, a);
    }
  }

  /**
   * When the update loop stops, it stops at the first slice j that fails to read
   * back or has no flow list: every earlier slice read back fine and was queued,
   * and nothing after it was.
   */
  lemma {:induction false} PlanUpdatesStops(sdm: SliceDataManager, list: seq<SliceDto>, k: nat, a: UpdateArgs)
    requires k <= |list|
    ensures var pl := PlanUpdates(sdm, list, k, a);
      pl.Stopped? ==>
        var j := |pl.tasks|;
        && j < k
        && AllReadable(sdm, list, j)
        && PlanUpdates(sdm, list, j, a) == Planned(pl.tasks)
        && (match sdm.sliceInfo(list[j])
            case Err(e) => pl.why == ReadFailed(e)
            case Ok(r) => r.flows.None? && pl.why == FlowsNull)
  {
    if k > 0 {
      var prev := PlanUpdates(sdm, list, k - 1, a);
      PlanUpdatesStops(sdm, list, k - 1, a);
      if prev.Planned? {
        PlanUpdatesCompletes(sdm, list, k - 1, a);
      }
    }
  }

  function DeleteTask(s: SliceDto): Task {
    Task(s.name, DeleteOp, s)
  }

  function DeleteTasks(list: seq<SliceDto>): seq<Task> {
    seq(|list|, i requires 0 <= i < |list| => DeleteTask(list[i]))
  }

  /** doDeleteAllSlices: every listed slice, unchanged, becomes a delete request. */
  method DoDeleteAllSlices(sdm: SliceDataManager) returns (w: Workflow)
    ensures sdm.sliceList.Err? ==> w == Aborted(ListFailed(sdm.sliceList.error), [])
    ensures sdm.sliceList == Ok(None) ==> w == Aborted(ListNull, [])
    ensures sdm.sliceList.Ok? && sdm.sliceList.value.Some? ==>
      w == Gathered(DeleteTasks(sdm.sliceList.value.value), Outcomes(sdm, DeleteTasks(sdm.sliceList.value.value)))
  {
    if sdm.sliceList.Err? {
      return Aborted(ListFailed(sdm.sliceList.error), []);
    }
    if sdm.sliceList.value.None? {
      return Aborted(ListNull, []);
    }
    var sliceDtos := sdm.sliceList.value.value;
    var tasks: seq<Task> := [];
    var i := 0;
    while i < |sliceDtos|
      invariant i <= |sliceDtos|
      invariant tasks == DeleteTasks(sliceDtos[..i])
    {
      tasks := tasks + [DeleteTask(sliceDtos[i])];
      i := i + 1;
    }
    assert sliceDtos[..i] == sliceDtos;
    w := RunBatch(sdm, tasks);
  }

  /** What doProcess decides from the command line. */
  datatype Command =
    | NoCommand                                       // no "-m" first argument
    | CreateCommand(nSlice: int, nFlowForSlice: int, bandWidth: Option<int>, latency: Option<int>)
    | UpdateCommand(bandWidth: Option<int>, latency: Option<int>)
    | DeleteCommand
    | UsageCommand                                    // prints the three usage lines
    | NumberFormatError                               // Integer.valueOf threw; doProcess does not catch it

  const UsageLines: seq<string> := [
    "create multiple slices : -m create <SliceNum> <FlowNum> [<BandWidth> <Latency>]",
    "update all slices      : -m update [<BandWidth> <Latency>]",
    "delete all slices      : -m delete"]

  /** `Integer.valueOf` on each of the given arguments, in order; the first failure throws. */
  function ParseAll(args: seq<string>): (r: Option<seq<int>>)
    ensures r.Some? <==> forall i :: 0 <= i < |args| ==> ParseInt(args[i]).Some?
    ensures r.Some? ==> |r.value| == |args| && forall i :: 0 <= i < |args| ==> r.value[i] == ParseInt(args[i]).value
  {
    if args == [] then Some([])
    else match (ParseInt(args[0]), ParseAll(args[1..]))
      case (Some(v), Some(vs)) => Some([v] + vs)
      case _ => None
  }

  /** doProcess's choice among the workflows by argument count and keyword. */
  function Dispatch(args: seq<string>): Command {
    if |args| == 0 || args[0] != "-m" then NoCommand
    else if (|args| == 4 || |args| == 6) && args[1] == "create" then
      match ParseAll(args[2..])
      case None => NumberFormatError
      case Some(v) =>
        if |args| == 6 then CreateCommand(v[0], v[1], Some(v[2]), Some(v[3]))
        else CreateCommand(v[0], v[1], None, None)
    else if (|args| == 2 || |args| == 4) && args[1] == "update" then
      match ParseAll(args[2..])
      case None => NumberFormatError
      case Some(v) =>
        if |args| == 4 then UpdateCommand(Some(v[0]), Some(v[1])) else UpdateCommand(None, None)
    else if |args| == 2 && args[1] == "delete" then DeleteCommand
    else UsageCommand
  }

  /** Which command doProcess picks, stated case by case. */
  lemma DispatchCases(args: seq<string>)
    ensures (|args| == 0 || args[0] != "-m") <==> Dispatch(args) == NoCommand
    ensures Dispatch(args).CreateCommand? ==>
      && (|args| == 4 || |args| == 6) && args[0] == "-m" && args[1] == "create"
      && Dispatch(args).nSlice == ParseInt(args[2]).value
      && Dispatch(args).nFlowForSlice == ParseInt(args[3]).value
      && (|args| == 4 <==> Dispatch(args).bandWidth.None?)
      && (|args| == 4 ==> Dispatch(args).latency.None?)
      && (|args| == 6 ==> Dispatch(args).bandWidth == ParseInt(args[4]) && Dispatch(args).latency == ParseInt(args[5]))
    ensures Dispatch(args).UpdateCommand? ==>
      && (|args| == 2 || |args| == 4) && args[0] == "-m" && args[1] == "update"
      && (|args| == 2 <==> Dispatch(args).bandWidth.None?)
      && (|args| == 2 ==> Dispatch(args).latency.None?)
      && (|args| == 4 ==> Dispatch(args).bandWidth == ParseInt(args[2]) && Dispatch(args).latency == ParseInt(args[3]))
    ensures Dispatch(args) == DeleteCommand <==> (|args| == 2 && args[0] == "-m" && args[1] == "delete")
    ensures Dispatch(args) == UsageCommand <==>
      && |args| > 0 && args[0] == "-m"
      && !((|args| == 4 || |args| == 6) && args[1] == "create")
      && !((|args| == 2 || |args| == 4) && args[1] == "update")
      && !(|args| == 2 && args[1] == "delete")
  {
  }

  /** For a create or update command, every numeric argument parses; otherwise the command is a NumberFormatError. */
  lemma DispatchParses(args: seq<string>)
    requires |args| >= 2 && args[0] == "-m"
    requires ((|args| == 4 || |args| == 6) && args[1] == "create") || ((|args| == 2 || |args| == 4) && args[1] == "update")
    ensures Dispatch(args) == NumberFormatError <==> exists i :: 2 <= i < |args| && ParseInt(args[i]).None?
  {
    if Dispatch(args) == NumberFormatError {
      var i :| 0 <= i < |args[2..]| && ParseInt(args[2..][i]).None?;
      assert ParseInt(args[2 + i]).None?;
    } else {
      forall i | 2 <= i < |args|
        ensures ParseInt(args[i]).Some?
      {
        assert args[i] == args[2..][i - 2];
      }
    }
  }

  /** The observable end of one doProcess call. */
  datatype ProcessResult =
    | Idle
    | PrintedUsage(lines: seq<string>)
    | Crashed                      // NumberFormatException escapes doProcess
    | Ran(workflow: Workflow)

  /** doProcess: dispatch, then run the chosen workflow. */
  method DoProcess(sdm: SliceDataManager, args: seq<string>, src: Option<string>,
                   createCoins: seq<bool>, updateCoins: seq<seq<bool>>) returns (r: ProcessResult)
    ensures Dispatch(args) == NoCommand ==> r == Idle
    ensures Dispatch(args) == UsageCommand ==> r == PrintedUsage(UsageLines)
    ensures Dispatch(args) == NumberFormatError ==> r == Crashed
    ensures Dispatch(args).CreateCommand? ==>
      var c := Dispatch(args);
      var p := FlowParams(c.bandWidth, c.latency, src, createCoins);
      var tasks := CreateTasks(CreateBatch(Count(c.nSlice), Count(c.nFlowForSlice), p));
      r == Ran(Gathered(tasks, Outcomes(sdm, tasks)))
    ensures Dispatch(args) == DeleteCommand ==>
      && r.Ran?
      && (sdm.sliceList.Err? ==> r.workflow == Aborted(ListFailed(sdm.sliceList.error), []))
      && (sdm.sliceList == Ok(None) ==> r.workflow == Aborted(ListNull, []))
      && (sdm.sliceList.Ok? && sdm.sliceList.value.Some? ==>
            r.workflow == Gathered(DeleteTasks(sdm.sliceList.value.value), Outcomes(sdm, DeleteTasks(sdm.sliceList.value.value))))
    ensures Dispatch(args).UpdateCommand? ==>
      var a := UpdateArgs(Dispatch(args).bandWidth, Dispatch(args).latency, src, updateCoins);
      && r.Ran?
      && (sdm.sliceList.Err? ==> r.workflow == Aborted(ListFailed(sdm.sliceList.error), []))
      && (sdm.sliceList == Ok(None) ==> r.workflow == Aborted(ListNull, []))
      && (sdm.sliceList.Ok? && sdm.sliceList.value.Some? ==>
            var pl := PlanUpdates(sdm, sdm.sliceList.value.value, |sdm.sliceList.value.value|, a);
            && (pl.Stopped? ==> r.workflow == Aborted(pl.why, pl.tasks))
            && (pl.Planned? ==> r.workflow == Gathered(pl.tasks, Outcomes(sdm, pl.tasks))))
  {
    var c := Dispatch(args);
    match c
    case NoCommand => r := Idle;
    case UsageCommand => r := PrintedUsage(UsageLines);
    case NumberFormatError => r := Crashed;
    case CreateCommand(nSlice, nFlow, bw, lat) =>
      var w := DoCreateSlices(sdm, nSlice, nFlow, FlowParams(bw, lat, src, createCoins));
      r := Ran(w);
    case UpdateCommand(bw, lat) =>
      var w := DoUpdateAllSlices(sdm, UpdateArgs(bw, lat, src, updateCoins));
      r := Ran(w);
    case DeleteCommand =>
      var w := DoDeleteAllSlices(sdm);
      r := Ran(w);
  }
}
