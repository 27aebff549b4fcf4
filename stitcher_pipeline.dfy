/** Progress accounting of the stitching pipeline
    (xpano/pipeline/stitcher_pipeline.h).

    A ProgressMonitor holds the label of the running stage, the number of
    tasks done and the number of tasks expected. Every stage resets it and
    then reports each finished task. The monitor is modelled as a
    single-threaded object: its three atomic fields are plain fields.

    Step says what each of the four mutating calls does to the report; the
    class's methods are proved to follow it, and the lemmas follow whole
    call sequences (one stage, several stages in a row).
 */
module Pipeline {

  /** The label of the stage the pipeline is running. */
  datatype ProgressType =
    | None
    | LoadingImages
    | StitchingPano
    | AutoCrop
    | DetectingKeypoints
    | MatchingImages
    | Export
    | Inpainting

  /** A snapshot of the monitor. */
  datatype ProgressReport = ProgressReport(taskType: ProgressType, tasksDone: int, numTasks: int)

  /** What a freshly constructed monitor reports. */
  const INITIAL_REPORT := ProgressReport(None, 0, 0)

  /** The calls that change a monitor. */
  datatype MonitorCall =
    | Reset(stage: ProgressType, total: int)
    | SetNumTasks(total: int)
    | SetTaskType(stage: ProgressType)
    | NotifyTaskDone

  /** The report after one call. */
  function Step(report: ProgressReport, call: MonitorCall): ProgressReport {
    match call
    case Reset(stage, total) => ProgressReport(stage, 0, total)
    case SetNumTasks(total) => report.(numTasks := total)
    case SetTaskType(stage) => report.(taskType := stage)
    case NotifyTaskDone => report.(tasksDone := report.tasksDone + 1)
  }

  /** The report after a sequence of calls, in order. */
  function Replay(report: ProgressReport, calls: seq<MonitorCall>): ProgressReport
    decreases |calls|
  {
    if calls == [] then report else Replay(Step(report, calls[0]), calls[1..])
  }

  /** `count` task-completion notifications. */
  function Notifications(count: nat): (calls: seq<MonitorCall>)
    ensures |calls| == count
    ensures forall i :: 0 <= i < count ==> calls[i] == NotifyTaskDone
  {
    seq(count, _ => NotifyTaskDone)
  }

  /** What one stage does to the monitor when it runs `total` tasks to
      completion: a reset, then one notification per task. */
  function StageCalls(stage: ProgressType, total: nat): seq<MonitorCall> {
    [Reset(stage, total)] + Notifications(total)
  }

  /** The calls of several stages run one after another on one pipeline. */
  function StagesCalls(stages: seq<(ProgressType, nat)>): seq<MonitorCall>
    decreases |stages|
  {
    if stages == [] then [] else StageCalls(stages[0].0, stages[0].1) + StagesCalls(stages[1..])
  }

  lemma {:induction false} ReplayAppend(report: ProgressReport, a: seq<MonitorCall>, b: seq<MonitorCall>)
    ensures Replay(report, a + b) == Replay(Replay(report, a), b)
    decreases |a|
  {
    if a == [] {
      assert a + b == b;
    } else {
      assert (a + b)[1..] == a[1..] + b;
      ReplayAppend(Step(report, a[0]), a[1..], b);
    }
  }

  /** Notifications raise the done count by their number and change nothing
      else. */
  lemma {:induction false} NotificationsCount(report: ProgressReport, count: nat)
    ensures Replay(report, Notifications(count)) ==
            report.(tasksDone := report.tasksDone + count)
    decreases count
  {
    if count > 0 {
      assert Notifications(count)[1..] == Notifications(count - 1);
      NotificationsCount(Step(report, NotifyTaskDone), count - 1);
    }
  }

  /** While a stage runs, after `done` of its `total` tasks have been
      reported, the monitor shows the stage, `done` and `total`; so the done
      count never passes the total as long as no more notifications arrive
      than the stage has tasks. Whatever the monitor showed before the
      reset does not matter. */
  lemma StageInProgress(report: ProgressReport, stage: ProgressType, total: nat, done: nat)
    requires done <= total
    ensures var now := Replay(report, [Reset(stage, total)] + Notifications(done));
            now == ProgressReport(stage, done, total) && now.tasksDone <= now.numTasks
  {
    ReplayAppend(report, [Reset(stage, total)], Notifications(done));
    NotificationsCount(ProgressReport(stage, 0, total), done);
  }

  /** Once every task of a stage has been reported, the done count equals
      the total. */
  lemma StageCompletes(report: ProgressReport, stage: ProgressType, total: nat)
    ensures Replay(report, StageCalls(stage, total)) == ProgressReport(stage, total, total)
  {
    StageInProgress(report, stage, total, total);
  }

  /** Several stages run to completion on one pipeline, one after another:
      the monitor shows the last stage, complete. */
  lemma {:induction false} ConsecutiveStagesComplete(report: ProgressReport, stages: seq<(ProgressType, nat)>)
    requires stages != []
    ensures var last := stages[|stages| - 1];
            Replay(report, StagesCalls(stages)) == ProgressReport(last.0, last.1, last.1)
    decreases |stages|
  {
    var first := StageCalls(stages[0].0, stages[0].1);
    ReplayAppend(report, first, StagesCalls(stages[1..]));
    StageCompletes(report, stages[0].0, stages[0].1);
    if |stages| > 1 {
      ConsecutiveStagesComplete(Replay(report, first), stages[1..]);
    } else {
      assert StagesCalls(stages[1..]) == [];
    }
  }

  /** The progress monitor of one pipeline. */
  class ProgressMonitor {
    var taskType: ProgressType
    var done: int
    var numTasks: int

    /** A snapshot of the three fields; reading it changes nothing. */
    function Progress(): (report: ProgressReport)
      reads this
      ensures report.taskType == taskType
      ensures report.tasksDone == done
      ensures report.numTasks == numTasks
    {
      ProgressReport(taskType, done, numTasks)
    }

    constructor ()
      ensures Progress() == INITIAL_REPORT
    {
      taskType := None;
      done := 0;
      numTasks := 0;
    }

    /** Starts a stage: new label, new total, nothing done yet. */
    method Reset(stage: ProgressType, total: int)
      modifies this
      ensures Progress() == Step(old(Progress()), MonitorCall.Reset(stage, total))
      ensures taskType == stage && done == 0 && numTasks == total
    {
      taskType := stage;
      done := 0;
      numTasks := total;
    }

    /** Changes the total only. */
    method SetNumTasks(total: int)
      modifies this`numTasks
      ensures Progress() == Step(old(Progress()), MonitorCall.SetNumTasks(total))
      ensures numTasks == total
    {
      numTasks := total;
    }

    /** Changes the label only. */
    method SetTaskType(stage: ProgressType)
      modifies this`taskType
      ensures Progress() == Step(old(Progress()), MonitorCall.SetTaskType(stage))
      ensures taskType == stage
    {
      taskType := stage;
    }

    /** Records one finished task. */
    method NotifyTaskDone()
      modifies this`done
      ensures Progress() == Step(old(Progress()), MonitorCall.NotifyTaskDone)
      ensures done == old(done) + 1
    {
      done := done + 1;
    }
  }

  /** How a stage drives the monitor: it resets it for `total` tasks and
      reports each task as it finishes. Afterwards the monitor shows the
      stage complete, as the pipeline's callers check after every stage. */
  method RunStage(monitor: ProgressMonitor, stage: ProgressType, total: nat)
    modifies monitor
    ensures monitor.Progress() == Replay(old(monitor.Progress()), StageCalls(stage, total))
    ensures monitor.Progress() == ProgressReport(stage, total, total)
  {
    monitor.Reset(stage, total);
    for i := 0 to total
      invariant monitor.Progress() == ProgressReport(stage, i, total)
    {
      monitor.NotifyTaskDone();
    }
    StageCompletes(old(monitor.Progress()), stage, total);
  }
}
