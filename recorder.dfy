/** The session orchestrator (the Recorder class of App.cs): what it sends to the three
    peers, what it counts, what it logs, and how it reads the console. Each callback
    and each `lock` block is one atomic step; the sensors, the peers' replies, the
    console and the clock are inputs. */
module Recording {
  import opened Strings
  import opened Defs
  import Logging
  import TaskSetup
  import LogFiles
  import Extensions

  /** The three line peers: the N-back task, the CTT and the Leap Motion streamer. */
  datatype Peer = NBack | Ctt | Streamer

  /** One NetClient.Send call. */
  datatype Command = Command(peer: Peer, text: string)

  const GetTasksCommand := "tasks"
  const SetTaskCommand := "task"
  const GetLastLogCommand := "getlog"
  const LoadProfileCommand := "profile"
  const GetLambdasCommand := "lambdas"
  const SetLambdaCommand := "lambda"
  const StartCommand := "start"
  const StopCommand := "stop"

  /** The placeholder description the recorder starts with. */
  const UnknownDescription := "Unknown"

  // ---- N-back task descriptions ----

  /** One item of a TSK reply: its first two comma fields give a description, and an
      item with fewer fields gives none. */
  function DescriptionOfItem(item: string): Option<string> {
    var p := Split(item, ',');
    if |p| >= 2 then Some(p[0] + (if p[1] == "Ordered" then " fixed numbers" else " randomized numbers"))
    else None
  }

  /** The TSK branch of NbtClient_Message: one description per `;` item that has at
      least two `,` fields, in order; the other items are skipped. */
  method TaskDescriptions(payload: string) returns (items: seq<string>)
    ensures items == FilterMap(Split(payload, ';'), DescriptionOfItem)
  {
    var parts := Split(payload, ';');
    items := [];
    for k := 0 to |parts|
      invariant items == FilterMap(parts[..k], DescriptionOfItem)
    {
      assert parts[..k + 1][..k] == parts[..k];
      match DescriptionOfItem(parts[k]) {
        case Some(description) => items := items + [description];
        case None =>
      }
    }
    assert parts[..|parts|] == parts;
  }

  /** An item of two or more comma-free fields reads "{first field} fixed numbers" exactly
      when its second field is "Ordered", and "{first field} randomized numbers" otherwise. */
  lemma DescriptionText(fields: seq<string>)
    requires |fields| >= 2
    requires forall k :: 0 <= k < |fields| ==> Free(fields[k], ',')
    ensures DescriptionOfItem(Join(fields, ","))
      == Some(fields[0] + (if fields[1] == "Ordered" then " fixed numbers" else " randomized numbers"))
  {
    assert "," == [','];
    SplitJoin(fields, ',');
  }

  /** An item without a comma is dropped. */
  lemma ItemWithoutCommaDropped(item: string)
    requires Free(item, ',')
    ensures DescriptionOfItem(item) == None
  {
    SplitOnNoSeparator(item, {','});
  }

  // ---- the description shown for a task ----

  /** The index Run reads the description at, as written: Math.Min(Length - 1, index). */
  function DescriptionIndexAsWritten(count: nat, index: int): int {
    if count - 1 < index then count - 1 else index
  }

  /** A TSK reply with no well-formed item empties the descriptions, and the index Run
      then reads for any valid task is -1: outside the array, so Run throws. */
  lemma DescriptionIndexOutOfRange(index: int)
    requires index >= 0
    ensures FilterMap(Split("TSKx"[3..], ';'), DescriptionOfItem) == []
    ensures DescriptionIndexAsWritten(0, index) == -1
  {
    assert "TSKx"[3..] == "x";
    SplitOnNoSeparator("x", {';'});
    ItemWithoutCommaDropped("x");
  }

  /** The description shown for a valid task: the one at the task's index, or the last
      one for a larger index, or the placeholder when there is none. */
  function DescriptionOf(descriptions: seq<string>, index: int): (d: string)
    requires index >= 0
    ensures d in descriptions || (descriptions == [] && d == UnknownDescription)
    ensures index < |descriptions| ==> d == descriptions[index]
    ensures descriptions != [] ==> d == descriptions[DescriptionIndexAsWritten(|descriptions|, index)]
  {
    if descriptions == [] then UnknownDescription
    else if index < |descriptions| then descriptions[index]
    else descriptions[|descriptions| - 1]
  }

  // ---- peer messages ----

  /** A message is an LMB message with a payload. */
  predicate IsLambdaList(e: string) {
    StartsWith(e, "LMB") && |e| > 3
  }

  /** A message is a TSK reply with a payload (and not FIN). */
  predicate IsTaskList(e: string) {
    !StartsWith(e, "FIN") && StartsWith(e, "TSK") && |e| > 3
  }

  /** What an N-back message leaves in the pending-message cell: a LOG message is cut
      to "LOG", every other message is kept whole. */
  function PendingText(e: string): (r: string)
    ensures |r| <= |e|
    ensures StartsWith(e, "LOG") ==> r == "LOG"
    ensures !StartsWith(e, "LOG") ==> r == e
  {
    if StartsWith(e, "LOG") then e[..3] else e
  }

  /** The name of the temporary file a LOG payload is saved in, made safe by ToPath. */
  function TemporaryLogName(stamp: string): (name: string)
    ensures Extensions.IsSafe(name)
  {
    Extensions.DashIsSafe();
    Extensions.ToPathIsSafe("nbt-" + stamp + ".txt", "-");
    Extensions.ToPath("nbt-" + stamp + ".txt")
  }

  // ---- the record of a gaze sample ----

  function Texts(xs: seq<real>, format: real -> string): (r: seq<string>)
    ensures |r| == |xs|
    ensures forall k :: 0 <= k < |xs| ==> r[k] == format(xs[k])
  {
    seq(|xs|, k requires 0 <= k < |xs| => format(xs[k]))
  }

  /** The items of the record of one gaze sample: the sensor timestamp, eye and head
      angles and pupil state in F4, the headset and top-view hand coordinates in F2, and
      the pending message. */
  function GazeItems(e: EyeHead, headset: HandLocation, topview: HandLocation, message: string,
                     f4: real -> string, f2: real -> string): (r: seq<string>)
    ensures |r| == 34
    ensures r[0] == IntText(e.timestamp) && r[33] == message
    ensures r[1..9] == Texts([e.eye.yaw, e.eye.pitch, e.head.yaw, e.head.pitch,
                              e.pupil.opennessLeft, e.pupil.sizeLeft, e.pupil.opennessRight, e.pupil.sizeRight], f4)
    ensures r[9..21] == Texts(headset.Coordinates(), f2)
    ensures r[21..33] == Texts(topview.Coordinates(), f2)
  {
    var gaze := Texts([e.eye.yaw, e.eye.pitch, e.head.yaw, e.head.pitch,
                       e.pupil.opennessLeft, e.pupil.sizeLeft, e.pupil.opennessRight, e.pupil.sizeRight], f4);
    var hands := Texts(headset.Coordinates(), f2);
    var top := Texts(topview.Coordinates(), f2);
    var r := [IntText(e.timestamp)] + gaze + hands + top + [message];
    assert r[1..9] == gaze && r[9..21] == hands && r[21..33] == top;
    r
  }

  // ---- commands ----

  /** The set commands of a task: "task{N}" to the N-back peer, then "lambda{N}" to the
      CTT, and none for an invalid condition. */
  function SetCommands(task: TaskSetup.TaskCondition): (r: seq<Command>)
    ensures |r| == (if task.IsValid() then 2 else 0)
    ensures task.IsValid() ==> r[0].peer == NBack && r[1].peer == Ctt
  {
    if task.IsValid() then
      [Command(NBack, SetTaskCommand + IntText(task.nBackTaskIndex)),
       Command(Ctt, SetLambdaCommand + IntText(task.cttLambdaIndex))]
    else []
  }

  /** `text` to each peer of `order` that is connected, in that order. */
  function ToConnected(order: seq<Peer>, connected: set<Peer>, text: string): seq<Command>
  {
    if order == [] then []
    else (if order[0] in connected then [Command(order[0], text)] else []) + ToConnected(order[1..], connected, text)
  }

  /** The commands go to connected peers of `order` only, one to each, with the same text. */
  lemma {:induction false} ToConnectedPeers(order: seq<Peer>, connected: set<Peer>, text: string)
    ensures var r := ToConnected(order, connected, text);
      |r| <= |order|
      && (forall k :: 0 <= k < |r| ==> r[k].peer in connected && r[k].text == text)
      && (forall p :: p in order && p in connected ==> Command(p, text) in r)
      && (forall c :: c in r ==> c.peer in order)
  {
    if order != [] {
      ToConnectedPeers(order[1..], connected, text);
      var r := ToConnected(order, connected, text);
      var head := ToPeer(order[0], connected, text);
      var rest := ToConnected(order[1..], connected, text);
      assert r == head + rest;
      assert forall k :: |head| <= k < |r| ==> r[k] == rest[k - |head|];
      forall p | p in order && p in connected ensures Command(p, text) in r {
        if p != order[0] {
          assert p in order[1..];
        }
      }
      forall c | c in r ensures c.peer in order {
        if c in rest {
          assert c.peer in order[1..];
        }
      }
    }
  }

  /** The start commands: the streamer first, then (after a second) the N-back task and the CTT. */
  function StartCommands(connected: set<Peer>): seq<Command> {
    ToConnected([Streamer, NBack, Ctt], connected, StartCommand)
  }

  /** The stop commands: the N-back task, the CTT, then the streamer. */
  function StopCommands(connected: set<Peer>): seq<Command> {
    ToConnected([NBack, Ctt, Streamer], connected, StopCommand)
  }

  /** The command to `peer` when it is connected. */
  function ToPeer(peer: Peer, connected: set<Peer>, text: string): seq<Command> {
    if peer in connected then [Command(peer, text)] else []
  }

  /** The commands to three peers are the three `if (client.IsConnected)` sends in turn. */
  lemma {:induction false} ToThree(a: Peer, b: Peer, c: Peer, connected: set<Peer>, text: string)
    ensures ToConnected([a, b, c], connected, text)
      == ToPeer(a, connected, text) + ToPeer(b, connected, text) + ToPeer(c, connected, text)
  {
    var abc, bc, cOnly := [a, b, c], [b, c], [c];
    assert abc[1..] == bc && bc[1..] == cOnly && cOnly[1..] == [];
    ToFront(abc, connected, text);
    ToFront(bc, connected, text);
    ToFront(cOnly, connected, text);
    var empty: seq<Peer> := [];
    assert ToConnected(empty, connected, text) == [];
  }

  lemma ToFront(order: seq<Peer>, connected: set<Peer>, text: string)
    requires order != []
    ensures ToConnected(order, connected, text) == ToPeer(order[0], connected, text) + ToConnected(order[1..], connected, text)
  {
  }

  /** The commands a tracked task sends after its set commands: start, stop and, unless
      Ctrl+C ended it, the request for the N-back log. */
  function TaskCommands(connected: set<Peer>, interrupted: bool): seq<Command> {
    StartCommands(connected) + EndCommands(connected, interrupted)
  }

  /** The commands that close a tracked task: stop and, unless Ctrl+C ended it, the
      request for the N-back log. */
  function EndCommands(connected: set<Peer>, interrupted: bool): seq<Command> {
    StopCommands(connected) + (if interrupted then [] else [Command(NBack, GetLastLogCommand)])
  }

  /** What one pass of Run's loop sends: the set commands and, once ENTER was read, the
      commands around the tracking. */
  function TaskTrace(task: TaskSetup.TaskCondition, connected: set<Peer>, tracked: bool, interrupted: bool): seq<Command> {
    SetCommands(task) + (if tracked then TaskCommands(connected, interrupted) else [])
  }

  /** What Run sends for tasks that were each tracked and rated, in order. */
  function RatedTrace(tasks: seq<TaskSetup.TaskCondition>, connected: set<Peer>): seq<Command> {
    if tasks == [] then []
    else RatedTrace(tasks[..|tasks| - 1], connected) + TaskTrace(tasks[|tasks| - 1], connected, true, false)
  }

  /** What Run's loop sends for its first `begun` tasks: every task before the last was
      rated, and the last one too unless the session was interrupted there. */
  function SessionTrace(tasks: seq<TaskSetup.TaskCondition>, begun: nat, connected: set<Peer>,
                        interrupted: bool, lastTracked: bool): seq<Command>
    requires begun <= |tasks|
  {
    if interrupted && begun > 0 then
      RatedTrace(tasks[..begun - 1], connected) + TaskTrace(tasks[begun - 1], connected, lastTracked, true)
    else RatedTrace(tasks[..begun], connected)
  }

  /** Every task of the list was rated, from 1 to 7. */
  predicate AllRated(ratings: seq<Option<int>>) {
    forall k :: 0 <= k < |ratings| ==> ratings[k].Some? && 1 <= ratings[k].value <= 7
  }

  /** A task's trace appended to what was sent is its set commands, then the rest. */
  lemma TraceAfter(before: seq<Command>, task: TaskSetup.TaskCondition, connected: set<Peer>, tracked: bool, interrupted: bool)
    ensures before + TaskTrace(task, connected, tracked, interrupted)
      == before + SetCommands(task) + (if tracked then TaskCommands(connected, interrupted) else [])
  {
  }

  lemma TraceAppend(before: seq<Command>, trace: seq<Command>, more: seq<Command>)
    ensures before + trace + more == before + (trace + more)
  {
  }

  /** One more pass of Run's loop after uninterrupted ones: its trace is appended, and
      only a task that was not tracked or was interrupted can end the rated run. */
  lemma SessionTraceStep(tasks: seq<TaskSetup.TaskCondition>, begun: nat, connected: set<Peer>,
                         tracked: bool, interrupted: bool, lastTracked: bool)
    requires begun < |tasks| && (!tracked ==> interrupted)
    ensures SessionTrace(tasks, begun + 1, connected, interrupted, tracked)
      == SessionTrace(tasks, begun, connected, false, lastTracked) + TaskTrace(tasks[begun], connected, tracked, interrupted)
  {
    assert tasks[..begun + 1][..begun] == tasks[..begun];
  }

  /** The request for the N-back log. */
  const LogRequest := Command(NBack, GetLastLogCommand)

  /** Set commands never request the N-back log. */
  lemma SetCommandsRequestNoLog(task: TaskSetup.TaskCondition)
    ensures LogRequest !in SetCommands(task)
  {
    if task.IsValid() {
      assert (SetTaskCommand + IntText(task.nBackTaskIndex))[0] == 't';
      assert (SetLambdaCommand + IntText(task.cttLambdaIndex))[0] == 'l';
    }
  }

  /** Start and stop commands never request the N-back log. */
  lemma StartStopRequestNoLog(connected: set<Peer>)
    ensures LogRequest !in StartCommands(connected) && LogRequest !in StopCommands(connected)
  {
    ToConnectedPeers([Streamer, NBack, Ctt], connected, StartCommand);
    ToConnectedPeers([NBack, Ctt, Streamer], connected, StopCommand);
  }

  /** A task's trace requests the N-back log once when it was rated, and never otherwise. */
  lemma LogRequestsOfTask(task: TaskSetup.TaskCondition, connected: set<Peer>, tracked: bool, interrupted: bool)
    ensures multiset(TaskTrace(task, connected, tracked, interrupted))[LogRequest]
      == if tracked && !interrupted then 1 else 0
  {
    SetCommandsRequestNoLog(task);
    StartStopRequestNoLog(connected);
  }

  /** After Run's loop the N-back log has been requested exactly once per rated task:
      once for every task begun, except the one an interruption ended. */
  lemma {:induction false} LogRequestsOfSession(tasks: seq<TaskSetup.TaskCondition>, begun: nat, connected: set<Peer>,
                                                interrupted: bool, lastTracked: bool)
    requires begun <= |tasks|
    ensures multiset(SessionTrace(tasks, begun, connected, interrupted, lastTracked))[LogRequest]
      == if interrupted && begun > 0 then begun - 1 else begun
  {
    if interrupted && begun > 0 {
      LogRequestsOfRated(tasks[..begun - 1], connected);
      LogRequestsOfTask(tasks[begun - 1], connected, lastTracked, true);
    } else {
      LogRequestsOfRated(tasks[..begun], connected);
    }
  }

  lemma {:induction false} LogRequestsOfRated(tasks: seq<TaskSetup.TaskCondition>, connected: set<Peer>)
    ensures multiset(RatedTrace(tasks, connected))[LogRequest] == |tasks|
  {
    if tasks != [] {
      LogRequestsOfRated(tasks[..|tasks| - 1], connected);
      LogRequestsOfTask(tasks[|tasks| - 1], connected, true, false);
    }
  }

  /** Stop commands go to the connected peers only, each once; the N-back task's comes
      first and the streamer's last. */
  lemma StopOrder(connected: set<Peer>)
    ensures var r := StopCommands(connected);
      (forall c :: c in r <==> c.peer in connected && c.text == StopCommand)
      && (NBack in connected ==> r != [] && r[0] == Command(NBack, StopCommand))
      && (Streamer in connected ==> r != [] && r[|r| - 1] == Command(Streamer, StopCommand))
  {
    var order := [NBack, Ctt, Streamer];
    var r := StopCommands(connected);
    ToThree(NBack, Ctt, Streamer, connected, StopCommand);
    forall c: Command | c.peer in connected && c.text == StopCommand ensures c in r {
      assert c.peer == NBack || c.peer == Ctt || c.peer == Streamer;
      assert c.peer in order;
    }
  }

  // ---- console input ----

  /** The rating a console line gives: Int32.TryParse succeeds with a value from 1 to 7;
      null and every other line give none. */
  function RatingOf(line: Option<string>): (r: Option<int>)
    ensures r.Some? ==> 1 <= r.value <= 7
  {
    if line.None? then None
    else match ParseInt(line.value)
      case Some(n) => if 1 <= n <= 7 then Some(n) else None
      case None => None
  }

  /** A console line GetRating accepts. */
  predicate IsRating(line: Option<string>) {
    RatingOf(line).Some?
  }

  /** The index of the first element that satisfies `p`, or the length. */
  function FirstWhere<T>(xs: seq<T>, p: T -> bool): (i: nat)
    ensures i <= |xs|
    ensures i < |xs| ==> p(xs[i])
    ensures forall j :: 0 <= j < i ==> !p(xs[j])
  {
    if xs == [] then 0
    else if p(xs[0]) then 0
    else
      var i := FirstWhere(xs[1..], p);
      assert forall j :: 1 <= j < 1 + i ==> xs[j] == xs[1..][j - 1];
      1 + i
  }

  /** The first index where `p` holds, recognised from its defining facts. */
  lemma {:induction false} FirstWhereIs<T>(xs: seq<T>, p: T -> bool, i: nat)
    requires i <= |xs| && (i < |xs| ==> p(xs[i]))
    requires forall j :: 0 <= j < i ==> !p(xs[j])
    ensures FirstWhere(xs, p) == i
  {
  }

  /** What AskParticipantId ends with: an id (0 for a blank line), or the exception
      thrown at the end of the input. */
  datatype IdAnswer = Chosen(id: int) | Required

  /** The participant data as LogFileManager sees it: its destination folder, the names
      of the participant folders listed there, and the directories that exist. */
  datatype DataFolder = DataFolder(destination: string, listed: seq<string>, directories: set<string>)

  /** How AskParticipantId treats one line: None when it asks again. */
  function Decide(line: Option<string>, folder: DataFolder, paceNames: seq<string>): Option<IdAnswer> {
    if line.None? then Some(Required)
    else if IsBlank(line.value) then Some(Chosen(0))
    else match ParseInt(line.value)
      case Some(pid) =>
        if 0 < pid < 100 && !LogFiles.IsParticipantDataFull(folder.destination, pid, paceNames, folder.directories)
        then Some(Chosen(pid)) else None
      case None => None
  }

  /** The lines that make AskParticipantId stop asking. */
  predicate Decides(line: Option<string>, folder: DataFolder, paceNames: seq<string>) {
    Decide(line, folder, paceNames).Some?
  }

  /** Decides, as the predicate FirstWhere applies. */
  function DecidesFor(folder: DataFolder, paceNames: seq<string>): Option<string> -> bool {
    line => Decides(line, folder, paceNames)
  }

  /** A chosen id is 0, or an id from 1 to 99 whose data is not yet full. */
  lemma DecisionIsValid(line: Option<string>, folder: DataFolder, paceNames: seq<string>)
    ensures match Decide(line, folder, paceNames)
      case Some(Chosen(id)) =>
        id == 0 || (1 <= id <= 99 && !LogFiles.IsParticipantDataFull(folder.destination, id, paceNames, folder.directories))
      case _ => true
    ensures Decide(line, folder, paceNames) == Some(Required) <==> line.None?
  {
  }

  // ---- what one task shows ----

  /** The information logged for a valid task. */
  datatype TaskInfo = TaskInfo(number: int, total: int, lambdaValue: real, description: string, nBackTaskIndex: int)

  function InfoOf(i: nat, total: nat, task: TaskSetup.TaskCondition, lambdas: seq<real>, descriptions: seq<string>): TaskInfo
    requires task.IsValid()
  {
    var lambdaValue := if task.cttLambdaIndex < |lambdas| then lambdas[task.cttLambdaIndex] else task.cttLambdaIndex as real;
    TaskInfo(i + 1, total, lambdaValue, DescriptionOf(descriptions, task.nBackTaskIndex), task.nBackTaskIndex)
  }

  // ---- the recorder ----

  /** A callback that runs while a task is tracked. The clock readings it needs
      (DateTime.Now for a LOG file name, DateTime.Now.Ticks for a record) come with it. */
  datatype Event =
    | NBackLine(text: string, stamp: string)
    | CttLine(text: string)
    | StreamerLine
    | TopviewSample(location: HandLocation)
    | HeadsetSample(raw: HandLocation, compensated: HandLocation)
    | GazeSample(sample: EyeHead, ticks: int)

  datatype Key = CtrlC | OtherKey

  /** One step of the tracking loop: a callback, or one pass of the polling loop with
      the clock for a debug-mode sample and the key read, if one was available. */
  datatype Step = Happens(event: Event) | Poll(ticks: int, key: Option<Key>)

  /** The poll that reads Ctrl+C. */
  predicate IsCtrlC(s: Step) {
    s.Poll? && s.key == Some(CtrlC)
  }

  /** The steps that end the tracking loop: a FIN message, or a key. */
  predicate EndsTracking(s: Step) {
    (s.Happens? && s.event.NBackLine? && StartsWith(s.event.text, "FIN")) || (s.Poll? && s.key.Some?)
  }

  /** The steps the tracking loop takes: those up to and including the first that ends
      it, or all of them when none does. */
  function TrackedSteps(steps: seq<Step>): (r: seq<Step>)
    ensures r <= steps
    ensures forall j :: 0 <= j < |r| - 1 ==> !EndsTracking(r[j])
    ensures r != steps ==> r != [] && EndsTracking(r[|r| - 1])
  {
    var i := FirstWhere(steps, EndsTracking);
    if i < |steps| then steps[..i + 1] else steps
  }

  /** Steps that come after the one ending the loop are never taken. */
  lemma {:induction false} LaterStepsIgnored(steps: seq<Step>, later: seq<Step>)
    requires FirstWhere(steps, EndsTracking) < |steps|
    ensures TrackedSteps(steps + later) == TrackedSteps(steps)
  {
    var i := FirstWhere(steps, EndsTracking);
    assert forall j :: 0 <= j <= i ==> (steps + later)[j] == steps[j];
    FirstWhereIs(steps + later, EndsTracking, i);
    assert (steps + later)[..i + 1] == steps[..i + 1];
  }

  /** The steps that log a gaze sample: a gaze callback, or a poll in debug mode. */
  predicate LogsGaze(s: Step, gazeTrackerReady: bool) {
    (s.Happens? && s.event.GazeSample?) || (s.Poll? && !gazeTrackerReady)
  }

  function GazeCount(steps: seq<Step>, gazeTrackerReady: bool): nat {
    if steps == [] then 0
    else
      var last := if LogsGaze(steps[|steps| - 1], gazeTrackerReady) then 1 else 0;
      GazeCount(steps[..|steps| - 1], gazeTrackerReady) + last
  }

  /** The number of streamer packets among the steps. */
  function PacketCount(steps: seq<Step>): nat {
    if steps == [] then 0
    else
      var last := if steps[|steps| - 1] == Happens(StreamerLine) then 1 else 0;
      PacketCount(steps[..|steps| - 1]) + last
  }

  /** What happens around one task: the devices' readiness, the tracking steps, and the
      clock, folder dialog, file write and final flush of its rating's save. */
  datatype TaskEnvironment = TaskEnvironment(
    handTrackerReady: bool, gazeTrackerReady: bool, steps: seq<Step>,
    ratingTicks: int, folderDialog: Logging.FolderDialog, writeOk: bool, flushOk: bool)

  /** What a session is given: the loaded task setup and the shuffle's draws, whether the
      manifest can be written, each task's environment, and the files at the end. */
  datatype Session = Session(
    setup: TaskSetup.Setup, draws: seq<nat>,
    manifestFolderExists: bool, manifestWriteOk: bool,
    environment: nat -> TaskEnvironment,
    destination: string, sources: seq<LogFiles.Source>, failing: set<string>)

  /** The record `_logger.Add("Rating", rating)` makes. */
  function RatingRecord(ticks: int, rating: int): string {
    Logging.Record(ticks, ["Rating", IntText(rating)])
  }

  /** Where the rating record ends up: last in the buffer when Save failed before
      clearing it, last line of the one log Save added, with the buffer emptied, or, only
      when the final flush failed, nowhere: no log was added and the buffer is empty. */
  predicate RatingStored(before: seq<Logging.SavedLog>, after: seq<Logging.SavedLog>, records: seq<string>,
                         ticks: int, rating: int, flushOk: bool) {
    var record := RatingRecord(ticks, rating);
    (after == before && records != [] && records[|records| - 1] == record)
    || (|after| == |before| + 1 && after[..|before|] == before && records == []
        && after[|before|].lines != [] && after[|before|].lines[|after[|before|].lines| - 1] == record)
    || (!flushOk && after == before && records == [])
  }

  /** The end of a session that was not cut short: after a complete session the files are
      moved into the pace folder (when there is an id and a pace); after an interrupted one
      the temporary files are deleted and no folder is created. */
  predicate SessionEnded(session: Session, participantId: int, pace: Option<string>, interrupted: bool,
                         collectedBefore: Option<string>, collected: Option<string>, outcomes: seq<LogFiles.Outcome>) {
    if interrupted then
      collected == collectedBefore && outcomes == LogFiles.Deletes(session.failing, LogFiles.AllFiles(session.sources))
    else
      collected == LogFiles.CreatedFolder(session.destination, participantId, pace)
      && outcomes == match collected
        case Some(folder) => LogFiles.Moves(folder, session.failing, LogFiles.AllFiles(session.sources))
        case None => []
  }

  class Recorder {
    /** `_logger`, the shared Logger. */
    const logger: Logging.Logger
    const debugMode: bool
    /** Settings.LogFolder. */
    const logFolder: string
    /** Settings.Pace, by name. */
    const pace: Option<string>
    /** The names of the Pace values. */
    const paceNames: seq<string>
    /** double.TryParse and Double.ToString with "F4" and "F2". */
    const parseDouble: string -> Option<real>
    const formatF4: real -> string
    const formatF2: real -> string

    /** Settings.ParticipantID. */
    var participantId: int
    /** The peers whose NetClient.IsConnected holds. */
    var connected: set<Peer>
    /** Every Send, in order. */
    var sent: seq<Command>
    /** The console lines not yet read; reading past the end gives null. */
    var console: seq<Option<string>>
    /** The information logged for each valid task. */
    var infos: seq<TaskInfo>
    var lambdas: seq<real>
    var nbackTaskDescriptions: seq<string>
    /** `_nbackTaskMessage`, the pending-message cell. */
    var nbackTaskMessage: string
    /** The temporary files written for LOG messages: name and content. */
    var temporaryLogs: seq<(string, string)>
    var hasFinished: bool
    var hasInterrupted: bool
    /** `_gazeTracker != null`. */
    var hasGazeTracker: bool
    var startTime: int
    var gazeSampleCount: int
    var headsetHand: HandLocation
    var topviewHand: HandLocation
    var headsetTotal: int
    var headsetValid: int
    var topviewTotal: int
    var topviewValid: int
    var streamerPackets: int
    /** The manifest TaskSetup.SaveTo wrote, if any. */
    var manifest: Option<string>
    /** The logs Logger.Save wrote, in order. */
    var savedLogs: seq<Logging.SavedLog>
    /** The pace folder Collect created, and the moves or deletes at the end of Run. */
    var collected: Option<string>
    var fileOutcomes: seq<LogFiles.Outcome>

    /** The session's task list is a permutation of its plan, equal to it when the setup
        is not randomized, and the manifest holds it when it could be written. */
    predicate Planned(session: Session, tasks: seq<TaskSetup.TaskCondition>, manifest: Option<string>) {
      var setup := session.setup;
      var plan := TaskSetup.Plan(setup.repetitions, setup.cttLambdaIndexes, setup.nBackTaskIndexes);
      multiset(tasks) == multiset(plan)
      && (!setup.randomized ==> tasks == plan)
      && manifest == if logFolder != "" && session.manifestFolderExists && session.manifestWriteOk
        then Some(TaskSetup.ManifestText(tasks)) else None
    }

    /** The counters never go below zero, and a valid-sample count never exceeds its total. */
    predicate Valid()
      reads this`headsetValid, this`headsetTotal, this`topviewValid, this`topviewTotal,
        this`gazeSampleCount, this`streamerPackets
    {
      0 <= headsetValid <= headsetTotal && 0 <= topviewValid <= topviewTotal
      && 0 <= gazeSampleCount && 0 <= streamerPackets
    }

    /** The field initialisers of Recorder; `connected` is what the three Connect calls
        left, and `console` what the console will give. */
    constructor (logger: Logging.Logger, debugMode: bool, logFolder: string, pace: Option<string>,
                 paceNames: seq<string>, parseDouble: string -> Option<real>,
                 formatF4: real -> string, formatF2: real -> string,
                 connected: set<Peer>, console: seq<Option<string>>)
      ensures Valid()
      ensures this.logger == logger && this.debugMode == debugMode && this.logFolder == logFolder
      ensures this.pace == pace && this.paceNames == paceNames && this.parseDouble == parseDouble
      ensures this.formatF4 == formatF4 && this.formatF2 == formatF2
      ensures this.connected == connected && this.console == console
      ensures participantId == 0 && sent == [] && infos == []
      ensures lambdas == [] && nbackTaskDescriptions == [UnknownDescription] && nbackTaskMessage == ""
      ensures !hasFinished && !hasInterrupted && !hasGazeTracker
      ensures headsetHand == EmptyHand && topviewHand == EmptyHand
      ensures headsetTotal == 0 && topviewTotal == 0 && gazeSampleCount == 0 && streamerPackets == 0
    {
      this.logger := logger;
      this.debugMode := debugMode;
      this.logFolder := logFolder;
      this.pace := pace;
      this.paceNames := paceNames;
      this.parseDouble := parseDouble;
      this.formatF4 := formatF4;
      this.formatF2 := formatF2;
      this.connected := connected;
      this.console := console;
      participantId := 0;
      sent, infos, temporaryLogs, savedLogs, fileOutcomes := [], [], [], [], [];
      lambdas := [];
      nbackTaskDescriptions := [UnknownDescription];
      nbackTaskMessage := "";
      hasFinished, hasInterrupted, hasGazeTracker := false, false, false;
      startTime, gazeSampleCount := 0, 0;
      headsetHand, topviewHand := EmptyHand, EmptyHand;
      headsetTotal, headsetValid, topviewTotal, topviewValid, streamerPackets := 0, 0, 0, 0, 0;
      manifest, collected := None, None;
    }

    // ---- callbacks ----

    /** CttClient_Message: an LMB message with a payload replaces the lambdas with the
        payload's `;` items that parse as numbers, in order; any other message changes nothing. */
    method CttMessage(e: string)
      modifies this`lambdas
      ensures IsLambdaList(e) ==> lambdas == FilterMap(Split(e[3..], ';'), parseDouble)
      ensures !IsLambdaList(e) ==> lambdas == old(lambdas)
    {
      if StartsWith(e, "LMB") && |e| > 3 {
        var parts := Split(e[3..], ';');
        var items: seq<real> := [];
        for k := 0 to |parts|
          invariant items == FilterMap(parts[..k], parseDouble)
        {
          assert parts[..k + 1][..k] == parts[..k];
          match parseDouble(parts[k]) {
            case Some(value) => items := items + [value];
            case None =>
          }
        }
        assert parts[..|parts|] == parts;
        lambdas := items;
      }
    }

    /** NbtClient_Message: FIN sets the finished flag; a TSK reply with a payload replaces
        the descriptions with one per well-formed item; a LOG payload is saved to a
        temporary file; and the message, a LOG message cut to "LOG", overwrites the
        pending-message cell. */
    method NBackMessage(e: string, stamp: string)
      modifies this`hasFinished, this`nbackTaskDescriptions, this`temporaryLogs, this`nbackTaskMessage
      ensures hasFinished == (old(hasFinished) || StartsWith(e, "FIN"))
      ensures IsTaskList(e) ==> nbackTaskDescriptions == FilterMap(Split(e[3..], ';'), DescriptionOfItem)
      ensures !IsTaskList(e) ==> nbackTaskDescriptions == old(nbackTaskDescriptions)
      ensures temporaryLogs == old(temporaryLogs)
        + (if StartsWith(e, "LOG") && |e| > 3 then [(TemporaryLogName(stamp), e[3..])] else [])
      ensures nbackTaskMessage == PendingText(e)
    {
      var message := e;
      if StartsWith(e, "FIN") {
        hasFinished := true;
      } else if StartsWith(e, "TSK") && |e| > 3 {
        nbackTaskDescriptions := TaskDescriptions(e[3..]);
      } else if StartsWith(e, "LOG") {
        if |e| > 3 {
          temporaryLogs := temporaryLogs + [(TemporaryLogName(stamp), e[3..])];
        }
        message := e[..3];
      }
      nbackTaskMessage := message;
    }

    /** LmsClient_Message: one more streamer packet. */
    method StreamerMessage()
      modifies this`streamerPackets
      ensures streamerPackets == old(streamerPackets) + 1
    {
      streamerPackets := streamerPackets + 1;
    }

    /** LmsUdpClient_DataReceived: the total always rises; the location is stored, and
        the valid count rises when it is not empty. */
    method TopviewData(location: HandLocation)
      requires Valid()
      modifies this`topviewTotal, this`topviewValid, this`topviewHand
      ensures Valid()
      ensures topviewTotal == old(topviewTotal) + 1 && topviewHand == location
      ensures topviewValid == old(topviewValid) + (if location.IsEmpty() then 0 else 1)
    {
      topviewTotal := topviewTotal + 1;
      topviewHand := location;
      if !topviewHand.IsEmpty() {
        topviewValid := topviewValid + 1;
      }
    }

    /** HandTracker_Data: ignored without a gaze tracker; otherwise the compensated
        location is stored, the total rises, and the valid count rises when the raw palm
        is not the zero vector. */
    method HeadsetData(raw: HandLocation, compensated: HandLocation)
      requires Valid()
      modifies this`headsetTotal, this`headsetValid, this`headsetHand
      ensures Valid()
      ensures !hasGazeTracker ==>
        headsetTotal == old(headsetTotal) && headsetValid == old(headsetValid) && headsetHand == old(headsetHand)
      ensures hasGazeTracker ==> (headsetHand == compensated && headsetTotal == old(headsetTotal) + 1
        && headsetValid == old(headsetValid) + (if raw.palm.IsZero() then 0 else 1))
    {
      if !hasGazeTracker {
        return;
      }
      headsetHand := compensated;
      if !raw.palm.IsZero() {
        headsetValid := headsetValid + 1;
      }
      headsetTotal := headsetTotal + 1;
    }

    /** GazeTracker_Data: the pending message is taken and the cell cleared in one step,
        and exactly one record of 34 items is added for the sample. */
    method GazeData(e: EyeHead, ticks: int)
      requires Valid()
      modifies this`gazeSampleCount, this`nbackTaskMessage, this`startTime, logger
      ensures Valid()
      ensures gazeSampleCount == old(gazeSampleCount) + 1
      ensures nbackTaskMessage == ""
      ensures startTime == if old(startTime) == 0 then e.timestamp else old(startTime)
      ensures logger.records == old(logger.records)
        + [Logging.Record(ticks, GazeItems(e, headsetHand, topviewHand, old(nbackTaskMessage), formatF4, formatF2))]
    {
      gazeSampleCount := gazeSampleCount + 1;
      var eventInfo := nbackTaskMessage;
      nbackTaskMessage := "";
      if startTime == 0 {
        startTime := e.timestamp;
      }
      var headset := headsetHand;
      var topview := topviewHand;
      logger.Add(ticks, GazeItems(e, headset, topview, eventInfo, formatF4, formatF2));
    }

    // ---- console input and requests ----

    /** Console.ReadLine: the next line, or null at the end of the input. */
    method ReadLine() returns (line: Option<string>)
      modifies this`console
      ensures old(console) == [] ==> line == None && console == []
      ensures old(console) != [] ==> line == old(console)[0] && console == old(console)[1..]
    {
      if console == [] {
        return None;
      }
      line := console[0];
      console := console[1..];
    }

    /** GetRating: the first line that parses to an integer from 1 to 7. When the input
        ends first, every later line is null and GetRating never returns: the result is None. */
    method GetRating() returns (rating: Option<int>)
      modifies this`console
      ensures var i := FirstWhere(old(console), IsRating);
        (i < |old(console)| ==> rating == RatingOf(old(console)[i]) && console == old(console)[i + 1..])
        && (i == |old(console)| ==> rating == None && console == [])
      ensures rating.Some? ==> 1 <= rating.value <= 7
    {
      ghost var lines := console;
      ghost var k := 0;
      while true
        invariant 0 <= k <= |lines| && console == lines[k..]
        invariant forall j :: 0 <= j < k ==> !IsRating(lines[j])
        decreases |console|
      {
        if console == [] {
          FirstWhereIs(lines, IsRating, k);
          return None;
        }
        assert console[0] == lines[k] && lines[k + 1..] == console[1..];
        var r := ReadRating();
        k := k + 1;
        if r.Some? {
          FirstWhereIs(lines, IsRating, k - 1);
          return r;
        }
      }
    }

    /** One `Console.ReadLine()` of GetRating's loop and its parse. */
    method ReadRating() returns (r: Option<int>)
      requires console != []
      modifies this`console
      ensures r == RatingOf(old(console)[0]) && console == old(console)[1..]
    {
      var input := ReadLine();
      r := RatingOf(input);
    }

    /** AskParticipantId: the last id is shown when it is positive; then the first
        deciding line gives the id (0 for a blank line, or an id from 1 to 99 whose data
        is not full), and the end of the input throws. */
    method AskParticipantId(folder: DataFolder) returns (lastShown: Option<int>, answer: IdAnswer)
      modifies this`console, this`participantId
      ensures lastShown.Some? <==> LogFiles.LastParticipantId(folder.listed) > 0
      ensures lastShown.Some? ==> lastShown.value == LogFiles.LastParticipantId(folder.listed)
      ensures var i := FirstWhere(old(console), DecidesFor(folder, paceNames));
        (i < |old(console)| ==> Decide(old(console)[i], folder, paceNames) == Some(answer) && console == old(console)[i + 1..])
        && (i == |old(console)| ==> answer == Required && console == [])
      ensures answer.Chosen? ==> (participantId == answer.id
        && (answer.id == 0 || (1 <= answer.id <= 99
            && !LogFiles.IsParticipantDataFull(folder.destination, answer.id, paceNames, folder.directories))))
      ensures answer.Required? ==> participantId == old(participantId)
    {
      var lastId := LogFiles.LastParticipantId(folder.listed);
      lastShown := if lastId > 0 then Some(lastId) else None;
      ghost var lines := console;
      answer := ReadIdAnswer(folder);
      ghost var i := FirstWhere(lines, DecidesFor(folder, paceNames));
      if i < |lines| {
        DecisionIsValid(lines[i], folder, paceNames);
      }
      if answer.Chosen? {
        participantId := answer.id;
      }
    }

    /** The reading loop of AskParticipantId: lines are read until one decides. */
    method ReadIdAnswer(folder: DataFolder) returns (answer: IdAnswer)
      modifies this`console
      ensures var i := FirstWhere(old(console), DecidesFor(folder, paceNames));
        (i < |old(console)| ==> Decide(old(console)[i], folder, paceNames) == Some(answer) && console == old(console)[i + 1..])
        && (i == |old(console)| ==> answer == Required && console == [])
    {
      ghost var lines := console;
      ghost var k := 0;
      while true
        invariant 0 <= k <= |lines| && console == lines[k..]
        invariant forall j :: 0 <= j < k ==> !DecidesFor(folder, paceNames)(lines[j])
        decreases |console|
      {
        if console == [] {
          FirstWhereIs(lines, DecidesFor(folder, paceNames), k);
          return Required;
        }
        assert console[0] == lines[k];
        var input := ReadLine();
        k := k + 1;
        var decision := Decide(input, folder, paceNames);
        if decision.Some? {
          FirstWhereIs(lines, DecidesFor(folder, paceNames), k - 1);
          return decision.value;
        }
      }
    }

    /** The number of times RequestAndGetReply polls for a reply: every 100 ms for 3 s. */
    static const ReplyPolls := 30

    /** RequestAndGetReply: nothing is sent to a disconnected peer; otherwise the request
        is sent once and the reply polled until it has come or the polls run out; either
        way the call just returns, and the caller learns nothing of which it was.
        `replies[k]` is what the k-th poll sees; `answered` says a poll saw the reply. */
    method RequestAndGetReply(peer: Peer, request: string, replies: seq<bool>) returns (answered: bool)
      modifies this`sent
      ensures peer !in connected ==> sent == old(sent) && !answered
      ensures peer in connected ==> sent == old(sent) + [Command(peer, request)]
      ensures peer in connected ==>
        (answered <==> exists k :: 0 <= k < ReplyPolls && k < |replies| && replies[k])
    {
      if peer !in connected {
        return false;
      }
      sent := sent + [Command(peer, request)];
      var k := 0;
      while k < ReplyPolls
        invariant 0 <= k <= ReplyPolls
        invariant forall j :: 0 <= j < k && j < |replies| ==> !replies[j]
      {
        if k < |replies| && replies[k] {
          return true;
        }
        k := k + 1;
      }
      answered := false;
    }

    /** The end of the Recorder constructor: the lambdas are asked of the CTT and the
        task list of the N-back task, then the pace's profile is loaded. */
    method Prepare(lambdaReplies: seq<bool>, taskReplies: seq<bool>)
      modifies this`sent
      ensures sent == old(sent) + ToPeer(Ctt, connected, GetLambdasCommand) + ToPeer(NBack, connected, GetTasksCommand)
        + (if pace.Some? then [Command(NBack, LoadProfileCommand + pace.value)] else [])
    {
      var _ := RequestAndGetReply(Ctt, GetLambdasCommand, lambdaReplies);
      var _ := RequestAndGetReply(NBack, GetTasksCommand, taskReplies);
      if pace.Some? {
        sent := sent + [Command(NBack, LoadProfileCommand + pace.value)];
      }
    }
  
    // ---- one task ----

    /** The start of each pass of Run: a gaze tracker is created, a valid task is sent to
        the peers and its information logged, and the shared state is reset. */
    method BeginTask(i: nat, total: nat, task: TaskSetup.TaskCondition)
      modifies this`hasGazeTracker, this`sent, this`infos, this`headsetHand, this`topviewHand,
        this`nbackTaskMessage, this`hasFinished
      ensures hasGazeTracker && !hasFinished
      ensures sent == old(sent) + SetCommands(task)
      ensures infos == old(infos) + (if task.IsValid() then [InfoOf(i, total, task, lambdas, nbackTaskDescriptions)] else [])
      ensures headsetHand == EmptyHand && topviewHand == EmptyHand && nbackTaskMessage == ""
    {
      hasGazeTracker := true;
      if task.IsValid() {
        sent := sent + [Command(NBack, SetTaskCommand + IntText(task.nBackTaskIndex))];
        sent := sent + [Command(Ctt, SetLambdaCommand + IntText(task.cttLambdaIndex))];
        infos := infos + [InfoOf(i, total, task, lambdas, nbackTaskDescriptions)];
      }
      headsetHand := EmptyHand;
      topviewHand := EmptyHand;
      nbackTaskMessage := "";
      hasFinished := false;
    }

    /** The counters are reset and the start commands sent: the streamer first, then the
        N-back task and the CTT. */
    method StartTracking()
      modifies this`startTime, this`gazeSampleCount, this`headsetTotal, this`headsetValid,
        this`topviewTotal, this`topviewValid, this`streamerPackets, this`sent
      ensures Valid()
      ensures startTime == 0 && gazeSampleCount == 0 && headsetTotal == 0 && topviewTotal == 0 && streamerPackets == 0
      ensures sent == old(sent) + StartCommands(connected)
    {
      startTime := 0;
      gazeSampleCount := 0;
      headsetTotal, headsetValid := 0, 0;
      topviewTotal, topviewValid := 0, 0;
      streamerPackets := 0;
      SendToConnected(Streamer, NBack, Ctt, StartCommand);
    }

    /** The stop commands, to the N-back task, the CTT and the streamer in turn. */
    method StopTracking()
      modifies this`sent
      ensures sent == old(sent) + StopCommands(connected)
    {
      SendToConnected(NBack, Ctt, Streamer, StopCommand);
    }

    /** `if (client.IsConnected) client.Send(text)` for three clients in turn. */
    method SendToConnected(a: Peer, b: Peer, c: Peer, text: string)
      modifies this`sent
      ensures sent == old(sent) + ToConnected([a, b, c], connected, text)
    {
      ghost var before := sent;
      SendToPeer(a, text);
      SendToPeer(b, text);
      assert sent == before + ToPeer(a, connected, text) + ToPeer(b, connected, text);
      SendToPeer(c, text);
      assert sent == before + (ToPeer(a, connected, text) + ToPeer(b, connected, text) + ToPeer(c, connected, text));
      ToThree(a, b, c, connected, text);
    }

    /** One `_xxxClient.Send(text)` guarded by the client's IsConnected. */
    method SendToPeer(peer: Peer, text: string)
      modifies this`sent
      ensures sent == old(sent) + ToPeer(peer, connected, text)
    {
      if peer in connected {
        sent := sent + [Command(peer, text)];
      }
    }

    /** One callback, run by the handler its source is subscribed to: the text
        messages of the N-back task, the CTT and the streamer, or a sample of one of
        the three trackers. Every field a handler does not write keeps its value. */
    method Dispatch(event: Event)
      requires Valid()
      modifies this`lambdas, this`hasFinished, this`nbackTaskDescriptions, this`temporaryLogs,
        this`nbackTaskMessage, this`streamerPackets, this`topviewTotal, this`topviewValid, this`topviewHand,
        this`headsetTotal, this`headsetValid, this`headsetHand, this`gazeSampleCount, this`startTime, logger
      ensures Valid()
      ensures hasFinished == (old(hasFinished) || (event.NBackLine? && StartsWith(event.text, "FIN")))
      ensures gazeSampleCount == old(gazeSampleCount) + (if event.GazeSample? then 1 else 0)
      ensures |logger.records| == |old(logger.records)| + (if event.GazeSample? then 1 else 0)
      ensures streamerPackets == old(streamerPackets) + (if event.StreamerLine? then 1 else 0)
      ensures lambdas == if event.CttLine? && IsLambdaList(event.text)
        then FilterMap(Split(event.text[3..], ';'), parseDouble) else old(lambdas)
      ensures nbackTaskDescriptions == if event.NBackLine? && IsTaskList(event.text)
        then FilterMap(Split(event.text[3..], ';'), DescriptionOfItem) else old(nbackTaskDescriptions)
      ensures temporaryLogs == old(temporaryLogs)
        + (if event.NBackLine? && StartsWith(event.text, "LOG") && |event.text| > 3
           then [(TemporaryLogName(event.stamp), event.text[3..])] else [])
      ensures nbackTaskMessage == if event.NBackLine? then PendingText(event.text)
        else if event.GazeSample? then "" else old(nbackTaskMessage)
      ensures topviewHand == (if event.TopviewSample? then event.location else old(topviewHand))
      ensures topviewTotal == old(topviewTotal) + (if event.TopviewSample? then 1 else 0)
      ensures topviewValid == old(topviewValid)
        + (if event.TopviewSample? && !event.location.IsEmpty() then 1 else 0)
      ensures headsetHand == (if event.HeadsetSample? && hasGazeTracker then event.compensated else old(headsetHand))
      ensures headsetTotal == old(headsetTotal) + (if event.HeadsetSample? && hasGazeTracker then 1 else 0)
      ensures headsetValid == old(headsetValid)
        + (if event.HeadsetSample? && hasGazeTracker && !event.raw.palm.IsZero() then 1 else 0)
      ensures startTime == if event.GazeSample? && old(startTime) == 0 then event.sample.timestamp else old(startTime)
      ensures !event.GazeSample? ==> logger.records == old(logger.records)
      ensures event.GazeSample? ==> (logger.records == old(logger.records)
        + [Logging.Record(event.ticks,
             GazeItems(event.sample, headsetHand, topviewHand, old(nbackTaskMessage), formatF4, formatF2))])
    {
      match event {
        case NBackLine(_, _) | CttLine(_) | StreamerLine => DispatchMessage(event);
        case TopviewSample(_) | HeadsetSample(_, _) | GazeSample(_, _) => DispatchSample(event);
      }
    }

    /** The text-message half of Dispatch; it leaves the tracker fields alone. */
    method DispatchMessage(event: Event)
      requires event.NBackLine? || event.CttLine? || event.StreamerLine?
      modifies this`lambdas, this`hasFinished, this`nbackTaskDescriptions, this`temporaryLogs,
        this`nbackTaskMessage, this`streamerPackets
      ensures hasFinished == (old(hasFinished) || (event.NBackLine? && StartsWith(event.text, "FIN")))
      ensures streamerPackets == old(streamerPackets) + (if event.StreamerLine? then 1 else 0)
      ensures lambdas == if event.CttLine? && IsLambdaList(event.text)
        then FilterMap(Split(event.text[3..], ';'), parseDouble) else old(lambdas)
      ensures nbackTaskDescriptions == if event.NBackLine? && IsTaskList(event.text)
        then FilterMap(Split(event.text[3..], ';'), DescriptionOfItem) else old(nbackTaskDescriptions)
      ensures temporaryLogs == old(temporaryLogs)
        + (if event.NBackLine? && StartsWith(event.text, "LOG") && |event.text| > 3
           then [(TemporaryLogName(event.stamp), event.text[3..])] else [])
      ensures nbackTaskMessage == if event.NBackLine? then PendingText(event.text) else old(nbackTaskMessage)
    {
      match event {
        case NBackLine(text, stamp) => NBackMessage(text, stamp);
        case CttLine(text) => CttMessage(text);
        case StreamerLine => StreamerMessage();
      }
    }

    /** The tracker-sample half of Dispatch; it leaves the message fields alone. */
    method DispatchSample(event: Event)
      requires Valid() && (event.TopviewSample? || event.HeadsetSample? || event.GazeSample?)
      modifies this`topviewTotal, this`topviewValid, this`topviewHand, this`headsetTotal, this`headsetValid,
        this`headsetHand, this`gazeSampleCount, this`nbackTaskMessage, this`startTime, logger
      ensures Valid()
      ensures gazeSampleCount == old(gazeSampleCount) + (if event.GazeSample? then 1 else 0)
      ensures nbackTaskMessage == if event.GazeSample? then "" else old(nbackTaskMessage)
      ensures topviewHand == (if event.TopviewSample? then event.location else old(topviewHand))
      ensures topviewTotal == old(topviewTotal) + (if event.TopviewSample? then 1 else 0)
      ensures topviewValid == old(topviewValid)
        + (if event.TopviewSample? && !event.location.IsEmpty() then 1 else 0)
      ensures headsetHand == (if event.HeadsetSample? && hasGazeTracker then event.compensated else old(headsetHand))
      ensures headsetTotal == old(headsetTotal) + (if event.HeadsetSample? && hasGazeTracker then 1 else 0)
      ensures headsetValid == old(headsetValid)
        + (if event.HeadsetSample? && hasGazeTracker && !event.raw.palm.IsZero() then 1 else 0)
      ensures startTime == if event.GazeSample? && old(startTime) == 0 then event.sample.timestamp else old(startTime)
      ensures !event.GazeSample? ==> logger.records == old(logger.records)
      ensures event.GazeSample? ==> (logger.records == old(logger.records)
        + [Logging.Record(event.ticks,
             GazeItems(event.sample, headsetHand, topviewHand, old(nbackTaskMessage), formatF4, formatF2))])
    {
      match event {
        case TopviewSample(location) => TopviewData(location);
        case HeadsetSample(raw, compensated) => HeadsetData(raw, compensated);
        case GazeSample(sample, ticks) => GazeData(sample, ticks);
      }
    }

    /** The tracking loop: it runs until a FIN message or a key; Ctrl+C, and no other
        key, marks the session interrupted. Without a ready gaze tracker (debug mode)
        each pass logs an empty sample. `running` is true when the steps ran out
        before the loop ended. Only the steps up to the one that ends the loop take
        effect: one gaze record per gaze callback or debug-mode pass among them, and one
        packet per streamer message. */
    method Track(steps: seq<Step>, gazeTrackerReady: bool) returns (running: bool)
      requires Valid() && !hasFinished && !hasInterrupted
      modifies this`lambdas, this`hasFinished, this`nbackTaskDescriptions, this`temporaryLogs,
        this`nbackTaskMessage, this`streamerPackets, this`topviewTotal, this`topviewValid, this`topviewHand,
        this`headsetTotal, this`headsetValid, this`headsetHand, this`gazeSampleCount, this`startTime,
        this`hasInterrupted, logger
      ensures Valid()
      ensures var i := FirstWhere(steps, EndsTracking);
        (i == |steps| ==> running && !hasInterrupted)
        && (i < |steps| ==> !running && (hasInterrupted <==> IsCtrlC(steps[i])))
      ensures running ==> !hasInterrupted
      ensures Counted(old(gazeSampleCount), |old(logger.records)|, old(streamerPackets), TrackedSteps(steps), gazeTrackerReady)
    {
      var going := true;
      var k := 0;
      while going && k < |steps|
        invariant 0 <= k <= |steps| && Valid()
        invariant going ==> !hasFinished && !hasInterrupted
        invariant going <==> forall j :: 0 <= j < k ==> !EndsTracking(steps[j])
        invariant !going ==> k > 0 && EndsTracking(steps[k - 1]) && (hasInterrupted <==> IsCtrlC(steps[k - 1]))
        invariant !going ==> forall j :: 0 <= j < k - 1 ==> !EndsTracking(steps[j])
        invariant Counted(old(gazeSampleCount), |old(logger.records)|, old(streamerPackets), steps[..k], gazeTrackerReady)
      {
        assert steps[..k + 1][..k] == steps[..k];
        var ends := TrackStep(steps[k], gazeTrackerReady);
        going := !ends;
        k := k + 1;
      }
      FirstWhereIs(steps, EndsTracking, if going then k else k - 1);
      assert steps[..|steps|] == steps;
      running := going;
    }

    /** The counts after `steps` from the given ones: one gaze sample and one record per
        step that logs gaze, one packet per streamer message. */
    ghost predicate Counted(samples: int, records: int, packets: int, steps: seq<Step>, gazeTrackerReady: bool)
      reads this`gazeSampleCount, this`streamerPackets, logger`records
    {
      gazeSampleCount == samples + GazeCount(steps, gazeTrackerReady)
      && |logger.records| == records + GazeCount(steps, gazeTrackerReady)
      && streamerPackets == packets + PacketCount(steps)
    }

    /** One pass of the tracking loop: a callback, or a poll that logs an empty sample in
        debug mode and reads a key if one is available. */
    method TrackStep(step: Step, gazeTrackerReady: bool) returns (ends: bool)
      requires Valid() && !hasFinished && !hasInterrupted
      modifies this`lambdas, this`hasFinished, this`nbackTaskDescriptions, this`temporaryLogs,
        this`nbackTaskMessage, this`streamerPackets, this`topviewTotal, this`topviewValid, this`topviewHand,
        this`headsetTotal, this`headsetValid, this`headsetHand, this`gazeSampleCount, this`startTime,
        this`hasInterrupted, logger
      ensures Valid()
      ensures ends == EndsTracking(step)
      ensures !ends ==> !hasFinished && !hasInterrupted
      ensures ends ==> (hasInterrupted <==> IsCtrlC(step))
      ensures gazeSampleCount == old(gazeSampleCount) + (if LogsGaze(step, gazeTrackerReady) then 1 else 0)
      ensures |logger.records| == |old(logger.records)| + (if LogsGaze(step, gazeTrackerReady) then 1 else 0)
      ensures streamerPackets == old(streamerPackets) + (if step == Happens(StreamerLine) then 1 else 0)
    {
      match step {
        case Happens(event) =>
          Dispatch(event);
          ends := hasFinished;
        case Poll(ticks, key) =>
          if !gazeTrackerReady {
            GazeData(EmptyEyeHead, ticks);
          }
          if key.Some? && key.value == CtrlC {
            hasInterrupted := true;
          }
          ends := key.Some?;
      }
    }

    /** After an uninterrupted task: the N-back log is asked for, the rating read and
        added to the log, and the log saved. */
    method FinishTask(env: TaskEnvironment) returns (rating: Option<int>)
      modifies this`sent, this`console, this`savedLogs, logger
      ensures sent == old(sent) + [Command(NBack, GetLastLogCommand)]
      ensures var i := FirstWhere(old(console), IsRating);
        (i < |old(console)| ==> rating == RatingOf(old(console)[i]) && console == old(console)[i + 1..])
        && (i == |old(console)| ==> rating == None && console == [])
      ensures rating.None? ==> savedLogs == old(savedLogs) && logger.records == old(logger.records)
      ensures rating.Some? ==> (1 <= rating.value <= 7
        && RatingStored(old(savedLogs), savedLogs, logger.records, env.ratingTicks, rating.value, env.flushOk))
    {
      sent := sent + [Command(NBack, GetLastLogCommand)];
      rating := GetRating();
      if rating.Some? {
        SaveRating(env, rating.value);
      }
    }

    /** `_logger.Add("Rating", rating)` and `_logger.Save()`: the saved log, if Save
        succeeds, holds every record so far with the rating last. */
    method SaveRating(env: TaskEnvironment, rating: int)
      modifies this`savedLogs, logger
      ensures var lines := old(logger.records) + [RatingRecord(env.ratingTicks, rating)];
        var picked := Logging.SelectLogFolder(env.folderDialog);
        if (logFolder != "" || picked.Some?) && env.writeOk && env.flushOk
        then savedLogs == old(savedLogs) + [Logging.SavedLog(if logFolder != "" then logFolder else picked.value, lines)]
          && logger.records == []
        else if (logFolder != "" || picked.Some?) && env.writeOk
        then savedLogs == old(savedLogs) && logger.records == []
        else savedLogs == old(savedLogs) && logger.records == lines
      ensures RatingStored(old(savedLogs), savedLogs, logger.records, env.ratingTicks, rating, env.flushOk)
    {
      logger.Add(env.ratingTicks, ["Rating", IntText(rating)]);
      assert logger.records == old(logger.records) + [RatingRecord(env.ratingTicks, rating)];
      var saved := logger.Save(logFolder, env.folderDialog, env.writeOk, env.flushOk);
      if saved.Some? {
        savedLogs := savedLogs + [saved.value];
      }
    }

    /** A task from ENTER on: the counters are reset and the peers started, the task is
        tracked, the peers are stopped and, unless Ctrl+C ended it, the rating is taken
        and the log saved. `stalled` says the model's input ended where the program
        would wait on. */
    method TrackTask(env: TaskEnvironment) returns (rating: Option<int>, stalled: bool)
      requires Valid() && !hasFinished && !hasInterrupted
      modifies this`startTime, this`gazeSampleCount, this`headsetTotal, this`headsetValid,
        this`topviewTotal, this`topviewValid, this`streamerPackets, this`sent,
        this`lambdas, this`hasFinished, this`nbackTaskDescriptions, this`temporaryLogs,
        this`nbackTaskMessage, this`topviewHand, this`headsetHand, this`hasInterrupted,
        this`console, this`savedLogs, logger
      ensures Valid()
      ensures !stalled ==> sent == old(sent) + TaskCommands(connected, hasInterrupted)
      ensures stalled ==> !hasInterrupted
      ensures rating.Some? <==> !stalled && !hasInterrupted
      ensures rating.Some? ==> (1 <= rating.value <= 7
        && RatingStored(old(savedLogs), savedLogs, logger.records, env.ratingTicks, rating.value, env.flushOk))
      ensures rating.None? ==> savedLogs == old(savedLogs)
    {
      var running := StartAndTrack(env);
      if running {
        return None, true;
      }
      rating, stalled := EndTask(env);
    }

    /** The start commands and the tracking loop of a task. */
    method StartAndTrack(env: TaskEnvironment) returns (running: bool)
      requires Valid() && !hasFinished && !hasInterrupted
      modifies this`startTime, this`gazeSampleCount, this`headsetTotal, this`headsetValid,
        this`topviewTotal, this`topviewValid, this`streamerPackets, this`sent,
        this`lambdas, this`hasFinished, this`nbackTaskDescriptions, this`temporaryLogs,
        this`nbackTaskMessage, this`topviewHand, this`headsetHand, this`hasInterrupted, logger
      ensures Valid()
      ensures sent == old(sent) + StartCommands(connected)
      ensures running ==> !hasInterrupted
      ensures var i := FirstWhere(env.steps, EndsTracking);
        (i == |env.steps| <==> running) && (i < |env.steps| ==> (hasInterrupted <==> IsCtrlC(env.steps[i])))
      ensures Counted(0, |old(logger.records)|, 0, TrackedSteps(env.steps), env.gazeTrackerReady)
    {
      StartTracking();
      running := Track(env.steps, env.gazeTrackerReady);
    }

    /** The end of a tracked task (app/App.cs:209-245): the stop commands and, unless
        Ctrl+C ended the tracking, the log request and the rating. */
    method EndTask(env: TaskEnvironment) returns (rating: Option<int>, stalled: bool)
      modifies this`sent, this`console, this`savedLogs, logger
      ensures !stalled ==> sent == old(sent) + EndCommands(connected, hasInterrupted)
      ensures stalled ==> !hasInterrupted
      ensures rating.Some? <==> !stalled && !hasInterrupted
      ensures rating.Some? ==> (1 <= rating.value <= 7
        && RatingStored(old(savedLogs), savedLogs, logger.records, env.ratingTicks, rating.value, env.flushOk))
      ensures rating.None? ==> savedLogs == old(savedLogs)
    {
      StopTracking();
      if hasInterrupted {
        assert EndCommands(connected, true) == StopCommands(connected) + [];
        return None, false;
      }
      ghost var stopped := sent;
      rating := FinishTask(env);
      stalled := rating.None?;
      assert sent == old(sent) + EndCommands(connected, false) by {
        assert sent == stopped + [LogRequest] && stopped == old(sent) + StopCommands(connected);
        TraceAppend(old(sent), StopCommands(connected), [LogRequest]);
      }
    }

    /** One pass of Run's loop for task i. `tracked` says the ENTER line was read;
        `stalled` that the model's input ended where the program would wait on. */
    method RunTask(i: nat, tasks: seq<TaskSetup.TaskCondition>, env: TaskEnvironment)
      returns (tracked: bool, rating: Option<int>, stalled: bool)
      requires Valid() && i < |tasks| && !hasInterrupted
      modifies this`hasGazeTracker, this`sent, this`infos, this`headsetHand, this`topviewHand,
        this`nbackTaskMessage, this`hasFinished, this`console, this`hasInterrupted, this`startTime,
        this`gazeSampleCount, this`headsetTotal, this`headsetValid, this`topviewTotal, this`topviewValid,
        this`streamerPackets, this`lambdas, this`nbackTaskDescriptions, this`temporaryLogs, this`savedLogs, logger
      ensures Valid()
      ensures infos == old(infos)
        + (if tasks[i].IsValid() then [InfoOf(i, |tasks|, tasks[i], old(lambdas), old(nbackTaskDescriptions))] else [])
      ensures var ready := (env.handTrackerReady && env.gazeTrackerReady) || debugMode;
        (tracked <==> ready && old(console) != [] && old(console)[0].Some?)
        && (!ready ==> hasInterrupted && !hasGazeTracker)
        && (ready && !tracked ==> hasInterrupted && hasGazeTracker)
      ensures !tracked ==> !stalled && rating.None?
      ensures tracked && !stalled ==> !hasGazeTracker
      ensures !stalled ==> sent == old(sent) + TaskTrace(tasks[i], connected, tracked, hasInterrupted)
      ensures stalled ==> !hasInterrupted
      ensures rating.Some? <==> tracked && !stalled && !hasInterrupted
      ensures rating.Some? ==> (1 <= rating.value <= 7
        && RatingStored(old(savedLogs), savedLogs, logger.records, env.ratingTicks, rating.value, env.flushOk))
      ensures rating.None? ==> savedLogs == old(savedLogs)
    {
      BeginTask(i, |tasks|, tasks[i]);
      tracked, rating, stalled := EnterTask(env);
      TraceAfter(old(sent), tasks[i], connected, tracked, hasInterrupted);
    }

    /** Run's loop for a task after its set commands: without ready trackers the session
        is interrupted; otherwise the task waits for ENTER, and end of input interrupts it. */
    method EnterTask(env: TaskEnvironment) returns (tracked: bool, rating: Option<int>, stalled: bool)
      requires Valid() && !hasInterrupted && !hasFinished
      modifies this`hasGazeTracker, this`sent, this`headsetHand, this`topviewHand,
        this`nbackTaskMessage, this`hasFinished, this`console, this`hasInterrupted, this`startTime,
        this`gazeSampleCount, this`headsetTotal, this`headsetValid, this`topviewTotal, this`topviewValid,
        this`streamerPackets, this`lambdas, this`nbackTaskDescriptions, this`temporaryLogs, this`savedLogs, logger
      ensures Valid()
      ensures var ready := (env.handTrackerReady && env.gazeTrackerReady) || debugMode;
        (tracked <==> ready && old(console) != [] && old(console)[0].Some?)
        && (!ready ==> hasInterrupted && !hasGazeTracker)
        && (ready && !tracked ==> hasInterrupted && hasGazeTracker == old(hasGazeTracker))
      ensures !tracked ==> !stalled && rating.None? && sent == old(sent)
      ensures tracked && !stalled ==> !hasGazeTracker && sent == old(sent) + TaskCommands(connected, hasInterrupted)
      ensures stalled ==> !hasInterrupted
      ensures rating.Some? <==> tracked && !stalled && !hasInterrupted
      ensures rating.Some? ==> (1 <= rating.value <= 7
        && RatingStored(old(savedLogs), savedLogs, logger.records, env.ratingTicks, rating.value, env.flushOk))
      ensures rating.None? ==> savedLogs == old(savedLogs)
    {
      if !((env.handTrackerReady && env.gazeTrackerReady) || debugMode) {
        hasInterrupted := true;
        hasGazeTracker := false;
        return false, None, false;
      }
      var cmd := ReadLine();
      if cmd.None? || hasInterrupted {
        hasInterrupted := true;
        return false, None, false;
      }
      tracked := true;
      rating, stalled := TrackTask(env);
      if !stalled {
        hasGazeTracker := false;
      }
    }

    /** App.Run: the tasks are built and their manifest saved; each task runs in turn
        until one is interrupted; then the log files are collected into the pace folder,
        or the temporary files deleted when the session was interrupted. `begun` counts
        the tasks started and `ratings` holds their ratings; `stalled` says the model's input ended where the program
        would wait on, and nothing after that point happened. */
    method Run(session: Session)
      returns (tasks: seq<TaskSetup.TaskCondition>, begun: nat, ratings: seq<Option<int>>, stalled: bool, ghost lastTracked: bool)
      requires Valid()
      modifies this`hasGazeTracker, this`sent, this`infos, this`headsetHand, this`topviewHand,
        this`nbackTaskMessage, this`hasFinished, this`console, this`hasInterrupted, this`startTime,
        this`gazeSampleCount, this`headsetTotal, this`headsetValid, this`topviewTotal, this`topviewValid,
        this`streamerPackets, this`lambdas, this`nbackTaskDescriptions, this`temporaryLogs, this`savedLogs,
        this`manifest, this`collected, this`fileOutcomes, logger
      ensures Valid()
      ensures Planned(session, tasks, manifest)
      ensures begun <= |tasks| && |savedLogs| <= |old(savedLogs)| + begun
      ensures participantId == old(participantId) && connected == old(connected)
      ensures !stalled && !hasInterrupted ==> begun == |tasks|
      ensures !stalled ==> SessionEnded(session, participantId, pace, hasInterrupted, old(collected), collected, fileOutcomes)
      ensures stalled ==> collected == old(collected) && fileOutcomes == old(fileOutcomes)
      ensures |ratings| == begun
      ensures !stalled && !hasInterrupted ==> AllRated(ratings)
      ensures hasInterrupted ==> begun >= 1 && AllRated(ratings[..begun - 1]) && ratings[begun - 1].None?
      ensures !stalled ==> sent == old(sent) + SessionTrace(tasks, begun, connected, hasInterrupted, lastTracked)
    {
      hasInterrupted := false;
      tasks := PlanSession(session);
      begun, ratings, stalled, lastTracked := RunAndEnd(tasks, session);
    }

    /** App.Run after the plan is saved: the task loop, then the files. */
    method RunAndEnd(tasks: seq<TaskSetup.TaskCondition>, session: Session)
      returns (begun: nat, ratings: seq<Option<int>>, stalled: bool, ghost lastTracked: bool)
      requires Valid() && !hasInterrupted
      modifies this`hasGazeTracker, this`sent, this`infos, this`headsetHand, this`topviewHand,
        this`nbackTaskMessage, this`hasFinished, this`console, this`hasInterrupted, this`startTime,
        this`gazeSampleCount, this`headsetTotal, this`headsetValid, this`topviewTotal, this`topviewValid,
        this`streamerPackets, this`lambdas, this`nbackTaskDescriptions, this`temporaryLogs, this`savedLogs,
        this`collected, this`fileOutcomes, logger
      ensures Valid()
      ensures begun <= |tasks| && |savedLogs| <= |old(savedLogs)| + begun
      ensures participantId == old(participantId) && connected == old(connected)
      ensures !stalled && !hasInterrupted ==> begun == |tasks|
      ensures !stalled ==> SessionEnded(session, participantId, pace, hasInterrupted, old(collected), collected, fileOutcomes)
      ensures stalled ==> collected == old(collected) && fileOutcomes == old(fileOutcomes)
      ensures |ratings| == begun
      ensures !stalled && !hasInterrupted ==> AllRated(ratings)
      ensures hasInterrupted ==> begun >= 1 && AllRated(ratings[..begun - 1]) && ratings[begun - 1].None?
      ensures !stalled ==> sent == old(sent) + SessionTrace(tasks, begun, connected, hasInterrupted, lastTracked)
    {
      begun, ratings, stalled, lastTracked := RunTasks(tasks, session);
      if !stalled {
        EndSession(session);
      }
    }

    /** The start of App.Run: the task list is built and its manifest saved. */
    method PlanSession(session: Session) returns (tasks: seq<TaskSetup.TaskCondition>)
      modifies this`manifest
      ensures Planned(session, tasks, manifest)
    {
      tasks := TaskSetup.GetAllTasks(session.setup, session.draws);
      manifest := TaskSetup.SaveTo(logFolder, session.manifestFolderExists, tasks, session.manifestWriteOk);
    }

    /** The end of App.Run: the files are collected after a complete session and the
        temporary files deleted after an interrupted one. */
    method EndSession(session: Session)
      modifies this`collected, this`fileOutcomes
      ensures SessionEnded(session, participantId, pace, hasInterrupted, old(collected), collected, fileOutcomes)
    {
      if !hasInterrupted {
        collected, fileOutcomes := LogFiles.Collect(session.destination, participantId, pace, session.sources, session.failing);
      } else {
        fileOutcomes := LogFiles.ClearTemporaryFiles(session.sources, session.failing);
      }
    }

    /** The state of Run's loop after `begun` tasks: each has its rating, every task but
        the last was rated, only the last can have been interrupted, and what was sent
        since `sent0` is each task's trace in turn. */
    ghost predicate Progress(tasks: seq<TaskSetup.TaskCondition>, begun: nat, ratings: seq<Option<int>>,
                             sent0: seq<Command>, lastTracked: bool)
      reads this`sent, this`hasInterrupted, this`connected
    {
      begun <= |tasks| && |ratings| == begun
      && (if hasInterrupted then begun >= 1 && AllRated(ratings[..begun - 1]) && ratings[begun - 1].None?
          else AllRated(ratings))
      && sent == sent0 + SessionTrace(tasks, begun, connected, hasInterrupted, lastTracked)
    }

    /** One pass of Run's loop, after uninterrupted ones. */
    method RunStep(tasks: seq<TaskSetup.TaskCondition>, begun: nat, ratings: seq<Option<int>>, session: Session,
                   ghost sent0: seq<Command>, ghost lastTracked: bool)
      returns (rating: Option<int>, stalled: bool, ghost tracked: bool)
      requires Valid() && !hasInterrupted && begun < |tasks| && AllRated(ratings)
      requires Progress(tasks, begun, ratings, sent0, lastTracked)
      modifies this`hasGazeTracker, this`sent, this`infos, this`headsetHand, this`topviewHand,
        this`nbackTaskMessage, this`hasFinished, this`console, this`hasInterrupted, this`startTime,
        this`gazeSampleCount, this`headsetTotal, this`headsetValid, this`topviewTotal, this`topviewValid,
        this`streamerPackets, this`lambdas, this`nbackTaskDescriptions, this`temporaryLogs, this`savedLogs, logger
      ensures Valid() && |savedLogs| <= |old(savedLogs)| + 1
      ensures rating.Some? ==> 1 <= rating.value <= 7
      ensures stalled ==> !hasInterrupted
      ensures !stalled ==> Progress(tasks, begun + 1, ratings + [rating], sent0, tracked)
    {
      ghost var trace := SessionTrace(tasks, begun, connected, false, lastTracked);
      tracked, rating, stalled := RunTask(begun, tasks, session.environment(begun));
      if !stalled {
        SessionTraceStep(tasks, begun, connected, tracked, hasInterrupted, lastTracked);
        TraceAppend(sent0, trace, TaskTrace(tasks[begun], connected, tracked, hasInterrupted));
        assert (ratings + [rating])[..begun] == ratings;
      }
    }

    /** The loop of App.Run: each task in turn, until one is interrupted. `ratings` holds
        each begun task's rating: every task but the last was rated, and only the last
        can have been interrupted. What was sent is each task's trace in turn; the ghost
        `lastTracked` says whether the last task got past ENTER. */
    method RunTasks(tasks: seq<TaskSetup.TaskCondition>, session: Session)
      returns (begun: nat, ratings: seq<Option<int>>, stalled: bool, ghost lastTracked: bool)
      requires Valid() && !hasInterrupted
      modifies this`hasGazeTracker, this`sent, this`infos, this`headsetHand, this`topviewHand,
        this`nbackTaskMessage, this`hasFinished, this`console, this`hasInterrupted, this`startTime,
        this`gazeSampleCount, this`headsetTotal, this`headsetValid, this`topviewTotal, this`topviewValid,
        this`streamerPackets, this`lambdas, this`nbackTaskDescriptions, this`temporaryLogs, this`savedLogs, logger
      ensures Valid()
      ensures |ratings| == begun <= |tasks| && |savedLogs| <= |old(savedLogs)| + begun
      ensures !stalled && !hasInterrupted ==> begun == |tasks| && AllRated(ratings)
      ensures hasInterrupted ==> !stalled && begun >= 1 && AllRated(ratings[..begun - 1]) && ratings[begun - 1].None?
      ensures stalled ==> (begun >= 1 && AllRated(ratings[..begun - 1])
        && (ratings[begun - 1].Some? ==> 1 <= ratings[begun - 1].value <= 7))
      ensures !stalled ==> sent == old(sent) + SessionTrace(tasks, begun, connected, hasInterrupted, lastTracked)
    {
      begun, ratings, lastTracked := 0, [], false;
      while begun < |tasks| && !hasInterrupted
        invariant Valid() && |savedLogs| <= |old(savedLogs)| + begun
        invariant Progress(tasks, begun, ratings, old(sent), lastTracked)
      {
        assert AllRated(ratings);
        var rating, taskStalled, tracked := RunStep(tasks, begun, ratings, session, old(sent), lastTracked);
        ratings := ratings + [rating];
        begun := begun + 1;
        if taskStalled {
          assert ratings[..begun - 1] == ratings[..|ratings| - 1];
          return begun, ratings, true, tracked;
        }
        lastTracked := tracked;
      }
      stalled := false;
    }
  }

  /** Two gaze samples in a row: the pending message goes into the first record only. */
  method MessageTakenOnce(r: Recorder, first: EyeHead, firstTicks: int, second: EyeHead, secondTicks: int)
    requires r.Valid()
    modifies r, r.logger
    ensures r.Valid()
    ensures |r.logger.records| == |old(r.logger.records)| + 2
    ensures r.logger.records[|r.logger.records| - 2]
      == Logging.Record(firstTicks, GazeItems(first, r.headsetHand, r.topviewHand, old(r.nbackTaskMessage), r.formatF4, r.formatF2))
    ensures r.logger.records[|r.logger.records| - 1]
      == Logging.Record(secondTicks, GazeItems(second, r.headsetHand, r.topviewHand, "", r.formatF4, r.formatF2))
  {
    r.GazeData(first, firstTicks);
    r.GazeData(second, secondTicks);
  }
}
