/** The task plan of a session (TaskSetup.cs): which conditions are run, in
    which order, and the tab-separated manifest written before tracking. */
module TaskSetup {
  import opened Strings

  /** One trial: an index into the CTT lambda catalogue and one into the N-back task catalogue. */
  datatype TaskCondition = TaskCondition(cttLambdaIndex: int, nBackTaskIndex: int) {
    predicate IsValid() {
      cttLambdaIndex >= 0 && nBackTaskIndex >= 0
    }
  }

  datatype Setup = Setup(randomized: bool, repetitions: int, cttLambdaIndexes: seq<int>, nBackTaskIndexes: seq<int>)

  /** `new TaskSetup()`: one repetition of the single pair (-1, -1), not randomized. */
  const DefaultSetup := Setup(false, 1, [-1], [-1])

  // ---- the plan GetAllTasks builds ----

  /** One lambda index paired with each n-back index, in order (the innermost loop). */
  function Row(lambdaIndex: int, nbacks: seq<int>): (r: seq<TaskCondition>)
    ensures |r| == |nbacks|
    ensures forall j :: 0 <= j < |r| ==> r[j] == TaskCondition(lambdaIndex, nbacks[j])
  {
    if nbacks == [] then []
    else Row(lambdaIndex, nbacks[..|nbacks| - 1]) + [TaskCondition(lambdaIndex, nbacks[|nbacks| - 1])]
  }

  /** One repetition: a Row for each lambda index, in order. */
  function Round(lambdas: seq<int>, nbacks: seq<int>): seq<TaskCondition> {
    if lambdas == [] then []
    else Round(lambdas[..|lambdas| - 1], nbacks) + Row(lambdas[|lambdas| - 1], nbacks)
  }

  /** `count` copies of `round`, none when count <= 0. */
  function Repeat(count: int, round: seq<TaskCondition>): seq<TaskCondition> {
    if count <= 0 then [] else Repeat(count - 1, round) + round
  }

  /** The unshuffled plan: the Round repeated `reps` times. */
  function Plan(reps: int, lambdas: seq<int>, nbacks: seq<int>): seq<TaskCondition> {
    Repeat(reps, Round(lambdas, nbacks))
  }

  lemma MulStep(a: nat, n: nat)
    ensures (a + 1) * n == a * n + n
  {
  }

  lemma MulMonotone(a: nat, b: nat, n: nat)
    requires a <= b
    ensures a * n <= b * n
  {
  }

  lemma {:induction false} RoundLength(lambdas: seq<int>, nbacks: seq<int>)
    ensures |Round(lambdas, nbacks)| == |lambdas| * |nbacks|
  {
    if lambdas != [] {
      var front := lambdas[..|lambdas| - 1];
      RoundLength(front, nbacks);
      MulStep(|front|, |nbacks|);
    }
  }

  lemma {:induction false} RepeatLength(count: int, round: seq<TaskCondition>)
    ensures |Repeat(count, round)| == (if count <= 0 then 0 else count * |round|)
  {
    if count > 0 {
      RepeatLength(count - 1, round);
      MulStep(count - 1, |round|);
    }
  }

  /** The plan holds reps * |lambdas| * |nbacks| conditions, none when reps <= 0. */
  lemma PlanLength(reps: int, lambdas: seq<int>, nbacks: seq<int>)
    ensures |Plan(reps, lambdas, nbacks)| == (if reps <= 0 then 0 else reps * (|lambdas| * |nbacks|))
  {
    RoundLength(lambdas, nbacks);
    RepeatLength(reps, Round(lambdas, nbacks));
  }

  lemma {:induction false} RoundAt(lambdas: seq<int>, nbacks: seq<int>, i: nat, j: nat)
    requires i < |lambdas| && j < |nbacks|
    ensures i * |nbacks| + j < |Round(lambdas, nbacks)|
    ensures Round(lambdas, nbacks)[i * |nbacks| + j] == TaskCondition(lambdas[i], nbacks[j])
  {
    var last := |lambdas| - 1;
    var front := lambdas[..last];
    RoundLength(lambdas, nbacks);
    RoundLength(front, nbacks);
    MulMonotone(i + 1, |lambdas|, |nbacks|);
    if i < last {
      RoundAt(front, nbacks, i, j);
      MulMonotone(i + 1, last, |nbacks|);
      assert i * |nbacks| + j < last * |nbacks|;
    } else {
      assert |Round(front, nbacks)| == i * |nbacks|;
    }
  }

  /** Copy r of a repetition holds the round at offset r * |round|. */
  lemma {:induction false} RepeatAt(count: int, round: seq<TaskCondition>, r: nat, offset: nat)
    requires r < count && offset < |round|
    ensures r * |round| + offset < |Repeat(count, round)|
    ensures Repeat(count, round)[r * |round| + offset] == round[offset]
  {
    RepeatLength(count - 1, round);
    RepeatLength(count, round);
    if r < count - 1 {
      RepeatAt(count - 1, round, r, offset);
    } else {
      assert r * |round| == |Repeat(count - 1, round)|;
    }
  }

  /** Ordering is repetition-major, then lambda, then n-back: condition (i, j) of
      repetition r sits at r * |lambdas| * |nbacks| + i * |nbacks| + j. */
  lemma PlanAt(reps: int, lambdas: seq<int>, nbacks: seq<int>, r: nat, i: nat, j: nat)
    requires r < reps && i < |lambdas| && j < |nbacks|
    ensures r * (|lambdas| * |nbacks|) + i * |nbacks| + j < |Plan(reps, lambdas, nbacks)|
    ensures Plan(reps, lambdas, nbacks)[r * (|lambdas| * |nbacks|) + i * |nbacks| + j]
            == TaskCondition(lambdas[i], nbacks[j])
  {
    RoundAt(lambdas, nbacks, i, j);
    RoundLength(lambdas, nbacks);
    RepeatAt(reps, Round(lambdas, nbacks), r, i * |nbacks| + j);
  }

  /** The default setup plans exactly one condition, (-1, -1), and it is not valid. */
  lemma DefaultPlan()
    ensures Plan(DefaultSetup.repetitions, DefaultSetup.cttLambdaIndexes, DefaultSetup.nBackTaskIndexes)
            == [TaskCondition(-1, -1)]
    ensures !TaskCondition(-1, -1).IsValid()
  {
    assert Round([-1], [-1]) == Row(-1, [-1]);
    assert Repeat(1, [TaskCondition(-1, -1)]) == Repeat(0, [TaskCondition(-1, -1)]) + [TaskCondition(-1, -1)];
  }

  lemma RowStep(lambdaIndex: int, nbacks: seq<int>, b: nat)
    requires b < |nbacks|
    ensures Row(lambdaIndex, nbacks[..b + 1]) == Row(lambdaIndex, nbacks[..b]) + [TaskCondition(lambdaIndex, nbacks[b])]
  {
    assert nbacks[..b + 1][..b] == nbacks[..b];
  }

  lemma RoundStep(lambdas: seq<int>, nbacks: seq<int>, a: nat)
    requires a < |lambdas|
    ensures Round(lambdas[..a + 1], nbacks) == Round(lambdas[..a], nbacks) + Row(lambdas[a], nbacks)
  {
    assert lambdas[..a + 1][..a] == lambdas[..a];
  }

  /** TaskSetup.GetAllTasks: the nested loops build the plan; when the setup is
      randomized the list is then shuffled in place. */
  method GetAllTasks(setup: Setup, draws: seq<nat>) returns (tasks: seq<TaskCondition>)
    ensures !setup.randomized ==>
      tasks == Plan(setup.repetitions, setup.cttLambdaIndexes, setup.nBackTaskIndexes)
    ensures multiset(tasks) == multiset(Plan(setup.repetitions, setup.cttLambdaIndexes, setup.nBackTaskIndexes))
  {
    tasks := Repetitions(setup.repetitions, setup.cttLambdaIndexes, setup.nBackTaskIndexes);
    if setup.randomized {
      tasks := Shuffled(tasks, draws);
    }
  }

  /** The outer loop of GetAllTasks: one Round per repetition. */
  method Repetitions(reps: int, lambdas: seq<int>, nbacks: seq<int>) returns (result: seq<TaskCondition>)
    ensures result == Plan(reps, lambdas, nbacks)
  {
    ghost var round := Round(lambdas, nbacks);
    result := [];
    var i: nat := 0;
    while i < reps
      invariant i == 0 || i <= reps
      invariant result == Repeat(i, round)
    {
      result := AddRound(result, lambdas, nbacks);
      i := i + 1;
    }
  }

  /** The loop over the lambda indexes in GetAllTasks: one Row per lambda index. */
  method AddRound(result: seq<TaskCondition>, lambdas: seq<int>, nbacks: seq<int>) returns (r: seq<TaskCondition>)
    ensures r == result + Round(lambdas, nbacks)
  {
    r := result;
    var a := 0;
    while a < |lambdas|
      invariant 0 <= a <= |lambdas|
      invariant r == result + Round(lambdas[..a], nbacks)
    {
      r := AddRow(r, lambdas[a], nbacks);
      RoundStep(lambdas, nbacks, a);
      a := a + 1;
    }
    assert lambdas[..a] == lambdas;
  }

  /** The innermost loop of GetAllTasks: one condition per n-back index. */
  method AddRow(result: seq<TaskCondition>, lambdaIndex: int, nbacks: seq<int>) returns (r: seq<TaskCondition>)
    ensures r == result + Row(lambdaIndex, nbacks)
  {
    r := result;
    var b := 0;
    while b < |nbacks|
      invariant 0 <= b <= |nbacks|
      invariant r == result + Row(lambdaIndex, nbacks[..b])
    {
      RowStep(lambdaIndex, nbacks, b);
      r := r + [TaskCondition(lambdaIndex, nbacks[b])];
      b := b + 1;
    }
    assert nbacks[..b] == nbacks;
  }

  /** `rnd.Shuffle(result)` on the list: the list is shuffled in place. */
  method Shuffled(list: seq<TaskCondition>, draws: seq<nat>) returns (r: seq<TaskCondition>)
    ensures multiset(r) == multiset(list)
  {
    var items := new TaskCondition[|list|](k requires 0 <= k < |list| => list[k]);
    assert items[..] == list;
    Shuffle(items, draws);
    r := items[..];
  }

  /** A Fisher-Yates pass: position i is swapped with a position j, i <= j < n,
      chosen by draws[i]. */
  method Shuffle(items: array<TaskCondition>, draws: seq<nat>)
    modifies items
    ensures multiset(items[..]) == multiset(old(items[..]))
  {
    var n := items.Length;
    var i := 0;
    while i < n - 1
      invariant 0 <= i <= n
      invariant multiset(items[..]) == multiset(old(items[..]))
    {
      var j := i + (if i < |draws| then draws[i] % (n - i) else 0);
      if j != i {
        items[i], items[j] := items[j], items[i];
      }
      i := i + 1;
    }
  }

  // ---- TaskSetup.Load ----

  /** What reading and deserialising the setup file gave: the file is missing, reading or
      JSON decoding threw, or it decoded to a (possibly null) array of setups. */
  datatype SetupFile = Missing | Unreadable | Decoded(sets: Option<seq<Setup>>)

  /** TaskSetup.Load: the setup at `index` in the file, or the default setup. */
  function Load(filename: string, file: SetupFile, index: int): (s: Setup)
    ensures (filename == "" || !file.Decoded?) ==> s == DefaultSetup
    ensures s != DefaultSetup ==>
      file.Decoded? && file.sets.Some? && 0 <= index < |file.sets.value| && s == file.sets.value[index]
    ensures filename != "" && file.Decoded? && file.sets.Some? && 0 <= index < |file.sets.value| ==>
      s == file.sets.value[index]
  {
    if filename == "" || !file.Decoded? then DefaultSetup
    else
      // a null array decodes as [new TaskSetup()]; an index out of range throws and is caught
      var sets := if file.sets.Some? then file.sets.value else [DefaultSetup];
      if 0 <= index < |sets| then sets[index] else DefaultSetup
  }

  // ---- TaskSetup.SaveTo ----

  /** The column names of the manifest. */
  const Columns := ["CTT", "NBackTask", "Lambda", "Digits", "Layout"]

  /** The header line. */
  const Header := "CTT\tNBackTask\tLambda\tDigits\tLayout"

  /** StringBuilder.AppendLine ends lines with Environment.NewLine, "\r\n" on Windows. */
  const NewLine := "\r\n"

  /** The lambda value of each CTT lambda index. */
  const CttLambdas: map<int, real> := map[
    0 := 0.5, 1 := 1.0, 2 := 1.5, 3 := 2.0, 4 := 2.5,
    5 := 3.0, 6 := 3.5, 7 := 4.0, 8 := 4.5, 9 := 5.0]

  /** The (digits, layout) pair of each N-back task index. */
  const NBackTasks: map<int, (int, int)> := map[
    0 := (2, 1), 1 := (4, 1), 2 := (8, 1), 3 := (4, 2), 4 := (8, 2)]

  /** Double.ToString() for a value with at most one decimal place, as every value
      written to the manifest is: "0.5", "1", "-1". */
  function DecimalText(x: real): string {
    var tenths := (x * 10.0).Floor;
    var whole: nat := if tenths < 0 then -tenths else tenths;
    (if tenths < 0 then "-" else "") + Digits(whole / 10)
      + (if whole % 10 == 0 then "" else "." + [DigitChar(whole % 10)])
  }

  /** The lambda written for a CTT lambda index: its table value, or -1 when unknown. */
  function LambdaOf(index: int): real {
    if index in CttLambdas then CttLambdas[index] else -1.0
  }

  /** The (digits, layout) written for an N-back task index, or (-1, -1) when unknown. */
  function NBackTaskOf(index: int): (int, int) {
    if index in NBackTasks then NBackTasks[index] else (-1, -1)
  }

  /** The five fields of one manifest row. */
  function ManifestFields(task: TaskCondition): (r: seq<string>)
    ensures |r| == 5
  {
    var pair := NBackTaskOf(task.nBackTaskIndex);
    [IntText(task.cttLambdaIndex), IntText(task.nBackTaskIndex), DecimalText(LambdaOf(task.cttLambdaIndex)),
     IntText(pair.0), IntText(pair.1)]
  }

  function ManifestLine(task: TaskCondition): string {
    Join(ManifestFields(task), "\t")
  }

  /** The rows of the manifest, each ended by NewLine. */
  function RowsText(tasks: seq<TaskCondition>): string {
    if tasks == [] then ""
    else RowsText(tasks[..|tasks| - 1]) + ManifestLine(tasks[|tasks| - 1]) + NewLine
  }

  /** The whole manifest: the header line, then one row per task in order. */
  function ManifestText(tasks: seq<TaskCondition>): string {
    Header + NewLine + RowsText(tasks)
  }

  /** TaskSetup.SaveTo: nothing is written when the folder is empty or does not exist,
      or when the write throws; otherwise the manifest of `tasks`. */
  method SaveTo(folder: string, folderExists: bool, tasks: seq<TaskCondition>, writeOk: bool) returns (written: Option<string>)
    ensures written.Some? <==> folder != "" && folderExists && writeOk
    ensures written.Some? ==> written.value == ManifestText(tasks)
  {
    if folder == "" || !folderExists {
      return None;
    }
    var head := Header + NewLine;
    var sb := head;
    for k := 0 to |tasks|
      invariant sb == head + RowsText(tasks[..k])
    {
      var line := ManifestLine(tasks[k]) + NewLine;
      RowsStep(tasks, k);
      Associative(head, RowsText(tasks[..k]), line);
      sb := sb + line;
    }
    assert tasks[..|tasks|] == tasks;
    written := if writeOk then Some(sb) else None;
  }

  lemma Associative(a: string, b: string, c: string)
    ensures a + (b + c) == (a + b) + c
  {
  }

  lemma RowsStep(tasks: seq<TaskCondition>, k: nat)
    requires k < |tasks|
    ensures RowsText(tasks[..k + 1]) == RowsText(tasks[..k]) + (ManifestLine(tasks[k]) + NewLine)
  {
    assert tasks[..k + 1][..k] == tasks[..k];
  }

  lemma DecimalTextFree(x: real, c: char)
    requires c != '-' && c != '.' && !IsDigit(c)
    ensures Free(DecimalText(x), c)
  {
    var tenths := (x * 10.0).Floor;
    var whole: nat := if tenths < 0 then -tenths else tenths;
    var d := Digits(whole / 10);
    forall k | 0 <= k < |d| ensures d[k] != c {
      assert IsDigit(d[k]);
    }
  }

  lemma FieldsFree(task: TaskCondition, c: char)
    requires c != '-' && c != '.' && !IsDigit(c)
    ensures forall k :: 0 <= k < 5 ==> Free(ManifestFields(task)[k], c)
  {
    var f := ManifestFields(task);
    IntTextHasNoSeparator(task.cttLambdaIndex, c);
    IntTextHasNoSeparator(task.nBackTaskIndex, c);
    DecimalTextFree(LambdaOf(task.cttLambdaIndex), c);
    var pair := NBackTaskOf(task.nBackTaskIndex);
    IntTextHasNoSeparator(pair.0, c);
    IntTextHasNoSeparator(pair.1, c);
  }

  /** Each manifest row splits at its tabs into exactly its five fields. */
  lemma ManifestLineFields(task: TaskCondition)
    ensures Split(ManifestLine(task), '\t') == ManifestFields(task)
  {
    FieldsFree(task, '\t');
    SplitJoin(ManifestFields(task), '\t');
  }

  /** An index outside the lookup tables is written as -1 for the lambda and as -1, -1
      for the digits and the layout. */
  lemma UnknownIndexes(task: TaskCondition)
    ensures task.cttLambdaIndex !in CttLambdas ==> ManifestFields(task)[2] == "-1"
    ensures task.nBackTaskIndex !in NBackTasks ==> ManifestFields(task)[3] == "-1" && ManifestFields(task)[4] == "-1"
  {
    assert (-1.0 * 10.0).Floor == -10;
    assert Digits(1) == "1";
  }

  lemma ColumnsFree(c: char)
    requires c == '\t' || c == '\n'
    ensures forall k :: 0 <= k < |Columns| ==> Free(Columns[k], c)
  {
  }

  /** The header splits into the five column names, as each row splits into its five fields. */
  lemma HeaderFields()
    ensures Split(Header, '\t') == Columns
  {
    assert Header == Join(Columns, "\t");
    ColumnsFree('\t');
    SplitJoin(Columns, '\t');
  }

  lemma HeaderFree()
    ensures Free(Header, '\n')
  {
  }

  /** A line without a line break, ended by NewLine, adds one line to what follows. */
  lemma CountLine(line: string, rest: string)
    requires Free(line, '\n')
    ensures Count(line + NewLine + rest, '\n') == Count(rest, '\n') + 1
  {
    CountFree(line, '\n');
    assert Count(NewLine, '\n') == 1;
    CountAppend(NewLine, rest, '\n');
    CountAppend(line, NewLine + rest, '\n');
    assert line + NewLine + rest == line + (NewLine + rest);
  }

  /** The manifest holds one line for the header and one per task. */
  lemma ManifestLineCount(tasks: seq<TaskCondition>)
    ensures Count(ManifestText(tasks), '\n') == |tasks| + 1
  {
    RowsLineCount(tasks);
    HeaderFree();
    CountLine(Header, RowsText(tasks));
  }

  lemma {:induction false} RowsLineCount(tasks: seq<TaskCondition>)
    ensures Count(RowsText(tasks), '\n') == |tasks|
  {
    if tasks != [] {
      var front, last := tasks[..|tasks| - 1], tasks[|tasks| - 1];
      RowsLineCount(front);
      FieldsFree(last, '\n');
      JoinFree(ManifestFields(last), "\t", '\n');
      CountFree(ManifestLine(last), '\n');
      CountAppend(RowsText(front), ManifestLine(last), '\n');
      CountAppend(RowsText(front) + ManifestLine(last), NewLine, '\n');
    }
  }
}
