/** The participant data folders (LogFileManager.cs): how a participant's folder is
    named, how the last participant id is recovered from the folder names, and which
    files Collect moves and ClearTemporaryFiles deletes. The file system is an input:
    the directory listing, the files each mask matches, and which moves or deletes fail. */
module LogFiles {
  import opened Strings

  // ---- paths ----

  /** Path.Combine for a relative second part: one directory separator between the parts. */
  function Combine(a: string, b: string): string {
    if a == "" then b
    else if a[|a| - 1] == '\\' || a[|a| - 1] == '/' then a + b
    else a + "\\" + b
  }

  predicate IsDirectorySeparator(c: char) {
    c == '\\' || c == '/'
  }

  /** The path starts with a drive letter and its volume separator, as in "C:". */
  predicate HasDrive(path: string) {
    |path| >= 2 && path[1] == ':' && (('A' <= path[0] <= 'Z') || ('a' <= path[0] <= 'z'))
  }

  /** Path.GetFileName: the part after the last directory separator, never reaching
      into the drive: "C:x" names "x". */
  function FileName(path: string): string {
    AfterSeparator(if HasDrive(path) then path[2..] else path)
  }

  /** The part after the last directory separator. */
  function AfterSeparator(path: string): string {
    if path == [] || IsDirectorySeparator(path[|path| - 1]) then ""
    else AfterSeparator(path[..|path| - 1]) + [path[|path| - 1]]
  }

  lemma {:induction false} AfterSeparatorSuffix(path: string)
    ensures var r := AfterSeparator(path);
      |r| <= |path| && r == path[|path| - |r|..]
      && (forall k :: 0 <= k < |r| ==> !IsDirectorySeparator(r[k]))
      && (|r| < |path| ==> IsDirectorySeparator(path[|path| - |r| - 1]))
  {
    if path != [] && !IsDirectorySeparator(path[|path| - 1]) {
      var front := path[..|path| - 1];
      AfterSeparatorSuffix(front);
      var r := AfterSeparator(path);
      var f := AfterSeparator(front);
      assert r == f + [path[|path| - 1]];
      assert f == front[|front| - |f|..];
      assert r == path[|path| - |r|..];
      if |r| < |path| {
        assert path[|path| - |r| - 1] == front[|front| - |f| - 1];
      }
    }
  }

  /** The file name is the end of the path and holds no directory separator. It is the
      longest such end that does not reach into the drive: what comes before it is a
      directory separator or the drive's volume separator. */
  lemma FileNameSuffix(path: string)
    ensures var r := FileName(path);
      |r| <= |path| && r == path[|path| - |r|..]
      && (forall k :: 0 <= k < |r| ==> !IsDirectorySeparator(r[k]))
      && (|r| < |path| ==> IsDirectorySeparator(path[|path| - |r| - 1]) || (|path| - |r| == 2 && HasDrive(path)))
  {
    var tail := if HasDrive(path) then path[2..] else path;
    AfterSeparatorSuffix(tail);
    var r := AfterSeparator(tail);
    assert tail[|tail| - |r|..] == path[|path| - |r|..];
    if HasDrive(path) && |r| < |tail| {
      assert tail[|tail| - |r| - 1] == path[|path| - |r| - 1];
    }
  }

  // ---- participant folders ----

  /** The digits of n, padded with a leading zero to at least two. */
  function Padded(n: nat): (r: string)
    ensures |r| >= 2
    ensures forall k :: 0 <= k < |r| ==> IsDigit(r[k])
  {
    var d := Digits(n);
    if |d| < 2 then "0" + d else d
  }

  /** The custom format `00`: at least two digits, after a '-' for a negative id. */
  function IdText(id: int): string {
    if id < 0 then "-" + Padded(-id) else Padded(id)
  }

  /** The name of a participant's folder, "P" and the id formatted as `00`. */
  function FolderName(id: int): (r: string)
    ensures |r| >= 3 && r[0] == 'P'
    ensures 0 <= id < 10 ==> r == ['P', '0', DigitChar(id)]
  {
    "P" + IdText(id)
  }

  /** LogFileManager.GetParticipantFolder, inside the destination folder. */
  function ParticipantFolder(destination: string, id: int): string {
    Combine(destination, FolderName(id))
  }

  lemma {:induction false} DigitsShort(n: nat)
    ensures |Digits(n)| < 2 <==> n < 10
  {
    if n >= 10 {
      assert |Digits(n / 10)| >= 1;
    }
  }

  /** The padded digits read back as their value. */
  lemma PaddedValue(n: nat)
    ensures ParseUnsigned(Padded(n)) == Some(n)
  {
    var d := Digits(n);
    DigitsValueOfDigits(n);
    DigitsShort(n);
    if |d| < 2 {
      var p := "0" + d;
      assert p[..|p| - 1] == "0" && p[|p| - 1] == d[0];
      assert DigitsValue("0") == 0 by {
        assert "0"[..0] == "";
      }
      assert d[..0] == "";
      assert DigitsValue(p) == DigitsValue(d);
    }
  }

  /** A folder name gives back its id when the part after "P" is parsed as an integer,
      for every 32-bit id. */
  lemma FolderNameRoundTrip(id: int)
    requires Int32Min <= id <= Int32Max
    ensures StartsWith(FolderName(id), "P")
    ensures ParseInt(FolderName(id)[1..]) == Some(id)
  {
    var name := FolderName(id);
    var t := IdText(id);
    assert name[1..] == t;
    var m: nat := if id < 0 then -id else id;
    var p := Padded(m);
    PaddedValue(m);
    if id < 0 {
      assert t == "-" + p && t[1..] == p;
      assert t[|t| - 1] == p[|p| - 1];
      assert ParseSigned(t) == Some(id);
    } else {
      assert t == p;
      assert ParseSigned(t) == Some(id);
    }
    TrimNothing(t);
  }

  // ---- the last participant id ----

  /** The directory names the mask "P??" lists: a 'P' in either case (Windows matches
      names without regard to case) and at most two more characters (a `?` at the end of
      a Windows pattern also matches no character). */
  predicate MatchesMask(name: string) {
    1 <= |name| <= 3 && (name[0] == 'P' || name[0] == 'p')
  }

  /** The filter and projection of LastParticipantId: a directory name counts when the
      mask lists it, it starts with "P" and the rest parses as an integer. */
  function IdOf(name: string): Option<int> {
    if MatchesMask(name) && StartsWith(name, "P") then ParseInt(name[1..]) else None
  }

  /** The ids of the names that count, in listing order. */
  function ParsedIds(names: seq<string>): (ids: seq<int>)
    ensures |ids| <= |names|
    ensures forall x :: x in ids <==> exists k :: 0 <= k < |names| && IdOf(names[k]) == Some(x)
  {
    FilterMapMembers(names, IdOf);
    FilterMap(names, IdOf)
  }

  /** Enumerable.Max over a non-empty list. */
  function Max(xs: seq<int>): (m: int)
    requires xs != []
    ensures m in xs
    ensures forall k :: 0 <= k < |xs| ==> xs[k] <= m
  {
    if |xs| == 1 then xs[0]
    else
      var m := Max(xs[1..]);
      assert forall k :: 1 <= k < |xs| ==> xs[k] == xs[1..][k - 1];
      if xs[0] >= m then xs[0] else m
  }

  /** LogFileManager.LastParticipantId over the names of the directories in the
      destination folder: the largest id among the names that count, or 0 when none does. */
  function LastParticipantId(names: seq<string>): (r: int)
    ensures (forall k :: 0 <= k < |names| ==> IdOf(names[k]).None?) ==> r == 0
    ensures forall k :: 0 <= k < |names| && IdOf(names[k]).Some? ==> IdOf(names[k]).value <= r
    ensures (exists k :: 0 <= k < |names| && IdOf(names[k]).Some?) ==>
      exists k :: 0 <= k < |names| && IdOf(names[k]) == Some(r)
  {
    var ids := ParsedIds(names);
    assert forall k :: 0 <= k < |names| && IdOf(names[k]).Some? ==> IdOf(names[k]).value in ids;
    if ids == [] then 0 else Max(ids)
  }

  /** A participant's folder name has the three characters the mask lists exactly for
      the ids 0 to 99; every other id gets a longer name. */
  lemma {:induction false} FolderNameLength(id: int)
    ensures |FolderName(id)| == 3 <==> 0 <= id <= 99
  {
    if id < 0 {
      assert |IdText(id)| == 1 + |Padded(-id)|;
    } else if id >= 100 {
      DigitsShort(id / 10);
      assert Digits(id) == Digits(id / 10) + [DigitChar(id % 10)];
    } else if id >= 10 {
      DigitsShort(id / 10);
      assert Digits(id) == Digits(id / 10) + [DigitChar(id % 10)];
    }
  }

  /** The folder of a 32-bit id counts for LastParticipantId exactly when the id is
      from 0 to 99, and then it gives that id back. */
  lemma FolderIdCounted(id: int)
    requires Int32Min <= id <= Int32Max
    ensures IdOf(FolderName(id)).Some? <==> 0 <= id <= 99
    ensures 0 <= id <= 99 ==> IdOf(FolderName(id)) == Some(id)
  {
    FolderNameLength(id);
    FolderNameRoundTrip(id);
  }

  /** Once the folder of a participant with an id from 0 to 99 exists, the last
      participant id is at least that id. */
  lemma NewFolderCounts(names: seq<string>, id: int)
    requires 0 <= id <= 99
    ensures LastParticipantId(names + [FolderName(id)]) >= id
  {
    var all := names + [FolderName(id)];
    FolderIdCounted(id);
    assert IdOf(all[|names|]) == Some(id);
  }

  /** The folder of any other id is not listed by the mask, and the last participant
      id stays what it was. */
  lemma FolderBeyondMaskIgnored(names: seq<string>, id: int)
    requires Int32Min <= id <= Int32Max && !(0 <= id <= 99)
    ensures LastParticipantId(names + [FolderName(id)]) == LastParticipantId(names)
  {
    var all := names + [FolderName(id)];
    FolderIdCounted(id);
    assert IdOf(all[|names|]).None?;
    assert forall k :: 0 <= k < |names| ==> all[k] == names[k];
  }

  // ---- collected data ----

  /** The folder Collect fills for a participant and a pace: the pace name in lower case. */
  function PaceFolder(destination: string, id: int, paceName: string): string {
    Combine(ParticipantFolder(destination, id), ToLower(paceName))
  }

  /** LogFileManager.IsParticipantDataFull, for the names of the Pace values and the
      directories that exist. */
  predicate IsParticipantDataFull(destination: string, id: int, paceNames: seq<string>, directories: set<string>) {
    forall k :: 0 <= k < |paceNames| ==> PaceFolder(destination, id, paceNames[k]) in directories
  }

  /** The pace folder Collect creates, if it runs for this participant and pace. */
  function CreatedFolder(destination: string, id: int, pace: Option<string>): Option<string> {
    if id <= 0 || pace.None? then None else Some(PaceFolder(destination, id, pace.value))
  }

  /** The folders Collect creates for a participant over sessions with the given paces. */
  function CreatedFolders(destination: string, id: int, paces: seq<Option<string>>): set<string> {
    set j | 0 <= j < |paces| && CreatedFolder(destination, id, paces[j]).Some? :: CreatedFolder(destination, id, paces[j]).value
  }

  /** Path.Combine with the same first part gives the same path only for the same second part. */
  lemma CombineInjective(a: string, x: string, y: string)
    requires a != "" && Combine(a, x) == Combine(a, y)
    ensures x == y
  {
    var front := if a[|a| - 1] == '\\' || a[|a| - 1] == '/' then a else a + "\\";
    assert Combine(a, x) == front + x && Combine(a, y) == front + y;
    assert x == (front + x)[|front|..] && y == (front + y)[|front|..];
  }

  /** Two paces share a participant's folder exactly when their names agree in lower case. */
  lemma PaceFolderInjective(destination: string, id: int, a: string, b: string)
    ensures PaceFolder(destination, id, a) == PaceFolder(destination, id, b) <==> ToLower(a) == ToLower(b)
  {
    var folder := ParticipantFolder(destination, id);
    assert folder != "" by {
      assert |Combine(destination, FolderName(id))| >= |FolderName(id)|;
    }
    if PaceFolder(destination, id, a) == PaceFolder(destination, id, b) {
      CombineInjective(folder, ToLower(a), ToLower(b));
    }
  }

  /** Some session among `paces` had a pace whose lower-case name is that of `name`. */
  predicate SessionWithPace(paces: seq<Option<string>>, name: string) {
    exists j :: 0 <= j < |paces| && paces[j].Some? && ToLower(paces[j].value) == ToLower(name)
  }

  /** For a positive id, the folder of one pace name is created exactly when some
      session had that pace. */
  lemma PaceFolderCreated(destination: string, id: int, paces: seq<Option<string>>, name: string)
    requires id > 0
    ensures PaceFolder(destination, id, name) in CreatedFolders(destination, id, paces) <==> SessionWithPace(paces, name)
  {
    var folder := PaceFolder(destination, id, name);
    if folder in CreatedFolders(destination, id, paces) {
      var j :| 0 <= j < |paces| && CreatedFolder(destination, id, paces[j]).Some?
        && CreatedFolder(destination, id, paces[j]).value == folder;
      PaceFolderInjective(destination, id, paces[j].value, name);
    }
    if SessionWithPace(paces, name) {
      var j :| 0 <= j < |paces| && paces[j].Some? && ToLower(paces[j].value) == ToLower(name);
      PaceFolderInjective(destination, id, paces[j].value, name);
      assert CreatedFolder(destination, id, paces[j]) == Some(folder);
    }
  }

  /** After sessions with the given paces, a participant's data is full exactly when
      the id is positive (or there are no paces at all) and every pace name has had a
      session whose pace has the same lower-case name. */
  lemma DataFullAfterCollects(destination: string, id: int, paceNames: seq<string>, paces: seq<Option<string>>)
    ensures IsParticipantDataFull(destination, id, paceNames, CreatedFolders(destination, id, paces))
      <==> ((paceNames == [] || id > 0) && forall k :: 0 <= k < |paceNames| ==> SessionWithPace(paces, paceNames[k]))
  {
    var created := CreatedFolders(destination, id, paces);
    if id <= 0 {
      assert created == {};
      if paceNames != [] {
        assert PaceFolder(destination, id, paceNames[0]) !in created;
      }
    } else {
      forall k | 0 <= k < |paceNames|
        ensures PaceFolder(destination, id, paceNames[k]) in created <==> SessionWithPace(paces, paceNames[k])
      {
        PaceFolderCreated(destination, id, paces, paceNames[k]);
      }
    }
  }

  /** A file-mask entry: whether its directory exists, and the files its mask matches there. */
  datatype Source = Source(present: bool, files: seq<string>)

  /** What happens to one file: the move or delete attempted, and whether it succeeded
      (a failure is reported and the next file is processed). */
  datatype FileAction = Move(file: string, destination: string) | Delete(file: string)
  datatype Outcome = Outcome(action: FileAction, succeeded: bool)

  /** The files of every present source, in order. */
  function AllFiles(sources: seq<Source>): seq<string> {
    if sources == [] then []
    else
      var last := sources[|sources| - 1];
      AllFiles(sources[..|sources| - 1]) + (if last.present then last.files else [])
  }

  lemma AllFilesStep(sources: seq<Source>, i: nat)
    requires i < |sources|
    ensures AllFiles(sources[..i + 1]) == AllFiles(sources[..i]) + (if sources[i].present then sources[i].files else [])
  {
    assert sources[..i + 1][..i] == sources[..i];
  }

  /** Moving one file into `folder`, under its own file name. */
  function MoveOf(folder: string, failing: set<string>, file: string): Outcome {
    Outcome(Move(file, Combine(folder, FileName(file))), file !in failing)
  }

  function DeleteOf(failing: set<string>, file: string): Outcome {
    Outcome(Delete(file), file !in failing)
  }

  /** One outcome per file, in order: a failure does not stop the files after it. */
  function Moves(folder: string, failing: set<string>, files: seq<string>): (r: seq<Outcome>)
    ensures |r| == |files|
    ensures forall k :: 0 <= k < |files| ==> r[k] == MoveOf(folder, failing, files[k])
  {
    if files == [] then []
    else Moves(folder, failing, files[..|files| - 1]) + [MoveOf(folder, failing, files[|files| - 1])]
  }

  function Deletes(failing: set<string>, files: seq<string>): (r: seq<Outcome>)
    ensures |r| == |files|
    ensures forall k :: 0 <= k < |files| ==> r[k] == DeleteOf(failing, files[k])
  {
    if files == [] then []
    else Deletes(failing, files[..|files| - 1]) + [DeleteOf(failing, files[|files| - 1])]
  }

  lemma {:induction false} MovesAppend(folder: string, failing: set<string>, a: seq<string>, b: seq<string>)
    ensures Moves(folder, failing, a + b) == Moves(folder, failing, a) + Moves(folder, failing, b)
  {
    if b != [] {
      assert (a + b)[..|a + b| - 1] == a + b[..|b| - 1];
      MovesAppend(folder, failing, a, b[..|b| - 1]);
    } else {
      assert a + b == a;
    }
  }

  lemma {:induction false} DeletesAppend(failing: set<string>, a: seq<string>, b: seq<string>)
    ensures Deletes(failing, a + b) == Deletes(failing, a) + Deletes(failing, b)
  {
    if b != [] {
      assert (a + b)[..|a + b| - 1] == a + b[..|b| - 1];
      DeletesAppend(failing, a, b[..|b| - 1]);
    } else {
      assert a + b == a;
    }
  }

  /** LogFileManager.Collect. Nothing happens for a participant id of 0 or less or a
      missing pace; otherwise the pace folder is created and every file of every present
      source is moved into it, in order, whether or not earlier moves failed. */
  method Collect(destination: string, participantId: int, paceName: Option<string>,
                 sources: seq<Source>, failing: set<string>)
    returns (created: Option<string>, outcomes: seq<Outcome>)
    ensures participantId <= 0 || paceName.None? ==> created == None && outcomes == []
    ensures participantId > 0 && paceName.Some? ==>
      created == Some(PaceFolder(destination, participantId, paceName.value))
      && outcomes == Moves(created.value, failing, AllFiles(sources))
  {
    if participantId <= 0 || paceName.None? {
      return None, [];
    }
    var folder := Combine(ParticipantFolder(destination, participantId), ToLower(paceName.value));
    created := Some(folder);
    outcomes := MoveSources(folder, failing, sources);
  }

  /** The outer loop of Collect: the files of each present source, in order. */
  method MoveSources(folder: string, failing: set<string>, sources: seq<Source>) returns (outcomes: seq<Outcome>)
    ensures outcomes == Moves(folder, failing, AllFiles(sources))
  {
    outcomes := [];
    var i := 0;
    while i < |sources|
      invariant 0 <= i <= |sources|
      invariant outcomes == Moves(folder, failing, AllFiles(sources[..i]))
    {
      AllFilesStep(sources, i);
      if sources[i].present {
        MovesAppend(folder, failing, AllFiles(sources[..i]), sources[i].files);
        var moved := MoveAll(folder, failing, sources[i].files);
        outcomes := outcomes + moved;
      } else {
        assert AllFiles(sources[..i + 1]) == AllFiles(sources[..i]);
      }
      i := i + 1;
    }
    assert sources[..i] == sources;
  }

  /** The inner loop of Collect: each file is moved, a failure is reported, and the
      loop goes on. */
  method MoveAll(folder: string, failing: set<string>, files: seq<string>) returns (r: seq<Outcome>)
    ensures r == Moves(folder, failing, files)
  {
    r := [];
    for j := 0 to |files|
      invariant r == Moves(folder, failing, files[..j])
    {
      assert files[..j + 1][..j] == files[..j];
      r := r + [MoveOf(folder, failing, files[j])];
    }
    assert files[..|files|] == files;
  }

  /** LogFileManager.ClearTemporaryFiles: every file of every present source is sent to
      the recycle bin, in order, whether or not earlier deletes failed. */
  method ClearTemporaryFiles(sources: seq<Source>, failing: set<string>) returns (outcomes: seq<Outcome>)
    ensures outcomes == Deletes(failing, AllFiles(sources))
  {
    outcomes := [];
    var i := 0;
    while i < |sources|
      invariant 0 <= i <= |sources|
      invariant outcomes == Deletes(failing, AllFiles(sources[..i]))
    {
      AllFilesStep(sources, i);
      if sources[i].present {
        DeletesAppend(failing, AllFiles(sources[..i]), sources[i].files);
        var deleted := DeleteAll(failing, sources[i].files);
        outcomes := outcomes + deleted;
      } else {
        assert AllFiles(sources[..i + 1]) == AllFiles(sources[..i]);
      }
      i := i + 1;
    }
    assert sources[..i] == sources;
  }

  method DeleteAll(failing: set<string>, files: seq<string>) returns (r: seq<Outcome>)
    ensures r == Deletes(failing, files)
  {
    r := [];
    for j := 0 to |files|
      invariant r == Deletes(failing, files[..j])
    {
      assert files[..j + 1][..j] == files[..j];
      r := r + [DeleteOf(failing, files[j])];
    }
    assert files[..|files|] == files;
  }

  /** LogFileManager.SaveTemporaryLogFile: the file written, inside the destination folder. */
  function TemporaryLogPath(destination: string, filename: string): (p: string)
    ensures destination == "" ==> p == filename
    ensures |p| >= |destination| + |filename| && p[|p| - |filename|..] == filename
  {
    Combine(destination, filename)
  }
}
