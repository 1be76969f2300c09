/** The append log of a session (Logger.cs): tab-joined records kept in memory
    until they are saved to a file. Each `lock` block is one atomic step. */
module Logging {
  import opened Strings

  /** One log record: the tick count, then the items, all joined by tabs. */
  function Record(ticks: int, items: seq<string>): string {
    Join([IntText(ticks)] + items, "\t")
  }

  /** A record splits back at its tabs into the tick count and the items, when no item
      holds a tab itself; the first field reads back as the tick count, which for
      DateTime.Now.Ticks is never negative. */
  lemma RecordFields(ticks: int, items: seq<string>)
    requires forall k :: 0 <= k < |items| ==> Free(items[k], '\t')
    ensures Split(Record(ticks, items), '\t') == [IntText(ticks)] + items
    ensures ticks >= 0 ==> ParseUnsigned(Split(Record(ticks, items), '\t')[0]) == Some(ticks)
    ensures Int32Min <= ticks <= Int32Max ==> ParseInt(Split(Record(ticks, items), '\t')[0]) == Some(ticks)
  {
    var fields := [IntText(ticks)] + items;
    IntTextHasNoSeparator(ticks, '\t');
    forall k | 0 <= k < |fields| ensures Free(fields[k], '\t') {
      if k > 0 {
        assert fields[k] == items[k - 1];
      }
    }
    SplitJoin(fields, '\t');
    if ticks >= 0 {
      DigitsValueOfDigits(ticks);
    }
    if Int32Min <= ticks <= Int32Max {
      ParseIntText(ticks);
    }
  }

  /** What a successful Save produced: the folder written into and the lines of the file. */
  datatype SavedLog = SavedLog(folder: string, lines: seq<string>)

  class Logger {
    /** `_records`, in insertion order. */
    var records: seq<string>

    constructor ()
      ensures records == []
    {
      records := [];
    }

    /** Logger.Reset: the buffer becomes empty. */
    method Reset()
      modifies this
      ensures records == []
    {
      records := [];
    }

    /** Logger.Add: exactly one record is appended, after all earlier ones.
        `ticks` is DateTime.Now.Ticks and `items` are the items' texts. */
    method Add(ticks: int, items: seq<string>)
      modifies this
      ensures records == old(records) + [Record(ticks, items)]
    {
      var record := Join([IntText(ticks)] + items, "\t");
      records := records + [record];
    }

    /** The record-buffer part of Logger.Save. `settingsFolder` is the configured log
        folder ("" when there is none) and `dialog` what the folder dialog of
        SelectLogFolder answers when there is none. `writeOk` says whether the writer
        opens and takes every line; `flushOk` says whether its final flush, when the
        writer is disposed after the buffer was cleared, succeeds. A failure before the
        clear keeps the buffer; a failure of the final flush loses it. */
    method Save(settingsFolder: string, dialog: FolderDialog, writeOk: bool, flushOk: bool)
      returns (saved: Option<SavedLog>)
      modifies this
      ensures old(records) == [] ==> saved == None
      ensures saved.Some? <==>
        old(records) != [] && (settingsFolder != "" || SelectLogFolder(dialog).Some?) && writeOk && flushOk
      ensures saved.Some? ==> saved.value.lines == old(records)
      ensures saved.Some? ==> saved.value.folder == if settingsFolder != "" then settingsFolder else SelectLogFolder(dialog).value
      ensures records ==
        if old(records) != [] && (settingsFolder != "" || SelectLogFolder(dialog).Some?) && writeOk then [] else old(records)
    {
      if records == [] {
        return None;
      }
      var folder := settingsFolder;
      if folder == "" {
        var picked := SelectLogFolder(dialog);
        if picked.None? {
          return None;
        }
        folder := picked.value;
      }
      if !writeOk {
        return None;
      }
      var lines: seq<string> := [];
      for k := 0 to |records|
        invariant lines == records[..k]
      {
        lines := lines + [records[k]];
      }
      assert records[..|records|] == records;
      records := [];
      if !flushOk {
        return None;
      }
      saved := Some(SavedLog(folder, lines));
    }
  }

  /** The answer of the folder dialog SelectLogFolder shows: ShowDialog's result (None
      for null) and its ResultPath (None for null). */
  datatype FolderDialog = FolderDialog(accepted: Option<bool>, resultPath: Option<string>)

  /** Logger.SelectLogFolder as the program has it: the dialog's path is returned when
      the dialog was declined or the path is empty, and null when a folder was picked. */
  function SelectLogFolderAsWritten(dialog: FolderDialog): (r: Option<string>)
    ensures r.Some? ==> r == dialog.resultPath && (dialog.accepted == Some(false) || r.value == "")
    ensures dialog.accepted != Some(false) && dialog.resultPath.Some? && dialog.resultPath.value != "" ==> r.None?
  {
    if dialog.accepted == Some(false) || dialog.resultPath.None? || dialog.resultPath.value == "" then dialog.resultPath
    else None
  }

  /** SelectLogFolder as it is meant to work: the folder picked in an accepted dialog,
      and null when the dialog was declined or gave no path. */
  function SelectLogFolder(dialog: FolderDialog): (r: Option<string>)
    ensures r.Some? <==> dialog.accepted == Some(true) && dialog.resultPath.Some? && dialog.resultPath.value != ""
    ensures r.Some? ==> r == dialog.resultPath && r.value != ""
  {
    if dialog.accepted == Some(true) && dialog.resultPath.Some? && dialog.resultPath.value != "" then dialog.resultPath
    else None
  }

  /** As written, a folder picked in the dialog is dropped (Save then saves nothing),
      while a declined dialog with a path, or an accepted one with an empty path, is
      taken as the log folder; the intended selection returns exactly the picked folder. */
  lemma PickedFolderDropped(path: string)
    requires path != ""
    ensures SelectLogFolderAsWritten(FolderDialog(Some(true), Some(path))) == None
    ensures SelectLogFolder(FolderDialog(Some(true), Some(path))) == Some(path)
    ensures SelectLogFolderAsWritten(FolderDialog(Some(false), Some(path))) == Some(path)
    ensures SelectLogFolder(FolderDialog(Some(false), Some(path))) == None
    ensures SelectLogFolderAsWritten(FolderDialog(Some(true), Some(""))) == Some("")
  {
  }

  /** The static `_instance` field behind Logger.Instance. */
  class LoggerInstance {
    var instance: Logger?

    constructor ()
      ensures instance == null
    {
      instance := null;
    }

    /** Logger.Instance: created on first use, the same object on every later use. */
    method Instance() returns (logger: Logger)
      modifies this
      ensures instance == logger
      ensures old(instance) != null ==> logger == old(instance)
      ensures old(instance) == null ==> fresh(logger) && logger.records == []
    {
      if instance == null {
        instance := new Logger();
      }
      logger := instance;
    }
  }

  /** Two uses of Logger.Instance give the same logger. */
  method InstanceIsShared(holder: LoggerInstance) returns (first: Logger, second: Logger)
    modifies holder
    ensures first == second
  {
    first := holder.Instance();
    second := holder.Instance();
  }
}
