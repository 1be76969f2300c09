# VarjoDataLogger session bookkeeping, in Dafny

VarjoDataLogger records one experiment session. Gaze comes from a Varjo headset, and hand locations come from a Leap Motion tracker on the headset and from a top-view tracker. Two task programs run as peers: the critical-tracking task (CTT) and the N-back task. This project models the logger's bookkeeping, one module per source file:

- **Recording** (`app/App.cs`, the `Recorder` class). This is the session orchestrator, a class whose fields change as the session runs. The model covers:
  - the messages it handles from the three line peers;
  - the records it adds for each gaze sample;
  - the commands it sends, kept as an ordered trace;
  - how it asks for a participant id and for a rating on the console;
  - the per-task tracking loop, which ends on FIN, Ctrl+C or another key;
  - how a session ends, including the files collected after a complete session.

  Callbacks that arrive while a task is tracked are steps of a script. The console is a list of lines, where a line past the end is `null`.
- **TaskSetup** (`app/TaskSetup.cs`). This module builds the task plan: repetitions × lambda indexes × N-back indexes, shuffled when the setup asks for it. It also covers how a setup is loaded and the tab-separated manifest that is written.
- **Logging** (`app/Logger.cs`). This is the append-only record buffer. Each record is the tick count and then the items, joined by tabs. Save writes the buffer and then clears it. There is one shared instance.
- **LogFiles** (`app/LogFileManager.cs`). This covers participant folders named `P00`, recovering the last participant id from those names, and the rule for whether a participant's data is full. It also covers moving the log files into the pace folder and deleting temporary files, with one outcome per file.
- **Net** (`app/NetClient.cs`). This is the line client: its connection state, the events it raises, and the 16-byte read loop with trailing CR/LF trimming.
- **Hands** (`app/HandTracker.cs`). This covers the headset hand tracker's state flags and the choice of the one hand location reported for each frame.
- **LeapConfig** (`app/LeapMotion/Config.cs`). This is the pending-transaction table of the Leap Motion configuration wrapper.
- **Extensions** (`Extensions.cs`, `app/Extensions.cs`). This covers the file-name sanitiser `ToPath` and the clamp `ToRange`.
- **Strings** and **Defs**. These hold the behaviour of the .NET string and number routines the core relies on, and the value types the modules share. `StartsWith` and `ToLower` are the ordinal and ASCII versions of the culture-sensitive calls the program makes; "## Left out" says where they differ.

## Model

| member | source | states |
|---|---|---|
| Extensions.ToRange | Extensions.cs:15 | The result is never below `min`. It lies in `[min, max]` when `min <= max`. A value already in range is unchanged. When `min > max` the result is `min`. |
| Extensions.ToRangeIdempotent | Extensions.cs:15 | Clamping a clamped value changes nothing. |
| Extensions.RemoveEmpty | Extensions.cs:8 | `RemoveEmptyEntries` leaves no empty entry and never adds one. |
| Extensions.PiecesKeep | Extensions.cs:7-8 | The pieces of the split, concatenated, are exactly the characters of the input that a file name may hold, in order. Each piece is non-empty and free of invalid characters. |
| Extensions.PiecesAcrossRun | Extensions.cs:8 | A run of invalid characters separates the pieces before it from those after it and adds no piece. |
| Extensions.DashIsSafe | Extensions.cs:5 | The default replacement `"-"` may appear in a file name. |
| Extensions.ToPathIsSafe | Extensions.cs:5-10 | With a safe replacement, the result holds no character a file name may not hold. |
| Extensions.ToPathEmpty | app/Extensions.cs:5-9 | The result is empty exactly when every input character is invalid. |
| Extensions.ToPathKeepsSafe | app/Extensions.cs:5-9 | A non-empty valid file name is returned unchanged. |
| Extensions.ToPathIdempotent | app/Extensions.cs:5-9 | Sanitising twice gives the same result as sanitising once. |
| Extensions.ToPathNoLonger | app/Extensions.cs:5-9 | With a one-character replacement, the result is never longer than the input. |
| Extensions.ToPathRun | Extensions.cs:8-9 | A run of invalid characters between valid text becomes exactly one replacement. |
| Extensions.ToPathDropsEnds | Extensions.cs:8-9 | Leading and trailing runs of invalid characters are dropped. |
| Strings.SplitJoin | app/App.cs:489-492 | Splitting a join of separator-free fields gives the fields back. This is how the `;` and `,` lists of the peer messages are read. |
| Strings.ParseIntText | app/LogFileManager.cs:14-15 | `Int32.TryParse` reads back what `Int32.ToString` wrote, for every 32-bit value. |
| Strings.ParseInt | app/App.cs:366 | A parsed integer is always within the 32-bit range. |
| Strings.FilterMapMembers | app/App.cs:468-476 | The list built by the `foreach` holds exactly the parser's values for the items it accepts. |
| TaskSetup.PlanLength | app/TaskSetup.cs:19-31 | The plan holds repetitions × lambda count × N-back count conditions, and none when repetitions ≤ 0. |
| TaskSetup.PlanAt | app/TaskSetup.cs:22-31 | The order is repetition first, then lambda index, then N-back index. Condition (i, j) of repetition r sits at r·L·N + i·N + j. |
| TaskSetup.DefaultPlan | app/TaskSetup.cs:12-15 | The default setup plans exactly one condition, (-1, -1), and that condition is not valid. |
| TaskSetup.GetAllTasks | app/TaskSetup.cs:19-40 | The tasks are always a permutation of the plan. When the setup is not randomized they equal the plan. |
| TaskSetup.Repetitions | app/TaskSetup.cs:22-31 | The outer loop appends one full round per repetition, so the result is the unshuffled plan. |
| TaskSetup.AddRound | app/TaskSetup.cs:24-30 | The middle loop appends one row per lambda index, in order. |
| TaskSetup.AddRow | app/TaskSetup.cs:26-29 | The inner loop appends each lambda index paired with each N-back index, in order. |
| TaskSetup.Shuffled | app/TaskSetup.cs:33-37 | The shuffled list is a permutation of the input. |
| TaskSetup.Shuffle | app/TaskSetup.cs:33-37 | Shuffling the array in place keeps its multiset of conditions. |
| TaskSetup.Load | app/TaskSetup.cs:42-60 | A missing file name or a file that cannot be read or decoded gives the default setup. An index within the decoded list gives that setup. Any other result is the default. |
| TaskSetup.SaveTo | app/TaskSetup.cs:62-90 | A manifest is written exactly when the folder is named, exists and writing succeeds. It holds the header and one line per task, in order. |
| TaskSetup.ManifestLineFields | app/TaskSetup.cs:78-80 | Each manifest row splits at its tabs into exactly its five fields. |
| TaskSetup.HeaderFields | app/TaskSetup.cs:74 | The header splits at its tabs into the five column names. |
| TaskSetup.UnknownIndexes | app/TaskSetup.cs:78-79 | An index missing from the lookup tables is written as -1 for the lambda, and as -1, -1 for the N-back task. |
| TaskSetup.ManifestLineCount | app/TaskSetup.cs:73-81 | The manifest holds one line for the header and one line per task. |
| Logging.RecordFields | app/Logger.cs:17-19 | A record splits at its tabs into the tick count and the items. A tick count that is not negative, as `DateTime.Now.Ticks` never is, reads back from the first field. One that fits 32 bits also reads back through `Int32.TryParse`. |
| Logging.Logger.constructor | app/Logger.cs:98 | A new logger has no records. |
| Logging.Logger.Reset | app/Logger.cs:9-15 | The buffer becomes empty. |
| Logging.Logger.Add | app/Logger.cs:17-25 | Exactly one record is appended, after all the earlier ones. |
| Logging.Logger.Save | app/Logger.cs:27-71 | An empty buffer saves nothing. A save happens exactly when there are records, a folder, a successful write and a successful final flush. The folder is the configured one, or else the one SelectLogFolder gives. A saved file holds every record in order. The buffer is cleared exactly when the write got as far as the clear, so a failing final flush loses the records. Any earlier failure keeps them. |
| Logging.SelectLogFolderAsWritten | app/Logger.cs:73-90 | As the program has it: a path comes back only from a declined dialog or as an empty path. A non-empty folder picked in an accepted dialog gives null. |
| Logging.SelectLogFolder | app/Logger.cs:73-90 | As intended: exactly a non-empty folder picked in an accepted dialog, and null otherwise. |
| Logging.PickedFolderDropped | app/Logger.cs:84-89 | For a picked folder the written selection returns null and the intended one returns the folder. A declined dialog's path, or an accepted empty path, is taken by the written one only. |
| Logging.LoggerInstance.constructor | app/Logger.cs:96 | No instance exists at first. |
| Logging.LoggerInstance.Instance | app/Logger.cs:7 | The first use creates an empty logger, and every later use returns that same logger. |
| Logging.InstanceIsShared | app/Logger.cs:7 | Two uses of `Logger.Instance` give the same object. |
| LogFiles.FolderName | app/LogFileManager.cs:21-22 | A folder name is `P` and then at least two digits. Ids 0-9 get a leading zero. |
| LogFiles.PaddedValue | app/LogFileManager.cs:21-22 | The zero-padded digits of an id read back as its value. |
| LogFiles.FolderNameRoundTrip | app/LogFileManager.cs:12-17 | For every 32-bit id, the folder name starts with `P`, and the rest of it parses back to the id. |
| LogFiles.FileNameSuffix | app/LogFileManager.cs:52 | The file name is the end of the path and holds no directory separator. It is the longest such end, except that it never reaches into a drive prefix such as `C:`. |
| LogFiles.ParsedIds | app/LogFileManager.cs:11-16 | The ids found are exactly those of the directory names that the `P??` mask lists, that start with `P` and whose rest parses. |
| LogFiles.Max | app/LogFileManager.cs:17 | The maximum is a member of the list and no element exceeds it. |
| LogFiles.LastParticipantId | app/LogFileManager.cs:7-19 | With no parsable folder name the result is 0. Otherwise it is the largest id found. |
| LogFiles.FolderNameLength | app/LogFileManager.cs:11-22 | A folder name has the three characters the `P??` mask lists exactly for ids 0 to 99. Every other id gets a longer name. |
| LogFiles.FolderIdCounted | app/LogFileManager.cs:7-22 | The folder of a 32-bit id counts for the last participant id exactly when the id is 0 to 99, and then it gives that id back. |
| LogFiles.NewFolderCounts | app/LogFileManager.cs:7-22 | Once the folder of a participant with an id from 0 to 99 exists, the last participant id is at least that id. |
| LogFiles.FolderBeyondMaskIgnored | app/LogFileManager.cs:7-22 | The folder of any other 32-bit id is not listed by the mask, and the last participant id stays what it was. |
| LogFiles.PaceFolderInjective | app/LogFileManager.cs:24-40 | Two paces give a participant the same folder exactly when their names agree in lower case. |
| LogFiles.PaceFolderCreated | app/LogFileManager.cs:24-40 | For a positive id, Collect creates the folder of a Pace name exactly when some session's pace has the same lower-case name. |
| LogFiles.DataFullAfterCollects | app/LogFileManager.cs:24-40 | Take the folders Collect creates for a participant over sessions with given paces. The data is then full exactly when two things hold: the id is positive (or there are no Pace names), and every Pace name agrees, in lower case, with the pace of one of those sessions. |
| LogFiles.Collect | app/LogFileManager.cs:32-65 | A participant id ≤ 0 or a missing pace does nothing. Otherwise the pace folder is created and every file of every present source gets one move outcome, in order. A failure does not stop the moves after it. |
| LogFiles.MoveSources | app/LogFileManager.cs:42-64 | A source whose directory is missing is skipped. The files of the present sources are moved in source order, with one outcome each. |
| LogFiles.MoveAll | app/LogFileManager.cs:50-63 | Each file is moved under its own file name, with one outcome each, in order. |
| LogFiles.Moves | app/LogFileManager.cs:50-63 | There is one outcome per file, and each is the move of that file. |
| LogFiles.MovesAppend | app/LogFileManager.cs:42-64 | The moves of two file lists are the moves of each list, one after the other. |
| LogFiles.ClearTemporaryFiles | app/LogFileManager.cs:73-96 | Every file of every present source is deleted, with one outcome each, in order. |
| LogFiles.DeleteAll | app/LogFileManager.cs:82-94 | Each file gets one delete outcome, in order. |
| LogFiles.Deletes | app/LogFileManager.cs:82-94 | There is one outcome per file, and each is the delete of that file. |
| LogFiles.DeletesAppend | app/LogFileManager.cs:75-95 | The deletes of two file lists are the deletes of each list, one after the other. |
| LogFiles.AllFilesStep | app/LogFileManager.cs:75-81 | The files of the first i + 1 sources are those of the first i sources, then those of source i when it is present. |
| LogFiles.TemporaryLogPath | app/LogFileManager.cs:67-71 | The temporary file lies inside the destination folder and keeps its name. |
| Net.TrimPoint | app/NetClient.cs:89-99 | The trimming loop stops at the last byte, at or below its start, that is not CR or LF. It never goes below index 1. |
| Net.Trimmed | app/NetClient.cs:89-99 | Trimming keeps the buffer size. |
| Net.TrimmedChangesOnlyLineEnds | app/NetClient.cs:89-99 | Only CR and LF bytes in the trailing run are zeroed. Byte 0, everything up to the stop point and everything beyond the bytes read are unchanged. |
| Net.TrimLineEnds | app/NetClient.cs:89-99 | The loop over the array leaves exactly the trimmed buffer. |
| Net.Decode | app/NetClient.cs:102 | ASCII decoding gives one character per byte. Bytes above 127 become `?`. |
| Net.Filled | app/NetClient.cs:81-83 | A fresh buffer always has 16 bytes. |
| Net.LineArrivesPadded | app/NetClient.cs:81-102 | A line of up to 14 ASCII characters sent with CR LF arrives as one message: the line followed by NUL padding to 16 characters. |
| Net.ReadMessage | app/NetClient.cs:81-102 | One non-empty read raises the 16-character text of the whole trimmed buffer. |
| Net.LoopEventsAreMessages | app/NetClient.cs:79-106 | The reading loop raises at most one event per read, and each event is a Message. |
| Net.LoopEventsAt | app/NetClient.cs:79-106 | The events from step k on are those of step k's read, then those of the rest. |
| Net.LoopEventsCount | app/NetClient.cs:79-106 | While the client stays connected, each of the first n non-empty reads raises exactly one Message, in order. |
| Net.NetClient.constructor | app/NetClient.cs:14-17 | A new client is not connected, not reading and not closed, and has raised no events. |
| Net.NetClient.Connect | app/NetClient.cs:19-45 | A client that is already reading fails with "already connected" and changes nothing. An established connection sets the connected and reading flags. A socket error, a timeout and other failures each give their own result and change nothing. |
| Net.NetClient.Stop | app/NetClient.cs:47-56 | Afterwards the client is disconnected, closed and not reading. Disconnected is raised only when a reading thread existed. |
| Net.NetClient.Dispose | app/NetClient.cs:58-62 | The client is closed and its flags are untouched. |
| Net.NetClient.ExitReadLoop | app/NetClient.cs:108-113 | After the loop, IsConnected and the thread are cleared, and Disconnected is raised once. |
| Net.NetClient.ReadOnce | app/NetClient.cs:82-104 | A non-empty read raises its Message, and Stop during the read clears IsConnected. The loop continues exactly when bytes arrived and the client is still connected. |
| Net.NetClient.ReadInLoop | app/NetClient.cs:70-114 | The reading thread raises Connected, then the events of the loop's reads, then Disconnected. It leaves the client disconnected and not reading. |
| Hands.FirstRightHand | app/HandTracker.cs:204-208 | The index found is that of the first hand that is not a left hand, or there is none when every hand is a left hand. |
| Hands.FrameLocationChoice | app/HandTracker.cs:204-228 | The first hand that is not a left hand is reported, in centimetres, exactly when its palm is within MaxDistance. Otherwise the frame reports the empty location. So do a frame of left hands only and a non-positive MaxDistance. |
| Hands.LeftHandsIgnored | app/HandTracker.cs:204-208 | Left hands in front of the first right hand never change the report. |
| Hands.HandTracker.constructor | app/HandTracker.cs:30-68 | The tracker is ready exactly when the SDK object could be created. It starts disconnected and not running, with MaxDistance 80. |
| Hands.HandTracker.Run | app/HandTracker.cs:70-90 | With no SDK, or when already connected, nothing changes. Otherwise the tracker runs, and it either is connected or has asked for a connection. |
| Hands.HandTracker.Dispose | app/HandTracker.cs:92-98 | The tracker is no longer ready, and nothing else changes. |
| Hands.HandTracker.OnConnect | app/HandTracker.cs:189-192 | The tracker is connected, and nothing else changes. |
| Hands.HandTracker.OnDisconnect | app/HandTracker.cs:184-187 | The tracker is disconnected, and nothing else changes. |
| Hands.HandTracker.FrameReady | app/HandTracker.cs:194-236 | When not running, nothing happens. While running, the tracker counts as connected and raises exactly one location: the frame's chosen location. |
| LeapConfig.ResponseArgument | app/LeapMotion/Config.cs:58-79 | A callback runs exactly when the delegate passes the cast for the response's data type. For bool, int and float that means the same parameter type. A string response also reaches an `Action<object>`-like delegate, because `Action<in T>` is contravariant and string is a reference type. An unknown type never runs it. |
| LeapConfig.Config.constructor | app/LeapMotion/Config.cs:24-37 | A new wrapper has no pending transactions. |
| LeapConfig.Config.Record | app/LeapMotion/Config.cs:93-102 | Id 0 returns false and records nothing. A pending id throws the duplicate-key exception. A new positive id records the callback and returns true. |
| LeapConfig.Config.Get | app/LeapMotion/Config.cs:93-102 | Get returns true exactly for a new positive id, and then records the callback under that id. Otherwise the table is unchanged. |
| LeapConfig.Config.Set | app/LeapMotion/Config.cs:113-123 | The same as Get, for a callback that takes a bool. |
| LeapConfig.Config.HandleConfigChange | app/LeapMotion/Config.cs:39-50 | A pending id is dropped, and a bool callback runs once with the outcome. Null arguments or an unknown id change nothing. |
| LeapConfig.Config.HandleConfigResponse | app/LeapMotion/Config.cs:52-82 | A pending id is dropped whatever the data type. Its callback runs once with the value exactly when ResponseArgument accepts it. |
| LeapConfig.SetThenChange | app/LeapMotion/Config.cs:39-50 | A Set answered by its change leaves the table as it was and runs the callback once with the outcome. |
| LeapConfig.GetThenResponse | app/LeapMotion/Config.cs:52-102 | A Get answered by its response leaves the table as it was. It runs the callback once with the value exactly when ResponseArgument accepts it, and otherwise runs nothing. |
| LeapConfig.ObsoleteResult | app/LeapMotion/Config.cs:131-183 | Every obsolete accessor reports failure. |
| LeapConfig.TypeOf | app/LeapMotion/Config.cs:125-129 | No key has a known type. |
| Recording.DescriptionText | app/App.cs:489-496 | An item of two or more comma-free fields gives "{first field} fixed numbers" exactly when its second field is `Ordered`, and "{first field} randomized numbers" otherwise. |
| Recording.ItemWithoutCommaDropped | app/App.cs:490-496 | An item without a comma gives no description. |
| Recording.DescriptionOf | app/App.cs:102 | Corrected: the description shown is one of the received descriptions, or the placeholder when there are none. A valid index gives its own description. |
| Recording.DescriptionIndexOutOfRange | app/App.cs:102 | As written: a TSK reply with no well-formed item empties the list, and the index read is then -1. |
| Recording.PendingText | app/App.cs:500-513 | A LOG message leaves just `LOG` in the pending-message cell. Any other message is stored whole. |
| Recording.TemporaryLogName | app/App.cs:500-508 | The temporary log file name holds no character a file name may not hold. |
| Recording.Texts | app/App.cs:564-577 | One formatted text per value, in order. |
| Recording.GazeItems | app/App.cs:564-577 | A gaze record has 34 items. The first is the timestamp, then eight F4 eye, head and pupil values, then the 12 headset and the 12 top-view coordinates in F2, and last the message. |
| Recording.SetCommands | app/App.cs:95-106 | A valid task sends "task{N}" to the N-back task and then "lambda{N}" to the CTT. An invalid task sends nothing. |
| Recording.ToConnectedPeers | app/App.cs:154-171 | A command goes to each connected peer of the order exactly once, with the same text, and to no other peer. |
| Recording.ToThree | app/App.cs:209-220 | The commands to three peers are the three guarded sends, in turn. |
| Recording.StopOrder | app/App.cs:209-220 | The stop command goes to the connected peers only, each once. The N-back task's comes first when it is connected. |
| Recording.RatingOf | app/App.cs:365-366 | A line gives a rating only when it parses to an integer from 1 to 7. |
| Recording.FirstWhere | app/App.cs:363-374 | Gives the first index at which the predicate holds, or the length of the list. |
| Recording.DecisionIsValid | app/App.cs:420-460 | A chosen id is 0 or a free id from 1 to 99 whose data is not yet full. Input ending is the only thing that makes the id required. |
| Recording.MessageTakenOnce | app/App.cs:541-545 | For two gaze samples in a row, the pending message goes into the first record only, and the second record carries an empty message. |
| Recording.Recorder.constructor | app/App.cs:301-327 | The fields start as their initialisers give: no sends, the placeholder description, empty hands, zero counters and no flags set. |
| Recording.Recorder.CttMessage | app/App.cs:464-478 | An LMB message with a payload replaces the lambdas with the values of its parsable items, in order. Any other message keeps them. |
| Recording.TaskDescriptions | app/App.cs:486-498 | The TSK payload yields one description per `;` item with at least two `,` fields, in order. Other items are skipped. |
| Recording.Recorder.NBackMessage | app/App.cs:480-514 | FIN sets the finished flag. A TSK reply with a payload replaces the descriptions. A LOG message saves its payload to a temporary file. Every message fills the pending-message cell. |
| Recording.Recorder.StreamerMessage | app/App.cs:516-519 | One more streamer packet is counted. |
| Recording.Recorder.TopviewData | app/App.cs:521-534 | The total always rises. The location is stored, and a non-empty location counts as valid. |
| Recording.Recorder.HeadsetData | app/App.cs:605-623 | Without a gaze tracker the data is ignored. Otherwise the compensated location is stored and the total rises. The valid count rises exactly when the raw palm is not the zero vector. |
| Recording.Recorder.GazeData | app/App.cs:536-603 | Exactly one record is added, carrying the pending message, and the cell is cleared in the same step. The start time is the first sample's timestamp. |
| Recording.Recorder.ReadLine | app/App.cs:128 | Gives the next console line, or null at the end of the input. |
| Recording.Recorder.ReadRating | app/App.cs:365-366 | One line is read and parsed. |
| Recording.Recorder.GetRating | app/App.cs:354-376 | The rating is that of the first line that parses to 1-7. Every line before it is consumed. |
| Recording.Recorder.AskParticipantId | app/App.cs:420-460 | The last id is shown exactly when it is positive. The answer is the decision of the first deciding line, and a chosen id becomes the participant id. |
| Recording.Recorder.ReadIdAnswer | app/App.cs:429-457 | Lines are read up to and including the first one that decides. |
| Recording.Recorder.RequestAndGetReply | app/App.cs:392-418 | Nothing is sent to a disconnected peer. Otherwise the request is sent once. Polling ends at the first of the 30 polls that sees the reply, or after all 30 polls without one. `answered` says which, though the program tells its caller neither. |
| Recording.Recorder.Prepare | app/App.cs:63-74 | The lambdas are asked of the CTT and the task list of the N-back task, each only when that peer is connected. With a pace set, the profile command then goes to the N-back task. |
| Recording.Recorder.BeginTask | app/App.cs:91-121 | A gaze tracker exists and the finished flag is clear. The set commands of the task are sent, and a valid task's information is logged. The hands and the pending message are reset. |
| Recording.Recorder.StartTracking | app/App.cs:136-171 | The counters are reset, and the start commands go to the streamer first, then to the N-back task and the CTT. |
| Recording.Recorder.StopTracking | app/App.cs:209-220 | The stop commands go to the N-back task, the CTT and the streamer, in turn. |
| Recording.Recorder.SendToConnected | app/App.cs:154-171 | The guarded sends to three peers equal the commands to the connected peers of that order. |
| Recording.Recorder.SendToPeer | app/App.cs:209-220 | One guarded send. |
| Recording.Recorder.Dispatch | app/App.cs:464-623 | Each callback has exactly its own handler's effect, field by field, and every other field keeps its value. Only FIN from the N-back task sets the finished flag. An N-back line sets the pending message, a task list the descriptions, and a LOG line adds a temporary log. A CTT lambda list sets the lambdas. A streamer message adds a packet. A top-view sample sets the top-view hand and counts. A headset sample sets the headset hand and counts, but only with a gaze tracker. A gaze sample appends one gaze record carrying the pending message, clears that message, counts the sample and sets the start time once. |
| Recording.TrackedSteps | app/App.cs:178-202 | The steps taken are a prefix of the script. Only the last of them may end the loop, and it does unless the script ran out. |
| Recording.LaterStepsIgnored | app/App.cs:178-202 | Steps after the one that ends the tracking loop are never taken. |
| Recording.Recorder.TrackStep | app/App.cs:178-202 | One pass is a callback or a poll. It ends the loop exactly on FIN or a key, and it marks the session interrupted exactly on Ctrl+C. It adds one gaze record for a gaze callback or a debug-mode poll, and one packet for a streamer message. |
| Recording.Recorder.Track | app/App.cs:178-204 | The loop takes the steps up to the first that ends tracking: a FIN message or a key. Ctrl+C, and no other key, marks the session interrupted. Each gaze callback or debug-mode pass among the steps taken adds one to the gaze-sample count and one record. Each streamer message adds one packet. Later steps have no effect. |
| Recording.Recorder.FinishTask | app/App.cs:231-245 | The last log is asked of the N-back task, the rating is read, and when there is one it is recorded and the log saved. |
| Recording.Recorder.SaveRating | app/App.cs:241-242 | The rating record is added last, then Save runs. If the save happens, the new log holds every buffered record with the rating last, and the buffer is empty. If it fails before the clear, the rating stays last in the buffer. If only the final flush fails, no log is added and the buffer, rating included, is lost. |
| Recording.Recorder.StartAndTrack | app/App.cs:136-204 | The start commands are sent. Tracking runs until the first ending step, and only Ctrl+C interrupts. The counts start from zero and count the tracked steps. |
| Recording.Recorder.TrackTask | app/App.cs:136-245 | A tracked task sends its start and stop commands and, unless Ctrl+C ended it, the log request. A rating from 1 to 7 exists exactly when the task was not interrupted. |
| Recording.Recorder.EndTask | app/App.cs:209-245 | The stop commands are sent. Unless the session was interrupted, the log request follows and a rating is stored. |
| Recording.Recorder.RunTask | app/App.cs:91-257 | A task whose devices were not ready, or whose ENTER line was missing, sends only its set commands and ends the session. Otherwise the task is tracked and, when not interrupted, rated. What it sends is its set commands, then, once tracked, its start, stop and (unless interrupted) log-request commands. |
| Recording.Recorder.EnterTask | app/App.cs:123-257 | Without ready trackers (outside debug mode) the session is interrupted. Otherwise the ENTER line is read, and its absence interrupts the session. Only a tracked task sends commands, and it is rated exactly when it was not interrupted. |
| Recording.Recorder.Run | app/App.cs:77-270 | The task list is a permutation of the plan, and equals it when the plan is not randomized. Every task runs unless one is interrupted, and every task before the last is rated. The commands sent are each begun task's commands in turn. After a complete session the files are moved into the pace folder. After an interrupted one, only the temporary files are deleted. |
| Recording.Recorder.RunAndEnd | app/App.cs:89-267 | The task loop, with its ratings and sent trace, then the file handling at the end of the session. |
| Recording.Recorder.PlanSession | app/App.cs:79-82 | The task list is built from the loaded setup and its manifest is saved. |
| Recording.Recorder.EndSession | app/App.cs:260-267 | After a complete session the participant's files are moved into the pace folder. After an interrupted one the temporary files are deleted instead, and no folder is created. |
| Recording.SessionTraceStep | app/App.cs:89-258 | One more pass of the loop after uninterrupted ones appends its task's commands to the session's. |
| Recording.SetCommandsRequestNoLog | app/App.cs:95-100 | The set commands never request the N-back log. |
| Recording.StartStopRequestNoLog | app/App.cs:154-220 | The start and stop commands never request the N-back log. |
| Recording.LogRequestsOfTask | app/App.cs:228-233 | A task's commands request the N-back log once when the task was tracked and not interrupted, and never otherwise. |
| Recording.LogRequestsOfRated | app/App.cs:89-258 | Tasks that were all rated request the N-back log once each. |
| Recording.LogRequestsOfSession | app/App.cs:89-258 | After the task loop the N-back log has been requested once per rated task: once for every begun task except one ended by an interruption. |
| Recording.Recorder.RunStep | app/App.cs:89-257 | One pass of the loop after uninterrupted ones keeps the loop's state. Every task but the last was rated, only the last can have been interrupted, and the sent commands are each task's in turn. |
| Recording.Recorder.RunTasks | app/App.cs:89-258 | Each task runs in turn until one is interrupted. Every task before the last was rated, so no task begins after an interruption. Without an interruption or a stall, all of them begin. The commands sent are each begun task's commands in turn. |

## Left out

- Strings.StartsWith, Strings.ToLower: the program calls the culture-sensitive `string.StartsWith(string)` and `ToLower()` under the en-US culture (app/App.cs:13-16). The model compares ordinally and lower-cases only A to Z. They differ on some inputs. A message that starts with a character the culture ignores, such as NUL, and then `FIN` starts with "FIN" for the program and not for the model (App.cs:482-500, LogFileManager.cs:14). A pace name with a non-ASCII capital such as `Ä` is lower-cased by the program and kept by the model (LogFileManager.cs:28, 39).
- Threads, locks, timers and `Task.Delay` are not modelled. Each callback is one atomic step. Callbacks during a tracked task are an ordered script. Within one pass of the polling loop the interleaving is fixed: the pass's callbacks run first, then the key check, so a FIN that arrives on the N-back thread while `Console.KeyAvailable` is being read is placed before the key.
- Recording.Recorder.StartTracking: the start commands are sent by a task that is not awaited. The N-back and CTT starts are sent one second after the streamer's. The model sends all of them before the tracking loop. The program does something else when the loop ends within that second, through an early key or FIN: it can send the N-back task or the CTT its stop before its start. The sent traces of TrackTask, RunTask, RunTasks and Run do not show that order.
- Recording.Recorder.Prepare: the two reply requests run concurrently in the source, and the model sends the CTT request first.
- Recording.Recorder.RequestAndGetReply: the 100 ms polling for three seconds is modelled as 30 polls of a given reply flag. The "Timeout" log line of its catch block is not modelled. The polling loop ends by itself once the token is cancelled, so that catch runs only if the token is cancelled before the polling task starts.
- `NetClient.Send`, `HandTracker.Start` and `HandTracker.Stop` are called by `App.cs` but are not part of this model. Each Send call is recorded in the trace of sent commands.
- The construction of the peer connections and the UDP receiver (`UdpReceiver`) is not part of this model. Which peers are connected is a parameter.
- Settings, command-line options and the gaze tracker (`GazeTracker`) are not part of this model. Their values and samples are inputs.
- Floating point is not modelled:
  - double parsing and the F4 and F2 formatting are function parameters;
  - coordinates are exact reals;
  - `DoubleExt.ToRad` is not modelled;
  - neither are the percentage statistics printed after a task;
  - `HandTracker.CompensateHeadRotation` is an input: the compensated location given to the headset handler.
- All console output is not modelled: messages, statistics and the debug display.
- Recording.Recorder.Track: the debug sample is modelled as the `GazeData` call it makes, not its timing.
- Recording.Recorder.GetRating: the source loops forever once the console input has ended. The model stops at the end of the lines and reports a stall, and the session ends there.
- Recording.Recorder.RunTask: running out of scripted steps before tracking ends is also a stall.
- Callbacks outside the tracking loop are not modelled. Examples are the LOG reply that arrives after `getlog` and messages after FIN.
- A peer disconnecting during a session is not modelled.
- Counters are unbounded integers, so 32-bit overflow is not modelled.
- Recording.DescriptionOf is the corrected index. The as-written index is kept only to exhibit the finding below.
- Net: the model decodes the whole 16-byte buffer, trailing NUL bytes included, as `NetClient.cs` does. A longer line arrives split across several messages.
- Net.NetClient.Connect: the host, port and timeout become the outcome of the attempt. A connect after Stop or Dispose is not modelled.
- File system access is not modelled:
  - the directory listing, `paths.json`, the static constructor of `LogFileManager` and the file masks are inputs;
  - the `P??` mask is taken to list names of one to three characters that start with `P` or `p`, since a trailing `?` of a Windows pattern also matches no character;
  - which moves and deletes fail is a given set;
  - `Path.Combine` is one separator between parts;
  - the Pace names are a parameter.
- Logging.Logger.Save: only the folder is modelled, not the timestamped file name. The folder dialog's answer is an input, and Save uses the intended SelectLogFolder (see Findings). Storing a picked folder in the settings (app/Logger.cs:41-42) is not modelled: each save is given the configured folder. The write and the final flush on disposing the writer are two inputs. A failure inside the write keeps the buffer, while a failing final flush comes after the clear and loses it.
- TaskSetup.Load: JSON deserialisation is an input (the decoded list of setups, or a failure).
- TaskSetup.Shuffled: `Random.Shuffle` is replaced by a Fisher–Yates pass over given draws, and only the permutation is stated.
- Hands: the Leap Motion SDK and its device events are not modelled; they only print. `GetMm` and the coordinate-system choice are an input, the hand positions in millimetres.
- LeapConfig: the casts of values passed to `Set` and the service connection that hands out request ids are not modelled. Ids are inputs.

## Findings

| source | as written | input that shows it | evidently intended | confidence | as-written member | corrected member |
|---|---|---|---|---|---|---|
| app/Logger.cs:84-89 | SelectLogFolder returns the dialog's path when `ShowDialog() == false` or the path is empty, and null otherwise. | No log folder is configured, and the participant picks the folder `logs` and accepts. SelectLogFolder returns null, so Save returns null and writes nothing. | Return the picked folder when the dialog is accepted with a non-empty path, and null otherwise. | not executed | Logging.PickedFolderDropped | Logging.SelectLogFolder |
| app/App.cs:102 | The description is read at `Math.Min(_nbackTaskDescriptions.Length - 1, index)`. | A TSK reply `TSKx` arrives before a valid task. No item is well formed, so the descriptions become empty and the index read is -1. | Show the task's description, or the placeholder when none is known. | not executed | Recording.DescriptionIndexOutOfRange | Recording.DescriptionOf |
