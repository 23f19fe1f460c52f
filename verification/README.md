# Quoto in Dafny

Quoto posts one quote a day from a group's chat. This project models the parts of it where
a mistake would be seen by people and is hard to find by example, and proves what they are for:

- **The daily quote protocol.** `Scheduler` is a machine of atomic steps: database statements,
  requests to Telegram and the decisions between them, over the row operations of `QuoteTable`
  and the send outcomes of `Telegram`. An event list is any interleaving of any number of
  processes and workers, with crashes, lost answers and failed writes. `QuoteSafety` proves what
  no event list can break: at most one quote a day, never beside a notice. `SoloSafety` adds
  what holds with one process and its group lock, and `NoticeSafety` exactly when a second
  notice becomes possible. `Decisions` traces
  quotes, notices and message ids back to what a run counted, asked and was answered. `Steps` has
  what these need of single steps and of joined runs, and `GroupRun` ties the code of a run,
  statement by statement, to the machine.
- **The day's windows.** `DayWindow` has cutoffs across changes of the clock, for any zone.
- **Media analysis.** `MediaRow` follows one row through leases, retries, lost writes and
  restarts; `MediaQueue` follows the ids through the pipeline's channels and workers.
- **Claude's event stream.** `EventStream` reads frames as in sections 9.2.5 and 9.2.6 of the
  HTML Living Standard; `ClaudeMessage` builds the message. A stream cut anywhere is reported as
  cut or read exactly as if whole.
- **The prompt.** `Json` is a printer and, independently, a reader by RFC 8259; `Payload` prints
  the messages and a decoder gets them back.
- **The schema copy.** `SchemaStrip` gives schemas a meaning (JSON Schema 2020-12) and shows
  when stripping only weakens it, and that it does nothing else.
- **The picture resize.** `Resample` bounds every index and shows that the taps are the whole
  bicubic sum, that a flat picture stays flat, a picture of the right size stays as it is and a
  mirrored one comes out mirrored.
- **Structures that must agree with a simple definition.** `Reactions`, `AuditLog`, `Throttle`,
  `Panels`, `Scores`, `Picking` and `Polling`.

`dafny verify dfyconfig.toml` checks all of it. `Wrappers` and `Lines` hold what several modules
share.

Code that updates state is a class or a method with loops (`GroupRun.GroupRun`, `ClaudeMessage.Accumulator`,
`MediaRow.Store`, `MediaQueue.Pipeline`, `Throttle.CallbackThrottle`, `Panels.PanelRegistry`,
`Reactions.ReactionStore`, and the loops of `Payload`, `SchemaStrip`, `AuditLog`, `Scores`,
`Picking`, `Polling` and `Resample`). Each is tied by its `ensures` to a function or relation of
the old state, about which the lemmas are.

Three places where the repository's words say more or less than its code; the model follows the code:

- `README.md:100-102` promises a retry every minute. A failed row is retried after 15 minutes
  (`internal/scheduler/process.go:393-441`), and that is `RETRY_AFTER`.
- The panel registry evicts "the oldest ones" (`internal/bot/state.go:114-132`); among entries of
  the same age it may be any, so `Panels` is a relation.
- `prune` drops lines "past maxLine" (`internal/audit/audit.go:150-157`), but the line feed it
  adds to a last line can itself take that line past it:
  `AuditLog.SecondPruneDropsNothing` says exactly when.

## Model

| member | source | states |
|---|---|---|
| `DayWindow.AtIsEarliestReading` | internal/window/window.go:43-78 | The cutoff is the earliest instant whose local clock reads hour:minute whenever one exists, else the reading under the offset before the change, for every zone with at most one change nearby. |
| `DayWindow.AtIncreases` | internal/window/window.go:43-78 | Cutoffs of later days are later, for any jumps of the offset under a day. |
| `DayWindow.WindowsPartitionTime` | internal/window/window.go:100-107 | Every instant lies in exactly one day's window, and no window is empty. |
| `DayWindow.QuoteDayAgrees` | internal/window/window.go:112-119 | A bound for any zone: farther from both cutoffs than the offset jumps, the wall-clock quote day is the day whose window holds the instant. |
| `DayWindow.ClockTellsCutoffExactly` | internal/window/window.go:112-127 | The clock has reached a cutoff's reading exactly when the cutoff has passed, but for the instants between the cutoff read under the offset before a change and under the one after it. |
| `DayWindow.QuoteDayAgreesExactly` | internal/window/window.go:112-119 | So the wall-clock quote day is the day whose window holds the instant if and only if the instant lies between those readings for neither cutoff. |
| `DayWindow.QuoteDayDisagreesInTheRepeatedHour` | internal/window/window.go:112-119 | Such instants exist: one in the repeated hour of an autumn change meets that condition, and the two days differ there. |
| `DayWindow.CutoffDistance` | internal/window/window.go:43-78 | The real distance to a cutoff and the wall-clock one differ by at most the jump. |
| `DayWindow.QuoteDayBracket` | internal/window/window.go:112-127 | The quote day is the only one whose cutoff reading is the latest not after the clock; LastClosed says whether it is today's. |
| `DayWindow.DueIsLastClosed` | internal/window/window.go:124-141 | A due window is the one LastClosed names, and its end is at most the jump from the wall-clock delay. |
| `DayWindow.DueExactly` | internal/window/window.go:132-141 | A window is due exactly while its cutoff is under two hours ago on the wall clock. |
| `DayWindow.DueEndsExactly` | internal/window/window.go:132-141 | A due window has ended if and only if now is not both past a change and between the cutoff's reading under the new offset and the one under the old. |
| `DayWindow.DueBeforeItsEnd` | internal/window/window.go:132-141 | An instant just after a spring change meets it: the due window ends in the future. |
| `DayWindow.ProcessableWindowIsRetained` | internal/scheduler/scheduler.go:50-53 | Any window that is due, or that a catch-up takes, starts less than the 72 hours of retention ago. |
| `Telegram.FloodDelay` | internal/telegram/client.go:298-303 | The wait after a flood refusal is longer than Telegram asked by at most a second, and never over 61. |
| `Telegram.WithFloodRetry` | internal/telegram/client.go:273-292 | Three attempts at most, a new one only after an uncancelled flood refusal; at most one message is delivered, and an error that is not of unknown outcome means none was. |
| `Telegram.OnlyTheLastDelivers` | internal/telegram/client.go:273-330 | Only the last attempt of a retried send can have delivered. |
| `QuoteSafety.AtMostOneQuote` | internal/scheduler/process.go:29-194 | Over every interleaving of any processes, crashes, failed writes and unknown sends, a day gets at most one quote, and never a quote and a notice. |
| `QuoteSafety.FailedMeansUnsent` | internal/scheduler/publish.go:58-65 | A publish_failed row has nothing delivered and no worker that could still deliver. |
| `QuoteSafety.NoRowMeansUnsent` | internal/scheduler/process.go:393-429 | A day without a row, deleted or never made, has nothing delivered. |
| `QuoteSafety.StatusTellsWhatWasSent` | internal/scheduler/publish.go:20-112 | A quote row never hides a notice, a boring row never a quote. |
| `QuoteSafety.AlwaysSafe` | internal/scheduler/process.go:29-194 | The invariant behind them holds after every event list. |
| `QuoteSafety.EventKeeps` | internal/scheduler/process.go:29-194 | Every event keeps the invariant. |
| `QuoteSafety.WriteOffKeeps` | internal/scheduler/process.go:351-371 | Writing a stale row off keeps it, though its worker may still be sending. |
| `QuoteSafety.PlanIsOK` | internal/scheduler/process.go:393-429 | What is done about an existing row (retry, delete, settle, leave) is allowed by what was sent for its day. |
| `QuoteSafety.DeleteKeeps` | internal/db/quotes.go:146-148 | Deleting a failed row by its id keeps it, even if the delete took effect and its answer was lost. |
| `QuoteSafety.CreateKeeps` | internal/db/quotes.go:55-86 | Insert-if-absent keeps it: a lost answer means the worker never sends. |
| `QuoteSafety.SendKeeps` | internal/scheduler/publish.go:38-65 | Copy, fallback to text, flood retries: an unknown outcome is never followed by another send. |
| `QuoteSafety.MarkPublishedKeeps` | internal/scheduler/publish.go:67-71 | Recording the post keeps it, whether or not the write takes effect. |
| `QuoteSafety.RecordKeeps` | internal/scheduler/publish.go:129-134 | Recording an outcome keeps it. |
| `QuoteSafety.SendNoticeKeeps` | internal/scheduler/publish.go:91-112 | Sending a notice keeps it, also straight from a failed one. |
| `QuoteSafety.MarkNotifiedKeeps` | internal/db/quotes.go:98-103 | Recording the notice keeps it. |
| `QuoteSafety.CrashKeeps` | internal/scheduler/scheduler.go:300-329 | A process may end at any point. |
| `SoloSafety.DoneMeansSettled` | internal/scheduler/process.go:29-194 | With one process, a run past the agreement gate that reports its day done leaves no row or one that needs no more work. |
| `SoloSafety.RecoveryLeavesNothingStuck` | internal/scheduler/process.go:351-371 | Past recovery, no row of the group has been in progress since before the 15-minute cut. |
| `SoloSafety.RetryFindsItsMessages` | internal/scheduler/publish.go:58-126 | While a day waits for its retry, every message its last run read is still stored, but for those past retention. |
| `SoloSafety.RetryFindsEveryMessage` | internal/scheduler/scheduler.go:50-53 | And none is past retention while the scheduler takes the day's window, due or by catch-up, in any zone: the retry finds every message the failed run read. |
| `SoloSafety.RetentionIsExact` | internal/db/messages.go:114-128 | The retention job deletes the messages older than 72 hours and no others. |
| `SoloSafety.StaysWithin` | internal/db/messages.go:96-139 | No step stores a message or lists one not stored, so what a day holds lies in the window its messages came in. |
| `SoloSafety.AlwaysSoloSafe` | internal/scheduler/scheduler.go:300-329 | The invariant behind them, with the lock of a group. |
| `SoloSafety.WriteOffAlone` | internal/scheduler/process.go:351-371 | Each row written off is one fewer stuck, and no other changes. |
| `NoticeSafety.AtMostOneNotice` | internal/scheduler/process.go:412-428 | With one process, a day gets at most one notice while no record is lost of a retried notice that reached the chat. |
| `NoticeSafety.SecondNoticeExactly` | internal/scheduler/process.go:412-428 | That is the exact condition: until a record is lost, the next event makes a second notice possible, by events that lose nothing more, if and only if it loses one. |
| `NoticeSafety.LostRecordCostsASecond` | internal/scheduler/process.go:412-428 | After any run that ends by losing such a record, by a crash or a failed write, some continuation that loses nothing more gives the day another notice. |
| `NoticeSafety.SecondNoticeHappens` | internal/scheduler/process.go:412-428 | Such a run exists for every day: refused, retried and delivered, stopped before that was recorded, and delivered again. |
| `NoticeSafety.FailedNoticeIsUnnamed` | internal/db/quotes.go:98-103 | After every run of one process, a row whose notice failed names no message, so nothing in it keeps a retry back. |
| `NoticeSafety.FailedNoticeIsSentAgain` | internal/scheduler/process.go:412-428 | From any state that says a day's notice failed, with its group free, one more run that loses nothing delivers one more, whatever was delivered before. |
| `NoticeSafety.LosingLeavesFailed` | internal/scheduler/publish.go:91-112 | The event that loses the record, a crash or a write that fails, leaves the row saying just that, with a notice delivered. |
| `GroupRun.GroupRun.ProcessGroup` | internal/scheduler/process.go:29-194 | The run as written, calls and branches in order, ends as the machine's worker does, with the same answer, whatever others do between its calls. It calls a day done only if no message of it is left, or only deleting them failed after the outcome was recorded, or it was done before, or nothing could be quoted; a worthy quote has then been recorded as posted. |
| `GroupRun.GroupRun.RetryExisting` | internal/scheduler/process.go:393-429 | A day's row is left, deleted, settled or notified again as the machine plans from the same read: only a failed row without a message, 15 minutes old; a settled or notified day has had its window deleted. |
| `GroupRun.GroupRun.RecoverStale` | internal/scheduler/process.go:351-371 | Stale rows are written off one by one until a write fails. |
| `GroupRun.GroupRun.PublishQuote` | internal/scheduler/publish.go:25-87 | Copy or text, at most one send after a definite refusal, and the write that fits each outcome; a post that was recorded is followed by deleting the window, which is empty if that was acknowledged. |
| `GroupRun.GroupRun.SendBoringNotice` | internal/scheduler/publish.go:91-112 | The same for a notice. |
| `GroupRun.GroupRun.Post` | internal/telegram/client.go:273-292 | The loop of flood retries ends where the machine's attempts do. |
| `GroupRun.GroupRun.CreateRow` | internal/db/quotes.go:55-86 | A row is this run's only if its insert was acknowledged and it reads back. |
| `GroupRun.ClearingStep` | internal/scheduler/publish.go:114-127 | From each point where a run deletes the window, an acknowledged delete leaves no message of the day, and any delete leaves every other day's messages and all rows. |
| `GroupRun.GroupRun.DeleteWindow` | internal/scheduler/process.go:197-204 | If it does not fail, the day has no messages left; every other day has its own. |
| `GroupRun.GroupRun.ClearWindow` | internal/scheduler/publish.go:114-127 | The same after a post or a notice, where failing is no error. |
| `GroupRun.GroupRun.Enter` | internal/scheduler/process.go:351-355 | The rows to write off are those of the group in progress and unchanged for over 15 minutes, and no others. |
| `GroupRun.GroupRun.SetStale` | internal/scheduler/process.go:356-369 | A stale quote becomes publish_unknown, a stale notice boring_notice_unknown; no other row changes. |
| `GroupRun.GroupRun.InsertRow` | internal/db/quotes.go:55-86 | Without a row for the day, one appears with the status asked for and no message; with one, nothing changes. |
| `GroupRun.GroupRun.MarkPublished` | internal/db/quotes.go:89-95 | The row, and no other, becomes published with the id Telegram gave, or may when the answer is lost. |
| `Decisions.OnlyWorthyDaysAreQuoted` | internal/scheduler/process.go:66-174 | Over every interleaving, a day has a quote only if a run of it, with the agreement given, counted enough messages without the tag and the model found the best one worth posting. |
| `Decisions.OnlyBoringDaysGetNotices` | internal/scheduler/process.go:160-194 | A day has a notice only if such a run was told it is boring and its group wants notices, also when the notice is a retry. |
| `Decisions.RowsNameWhatWasSent` | internal/db/quotes.go:88-103 | A published row names a message Telegram accepted as the day's quote, and no row names a message that was not accepted for its day. |
| `Decisions.FactHappened` | internal/scheduler/process.go:29-194 | What these three go back to is an event of the run: a count, a verdict, an answer. |
| `Decisions.FailuresRest` | internal/scheduler/process.go:431-441 | With one process, for 15 minutes after a failed send no worker deletes or settles the day's row, computes its quote again or sends. |
| `Steps.StepMoves` | internal/scheduler/process.go:29-194 | A step moves only its own worker, and never what its run is about. |
| `GroupRun.RunDay` | internal/scheduler/process.go:29-194 | Run among any others, this code leaves no day with two quotes, or with a quote and a notice. |
| `MediaRow.RetryDelay` | internal/media/retry.go:14-22 | The wait is between five minutes and an hour. |
| `MediaRow.ComputeRetryDelay` | internal/media/retry.go:14-22 | Doubling until the ceiling is the closed form: 300 times a power of two, at most 3600. |
| `MediaRow.DelayDoubles` | internal/media/retry.go:11-22 | It is 300 seconds after the first attempt, and twice as long after each further one, up to 3600. |
| `MediaRow.Store.ClaimRow` | internal/media/pgstore.go:101-120 | A row is leased exactly when it is unfinished and its time has come; taking an expired lease costs an attempt. |
| `MediaRow.Store.Finish` | internal/media/pgstore.go:283-328 | The outcome replaces status and retry time, and the attempts when given. |
| `MediaRow.Process` | internal/media/pipeline.go:270-325 | A job is a claim and then an end of the machine's run, for every answer it can get. A successful analysis stores its own status and a permanent failure failed; a temporary one leaves the row pending for as long as its attempts and the failure ask, or failed at the fifth that counts; a row nobody may take stays as it was. |
| `MediaRow.EventKeeps` | internal/media/pipeline.go:270-325 | Every claim, end and stop keeps the count of starts paid for. |
| `MediaRow.AttemptsBounded` | internal/media/pipeline.go:270-325 | Through any failures, timeouts, lost results and restarts, at most five analyses start beyond the outcomes stored as uncounted. |
| `MediaRow.CrashLoopTries` | internal/media/pgstore.go:96-105 | A file that stops the process each time is tried again at each expiry, each try counted. |
| `MediaRow.CrashLoopEnds` | internal/media/pipeline.go:284-301 | Five such tries are made, and the sixth claim gives the file up without one. |
| `MediaRow.FinalStaysFinal` | internal/media/pgstore.go:101-120 | A finished row is never leased, analysed or written again. |
| `MediaRow.FinalStatusWasGiven` | internal/media/pipeline.go:270-325 | Through any run, the status a row ends with is one an analysis gave, or failed after a permanent failure or with all attempts used. |
| `MediaRow.StartsAreSpaced` | internal/media/retry.go:28-44 | Two analyses of one row begin at least five minutes apart, however the first ended. |
| `MediaQueue.PlacesFollow` | internal/media/pipeline.go:117-267 | Each atomic action moves an id from one place to one other, or reserves or releases it. |
| `MediaQueue.EventKeepsPlaces` | internal/media/pipeline.go:154-170 | Every action keeps: reserved exactly when held, in one place. |
| `MediaQueue.AlwaysOnePlace` | internal/media/pipeline.go:117-267 | After any run, the reserved ids are those in the channels, hands and workers, each once; channels keep to 256, two jobs run. |
| `MediaQueue.NeverTwiceAtOnce` | internal/media/pipeline.go:132-152 | No message is with two workers at once, and no two jobs of the video class are. |
| `MediaQueue.ChannelsMatchReadings` | internal/media/pipeline.go:172-206 | After any run, what the video channel and its worker hold was last read to be a video, and what the light ones hold was not. |
| `MediaQueue.NeverTwoVideos` | internal/media/pipeline.go:132-152 | So no two messages whose rows were read to be videos are worked on at once. |
| `MediaQueue.SettleIsARun` | internal/media/pipeline.go:117-127 | What one goroutine does with its job without interruption is a run of the machine. |
| `MediaQueue.SubmitIsARun` | internal/media/pipeline.go:117-127 | So is a whole submission, whatever the others hold. |
| `MediaQueue.RecoverIsARun` | internal/media/pipeline.go:249-267 | So is a whole recovery pass, over any rows. |
| `MediaQueue.RecoveryKeepsOnePlace` | internal/media/pipeline.go:249-267 | After any run and a recovery pass, the reserved ids are still those held somewhere, each in one place. |
| `MediaQueue.FullIsReleased` | internal/media/pipeline.go:194-206 | A job whose channel is full is released, nothing else changes. |
| `MediaQueue.Pipeline.SubmitId` | internal/media/pipeline.go:117-127 | Submitting is reserving and then putting in the inbox or releasing. |
| `MediaQueue.Pipeline.ReserveId` | internal/media/pipeline.go:156-164 | Answers whether the id was free, and reserves it. |
| `MediaQueue.Pipeline.Enqueue` | internal/media/pipeline.go:194-206 | The job goes to the channel of its class, or is released. |
| `MediaQueue.Pipeline.RecoverPending` | internal/media/pipeline.go:249-267 | Each listed row in turn is reserved and enqueued, or skipped when queued already: the pass that `RecoverIsARun` shows to be a run. |
| `EventStream.ReadsLine` | internal/claude/stream.go:92-105 | A line is its text whether it ends in LF or CR LF. |
| `EventStream.ReadsFrame` | internal/claude/stream.go:50-90 | A frame of an event line, a data line and a blank one delivers its event, a comment none. |
| `EventStream.CutFrame` | internal/claude/stream.go:50-90 | A frame cut at any byte delivers its event whole or nothing. |
| `EventStream.CutStreamIsPrefix` | internal/claude/stream.go:50-90 | A stream cut at any byte is read as its first so many events, all of them whole. |
| `ClaudeMessage.Padded` | internal/claude/stream.go:278-286 | Making room adds only empty blocks, and only as many as needed. |
| `ClaudeMessage.Accumulator.HandleEvent` | internal/claude/stream.go:184-275 | One event changes the message as the function of state and event says, or ends the stream with its error. |
| `ClaudeMessage.Accumulator.FinishMessage` | internal/claude/stream.go:341-353 | Truncated unless begun and stopped; else the text blocks joined in order. |
| `ClaudeMessage.ParseStream` | internal/claude/stream.go:357-368 | Handling events as lines arrive gives the same as reading the body first. |
| `ClaudeMessage.FirstFaultDecides` | internal/claude/stream.go:184-368 | For every body, the first event that is an error or cannot be read decides what is reported, whatever follows; without one a line too long does, and else there is a message or a truncated stream. |
| `ClaudeMessage.AfterPrefix` | internal/claude/stream.go:184-298 | What is known of the message after each prefix of a well-formed stream. |
| `ClaudeMessage.CutStreamNeverLies` | internal/claude/stream.go:341-368 | A well-formed stream cut at any byte is reported as truncated or gives exactly the whole stream's message. |
| `ClaudeMessage.CompleteFromMessageDelta` | internal/claude/stream.go:341-353 | It gives the message exactly when its message_delta arrived whole. |
| `ClaudeMessage.BodyMakesBlocks` | internal/claude/stream.go:230-262 | Each block is made of its own events in order, however blocks interleave. |
| `ClaudeMessage.WholeStreamMessage` | internal/claude/stream.go:184-368 | The message of a well-formed stream: id and model of its start, reason of its message_delta, the texts of its text blocks in order of index. |
| `Json.EscapeRead` | internal/ai/payload.go:126-155 | A reader by section 7 of RFC 8259 undoes each character's escape. |
| `Json.PrintRead` | internal/ai/payload.go:31-82 | The reader gives back every printed value and stops where it ends. |
| `Json.PrintParse` | internal/ai/payload.go:31-42 | A whole printed text reads as its value. |
| `Payload.Clip` | internal/ai/payload.go:103-118 | At most the first n runes, also by the shortcut on the byte length. |
| `Payload.AppendString` | internal/ai/payload.go:126-155 | Appends the quoted string. |
| `Payload.PositiveReactions` | internal/ai/payload.go:86-99 | The positive reactions in order, copied only when others are there. |
| `Payload.AppendMessage` | internal/ai/payload.go:44-82 | Field by field, appends the printed object of the message as it may be sent; each field is found under its own name and says what it is for. |
| `Payload.UserPayload` | internal/ai/payload.go:31-42 | The text is the printed array. By field name and as decoded, every message's id, author, text, caption, kind, description, reply and positive reactions are those given, in order, cut at 128, 2000, 2000 and 1500 characters, and absent exactly when there is nothing to say. |
| `Payload.MembersDecode` | internal/ai/payload.go:44-82 | The fixed order of optional fields is decodable. |
| `Payload.PayloadRead` | internal/ai/payload.go:31-155 | Decoding inverts printing for every list of messages. |
| `Payload.SameTextSameMessages` | internal/ai/payload.go:22-42 | Two lists give the same text exactly when they agree in what may be sent, whatever characters people wrote. |
| `SchemaStrip.StripNode` | internal/claude/schema.go:93-120 | The copy built by appending is the recursive one. |
| `SchemaStrip.DroppedAreBounds` | internal/claude/schema.go:17-20 | The keywords dropped are the bounds and no others. |
| `SchemaStrip.StripWeakens` | internal/claude/schema.go:93-120 | Every value valid against a schema is valid against its copy, if no bound that binds stands under an odd number of nots or in a oneOf, and no value of enum or const changes. |
| `SchemaStrip.StripFollows` | internal/claude/schema.go:93-120 | By polarity: under an odd number of nots the copy accepts no more than the original, elsewhere no less. |
| `SchemaStrip.StripKeepsMeaning` | internal/claude/schema.go:93-120 | Where both hold, the copy accepts exactly the same values. |
| `SchemaStrip.NotStrengthens` | internal/claude/schema.go:93-120 | Under not the condition is needed. |
| `SchemaStrip.EnumStrengthens` | internal/claude/schema.go:93-120 | Under enum the condition is needed. |
| `SchemaStrip.ConstStrengthens` | internal/claude/schema.go:93-120 | And under const. |
| `SchemaStrip.OneOfStrengthens` | internal/claude/schema.go:93-120 | And under oneOf. |
| `SchemaStrip.StrippedIsClean` | internal/claude/schema.go:93-120 | No unsupported keyword is left where a keyword may stand. |
| `SchemaStrip.CleanIsUntouched` | internal/claude/schema.go:93-120 | A schema without such keywords comes back as it was. |
| `SchemaStrip.StripIsIdempotent` | internal/claude/schema.go:93-120 | A second copy changes nothing; the first changes something exactly when there is a keyword to drop. |
| `SchemaStrip.NamesKept` | internal/claude/schema.go:22-26 | The names under "properties" are the same set, so additionalProperties means the same. |
| `SchemaStrip.OrderIsKept` | internal/claude/schema.go:22-26 | Keys keep their order, all but the unsupported stay, and names under "properties" all stay in order. |
| `Resample.TapsFit` | internal/media/phash.go:184-200 | For every size, an output reads at least one input, all inside the row, and has room for its taps. |
| `Resample.FewTaps` | internal/media/phash.go:184-200 | Reductions up to 4111 to one stay within the taps whose rounding cannot show. |
| `Resample.RangesGrow` | internal/media/phash.go:192-200 | From one output to the next the range of inputs read never moves back, for every pair of sizes. |
| `Resample.ReadsWhatItMeets` | internal/media/phash.go:192-205 | Laid over the row, an output reads every input whose middle is near its own and gives it over half the kernel's weight. |
| `Resample.NothingMissed` | internal/media/phash.go:192-200 | An input outside the range has no weight under the kernel. |
| `Resample.BicubicInterpolates` | internal/media/phash.go:169-179 | The kernel is even, gives a sample back at its place, and its four taps around any point sum to one. |
| `Resample.Fixed` | internal/media/phash.go:201-218 | A tap is the nearest fixed-point number. |
| `Resample.ResampleCoeffs` | internal/media/phash.go:184-223 | The tables hold every output's range and taps; the range covers the inputs the output lies over. |
| `Resample.AcrossPixel` | internal/media/phash.go:127-139 | The loop over a row's taps sums exactly those, never out of range. |
| `Resample.DownPixel` | internal/media/phash.go:140-151 | The loop over a column's taps sums exactly those, never out of range. |
| `Resample.ResizeGrey` | internal/media/phash.go:122-152 | Every pixel of both passes is the clipped sum of its taps; no index is out of range; resized to its own size, a picture comes out as it is. |
| `Resample.SameSizeStaysSame` | internal/media/phash.go:122-152 | That identity, for every picture of bytes. |
| `Resample.AcrossIsDense` | internal/media/phash.go:127-139 | The sum over the taps is the rounded bicubic sum over the whole row. |
| `Resample.DownIsDense` | internal/media/phash.go:140-151 | And over the whole column. |
| `Resample.MirrorCommutes` | internal/media/phash.go:127-139 | A mirrored row resizes to the mirror image, for every size. |
| `Resample.WeightsNeverCancel` | internal/media/phash.go:197-212 | For every size and output the weights sum to well over zero: a zero sum, which the code guards against, cannot come up. |
| `Resample.Cuts` | internal/media/phash.go:187-200 | Near, middling and far inputs of an output: at least as many near ones, all in the row, as outweigh the negative lobes. |
| `Resample.TapIsSmall` | internal/media/phash.go:201-218 | The conversion of a tap to 32 bits loses nothing. |
| `Resample.TapsSumToOne` | internal/media/phash.go:201-218 | The fixed-point taps sum to one but for half a unit each. |
| `Resample.FlatStaysFlat` | internal/media/phash.go:122-166 | A picture of one grey resizes to that grey everywhere, while no output has more than 16448 taps. |
| `Reactions.OnReaction` | internal/bot/events.go:34-58 | The deltas are each counted key's occurrences after minus before, where they differ. |
| `Reactions.KeysTellApart` | internal/bot/events.go:17-29 | Every reaction is counted but paid and nameless ones, and two counted ones share a key exactly when they are the same, but for an emoji that reads as a custom one's key. |
| `Reactions.ReactionStore.ApplyDelta` | internal/db/reactions.go:73-113 | Each count moves by its delta and never below zero, in whatever order; only positive rows stay. |
| `Reactions.ReactionStore.SyncAbsolute` | internal/db/reactions.go:26-70 | The rows become the positive totals given, whatever they were. |
| `Reactions.TotalChanged` | internal/bot/events.go:31-58 | One person's change moves the sum over people by just that change. |
| `Reactions.CountsAreTotals` | internal/bot/events.go:34-58 | After any in-order updates every count is the sum over people of their current lists, and only positive rows exist. |
| `Reactions.RightInAnyOrder` | internal/db/reactions.go:73-113 | Applied in any order, the updates leave a count no lower than that sum, and equal to it if and only if no first part of them takes away more than it adds. |
| `Reactions.CountIsNetAboveLeast` | internal/db/reactions.go:92-102 | A count is the net change less the lowest it ever stood, from zero at the start: the clamp at zero forgets just that. |
| `Reactions.NetOfReordering` | internal/bot/bot.go:199-214 | The net change does not depend on the order. |
| `Reactions.NetIsTotal` | internal/bot/events.go:31-58 | For updates in order it is the sum over people. |
| `Reactions.OutOfOrderOvercounts` | internal/db/reactions.go:92-102 | An order that breaks that condition: a removal applied before its reaction leaves one too many. |
| `AuditLog.ReadLine` | internal/audit/audit.go:251-267 | Reading by the buffer finds the line, its length and whether it is too long. |
| `AuditLog.Prune` | internal/audit/audit.go:158-246 | The file is left alone exactly when every line is short enough, not blank and not expired; else its lines are the texts of those that are, in order. |
| `AuditLog.PrunedSnoc` | internal/audit/audit.go:195-224 | Copying the prefix as it stands and renewing the rest joins at the first dropped line. |
| `AuditLog.PruneFilters` | internal/audit/audit.go:150-157 | The new file's lines are a filter of the old one's. |
| `AuditLog.SecondPruneDropsNothing` | internal/audit/audit.go:150-246 | A second cleanup drops nothing exactly when the last line does not outgrow the limit by its new line feed. |
| `AuditLog.ShortLinesPruneOnce` | internal/audit/audit.go:150-246 | So it is when every line is below the limit. |
| `Throttle.CallbackThrottle.Hit` | internal/bot/state.go:33-57 | Answers and remembers as the functions of the old map say. |
| `Throttle.CallbackThrottle.DropStale` | internal/bot/state.go:45-49 | Keeps exactly the entries of the last minute. |
| `Throttle.SizeBounded` | internal/bot/state.go:33-57 | Never more than 2048 entries. |
| `Throttle.ClearedByFlood` | internal/bot/state.go:50-54 | The map is cleared exactly when more than 2048 keys were pressed within the minute. |
| `Throttle.AnswersLikeUnbounded` | internal/bot/state.go:33-57 | Until then every press is answered as by a throttle that forgets nothing. |
| `Throttle.TooSoonExactly` | internal/bot/state.go:33-57 | Until then a press is too soon exactly when one by the same person on the same panel was let through less than 700 ms before. |
| `Panels.PanelRegistry.Register` | internal/bot/state.go:84-91 | The panel is added, after pruning if the registry is full. |
| `Panels.PanelRegistry.Take` | internal/bot/state.go:94-106 | Gives the unexpired command, and forgets the panel either way. |
| `Panels.PanelRegistry.Prune` | internal/bot/state.go:115-132 | Terminates with the unexpired entries, less the oldest while there are too many. |
| `Panels.PanelRegistry.Oldest` | internal/bot/state.go:121-130 | Finds an entry none is older than. |
| `Panels.SizeBounded` | internal/bot/state.go:84-132 | Never more than 2048 panels, however ties are broken. |
| `Panels.TakesLikeUnbounded` | internal/bot/state.go:84-132 | While fewer than 2048 are unexpired, take answers as a map that drops nothing. |
| `Panels.TakeGivesWhatIsOpen` | internal/bot/state.go:84-106 | So a press gets the command its panel was last registered for, exactly when it was not taken since and 48 hours have not passed. |
| `Panels.NeverInvents` | internal/bot/state.go:84-106 | A panel held was registered and not taken since, crowded or not. |
| `Scores.NormalizeScores` | internal/ai/parse.go:106-149 | The first faulty entry decides the error, named as what is wrong with it; else the ids are exactly the known ones that entries name, each in first position with the clamped score of its last entry. |
| `Scores.ScoreTable` | internal/scoring/scoring.go:263-273 | Each id once in first order, with its last value. |
| `Scores.Clamp` | internal/ai/parse.go:140 | A score in 0..10 becomes its tenth; anything outside, infinite or not, the nearer end of 0..1. |
| `Scores.FirstOrderSnoc` | internal/ai/parse.go:141-146 | One entry more keeps the order of first positions. |
| `Scores.CollectsOneMore` | internal/ai/parse.go:141-146 | Overwriting in place or appending keeps the dictionary. |
| `Picking.Fallback` | internal/scoring/scoring.go:213-222 | The first listed of the highest among those that can be the quote. |
| `Picking.ValidPrimary` | internal/scoring/scoring.go:287-296 | The model's pick, exactly when it is a message of the day and no sticker. |
| `Picking.Dedupe` | internal/scoring/scoring.go:352-362 | Each id where it first stands. |
| `Picking.LimitContext` | internal/scoring/scoring.go:326-350 | A long selection is cut to the window whose middle is nearest to the pick, or to its beginning when the pick is not in it. |
| `Picking.OneNearest` | internal/scoring/scoring.go:324-350 | There is only one such window. |
| `Picking.ValidContext` | internal/scoring/scoring.go:302-322 | All the model selected, in its order and without repeats, or the window of five nearest to the pick; the pick is in it once. |
| `Picking.SelectedDistinct` | internal/scoring/scoring.go:306-320 | What is selected has no repeats and holds the pick. |
| `Picking.SelectedAsNamed` | internal/scoring/scoring.go:306-320 | It is every message of the day the model named, in the order first named, and the pick at the end if it was not. |
| `Picking.Pick` | internal/scoring/scoring.go:210-258 | The model's pick or else the first-listed maximum of the last scores; its score or the neutral one; the fallback when another; the context. |
| `Picking.FallbackIs` | internal/scoring/scoring.go:213-222 | The maximum over the table is the one over the list of scores. |
| `Picking.PickOfReply` | internal/ai/parse.go:106-149 | The pick, its score and the runner-up may be read off the entries of the reply: collecting them changes none. |
| `Scores.CollectedReadsSame` | internal/ai/parse.go:141-146 | The collected scores give each id the last value it had in the reply, and order ids alike. |
| `Polling.Poll` | internal/bot/bot.go:179-221 | Accepting update by update is the machine's run, cancelled at any point. |
| `Polling.ConfirmLast` | internal/bot/bot.go:227-236 | The last request drops what was accepted, and nothing when none was. |
| `Polling.RequestAdvances` | internal/bot/bot.go:179-221 | A request takes the bot over exactly the updates it accepts, and drops none of them yet. |
| `Polling.ExactlyOnce` | internal/bot/bot.go:163-236 | Through any batches, failures and orderly restarts the accepted updates are the log up to the bot's position, each once, and none past it is dropped. |
| `Polling.RestartConfirmsAccepted` | internal/bot/bot.go:223-236 | After an orderly stop the server has dropped exactly what was accepted. |
| `Polling.NeverLost` | internal/bot/bot.go:179-236 | Crashes included, an update the server dropped was accepted. |

## Left out

- The row operations of `internal/db/quotes.go` are functions of the table: each is one statement,
  and the machine decides whether it takes effect.
- What `tick`, `runTick` and `CatchUp` decide (the completed days, the pause after a failed run, the check made
  before the lock) is not modelled: the machine lets a run of any group and day begin at any time
  the lock is free, so every promise holds for whatever they decide.
- NoticeSafety.AtMostOneNotice: holds while no record of a delivered, retried notice is lost, because the
  retry sends from the failed state; `NoticeSafety.SecondNoticeExactly` says that nothing else can cost a
  second notice and `NoticeSafety.SecondNoticeHappens` is one. With more than one process nothing is said
  of notices alone.
- SoloSafety.RetryFindsEveryMessage: windows are keyed by group and day, and messages arrive under the day
  whose window holds them; that windows do not overlap is `DayWindow.WindowsPartitionTime`. A group keeps
  its zone and its time of day.
- The text of posts, errors recorded on a row, pins and the agreement reminder: no promise above
  depends on them; the reminder's answer is an input of the machine.
- MediaRow: one process is alive at a time, since `Finish` is not fenced by the lease; one message has
  one media row.
- MediaQueue: a job's item id and the order in which waiting workers get a slot. The calls of
  `MediaQueue.Pipeline` run without another goroutine's action in between, whatever the others hold; the
  machine itself interleaves every action.
- ClaudeMessage.WholeStreamMessage: usage and stop details, which follow the same rule as the stop reason,
  are left out; the JSON of an event is a pair of given functions of its bytes.
- Payload.Clip: strings are sequences of Unicode scalar values; replacing bytes that are not UTF-8 happens
  before.
- SchemaStrip.StripWeakens: the condition is sufficient; a schema that breaks it can still be weakened by luck.
  Keywords beyond those of `KeywordOf` are annotations, and reading and writing the schema's
  JSON is left to `encoding/json`.
- Resample.FlatStaysFlat: float64 is real arithmetic; that a tap fits its 32 bits is `Resample.TapIsSmall`. The DCT
  after the resize is left out.
- Reactions.CountsAreTotals: false of updates the bot's workers apply in another order;
  `Reactions.RightInAnyOrder` is the exact condition and `Reactions.OutOfOrderOvercounts` an order that
  breaks it. Each update is applied as a whole, under the row's lock.
- AuditLog.Prune: what counts as blank or expired is given; a failed read, write or rename leaves the log as
  it was. The hourly pace of cleanups is left out.
- Picking.Pick: stars, reasons and languages pass through unchanged; the text shown for a runner-up is left
  out.
- Polling.ExactlyOnce: a crash delivers again what was accepted since the last request the server saw;
  `Polling.NeverLost` is what remains.
- SQL, HTTP, clocks, ffmpeg, image decoding, panels, translations, configuration and health: inputs
  of the model, or without a promise of this kind.
