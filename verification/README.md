# FlyByWire in Dafny

A model of the core of the FlyByWire file server, with proofs. Three parts of the server are covered.

**The wire codec** (`Wire.dfy`, `WireForms.dfy`, `WireLaws.dfy`, `WireExact.dfy`, `WireReader.dfy`). `Wire` says as functions what the parser and
the printers compute, with every error path: a format error leaves the rest of the input to be read, an I/O error
ends the connection, and a negative array, blob or column size panics. `WireReader` holds the parser and the
printers as the imperative code they are (a reader that consumes a stream, a table that is filled row by row, a
buffer that is appended to) and proves them against `Wire`. `WireLaws` proves what the format is for: round trips
with anything behind the value, no encoding a prefix of another, and that whatever is read can be printed, in no
more bytes, and read back. `WireExact` gives the exact condition for a round trip. `WireForms` holds the forms and the
examples of the protocol document.

**The session engine** (`SessionModel.dfy` and the other `Session*.dfy`, `ReadLoop.dfy`, `SlotTable.dfy`,
`CopyLoop.dfy`, `Disks.dfy`, and the theorems about uploads, downloads and a stray line feed). `SessionModel` is a
labelled transition system: the reader, the command worker, the writer, any number of stream handlers and the
goroutine that ends the session, joined by the channels of the code with their capacities. One action is one atomic
step of one goroutine; reading into a buffer and serialising a buffer go byte by byte, so that races would show.
Invariants are proved for every step and then, in `SessionRuns`, for every state of every run: any interleaving, any
client input, any behaviour of the command callback. `SessionRouting` and `SessionDispatch` say what becomes of the
values a client sends, whatever bytes it sends them in. `SessionActions` takes runs together with their actions, so
that what goes out can be tied to what the callback did: its return values to the responses (`SessionActions`), the
streams it opens to the files they read, write and copy (`SessionJobs`), and what happens to a handler to the word
with which its stream closes (`SessionReports`). `SessionEndings` says how streams end, `SessionSources` where the
bytes come from that they deliver, `SessionWriting` what the writer gives precedence to, `SessionStops` and
`SessionShutdown` what still happens when a stream is closed and when a session ends, and `SessionWire` what a client sees of all this. `SessionBuffered` proves the converse for the channel that "must be blocking": with any capacity above
zero there is a run that puts wrong bytes on the wire. `ReadLoop`, `SlotTable`, `CopyLoop`, `Upload` and `Download`
hold the loops and records that have a sequential core of their own as methods. `UploadRuns` and `DownloadRuns` are
the end-to-end theorems: what the client's upload loop sends to a live write stream is what ends up under the
stream's target, and what its download loop puts into place is the file the stream was opened on.

**Paths and policies** (`Text.dfy`, `PathCodec.dfy`, `Policies.dfy`, `PolicyStore.dfy`, `PathClean.dfy`,
`Vfs.dfy`). The escaping of path lists, the policy table that has to agree with the map in memory although its
writer changes path lists the map shares, and the resolution of client paths under deny-overrides policies. Where
the code does not keep a promise for all inputs, the theorem says exactly for which inputs it does:

- Path lists survive the table exactly if they are not empty and no path has a plus sign, because decoding reads a
  plus sign as a space and encoding does not escape it (`PathCodec.PathListRoundTrip`).
- After a policy change, memory and table agree exactly if every policy is plain: a name that is not blank, a
  non-empty user list without colons, a non-empty path list without percent signs, colons and plus signs
  (`PolicyStore.InStepIffPlain`). Paths with a colon or a percent sign grow with every rewrite
  (`PolicyStore.RewritesPileUp`).
- A value survives the wire exactly if it is printable: no maps, tags only at the top, no line feeds in text, and a
  table shape that `Table.Add` can rebuild (`WireExact.RoundTripIffPrintable`). The protocol document describes maps
  as an ordinary type; the reader rejects them (`WireLaws.MapsAreRejected`). The model follows the code.
- A client sees exactly what was written to its connection if and only if the responses and error texts are printable
  (`SessionWire.ClientReadsWhatWasWritten`). The server's own answers are not always: to a stray line feed it answers
  with a text that holds that line feed (`StrayLineFeed.AnswerIsMisread`), and a percent sign in a stream tag gets into
  its answer's formatting.
- An upload arrives unless the read deadline passes inside a size line while frames of it are still to come, and
  something is read after that. There the parser takes the deadline for a format error, the reader answers it and reads
  on in the middle of a value, and `UploadInterrupted.InterruptedUploadIsWrong` is a run in which an empty file is
  published. Everywhere else a deadline ends the connection, and a closing null cannot be cut
  (`SessionRouting.NullIsNeverCut`).

Names of modules follow the source files. `requires k.dataCap == 0` in the session theorems fixes the capacity of
`dataOut` to the one the code creates it with.

## Model

| member | source | states |
|---|---|---|
| ByteStrings.AtoiItoa | internal/wire/wire.go:324-338 | a printed 64-bit integer is read back as itself |
| ByteStrings.ItoaShortest | internal/wire/wire.go:419-422 | of all texts that read as an integer (signs, leading zeros) the printed one is shortest |
| Wire.ReadSize | internal/wire/wire.go:324-338 | a size line fails only with a format error, even at the end of the stream; a size that is read fits 64 bits and consumes its line |
| Wire.ReadValue | internal/wire/wire.go:94-136 | every outcome but an I/O error or a panic leaves strictly less input, at every depth |
| Wire.ReadMany | internal/wire/wire.go:164-178 | n values in a row consume at least n bytes, and exactly n are returned |
| WireForms.StringExample | docs/protocol-specs.md:4-9 | a plus sign and text up to a line feed are read as that text, whatever follows |
| WireForms.ErrorExample | docs/protocol-specs.md:69-74 | a minus sign, a code, a space and a message are read as that error, whatever follows |
| WireForms.BlobExample | docs/protocol-specs.md:20-26 | the document's blob of five bytes is read as these bytes, line feeds among them or not, whatever follows |
| WireForms.BooleanExamples | docs/protocol-specs.md:28-34 | the document's two examples are read as true and as false, whatever follows |
| WireForms.IntegerAndNullExamples | docs/protocol-specs.md:36-81 | `:42` is read as 42 and the underscore as null, whatever follows |
| WireForms.ArrayExample | docs/protocol-specs.md:11-18 | an array of two strings is read in their order |
| WireForms.TableExample | docs/protocol-specs.md:54-67 | the example with six cells is read as two rows of three columns |
| WireForms.TagExample | docs/protocol-specs.md:83-91 | the example with a tag is read as a tagged string |
| WireLaws.RoundTrip | internal/wire/wire.go:94-338 | reading print(v) followed by any s gives v and leaves exactly s, for every printable v |
| WireExact.RoundTripIffPrintable | internal/wire/wire.go:94-478 | for all values and whatever follows, the round trip works if and only if the value is printable |
| WireLaws.ReadStable | internal/wire/wire.go:94-136 | a read that succeeds gives the same value on every extension of the input and leaves the extension unread |
| WireLaws.PrefixFree | internal/wire/wire.go:85-136 | no printable value's encoding is a proper prefix of another's |
| WireLaws.TruncationDetected | internal/wire/wire.go:85-136 | no proper prefix of an encoding is read as a value |
| WireLaws.ReadNormalises | internal/wire/wire.go:94-338 | whatever is read from any bytes is printable, and printing it takes no more bytes than were consumed |
| WireLaws.TableSizeShrinks | internal/wire/wire.go:183-205 | a table header is never shorter than the printed header of the same table, nor than that of the table with one row |
| WireLaws.RereadAfterPrinting | internal/wire/wire.go:85-136 | read, print, read again gives the same value and leaves what follows |
| WireLaws.MapsAreRejected | internal/wire/wire.go:101-135 | every printed map is a format error, with its body left in the input |
| WireLaws.BlobLimitHolds | internal/wire/wire.go:299-322 | every blob at any depth of a returned value is within MaxBlobSize |
| WireReader.TableBuilder.Add | internal/wire/wire.go:520-528 | appends a row; the row count starts anew while there are no cells |
| WireReader.TableBuilder.Row | internal/wire/wire.go:530-536 | a row that exists is its slice of the cells, any other is nothing |
| WireReader.Reader.ReadOne | internal/wire/wire.go:94-136 | the imperative reader returns what the specification reads and leaves its rest |
| WireReader.Reader.HandleTable | internal/wire/wire.go:152-181 | the nested row loops fill the table that the specification reads |
| WireReader.Reader.FillTable | internal/wire/wire.go:164-178 | the outer loop, including rows of no cells that consume nothing |
| WireReader.Reader.HandleArray | internal/wire/wire.go:281-297 | the element loop reads the array of the specification |
| WireReader.Reader.NextNonEmptyLine | internal/wire/wire.go:340-352 | skips blank lines to the next line |
| WireReader.Reader.HandleSized | internal/wire/wire.go:114-133 | arrays, blobs and integers after their size line |
| WireReader.Buffer.WriteValue | internal/wire/wire.go:398-478 | the printers append exactly the printed value |
| ReadLoop.HandleReads | internal/session/reader.go:17-63 | the reading loop meets exactly the specified values and format errors, goes on after a deadline inside a size line, ends on a lost connection, a panic or the end of the session, and makes at most one read more than there are bytes |
| ReadLoop.UndisturbedEvents | internal/session/reader.go:27-60 | without deadlines and stops the loop meets what the whole input gives |
| ReadLoop.PrintedValuesArrive | internal/session/reader.go:27-60 | pipelined printed values all arrive, in order, and nothing else |
| ReadLoop.ArriveIffPrintable | internal/session/reader.go:27-60 | a sequence of values arrives as it was sent if and only if all its values are printable |
| ReadLoop.BlobsArriveWithinLimit | internal/session/reader.go:23 | every blob that the loop meets, with any deadlines and stops, is within the limit |
| SessionModel.FreeSlot | internal/session/streams.go:209-217 | the least free slot, or the number of slots if none is free |
| SessionModel.Route | internal/session/reader.go:65-114 | a blob or null whose tag is the id of a live write stream goes to that stream, any other non-empty array that starts with a string is passed on as a command, a refused frame is answered with `ARG` under the tag it came with, and everything else with `PROTO` |
| SlotTable.Slots.NextStreamId | internal/session/streams.go:209-217 | the loop finds the least free id, and refuses if and only if the counter is at 16 |
| SlotTable.Slots.Open | internal/session/streams.go:73-93 | takes the least free slot and counts it, refuses without a change when all are taken, and agrees with the transition system |
| SlotTable.Slots.ReleaseStream | internal/session/streams.go:189-194 | frees one slot and keeps the counter equal to the number of taken slots |
| SlotTable.Slots.GetStream | internal/session/streams.go:196-207 | looks an id up, with ids outside the table not found |
| SessionSlots.RefusedIffFull | internal/session/streams.go:209-217 | no slot is free if and only if 16 are occupied |
| SessionSlots.TablePreserved | internal/session/streams.go:189-217 | every step keeps the slot invariant: the counter counts the occupied slots, and each slot belongs to one unreleased handler |
| SessionSlots.StreamsEvolve | internal/session/streams.go:219-222 | no step changes an existing stream's id or job, and its life only goes forward |
| SessionRuns.SlotsAlwaysFit | internal/session/streams.go:73-93 | in every run the slot invariant holds, the counter stays within 0..16, and opening is refused if and only if it is 16 |
| SessionBuffers.ReadActKeeps | internal/session/streams.go:235-261 | a handler's own step (reading byte by byte, end of file, error) keeps the buffer invariant while the writer may be serialising |
| SessionBuffers.BuffersPreserved | internal/session/streams.go:229-261 | every step of any goroutine keeps the double-buffer invariant of every stream |
| SessionRuns.ReadStreamsDeliverFiles | internal/session/streams.go:229-261 | in every run the blobs of a read stream are a prefix of its file, all of it once the null is out, and the buffer being serialised is never the one being filled |
| SessionBuffered.UnbufferedIsNeeded | internal/session/session.go:29 | read streams deliver their files in all runs if and only if `dataOut` is unbuffered |
| SessionBuffered.HeldBufferIsRefilled | internal/session/streams.go:244-260 | with a buffered channel, a run that refills the buffer the writer holds |
| SessionBuffered.WrongBytesGoOut | internal/session/streams.go:244-260 | the same run continued to a wrong blob on the wire |
| SessionReplies.RepliesPreserved | internal/session/reader.go:65-118 | every step conserves commands and responses: written, held, queued and owed, in order, are one per item the reader produced |
| SessionReplies.NoSendAfterClose | internal/session/worker.go:23-29 | once `cmdOut` is closed the worker neither sends on it nor closes it again |
| SessionReplies.DrainWritesEverything | internal/session/writer.go:42-62 | a writer that ends by draining has written every response |
| SessionRuns.ResponsesInOrder | internal/session/writer.go:35-66 | in every run the j-th response written answers the j-th item, nothing follows the answer to the first QUIT, and after a drain all answers up to its OK are out |
| SessionRuns.CallbackStopsAtQuit | internal/session/worker.go:23-33 | whenever the callback runs, it has the next unanswered command, and no QUIT has come before it |
| SessionRuns.QuitInAnyCase | internal/session/worker.go:38-40 | an ASCII name is taken for QUIT if and only if it is QUIT in upper case |
| SessionRuns.QuitEndsResponses | internal/session/worker.go:26-29 | whatever its case, QUIT is answered by OK, and neither an answer nor a response on the wire comes after it |
| SessionActions.ResponsesAreReturned | internal/session/worker.go:23-33 | the j-th response on the wire, if it is for a command other than QUIT, is what the callback returned in the step that ended its call for that very command; a response of the reader's is passed on as it is |
| SessionWriting.ResponseGoesFirst | internal/session/writer.go:42-51 | a response that waits when the writer looks for one is written before any stream frame, whatever the handlers offer |
| SessionShutdown.EndIsRequested | internal/session/session.go:35-38 | in every run a reader or writer that has ended has asked for the session to end, and a worker that has ended has closed `cmdOut`, unless the session was over; no more than the channel's three requests are ever waiting |
| SessionShutdown.LittleAfterDone | internal/session/session.go:36 | once `done` is closed at most one more value is written, one more command answered and one more item produced |
| SessionTags.TurnsConcatenate | internal/session/streams.go:189-194 | frames of streams that take turns under an id are the concatenation of their outputs |
| SessionTags.TagsPreserved | internal/session/streams.go:219-222 | every step keeps senders under one id in the order of their opening |
| SessionRuns.StreamIdsNeverMix | internal/session/streams.go:189-377 | in every run the frames under an id are the outputs of its streams one after the other in opening order: blobs of at most 32 KiB and a closing null or error for a read, at most one null or error for a copy, at most one error for a write |
| SessionFiles.LocalKeepsFiles | internal/session/streams.go:264-417 | a handler's step keeps the temporary file equal to the frames taken or to a prefix of the source, removes it on cancel, timeout, session end and write errors, and changes files only by publishing |
| SessionFiles.FilesPreserved | internal/session/streams.go:264-417 | every step keeps that for all streams, and files change only by the callback or by one publication |
| SessionRuns.TargetsChangeAtomically | internal/session/streams.go:406-417 | between two states of a run a file changes only by the callback, or to everything sent before the end frame, or to the whole source |
| SessionEndings.PublishedByStep | internal/session/streams.go:406-417 | a stream that has published has changed its target to the whole, in one step of the run |
| SessionEndings.SilentOnesWereStopped | internal/session/streams.go:264-422 | a handler that has returned with neither a publication nor a report returned in a step in which it was cancelled or the session was over |
| SessionEndings.HandlersCleanUp | internal/session/streams.go:264-422 | in every run a returned write handler has published all it was sent if and only if it took the end frame and reports no error, and has removed its temporary file if it took no end frame; a copy handler has published its whole source if and only if it reports success, and has removed the file if it was stopped; whatever was published was put under the target by one step of the run, where it still is if nobody changed that file since; and a stream of any kind that closed with no value and published nothing was stopped by a cancel or the session's end |
| SessionReports.VerdictsAreReported | internal/session/streams.go:244-417 | every failure of a handler (reading, opening, creating, copying, writing, renaming, the time limit) and every success of a read or copy is the value that closes its stream, with its code and wording |
| SessionReports.ReportsHaveReasons | internal/session/streams.go:244-417 | the value that closes a stream was the outcome of one of its handler's own steps |
| SessionReports.SilentOnesWereClosed | internal/session/streams.go:436-457 | a stream that ends with neither a publication nor a report was cancelled by a CLOSE of that stream, or the session was ended, at an earlier step |
| SessionFiles.ClosedIsQuiet | internal/session/streams.go:264-266 | a handler whose `done` is closed offers nothing and has no step left that touches files |
| SessionRuns.CloseIsABarrier | internal/session/streams.go:171-181 | from the step in which closing an id ends, the youngest stream with that id sends no frame and touches neither target nor temporary file, in every continuation |
| SessionStops.StoppedGoesNoFurther | internal/session/streams.go:171-181 | from the step on in which a stream is closed or the session ends, a read stream sends no byte it had not begun to read, a write stream takes at most one more frame, and a copy stream copies at most one more chunk |
| SessionSlots.ClosingPreserved | internal/session/streams.go:171-181 | closing waits for the stream that the table gave for the id, and no other gets the id meanwhile |
| SessionRuns.JobsAreFixed | internal/session/streams.go:83-91 | a stream keeps its id, file and target throughout a run |
| SessionSources.SourcesAreFiles | internal/session/streams.go:61-94 | what a read stream delivers is what its file held when the stream was opened, and what a copy publishes is what its source held at some moment of the session |
| SessionJobs.OpenReadDelivers | internal/session/streams.go:61-94 | the stream that a call opens for reading has the least free id and delivers a prefix of what the path of that call held at that moment, all of it if it closes with a null |
| SessionJobs.OpenWritePublishes | internal/session/streams.go:96-145 | what the stream that a call opens for writing publishes is put under the path of that call in one step, and is still there if nobody changed the file since |
| SessionJobs.OpenCopyCopies | internal/session/streams.go:147-169 | when the stream that a call opens for copying closes with a null, one step after the call has set the second path to what the first path held at some moment since the call |
| SessionWire.ClientReadsWhatWasWritten | internal/session/writer.go:35-66 | a client parsing the connection sees exactly the responses and tagged frames that were written, if and only if responses and error texts are printable |
| StrayLineFeed.AnswerIsReadIffPrintable | internal/session/reader.go:38-42 | a run that answers a stray line feed, whose answer is read as written if and only if its wording is printable |
| StrayLineFeed.AnswerIsMisread | internal/wire/wire.go:135 | the wording holds the line feed itself, so no client sees what was written |
| CopyLoop.CopyChunks | internal/session/streams.go:341-376 | the copy loop keeps a prefix of the source and ends undisturbed after exactly n / 32768 + 1 iterations |
| CopyLoop.CopyTo | internal/session/streams.go:332-376 | the destination becomes the whole source if and only if nothing disturbs the loop and the rename works, and is untouched otherwise |
| CopyLoop.UndisturbedCopyCompletes | internal/session/streams.go:341-376 | the transition system's copy steps, undisturbed, have the whole source after as many chunks as the loop makes iterations |
| Upload.SendFile | cmd/fly/fly-cp.go:239-269 | the client's loop sends, in blobs of 1 to 32 KiB, exactly the file's bytes and then a null, whatever the reads return; if a read or write fails it has sent a prefix of that, and the null only begins after the whole file |
| SessionRouting.ReadsNextValue | internal/session/reader.go:34-36 | the server's reader gets the next value the client sent and leaves the rest |
| SessionRouting.LiveStreamIsFound | internal/session/streams.go:196-207 | an id leads to a write stream exactly while the stream has that id and has not released it |
| SessionRouting.FramesReachTheirStream | internal/session/reader.go:79-114 | however commands and frames are interleaved, a live write stream is sent the sub-sequence of frames under its id, in order, in every run in which nothing is read after a deadline has cut a size line while such frames are still to come |
| SessionRouting.AllFramesAreSent | internal/session/reader.go:79-114 | once all values have been read, a live stream has been sent all its frames |
| SessionDispatch.EveryValueIsHandled | internal/session/reader.go:27-118 | whatever bytes a client sends, in every run without such a deadline each value and each format error among them that was handled became an item for the worker or a frame of a write stream, in order, and there are no other items or frames |
| SessionDispatch.CommandsReachWorker | internal/session/reader.go:65-77 | the worker gets exactly the client's commands, in order, as far as the reader has come |
| SessionDispatch.PipelinedCommandsAreAnswered | internal/session/worker.go:13-34 | a client that pipelines commands gets its j-th response for its j-th command |
| SessionActions.PipelinedCommandsGetTheirReturns | internal/session/worker.go:31-32 | and that response is what the callback returned for that command, or OK for QUIT |
| UploadRuns.UploadArrives | internal/session/streams.go:298-309 | in those runs, whatever the schedule and whatever else the client sends in between: a returned stream that took the end frame and reports no error has put the client's bytes under its target in one step, for the empty file too, and nothing else is ever published; one that took no end frame and reports nothing was cancelled or ended with the session, and has removed its temporary file |
| UploadRuns.SentFileArrives | cmd/fly/fly-cp.go:239-269 | the two halves joined: the file that the client's loop sent is the file that is put in place |
| SessionRouting.NullIsNeverCut | internal/wire/wire.go:260-279 | a closing null has no size line, so no deadline can be taken for a format error in it |
| UploadInterrupted.InterruptedUploadIsWrong | internal/session/reader.go:34-42 | a run in which a deadline does cut a chunk's size line, and other bytes are published than the client sent |
| UploadInterrupted.HeadIsCut | internal/wire/wire.go:114-123 | what had arrived when the deadline passed is a format error after which reading goes on |
| Download.DownloadFile | cmd/fly/fly-cp.go:165-206 | the client's loop renames into place exactly the blobs it collected up to the null, and leaves the target alone on every failure |
| DownloadRuns.EarlierStreamsAreSilent | internal/session/streams.go:189-222 | of streams that were done at some moment of a run, at most the message the writer held then is still written |
| DownloadRuns.DownloadIsTheFile | cmd/fly/fly-cp.go:165-197 | end to end: whatever else goes on in the session, a client that gets to the end of its download loop has collected the file as it was when the stream was opened on it |
| Text.SplitUndoesJoin | internal/db/acp.go:235-240 | splitting undoes joining if and only if the list is not empty and no part has the separator |
| Text.TrimIgnoresSpaces | internal/vfs/vfs.go:46 | a white-space character in front of a text or behind it does not change what trimming leaves |
| Text.TrimmedHasNoSpaces | internal/vfs/vfs.go:46 | what trimming leaves has white space at neither end, and a text that has none is left alone |
| PathCodec.PathRoundTrip | internal/db/acp.go:227-245 | decoding an escaped path gives it back if and only if it has no plus sign |
| PathCodec.OrderOfPassesMatters | internal/db/acp.go:229-230 | with the passes the other way round decoding gives a path back if and only if it has neither a colon nor a plus sign |
| PathCodec.DecodeEncoded | internal/db/acp.go:208-253 | what comes back for every list: plus signs as spaces, and an empty list as one empty path |
| PathCodec.PathListRoundTrip | internal/db/acp.go:208-253 | the column gives the list back if and only if it is not empty and has no plus signs |
| Policies.ParseWritten | internal/db/acp.go:138-166 | a written record is read as the policy after a round trip, or rejected if its name is blank |
| Policies.NoUsersReadAsStar | internal/db/acp.go:192-199 | a policy with no users applies to nobody, and once read back from the table to the user `*` alone |
| Policies.MatchesIffApplies | internal/db/acp.go:53-77 | a policy matches if and only if the action is its action, the path begins with one of its paths, and the user is one of its users |
| Policies.LoadWritten | internal/db/acp.go:126-167 | a written table is read as all policies after a round trip, whatever order the map was walked in; it is rejected if and only if a name is blank |
| Policies.AgreementIffPlain | internal/db/acp.go:191-212 | after a rewrite the table reads as what is left in memory if and only if every policy was plain |
| PolicyStore.InStepIffPlain | internal/db/acp.go:34-98 | after a put or delete that rewrote the table, memory and table agree if and only if all policies written were plain |
| PolicyStore.TableHoldsMemory | internal/db/acp.go:34-233 | over any sequence of puts of plain policies, deletes and failing rewrites, the table reads as memory until the first error, and from then on as memory at the last successful rewrite |
| PolicyStore.RewritesPileUp | internal/db/acp.go:227-233 | a path with a colon or percent sign grows with every rewrite |
| PolicyStore.RewriteKeepsMatches | internal/db/acp.go:59-67 | a rewrite leaves what a path matches alone if and only if the path has no percent sign and no colon |
| PolicyStore.SanitizePaths | internal/db/acp.go:227-233 | escapes every path of the shared list in place |
| PolicyStore.WriteRecord | internal/db/acp.go:194-209 | the record is of the policy as it was; the policy in memory is left escaped |
| PolicyStore.Handle.Records | internal/db/acp.go:191-212 | one record per policy in the order of the walk, and every list in memory escaped once |
| PolicyStore.Handle.WriteAccessPolicies | internal/db/acp.go:170-225 | the sticky error, the table replaced as a whole or not at all, and memory escaped even when a later stage fails |
| PolicyStore.Handle.PutAccessPolicy | internal/db/acp.go:34-39 | the policy is in memory afterwards even under an earlier error, and the table is rewritten |
| PolicyStore.Handle.DeleteAccessPolicy | internal/db/acp.go:89-98 | a missing name is an error that changes nothing, otherwise the policy is gone and the table rewritten |
| PolicyStore.Handle.ReadAccessPolicies | internal/db/acp.go:100-168 | an empty handle is filled with what the table stands for; the table or its header that cannot be read, the first row that cannot be read and the first corrupted record each give their error |
| PolicyStore.Handle.GetPolicies | internal/db/acp.go:41-77 | every listed policy is the stored one of its name, is for the action, has the user in its list and has a path that the asked path begins with; every stored policy that has all three is listed; none is listed twice |
| PathClean.CleanIsIdempotent | internal/vfs/vfs.go:39 | cleaning a cleaned path changes nothing |
| PathClean.DotsRemoveName | internal/vfs/vfs.go:39 | two dots remove the name before them, wherever it stands |
| PathClean.DotsStopAtRoot | internal/vfs/vfs.go:39 | two dots at the root of the file system do nothing |
| PathClean.DotsLeadOut | internal/vfs/vfs.go:39 | a path that is not rooted keeps the dots it starts with |
| PathClean.EmptyAndDotAreSkipped | internal/vfs/vfs.go:39 | doubled slashes and single dots are left out |
| Vfs.UserDotsRemoveName | internal/vfs/vfs.go:38-42 | in a path that a user names, two dots take back the name before them before anything is checked |
| Vfs.UserDotsRemoveFirstName | internal/vfs/vfs.go:38-42 | so they do for the first name of a user who has a directory |
| Vfs.UserDotsStopAtRoot | internal/vfs/vfs.go:38-42 | for a user whose directory is the root, two dots in front change nothing |
| Vfs.InvalidIffDots | internal/vfs/vfs.go:42-51 | without a user, a path is invalid if and only if one of its segments is dots, with or without white space around them |
| Vfs.SpacedDotsAreDots | internal/vfs/vfs.go:45-50 | what counts as dots: one or two dots and nothing else, with any white space around them |
| Vfs.ResolvesExactly | internal/vfs/vfs.go:35-65 | for all inputs which error resolving gives, and otherwise that the path is the root's segments followed by the names of the cleaned path |
| Vfs.StaysBelowRoot | internal/vfs/vfs.go:57-64 | a resolved path is clean, reads as the root followed by proper names (no dots, even between spaces), and never starts with the reserved directory |
| Vfs.TablesAreOutOfReach | internal/vfs/vfs.go:57-62 | no path, user or policy resolves to a file in the directory `.fly` below the root, where the tables are kept |
| Vfs.ReservedIff | internal/vfs/vfs.go:57-62 | the text-prefix test refuses a path if and only if its first name starts with `.fly` (never for an empty root directory) |
| Vfs.UserPathIsNormal | internal/vfs/vfs.go:38-51 | for a user with a rooted path the checked path is in normal form, and only a name that is dots between spaces is invalid |
| Vfs.AuthorizesIffPermitted | internal/vfs/vfs.go:67-91 | authorised if and only if administrator, or some stored policy is for the action, names the user and begins the path, and none of those denies |
| Vfs.StrangersAreDenied | internal/vfs/vfs.go:76-81 | a user in no policy's list who is no administrator resolves nothing: the path is invalid or access is denied |
| Vfs.OneDenialIsEnough | internal/vfs/vfs.go:83-88 | one applying policy that denies is enough, whatever others allow |
| Vfs.ResolvesOnlyIfPermitted | internal/vfs/vfs.go:53-55 | resolving succeeds for others only under such policies, is denied exactly without them, and does not depend on the order of the listing |

## Left out

- Liveness: handlers blocked on `dataOut`, the worker on a full `cmdOut` and the reader on a dead stream's queue can block for ever; only safety is stated. The wait group and the closing of the connection that follow the end of a session are not modelled.
- Clocks: the read deadline and the write stream's watchdog are events that may happen at any time, the deadline inside a size line as the format error that the parser makes of it.
- A panic on a negative size ends the process, so the session has no reader step for it; `ReadLoop` shows it as the end of the loop.
- What a failing write of the server leaves on the connection: a value counts as written when it is written completely.
- A command callback that returns nil, which the writer would take for the closed channel.
- The goroutines of the session are steps of a transition system and not methods, because they interleave. The sequential cores with a life of their own are methods as well: the slot table, the copy loop, the reading loop and the client's upload.
- SessionRuns.ReadStreamsDeliverFiles: a file being read keeps the bytes it had when it was opened; programs that write to it in place at the same time are not modelled.
- UploadRuns.UploadArrives: a statement of safety, about streams that have returned; that a stream returns is not stated. Runs that read on after a deadline has cut a size line are excluded, with `UploadInterrupted.InterruptedUploadIsWrong` as the reason.
- DownloadRuns.DownloadIsTheFile: assumes that the stream's first frame comes after its id, which the server does not ensure, that the id is not given away again meanwhile, that no response of the callback is itself a tagged blob or null, and that the responses and error texts written from the start of the download on are printable.
- PolicyStore.Handle.PutAccessPolicy: the path list put into the map belongs to no other policy, as for the lists the server makes from a command.
- Policies.LoadWritten: the CSV library is taken as handing back the fields it was given.
- Wording of error messages: a parameter of the step that makes the message. `Sprintf` with no arguments is a parameter of the codec. The theorems about exact round trips assume that it adds no line feed; normalisation also assumes that it leaves text without percent signs alone and never turns text with a percent sign into text without one.
- The file checks before a stream is opened (missing folders, irregular files), and the temporary file that a refused write stream leaves behind.
- The file-server commands over these cores, which test arguments and permissions; the copy command's own loss of the refusal to open a stream is above the layer modelled here.
- The user table, which is persisted like the policies but with simpler fields; passwords, tokens, TLS and known hosts.
- Decoding of maps, which the reader does not implement.
- Limits of memory: allocating a very large array, blob or table succeeds.
