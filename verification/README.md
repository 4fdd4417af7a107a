# The P-touch batch driver, its wire, its device queue and its PNG preflight, verified

These Dafny modules model how the server drives a Brother PT-2730 or PT-P710BT: which bytes its raster callbacks
put on an append-only wire, what those bytes make the printer do, when the run state of a queue says output is
uncertain, whose turn it is at the device, and how a PNG becomes a page. The main results hold for every sequence
of jobs, pages, cuts, polls, cancellations and status replies, with every device write failing after any prefix.

## How the pieces fit

`Bytes` holds shared facts. `Protocol` has the command builders, writing into arrays, and the byte string each
stands for. `Decoder` is the capture decoder: PackBits rows (section 9 of TIFF Revision 6.0), command splitting and
the per-model checks. `Tables` and `Raster` are the tape geometry and the packing of a window of a scanline into a
128-dot head row.

`Stream` writes down the command list a finished batch or release should be, and an abstract tape that obeys the
cut rules; `Headers` spells out the bytes of these lists and reads the tape widths off their page headers.
`Capture` shows those lists are accepted captures, and `Refusals` which captures are not. `Status` and `Device` are
the status exchange over a `World`, a finite script of answers to every question put to the outside (was the job
canceled, how much of this write arrived, what does this read deliver, has the deadline passed). What a write
leaves and what a read gives are functions of the script; when it ends, every question gets the answer that stops
the asker.

`Runs` is the state machine: the run state, the batch record, and for each callback the relation between the state
before and after. Its status readings are exchanges: each puts exactly its request on the wire and its reads into
what was heard, and its reading is what the first reply in those reads says. `Writes` and `Driver` are the
callbacks themselves, as methods that update a queue object, a batch object and a staged page buffer; each ensures
its `Runs` step, and that, unless the world got in the way or the printer reported a fault, it succeeds exactly
when the source's guards allow. `Safety` proves the invariant of all steps. `Client` reads off the callbacks alone
what was asked, and `Results` states the promises over whole runs: what is page output, what follows a failure or a
release, which tape a job is printed on. `LiveWire` treats the whole wire, status requests included: when it is a
stream of commands, and what these print; `WireTapes` follows each page header on it back to the reply that named
its width. `Session` makes any calls on a queue, one after another, and shows that they are a run.

`Turns` is the locked device queue of the patched PAPPL as a state machine; `DeviceQueue` is the printer object
with its linked list of waiting cuts, each method one locked section. `Server` puts queue and driver together: a
job's callbacks come while it owns the printer, a cut runs while it has the device, and the records on the tape
come in the order of admission. `Cutter` and `Finishing` are the cut policies and their choice by a job's finishing
attributes. `Png` is label length and the in-place preflight.

## What is false of the code

Page output is a prefix of an accepted capture on every run, and nothing follows uncertain output. The whole wire
of a live transport is not always a stream of commands: a status request that is cut after its first or second byte
is not treated as uncertain output (`src/driver.c:128-132`, with `src/driver.c:767-771` and
`src/driver.c:903-907`), so the next write lands inside it. `Session.TornRequestHappens` makes two idle polls on a
queue over such a device.

`LiveWire.WireIsCommandsUnlessTorn` shows it is the only way: the wire is whole commands, the last perhaps cut
short, if and only if nothing is written after such a request. `LiveWire.CallbackOnWire` says the same before each
callback: while no request on the wire is cut, the callback leaves a stream of commands whatever happens in it;
once one is cut, exactly the callbacks that write nothing do. Under the same condition, and only then, the printer
has received one list of commands, and `LiveWire.PrintedAsAsked` shows that this list prints what was asked. What
it received before a cut request still prints nothing twice (`LiveWire.NothingPrintedTwice`). The project's
server-architecture requirement "Conservative output recovery" has every ambiguous transfer block later output;
here the model follows the code.

Waiting cuts do not always get their turn without help: a job held before a cut stays active and keeps the cut
waiting, and every job behind it. `Turns.HeldJobBlocks` is such a run, `Turns.SomeoneCanMove` shows it is the only
way (at a live idle printer nobody can move if and only if all jobs before the head are held, with no thread
already on the way), and `Turns.OnHoldUntilLetGo` that nothing ends it but letting a held job go, deletion or
shutdown. The design says as much: earlier held jobs delay a cut.

## Assumptions

Of PAPPL: rows 0 to H-1 of a page are delivered once and in order before the page ends, under one header, from
scanlines as wide as the page; ready media that is accepted is stored; job ids are handed out in order and jobs
join the active list in one locked step (creating a job is PAPPL's own code, not the patch's, and so are holding
it, releasing it and the thread that sets out to print it); a job starts once per turn at the printer, not while
anybody else uses the device, and gives the printer up only before its start callback or after its end; a job that
is neither printing nor streaming nor still being received leaves the active list when canceled; after a device is
opened for status it is closed again. Callbacks are atomic but for their writes, reads and questions. Of the
devices: a failed write leaves a prefix of its bytes.

## Model

| member | source | states |
|---|---|---|
| Protocol.Le32RoundTrip | src/protocol.c:44-54 | the four row-count bytes read back, least significant first, as the 32-bit count |
| Protocol.CmdInvalidate | src/protocol.c:5-9 | writes exactly 100 one-byte no-op commands at the offset and changes nothing else |
| Protocol.CmdInit | src/protocol.c:11-15 | writes exactly the initialization command at the offset and nothing else |
| Protocol.CmdRasterStart | src/protocol.c:17-23 | writes exactly the raster-mode command of the model at the offset and nothing else |
| Protocol.CmdFormFeed | src/protocol.c:25-29 | writes exactly the print-and-hold command at the offset and nothing else |
| Protocol.CmdEject | src/protocol.c:31-35 | writes exactly the print-and-eject command at the offset and nothing else |
| Protocol.CmdPrintInfo | src/protocol.c:37-42 | writes exactly the short page header for the tape at the offset and nothing else |
| Protocol.CmdPrintInfoExt | src/protocol.c:44-54 | writes exactly the long page header with tape, 32-bit row count and page indication at the offset and nothing else |
| Protocol.CmdCompression | src/protocol.c:56-60 | writes exactly the compression selection at the offset and nothing else |
| Protocol.CmdAutoStatus | src/protocol.c:62-66 | writes exactly the notification switch at the offset and nothing else |
| Protocol.CmdSetMode | src/protocol.c:68-72 | writes exactly the mode flags command at the offset and nothing else |
| Protocol.CmdSetAdvanced | src/protocol.c:74-78 | writes exactly the advanced flags command at the offset and nothing else |
| Protocol.CmdStatusRequest | src/protocol.c:80-84 | writes exactly the status request at the offset and nothing else |
| Protocol.CmdMargin | src/protocol.c:86-92 | writes exactly the feed margin, low byte first, at the offset and nothing else |
| Protocol.CmdSendRaster | src/protocol.c:94-101 | writes exactly one raw row of any length behind its header, the size byte truncated, and nothing else |
| Protocol.CmdSendRasterPackBits | src/protocol.c:103-111 | writes exactly one row of any length as a single literal PackBits run, both size bytes truncated, and nothing else |
| Protocol.SizesTell | src/protocol.c:94-111 | the size bytes are true exactly for rows below 256 bytes raw and 1 to 254 packed, so for the head's 16 |
| Protocol.CmdBlankContinuation | src/protocol.c:113-126 | nine builders at consecutive offsets lay down exactly the 57 bytes of the release's command list |
| Decoder.UnpackRow | scripts/smoke-image.py:24-46 | the offset loop computes the PackBits meaning of a row, refusing truncated, overlong and short ones |
| Decoder.RunsDecode | scripts/smoke-image.py:24-46 | any list of PackBits runs, literal, repeated or empty, decodes to the bytes it means iff these are 16, and is refused otherwise |
| Decoder.LiteralRow | src/protocol.c:103-111 | the driver's one-run row decodes to the row it carries |
| Decoder.Decode | scripts/smoke-image.py:49-115 | the decoding loop accepts a capture exactly when every command checks in turn and no page is left open |
| Decoder.LexTruncated | scripts/smoke-image.py:83-84 | no proper prefix of a command is taken for a whole command |
| Decoder.SplitsBack | scripts/smoke-image.py:61-85 | any list of builder commands, whatever bytes its rows hold, splits back into itself |
| Decoder.EncodeInjective | src/protocol.c:5-111 | different commands have different bytes |
| Decoder.OneReading | scripts/smoke-image.py:61-113 | a byte string is the output of at most one list of commands |
| Decoder.WritesBack | scripts/smoke-image.py:85-113 | writing out what was split gives back the capture |
| Decoder.CutCommandRefused | scripts/smoke-image.py:83-84 | a capture that stops inside a command is refused |
| Decoder.DecodedSplit | scripts/smoke-image.py:49-115 | decoding can stop after any accepted prefix and go on from the variables it left |
| Tables.OnlySupportedTapes | src/tables.c:62-92 | exactly 6, 9, 12, 18 and 24 mm have a geometry; 36 mm does not fit the head |
| Tables.WindowInPage | src/tables.c:72-92 | the window is never empty, lies inside the nominal page and on the head |
| Tables.PublishedMarginsAreTheWindow | src/driver.c:496-501 | the published margins convert back to exactly the tape's window and pass the page check |
| Tables.AtMostOneTape | src/driver.c:404-411 | no page width and size match two tapes |
| Tables.WindowInScanline | src/driver.c:404-411 | every matching page is wide enough for its window's bits to be read |
| Tables.MatchIsTheTape | src/driver.c:421-438 | the first match in the table is the only one |
| Tables.WidthsThatMatch | src/driver.c:404-411 | on numbers: the pages a tape takes are its nominal width, and for 12 mm also 84 dots at a size of 1199 |
| Tables.MarginsThatFit | src/driver.c:496-501 | on numbers, for each tape: margins pass iff something is left to print and both its ends are in the window |
| Raster.PackWindow | src/raster.c:5-17 | head dot p is set iff p is in the centred window and its input bit is set |
| Raster.WindowRecovered | src/raster.c:5-17 | two scanlines pack to the same row iff they agree inside the window |
| Raster.OnlyOneRowShows | src/raster.c:5-17 | the 16 bytes are determined by what their dots show |
| Stream.TapeShowsWhatWasAsked | src/cutter.h:8-23 | the commands of any finished batches and releases leave exactly the strips asked for: joined iff in one batch without cuts between, held iff the end is not cut |
| Stream.AskedKeepsEveryLabel | src/cutter.c:3-14 | the strips hold every label once and in order under every policy |
| Stream.PrefixPrintsPrefix | src/driver.c:381-394 | stopping a command list anywhere prints a prefix of its labels |
| Stream.BatchCloses | src/driver.c:381-394 | N labels are closed by N terminators: form feeds, but one eject for the last when the end is cut |
| Stream.InitializedOnce | src/driver.c:641-646 | a batch initializes exactly once, in its lead, unless it continues a run |
| Stream.BlankOnTape | src/protocol.c:113-126 | a release cuts what is held free and leaves one white row held |
| Headers.SetupBytes | src/driver.c:522-533 | the bytes that set up a PT-2730 page: initialization and raster mode before a first page that does not continue a run, a header whose sixth byte is the tape, automatic cutting on for the first page and for cuts between labels, no setting that cuts the end |
| Headers.StagedSetupBytes | src/driver.c:641-656 | the bytes that set up a staged PT-P710BT page: 100 zeros and initialization before a first page that does not continue a run, a header with tape, exact row count and page indication, the cut setting, 14 dots of feed and compression |
| Headers.RowBytes | src/protocol.c:94-111 | a row is 3 bytes and its 16 raw on the PT-2730, 4 bytes and its 16 on the PT-P710BT |
| Headers.TerminatorBytes | src/driver.c:381-391 | a label is closed by a form feed, and the last one of a job that cuts its end by 1b 69 4b 08 1a |
| Headers.ReleaseBytes | src/protocol.c:113-126 | the 57 bytes of a release, which continue the run with a one-row white page on the held tape |
| Headers.HeadersCarryTheTape | src/driver.c:530-533 | the page headers of a job or release, on both models, are one for each label, and each carries the tape |
| Headers.StreamsCarryTheTapes | src/driver.c:649-651 | so do those of any records, in order |
| Capture.AcceptedListDecodes | scripts/smoke-image.py:49-115 | accepted commands decode from their bytes to the state they lead to |
| Capture.CaptureAccepted | scripts/smoke-image.py:49-115 | every sequence of finished batches and releases, on any supported tapes, is an accepted capture |
| Refusals.WrongRowCountRefused | scripts/smoke-image.py:109-110 | on the bytes of any PT-P710BT capture: refused when a page ends with another number of rows than its header declares, whatever comes before and after |
| Refusals.OpenPageRefused | scripts/smoke-image.py:114-114 | refused when it ends within a page that has rows |
| Refusals.WrongPageHeaderRefused | scripts/smoke-image.py:99-103 | refused when a header names a tape that is not loaded, or does not indicate 0 exactly on the first page after an initialization |
| Refusals.WrongSettingRefused | scripts/smoke-image.py:88-98 | refused wherever it sets another raster mode, notification, compression or feed margin, or has a PT-2730 header |
| Status.SameStreamSameVerdict | src/driver.c:577-613 | the ready or fault verdict depends on the delivered bytes, not on how reads cut them up |
| Status.SameStreamSameReply | src/driver.c:100-148 | so does the status snapshot of an exchange |
| Status.VerdictIsSaid | src/driver.c:592-609 | on the bytes: ready iff some 32-byte block is 80 20 with bytes 8 and 9 zero, byte 18 six and bytes 19 to 21 zero, and every block before it is 80 20 with bytes 8 and 9 zero and is not such a block; a fault iff, after such blocks, one is not 80 20 or has byte 8 or 9 set |
| Status.ReplyIsFound | src/driver.c:123-147 | the reply is the first aligned 32-byte block whose byte 18 is zero |
| Device.Drain | src/driver.c:109-121 | draining ends at the first empty read, a failed read, or the end of the shared budget |
| Device.Collect | src/driver.c:123-147 | the result is the first aligned reply packet of the delivered bytes, notifications before it dropped, within the budget left |
| Device.ReadLiveTape | src/driver.c:100-148 | one exchange, answered by the script: at most ten reads, and exactly ten when none fails and no reply comes; the three request bytes, written only after an empty read; on the bytes read after them: a status is reported iff the first block with byte 18 zero starts 80 20, its tape is byte 10, its error is zero iff bytes 8 and 9 are, and without a block the count is what is left of one; nothing at all without a status path |
| Device.AwaitReady | src/driver.c:577-613 | on a live device it succeeds iff the bytes it read say ready, and fails on a fault they say, a failed read, a cancellation or the deadline; no read follows a cancellation or a passed deadline; writes nothing; a sink without status is ready |
| Device.World.Write | src/driver.c:52-60 | a confirmed write arrives whole; a failed one leaves the prefix of its bytes that the script lets through |
| Writes.JobWrite | src/driver.c:76-81 | one write of exactly one command, whole when confirmed, otherwise any prefix, never repeated |
| Writes.SendLead | src/driver.c:526-529 | opens a run with invalidation and initialization exactly when it does not continue one |
| Writes.SendSetup | src/driver.c:641-656 | the chain of setup writes is the page's setup, whose bytes the contract spells out for both models, or stops at the first failure with a prefix of it on the wire |
| Runs.ObservationsOnlyClose | src/driver.c:303-313 | a healthy open run closes exactly when a clean reading reports no tape or another width; any other run stays as it is |
| Runs.StagedPageIsTheStreamedPage | src/driver.c:555-563 | a staged page that passed its end checks, with the feed put back as blank rows, is row for row the streamed page, and its declared row count is the rows sent and positive |
| Runs.StartableOnNumbers | src/driver.c:478-506 | on numbers: a page may start iff its job has not failed and no page is open, it is 180 dpi with one bit per dot and 35 to 2125 rows, its width is 42, 63, 85, 127 or 170 dots, or 84 at a size of 11.99 mm, its margins are in the window, its tape is the job's unless it is the first label, and a first label finds the run certain |
| Driver.PageOptions.ResolveMargins | src/driver.c:421-438 | finds the page's one tape; each margin the job gave is unchanged and each other one is the number published for the tape; the image box is the page less the whole dots of its margins, and under the published margins the tape's window |
| Driver.Queue.PublishTape | src/driver.c:767-798 | confirms exactly a reading with a status, no error, a 6, 9, 12, 18 or 24 mm tape and media that are accepted, which becomes the ready tape; closes a certain run exactly for no tape or a confirmed other width |
| Driver.Queue.InvalidateRun | src/driver.c:303-313 | closes a run unless it is uncertain |
| Driver.Queue.TryMedia | src/driver.c:877-885 | one try, published; another follows iff nothing at all was read, the job is not canceled and there is time left |
| Driver.Queue.RefreshReadyMedia | src/driver.c:867-892 | an uncertain run is refused untouched; otherwise only status requests are written until a clean tape or a reason to stop; every try but the last read nothing, and another followed only while the job was not canceled and there was time left |
| Driver.Queue.ConfirmTape | src/driver.c:899-908 | one exchange, answered by the script, published; it can close a run but never makes one uncertain |
| Driver.Queue.StartJob | src/driver.c:345-375 | refines the start step; undisturbed, it starts exactly a job whose finishing attributes have a policy, with one copy of raster, on a certain run with clean tape; the policy cuts as the selection names; a canceled job starts nothing |
| Driver.Queue.TryTape | src/driver.c:453-464 | one try publishes its reading iff the printer was heard and the job is not canceled, gives up otherwise, succeeds only on the wanted width, and else asks to go on |
| Driver.Queue.WaitForTape | src/driver.c:446-476 | writes only status requests, ends well only on a clean reading of the wanted width, and asks nothing for a canceled job |
| Driver.Queue.Terminate | src/driver.c:381-391 | sends a terminator whole or in part and succeeds only when the printer is ready; a cancellation before the first command writes nothing, one before the last command withholds it |
| Driver.Queue.PrintPending | src/driver.c:381-394 | the pending label is consumed and the run becomes certain only when its terminator is confirmed; a canceled job's is not sent |
| Driver.Queue.FailBatch | src/driver.c:396-401 | latches the failure and changes nothing else |
| Driver.Queue.CheckPage | src/driver.c:482-508 | passes exactly the pages that may start, on numbers by Runs.StartableOnNumbers, with margins resolved, and none of a canceled job |
| Driver.Queue.StartPage | src/driver.c:478-537 | refines the page-start step on both models; undisturbed, it succeeds exactly for startable pages; for a canceled job it fails with nothing asked or written |
| Driver.Queue.StreamPageStart | src/driver.c:522-536 | pending feed and setup go out in one go from an uncertain run, or break off with a prefix and the batch failed |
| Driver.Queue.StagePage | src/driver.c:515-521 | a staged page has a buffer for the longest roll, allocated once, and nothing is sent |
| Driver.Queue.PackLine | src/driver.c:546-551 | the packed row is the batch's tape window of the scanline |
| Driver.Queue.AllBlank | src/driver.c:556-560 | finds whether a packed row has no dot |
| Driver.Queue.StageRow | src/driver.c:555-563 | an end row passes iff it is blank; any other row is kept at its place inside the buffer |
| Driver.Queue.StreamRow | src/driver.c:565-568 | one row command, or a prefix of it and the batch failed |
| Driver.Queue.WriteLine | src/driver.c:542-569 | refines the row step; undisturbed, it succeeds exactly when the line fits, end rows included; for a canceled job it fails and writes nothing |
| Driver.Queue.SendRows | src/driver.c:657-664 | sends the staged rows, each once and in order, or a prefix of them |
| Driver.Queue.SendPage | src/driver.c:638-664 | from an uncertain run on, setup with the exact row count and then the rows, or a prefix of them |
| Driver.Queue.ReleasePage | src/driver.c:637-668 | pending feed, setup with the rows' exact count, and rows go out in one go, or break off with the batch failed |
| Driver.Queue.EndPage | src/driver.c:623-669 | refines the page-end step; undisturbed, it succeeds exactly for a live page of a healthy batch; for a canceled job it fails and writes nothing |
| Driver.Queue.EndJob | src/driver.c:671-686 | only a complete healthy batch closes its last label and is recorded, and only once the printer reported ready; any other end, that of a canceled job included, writes and records nothing; a second end does nothing |
| Driver.Queue.CutHeld | src/driver.c:897-928 | refines the release step; succeeds only into a closed or blank-only run, into the latter only once the printer reported ready, and without held content neither writes nor reads |
| Driver.Queue.ReleaseHeld | src/driver.c:914-927 | one write of the release; anything but a ready printer leaves the run uncertain |
| Driver.Queue.IdlePoll | src/driver.c:817-850 | changes nothing while a job is processing, output is uncertain or no probe is due, and otherwise only observes, by one exchange the script answers |
| Safety.StepKeeps | src/driver.c:253-313 | every callback keeps the invariant: page bytes not closed by a confirmed terminator mean an uncertain run |
| Safety.EveryStateKept | src/driver.c:253-313 | the invariant holds in every state of every run |
| Session.MakeCall | src/driver.c:345-928 | whatever a call does to a queue is a step of the state machine, under what the server keeps of the order of calls |
| Session.Serve | src/driver.c:253-313 | any calls on a new queue over any world are a run: each call is made exactly when it is due, with its own arguments, and what is proved of every run is true of every session |
| Client.StepIsSeen | src/driver.c:542-686 | the history a callback leaves is what its own arguments ask for, row for row, on both models, on the tape that every page header asks for and a live printer last named |
| Client.StepIsExplained | src/driver.c:396-401 | output that breaks off breaks off inside the client's own next record, on the tape of every page that was started |
| Results.OutputIsPrefixOfCapture | src/driver.c:522-533 | on every run the page output is a prefix of an accepted capture made of the finished records and at most the client's next one |
| Results.OutputAsAsked | src/driver.c:381-394 | whenever output is certain, the page output is an accepted capture whose tape shows exactly the strips of the finished requests |
| Results.HistorySaysWhatIsHeld | src/driver.c:256-259 | after any finished records, closed means nothing held, blank-only means one white row held, open means the last batch's end held |
| Results.RunMatchesHistory | src/driver.c:256-259 | on every run a certain run state tells what the finished records leave held; without a status path it tells exactly |
| Results.RequestsThenOutput | src/driver.c:478-537 | within a callback its exchanges' requests precede output, output follows only a clean last reading, and no request is written on an uncertain run |
| Results.RequestsOnlyBetweenRecords | src/driver.c:897-928 | every status request on the wire stands between whole confirmed records; a sink sees none |
| Results.UncertaintyIsFinal | src/driver.c:335-342 | once output is uncertain and no live batch remains, wire, history and ready tape never change again |
| Results.FailureLatches | src/driver.c:396-401 | a page callback that returns false leaves its job failed |
| Results.FailureIsFinal | src/driver.c:396-401 | after a page callback has returned false the rest of the job writes and prints nothing |
| Results.EndJobTwice | src/driver.c:671-686 | a repeated end of job changes nothing and succeeds |
| Results.QuietStep | src/driver.c:303-313 | a callback without page output leaves the run alone unless the printer was unplugged or read as changed |
| Results.QuietRun | src/driver.c:303-313 | so does any stretch of callbacks without page output |
| Results.ReportIsHeard | src/driver.c:100-148 | the tape a callback goes by was named in that callback's own exchange: the input drained down to an empty read, the three request bytes written whole, and in the bytes read next the first block with byte 18 zero starting 80 20, with bytes 8 and 9 zero and the tape in byte 10 |
| Results.TapeIsReported | src/driver.c:446-476 | in every step a batch keeps its tape or takes the one a clean reply names; it matches every page it starts, and its first label fixes it |
| Results.TapeNamedWithinJob | src/driver.c:345-375 | the tape of a job under way was named by the printer within that job |
| Results.OneTapePerJob | src/driver.c:446-508 | every finished job of a live run was printed on one tape: the one all its page headers are for, which the printer named last and within the job, in answer to a request |
| Results.InterruptedOnOneTape | src/driver.c:446-508 | so was the record that output stopped in: one tape for every page that was started, named by the printer since that job's start |
| Results.CutAnswers | src/driver.c:897-928 | OK means closed or blank-only; failure after output began means uncertain |
| Results.ReleaseTwice | src/driver.c:897-928 | a second release writes and reads nothing and answers as the first |
| Results.NextRecordContinues | src/driver.c:297-301 | on every run, the record after a certain state takes it as it is: on a closed run a job that initializes once; on an open one, unless the printer is unplugged or read as changed in between, a release or a job that continues and never initializes; on a released one such a job |
| LiveWire.PrefixFree | src/protocol.c:5-111 | no command's bytes begin another's, the status request included |
| LiveWire.BytesSayCommands | src/protocol.c:5-111 | a byte prefix of a list of commands, requests included, holds a prefix of its commands |
| LiveWire.ReceivedOnce | src/protocol.c:5-111 | bytes hold one list of whole commands at most |
| LiveWire.StepWrites | src/driver.c:478-686 | each callback writes requests, then one list of commands that opens a record unless output was already uncertain |
| LiveWire.WireIsCommandsUnlessTorn | src/driver.c:128-132 | the whole live wire is a stream of commands iff nothing was written after a request cut inside |
| LiveWire.CallbackOnWire | src/driver.c:128-132 | before each callback: with no request cut, it leaves a stream of commands and only its own requests can be left cut; with one cut, iff it writes nothing; after that, never again |
| LiveWire.PrintedAsAsked | src/driver.c:381-394 | whenever output is certain, the whole wire holds one list of received commands iff nothing was written after a cut request, and that list shows exactly the strips of the finished requests |
| LiveWire.RunSaysWhatIsHeld | src/driver.c:256-259 | a certain run state tells what the received commands left held; without a status path it tells exactly |
| LiveWire.ReceivedWasSent | src/driver.c:522-533 | the page output among the whole commands at the front of any wire, garbled or not, is a prefix of the page output sent |
| LiveWire.NothingPrintedTwice | src/driver.c:671-686 | what any whole commands at the front of the wire print, requests included, is a prefix of the client's pages, each at most once |
| WireTapes.WidthsOnTheWire | src/driver.c:522-533 | on every run, the page headers among whole commands at the front of the wire are one for each label finished or begun, in order, each with the tape that the pages of its request were for |
| WireTapes.WidthOnTheWire | src/driver.c:446-508 | on a live run, each page header that reached the printer carries a width the printer itself named: within the finished job, in the finished release's own exchange, since the start of the job under way, or, for a release under way, last of all |
| Session.TornRequestHappens | src/driver.c:128-132 | two idle polls of a queue, over a device that cuts the first request after one byte, leave a wire that is no stream of commands |
| Finishing.FoldEnums | src/driver.c:206-215 | the driver's fold gives cut-each if 11 or 60 is present, else cut-end if 63 is, else none, and refuses unknown values |
| Finishing.JobPolicy | src/driver.c:183-225 | a policy exactly for one known selection or else a known default; it cuts between labels iff the selection is 11, 60, trim, trim-after-pages or ptouch-chain, and behind the last iff it is 11, 60, 63, trim, trim-after-pages or trim-after-job |
| Finishing.SelectionOnTape | src/driver.c:150-158 | on the tape: a job's labels lie on strips of their own iff the selection asks for a cut between labels, on one strip otherwise, and nothing is left held iff it asks for a cut at the end |
| Finishing.TrimEnums | patches/pappl-1.4.11-finishings.patch:361-373 | the library's fold refuses exactly unknown or no values and gives 60 if present, else 11, else 63, else 3, whatever the order |
| Finishing.IsPlain | patches/pappl-1.4.11-finishings.patch:379-381 | finds whether a collection holds only one-valued template keywords |
| Finishing.TrimSelection | patches/pappl-1.4.11-finishings.patch:353-388 | what the library accepts of a selection and as which enum: of collections exactly one of plain template keywords, trim as 11, trim-after-pages as 60, trim-after-job as 63 and ptouch-chain as none |
| Finishing.FoldsAgree | patches/pappl-1.4.11-finishings.patch:361-373 | library and driver accept the same lists and mean the same policy |
| Finishing.OrderDoesNotMatter | src/driver.c:206-215 | lists with the same members mean the same to both |
| Finishing.ValidatedJobHasItsPolicy | patches/pappl-1.4.11-finishings.patch:181-192 | a request the library validated is never refused by the driver and gets the selected policy |
| Finishing.Defaults.SetTrimDefault | patches/pappl-1.4.11-finishings.patch:436-453 | afterwards both representations of the default, together and each alone, read back as the value set, and give a job without a selection the policy selecting it would; an unknown value reads as none |
| Finishing.DefaultReadsBack | patches/pappl-1.4.11-finishings.patch:418-453 | a stored default reads back as itself and gives unselecting jobs the policy selecting it would |
| Finishing.DefaultsAgree | patches/pappl-1.4.11-finishings.patch:418-434 | the two representations stand for a default iff they agree, 11 and 60 counting as the same trim |
| Turns.HeadSpeaksForAll | patches/pappl-1.4.11-printer-operations.patch:206-212 | looking at the head of the line is as good as looking at every waiting cut |
| Turns.StepKeeps | patches/pappl-1.4.11-printer-operations.patch:108-136 | ids and tickets stay in order, the owner stays active and ahead of every waiting cut |
| Turns.EveryStateKept | patches/pappl-1.4.11-printer-operations.patch:309-351 | on every run |
| Turns.TurnsInAdmissionOrder | patches/pappl-1.4.11-printer-operations.patch:309-351 | in the history of every run a job starts before a cut acquires iff it was admitted before it, and cuts acquire first-in first-out |
| Turns.TurnsFollowRequests | patches/pappl-1.4.11-printer-operations.patch:304-351 | by the requests themselves: a job starts before a cut acquires iff the request that brought the job came before the one that brought the cut, and of two cuts the one that came first acquires first |
| Turns.JobsStartOnce | patches/pappl-1.4.11-printer-operations.patch:108-136 | no job starts twice on any run |
| Turns.OwnerWasLive | patches/pappl-1.4.11-printer-operations.patch:108-136 | whoever a step makes the owner is an active job that is neither canceled nor ended, on a live printer nobody owns, not admitted after the head of the line |
| Turns.CanceledNeverStarts | patches/pappl-1.4.11-printer-operations.patch:122-132 | on every run no job starts after it was canceled, by mark or by removal, or after it completed |
| Turns.CutSeparatesJobs | patches/pappl-1.4.11-printer-operations.patch:206-212 | a cut acquires only when every earlier job has left, and a waiting cut bars every later job |
| Turns.OwnershipIsExclusive | patches/pappl-1.4.11-printer-operations.patch:17-63 | processing ownership is taken only from nobody and given up only by its owner |
| Turns.DeviceIsExclusive | patches/pappl-1.4.11-printer-operations.patch:271-274 | the device is taken only when free and idle, and never by a poll ahead of a cut whose turn has come |
| Turns.SomeoneCanMove | patches/pappl-1.4.11-printer-operations.patch:320-340 | at a live idle printer with cuts waiting someone can move iff not every job before the head is held, and the barrier holds back none of these jobs |
| Turns.PendingJobMayClaim | patches/pappl-1.4.11-printer-operations.patch:108-136 | an unbarred pending job at an idle printer needs only a thread that sets out to print it, and may then claim |
| Turns.ReleaseIsScanned | patches/pappl-1.4.11-printer-operations.patch:158-175 | whatever barred followers lead the list, releasing a job held before a cut makes the scan stop at it or at a newer job before the cut |
| Turns.HeldJobBlocks | patches/pappl-1.4.11-printer-operations.patch:183-197 | a run in which a cut behind one held job waits with nobody able to move |
| Turns.OnHoldUntilLetGo | patches/pappl-1.4.11-printer-operations.patch:183-197 | every step but letting an earlier held job go, deletion or shutdown leaves such a wait as it is |
| DeviceQueue.Printer.Append | patches/pappl-1.4.11-printer-operations.patch:311-318 | walking to the last node and linking behind it extends the chain by exactly the new node |
| DeviceQueue.Printer.Bypass | patches/pappl-1.4.11-printer-operations.patch:342-349 | the walk lets exactly the node before the leaver skip it |
| DeviceQueue.Printer.Unlink | patches/pappl-1.4.11-printer-operations.patch:342-352 | the chain afterwards is the old one without the node, wherever it stood |
| DeviceQueue.Printer.Admit | patches/pappl-1.4.11-printer-operations.patch:304-318 | a cut joins the end of the line with the last assigned id as its boundary |
| DeviceQueue.Printer.IsReady | patches/pappl-1.4.11-printer-operations.patch:183-197 | the scan finds whether any active job at or before the boundary remains |
| DeviceQueue.Printer.CutBarrier | patches/pappl-1.4.11-printer-operations.patch:206-212 | the head test decides whether any waiting cut is behind the job |
| DeviceQueue.Printer.LeaveLine | patches/pappl-1.4.11-printer-operations.patch:329-352 | leaving takes the waiter out of line wherever it stands and takes the device only while the printer is alive |
| DeviceQueue.Printer.TryAcquire | patches/pappl-1.4.11-printer-operations.patch:320-352 | a waiting cut leaves exactly when it is first in line, nobody uses the device or prints and no active job has an id up to its boundary, or when the printer is deleted or shut down; with the device iff alive and opened |
| DeviceQueue.Printer.TryStart | patches/pappl-1.4.11-printer-operations.patch:108-136 | on fields: it claims iff the printer is live and unowned, no head waiter has a smaller id, and the job is active, not canceled and not ended; it waits iff such a job finds an owner or such a waiter; otherwise it gives up and changes nothing |
| DeviceQueue.Printer.FinishJob | patches/pappl-1.4.11-printer-operations.patch:17-65 | a finishing job moves from the active to the completed list; only the owner gives up the printer and makes it idle, or stopped when a stop was asked for |
| DeviceQueue.Printer.CloseFinished | patches/pappl-1.4.11-printer-operations.patch:71-98 | the device is closed after a job only by its former owner and only while nobody uses it |
| DeviceQueue.Printer.CancelJob | patches/pappl-1.4.11-printer-operations.patch:141-151 | a job that is printing, streaming or held while still being received is only marked as canceled; another leaves the active list at once, and never owned the printer |
| DeviceQueue.Printer.FirstToStart | patches/pappl-1.4.11-printer-operations.patch:158-175 | newest first, the scan finds the newest unbarred pending job unless its own request streams it; it finds none iff all pending jobs are barred or that one is streaming |
| DeviceQueue.Printer.CheckJobs | patches/pappl-1.4.11-printer-operations.patch:152-176 | exactly the job the scan finds gets a thread |
| DeviceQueue.Printer.OpenDevice | patches/pappl-1.4.11-printer-operations.patch:267-276 | a poll gets the device iff there is one, it opens, nobody uses it or prints, and no waiter heads the line with all jobs up to its boundary gone |
| Server.CallsAreDue | patches/pappl-1.4.11-printer-operations.patch:108-136 | a job about to start, a cut with the device, and a poll that has the device or finds nobody printing never meet another job's batch |
| Server.BatchHasItsOwner | patches/pappl-1.4.11-printer-operations.patch:17-63 | while a batch is live one job owns the printer and neither poll nor cut has the device |
| Server.DriverRuns | src/driver.c:253-313 | the driver's part of any run of the server is a run of the driver |
| Server.QueueRuns | patches/pappl-1.4.11-printer-operations.patch:309-351 | the queue's part of any run of the server is a run of the queue |
| Server.RecordsInAdmissionOrder | patches/pappl-1.4.11-printer-operations.patch:309-351 | a job's labels are finished before a cut's release iff the job was admitted before the cut, releases come first-in first-out, and no job and no cut makes two records |
| Server.TapeInAdmissionOrder | src/driver.c:897-928 | whenever output is certain, the tape the printer made of what it received shows the finished records' strips, and these stand in admission order |
| Png.Options.SetPageLength | src/filter_png.c:34-48 | the page, its point size and its box are the whole dots of the length and the margins; a roll length gives a page the driver accepts, and a length taken from an image one that holds it |
| Png.Options.PinOrientation | src/filter_png.c:75-82 | a submitted orientation stays; otherwise the longer image side runs along the tape |
| Png.RefusedIffTooLong | src/filter_png.c:56-65 | a length is refused iff the image is longer than the roll, and otherwise within 500 to 30000 |
| Png.AcceptedHeights | src/filter_png.c:40-40 | every accepted length is a page of 35 to 2125 rows, the heights the driver accepts |
| Png.NeverShorter | src/filter_png.c:56-65 | a label is never shorter than its image's rows, for every image and resolution |
| Png.AtMostOneLonger | src/filter_png.c:56-65 | and at most one row longer unless the roll minimum lengthens it |
| Png.ExactAtPrinterResolution | src/filter_png.c:56-65 | at 180 ppi an unclamped label has exactly its image's rows |
| Png.AutoLengthHasRoom | src/filter_png.c:122-127 | with no end margins preflight never refuses a length taken from the image |
| Png.PassedFits | src/filter_png.c:119-147 | whatever passes unscaled fits the window, the selected margins and the page, cut down or not |
| Png.JudgedOnNumbers | src/filter_png.c:116-147 | on numbers, whatever the margins: an unscaled image goes as it is iff it has a dot each way, is no longer than the page less its end margins and no wider than the window and than the page less its side margins; a canvas may be cut iff it is as wide as the nominal tape, and then to the columns inside the window, when these fit between the side margins |
| Png.NoTapeNothingGoes | src/filter_png.c:116-118 | on media of no supported width nothing goes unscaled |
| Png.AutoLengthFits | src/filter_png.c:119-129 | under the published margins and without end margins, an image whose page length follows it goes as it is iff it has a dot each way and is no wider than the window |
| Png.FullCanvasKeepsItsWindow | src/filter_png.c:130-147 | a whole-tape canvas under the published margins is cut to exactly the tape's window, mirrored when upside down |
| Png.WindowColumns | src/filter_png.c:139-144 | the columns kept are exactly those lying wholly inside the window |
| Png.IsBlankOutside | src/filter_png.c:149-162 | the nested loops find whether every sample outside the window is white |
| Png.CutRows | src/filter_png.c:163-166 | in place, the landscape move loses nothing: white padding gives back every sample |
| Png.MoveColumns | src/filter_png.c:168-171 | row by row, each move reads only samples not yet overwritten and stays inside the buffer |
| Png.CutColumns | src/filter_png.c:168-172 | in place, the portrait moves lose nothing: white padding gives back every sample |
| Png.Preflight | src/filter_png.c:109-179 | accepts iff the client scales the image, it fits, or it is a canvas with blank margins, and in the last case cuts it losslessly; otherwise changes nothing |

## Left out

- Decoder.Decode: the tape a page header must name is any of a given set rather than the script's 12 mm.
- Driver.Queue.WaitForTape: the wait ends when the finite script of answers ends; the source may wait for ever.
- Device.AwaitReady: the 20 s deadline, the retry pauses and their clocks are answers of the script.
- Driver.Queue.PublishTape: the media-confirmed flag, which nothing here reads, and printer reasons, job messages and logs are not kept.
- Driver.Queue.StartJob: the job's attributes and the driver's default are parameters rather than looked up in PAPPL.
- DeviceQueue.Printer.TryStart: how a claimed job then waits for a device held by a poll is in code that is not part of this model.
- DeviceQueue.Printer.CheckJobs: a thread that cannot be created, and the conditions under which the scheduler is called, are not part of this model.
- DeviceQueue.Printer.FinishJob: the final state of the job record, its file and the events sent are not kept.
- DeviceQueue.Printer.CancelJob: what becomes of a job canceled before it printed is not modelled; whether a held job is still being received is a parameter; active jobs are values in a list field, oldest first, identified by id.
- Turns.SomeoneCanMove: that threads which can move do move is not part of this model.
- Png.Options.SetPageLength: the bounding box and the floating-point page size are not kept; int and unsigned overflow are not modelled, as in all arithmetic but that of the image box.
- Png.Preflight: decoding, placement, scaling and dithering are not part of this model.
- Finishing.Defaults.SetTrimDefault: parsing a saved default from its text form is not modelled.
- Locks, threads, sleeps, USB and Bluetooth transfers, IPP and HTTP plumbing, authorization, media database and web pages.
- The printer's leader, tail and feed beyond the cut rules, which no code here decides.
