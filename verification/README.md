# Client-side protocols of the agent bus

A model of the protocols that run on the client side of the bus: the proxy that
stands between a host and the bus, the watchers that wake an idle window, the
adapter that drives Codex over a WebSocket, and the limiter in front of the HTTP
endpoint. What is proved is quantified over every run: every interleaving of
tasks or processes, every crash point, every division of a byte stream, every
clock trace.

| file | what it models |
|---|---|
| `Basics.dfy` | an optional value, searching and chomping lines: what several of the others need |
| `Spool.dfy` | the reference spool: text, reader, append with tail repair, rewrite; the file as a class |
| `LineCodec.dfy` | the JSON line of an entry, with every property the spool needs of it |
| `Delivery.dfy` | fetch, append, fsync, confirm, compact, with a crash at any byte and appends that fail |
| `Frames.dfy` | WebSocket frames (sections 5.2 and 5.3 of RFC 6455): printer, parser, masking |
| `Stream.dfy` | reading a stream of frames in calls that may be given up (sections 5.4 and 5.5 of RFC 6455) |
| `AppServer.dfy` | the JSON-RPC client over it: request, pending queue, notifications; a class |
| `RateLimit.dfy` | the token-bucket limiter with eviction; a class |
| `Watch.dfy` | competing watchers of one window and their shared state file |
| `CodexWake.dfy` | the Codex adapter: mark first, then deliver, at most three attempts, each with its requests and answers |
| `Session.dfy` | the proxy's window: connects, profile switches, rotation, adoption, generations |
| `SessionStory.dfy` | what that window is connected as, told from the events alone |
| `Binding.dfy` | the binding record that several proxy processes share |
| `LongWait.dfy` | waits longer than the bus serves, made of slices |
| `Attention.dfy` | what the proxy reports of its model's turn |
| `TokenFile.dfy` | setting and reading an entry of a hand-edited tokens file |

Objects the source updates in place are classes (`Limiter`, `SpoolFile`,
`Client`, `StateFile`, `Process`, `BindingFile`, `Tracker`), and its loops are
methods with loops. Each is specified by a function of values, and the run-level
theorems are about those functions. A protocol is a world, a set of events and a
total `Next`; an event that does not apply leaves the world as it is, so a run is
any sequence of events at all.

## Where the code falls short of what it promises

Each of these is a lemma with the case written out, next to a lemma that says
exactly when the promise is kept.

- **A failed fsync is forgotten** (`src/spool.rs:68-107`). `append` reports an
  I/O error, but its lines stay in the file. The next fetch that brings nothing
  new finds them held and confirms them without an fsync, against the order the
  module documentation calls "the whole point". `Delivery.SendsWhatIsDurableIff`
  says for every run, with any number of failed appends, when a confirmation names
  only durable ids; `Delivery.AbandonedAppend` says it of the fetch after one
  failure; `Delivery.FailedFsyncLosesAReference` is a run that loses one.
- **A message between two calls never wakes** (`src/hook.rs:435-460`). The unread
  count and the newest message come from two calls. A message that arrives
  between them raises the mark without being counted. `Watch.MissedBetweenCalls`
  gives the condition, `Watch.LateArrivalIsMissed` the run.
- **An accepted turn can be asked for twice** (`src/codex_wake.rs:483-560`). An
  answer to `turn/start` without a turn id is an error to `deliver`, which tries
  again, although Codex accepted; its documentation says that no second turn is
  ever requested. `CodexWake.SecondTurnIff` and `CodexWake.LeftOpenIff` give the
  condition, `CodexWake.AcceptedTwice` the run.
- **A configure can put back an old secret** (`src/proxy.rs:1842-1898`). After its
  connect, `configure` writes the record once more, outside the switch lock. An
  adoption between its reading the state and its writing the file is overwritten.
  `Session.RecordFollowsIff`, `Session.OvertakenConfigureLosesTheSecret`.
- **Two calls of one instant count as one** (`src/proxy.rs:468-475`). A report says
  which call it is about by its clock reading alone. `Attention.UntiedCallWasTold`,
  `Attention.TiedCallIsSettled`.
- **A long wait may end up to a second early** (`src/proxy.rs:2275-2283`): time
  left is cut to whole seconds, so what the slices overran is rounded up.
  `LongWait.EndsEarlyIff` gives the condition, `LongWait.EndsEarly` a minute's wait
  that takes 59.5 seconds.

## Model

| member | source | states |
|---|---|---|
| `Spool.RepairIsInvisible` | src/spool.rs:110-138 | in every file, ending a torn last line changes nothing a reader sees |
| `Spool.FreshIsNew` | src/spool.rs:70-81 | what an append writes has pairwise distinct ids, none of them held, and with what is held covers every id offered |
| `Spool.ReadAfterAppend` | src/spool.rs:68-138 | in every file, torn or not, reading after an append gives the old entries followed by exactly the fresh ones; distinct ids stay distinct |
| `Spool.ReadTorn` | src/spool.rs:100-138 | an append cut at any byte reads as the first so many whole entries, in order |
| `Spool.ReadAfterRewrite` | src/spool.rs:129-158 | reading after a rewrite gives exactly the entries the retention rule keeps |
| `Spool.KeptSome` | src/spool.rs:141-158 | the rule keeps an entry if and only if it is unconfirmed, young enough or undated; order and distinctness survive |
| `Spool.DroppedIff` | src/spool.rs:141-158 | an entry is dropped if and only if the bus has been told of it and it is known to be 48 hours old |
| `Spool.Unheld` | src/spool.rs:71-81 | the loop that leaves out held and repeated ids computes the fresh entries |
| `Spool.SpoolFile.RepairTail` | src/spool.rs:110-124 | the file ends a line afterwards, and a line end that was added is durable |
| `Spool.SpoolFile.Append` | src/spool.rs:68-107 | returns the fresh entries, a reader sees the old ones then those, and all of it is durable unless there was nothing to write |
| `Spool.SpoolFile.Rewrite` | src/spool.rs:141-158 | a reader of the new file sees exactly what is retained, and it is durable |
| `LineCodec.QuotedIsPrefixFree` | src/spool.rs:24-41 | an escaped JSON string tells where it ends, whatever it holds and whatever follows |
| `LineCodec.EscapesAre` | src/spool.rs:24-41 | a character is written as it is, or as the JSON escape that stands for it |
| `LineCodec.LineIsPrefixFree` | src/spool.rs:24-41 | no entry's JSON line begins another's, so a torn line is never an entry |
| `LineCodec.LinesAreLawful` | src/spool.rs:24-41 | the JSON line of every entry reads back, holds no line end, is not blank, and no beginning of it parses |
| `Delivery.MarkLoop` | src/proxy.rs:2083-2094 | marks the asked entries the bus settled, and counts exactly those asked and not settled |
| `Delivery.MarkedIff` | src/proxy.rs:852-868 | an entry is marked if and only if it was asked about and the reply lists it, in either list, or is a bare count of all that was asked |
| `Delivery.SettledAsSaid` | src/proxy.rs:2076-2109 | over every run, after an answer and the rewrite an entry the reply does not name is on disk unconfirmed as it was, and one it names is on disk confirmed, or gone if 48 hours old |
| `Delivery.GivenUpEnds` | src/proxy.rs:2049-2111 | a fetch given up at any point ends, and leaves the file to the next |
| `Delivery.NextKeeps` | src/proxy.rs:2001-2113 | every step, a failed append included, keeps the protocol's invariant, and nothing leaves the disk that the bus had not settled |
| `Delivery.RunKeeps` | src/proxy.rs:2001-2113 | the same over every run from any sound state |
| `Delivery.NothingIsLost` | src/spool.rs:68-158 | in every run, crashing at any byte and carrying on from failed appends, an id fsynced, or sent other than while its line was unsynced, is on disk for good or settled; ids on disk are distinct; a confirmed one was settled |
| `Delivery.NothingSentIsLost` | src/proxy.rs:2045-2113 | in every run that sends nothing while a failed append's line is unsynced, every id fsynced or sent is on disk for good or settled |
| `Delivery.LeavesOnlySettled` | src/proxy.rs:2080-2113 | between any two points of any run, an entry leaves the disk only if the bus settled it |
| `Delivery.SendsWhatIsDurableIff` | src/proxy.rs:2045-2079 | in every run, a confirmation names the unconfirmed entries on disk and those failed appends left unsynced; all of it is durable if and only if there are none of the latter; every id an interrupted run left unsettled is in it |
| `Delivery.AbandonedAppend` | src/spool.rs:68-107 | in every run, after an append that fails, the next fetch that brings nothing new sends only durable ids if and only if nothing was left unsynced before and no whole line had been written |
| `Delivery.FailedFsyncLosesAReference` | src/proxy.rs:2001-2113 | a run in which the bus settles an id that no file holds any more |
| `Delivery.StepsAppend` | src/proxy.rs:2048-2057 | from any file, the protocol's steps uninterrupted, with the bytes divided among writes in any way, leave the text of `append`, all durable, and what it read and added to confirm |
| `Frames.MaskedTwice` | src/codex.rs:160-178 | masking is its own inverse |
| `Frames.MaskedFlips` | src/codex.rs:173-175 | bit by bit, byte i of the payload is changed exactly where byte i modulo 4 of the mask has a one |
| `Frames.BigEndianRoundTrip` | src/codex.rs:160-178 | a length written in so many bytes reads back |
| `Frames.ParseIsStable` | src/codex.rs:195-232 | once the parser has decided, later bytes change nothing |
| `Frames.ParseEncoded` | src/codex.rs:195-232 | any frame, in any length form that fits, masked or not, with anything after it, comes back whole and consumes exactly its bytes, or is refused exactly when over the limit |
| `Frames.SendFrameRoundTrip` | src/codex.rs:160-178 | what is sent is masked, is read back for every payload up to 64 MiB and every mask, consuming exactly it, and no encoding of it under a mask is shorter |
| `Frames.Unmask` | src/codex.rs:221-231 | the in-place loop unmasks the whole payload |
| `Stream.NextThenDrain` | src/codex.rs:195-251 | one read takes the head of the one-shot reading and leaves its tail, whatever bytes come later |
| `Stream.WaitingIsDrained` | src/codex.rs:180-251 | a read that had to wait left nothing complete behind |
| `Stream.DrainInTwo` | src/codex.rs:180-251 | reading a stream up to any byte and then the rest is reading it at once |
| `Stream.CallsReadTheStream` | src/codex.rs:180-251 | over any stream, any division of it and any reads given up, what the calls produced followed by what is buffered is the one-shot reading |
| `Stream.ChunkingIsInvisible` | src/codex.rs:180-251 | two divisions of one stream agree on messages, leftover bytes and unfinished fragments, also when it ends in a frame over the limit |
| `Stream.DrainOfFrames` | src/codex.rs:195-243 | length forms and masks leave no trace: a stream reads as its frames, with no byte left over |
| `Stream.ControlFramesAreTransparent` | src/codex.rs:232-251 | pings, pongs and ignored frames anywhere change no message, refusal or kept fragment |
| `Stream.FragmentsReassemble` | src/codex.rs:232-251 | a fragmented message with control frames in between comes out once, whole |
| `Stream.ReadEndsAt` | src/codex.rs:195-251 | on any frames a read ends at the first that is a close, completes a message or makes it longer than 64 MiB, and as that frame has it |
| `Stream.ReadWaitsIf` | src/codex.rs:195-251 | a read of frames none of which is such waits for more |
| `Stream.NextReadIsStable` | src/codex.rs:195-251 | a read that need not wait answers the same whatever bytes come later |
| `AppServer.ReadAdds` | src/codex.rs:195-307 | what one read adds to the notifications seen and the replies owed |
| `AppServer.AccountRead` | src/codex.rs:291-307 | a read keeps the account of notifications, pings and refusals even |
| `AppServer.AllNotify` | src/codex.rs:291-329 | only notifications are ever counted as such |
| `AppServer.Client.Fill` | src/codex.rs:180-190 | takes exactly the next arrivals off the socket, to the end of the buffer, until enough is there, the peer hangs up or a deadline passes, and says which |
| `AppServer.Client.ReadMessage` | src/codex.rs:195-251 | returns the message or refusal that the bytes ahead of the next hang-up or deadline hold, and otherwise which of the two ended the waiting; produced plus buffered stays the one-shot reading of all received |
| `AppServer.HeardAhead` | src/codex.rs:180-251 | however the bytes come, a read answers from all that is ahead |
| `AppServer.Client.Request` | src/codex.rs:257-288 | writes exactly one call, with a new id and these params; returns the first answer with that id, and gives up only if none came before a hang-up, a deadline or a refusal in the stream; notifications met meanwhile are queued |
| `AppServer.Client.NextNotification` | src/codex.rs:310-329 | hands out the oldest queued notification, or the next one on the wire, each once; gives up only with an empty queue |
| `RateLimit.NewIsValid` | src/ratelimit.rs:61-78 | a rate of 0 means no limiter; any other refills so much a minute, with a burst of a tenth of it and at least 10; 600 idle seconds refill any bucket, exactly so at 1 per minute |
| `RateLimit.BurstIsReached` | src/ratelimit.rs:61-140 | from an empty map, of n checks of one caller at one instant exactly as many are accepted as fit the burst |
| `RateLimit.NoRefillBackwards` | src/ratelimit.rs:122-124 | a clock reading from before a bucket was last touched adds nothing |
| `RateLimit.CheckOnLevels` | src/ratelimit.rs:81-140 | a check is decided by the caller's level; an acceptance costs it one token, and nobody else's level moves |
| `RateLimit.EvictionIsInvisible` | src/ratelimit.rs:22-140 | over every non-decreasing clock trace the evicting limiter answers as one that never evicts, fed the checks the ceiling let through |
| `RateLimit.SameLevelsSameAnswers` | src/ratelimit.rs:81-140 | the same from any two states that agree on levels |
| `RateLimit.TrackingIsBounded` | src/ratelimit.rs:81-125 | in no run does the map track more than 10,000 callers |
| `RateLimit.TokensAreConserved` | src/ratelimit.rs:81-140 | accepted plus left is at most there plus flowed in |
| `RateLimit.WindowBound` | src/ratelimit.rs:61-140 | in every stretch of every run a caller's acceptances number at most max(rate / 10, 10) plus rate times window over 60 |
| `RateLimit.RetryBounds` | src/ratelimit.rs:126-139 | the wait is between 1 and 60 seconds, is enough, and when above 1 is the least whole number that is |
| `RateLimit.RetryAfterIsRight` | src/ratelimit.rs:126-139 | from any sane state, a caller who waits is accepted unless it meets the ceiling, whatever rejected checks came in between, and never meets it within 600 s; one who waits a second less, when told more than one, is not |
| `RateLimit.RetryAcceptedIff` | src/ratelimit.rs:100-139 | over every run from an empty map, a caller who waits is accepted if and only if it was admitted in the last 600 s or fewer than 10,000 callers were |
| `RateLimit.CeilingIff` | src/ratelimit.rs:86-125 | over every run from an empty map, a check is refused by the ceiling if and only if its caller was not admitted in the last 600 s and 10,000 others were |
| `RateLimit.StaysTracked` | src/ratelimit.rs:86-125 | a bucket touched less than 600 seconds ago is still tracked, so its caller does not meet the ceiling |
| `RateLimit.Limiter.Check` | src/ratelimit.rs:81-140 | the in-place check computes the specified answer and state and keeps the buckets sane |
| `Watch.RecordCharges` | src/hook.rs:488-502 | the owner's recording moves the marks up only, and a wake is charged to an arrival above them |
| `Watch.NextKeeps` | src/hook.rs:543-661 | every step of every watcher keeps the invariant and only advances the marks |
| `Watch.RunKeeps` | src/hook.rs:543-661 | the same over every interleaving of any number of watchers, with takeovers and crashes |
| `Watch.WakesAreDistinct` | src/hook.rs:488-502 | no two wakes of a run are charged to the same arrival |
| `Watch.ReplacedNeverWrites` | src/hook.rs:562-633 | a watcher whose token is not on file never writes the state again |
| `Watch.BacklogNeverWakes` | src/hook.rs:597-632 | what waited at a first reading with a readable inbox never wakes the window later |
| `Watch.UnreadNewsWakes` | src/hook.rs:488-502 | a message above the mark and unread at the owner's count wakes at that recording |
| `Watch.WakesIff` | src/hook.rs:488-502 | in every run, the exact condition on what the three calls saw for the owner's recording to wake |
| `Watch.MissedBetweenCalls` | src/hook.rs:435-460 | a newest message above the mark wakes if and only if something was unread at the first call or the inbox grew; otherwise no later wake is ever for it |
| `Watch.LateArrivalIsMissed` | src/hook.rs:435-502 | a run in which an unread message never wakes |
| `Watch.Process.constructor` | src/hook.rs:562-576 | taking over keeps what a primed predecessor recorded and puts the new token on file |
| `Watch.Process.Record` | src/hook.rs:600-633 | writes and wakes only if it still owns the file, and then as the step decides |
| `CodexWake.ReadingAdvances` | src/codex_wake.rs:328-372 | a complete reading moves a primed mark up, and what it wakes for is above the old mark and not above the new |
| `CodexWake.RunKeeps` | src/codex_wake.rs:273-400 | over every run of one adapter at a time, crashing anywhere and whatever Codex answers, marks, attempts and accepted turns stay in step |
| `CodexWake.OneTurnForEachMark` | src/codex_wake.rs:328-425 | in every run a saved mark leads to a second turn, and an arrival is the reason of one, only after a turn accepted without its id being heard; no save gets more than three attempts |
| `CodexWake.WaitUntilIdle` | src/codex_wake.rs:605-631 | the loop finds whether a busy thread became idle, and how often its status was read |
| `CodexWake.IdlesIff` | src/codex_wake.rs:605-631 | it did if and only if some look found it idle and no look before failed |
| `CodexWake.TurnAskedIff` | src/codex_wake.rs:506-560 | from what Codex and the bus said alone: when a turn is asked for and with which counts, when nothing is left to wake for, when a thread is resumed, and when a turn has started |
| `CodexWake.AsksWhenPrepared` | src/codex_wake.rs:506-560 | an attempt asks for a turn exactly if it got the thread ready with something unread, and then fails exactly if the answer has no turn id; a started turn was accepted |
| `CodexWake.Deliver` | src/codex_wake.rs:483-502 | the retry loop makes the attempts specified and returns the result of the last |
| `CodexWake.AskedAgainIff` | src/codex_wake.rs:483-560 | in every delivery, after a `turn/start` another attempt follows if and only if attempts are left and the answer had no turn id; and exactly when it asks for a turn again |
| `CodexWake.DeskMakesTheAttempts` | src/codex_wake.rs:483-502 | a delivery in a run makes exactly the attempts of the retry loop, accepts exactly their turns, and goes on exactly as long as the loop would |
| `CodexWake.DeliversIff` | src/codex_wake.rs:328-372 | after the second reading the mark is saved, and a delivery follows if and only if something is unread |
| `CodexWake.PrimesAtTheSecond` | src/codex_wake.rs:314-327 | a first reading without an inbox count is taken again once, and then the mark is saved |
| `CodexWake.LeftOpenIff` | src/codex_wake.rs:506-560 | an attempt leaves another to make after an acceptance if and only if Codex accepted without naming the turn and it was not the last |
| `CodexWake.SecondTurnIff` | src/codex_wake.rs:483-560 | in every reachable state, no save gets a second turn however the delivery goes on if and only if none has one and no attempt is left after an unnamed acceptance |
| `CodexWake.AcceptedTwice` | src/codex_wake.rs:506-560 | a run from the start: one message, an answer without a turn id, and two turns for it |
| `Session.NextKeeps` | src/proxy.rs:1533-1673 | every critical section of every task keeps the lock, the identity, the generations and what each task remembers in step |
| `Session.RunKeeps` | src/proxy.rs:1533-2458 | the same over every interleaving; the team and what each generation named never change |
| `Session.IdentityPersists` | src/proxy.rs:322-341 | once the window has an identity it has one of the same team in every later state with the switch lock free; the lost-connection branch is never taken |
| `Session.GenerationsFence` | src/proxy.rs:2128-2167 | a generation names one context for good, so bound calls of one generation run as one; a renewal or a refusal touches the current context only if it was for it |
| `Session.FailedConfigureLeavesNoTrace` | src/proxy.rs:1842-1898 | a connect that ends without a new generation leaves the whole window as it was |
| `Session.FailureIsQuiet` | src/proxy.rs:1533-1673 | among any other tasks, a connect that ends without swapping changed the window by none of its own steps |
| `Session.SetLabelsStay` | src/proxy.rs:1533-1673 | over every interleaving without a relabelling, a label that was set stays, a connect fills only empty ones, and the role is nobody's default |
| `Session.DefaultsAreTaken` | src/proxy.rs:1533-1673 | an admitted connect fills each empty label with the default it brings, and none other |
| `Session.KeyIsTheLastBound` | src/proxy.rs:1947-1990 | over every run the record's key is the one last bound |
| `Session.LabelsAreTheLastAsked` | src/proxy.rs:1842-1898 | over every interleaving each label is the one a configure last asked for, else the one it was; an empty project or channel is empty still or holds a default that a connect brought |
| `Session.AdoptionRecordsTheSecret` | src/proxy.rs:2350-2437 | when an adoption writes its record, connected or stranded, the record is the credential the window speaks with and the bus accepts |
| `Session.RecordFollowsIff` | src/proxy.rs:1749-1804 | over every whole run, the record is the window's credential whenever the lock holder owes none if and only if no configure writes late a record that is not |
| `Session.RecordStaysCurrentIff` | src/proxy.rs:1749-1804 | from any sound state with a record that the bus accepts too: it stays so until the lock is next taken if and only if no configure holds an older one to write |
| `Session.OvertakenConfigureLosesTheSecret` | src/proxy.rs:1842-1898 | a run from the start that ends with a record the bus does not accept and no task left |
| `SessionStory.TheWindowIsAsTold` | src/proxy.rs:2350-2691 | over every run, told from the events: the connected context has the team, credential and expiry it was made with, by the candidate offered or the rotation handed out, and the expiry of the last renewal answered under its generation; a stranded window keeps the failed adoption's identity; it counts as refused if and only if a refusal was answered under its generation or it is stranded |
| `Session.MarkKeeps` | src/proxy.rs:2313-2325 | a refusal noted under its own generation is for the current context |
| `Binding.BindingFile.StampExpiry` | src/proxy.rs:2696-2741 | stamps only a record of this session and epoch, reports otherwise, never touches the credential |
| `Binding.BindingFile.MarkClosed` | src/proxy.rs:2781-2829 | marks only a record of this identity, or any if it carries no credential; never touches the credential |
| `Binding.ReplacementHolds` | src/proxy.rs:1749-1804 | a proxy that replaces the record finds it there to the letter, whatever stamps and close marks of its predecessors come late |
| `Binding.OthersLeaveItAlone` | src/proxy.rs:2696-2829 | over every interleaving of proxies, stamps and close marks under another credential leave a record exactly as it is |
| `Binding.CredentialSurvives` | src/proxy.rs:2696-2829 | over every interleaving without a whole replacement, the credential on file stays |
| `Binding.ReachIsExact` | src/proxy.rs:2781-2829 | a stamp or close mark can alter a record if and only if it is its owner's or comes from a window without a credential |
| `LongWait.LongWait` | src/proxy.rs:2249-2304 | the loop makes exactly the requests of the specification and returns its answer |
| `LongWait.QuietSlices` | src/proxy.rs:2274-2302 | quiet slices end within a second before and four seconds after the deadline, and so many are enough |
| `LongWait.QuietWaitLasts` | src/proxy.rs:2249-2304 | a quiet wait takes at most 36 requests and lasts its time to its time plus four seconds; slices that overrun move the bounds by what is stated |
| `LongWait.EndsEarlyIff` | src/proxy.rs:2272-2302 | a quiet wait ends early if and only if five seconds or more are left for its last request and what the overruns before it lack of whole seconds is more than that request's own overrun |
| `LongWait.EndsEarly` | src/proxy.rs:2272-2302 | a wait of 60 seconds whose first slice overruns by half a second ends at 59.5 |
| `LongWait.SlicesAreServed` | src/proxy.rs:2278-2290 | each slice asks for 5 to 50 seconds, and the first from the caller's own position |
| `LongWait.PassedOnIff` | src/proxy.rs:2249-2263 | a wait is passed on unchanged if and only if it asks for no time or at most 55 seconds; any longer one is made of requests of 5 to 50 |
| `LongWait.SlicesChain` | src/proxy.rs:2263-2302 | each slice starts where the one before stopped, and only the last can have found something |
| `LongWait.NothingGoesUnreported` | README.md:848-853 | a finished wait woke if and only if a wanted event lies between where it started and where it stopped, and all of those are in the answer returned |
| `Attention.Tracker.Enter` | src/proxy.rs:486-499 | a call is counted, a wait also as such, and it is the one to report |
| `Attention.Tracker.Leave` | src/proxy.rs:502-516 | a call is uncounted; back from a wait the turn is reported again |
| `Attention.Tracker.TakeDue` | src/proxy.rs:421-452 | forgets a stale call, then answers what is due |
| `Attention.Tracker.Acknowledge` | src/proxy.rs:468-475 | notes what the bus took and settles only the call it was about |
| `Attention.NextKeeps` | src/proxy.rs:377-516 | every step keeps counters, pending call and history in step |
| `Attention.ReportsAreTrue` | src/proxy.rs:377-516 | in every run the counters are the live calls and waits; `waiting` is reported only during a wait, `attending` only while a call runs or for one under 30 s old |
| `Attention.LatestCallIsNotLost` | src/proxy.rs:426-475 | in every run the latest call is pending, or 30 s old, or the bus was told of it or of another of the same clock reading |
| `Attention.UntiedCallWasTold` | src/proxy.rs:426-475 | in every run the latest call, if it began at an instant of its own, is pending, 30 s old, or was itself told |
| `Attention.TiedCallIsSettled` | src/proxy.rs:468-475 | a run in which the report of one call settles another of the same instant |
| `Attention.AcknowledgedExactly` | src/proxy.rs:468-475 | an answered report settles the pending call if and only if it names the instant of the latest one |
| `Attention.FlushedOnTime` | src/proxy.rs:454-466 | a pending call is due at once when the bus has another state, and otherwise from the flush time on and not before |
| `TokenFile.UpsertTokenEntry` | src/admin_cli.rs:504-529 | the loop writes the specified text |
| `TokenFile.ReadTokenEntry` | src/context.rs:676-698 | the loop reads the specified entry |
| `TokenFile.ValidIsPlain` | src/admin_cli.rs:472-493 | a name that passes validation is one both readers of the file agree on |
| `TokenFile.ValidIff` | src/admin_cli.rs:472-493 | which names pass, character by character |
| `TokenFile.SplitsAgree` | src/context.rs:682-690 | splitting then trimming and trimming then splitting find the same key on every line, comments aside |
| `TokenFile.SetThenRead` | src/admin_cli.rs:499-529 | in every file, after an entry is set its name reads as the token and every other name as before |
| `TokenFile.OtherTextStays` | src/admin_cli.rs:499-529 | in every file each line that is not the name's own stays, in order, but for carriage returns, and exactly one is the name's own |

## Left out

- The store, its SQL, HTTP, MCP and NATS: a request is a step that succeeds, fails or loses its answer.
- The self-pinging listener of `src/events.rs`: its loop only counts pings without an echo, and what it is for depends on the database connection.
- The two-stream quota update of `src/admin.rs`: whether a stream can be changed or put back is decided by the broker code, which is not part of this model.
- Floating point in the limiter: arithmetic is over `real`; clock readings do not decrease in the order the lock is taken.
- RateLimit.RetryAfterIsRight: speaks of the ceiling as the check reports it; `RateLimit.RetryAcceptedIff` says it from the trace.
- Text that is not ASCII in the spool; the source reads nothing at all from a file with a torn multi-byte character.
- JSON: the app server's messages are parsed by a given function. Of a spool line only the form `serde_json` writes is modelled.
- LineCodec.LinesAreLawful: the reader accepts the lines the writer writes and no others; that `serde_json` also reads other spellings of an entry is not modelled.
- Crashes of the disk beyond losing an unsynced end: a rename is atomic and durable, and syncing the directory is not modelled.
- Two fetches at once in one proxy: `spool_and_confirm` is one at a time.
- Delivery.NothingIsLost: does not cover an id sent while its line was unsynced, which the source can lose; `Delivery.SendsWhatIsDurableIff` says exactly when that is.
- CodexWake.OneTurnForEachMark: does not promise one turn after an acceptance without a turn id, which the source repeats; `CodexWake.SecondTurnIff` is exact.
- What happens after a turn was accepted and named: confirming it only decides what is reported.
- Ownership among Codex adapters: one runs at a time, and none is replaced in the middle of an iteration.
- Handlers of the proxy are not dropped midway, and first requests bind the conversation one at a time.
- Session: modelled on values, one event per critical section, because its subject is the interleaving of tasks; the fields behind the lock are not a class.
- Binding.OthersLeaveItAlone: does not cover a predecessor that replaces the whole record, which the source does not guard against.
- Labels other than project, role and channel; profile files; what a status or an error message says.
- Command lines, URL normalisation, file permissions, dashboards, recipes and hashing.
