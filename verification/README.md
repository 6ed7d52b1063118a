# Verified models of foghttp's stateful core

foghttp is an HTTP client with a Rust transport core and a Python front end. This project
models the parts of it whose correctness depends on whole runs rather than on one call: the
native telemetry client, the upload body channel and its completion verdict, the streaming
line splitter, the buffered-body byte budget with layered decompression, the cookie store, the
connection gates, the multipart Content-Type rewriter and the graceful synchronous close.
`dafny verify dfyconfig.toml` checks everything.

| module | models |
|---|---|
| `ShutdownSeal` | terminal events of opens and connections against `close_connections` |
| `ShutdownEvents` | which terminal event each open and connection gets; undisturbed operations; that shutdown can complete |
| `TelemetryJournal` | the bounded multi-producer journal with selective draining |
| `RequestPhases` | pool-acquire phase, connection use and cancel of one request |
| `UploadBody` | upload channel, producer verdict, in-flight frames, `is_complete` |
| `UploadProgress` | when an upload is complete, exactly, and that every upload can be |
| `LineSplitter` | incremental CRLF/CR/LF splitting with a deferred CR |
| `ByteBudget` | the shared byte counter under compare-and-swap interleavings |
| `ResponseBody` | body collection, decode layers, reservation and rollback |
| `CookieParsing` | matching, Max-Age, Set-Cookie attributes and what is stored of a value |
| `Cookies` | storage, eviction, secure overlay, ordered retrieval and the round trip |
| `CookieRetrieval` | scope, acceptance, expiry, header text, recency and deletion, over the strings of cookie and request |
| `CookieReach` | reachable stores at both caps, and the cookies they lose |
| `ConnectionGates` | per-origin and global permits with gate cleanup |
| `ContentType` | quote-aware splitting and the boundary rewrite |
| `SyncClose` | concurrent sends and closes of the synchronous client |
| `Basics`, `Runs`, `MapSums` | shared types and text operations, runs of a transition relation, sums over maps |

## How the models are built

Code that changes an object in place is a class whose methods are proved against a function of
the old state, or directly against the property they promise. Protocols with several threads
are transition systems: a state, a set of steps, and theorems about every run of any length
with any number of threads. Beside what every run keeps, each machine has theorems that say what
an operation achieves when nobody disturbs it, and that what was begun can be completed: such a
theorem exhibits a continuation. The same specification functions serve both where an operation is
one lock-held section (`AfterSend`, `AfterAbort`, `Account`, `AfterBegin`, `AfterTake`, ...).

Assumptions of the transition systems: memory is sequentially consistent; one lock-held
section, one channel operation or one atomic operation is one step. The compare-and-swap loops
of the byte counter are split further, into the load, every swap attempt (which may fail
spuriously) and the local update after it. Release builds are modelled, so debug assertions do
not stop a run. `usize` and `u64` are 64 bits wide; saturation, overflow checks and capped
arithmetic are written out.

## What the proofs show about the code

- A second concurrent `close_connections` call may return while the sealing call still has
  terminal events to offer (`EarlyReturnHappens`). After any call has returned, another event
  can be offered exactly when the sealing call owes one, and accepted exactly when it owes one
  or has one on its way to the journal (`ReturnIsFinalUnlessOwed`); after the sealing call
  itself has returned, nothing is offered or accepted (`NothingAfterShutdown`).
- After `cancel` the two request machines are silent, but `connection_aborted` called directly
  does not look at the state: a cancelled request is silent exactly when nobody calls it
  (`SilentAfterCancelIff`, and `CancelledIsNotSilent` for the call that breaks the silence).
- A complete upload verdict can be lost in one way only: a poll that saw the channel empty and
  open, overtaken by the end of the upload, and whose write timeout then fires
  (`CompleteIsStable`; `VerdictIsLost` is a run in which it happens). With a poll as one step the verdict is stable (`CompleteForever`).
- A declared upload length is exact unless it is 2^64 - 1 and more bytes than that are
  accepted. A declared length of zero is treated by the code as unknown.
- A new non-secure cookie evicts itself when its domain already holds 50 cookies, all of them
  Secure (`NewCookieSurvivesIff`), and such a store is reachable (`NewCookieIsLost`). A store
  from a non-secure origin costs a Secure cookie its place only in a full store
  (`InsecureStoreSparesSecure`), and there it does happen (`SecureCookieIsLost`).
- Path lengths are compared in UTF-8 octets, which differs from counting characters for
  paths outside ASCII.
- A rewritten Content-Type reads back exactly when the boundary closes its quotes, has no
  semicolon outside them and does not end in white space (`RewriteReadsBack`); a boundary ";"
  is lost (`SemicolonIsLost`), and every boundary that the program generates reads back
  (`GeneratedReadsBack`).

## Model

| member | source | states |
|---|---|---|
| ShutdownSeal.AtMostOnce | src/core/telemetry.rs:210-289 | in every interleaving, at every moment, each open has been offered at most one of Opened and OpenFailed, each connection at most one Closed, and an open made after the seal nothing; the journal accepts no more terminal events than were offered |
| ShutdownSeal.ExactlyOnceAtShutdown | src/core/telemetry.rs:267-289 | once the sealing call has returned, every open registered before the seal was offered exactly one terminal event and every connection whose handle was alive at the seal exactly one Closed |
| ShutdownSeal.NothingAfterShutdown | src/core/telemetry.rs:267-289 | once the sealing call has returned neither the offered nor the accepted events ever change again |
| ShutdownSeal.ReturnIsFinalUnlessOwed | src/core/telemetry.rs:267-289 | after any closing call has returned, some continuation offers another event iff the sealing call still owes one, and some continuation accepts one iff it owes one or has one in transit |
| ShutdownSeal.EarlyReturnHappens | src/core/telemetry.rs:267-289 | a run from the initial state in which a second call returns while the first still owes an event |
| ShutdownSeal.StepCount | src/core/telemetry.rs:372-382 | every step keeps the producer count equal to the number of threads past their increment, and admits no thread once some closer saw the count at zero |
| ShutdownSeal.StepRegistries | src/core/telemetry.rs:210-265 | every step keeps what is unfinished registered before the seal, and in the hands of the sealing call after it |
| ShutdownSeal.ThreadStepAccounts | src/core/telemetry.rs:464-536 | every producer step keeps, for each open and connection, offered plus claimed terminal events equal to what is due |
| ShutdownSeal.CloserStepAccounts | src/core/telemetry.rs:485-536 | every closer step keeps the same balance |
| ShutdownSeal.ThreadStepAccepted | src/core/telemetry.rs:350-370 | every producer step keeps accepted events, with those still undecided, within the offered ones |
| ShutdownSeal.CloserStepAccepted | src/core/telemetry.rs:283-289 | every closer step does too |
| ShutdownEvents.OpenedIffConnected | src/core/telemetry.rs:234-265 | in every run the Opened events number the connections, an open has one iff a connection came from it, then no OpenFailed, and a close comes after its connection's Opened |
| ShutdownEvents.ConnectionIsOpened | src/core/telemetry.rs:238-264 | a connection appears only before the seal, in the step of a thread admitted to open it, which offers exactly Opened of its open |
| ShutdownEvents.OpenIsRegistered | src/core/telemetry.rs:222-229 | an open made before the seal is registered and unfinished, one made after is finished and never registered |
| ShutdownEvents.SealClosesOnlyLive | src/core/telemetry.rs:272-275 | the sealing call takes over only connections alive at the seal |
| ShutdownEvents.RecordSucceeds | src/core/telemetry.rs:350-355 | before the seal an undisturbed recording offers its event and changes nothing else |
| ShutdownEvents.OpenSucceeds | src/core/telemetry.rs:234-265 | before the seal an undisturbed open makes a live registered connection and offers Opened |
| ShutdownEvents.OpenFails | src/core/telemetry.rs:513-525 | before the seal an undisturbed failure of an open offers OpenFailed |
| ShutdownEvents.CloseSucceeds | src/core/telemetry.rs:465-483 | before the seal an undisturbed close offers ConnectionClosed |
| ShutdownEvents.ShutdownCanComplete | src/core/telemetry.rs:280-289 | from every reachable sealed state the sealing call can return |
| TelemetryJournal.NothingLostOrDoubled | src/core/telemetry.rs:328-406 | in every interleaving each offered event is delivered, held, retained, queued, being recorded or dropped, exactly one of these; drops are those reported by full drains plus those still to report; the slot counter stays within the capacity |
| TelemetryJournal.FullBranchUnreachable | src/core/telemetry.rs:357-398 | a producer holding a slot never meets a full channel |
| TelemetryJournal.NothingDroppedWithinCapacity | src/core/telemetry.rs:357-398 | in every interleaving, while no more events were offered than there are slots, none is dropped |
| TelemetryJournal.DropsOnlyWhenFull | src/core/telemetry.rs:384-398 | an event is dropped only when events in the journal, producers about to send and unsettled batches use up every slot |
| TelemetryJournal.DrainDeliversItsScope | src/core/telemetry.rs:437-461 | when a drain ends, all events sent so far of its request and all client-scoped ones, or all events for a full drain, have been delivered in order |
| TelemetryJournal.DropsReportedByFullDrains | src/core/telemetry.rs:339-343 | every full drain takes the dropped count over once, and nothing else reports drops |
| TelemetryJournal.UndisturbedRecord | src/core/telemetry.rs:357-370 | with a free slot a recorded event enters the journal, without one it is counted as dropped |
| TelemetryJournal.UndisturbedWholeDrain | src/core/telemetry.rs:328-348 | a whole drain returns its batch, gives back its slots and, if full, takes the dropped count |
| TelemetryJournal.DrainFreesItsSlots | src/core/telemetry.rs:336-338 | in every run the slot counter falls by exactly the number of drained events |
| TelemetryJournal.DeliveredInOrder | src/core/telemetry.rs:436-462 | whatever the drains, per request and among client-scoped events the delivered events are a prefix of those recorded |
| TelemetryJournal.BatchesAreScoped | src/core/telemetry.rs:436-462 | no batch hands a request another request's event, no event is delivered twice, no client-scoped event is retained |
| TelemetryJournal.StepKeepsSlots | src/core/telemetry.rs:384-402 | every step keeps the slot counter equal to the events in the journal plus unused slots plus unsettled batches |
| TelemetryJournal.LockedJournal.DrainRequest | src/core/telemetry.rs:437-454 | the result is exactly the request's own and the client-scoped events, of the retained queue and then of the channel, and exactly the others are retained, in order |
| TelemetryJournal.LockedJournal.DrainAll | src/core/telemetry.rs:456-461 | retained events come first, then the channel, and both are emptied |
| TelemetryJournal.UndisturbedDrain | src/core/telemetry.rs:328-348 | lock, pops and unlock without interference leave the journal and return the batch that the drain methods state, for a request and for a full drain |
| RequestPhases.AcquireEventsAlternate | src/core/telemetry.rs:733-794 | after any operations the offered Started and Finished events strictly alternate, each Finished with the origin and hop of its Started |
| RequestPhases.UseEndsOnce | src/core/telemetry.rs:587-731 | no connection use is ended twice, by its token, by abort or by cancel |
| RequestPhases.OneAbortEventPerUse | src/core/telemetry.rs:630-731 | the offered abort events are exactly one per use that ended aborted and one per direct call |
| RequestPhases.NextEvents | src/core/telemetry.rs:547-794 | in every run the next events follow from the history: a phase begins iff none is open and nothing was cancelled, and an end carries the outcome and error of the operation that ends it |
| RequestPhases.OffersEventsOf | src/core/telemetry.rs:547-794 | the events of each operation, with the origin and hop of the phase or use that it ends |
| RequestPhases.UseAfter | src/core/telemetry.rs:587-731 | which operation begins, ends or leaves the connection use |
| RequestPhases.UseKeepsOrigin | src/core/telemetry.rs:601-622 | a use keeps its origin and the hop stored when it began |
| RequestPhases.NothingAfterCancel | src/core/telemetry.rs:630-655 | after cancel the only further events are those of direct `connection_aborted` calls, and both machines stay empty |
| RequestPhases.SilentAfterCancelIff | src/core/telemetry.rs:570-585 | a cancelled request is silent iff nobody calls `connection_aborted` directly |
| RequestPhases.CancelledIsNotSilent | src/core/telemetry.rs:570-585 | a cancelled request that offers an abort through a direct call |
| RequestPhases.RequestTelemetry.BeginPoolAcquire | src/core/telemetry.rs:547-550 | stores the hop and begins the phase unless cancelled or already active |
| RequestPhases.RequestTelemetry.FinishPhase | src/core/telemetry.rs:766-794 | takes the active phase and offers its end once |
| RequestPhases.RequestTelemetry.FinishActivePhaseError | src/core/telemetry.rs:657-666 | records the terminal error and ends the phase, unless cancelled |
| RequestPhases.RequestTelemetry.BeginConnectionUse | src/core/telemetry.rs:587-624 | hands out an owning token iff not cancelled and no use is active |
| RequestPhases.RequestTelemetry.FinishConnectionUse | src/core/telemetry.rs:687-713 | only the owning token ends the use |
| RequestPhases.RequestTelemetry.AbortActiveConnectionUse | src/core/telemetry.rs:715-731 | ends whatever use is active, with an abort event |
| RequestPhases.RequestTelemetry.Cancel | src/core/telemetry.rs:630-655 | ends phase and use once and forbids new ones |
| UploadBody.CompleteMeansEverythingSent | src/core/client/body.rs:184-255 | in every run `is_complete` implies: the producer finished, no error item was accepted, every accepted chunk was received, emitted in order and released, and a declared length is exactly the accepted bytes |
| UploadBody.CompleteIsStable | src/core/client/body.rs:355-405 | in every reachable complete state every step keeps the verdict iff no poll is between seeing an empty channel and its write timeout |
| UploadProgress.CompleteIff | src/core/client/body.rs:184-215 | in every run the body is complete iff the producer finished, no error was returned, every accepted chunk was emitted and dropped, the wire has seen the whole body (all declared bytes, or its end) and the transport flushed |
| UploadProgress.FlushCompletes | src/core/client/body.rs:217-226 | once all but the flush is there, the flush completes the body |
| UploadProgress.EveryUploadCanComplete | src/core/client/body.rs:126-139 | for every sequence of chunks, declared or unknown length, a run from the start sends exactly these and ends complete |
| UploadProgress.FinishedDeliversNothing | src/core/client/body.rs:355-405 | after the end, a producer error or a write timeout nothing is received or emitted any more |
| UploadProgress.DroppedIsClosed | src/core/client/body.rs:548-552 | a dropped body leaves a closed channel |
| UploadBody.VerdictIsLost | src/core/client/body.rs:355-405 | a run from the initial state whose complete verdict is revoked by a firing write timeout |
| UploadBody.CompleteForever | src/core/client/body.rs:281-314 | outside such a poll a complete verdict stays true under every later step |
| UploadBody.FailureIsForever | src/core/client/body.rs:649-680 | once a producer has failed or aborted the body never becomes complete |
| UploadBody.ChannelDeliversInOrder | src/core/client/body.rs:474-546 | in every run the received items are a prefix of the accepted ones, all of them once a finished channel is empty, and the queue stays within the capacity |
| UploadBody.ClosedAcceptsNothing | src/core/client/body.rs:577-611 | nothing is accepted after finish, a final send or an abort |
| UploadBody.StepKeeps | src/core/client/body.rs:184-680 | every step keeps the joint account of queue, producer verdict, outstanding frames, in-flight frames and emitted bytes |
| UploadBody.UploadBodyChannel.SendNowait | src/core/client/body.rs:474-508 | accepts iff open and below capacity, and then appends, counts the frame and settles the producer |
| UploadBody.UploadBodyChannel.Finish | src/core/client/body.rs:597-611 | closes once and settles the producer as finished |
| UploadBody.UploadBodyChannel.Abort | src/core/client/body.rs:577-595 | closes once, settles the producer as aborted and clears the queue |
| UploadBody.UploadBodyChannel.PollRecv | src/core/client/body.rs:532-545 | the head of the queue, else closed, else pending |
| UploadBody.UploadBodyChannel.DataFrameConsumed | src/core/client/body.rs:630-647 | one frame less, never below zero |
| UploadBody.RequestBodyCompletion.IsComplete | src/core/client/body.rs:184-215 | the verdict over the three pieces of state |
| UploadBody.RequestBodyCompletion.MarkTransportFlushed | src/core/client/body.rs:217-226 | flushed only when the wire body has ended and nothing is in flight |
| UploadBody.RequestBodyCompletion.DataConsumed | src/core/client/body.rs:245-255 | releases one frame in both counts |
| UploadBody.TrackedRequestBody.PollFrame | src/core/client/body.rs:281-405 | an undisturbed poll is the machine's two poll steps in sequence |
| LineSplitter.IterLines | foghttp/_streaming/text/lines.py:21-32 | for every chunking the lines are those of the whole text up to the first overlong one, and the error is raised iff there is an overlong one |
| LineSplitter.Splitter.Feed | foghttp/_streaming/text/lines.py:58-77 | under every continuation, the yielded lines and the remembered residue split like everything consumed; an error means that every continuation fails there |
| LineSplitter.Splitter.FeedLines | foghttp/_streaming/text/lines.py:69-75 | the scanning loop yields exactly the lines that end inside the chunk |
| LineSplitter.Splitter.ResolveDeferred | foghttp/_streaming/text/lines.py:62-67 | a deferred CR ends its line, together with a leading LF |
| LineSplitter.Splitter.NextBreak | foghttp/_streaming/text/lines.py:18-18 | the next match of the break pattern, with no break before it, settled whatever follows |
| LineSplitter.Splitter.Flush | foghttp/_streaming/text/lines.py:79-84 | the residue's own split, with no trailing empty line |
| LineSplitter.Splitter.AppendSegment | foghttp/_streaming/text/lines.py:86-92 | refuses exactly a nonempty segment that makes the line overlong, leaving the state alone |
| LineSplitter.Splitter.TakeLine | foghttp/_streaming/text/lines.py:94-98 | returns the pending line and empties it |
| LineSplitter.SplitAtBreak | foghttp/_streaming/text/lines.py:18-18 | the reference split cuts at the first break, CRLF counting as one |
| LineSplitter.OnlyCrAndLfBreak | foghttp/_streaming/text/lines.py:18-18 | text without CR and LF is one line |
| LineSplitter.EachBreakEndsALine | foghttp/_streaming/text/lines.py:18-18 | LF, CRLF and CR each end one line, before more text and at its end |
| LineSplitter.SplitInvertsTermination | foghttp/_streaming/text/lines.py:58-84 | splitting lines written with terminators gives the lines back |
| ByteBudget.RunConserves | src/core/metrics/buffered.rs:11-64 | in every interleaving the counter is the sum of held bytes adjusted for steps in flight, stays within limit and width, is zero when all reservations are dropped, and the silent escape of a release never fires |
| ByteBudget.QuiescentCounter | src/core/response/budget.rs:53-83 | with no step in flight the counter is exactly the sum of reserved bytes |
| ByteBudget.StepConserves | src/core/response/budget.rs:31-83 | every load, swap attempt and local update keeps the conservation law |
| ByteBudget.GrantedIff | src/core/metrics/buffered.rs:20-29 | in every run, at rest, a request is granted iff everything held, with it, is within limit and width |
| ByteBudget.ReserveInSteps | src/core/metrics/buffered.rs:11-39 | undisturbed, load, swap and local update have the outcome decided by the counter as it stands: own overflow, counter overflow, limit or grant |
| ByteBudget.ReleaseInSteps | src/core/metrics/buffered.rs:41-64 | undisturbed, a release takes the bytes off counter and reservation |
| ByteBudget.DropInSteps | src/core/response/budget.rs:79-83 | undisturbed, a drop takes everything held off the counter |
| ResponseBody.BufferedBodyReservation.ReserveBytes | src/core/response/budget.rs:31-46 | which counter value gives which error, and a charge exactly on success |
| ResponseBody.BufferedBodyReservation.ReserveChunk | src/core/response/budget.rs:54-62 | grows by the chunk or not at all, with the answer that the byte budget decides for the counter value seen |
| ResponseBody.BufferedBodyReservation.ReleaseChunk | src/core/response/budget.rs:64-76 | shrinks by the chunk, or reports underflow iff more is released than held |
| ResponseBody.BufferedBodyReservation.Drop | src/core/response/budget.rs:79-83 | everything charged is given back |
| ResponseBody.EnforceLimit | src/core/response/body.rs:66-83 | fails iff the sum is over the limit, also when it overflows |
| ResponseBody.BufferedBodyCollector.PushData | src/core/response/body.rs:32-41 | the reservation equals the content length, a refused chunk changes neither, and the size limit is checked first |
| ResponseBody.DecodeReaderResult | src/core/response/decompression.rs:188-234 | success adds exactly the decoded bytes; any failure restores the reservation; underflow and attempt overflow are unreachable |
| ResponseBody.DecodeReader | src/core/response/decompression.rs:173-186 | the same for one decoder, with its error |
| ResponseBody.DecodeDeflate | src/core/response/decompression.rs:152-171 | the zlib reader's output if it reads to the end, otherwise the raw one's, starting from the restored reservation; a decode failure only if neither reads to the end |
| ResponseBody.DecodeLayer | src/core/response/decompression.rs:105-150 | between layers the reservation is exactly the current content |
| ResponseBody.DecodeSupportedBody | src/core/response/decompression.rs:105-127 | the result is the content peeled in reverse listed order, its size is what stays reserved, and after an error nothing does |
| ResponseBody.PeelInvertsEncoding | src/core/response/decompression.rs:105-127 | for all codecs that undo single codings, peeling undoes the whole listed stack of section 8.4 of RFC 9110 |
| ResponseBody.TokensName | src/core/response/decompression.rs:96-103 | which coding each token names, in any casing and with blanks around it |
| ResponseBody.OtherTokensAreUnknown | src/core/response/decompression.rs:96-103 | any other token is unknown |
| ResponseBody.LineReadsBack | src/core/response/decompression.rs:71-94 | tokens joined by commas are read as the codings they name, in order |
| ResponseBody.LinesReadBack | src/core/response/decompression.rs:71-94 | several field lines are read in order, like one |
| ResponseBody.ContentCodingPlan | src/core/response/decompression.rs:71-94 | a body is decoded iff some coding is listed and none is unknown or unreadable, and the plan is the listed codings in order |
| Cookies.StoreStaysGood | src/core/policy/cookies.rs:81-123 | from the empty store, after any operations, identities are unique, a domain holds at most 50 cookies and the store at most 3000, and positions follow creation, strictly below counter saturation |
| Cookies.StoreEvictsAtMostOne | src/core/policy/cookies.rs:175-210 | in every reachable store an insertion leaves the old cookies and the new one, less at most one evicted cookie |
| Cookies.CapsEvictAtMostOne | src/core/policy/cookies.rs:175-210 | both eviction loops together run at most once and restore both caps |
| Cookies.NewCookieSurvivesIff | src/core/policy/cookies.rs:116-210 | in every reachable store a new cookie survives its insertion iff it is Secure, or its domain is below its cap or holds a non-secure cookie |
| Cookies.InsecureStoreSparesSecure | src/core/policy/cookies.rs:165-210 | in every reachable store a store from a non-secure origin removes a Secure cookie iff it inserts into a full store, below the domain cap, and no cookie was used longer ago than that one |
| Cookies.HeaderListsMatchingCookies | src/core/policy/cookies.rs:40-159 | from any reachable store a retrieval lists exactly the unexpired matching cookies, each once, longest path first and then by creation, and this is the only such list |
| CookieParsing.FoldIsCappedDecimal | src/core/policy/cookies.rs:367-372 | the saturating fold is min(decimal value, 400 days) for every digit string |
| CookieParsing.MaxAgeMeaning | src/core/policy/cookies.rs:355-374 | the expiry for digits, for a minus sign before digits, and the refusal of everything else |
| CookieParsing.Parse | src/core/policy/cookies.rs:226-289 | control characters are refused; a stored cookie is a nonempty ASCII pair within the size limit, scoped to its origin and an absolute path, Secure only from a secure origin, and obeys the name prefixes |
| CookieParsing.AttributesMeaning | src/core/policy/cookies.rs:321-353 | domain, path, expires and max-age are what the last fitting, parsing attribute of that name says and None iff there is none; secure iff some fitting attribute has that name |
| CookieParsing.ParseAttributes | src/core/policy/cookies.rs:322-352 | the loop returns attributes with that meaning |
| CookieParsing.ValueIsPairAndAttributes | src/core/policy/cookies.rs:403-411 | the pair and the raw attributes are exactly the pieces between the semicolons, and joined they are the value |
| Basics.SplitAllInvertsJoin | src/core/policy/cookies.rs:324-324 | splitting undoes joining pieces without the separator, so with its converse the split is fully determined |
| CookieParsing.PairReadsBack | src/core/policy/cookies.rs:403-411 | a pair written as name, equals sign and value, before any attributes, reads back |
| CookieRetrieval.AcceptedIff | src/core/policy/cookies.rs:226-289 | exactly which Set-Cookie values are accepted |
| CookieRetrieval.PathMatchesIff | src/core/policy/cookies.rs:302-309 | the cookie's path is the request path or a prefix of it that ends at a slash |
| CookieRetrieval.DomainMatchesIff | src/core/policy/cookies.rs:302-309 | the host is the domain or, unless an address, a name under it |
| CookieRetrieval.MaxAgePrecedes | src/core/policy/cookies.rs:274-287 | the stored expiry is the last readable Max-Age and, only without one, the last readable Expires |
| CookieRetrieval.MaxAgeDecides | src/core/policy/cookies.rs:298-300 | from every reachable store a kept cookie with a readable Max-Age is there until that time and no longer, whatever its Expires |
| CookieRetrieval.HeaderSendsCookiesInScope | src/core/policy/cookies.rs:40-159 | from every reachable store the header reads, at its semicolons, as the pairs in order; each is of an unexpired cookie in scope, and every such cookie has its place |
| CookieRetrieval.ExpiredDeletes | src/core/policy/cookies.rs:100-105 | in every reachable store, storing an expired cookie deletes the one of its identity and nothing else |
| CookieRetrieval.OverlaysIff | src/core/policy/cookies.rs:165-173 | exactly which Secure cookies are protected from a new one |
| CookieRetrieval.OverlayRefused | src/core/policy/cookies.rs:92-94 | in every reachable store, overlaying a protected cookie from a non-secure origin leaves the store as it was |
| CookieRetrieval.ListedAreMostRecent | src/core/policy/cookies.rs:145-151 | below saturation a retrieval makes the cookies it lists more recent than all others |
| CookieParsing.DefaultPath | src/core/policy/cookies.rs:256-261 | an absolute path that the request path matches, cut at its last slash |
| CookieParsing.ParsedMatchesIff | src/core/policy/cookies.rs:302-309 | a stored cookie matches the address that set it iff its path does |
| CookieParsing.ParsedMatchesOrigin | src/core/policy/cookies.rs:302-309 | a cookie without a Path attribute matches the request that set it |
| Cookies.StoredCookieIsSentBack | src/core/policy/cookies.rs:40-123 | round trip: from any reachable store a cookie that a store keeps is there until it expires and no longer, and the next request to the address that set it lists it, once, iff that address is within its path |
| CookieReach.ReachesPacked | src/core/policy/cookies.rs:81-123 | every number of Secure cookies up to the global cap is reachable, 50 to a host |
| CookieReach.NewCookieIsLost | src/core/policy/cookies.rs:175-199 | from a reachable store with 50 Secure cookies of a host, storing a non-secure cookie leaves the store unchanged |
| CookieReach.SecureCookieIsLost | src/core/policy/cookies.rs:201-209 | from a reachable full store, a store from a non-secure origin evicts a Secure cookie of another host |
| Cookies.Oldest | src/core/policy/cookies.rs:190-196 | the first of the least recently used, then oldest, eligible cookies |
| Cookies.Find | src/core/policy/cookies.rs:96-99 | the first cookie of the same identity, or none exists |
| Cookies.CookieStore.Store | src/core/policy/cookies.rs:81-123 | the new store as a function of the old one, in every branch |
| Cookies.CookieStore.EnforceCapacity | src/core/policy/cookies.rs:175-210 | both eviction loops |
| Cookies.CookieStore.RequestHeader | src/core/policy/cookies.rs:125-159 | a header that reads back as the pairs in sorted order, and one access stamp on every matching cookie and no other |
| Cookies.WriteHeader | src/core/policy/cookies.rs:149-157 | the loop writes a header that reads back, at its semicolons, as the pairs in the order given |
| Cookies.StampAll | src/core/policy/cookies.rs:150-152 | the loop that stamps each listed cookie |
| Cookies.CookieStore.PurgeExpired | src/core/policy/cookies.rs:161-163 | keeps the unexpired cookies in order |
| Cookies.PurgeContents | src/core/policy/cookies.rs:161-163 | what remains is exactly what is not expired |
| ConnectionGates.OneSemaphorePerOrigin | src/core/client/connection_limit.rs:183-199 | in every run, despite cleanup, all holders and waiters of an origin share the one semaphore in the map, and different origins never do |
| ConnectionGates.LimitsHold | src/core/client/connection_limit.rs:138-199 | live permits per origin never exceed the per-host limit, nor live connection permits the global limit |
| ConnectionGates.ConnectedHoldsAsked | src/core/client/connection_limit.rs:148-171 | in every run, with a per-host limit, a connected task holds a permit for exactly the origin it asked for |
| ConnectionGates.ConnectionsWithinLimits | src/core/client/connection_limit.rs:138-172 | in every run the connections to one origin number at most the per-host limit, and all connections at most the global one |
| ConnectionGates.WaitsOnlyAtLimit | src/core/client/connection_limit.rs:257-281 | a task is held up only while every permit it could take is out |
| ConnectionGates.AcquireSucceeds | src/core/client/connection_limit.rs:138-172 | with permits free a task connects and holds one permit of its origin and a global one |
| ConnectionGates.CleanupLeavesLiveOrigins | src/core/client/connection_limit.rs:189-198 | a lookup that cleans up leaves the new gate and exactly those of origins that somebody holds or waits for |
| ConnectionGates.FailedGlobalAcquireReturnsPermit | src/core/client/connection_limit.rs:154-165 | giving up on the global permit returns the origin permit and changes nothing else |
| ConnectionGates.AllPermitsReturn | src/core/client/connection_limit.rs:138-172 | when nobody holds or waits, every permit is back |
| ConnectionGates.CleanupKeepsRefs | src/core/client/connection_limit.rs:189-194 | cleanup never drops a semaphore that somebody holds |
| ConnectionGates.OriginConnectionGates.Semaphore | src/core/client/connection_limit.rs:183-199 | an existing gate is returned untouched; otherwise idle gates may go and a full semaphore enters |
| ContentType.JoinInvertsRawParts | foghttp/_multipart/content_type.py:51-88 | joining the raw split with ";" gives back every header, and of an accepted header every part has its quotes closed and semicolons quoted |
| ContentType.RawPartsInvertJoin | foghttp/_multipart/content_type.py:51-88 | splitting a join of such parts and any last text gives the parts back, then the split of the last text |
| ContentType.RewriteReadsBack | foghttp/_multipart/content_type.py:9-40 | the rewritten header re-splits into the original media type and stripped parameters in order plus one trailing boundary parameter iff the boundary is readable, and no other parameter names a boundary |
| ContentType.RewriteOkIff | foghttp/_multipart/content_type.py:9-40 | exactly which headers are rewritten, over the header's own parts |
| ContentType.OtherMediaRefused | foghttp/_multipart/content_type.py:11-12 | any other media type is refused, whatever its parameters |
| ContentType.BoundaryAnyCasing | foghttp/_multipart/content_type.py:91-92 | a parameter called boundary, in any casing and with space around the name, counts |
| ContentType.QuotedIsClean | foghttp/_multipart/content_type.py:57-79 | any text, escaped, is safe in a quoted string |
| ContentType.QuotedParameterIsOnePart | foghttp/_multipart/content_type.py:34-88 | a quoted parameter value, whatever it contains, stays one part |
| ContentType.UnclosedIsRefused | foghttp/_multipart/content_type.py:85-88 | an unclosed quoted string makes the header unacceptable |
| ContentType.SemicolonIsLost | foghttp/_multipart/content_type.py:18-23 | the boundary ";" is accepted and does not read back |
| ContentType.GeneratedReadsBack | foghttp/_multipart/encoding.py:12-13 | with a generated boundary every rewritten header reads back |
| ContentType.MediaTypeAccepted | foghttp/_multipart/content_type.py:9-15 | the bare media type, in any casing, is accepted |
| ContentType.RewriteIsNotRepeatable | foghttp/_multipart/content_type.py:13-14 | rewriting a rewritten header is refused |
| ContentType.Splitter.Split | foghttp/_multipart/content_type.py:51-88 | the character machine computes the reference split, and refuses exactly unclosed quotes and escapes |
| ContentType.Splitter.Append | foghttp/_multipart/content_type.py:57-76 | only a semicolon outside quotes ends a part |
| ContentType.ComputeStrippedParts | foghttp/_multipart/content_type.py:34-40 | the nonempty stripped parts in order |
| ContentType.ExplicitContentTypeWithBoundary | foghttp/_multipart/content_type.py:9-31 | every error condition in its order, and the rewritten header |
| SyncClose.OneRawClientClosedOnce | foghttp/client.py:408-441 | in every run at most one raw client is created, however late, and it is closed at most once, with no send active |
| SyncClose.CloseReturnsAfterCompletion | foghttp/client.py:408-441 | a close returns only after completion: no active send and every raw client created has been closed exactly once |
| SyncClose.NoSendAfterCloseBegins | foghttp/client.py:532-552 | once a close has begun the active sends only shrink |
| SyncClose.CompletionIsFinal | foghttp/_client/core.py:193-198 | after completion no raw client appears or is closed again |
| SyncClose.BegunSendIsActiveIff | foghttp/client.py:532-535 | a send is active iff it was begun before any close, and refused otherwise |
| SyncClose.ActiveSendKeepsClient | foghttp/client.py:421-428 | while a send is active no raw client is taken away or closed |
| SyncClose.SendGetsClient | foghttp/_client/core.py:193-198 | an active send gets the one raw client, creating it if it is the first |
| SyncClose.EveryCloseCanReturn | foghttp/client.py:408-441 | from every reachable state in which a close has begun, every close call can return |
| SyncClose.Client.BeginSyncSend | foghttp/client.py:532-535 | admitted iff not closed |
| SyncClose.Client.FinishSyncSend | foghttp/client.py:545-552 | removes the token |
| SyncClose.Client.SyncSendRawClient | foghttp/_client/core.py:193-198 | returns the raw client, creating it on first use |
| SyncClose.Client.TakeClient | foghttp/client.py:421-428 | takes the raw client over; with none the close is complete |

## Left out

- Python bindings, future completion, policy and authentication hooks: foreign calls.
- Hyper, TLS, DNS, proxy connectors and URL parsing: library code.
- Wakers, condition-variable fairness, liveness and weak-memory effects: only safety under interleaved steps is stated.
- The interleaved protocols (`ShutdownSeal`, `ByteBudget`, and the machines of `TelemetryJournal`, `UploadBody`, `ConnectionGates`, `SyncClose`) are transition systems over values; aliasing of handles is represented by explicit references and alive flags.
- Codec internals, cookie date parsing and internationalised domain names: arbitrary functions.
- The 16 KiB limit on a whole Set-Cookie value and the choice of secure origins: single checks by the caller; a response is a purge followed by any stores.
- The size-hint check, the header rewriting after decoding and the rejected-request metric: single-branch code.
- Buffered (non-streaming) request bodies: one frame, no producer.
- The `Disconnected` branch of a journal send: the receiver lives as long as its senders.
- The `waited` flag and the acquire metrics of the connection gate: counters without effect on permits.
- Post-fork closing and interrupts while a close waits: runtime behaviour.
- SSRF, redirect and retry decisions, limit validation, metrics registries, logging and exporters: easy members only.
- TelemetryJournal.NothingLostOrDoubled: the dropped-event counter is unbounded here, so its 64-bit wrap-around is not modelled.
- ShutdownSeal.AtMostOnce: whether the bounded journal accepts or drops an offered event is left open; `TelemetryJournal` decides it by its slots, and the two machines are not composed.
- Cookies.HeaderListsMatchingCookies: once the creation counter saturates, equal creations are ordered by position, as the stable sort does.
- Cookies.CookieStore.RequestHeader: assumes no stored pair is empty, which `Cookies.StoreStaysGood` proves of every reachable store.
