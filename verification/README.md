# Mail relay: a verified model

The relay accepts mail over SMTP, matches each email against rules, and delivers a
signed webhook request for every rule that matches. Requests are kept in a durable queue
in SQLite, sent by a pool of workers, and retried with exponential backoff. This project
models that behaviour in Dafny and proves what the relay relies on.

`dafny verify dfyconfig.toml` checks everything.

## The parts

**The delivery queue.** `Tables` holds the three tables and the effect of every SQL
statement on them. `Storage` is the store itself: a class whose methods run one transaction
each, statement by statement, and may fail at any statement without effect. `Retry` is the
logic of one attempt (`runQueued`) and the older in-memory loop (`dispatchOne`), both proved
against the same description; `Backoff` is the waiting time. `QueueSystem` puts the pieces
together as a step system: any number of workers with the job copies they hold, the stop
and cancel flags, settings that change at any time, replays, deletions, retention, crash and
restart. `QueueInvariant` states one inductive invariant, `QueueSteps` proves that every
step keeps it, and the theorems about whole runs follow in `QueueTheorems` (safety),
`QueueLosses` (lost outcomes), `QueueProgress` (shutdown, due times, fairness),
`QueueRetryTimes` (no retry before its time), `QueueTermination` and `QueueDrain` (the queue
drains, by a decreasing measure), `QueueWaits` (the waits are the backoff, in turn). `QueueRefinement` shows that a run of this system does for
each delivery what the in-memory loop would, for the outcomes recorded, and `QueueArrivals`
which outcomes those are. `Aggregate` relates the two computations of an
email's status.

**The way in.** `RuleEngine` and `Ingest` follow an email from the SMTP session through
the handler to the published batch. `QuotedPrintable` is the body decoder, `TrailingBlanks`
where it departs from the standard. `Arc` (with the chains of `ArcExamples`), `Domains` and
`Auth` are the authentication decision, over the string functions of `Text`. `Acceptance`
joins the two halves: what a session leaves in the tables are steps of the queue system, so
the theorems about its runs hold for accepted mail.

**Importing rules.** `RuleTransfer` has the import transaction, the separately written
preview, and validation.

## Reading the model

A Dafny class is used where the source updates state in place (the store, the engine, the
relay, the rules table). The step system works on values, because a run is a sequence of
states. The parameter `fuse` of a transaction says how many statements the database
accepts before it reports an error; statements are all-or-nothing and the pool has one
connection, so one transaction is one step. `hist` in the step system is what an observer
remembers. Apart from making new ids new, no step depends on it.

Cut-off points of workers: every read of the stop channel, every transaction, the start of
a request and the arrival of its outcome are separate steps, so other steps fall between
any two of them.

## Where code, comments and intuition part

* A retry limit below zero: the in-memory loop sends nothing and reports a failure, the queue
  sends once. `Retry.QueueRefinesDispatch` shows that the two agree exactly when the limit
  is not negative (or the payload could not be built). Validation keeps a rule's own limit
  from being negative, so a validated rule is safe under every global setting exactly if it
  has a limit of its own (`RuleTransfer.OwnLimitExactly`).
* A retry may start before its wait is over if the failed attempt was not recorded, because
  of a crash or a failed save (`QueueRetryTimes.UnrecordedRetryIsEarly`), and only then
  (`QueueRetryTimes.NoEarlyRetry`).
* Validation compares a rule's initial and maximum wait only when it has both. With one of its
  own and one global they may be out of order (`RuleTransfer.WaitsOutOfOrder`); the first wait
  is then the maximum (`RuleTransfer.FirstWait`). A validated rule has its waits in order under every ordered global
  setting exactly if it has both of its own or neither (`RuleTransfer.WaitsInOrderExactly`).
* An empty batch: the query says `failed`, `computeStatus` says `dropped`. They agree
  exactly on non-empty batches (`Aggregate.QueryMatchesLoop`); callers publish no empty one.
* The comment on `checkARCChain` asks that the highest-numbered seal be valid. The code
  asks for some valid seal. `Arc.CommentDisagrees` has the exact difference and
  `ArcExamples.InvalidHighestPasses` a chain on which they differ. The model follows the code.
* ARC results with the same instance: the preserved results depend on header order exactly
  when two headers of instance 1 disagree (`Arc.OrderMattersExactly`), as two written ones do
  in `ArcExamples.OrderMattersAt`.
* With SPF and DKIM switched off and DMARC enforced, nothing can pass but a kept result. A
  message with a sender domain is refused exactly if its ARC chain kept a DMARC failure, or
  kept no DMARC result and the domain has a record (`Auth.DmarcAloneRefuses`).
* The preview of an import shows a rule as updated although the merge will not touch it
  exactly when the file gives it an empty header map (`RuleTransfer.UnchangedExactly`,
  `RuleTransfer.EmptyHeadersShowAsUpdated`). In replace mode "unchanged" speaks of the
  settings only; the row gets a new identity (`RuleTransfer.UnchangedUnderReplace`).
* A prefix of labels leaves the organisational domain alone only for domains of at least
  two labels (`Domains.SubdomainsShareOrg`).
* The quoted-printable decoder keeps blanks at the end of a line, and does not see a
  soft-break mark before them, where rule (3) of section 6.7 of RFC 2045 removes them. It
  agrees with that rule exactly on data without such a line (`TrailingBlanks.BlanksKept`,
  `TrailingBlanks.BlanksKeptAt`).

## Model

| member | source | states |
|---|---|---|
| QueueTheorems.MutualExclusion | internal/webhook/queue.go:114-147 | In every reachable state no two workers hold the same delivery; a held row is in progress with the held attempt count, or its email was deleted under the worker. |
| QueueTheorems.FinalResultsStay | internal/storage/queue.go:80-113 | A final result is never overwritten in any continuation, although saving checks no ownership. |
| QueueTheorems.NoLostDelivery | internal/storage/queue.go:23-52 | Every published delivery is final, or unfinished with its email and its original snapshot, or was deleted; unfinished work only by hand. Unfinished, snapshot present and a real due time coincide. |
| QueueTheorems.RetentionSparesUnfinished | internal/storage/store.go:379-400 | Retention keeps every unfinished delivery, its queue row and its email, for any cutoff. |
| QueueTheorems.RestartResumes | internal/webhook/queue.go:34-56 | After a crash and a restart every unfinished row is pending, otherwise as before, and claimable exactly from its due time on. |
| QueueTheorems.SendLedger | internal/webhook/queue.go:149-201 | For every delivery of every run: requests begun = attempts recorded + outcomes lost + the one in flight; recorded attempts stay within max(1, limit + 1). |
| QueueTheorems.NothingLost | internal/webhook/queue.go:149-201 | Without crash, cancellation or failed save a delivery that is still there has lost no outcome. |
| QueueLosses.OneLossAtMost | internal/webhook/queue.go:149-201 | The same for deleted deliveries: at most one outcome is lost ever, that of the request out at the deletion. |
| QueueTheorems.AttemptsNeverDecrease | internal/storage/queue.go:83-91 | Recorded attempts never decrease over any run. |
| QueueTheorems.PuttingBackIsFree | internal/webhook/queue.go:128-138 | Release and cancellation put a row back pending, due at that moment, with unchanged attempts and snapshot. |
| QueueTheorems.AggregateStatus | internal/storage/queue.go:103-108 | In every reachable state an email with unfinished work is received; otherwise it is dropped if so marked since its last batch, else what its last batch alone says. |
| QueueTheorems.LastBatchDecides | internal/storage/queue.go:23-45 | The batch published last decides the final status alone, even if older replays finish later, until the next batch or drop. |
| QueueTheorems.SnapshotIsolation | internal/webhook/queue.go:84-112 | Whatever changes in rules and settings, also between reading the settings and publishing, an unfinished delivery keeps what was resolved at enqueue, holds no secret, and every request for it is that snapshot, signed iff it was signed then, with a secret current at sending. |
| QueueTheorems.BeginUsesCurrentSecret | internal/webhook/queue.go:149-163 | Let k be the first position of a rule with the delivery's name. A request of a signed delivery begins with the secret of that rule, and not at all when there is no such rule or its secret is empty; an unsigned one begins as it is. |
| QueueTheorems.SecretOfFirst | internal/rules/engine.go:33-42 | The secret of a name is that of the first rule with that name, if there is one. |
| QueueTheorems.GoneStaysGone | internal/storage/queue.go:83-113 | A deleted delivery never comes back, whatever is saved for it later. |
| QueueTheorems.StepMoves | internal/webhook/queue.go:114-201 | All that one step can do to one delivery row: nothing, claim, recover, or the save of the worker that holds it. |
| QueueSteps.StepKeeps | internal/webhook/queue.go:34-201 | Every step of the system keeps the invariant. |
| QueueSteps.RunKeeps | internal/webhook/queue.go:34-201 | Every run keeps the invariant. |
| QueueSteps.EnqueueKeeps | internal/storage/queue.go:25-45 | Publishing a batch, first or replay, keeps the invariant of all rows, workers and emails. |
| QueueSteps.ClaimKeeps | internal/storage/queue.go:54-78 | Claiming keeps the invariant: the row was held by nobody. |
| QueueSteps.SaveKeeps | internal/storage/queue.go:83-113 | Saving, or failing to, keeps the invariant, also for a delivery deleted meanwhile. |
| QueueSteps.DeleteKeeps | internal/storage/store.go:319-330 | Deleting emails with their rows keeps the invariant while workers hold their jobs. |
| QueueSteps.CrashKeeps | internal/webhook/queue.go:34-56 | A crash at any point keeps the invariant. |
| QueueSteps.StartKeeps | internal/webhook/queue.go:36-56 | Recovery and start keep the invariant. |
| QueueProgress.StoppedWorkerSendsNothing | internal/webhook/queue.go:117-137 | After stop is closed a worker short of its second look never sends in this process. |
| QueueProgress.StopBoundsRequests | internal/webhook/queue.go:58-63 | After stop at most one request begins per worker already past its second look. |
| QueueProgress.ShutdownEnds | internal/webhook/queue.go:65-82 | After stop the workers take a bounded number of further steps, whatever happens around them. |
| QueueProgress.ShutdownNeverStuck | internal/webhook/queue.go:65-82 | Until a worker has returned it can take a step, whatever its request gives. |
| QueueProgress.CleanShutdown | internal/webhook/queue.go:65-82 | Without crash or failed save nothing is in progress once all workers returned. |
| QueueProgress.NoEarlyClaim | internal/storage/queue.go:63 | With a clock that never goes back and waits that are not negative, no pending row is claimed before its due time in any continuation, retries included. |
| QueueRetryTimes.NoEarlyRetry | internal/webhook/queue.go:192-199 | After a retryable failure at time t, over any continuation in which the failure gets recorded, every later claim comes at t plus the backoff or after; once recorded, crashes and restarts change nothing. |
| QueueRetryTimes.RetryIsScheduled | internal/storage/queue.go:89-95 | Whatever happens between the failure and its save, the save leaves the row pending, one attempt further, due exactly one backoff after the failure. |
| QueueRetryTimes.UnrecordedRetryIsEarly | internal/webhook/queue.go:203-207 | The condition is needed: whatever happens after the failure, a crash or failed save before the record keeps the old due time, and after a restart the row is claimable at once. |
| QueueProgress.BoundedBypass | internal/storage/queue.go:63 | A row due by d that is not claimed itself is passed by fewer claims than rows were ahead of it; publications, retries and releases never get in front. |
| QueueProgress.AheadStep | internal/storage/queue.go:54-78 | The number of rows ahead never grows and falls with every claim. |
| QueueDrain.EverySchedule | internal/webhook/queue.go:114-147 | Without new work, crash, stop or failed save, every schedule holds a bounded number of useful steps (one more per idle look), and one that goes on until no worker has a useful step left has made every delivery final. |
| QueueDrain.StopsOnlyDrained | internal/webhook/queue.go:114-147 | Working workers run out of useful steps only when every delivery is final. |
| QueueDrain.RunsOutExists | internal/webhook/queue.go:114-147 | From every state with working workers there is a schedule that runs out. |
| QueueDrain.StartDrains | internal/webhook/queue.go:34-56 | From any start of the process, with everything due by h and waits of at most m, the workers can make every delivery final within the bound, whatever outcomes the requests have, in order, with clock readings that begin no earlier than the start and, when waits are not negative, never go back. |
| QueueDrain.BoundsExist | internal/webhook/queue.go:34-56 | Before every start there are such h and m. |
| QueueDrain.LeftFalls | internal/webhook/queue.go:114-147 | Every useful worker step lowers the measure behind it. |
| QueueTermination.Termination | internal/webhook/queue.go:172-199 | Claims and effective saves alone are bounded, with idle looks and all other steps in between free. |
| QueueTermination.WorkFalls | internal/storage/queue.go:83-113 | The measure behind it never rises and falls with every claim and every effective save. |
| QueueTermination.NeverStuck | internal/webhook/queue.go:114-147 | While a delivery is unfinished some worker has a step other than an idle look; with the measure above, such steps run out. |
| QueueRefinement.RunRefinesDispatch | internal/webhook/queue.go:114-201 | Over any run from its publication on, with other workers, settings, crashes and restarts, a delivery has made a beginning of the requests of dispatchOne for the outcomes recorded, and the same request once more for each outcome lost; once final, its row is the result of dispatchOne for them, after the same waits. |
| QueueArrivals.NothingLostAllRecorded | internal/webhook/queue.go:149-213 | A delivery that lost no outcome has recorded every outcome that arrived, in order, but for one its worker has yet to save. |
| QueueRefinement.TrackStep | internal/webhook/queue.go:114-201 | Every single step of the system keeps a delivery on that track. |
| QueueWaits.DelaysAreBackoffs | internal/webhook/queue.go:192-199 | Over any run from its publication on, the waits between the recorded attempts of a delivery are the backoff of its own settings, in turn. |
| Retry.QueueRefinesDispatch | internal/webhook/queue.go:149-201 | Round by round, for every stream of outcomes: the persisted rounds give the same result, requests and waits as the in-memory loop, if and only if the payload failed to build or the retry limit is not negative. |
| Retry.DrainEnds | internal/webhook/queue.go:149-201 | From any recorded attempt count, rounds of claim, attempt and save end at the last allowed or first final attempt with one request per attempt. |
| Retry.DispatchOne | internal/webhook/dispatcher.go:75-184 | The loop gives the result, requests and waits that DispatchMeans and NothingToSend spell out; a cancelled one did a proper prefix of them. |
| Retry.RunQueued | internal/webhook/queue.go:149-201 | One attempt gives up unsent as PrepareMeans spells out, or sends with the resolved secret and records result and next due time as DecideMeans does. |
| Retry.ResolveSecret | internal/webhook/queue.go:226-238 | A delivery signed at enqueue gets the current secret exactly if there is a non-empty one, and none otherwise; an unsigned one is never signed. |
| Retry.AfterSend | internal/webhook/dispatcher.go:132-166 | The loop returns after a send exactly on the outcomes that OutcomeMeans does not retry, with what it says is reported. |
| Retry.OutOfAttempts | internal/webhook/dispatcher.go:171-183 | When attempts run out the result is the verdict of the last outcome. |
| Retry.OutcomeMeans | internal/webhook/dispatcher.go:132-184 | Which outcomes are worth another attempt, and what the others report: a status of 400 to 499 and a blocked address are rejected, an unwanted timeout failed; every other status and failure is retried; status code, text and body are recorded. |
| Retry.DecideMeans | internal/webhook/queue.go:176-201 | What one attempt records, for every outcome: success; pending and due after the wait, with one attempt more, for a failure worth another attempt while the limit is not reached; rejected or failed and final otherwise; put back, due now, with the old attempt count, if cancelled. |
| Retry.PrepareMeans | internal/webhook/queue.go:149-162 | Which deliveries are given up unsent, and why; the others are sent, with the current secret iff they were signed. |
| Retry.DispatchMeans | internal/webhook/dispatcher.go:98-184 | The whole dispatch without interruption: the number of requests is that of the first outcome not worth another attempt, or the limit plus one; all are the same request, with the waits in between in turn; the last outcome gives the result. |
| Retry.NothingToSend | internal/webhook/dispatcher.go:91-184 | Without a body, or with a negative limit, there is no request, and what is reported then. |
| Backoff.WaitsNeverDecrease | internal/webhook/dispatcher.go:234-237 | Waits never decrease while the arithmetic is exact. |
| Backoff.TotalBounded | internal/webhook/dispatcher.go:234-237 | n retries wait at most n times the maximum, and at most the initial wait times 2^n - 1 while exact. |
| Backoff.WaitsDouble | internal/webhook/dispatcher.go:234-237 | The first wait is the smaller of initial wait and maximum, and each further one twice the one before, or the maximum once that is less. |
| Backoff.BeyondRange | internal/webhook/dispatcher.go:234-237 | Where float64 or int64 is left, any wait up to the maximum is possible. |
| Storage.Store.EnqueueDeliveries | internal/storage/queue.go:23-45 | Succeeds exactly if keys and database accept everything, and then the whole batch is published; otherwise nothing is. |
| Storage.Store.RecoverDeliveries | internal/storage/queue.go:47-52 | No queued row is left in progress, no other field of any row changes; on failure nothing does. |
| Tables.RecoverMeans | internal/storage/queue.go:47-52 | Recovery keeps what is unfinished unfinished, touches only rows in progress, and finds nothing to do a second time. |
| Storage.Store.ClaimDelivery | internal/storage/queue.go:54-78 | Returns an oldest due pending row as it was and marks it in progress; none exactly if nothing is due or the database fails. |
| Storage.Store.FinishDelivery | internal/storage/queue.go:80-113 | Records result, due time or release, and the aggregate status once nothing is unfinished; all or nothing. |
| Tables.SaveThenDelete | internal/storage/store.go:137-162 | Storing a new email and deleting it restores the tables. |
| Tables.PublishThenDelete | internal/storage/store.go:74-94 | Deleting an email after a batch was published for it leaves what deleting it before would have left: the cascade misses no published row. |
| Storage.Store.UpdateEmailStatus | internal/storage/store.go:164-170 | Dropping an email with an unfinished delivery changes nothing; otherwise the status, and only this one, is set. |
| Storage.Store.DeleteEmail | internal/storage/store.go:319-322 | No row refers to the email any more, and every other email and delivery is as it was. |
| Tables.DeleteMeans | internal/storage/store.go:74-94 | The cascade removes exactly the rows of the deleted emails, and deleting in two steps, in either order, is deleting at once. |
| Storage.Store.CleanupExpired | internal/storage/store.go:379-400 | An email is removed iff it was received more than retentionDays days (of 86400 seconds, in nanoseconds) ago and none of its queued deliveries is pending or in progress; the returned ids are exactly those removed. |
| Tables.ExpiredMeans | internal/storage/store.go:386 | The same for any cutoff. |
| Tables.ClaimMeans | internal/storage/queue.go:54-78 | A claim takes a pending row with its email that is due, none of which is due earlier; the copy has the row's values, and only the status of the row changes. |
| Tables.FinishMeans | internal/storage/queue.go:80-113 | What a save leaves in every row: the result; the next due time, or no snapshot and the largest int64; and, when nothing of the email is pending or in progress, its status by the successes and failures of the latest batch. |
| Tables.UpdateMeans | internal/storage/store.go:164-170 | A status is written unless it says dropped while a delivery of the email is pending or in progress; nothing else changes. |
| Tables.PublishMarks | internal/storage/queue.go:41-43 | A published batch makes its email received under that batch and leaves the other emails alone. |
| Tables.PublishStores | internal/storage/queue.go:32-40 | A published batch holds each of its jobs exactly as given. |
| Tables.PublishKeeps | internal/storage/queue.go:32-40 | Publishing leaves every other delivery as it was. |
| Aggregate.ComputeStatus | internal/webui/handler.go:1236-1254 | The counting loop gives the status of the batch. |
| Aggregate.StatusMeans | internal/webui/handler.go:1236-1254 | Dropped without results, delivered if all succeeded, failed if none did, else partial. |
| Aggregate.QueryMatchesLoop | internal/storage/queue.go:103-107 | The SQL aggregate and the loop agree exactly on non-empty batches. |
| RuleEngine.MatchRule | internal/rules/engine.go:67-86 | A rule matches iff it has no condition, or some hits in mode any, or all hit otherwise. |
| RuleEngine.MatchingIsExact | internal/rules/engine.go:45-65 | Exactly the matching rules fire, once each, in engine order. |
| RuleEngine.Engine.Match | internal/rules/engine.go:45-65 | Returns the matching rules of the current list. |
| RuleEngine.Engine.SigningSecret | internal/rules/engine.go:33-42 | Finds the secret of the first rule with the name, and none iff no rule has it. |
| Ingest.Relay.Enqueue | internal/webhook/queue.go:84-112 | Resolves every snapshot and publishes them all in one transaction, or none. |
| Ingest.SnapshotMeans | internal/webhook/queue.go:84-103 | What is written down for a rule: the rule without its secret, whether it had one, the body or the reason there is none, and each retry setting: the rule's own, seconds made nanoseconds, or else the global one. |
| Ingest.Relay.Handle | cmd/mailrelay/main.go:293-356 | What a handled email leaves behind, for every way of failing. |
| Ingest.Relay.Data | internal/smtp/server.go:164-225 | 550 leaves at most the refused email, 451 at most the bare one, 250 the whole batch. |
| Ingest.DurableAcknowledgement | internal/smtp/server.go:213-224 | An accepted email is stored with exactly one fresh pending delivery per matching rule in one batch, and every other delivery is untouched. |
| Acceptance.InterleavedIsSteps | internal/smtp/server.go:164-225 | Whatever steps fall between storing the email, matching it, reading the settings and the second transaction, what a handled session does are enabled steps of the queue system; it answers 250 iff no rule matched, or the email is still stored at the second transaction and the database takes the batch, so that a deletion in between gives 451. |
| Acceptance.OnlyDeletionsIntervene | cmd/mailrelay/main.go:293-347 | Without a deletion in between, the database alone decides that. |
| Acceptance.SessionIsSteps | internal/smtp/server.go:164-225 | From every reachable state, what a session leaves in the tables is the result of enabled steps: none, storing the email, or storing it and then dropping it or publishing its batch. |
| Acceptance.AcceptedIsAccounted | cmd/mailrelay/main.go:293-347 | After 250, whatever fell between the transactions and in every continuation with crashes, restarts, retention and replays, each rule that matched has a delivery with the request resolved at acceptance, final or unfinished, until it is deleted; unfinished, only by hand. |
| Acceptance.PublishedGetsDone | internal/webhook/queue.go:114-201 | A batch published in any reachable state and left undisturbed until no worker has a useful step left: a delivery of it that is still there has the requests, waits and final row of dispatchOne for the outcomes that arrived. |
| Acceptance.PublishedCanGetDone | internal/webhook/queue.go:114-201 | Such a schedule exists after every publication with working workers, with every delivery of the batch still there at its end. |
| Acceptance.AcceptedGetsDone | cmd/mailrelay/main.go:330-347 | The same for every rule that matched an email answered with 250. |
| QuotedPrintable.RoundTrip | internal/smtp/parser.go:214-269 | Decoding gives what the pieces of the data stand for: literals, escapes of any byte with digits of either case, soft breaks and line breaks with any carriage returns, and bytes that stand for themselves because no escape or line end follows. |
| QuotedPrintable.EncodingExists | internal/smtp/parser.go:214-269 | Every byte string comes back from its encoding with upper-case digits, and with lower-case ones. |
| QuotedPrintable.EveryInput | internal/smtp/parser.go:214-269 | All data consists of such pieces, malformed escapes and stray carriage returns included, so that the round trip says what every input decodes to. |
| QuotedPrintable.UnhexMeans | internal/smtp/parser.go:258-269 | The value of a digit of either case, and -1 for exactly the bytes that are none. |
| QuotedPrintable.TwoPhasesAreOnePass | internal/smtp/parser.go:214-256 | Splitting in lines and decoding each equals a one-pass decoder on every input. |
| QuotedPrintable.NeverLonger | internal/smtp/parser.go:214-256 | Decoding never lengthens its input. |
| TrailingBlanks.BlanksKept | internal/smtp/parser.go:214-256 | The output equals that of a decoder that removes blanks at line ends, padding after a soft-break mark included, iff no line ends in a blank after its carriage returns. |
| TrailingBlanks.EndsInBlankMeans | internal/smtp/parser.go:214-256 | Such a line has a space or a tab with only carriage returns after it. |
| TrailingBlanks.LinesDiffer | internal/smtp/parser.go:214-256 | Where some line does, the output is longer. |
| TrailingBlanks.BlanksKeptAt | internal/smtp/parser.go:214-256 | Two inputs on which they differ. |
| QuotedPrintable.Decode | internal/smtp/parser.go:214-239 | The line loop computes the two-phase decoding. |
| QuotedPrintable.DecodeLine | internal/smtp/parser.go:241-256 | The index loop decodes one line. |
| Arc.CheckArcChain | internal/smtp/auth.go:37-78 | Passes iff no seal says fail and some seal is valid for its instance, and then keeps the results of the first header of instance 1. |
| Arc.KeptResults | internal/smtp/auth.go:66-78 | A passing chain keeps, method by method, what the first header of instance 1 reports for spf, dkim and dmarc, and nothing without one; a failing chain keeps nothing. |
| ArcExamples.WrittenChainPasses | internal/smtp/auth.go:43-65 | Which chains of written seals pass: none has cv fail, and one has cv pass with a positive number or cv none with number 1. |
| Arc.HighestValid | internal/smtp/auth.go:51-61 | The running maximum is the highest instance among the valid seals, zero iff there is none. |
| Arc.SealOrder | internal/smtp/auth.go:43-65 | The answer is the same for every order of the seals; one fail settles it. |
| Arc.OrderMattersExactly | internal/smtp/auth.go:67-77 | Preserved results are independent of header order iff the headers of instance 1 agree. |
| Arc.DistinctInstancesAgree | internal/smtp/auth.go:67-77 | Distinct instances suffice for that. |
| Arc.CommentDisagrees | internal/smtp/auth.go:28-36 | The exact condition under which the code passes a chain that its comment would not. |
| ArcExamples.InvalidHighestPasses | internal/smtp/auth.go:28-36 | Written two-seal chains that show it. |
| ArcExamples.OrderMattersAt | internal/smtp/auth.go:67-77 | Two written headers of instance 1 for which the order decides what is kept. |
| ArcExamples.SealReadBack | internal/smtp/auth.go:80-109 | A written seal reads back as its number, negative ones included, or 0 when no int64 holds it, and its cv. |
| Text.AtoiReadsDecimal | internal/smtp/auth.go:88-91 | A decimal reads back exactly if an int64 holds it. |
| Text.AtoiReadsNegative | internal/smtp/auth.go:88-91 | So does a negative one. |
| Text.TrimMeans | internal/smtp/auth.go:86-88 | Trimming takes off the six ASCII blanks at both ends, all of them, and nothing else. |
| Text.TrimEmpty | internal/smtp/auth.go:86-88 | Nothing is left exactly of blanks alone. |
| Text.LowerMeans | internal/smtp/auth.go:180-185 | Two texts agree in lower case iff they differ at most in the case of ASCII letters; no capital is left. |
| Text.AtoiAccepts | internal/smtp/auth.go:88-91 | Only an optional sign and digits are read, and a plus sign changes nothing. |
| Text.DecimalMeans | internal/smtp/auth.go:88-91 | Decimals are to the base ten. |
| Text.AfterAtMeans | internal/smtp/auth.go:158-162 | The domain is what follows the first at sign. |
| Arc.ReadBack | internal/smtp/auth.go:80-109 | Reading a written tag list gives the first value of that name, and the first number. |
| Arc.PaddedTag | internal/smtp/auth.go:86-107 | Blanks around a tag and after its equals sign do not count. |
| Arc.CaseOfHeader | internal/smtp/auth.go:80-118 | Nor does the case of a header, for tags and results. |
| Arc.ArcIntParam | internal/smtp/auth.go:80-95 | The loop finds the first part of that name whose number can be read, else 0. |
| Arc.ArcStringParam | internal/smtp/auth.go:97-109 | The loop finds the first part of that name, else the empty text. |
| Arc.ResultMeans | internal/smtp/auth.go:111-140 | Pass or fail exactly if the header reports such a word at the first occurrence of the method, at a word's start, up to the next stop. |
| Domains.OrgIdempotent | internal/smtp/auth.go:171-177 | Taking the organisational domain twice changes nothing. |
| Domains.SubdomainsShareOrg | internal/smtp/auth.go:165-177 | Labels put in front are ignored if and only if the domain has at least two. |
| Domains.OrgShape | internal/smtp/auth.go:165-177 | At most two labels, in lower case. |
| Domains.OrgIsLastTwo | internal/smtp/auth.go:171-177 | The organisational domain is the last two labels in lower case, or the whole domain if there are no more. |
| Domains.AlignsMeans | internal/smtp/auth.go:179-192 | Alignment is equality of organisational domains, or of lower-cased domains in strict mode. |
| Domains.AlignmentLaws | internal/smtp/auth.go:179-192 | An equivalence relation in each mode; strict implies relaxed. |
| Auth.VerifyAuth | internal/smtp/auth.go:195-362 | Refuses at the first enforced check that fails, in the order SPF, DKIM, DMARC, and reports every verdict up to there. |
| Auth.CheckSignatures | internal/smtp/auth.go:278-298 | Passes iff some signature is valid; collects exactly the valid signers. |
| Auth.AnyAligns | internal/smtp/auth.go:338-344 | Finds an aligned signer iff there is one. |
| Auth.CheckRecord | internal/smtp/auth.go:328-350 | DMARC passes iff SPF passed aligned or some valid signer is aligned. |
| Auth.FromDomainMeans | internal/smtp/auth.go:142-224 | The DMARC domain is what follows the at sign of the From address, in lower case; without an address, an at sign or anything behind it, the domain of the envelope sender. |
| Auth.SpfMeans | internal/smtp/auth.go:236-271 | SPF passes on a kept pass or, nothing being kept, on a live pass only, and fails on a kept failure, a live fail or softfail. |
| Auth.DkimMeans | internal/smtp/auth.go:273-298 | DKIM passes iff it is on and some signature is valid, and has no result iff it is off or there is none. |
| Auth.DmarcMeans | internal/smtp/auth.go:300-350 | DMARC passes iff a pass was kept or, nothing being kept, the domain has a record and SPF passed aligned or an aligned signature is valid; it fails iff a failure was kept or there is a record and neither holds. |
| Auth.DecisionSpelled | internal/smtp/auth.go:195-362 | Result and refusal, check by check, in the order SPF, DKIM, DMARC. |
| Auth.DmarcRefusesExactly | internal/smtp/auth.go:300-359 | A message with a From address and nothing kept is refused by enforced DMARC iff no earlier check refused it, the domain of the address has a record, and neither an SPF-passed sender nor a valid signature is aligned with it; so a forged From header of a domain with a record does not get through. |
| Auth.EnforceRefinesLog | internal/smtp/auth.go:195-362 | Two runs: enforcing refuses iff the logging run shows a failure in an enforced check, at the first such; otherwise both report the same. |
| Auth.EnforcingMoreRefusesMore | internal/smtp/auth.go:195-362 | Enforcing more checks refuses more, never later. |
| Auth.VerdictsIgnoreEnforcement | internal/smtp/auth.go:195-362 | Verdicts depend on which checks are enabled, not on which are enforced. |
| Auth.DecisionIsUnique | internal/smtp/auth.go:195-362 | Settings and message determine result and refusal. |
| Auth.OrderDoesNotMatter | internal/smtp/auth.go:236-298 | Neither the order of signatures nor of seals changes a verdict. |
| Auth.LiveSpfMatters | internal/smtp/auth.go:239-266 | The live SPF answer has a say exactly if the check applies and no passing chain kept an SPF result. |
| Auth.RecordsMatter | internal/smtp/auth.go:310-350 | The DNS records have a say exactly if the check applies and no passing chain kept a DMARC result. |
| Auth.SpfRefusesExactly | internal/smtp/auth.go:236-271 | SPF refuses exactly if enforced and applicable, with a kept failure or, nothing being kept, a live fail or softfail; no other answer does. |
| Auth.DmarcAloneRefuses | internal/smtp/auth.go:300-359 | With SPF and DKIM off and DMARC enforced, a message is refused iff it has a sender domain and the chain kept a DMARC failure, or no DMARC result while the domain has a record. |
| Auth.SubdomainSignature | internal/smtp/auth.go:321-347 | Among any signatures, a valid one of a subdomain carries a relaxed record; under a strict one the verdict is the same without it. |
| RuleTransfer.RuleTable.ImportRules | internal/storage/rules_transfer.go:12-38 | The transaction leaves the imported table or the old one. |
| RuleTransfer.TextIdentifies | internal/storage/rules_transfer.go:27-28 | Two settings share their stored text exactly if they differ at most in nil against empty; the text has the setting's values. |
| RuleTransfer.MergeStores | internal/storage/rules_transfer.go:12-38 | Merging stores each setting of each item and keeps other rows; a row keeps identity and creation time, and moves its time of update unless it had all settings already; a new row has the id and time drawn. |
| RuleTransfer.ReplaceLeavesItems | internal/storage/rules_transfer.go:21-25 | Replacing leaves exactly the items. |
| RuleTransfer.SecondMergeIsIdle | internal/storage/rules_transfer.go:30-32 | A second merge of the same items changes nothing, not even a time. |
| RuleTransfer.FileOrder | internal/storage/rules_transfer.go:26-36 | The settings left by a merge do not depend on the order of the file. |
| RuleTransfer.ImportKeeps | internal/storage/rules_transfer.go:26-36 | Ids stay unique and stored text stays canonical. |
| RuleTransfer.ImportedAt | internal/storage/rules_transfer.go:26-36 | The row under every name after an import. |
| RuleTransfer.Preview | internal/webui/rules_transfer.go:69-105 | The three loops give one line per item against the rows not named before, and one per row left over. |
| RuleTransfer.Compare | internal/webui/rules_transfer.go:74-98 | The fields listed are exactly those of enabled, position, match and webhook that differ. |
| RuleTransfer.PreviewNamesExact | internal/webui/rules_transfer.go:69-105 | Names shown created and deleted are exactly those the import adds and removes, in both modes. |
| RuleTransfer.OneLineEach | internal/webui/rules_transfer.go:69-105 | No name is shown twice. |
| RuleTransfer.UnchangedExactly | internal/webui/rules_transfer.go:76-96 | Shown unchanged iff the merge leaves the row untouched and the item has no empty header map. |
| RuleTransfer.UnchangedUnderReplace | internal/webui/rules_transfer.go:76-96 | In replace mode, shown unchanged iff the stored row has the item's settings and the item no empty header map; the row is under a new id in any case. |
| RuleTransfer.EmptyHeadersShowAsUpdated | internal/webui/rules_transfer.go:91-93 | The family of items on which preview and merge differ. |
| RuleTransfer.ValidateImport | internal/rules/transfer.go:77-90 | Fine iff all items are good and names distinct; otherwise the first offender, and why. |
| RuleTransfer.GoodMeans | internal/rules/transfer.go:92-134 | Which items are good: a name of more than blanks, the bounds on each number, and a well-formed rest. |
| RuleTransfer.WaitsInOrderExactly | internal/rules/transfer.go:122-134 | The waits of a validated rule are in order under every ordered global setting iff it has both of its own or neither. |
| RuleTransfer.WaitsOutOfOrder | internal/rules/transfer.go:122-134 | A validated item and an ordered global setting whose waits in force are out of order. |
| RuleTransfer.OwnLimitExactly | internal/rules/transfer.go:122-134 | The retry limit in force of a validated rule is not negative under every global setting iff it has its own. |
| RuleTransfer.FirstWait | internal/webhook/dispatcher.go:234-237 | While the arithmetic is exact the first wait of a rule is the smaller of its two waits in force, in whatever order they are. |

## Left out

- SQLite, JSON, YAML, HTTP, TLS, DNS, HMAC and the SPF, DKIM and DMARC libraries: requests are outcomes, library answers are parameters, and stored JSON is the value it decodes to.
- Columns for created_at and updated_at of deliveries, and email columns no decision reads.
- Retry.DispatchOne: the context ends during a wait or not; which of two ready channels wins is the parameter `interrupted`.
- Backoff.TotalBounded: outside the exact range of float64 the conversion to int64 is unspecified in Go, so only the bound by the maximum wait is stated there.
- Models.SecondsOrElse: int64 overflow when an override in seconds becomes nanoseconds is not modelled.
- Retry.SecretGone: a rule name is quoted as it is, without the escapes of Go's %q.
- QueueRefinement.RunRefinesDispatch: speaks of a delivery whose rule keeps its secret; with another one its requests are those of SnapshotIsolation.
- Acceptance.AcceptedGetsDone: needs, as the in-memory loop does, a retry limit that is not negative, and a rule that keeps its secret; a deleted delivery is not spoken of.
- Ingest.Relay.Data: a method runs without interruption; steps between the transactions of a session are those of Acceptance.InterleavedIsSteps.
- QueueDrain.StartDrains: the clock has room, that is, the due times plus all waits to come stay below the largest int64.
- QueueProgress.NoEarlyClaim: assumes that the wall clock does not go back and that waits are not negative.
- QueueProgress.ShutdownEnds: the deadline given to Shutdown is not modelled; cancellation may come at any time after stop.
- The ticker between two claims: a worker that finds nothing may look again at once.
- Text.Lower: case and blanks are those of ASCII; other Unicode folding is not modelled.
- Auth.VerifyAuth: one SPF answer and one set of DMARC records are fixed for a message; the error texts carry no information here.
- RuleTransfer.ValidateImport: URL, method, header, template, condition and pattern checks are one parameter.
- QueueSystem.Apply: clock readings and due times stay below the largest int64; ids drawn for emails, batches and deliveries are new; a transaction that reports an error had no effect.
- RuleTransfer.RuleTable.ImportRules: new ids are taken to be unused.
- Listing order of rules with equal position and creation time, which SQL leaves open; the preview is proved for every order.
- UpdateParsedEmail, rule editing forms, raw message files, events, metrics, logging and the pages of the web interface.
- Delivery rows without a queue entry, which nothing writes any more.
- The SMTP session before DATA, TLS and the matching of recipients.
- Pattern matching itself (globs and regular expressions): which conditions hit is a parameter.
