# Asset discovery: the scan lifecycle and its surroundings

A service registers domain names and scans them for DNS records. The API inserts scans and publishes
their ids to a Celery queue; workers claim them, resolve four record types, and store what they find.
This project models that behaviour and proves what it keeps, over every run.

## What is modelled

**The scan lifecycle** is a transition system (`Protocol`): the tables (`Tables`), the broker's queue of
`(scan, retries)` messages, the worker attempts in flight, and the API calls that are half done. The API
creates domains, inserts initial scans, takes the row lock, checks and inserts manual scans, publishes,
recovers and deletes. Workers claim and finish. The broker may redeliver, and machines may lose messages,
attempts and calls. A scan carries the way it came to be (initial or manual), which no column records.

The steps come in two sizes.

- *Split*: a claim is one step, the outcome of its resolution is another, and anything may happen between
  the two. `Safety`, `Coverage`, `Draining`, `RetryBudget`, `Overlap` and `SplitRows` are about all split runs.
- *Atomic* (`Atomic`): a whole delivery is one step, and so is inserting an initial scan and showing it on
  its domain. `Rows`, `Outcomes`, `History` and `Confluence` are about all atomic runs. `Atomic.AtomicIsSplit` proves
  that each of these is a split run.

What is assumed: a claim, a reset of interrupted scans, and each finish or retry are single transactions;
a commit never fails; publishing always succeeds; identifiers are fresh. The database enforces none of the
first (the repository's README.md:135 lists stronger claiming as future work), and
`Safety.InterleavedClaims` shows when two claims taken apart go wrong. Clock readings are arbitrary: only
the order of time stamps within a row asks for readings that never go back.

`Service` holds the procedures themselves, as methods of a class that starts in the initial state of the
protocol and updates the tables field by field. The contract of each spells out every field that it writes, and
proves it to be a run of protocol steps, so that what is proved of all runs is true of it. `History` says the
same of rows over whole runs: what a row shows is what last happened to its scan.

**The login limiter** (`RateLimit`) is a class over the map of time stamps, with its history of calls in
the order in which they take the lock. **The name validator** (`Fqdn`) gives the regular expression, with
its lookarounds, a semantics. **The resolver loop** (`Resolver`) and **offset pagination** (`Paging`) are
methods with loops.

## Three promises that hold only in part

Each holds in every atomic run. At the split granularity each has an exact condition, proved for every run,
and a run without any fault in which it fails.

- *Each scan stores its result once.* It holds of a scan exactly when no attempt has ended on it, with a
  result or a final error, while it was COMPLETED (`Overlap.ExactlyOnceIff`); so in particular when no two of
  its attempts are ever in flight together (`Overlap.ExactlyOnceUnlessOverlapping`). It fails when the API
  restarts while an attempt is in flight (`Witnesses.ExactlyOnceCanFail`).
- *The domain status mirrors the active or latest scan* (the repository's README.md:75). A COMPLETED or FAILED
  domain always shows the outcome of the scan settled last (`SplitRows.FinishedShowsLast`). The rest, that a
  RUNNING scan shows and that a domain showing no outcome has something unfinished, holds in every state of a
  run exactly when no step shows an initial scan after all scans of its domain have finished, and none settles
  a scan while another of its domain is RUNNING (`SplitRows.MirrorsIff`). It fails when a client triggers a
  scan of a new domain before its initial scan is shown (`Witnesses.ShownLate`), and when the API restarts
  between two scans (`Witnesses.SettledBesideRunning`).
- *The time stamps and error of a scan agree with its status.* They do for a scan exactly when it has never
  been settled while it had no start (`SplitRows.FieldsAgreeIff`). That fails when the API restarts while an
  attempt is in flight (`Witnesses.FieldsCanFail`).

## Model

| member | source | states |
|---|---|---|
| Tables.OldestPendingExists | app/workers/discovery.py:26-34 | The query for the next PENDING scan of a domain always has an answer, none included |
| Tables.OwnedAfterStoring | app/repositories/asset.py:7-22 | Storing a result appends it, whole and in order, to what its own scan owns and to nothing else |
| Tables.ForeignKeysAfterDelete | app/repositories/domain.py:34-36 | A cascading delete leaves no dangling row and nothing of the domain, and every remaining scan owns what it owned |
| Tables.DeletionIsExact | app/repositories/domain.py:34-36 | The domain's row, scans and assets are gone; every other domain and scan is as it was, and the assets of the other domains are kept in their order |
| Tables.ShownExactly | app/services/scan.py:34-36 | Showing a queued scan leaves the domain RUNNING if it was, PENDING otherwise, and changes nothing else |
| Evolution.StepEvolves | app/repositories/scan.py:36-92 | Whatever the step: a scan keeps its domain, kind and creation time, is never un-finished, is new only by an insertion, and becomes RUNNING only by its own successful claim |
| Safety.StepKeepsSafe | app/workers/discovery.py:45-129 | Every step, faults included, keeps the foreign keys, one RUNNING scan per domain, one lock holder per domain, the exclusion of manual scans, and one initial scan per domain |
| Safety.AtMostOneRunning | app/workers/discovery.py:68-78 | Two RUNNING scans of one domain in a reachable state are the same scan |
| Safety.FinishedStaysFinished | app/workers/discovery.py:59-61 | Over any run, a COMPLETED or FAILED scan never becomes PENDING or RUNNING again |
| Safety.DeletedStaysDeleted | app/workers/discovery.py:54-57 | Over any run, a scan whose row is gone never comes back, whatever messages are left |
| Safety.DeletedForGood | app/repositories/domain.py:34-36 | After a delete, in no later state of any run is there a trace of the domain in a table, and none of its scans comes back |
| Safety.ActiveScansBounded | app/services/scan.py:13-50 | Every reachable state has at most two unfinished scans per domain; of two, one is the initial scan and the other manual |
| Safety.TriggersAreManualScans | app/services/scan.py:28-41 | While its domain is not deleted, each accepted trigger is exactly one manual scan |
| Safety.TriggersBoundedByFinished | app/services/scan.py:19-41 | While its domain is not deleted, accepted triggers never exceed the finished manual scans by more than one |
| Safety.LockKeepsOthersOut | app/services/scan.py:13-38 | While a trigger holds the row lock of a domain, before or after its check, no interleaving of the others gets a trigger accepted there or deletes the domain |
| Safety.NamesStayUnique | app/repositories/domain.py:16-31 | In every reachable state a name has one domain, although looking it up and inserting it are two steps |
| Safety.UncheckedInsertion | app/services/domain.py:21-32 | Without the unique index, an insertion after the lookup would keep names unique exactly when the name is still free |
| Safety.NextIsUnique | app/workers/discovery.py:26-34 | When an attempt on an unfinished scan ends, the next PENDING scan of the domain is determined: ties in the creation time decide nothing |
| Safety.InterleavedClaims | app/workers/discovery.py:69-78 | Two claims whose guards both pass before either writes keep one RUNNING scan per domain exactly when they claim one scan or two domains |
| Coverage.StepKeepsNoOrphans | app/workers/discovery.py:26-114 | Every step but a loss keeps: each RUNNING scan has its own message or attempt, and each domain with an unfinished scan has something on the way or owed for one of its unfinished scans |
| Coverage.NoOrphanedWork | app/workers/discovery.py:69-75 | That holds in every state a crash-free run reaches, although messages are dropped and only one scan is re-queued |
| Coverage.QuietMeansOnTheWay | app/workers/discovery.py:26-34 | With no call half done, a message or attempt is there for a scan of that domain |
| Coverage.ResetLeavesNoOrphans | app/repositories/scan.py:125-137 | Right after a reset, no scan is orphaned, whatever the tables, broker and other calls were |
| Coverage.RecoveryStabilises | app/workers/discovery.py:119-129 | From any tables and any broker contents, no scan is orphaned in any state after the reset, however workers, triggers and the rest of the recovery interleave |
| Draining.ClaimLowersPotential | app/workers/discovery.py:54-78 | A claim, successful or not, lowers the potential of the state |
| Draining.FinishLowersPotential | app/workers/discovery.py:81-114 | So does every end of an attempt: success, retry, failure, or a deleted scan |
| Draining.DrainingTerminates | app/workers/discovery.py:45-116 | From any state, a schedule of worker steps alone is no longer than the potential of that state |
| Draining.WorkersNeverStuck | app/workers/discovery.py:45-116 | While a message is queued or an attempt in flight, a worker can take a step, whatever the resolver answers |
| Draining.DrainingLeavesNothing | app/workers/discovery.py:26-113 | From any reachable state with no call half done and no crash, worker steps that can go no further have finished every scan |
| Draining.RecoveryThenDrainFinishes | app/workers/discovery.py:119-127 | The same after a recovery from any tables and any broker contents, interrupted scans included |
| RetryBudget.RunEarnsCounters | app/workers/discovery.py:100-109 | In every reachable state a message's retry count is within the budget and backed by that many failed attempts of its scan |
| RetryBudget.FailedOnlyAfterBudget | app/workers/discovery.py:100-111 | A retryable DNS error changes a scan only to FAILED, and only after at least `scan_max_retries + 1` such failures of that scan |
| RetryBudget.AttemptsWithinBudget | app/workers/tasks.py:14-26 | Without redelivery, a scan is attempted at most `scan_max_retries + 1` times for each message freshly published for it |
| Atomic.AtomicIsSplit | app/workers/discovery.py:45-116 | Every atomic run is a split run that ends in the same state, and loses nothing if it lost nothing |
| Atomic.DeliverEffect | app/workers/discovery.py:45-116 | The whole state after a delivery: claim and outcome together, its follow-up message, nothing left in flight |
| Atomic.CreateInitialEffect | app/services/scan.py:44-50 | After inserting and showing an initial scan: the new PENDING row, the domain PENDING unless RUNNING, and the id left to publish; or nothing and the call over, if its domain was deleted in the meantime |
| Steps.TakenInsertTakes | app/services/domain.py:27-32 | A name taken since the lookup: nothing is inserted and the call is over |
| Steps.DeletedInsertTakes | app/services/scan.py:44-46 | A domain deleted since its creation: no scan is inserted and the call is over |
| Steps.DeletedFinishTakes | app/workers/discovery.py:81-114 | A scan deleted during its attempt: nothing is written, and nothing published but a retry that is due |
| Rows.DeliverScan | app/workers/discovery.py:77-114 | A delivery changes the row and assets of its own scan only: started, started and settled, or not at all |
| Rows.DeliverDomain | app/workers/discovery.py:78-92 | A delivery changes the status of its own domain only: RUNNING on a retry, else the outcome |
| Rows.RunKeepsTidy | app/workers/discovery.py:45-129 | Every atomic run keeps all row invariants together |
| Rows.RowFieldsAgree | app/repositories/scan.py:57-84 | In every reachable state start, end and error of a row agree with its status (a PENDING one has no error, or the notice of an interruption) and its domain exists; if clock readings never go back, no scan ended before it started |
| Outcomes.AssetsExactlyOnce | app/repositories/asset.py:7-22 | Whatever retries, duplicates, recoveries and deletions: a COMPLETED scan owns exactly the one whole result its attempts obtained, in order; any other obtained and owns none |
| Outcomes.RunShowsLast | app/workers/discovery.py:39-41 | A COMPLETED or FAILED domain shows the outcome of its scan that finished last |
| Outcomes.DomainMirrorsScans | app/workers/discovery.py:90-92 | A RUNNING scan's domain is RUNNING, and a domain with scans but none unfinished shows the last outcome, recoveries notwithstanding |
| History.DeliveryWrites | app/workers/discovery.py:54-114 | A delivery that may not begin changes no table; any other writes its own two clock readings, the records or the error's text, and the domain status, or on a retry only its beginning; nothing else changes |
| History.RowIsItsHistory | app/repositories/scan.py:57-84 | In every reachable state a row says exactly what last happened to its scan: inserted, begun, reset with the notice, or ended with the readings, outcome and error text of that delivery |
| History.OutcomeIsNewer | app/services/scan.py:34-36 | In every reachable state, a domain that is COMPLETED or FAILED beside an unfinished scan has had a scan ended since that one was inserted |
| Overlap.OwnsEveryResult | app/workers/discovery.py:81-99 | At the split granularity, a scan owns the results of all its finished attempts, whole and in order |
| Overlap.StepCountsResults | app/workers/discovery.py:81-114 | From any safe state, a step keeps the number of stored results right exactly unless it settles a COMPLETED scan, and a wrong number is never mended while the scan exists |
| Overlap.ExactlyOnceIff | app/workers/discovery.py:81-114 | In every reachable state: an existing scan owns exactly its one result if COMPLETED and nothing otherwise, if and only if no attempt has ended on it while it was COMPLETED |
| Overlap.ExactlyOnceUnlessOverlapping | app/workers/discovery.py:68-99 | While no two attempts of one scan are in flight together, results are stored exactly once, as in atomic runs |
| Overlap.OverlapKeepsBoth | app/workers/discovery.py:83-89 | From any state with two attempts of one scan in flight, both may finish, and both results are kept |
| SplitRows.StepMirrorsIff | app/workers/discovery.py:37-42 | From any safe state in which the domain statuses mirror the scans, a step keeps that exactly unless it shows a scan late or settles one beside a RUNNING scan of its domain |
| SplitRows.MirrorsIff | app/workers/discovery.py:90-92 | Over every run: the mirror holds in all its states if and only if none of its steps is of these two kinds |
| SplitRows.FinishedShowsLast | app/workers/discovery.py:37-42 | In every reachable state, a COMPLETED or FAILED domain shows the outcome of its scan settled last, overlaps and recoveries notwithstanding |
| SplitRows.FieldsAgreeIff | app/repositories/scan.py:57-84 | In every reachable state, start, end and error of an existing row agree with its status if and only if it has never been settled without a start |
| Witnesses.RecoveryKeepsBoth | app/workers/discovery.py:119-127 | From any state in which a message can start, a recovery during its attempt may leave the scan with two results more, without any fault |
| Witnesses.ExactlyOnceCanFail | app/workers/discovery.py:69-89 | A run without faults that ends with a COMPLETED scan owning two results |
| Witnesses.FieldsCanFail | app/repositories/scan.py:67-74 | A run without faults that ends with a COMPLETED scan that has no start |
| Witnesses.ShownLate | app/services/scan.py:44-50 | A run without faults that leaves a domain PENDING with every scan finished, no message and no attempt |
| Witnesses.SettledBesideRunning | app/workers/discovery.py:90-92 | A run without faults that leaves a domain COMPLETED with a RUNNING scan |
| Confluence.DrainStaysOnCourse | app/workers/discovery.py:54-114 | With one resolver outcome per name, every drain keeps finished scans as they were and ends the others only as foretold |
| Confluence.DrainAsForetold | app/workers/discovery.py:54-114 | A drain that empties the queue, with any extra messages, has ended every scan, all as foretold |
| Confluence.OutcomeIndependent | app/workers/discovery.py:54-114 | Two complete drains of a reachable state, each with its own extra messages and order, end with the same domains, scan statuses, error messages and assets |
| Confluence.NextDelivery | app/workers/discovery.py:45-116 | Any chosen queued message can be delivered as the resolver says, and that lowers the potential |
| Confluence.DrainExists | app/workers/discovery.py:45-116 | Such complete drains exist, from any reachable state and for any resolver |
| RateLimit.Limiter.constructor | app/core/rate_limit.py:12-13 | A limiter starts with no stamps |
| RateLimit.Limiter.ResetRateLimits | app/core/rate_limit.py:26-28 | Forgets every client |
| RateLimit.Limiter.ClearClient | app/core/rate_limit.py:31-33 | Forgets one client, known or not |
| RateLimit.Limiter.EnforceLoginRateLimit | app/core/rate_limit.py:36-54 | Admits exactly when fewer than `limit` stamps are recent, stores the pruned list in either case, and touches no other client |
| RateLimit.RecentPicks | app/core/rate_limit.py:44 | Pruning keeps exactly the stamps of the last window, in their order |
| RateLimit.PrunedRefinesUnpruned | app/core/rate_limit.py:43-52 | With readings in lock order, every decision is that of a limiter that forgets nothing, and both admit the same attempts |
| RateLimit.RefusedCallsAreInvisible | app/core/rate_limit.py:45-50 | A refused call changes no later decision for any client |
| RateLimit.StoredWithinLimit | app/core/rate_limit.py:44-52 | A stored list is never longer than max(limit, 0) |
| RateLimit.StoredSorted | app/core/rate_limit.py:44-52 | With readings in lock order, a stored list is sorted |
| RateLimit.KeysIndependent | app/core/rate_limit.py:44-52 | What is stored for a client depends on the calls that concern it alone |
| RateLimit.KeptFrom | app/core/rate_limit.py:44 | While readings stay less than a window after a time, no admitted attempt since that time has been pruned |
| RateLimit.LoginWindowBound | app/core/rate_limit.py:36-54 | If no reading lags an earlier one by more than d, any half-open interval of length window - d holds at most `limit` admitted attempts of a client between two clears |
| RateLimit.LimitOneSpaced | app/core/rate_limit.py:43-52 | With a limit of one, admitted attempts are read at least a window apart, however the readings lag |
| RateLimit.LimitOneBound | app/core/rate_limit.py:36-54 | So with a limit of one the full window holds one admitted attempt |
| RateLimit.BoundIsExact | app/core/rate_limit.py:39-43 | For any limit of two or more and any lag d within the window, every longer interval length admits `limit + 1` |
| Fqdn.MatchesLabel | app/core/fqdn.py:8 | The label expression, with its lookahead and lookbehind, matches exactly the labels of 1 to 63 characters without a hyphen at either end |
| Fqdn.RegexIsLabelByLabel | app/core/fqdn.py:6-10 | The whole expression accepts exactly the texts of at most 253 characters that split at dots into two or more labels |
| Fqdn.JoinSplit | app/core/fqdn.py:6-10 | Joining the split gives the text back |
| Fqdn.AcceptedIffFqdn | app/core/fqdn.py:13-26 | Normalisation accepts exactly when the stripped, lower-cased text is such a name, and returns that name, whatever the platform's white space and lower case |
| Fqdn.Validate | app/core/fqdn.py:13-26 | The executable label-by-label validator agrees with the regular expression on every input |
| Fqdn.NormaliseIdempotent | app/core/fqdn.py:19-26 | Normalising an accepted name again changes nothing, on any platform that agrees with ASCII |
| Fqdn.AcceptedIffSpelling | app/core/fqdn.py:19-26 | For any white space and lower-casing: an input gives a name exactly when the name is well formed and the input is white space around a text that lower-cases to the name and trailing dots |
| Fqdn.AsciiSpellings | app/core/fqdn.py:19 | So every ASCII spelling of a name, in any case, with trailing dots and surrounding space, gives it |
| Fqdn.AcceptedNamesFitTheWire | app/core/fqdn.py:6-10 | An accepted name encodes in its text length plus two octets, at most 255, each label length in six bits (sections 2.3.4 and 3.1 of RFC 1035) |
| Resolver.ResolveDomainRecords | app/workers/dns.py:19-45 | The loop returns exactly that: the flattened answers, or the first failure and no record |
| Resolver.ResolvesInFull | app/workers/dns.py:25-45 | For every vector of answers: one record per answer, type after type, with the text of an address, the target of a name server, the exchange of a mail server, each without its trailing dots; or the first other failure, retryable for DNS errors only |
| Resolver.ResolvedRecordsAreAnswers | app/workers/dns.py:29-36 | Every returned record was answered to a query of its own type, by the field of that type without its trailing dots |
| Paging.PagesPartition | app/services/domain.py:61-76 | For any requested limit, pages 1 to ceil(total / limit) are non-empty and concatenate to the sequence, their lengths add up to the total, and every later page is empty |
| Paging.ClampingIsNearest | app/services/asset.py:22-23 | The limit used is the nearest one from 1 to the maximum |
| Paging.CountIgnoresOrder | app/repositories/asset.py:33-50 | The filtered count equals the number of rows the page query selects, in whatever order it returns them |
| Paging.ListAssets | app/services/asset.py:11-44 | 404 exactly for an unknown domain filter; else page and limit as clamped, the items of that page, each with the id, type and value of a row of the requested domain and type and the name of its domain, and as total the number of such rows |
| Paging.SelectPicks | app/repositories/asset.py:36-41 | The page query selects exactly the rows of the requested domain and type, in their order |
| Paging.AssetPagesPartition | app/repositories/asset.py:33-50 | Walking all pages shows every row of the requested domain and type once, in order, with its own fields, and the total is their number |
| Service.CreateIsRun | app/services/domain.py:19-37 | Creating a domain is a run of five steps, with the state they end in |
| Service.LookupIsRun | app/services/domain.py:21-25 | A lookup that finds the name is a run of one step that changes nothing |
| Service.TriggerIsRun | app/services/scan.py:13-41 | An accepted trigger is a run of four steps, with the state they end in |
| Service.RefusalIsRun | app/services/scan.py:21-26 | A refused trigger is a run of two steps that changes nothing |
| Service.RecoveryIsRun | app/workers/discovery.py:119-127 | A recovery is a run: reset, list, publish each id once |
| Service.DeliveryIsStep | app/workers/discovery.py:45-116 | What a worker does with a message is one step of the atomic system |
| Service.App.constructor | app/models/scan.py:19-50 | A new application is in the initial state of the protocol: no rows, no messages |
| Service.App.MarkScanRunning | app/repositories/scan.py:57-64 | The whole row after it, other rows unchanged |
| Service.App.MarkScanCompleted | app/repositories/scan.py:67-74 | The whole row after it, other rows unchanged |
| Service.App.MarkScanFailed | app/repositories/scan.py:77-84 | The whole row after it, other rows unchanged |
| Service.App.SetStatus | app/repositories/scan.py:87-92 | One domain's status, nothing else |
| Service.App.ResetInterruptedScans | app/repositories/scan.py:125-137 | Row by row, exactly the RUNNING scans go back to PENDING, without a start and with the notice, and their ids are returned |
| Service.App.ListRecoverableScanIds | app/repositories/scan.py:117-122 | Each unfinished scan once, in some order |
| Service.App.EnqueueScan | app/workers/queue.py:10-16 | One fresh message more |
| Service.App.EnqueueNextPendingForDomain | app/workers/discovery.py:26-34 | Publishes a PENDING scan of the domain that no other precedes in creation, or nothing if there is none |
| Service.App.FailScan | app/workers/discovery.py:37-42 | Scan and domain FAILED, with the error's text or, if that is empty, its class name, the completion time, and the next scan published; nothing else changes |
| Service.App.ClaimScan | app/workers/discovery.py:54-78 | Starts exactly when the scan is unfinished, its domain exists, and no other scan runs there; the whole tables in every case |
| Service.App.FinishScan | app/workers/discovery.py:81-114 | The whole tables and queue after each outcome: stored and completed, retried, or failed |
| Service.App.ProcessScan | app/workers/discovery.py:45-116 | The whole state after a message, with the outcome that the resolver gives for the domain's name |
| Service.App.RunDiscoveryScan | app/workers/tasks.py:14-26 | Taking a message off the queue and processing it is an atomic step |
| Service.App.RecoverPendingJobs | app/workers/discovery.py:119-129 | RUNNING scans are PENDING again with no start and the notice, others as they were; each unfinished scan is published once; as by a recovery run of the protocol |
| Service.RecoveredQueue | app/workers/discovery.py:125-126 | Publishing ids without duplicates adds exactly one fresh message for each |
| Service.App.GetDomainByName | app/repositories/domain.py:16-17 | Finds a name exactly when a row has it |
| Service.App.CreateDomain | app/services/domain.py:17-40 | 400 for a bad name, which changes nothing; 409 for a taken one, which is a lookup run; else the PENDING domain under the normalised name, its PENDING initial scan and one fresh message, as by a creation run of the protocol |
| Service.App.EnqueueInitialScan | app/services/scan.py:44-50 | The new scan, the domain status unless RUNNING, and one fresh message, with no check for other scans |
| Service.App.TriggerManualScan | app/services/scan.py:13-41 | 404 and 409 change nothing, the latter exactly when a scan of the domain is unfinished; else one new PENDING scan, the domain PENDING unless RUNNING, one fresh message, and nothing else, as by a trigger run of the protocol |
| Service.App.RemoveDomain | app/services/domain.py:79-86 | 404 changes nothing; else exactly the domain, its scans and its assets are gone, as by the protocol's delete |

## Left out

- SQLAlchemy sessions, expiry and flush failures, and driver errors: every commit is one update of the tables.
- A worker crash between the commits of one finish (assets stored, scan not yet COMPLETED): the code promises nothing there until the next recovery runs.
- A reset of interrupted scans that a worker's finish comes between (rows read as RUNNING, finished, then written PENDING): the reset is one transaction here.
- The timing of Redis redelivery and of the retry backoff: redelivery may happen at any time, and delays are not modelled.
- Messages in the queue have no order: Celery's is not relied on, and every proof holds for any order.
- The row lock also blocks workers that write the locked domain; here they may go on, which allows more runs, not fewer.
- Real DNS, clocks and UUIDs: outcomes, readings and identifiers are parameters.
- An exception raised while the answer to one query is being read: a query answers as a whole or fails.
- The path without a Celery task: it behaves as the modelled one with `scan_max_retries` = 0.
- Ties among equal creation times: any oldest scan may be the answer, and lists take the query's order as given.
- `list_domains` and `list_scans`: the filters are left out; their clamping and pages are those of `Paging.PagesPartition`.
- Fqdn.AcceptedIffFqdn: the tables behind Unicode white space and lower case are parameters; where ASCII matters, they are required to agree with it there.
- RateLimit.LoginWindowBound: stamps are real numbers, so floating-point rounding of the clock is not modelled.
- `client_ip`: the keys of the limiter are given.
- Passwords, tokens, roles, the admin account, request parsing, response schemas, migrations, health check, logging and deployment.
