# Chis, modelled and proved in Dafny

Chis takes webhook messages over gRPC, stores them in PostgreSQL, passes their ids to workers
through a Redis list, and retries failed deliveries on a timer. This project models its
concurrent core and the logic around it, and proves what holds over every run.

`dafny verify dfyconfig.toml` checks everything.

## How the model is built

**Delivery.** `MessageStore`, `DeliveryQueue`, `AttemptStore`, `DeliveryService`, `WebhookWorker`
and `RetryScheduler` hold one class per component; each method is proved to apply a function on
the messages table, the queue or the attempt log. `Protocol` is a state machine whose actions are
single calls on those shared stores, written with the same functions, so any interleaving of API
calls, workers and schedulers is a run. `Valid` runs also contain disturbances: duplicate queue
entries, lost pushes and writes of rows, crashes, several schedulers. `Faultless` runs have none
of these and a single scheduler (`k8s/scheduler.yaml` deploys one replica); attempts that the
database does not store, an error the worker ignores, and organizations that are deleted at any
time belong to them. What is said of a message then holds until its organization is deleted.
`ComponentRuns` shows that an undisturbed call, worker turn or scheduler pass writes what the class
methods write. `Fidelity` says that nothing is garbled on the way: a row keeps what its insert
asked for, and every stored attempt carries the answer to the send of its number. Time is one monotone clock in microseconds, the resolution of the timestamp columns.

The scheduler pushes an id before it marks the row, and a worker never looks at the status of the
row it popped. A commit that lands between push and mark is overwritten by a stale `pending`.
Assumption **G** says that this does not happen: every mark lands before the commits that follow
its push. G is not assumed silently. `Holders.ExactlyOneHolder` proves that a message has exactly
one holder if and only if none of its commits overtook a mark, so every other statement about one
message needs only that *this* message was not overtaken. `Overtaking` shows the failure: one
worker, one scheduler, no fault, and a delivered message that reads `pending` for ever.

`Progress` bounds the work of every run, `Completion` carries every run on to its end, and
`Fairness` proves that the end comes: time is cut into rounds, in each of which every kind of
component that has something to do does something, and after 82 rounds for each message and two
more all messages are final.

**Invitations and memberships.** `Tenants` has the tables with the constraints of the schema,
`Handlers` cuts the HTTP handlers at their repository calls and interleaves them in any way, and
`AtomicHandlers` runs the same turns one request at a time. `HandlerMethods` has the handlers in
the form they are written in, proved equal to their undisturbed turns, and `Outcomes` says case by
case what each request does to the tables and answers. "Pending means not yet a
member" holds when requests run one at a time and no lookup fails. `Crossing` says for every
interleaving, with failed lookups and aborted requests, exactly when it does not: an invite or an
accept of another invitation was about to insert while the opposite was already in the tables,
which can be checked just before either insert, or the accept that created the membership has not
marked its invitation. `HandlerRace` shows that wherever the two meet they can cross, and that
they do meet without any failure.

**Smaller parts.** `RateLimit` (fixed-window limiter), `Slug` (organization slugs), `Signature`
(signed content and the published verifiers), `Stats` and `WebhookLogs` (dashboard totals and
paging).

Where the documentation and the code differ, the model follows the code. The repository's README
speaks of 5 attempts in all; the code makes one first send and up to 5 retries, 6 sends. It
calls insert and enqueue atomic; they are two calls. `declined` is not a value of the invitation
status type, so declining is answered with an error and changes nothing.

## Model

| member | source | states |
|---|---|---|
| MessageStore.MessageRepository.FindRetryReady | internal/repository/message.go:147-187 | returns the earliest due retry rows in order, at most `limit`, and leaves out a due row only when the batch is full of rows due no later |
| MessageStore.MessageRepository.Create | internal/repository/message.go:25-39 | the new row has the organization and request asked for, is pending with count 0 and no retry time; every other row is as it was |
| MessageStore.MessageRepository.FindById | internal/repository/message.go:108-136 | the row as it stands, or nothing |
| MessageStore.MessageRepository.Update | internal/repository/message.go:138-145 | sets the three delivery columns of one row |
| MessageStore.MessageRepository.UpdateStatus | internal/repository/message.go:82-106 | sets the status of one row and keeps its count and retry time |
| DeliveryQueue.Queue.Push | internal/queue/queue.go:22-27 | puts an id at the left end |
| DeliveryQueue.Queue.Pop | internal/queue/queue.go:29-35 | takes the id at the right end, or nothing when empty |
| AttemptStore.AttemptRepository.Create | internal/repository/delivery.go:46-62 | appends one attempt to its message's log |
| AttemptStore.AttemptRepository.FindByMessageID | internal/repository/delivery.go:21-44 | exactly the stored attempts, by rising attempt number |
| DeliveryService.Service.QueueMessage | internal/delivery/service.go:30-62 | rejects an unparsable organization id with no change; otherwise inserts the pending row as asked for and pushes its id at the left end |
| ComponentRuns.QueueAlone | internal/delivery/service.go:30-62 | an undisturbed call in the protocol inserts and pushes what Service.QueueMessage does |
| WebhookWorker.Worker.Deliver | internal/worker/worker.go:73-175 | logs attempt count+1 with the code of any response or none, its duration and times, unnoticed when the insert fails, and writes success, retry after 2^count seconds, or failed, from the snapshot; an unbuildable request fails unlogged; no other row or log changes |
| WebhookWorker.Worker.Turn | internal/worker/worker.go:47-71 | one turn of the pop loop, with the empty queue and the missing row |
| WebhookWorker.BackoffValues | internal/worker/worker.go:156-158 | the waits are 1, 2, 4, 8 and 16 seconds and fit 64-bit nanoseconds |
| RetryScheduler.Scheduler.ProcessRetries | internal/scheduler/scheduler.go:41-55 | pushes and marks exactly the rows of the batch it found |
| RetryScheduler.MarkedAllRows | internal/scheduler/scheduler.go:47-53 | an undisturbed pass changes the status of the listed rows and nothing else |
| RetryScheduler.PushedInOrder | internal/scheduler/scheduler.go:47-49 | the earliest due row of a batch is popped first, after everything queued before |
| RowInvariant.AlwaysSound | internal/worker/worker.go:134-170 | in every run with any disturbance: count within 0..5, zero exactly when there is no retry time, retry implies count at least 1, attempt numbers within 1..6 |
| RowInvariant.RowsAreSound | internal/worker/worker.go:156-170 | so in every run a row has a count of 0..5, a retry time exactly when the count is not 0, and stored attempts are numbered 1..6 |
| RowInvariant.RetryRowsAreSelectable | internal/repository/message.go:153-155 | the null filter of the retry query drops no retry row |
| Holders.ExactlyOneHolder | internal/worker/worker.go:53-67 | a message has exactly one of creator, queue slot, worker, retry timer, final status if and only if no commit of it overtook a mark; else it has none |
| Holders.HoldersAlways | internal/scheduler/scheduler.go:42-52 | every faultless run keeps the place of every message ever inserted, deleted or not, the queue without duplicates and the pass without repeats |
| Holders.PassRowsUnchanged | internal/scheduler/scheduler.go:47-52 | rows of a pass that are not yet marked, not overtaken and not deleted are as the scheduler read them, though unlocked |
| Holders.OvertakenReadsPending | internal/scheduler/scheduler.go:49-52 | once its pass is over an overtaken message reads pending and is held by nobody, however the run goes on, unless it is deleted |
| Overtaking.EveryWindowCanBeOvertaken | internal/worker/worker.go:62-67 | in any window whose id is next in the queue an idle worker can overtake the mark with a 2xx delivery |
| Overtaking.GuardIsNecessary | internal/scheduler/scheduler.go:49-52 | a faultless run that ends with a delivered message pending, and held by nobody however the run goes on |
| Agreement.AlwaysAgreed | internal/worker/worker.go:134-173 | row, snapshot and log agree at every point of every faultless run |
| Agreement.NoLostUpdate | internal/worker/worker.go:156-170 | a commit finds the count and retry time it read, and writes what follows from the row as it stands, so a failed send raises the count by exactly one; no other row changes, and a deleted row stays deleted |
| Agreement.LogMatchesRow | internal/worker/worker.go:134-173 | the stored attempts have rising numbers; stored and missed ones add up to k, and with none missed the numbers are 1..k; with no worker on the message k is the count, count+1 on success, 6 with count 5 on dead letter, 0 when unbuildable |
| Agreement.DashboardTellsOutcome | internal/repository/message.go:256-268 | with no worker on the message, the code of a highest-numbered attempt is 2xx if and only if the status is success and the last attempt was stored, as it is when none was missed |
| Fidelity.RowsAreAsAsked | internal/repository/message.go:25-39 | in every run with any disturbance, a row has the organization and the request that its insert asked for |
| Fidelity.AskedOnce | internal/repository/message.go:25-39 | and there is only one such insert for an id, deletions or not |
| Fidelity.AttemptsHaveRows | internal/database/migrations/000001_initial_schema.up.sql:113-128 | in every run every stored attempt has its row, so attempts go with a deleted organization |
| Fidelity.AttemptsAreAsSent | internal/worker/worker.go:100-143 | every stored attempt n carries the code, whichever it was, the duration and the time of send n; with no worker on the message the row tells how many sends there were |
| Fidelity.HistoryIsOfRun | internal/worker/worker.go:156-170 | the failure times and the missed attempts that other statements use are those of the run |
| Pacing.NeverRequeuedEarly | internal/repository/message.go:153-155 | no message is re-queued before its retry time |
| Pacing.BackoffOverRuns | internal/worker/worker.go:156-158 | every stored attempt n+1 went out 2^(n-1) seconds after failure n was handled and 2^n - 1 seconds after the first failure was, at the earliest |
| Progress.WithinBudget | internal/worker/worker.go:145-173 | what a message has cost and can still cost never exceeds its budget, for any weighting of the steps, deleted or not |
| Progress.RunBudget | internal/scheduler/scheduler.go:47-53 | for any weights on the steps, the steps of a whole run cost at most one push, six attempts and five re-queues for each message created |
| Progress.AtMostSixSends | internal/worker/worker.go:156-173 | at most 6 pops, 6 sends, 6 commits, 5 re-queues and 41 steps for a message, as counted in the run |
| Progress.RunTerminates | internal/scheduler/scheduler.go:47-53 | N messages take at most 17N pops, commits and re-queues, and 41N steps |
| Completion.Advance | internal/worker/worker.go:47-71 | under G a message that is not final always leaves a step that can be done, after waiting if need be, whatever the receivers answer |
| Completion.EveryRunCanComplete | internal/worker/worker.go:145-173 | under G with at least one worker, and whatever the receivers answer, every run can be carried on without further requests until all messages are success or failed |
| Fairness.FairRunsComplete | internal/worker/worker.go:47-71 | under G with at least one worker, N messages and no further requests, 82N + 2 fair rounds leave every message success or failed, whatever the receivers answer |
| Fairness.RoundWorks | internal/scheduler/scheduler.go:41-55 | every fair round that begins with a message not final does some of the bounded work |
| Fairness.RoundGoesOn | internal/worker/worker.go:47-71 | every run under G can go on with a fair round, whatever the receivers answer |
| BoundedWait.BoundedWait | internal/repository/message.go:153-157 | a due message with r other rows due no later, if it is not deleted, is pushed within floor((r + l)/10) + 1 scheduler passes, l being the commits since then that landed after their own backoff had run out |
| BoundedWait.FindServesTen | internal/scheduler/scheduler.go:42 | a pass that leaves a due message out takes ten rows from ahead of it |
| Stats.DashboardStats.GetStatsByOrgID | internal/repository/message.go:189-216 | the three counts of the filters and the rounded rate; they add up to the organization's rows |
| Stats.RateIsClose | internal/repository/message.go:205-208 | 0 without messages; otherwise within 0..100 percent, and the nearest hundredth of a percent, halves up |
| Stats.FinalIsForEver | internal/worker/worker.go:145-173 | a final message that was not overtaken keeps its row in every faultless continuation until it is deleted |
| Stats.TotalsNeverFall | internal/repository/message.go:192-199 | under G an organization's sent and failed totals never fall, until it is deleted |
| Stats.TotalsCountCreated | internal/repository/message.go:192-199 | an organization's rows, so sent + failed + queued, are as many as the messages created for it since it was last deleted, if ever |
| ComponentRuns.DeliveryAlone | internal/worker/worker.go:100-173 | an undisturbed delivery in the protocol writes what Worker.Deliver writes |
| ComponentRuns.TurnAlone | internal/worker/worker.go:47-71 | an undisturbed turn takes the id at the right end of the queue and writes what Worker.Deliver writes |
| ComponentRuns.PassAlone | internal/scheduler/scheduler.go:41-55 | an undisturbed pass in the protocol writes what Scheduler.ProcessRetries writes |
| WebhookLogs.BuildQuery | internal/repository/message.go:227-274 | the numbered placeholders select exactly the wanted rows, and the last two are limit and offset |
| WebhookLogs.LogTable.FindWebhookLogs | internal/repository/message.go:218-318 | clamps page and limit, counts the wanted rows, and returns them by falling creation time: with distinct times exactly those that have (page - 1) * limit to page * limit newer ones, each with the code, duration and time of a highest-numbered attempt |
| WebhookLogs.JoinLatest | internal/repository/message.go:256-268 | code, duration and time are those of a highest-numbered attempt; without one they are 0, 0 and the creation time |
| WebhookLogs.PagesPartition | internal/repository/message.go:250-274 | pages 1..totalPages make up the filtered list, the last is not empty, later ones are |
| Handlers.AcceptedMeansMember | internal/handler/invitation.go:255-279 | for every interleaving an accepted invitation has a member with its email |
| Handlers.OneMembershipPerInvitation | internal/handler/invitation.go:379-397 | for every interleaving an invitation creates at most one membership |
| Handlers.MembershipProvenance | internal/handler/organization.go:121-133 | for every interleaving the founding admin is still there, and every other member matches email and role of an invitation by someone who was admin |
| Handlers.ResumeKeeps | internal/handler/invitation.go:83-126 | each later turn of each handler keeps the keys, the history and what the request relies on |
| Handlers.BeginKeeps | internal/handler/auth.go:121-123 | so does the first turn |
| Tenants.JoinKeeps | internal/repository/membership.go:21-34 | the membership insert of an invitation cannot happen twice for it |
| Tenants.SetAcceptedKeeps | internal/repository/invitation.go:205-214 | marking accepted is consistent when the member is there |
| Tenants.DeleteOrgKeeps | internal/repository/organization.go:48-51 | the cascade of a deleted organization keeps every key and record |
| AtomicHandlers.PendingMeansNotMember | internal/handler/invitation.go:83-107 | after any requests, one at a time, no user with a pending invitation's email is a member of its organization |
| AtomicHandlers.AlreadyMemberUnreachable | internal/handler/invitation.go:259-264 | then the branches for somebody who is a member already are not taken by either accept |
| AtomicHandlers.ListedCanBeAccepted | internal/repository/invitation.go:72-95 | every listed invitation creates exactly its membership when accepted at that instant, by token or by id |
| AtomicHandlers.AcceptJoinsExactly | internal/handler/invitation.go:224-301 | after any requests, a token joins its user to an organization if and only if it is that of a pending invitation to the user's email that is not past its expiry; in every other case memberships are unchanged |
| AtomicHandlers.RespondJoinsExactly | internal/handler/invitation.go:327-418 | after any requests, responding by id joins its user to an organization if and only if it accepts a pending invitation to the user's email that is not past its expiry; in every other case memberships are unchanged |
| AtomicHandlers.InviteSucceedsExactly | internal/handler/invitation.go:62-158 | after any requests, inviting succeeds if and only if the caller is an admin, nobody with the email is a member and no pending or accepted invitation stands; an expired or cancelled one is replaced, and otherwise nothing changes (the new id and token being unused) |
| AtomicHandlers.DeclineChangesNothing | internal/handler/invitation.go:364-376 | declining never ends well: the tables stay as they are, but for an overdue pending invitation to the user, which becomes expired; an open one is answered with an error |
| Outcomes.RegisterOutcome | internal/handler/auth.go:102-172 | registering adds exactly one user, account, organization and admin; with a taken slug the user and the account stay, with a taken email nothing changes |
| Outcomes.CreateOrgOutcome | internal/handler/organization.go:97-144 | adds the organization and its admin if the slug is free, and otherwise changes nothing |
| Outcomes.RemoveOrgOutcome | internal/handler/organization.go:69-95 | deletes if and only if an admin gives the name; exactly its own members and invitations go with it |
| Outcomes.CancelOutcome | internal/handler/invitation.go:187-222 | cancels, whatever the status, if and only if an admin names an invitation of the own organization; nothing else changes |
| Outcomes.AcceptOutcome | internal/handler/invitation.go:224-301 | the reply and the tables in full: no such token, not pending, overdue and so marked expired, unknown user, another email, member already, joined with the role of the invitation |
| Outcomes.RespondOutcome | internal/handler/invitation.go:327-418 | the same by id, declining included |
| Outcomes.InviteInFull | internal/handler/invitation.go:62-158 | the reply and the tables in full: the new invitation has the role asked for, member if none was, the given token and inviter, and seven days; it replaces an expired or cancelled one, and no other row changes |
| Outcomes.MembersWereAskedFor | internal/handler/invitation.go:109-126 | for every interleaving, a member who is not the founder has the role that a former admin asked for, for the member's email |
| Crossing.PendingForMemberExactly | internal/handler/invitation.go:83-126 | for every interleaving, with failed lookups and aborts, a pending invitation is for a member if and only if an invite inserted it for somebody already a member, an accept of another invitation joined past it, or its own accept joined and has not marked it or was stopped first |
| Crossing.CrossedLasts | internal/handler/invitation.go:255-279 | a crossed invitation is for a member for as long as it is pending, however the requests go on |
| HandlerRace.EveryMeetingCanCross | internal/handler/invitation.go:266-279 | from any state in which an accept and an invite for the same email and organization are both before their inserts, and both would succeed, they can end with a pending invitation for a member |
| HandlerRace.MemberWithPendingInvitation | internal/handler/invitation.go:244-279 | an interleaving without failures, both requests done, after which a member has a pending invitation for as long as that invitation is not changed |
| HandlerMethods.InvitationHandler.CreateInvitation | internal/handler/invitation.go:62-158 | ends as the undisturbed turns of the request |
| HandlerMethods.InvitationHandler.Propose | internal/handler/invitation.go:92-126 | the check for an earlier invitation, its removal and the insert |
| HandlerMethods.InvitationHandler.CancelInvitation | internal/handler/invitation.go:187-222 | cancels whatever the old status was |
| HandlerMethods.InvitationHandler.AcceptInvitation | internal/handler/invitation.go:224-301 | ends as the undisturbed turns of the request |
| HandlerMethods.InvitationHandler.RespondToInvitation | internal/handler/invitation.go:327-418 | ends as the undisturbed turns of the request |
| HandlerMethods.InvitationHandler.Join | internal/handler/invitation.go:378-397 | member check, membership insert and accept write |
| HandlerMethods.InvitationHandler.GetPendingInvitations | internal/repository/invitation.go:72-95 | each pending and unexpired invitation for the user's email once, and no other, the newest created first |
| HandlerMethods.OrganizationHandler.CreateOrg | internal/handler/organization.go:97-144 | organization, then founding admin |
| HandlerMethods.OrganizationHandler.DeleteOrg | internal/handler/organization.go:69-95 | deletes only on the right name, with the cascade |
| HandlerMethods.AuthHandler.Register | internal/handler/auth.go:102-172 | user, account, organization and founding admin, stopping where an insert fails |
| RateLimit.RateLimiter.Handle | internal/middleware/ratelimit.go:15-41 | counts in the address's minute, sets the expiry on the first request, lets requests through when the store fails |
| RateLimit.AdmitsExactly | internal/middleware/ratelimit.go:20-36 | after any requests, the next one is let through if and only if the store fails or fewer than 100 requests of its address were counted in its minute |
| RateLimit.CounterIsExact | internal/middleware/ratelimit.go:22-31 | the counter of a window is its number of counted requests and outlives the window |
| RateLimit.WindowAdmissions | internal/middleware/ratelimit.go:20-36 | exactly min(counted requests, 100) admissions per address and clock minute, and one more for each request that the store could not count |
| RateLimit.SlidingBound | internal/middleware/ratelimit.go:20-36 | any span of L seconds admits at most 100 * (ceil(L/60) + 1) requests beside those that the store could not count |
| RateLimit.TwoHundredInASecond | internal/middleware/ratelimit.go:33-36 | 200 admissions within one second do occur, all of them counted |
| Slug.SlugifyIsSlugOf | pkg/helper/helper.go:12-32 | the five passes give the non-empty words between separators joined by one hyphen, for every string |
| Slug.FixedPoints | pkg/helper/helper.go:12-32 | the fixed points are exactly the normal slugs, and slugifying twice changes nothing |
| Slug.SlugsAreNormal | pkg/helper/helper.go:20-29 | every result is a normal slug |
| Slug.SeparatorsPart | pkg/helper/helper.go:12-18 | the slug of two parts around a space, underscore or hyphen is that of the parts, joined by a hyphen when neither is empty |
| Slug.OthersVanish | pkg/helper/helper.go:20-22 | a character that is no lower-case letter, digit or separator once lowercased leaves no trace |
| Signature.ContentReadsBack | pkg/helper/webhook_signature.go:21-22 | the content reads back as id, timestamp and body if and only if the id has no dot |
| Signature.ContentIsInjective | pkg/helper/webhook_signature.go:21-26 | distinct messages with dot-free ids give distinct signer input |
| Signature.DottedIdsCollide | pkg/helper/webhook_signature.go:22 | with dots in ids two messages can share one input |
| Signature.WorkerContentReadsBack | internal/worker/worker.go:87-95 | the worker's ids are dot-free |
| Signature.NodeRefuses | README.md:197-199 | the Node verifier refuses a timestamp if and only if it reads as a number more than 300 seconds from now, earlier or later |
| Signature.ParseIntDecimal | README.md:197 | after blanks and a sign, decimal digits count up to the first character that is none |
| Signature.ParseIntHexadecimal | README.md:197 | after 0x hexadecimal digits count, and there is no number without one |
| Signature.HexPlaces | README.md:197 | a hexadecimal digit counts for its place among the sixteen, in either case, 16 times for every digit after it |
| Signature.ParseIntNaN | README.md:197 | without a digit behind the blanks and the sign there is no number |
| Signature.SignedIsAccepted | README.md:192-245 | the Node and the Python verifier accept a signed message exactly within 300 seconds of its timestamp |
| Signature.AcceptedMessages | README.md:201-213 | under a collision-free hash, for a dot-free id and any check of the timestamp: a signature is accepted for the signed content split at any two of its dots, if the part between them passes the check, and for no other message |
| Signature.SplitIsAccepted | README.md:201-213 | for any hash, every such split is accepted |
| Signature.OnlyTheSignedMessage | README.md:192-213 | under a collision-free hash, for a dot-free id: the Node verifier accepts some other message if and only if the body has a dot and the signed timestamp is within 300 seconds of now, or a part of the body between dots, followed by a dot, is not a number to parseInt or reads as a time within 300 seconds of now |
| Signature.ObjectsFitForEver | README.md:197-201 | so with a JSON object that has a dot some other message is accepted at any time: the text before the dot is not a number, and no comparison with NaN holds |
| Signature.OnlyTheSignedStrictly | README.md:225-245 | the Python verifier accepts some other message if and only if such a part is a number to int() within 300 seconds of now |
| Signature.OtherIdsHaveDots | README.md:225-245 | whatever the Python verifier accepts beside the signed message comes with an id that has a dot |

## Left out

- Sending over HTTP, gRPC, the database and Redis drivers, metrics, logging and configuration: a send is a status code or no response, chosen freely.
- A signing secret that cannot be looked up (the request then goes out unsigned), response bodies and error texts.
- Worker crashes after a pop, failed pushes and failed writes of rows: the code has no recovery, so they are disturbances, covered by RowInvariant and excluded from Faultless runs.
- Float rounding in the success rate and the page count: exact integers.
- WebhookLogs.LogTable.FindWebhookLogs: which of several rows created at the same time comes first is left to the database, so the rows of a page are named by rank only when the times are distinct; an unknown status text, which the database rejects, is not modelled.
- HMAC-SHA256 (section 2 of RFC 2104) and base64 (section 4 of RFC 4648): one uninterpreted function. Random tokens and ids are fresh draws.
- Signature.OnlyTheSignedMessage: parseInt rounds numbers beyond 2^53; here they are exact.
- Fairness.FairRunsComplete: speaks of runs without further requests; while messages keep coming the rounds count from the last one.
- Slug.SlugifyIsSlugOf: strings are sequences of characters, so invalid UTF-8 is not modelled.
- HandlerMethods.AuthHandler.Register: passwords, and accounts of other providers, which nothing inserts, are not modelled.
- The admin and membership checks of the router are part of a request's first turn, not turns of their own.
- Email sending, response-only lookups, address extraction, CORS, API keys and JWT, the listing endpoints, secret rotation, the web interface and the marketing site.
