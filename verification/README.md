# Verification of the hosting control extension

A Dafny model of the parts of the extension where mistakes are easy and expensive: the concurrent WHM client, the
tenant-scoped store with its encrypted tokens, the sync into the account cache, the secret scrubber, the controller
cache and the manifest validator. `dafny verify dfyconfig.toml` checks everything.

## How the program is modelled

- **Concurrency of WHM calls** (`Limiter`, `Retry`, `Whm`, `WhmAnswers`, `HostCalls`, `HostRuns`, `HostCap`,
  `Overtaking`). A turn runs one call from one `await` to the next: fast acquire, enqueue, resume, send, sleep, finish,
  release and wake. A schedule is any list of turns. What the transport answers to attempt k of call i is arbitrary. The
  limiter class itself is proved against the functions on its two maps that a turn uses, and the retry loop against the
  predicate `Decides`. Only calls whose URL parses get as far as the limiter.
- **Store** (`Crypto`, `Store`, `StoreRuns`, `Attestation`). Three tables as maps from ids to rows; every repository call is
  one atomic step that answers and writes, with soft delete, the unique keys (which deleted rows keep occupying) and the
  foreign key. A run is any interleaving of calls by any tenants. AES-256-GCM, base64 and UTF-8 are functions known by their
  laws. A secret remembers the service, hence the key, that encrypted it; every request may bring a key of its own.
- **Services** (`Database`, `Repositories`, `AccountCache`, `Sync`, `SyncLaws`, `Services`, `TokensService`,
  `ServersService`, `AccountsService`, `WhmAsked`, `Requests`, `ServiceRuns`). Methods over a mutable database object.
  `Database.Execute` demands that a call is `Proper`: fresh ids, and only servers that were looked up. So the services
  are proved to issue only the calls the theorems on runs are about, and `Valid` carries the whole invariant. The
  database's choice among matching rows, WHM's answers, the clock and the random bytes are parameters.
  `Requests.Handled` says what handling a request comes to; `ServiceRuns` handles whole sequences of requests so, one at
  a time. `WhmAsked` tells from the rows and the JSON what is asked of WHM and what its reply decides.
- **Services under way at once** (`Plans`, `PlansAlone`, `ServicesAlone`, `Obedience`, `Interleaving`, `Removal`,
  `Watchful`, `SyncRaces`, `TwoSyncs`). Each service once more as a plan: what it asks the database next, given the
  answers so far, and how it ends. Any requests come in (`Open`), and their plans take turns at every repository call; a
  turn is given a fresh id. When nobody interrupts it, a plan, like its method, does what `Requests.Handled` says
  (`PlansAlone`, `ServicesAlone`).
- **Pure and small parts** (`Redact`, `WhmAccounts`, `ControllerCache`, `Manifest`, `Paging`).

## Where the code does not do what one might expect

- The limiter is not a hard cap. A release only resolves a waiter, which counts itself in later; a call arriving in
  between takes the slot. With a maximum of one, r + 1 calls can hold a slot at once for every r, although every
  resolved waiter resumes in its turn (`NoFixedCap`). The slots taken and promised together pass the maximum exactly
  when some call takes a free slot while all free slots are promised (`CapHoldsExactly`). The calls that hold a slot
  pass it exactly when a waiter resumes while no slot is free, for which somebody must have overtaken before
  (`HeldExactly`).
- Not every WHM failure is an extension error. A call throws a TypeError exactly when its URL does not parse, when an answer
  below 400 has the JSON text `null` for a body, or when such an answer reports a failure whose reason is an object with a
  `toString` of its own (`EscapesExactly`). The request schema admits colons in hostnames, for IPv6 literals, and no such
  hostname makes a URL (`ColonEscapes`).
- The services look for name clashes among live rows, and not at all when a token is relabelled. The table constraints do
  the rest: the name of a deleted server and the label of a deleted token are lost for good (`NameLost`, `LabelLost`), and
  the caller sees the driver's error instead of a conflict.
- A refresh writes the cache entry of the user that WHM's summary names, which need not be the account asked for
  (`RefreshedExactly`); a summary without a name goes to the account `unknown` (`NamelessReply`).
- A token is read under the key of the request that uses it, which need not be the key it was written under. Then a
  connection test marks the server UNREACHABLE, a resolve or refresh fails, and a sync fails without a status and without an
  audit record, because its decryption stands before the try block (`WithCurrentSecret`, `FailsUnderOtherKeys`).
- That an ACTIVE server has a token used no earlier than its last check holds between requests as long as the clock does
  not step back (`Serve`), but not between calls: a refresh that read its clock before a concurrent sync can stamp the token
  back (`LateStamp`). It holds throughout an interleaved run exactly if every stamp and every ACTIVE status is timely
  (`RunAttestsExactly`).
- Two syncs of a server can both miss a new account and both insert it; the second insert violates the unique key, and
  its sync marks a server UNREACHABLE that has just answered. `OneFails` gives the turns, for any two syncs that would
  each find that account alone. An insert fails so exactly if another one of the same account came between its lookup
  and itself, and a sync or refresh ends with that failure exactly if this happens to it (`InsertRaceExactly`,
  `FailsExactly`, `OvertakenMarks`).
- A service that starts after its server was removed fails, however others interleave (`RemovedForGood`). One under way
  need not: a creation that has looked its server up leaves the removed server with a new token, unless it still meets the
  label (`CreateUnderWay`).
- The foreign key on servers ranges over all tenants. Tenants are independent because the services look the server up
  first (`InsertIndependentExactly`).

## Model

| member | source | states |
|---|---|---|
| Limiter.KeyedConcurrencyLimiter.BeginAcquire | src/backend/utils/http-retry.ts:51-61 | a caller takes a slot at once iff fewer than the maximum are counted for its key, else it joins the end of the queue of that key; no other key changes |
| Limiter.KeyedConcurrencyLimiter.ResumeAcquire | src/backend/utils/http-retry.ts:62 | a resumed waiter counts itself in, whatever the count is by then |
| Limiter.KeyedConcurrencyLimiter.Release | src/backend/utils/http-retry.ts:65-70 | one slot is given back, never below zero, and exactly the head of the queue, if any, is woken without being counted in |
| Retry.Retry | src/backend/utils/http-retry.ts:15-33 | the result is that of the first attempt that is not retryable, or of the last one allowed; one pause is slept per retry, the base doubled each time plus the whole milliseconds of a random share of the base |
| Retry.DecidesUnique | src/backend/utils/http-retry.ts:15-33 | the stream of outcomes fixes the deciding attempt |
| Retry.BackoffTotals | src/backend/utils/http-retry.ts:27-30 | pauses strictly grow, and k of them last between base*(2^k - 1) and base*(2^k - 1) + k*(base - 1) |
| Whm.Call | src/backend/services/whm-api.client.ts:130-209 | without a URL that parses a call throws at once and sends nothing; with one it returns the verdict on the transport outcome that settles it and has sent exactly one request per outcome up to it |
| Whm.SettlesMeans | src/backend/services/whm-api.client.ts:154-175 | the settling outcome is the first that is neither a transport failure, 429 nor 5xx among the first retries + 1, else the last of these |
| Whm.SomeOutcomeSettles | src/backend/services/whm-api.client.ts:167-178 | every stream of outcomes settles a call |
| Whm.EscapesExactly | src/backend/services/whm-api.client.ts:130-208 | something other than an extension error escapes iff the URL does not parse, or the settling response is below 400 and its body parses to null or reports a failure whose reason cannot be turned into text |
| Whm.UrlParsesExactly | src/shared/schemas/server.schema.ts:5-10 | of the hostnames the schema admits, those with a colon never make a URL, and for the others the port does not matter |
| Whm.ColonEscapes | src/backend/services/whm-api.client.ts:131 | an IPv6 literal and a hostname with a port pass the schema, and every call to them throws without a request |
| Whm.NullEscapes | src/backend/services/whm-api.client.ts:191-198 | an answer 200 with the body null makes the call throw a TypeError |
| Whm.ExhaustedExactly | src/backend/services/whm-api.client.ts:232-246 | a transient outcome reaches the caller iff all allowed attempts met one; the kind of the last decides between unreachable, rate limited and API error |
| WhmAnswers.DataExactly | src/backend/services/whm-api.client.ts:189-208 | a settling response yields data iff it is below 400 and its body parses to something not null whose `metadata.result` is absent or 1; the data is what is under `data`, or everything if that is absent or null |
| WhmAnswers.AuthExactly | src/backend/services/whm-api.client.ts:180-206 | authentication counts as failed iff the status is 401 or 403, or a failure is reported whose reason, itself or within a list, names denied access, a permission or a token in any letter case |
| WhmAnswers.OtherwiseExactly | src/backend/services/whm-api.client.ts:167-208 | every other outcome: which error for a transport failure, a limit, a thrown error, and that nothing but data, a TypeError and the two API errors is left |
| WhmAnswers.PrintsExactly | src/backend/services/whm-api.client.ts:199-205 | a reason cannot be turned into text iff it is, or its nested lists hold, an object with a property `toString` |
| WhmAnswers.AccountsArrive | src/backend/services/whm-api.client.ts:219-222 | every account that a successful answer lists under `data.acct` reaches the caller, in order |
| WhmAnswers.VersionExactly | src/backend/services/whm-api.client.ts:214-217 | a version is told iff it is a string in the data |
| HostCalls.LimiterTurn | src/backend/utils/http-retry.ts:42-70 | the limiter object, asked what a call's phase asks of it, ends with the slots of the model's turn, lets the call go on as the turn does and wakes the same waiter |
| HostCalls.TurnInv | src/backend/utils/http-retry.ts:42-70 | every turn of any call keeps the queues exact and in order, the counts equal to the calls holding a slot, no wait while a slot is neither taken nor promised, and each call's requests and releases accounted for |
| HostRuns.ConcurrencyBound | src/backend/utils/http-retry.ts:51-70 | in every reachable state, per host, slots taken plus slots promised pass the maximum by at most the number of overtakes, and outstanding requests never outnumber the slots taken |
| HostCap.TurnBreaksExactly | src/backend/utils/http-retry.ts:51-70 | one turn takes the slots taken and promised past the maximum iff it admits a call while a slot is free and all free slots are promised |
| HostCap.CapHoldsExactly | src/backend/utils/http-retry.ts:51-70 | along a run the slots taken and promised stay within the maximum iff no call overtakes so, and iff one does some state of the run needs only its woken waiters to resume for more calls than the maximum to hold a slot |
| HostCap.HeldExactly | src/backend/utils/http-retry.ts:51-70 | in every state of a run at most the maximum of calls hold a slot iff no waiter resumes while no slot is free; and if one does, some call overtook |
| Overtaking.NoFixedCap | src/backend/utils/http-retry.ts:57-69 | for every r some run of a limiter with a maximum of one, in which every resolved waiter resumes before any other call takes a second turn, has r + 1 slots taken at once |
| HostRuns.RunsEnd | src/backend/utils/http-retry.ts:42-49 | no run of n calls is longer than n*(2*retries + 6) turns, whatever the interleaving and the outcomes |
| HostRuns.Progress | src/backend/utils/http-retry.ts:51-70 | with at least one slot per host no reachable state with an unfinished call is stuck |
| HostRuns.Completion | src/backend/services/whm-api.client.ts:167-178 | every run that cannot go on has settled every call by its own outcomes, freed each slot exactly once, and left all counts zero and all queues empty |
| HostRuns.ScheduleIrrelevant | src/backend/services/whm-api.client.ts:167-178 | two complete runs, however interleaved, end every call alike, with as many requests |
| HostRuns.RequestBound | src/backend/utils/http-retry.ts:18-31 | at any moment n calls have sent at most n*(retries + 1) requests |
| HostRuns.FirstInFirstOut | src/backend/utils/http-retry.ts:57-69 | waiters of a host are woken in the order in which they queued |
| HostRuns.NoSlotsNoProgress | src/backend/utils/http-retry.ts:51-61 | with a maximum of zero or less no call is ever admitted |
| HostRuns.HostsIndependent | src/backend/utils/http-retry.ts:36-71 | any run, seen from one host, is the run of that host's turns alone |
| Redact.Redact | src/backend/utils/redact.ts:10-23 | beyond eight levels, and under every key the pattern matches, the mask; every other child is kept, scrubbed in turn |
| Redact.SensitiveExactly | src/backend/utils/redact.ts:4-5 | a key is sensitive iff it contains, in any letter case, one of the plain words, or `api` or `private`, at most one hyphen or underscore, and `key` |
| Redact.RedactKernel | src/backend/utils/redact.ts:4-23 | two values scrub to the same output iff they agree at every path of length at most 8 that steps below no sensitive key |
| Redact.Idempotent | src/backend/utils/redact.ts:10-23 | scrubbing again changes nothing |
| Redact.ScrubbedAndBounded | src/backend/utils/redact.ts:10-23 | no sensitive key of the output holds anything but the mask, and the output is at most nine containers deep |
| Redact.LastFour | src/backend/utils/redact.ts:26-29 | the hint has four characters: the last four of a secret longer than that, a constant mask for any other |
| Crypto.RoundTrip | src/backend/utils/crypto.ts:46-84 | decryption undoes encryption iff the plaintext is nonempty and survives UTF-8; the empty one is rejected as malformed |
| Crypto.OpensAs | src/backend/utils/crypto.ts:46-84 | whichever service packed a secret and whichever unpacks it, decryption yields what the cipher makes of the secret under the two keys and ids |
| Crypto.ReadsExactly | src/backend/utils/crypto.ts:55-84 | a secret is read back iff the reading key and id are those it was written with and its text survives the encoding and is not empty; with the same id, any text opens under the same key and fails the integrity check under another |
| Crypto.LawsPossible | src/backend/utils/crypto.ts:1-10 | the laws assumed of the cipher can hold together, for any two keys |
| Crypto.AcceptsExactly | src/backend/utils/crypto.ts:55-84 | what decrypts is exactly a packed iv, tag and nonempty ciphertext that authenticates under the key, stored under the service's key id |
| Store.ApplyKeepsInv | prisma/extension.prisma:42-160 | every proper repository call keeps the unique keys, references within the tenant, coherent statuses and the hidden secrets, and deleted rows unchanged |
| StoreRuns.RunKeepsInv | src/backend/repositories/tokens.repository.ts:82-128 | after any interleaved run every token holds the envelope of the secret last written for it with its hint beside it, keys are unique, references stay within the tenant, INACTIVE means never checked and UNREACHABLE means an error is stored |
| StoreRuns.TenantsIndependent | src/backend/repositories/servers.repository.ts:52-135 | deleting all other tenants' calls from any interleaved run changes no row of a tenant and nothing the tenant is told |
| StoreRuns.InsertIndependentExactly | src/backend/services/tokens.service.ts:22-25 | the answer to a token insert is independent of the other tenants iff the tenant owns the server it names |
| StoreRuns.NeverFoundAgain | src/backend/repositories/servers.repository.ts:76-135 | after any run a deleted server is unchanged and found by no lookup |
| StoreRuns.NameLost | prisma/extension.prisma:71 | after any run creating a server under the name of a deleted one violates the table's key |
| StoreRuns.LabelLost | prisma/extension.prisma:100 | after any run creating a token under the label of a deleted one of the server violates the table's key |
| StoreRuns.NeverInactiveAgain | src/backend/repositories/servers.repository.ts:114-127 | no run takes a server that was checked back to INACTIVE |
| StoreRuns.RelabelKeepsKeysExactly | src/backend/services/tokens.service.ts:69-93 | writing a label unchecked keeps the labels of a server unique iff no other row, live or deleted, has it |
| StoreRuns.RaceExactly | src/backend/repositories/accounts.repository.ts:71-104 | an account insert after a lookup that found none violates the unique key iff some call in between inserted the same account |
| Attestation.CallAttestsExactly | src/backend/repositories/tokens.repository.ts:123-128 | a call leaves every ACTIVE server with a token used since its last check iff a stamp is no older than that check or made up for by another token, and an ACTIVE status is no newer than some stamp |
| Attestation.RunAttestsExactly | src/backend/repositories/servers.repository.ts:114-127 | over any interleaved run this holds throughout iff every call meets that condition where it happens |
| Attestation.LateStamp | src/backend/services/accounts.service.ts:78-86 | after a sync whose stamp a refresh with an earlier clock reading overwrites, the server still has such a token iff another one was used since |
| Database.Database.Execute | src/backend/repositories/tokens.repository.ts:40-129 | a proper call answers and writes as the tables do and keeps the invariant of the whole store |
| Database.CurrentSecret | src/backend/utils/crypto.ts:55-84 | decrypting a stored token of a reachable database yields what the reading service makes of the secret last written for it |
| Repositories.FindActiveToken | src/backend/repositories/tokens.repository.ts:60-68 | the lookup finds a token iff the tenant has a live active one of that scope on the server |
| Repositories.CountActiveByServerIds | src/backend/repositories/tokens.repository.ts:70-80 | for every server asked for the count, or zero where there is none, is the number of its live active tokens |
| Repositories.SetServerStatus | src/backend/repositories/servers.repository.ts:114-127 | status, error and check time of a live server of the tenant are replaced and nothing else; any other id changes nothing |
| Repositories.MarkTokenUsed | src/backend/repositories/tokens.repository.ts:123-128 | the stamp of a live token of the tenant is replaced and nothing else |
| WhmAccounts.ParsesExactly | src/backend/utils/whm-account-parse.ts:11-52 | what is kept of a record: the user under `user`, else `username`, else `unknown`; domain and plan where they are nonempty strings or numbers; suspended iff true, 1 or one of four words with white space around it in any letter case; and the record itself |
| WhmAccounts.ParseAll | src/backend/utils/whm-account-parse.ts:43-52 | a list parses record by record iff no record is null |
| WhmAccounts.TrimExactly | src/backend/utils/whm-account-parse.ts:22 | trimming cuts off only white space and leaves none at either end |
| AccountCache.FindAccountByUser | src/backend/repositories/accounts.repository.ts:65-69 | a live account of that user on the server is found iff there is one |
| AccountCache.InsertSucceeds | src/backend/repositories/accounts.repository.ts:71-104 | an insert after a lookup that found nothing never violates the unique key |
| AccountCache.UpsertOne | src/backend/repositories/accounts.repository.ts:71-104 | the server's cache, as a map from user to fields, gets one entry set; only that user's row of that server changes |
| AccountCache.UpsertMany | src/backend/repositories/accounts.repository.ts:106-116 | the cache is the fold of the list into it, the last write of a user winning; only rows of the listed users on the server change, and the count is the length of the list |
| AccountCache.CachePut | src/backend/repositories/accounts.repository.ts:71-104 | writing one row of a server's cache sets exactly one entry of the map the rows stand for |
| AccountCache.UpsertedAt | src/backend/repositories/accounts.repository.ts:106-116 | folding a list in decides the listed users from the list alone and leaves the others |
| AccountCache.LastRecordKept | src/backend/repositories/accounts.repository.ts:106-116 | after a list of records is written, the entry of every account they name is what is kept of the last record naming it, and the other entries are as before |
| AccountCache.UpsertIdempotent | src/backend/repositories/accounts.repository.ts:106-116 | upserting the same list again changes no field |
| AccountCache.DistinctUsers | src/backend/repositories/accounts.repository.ts:106-116 | the reported count is never less than the number of distinct users written |
| Sync.SyncServer | src/backend/services/hosting-sync.service.ts:66-118 | the outcome is decided by the state before it; a reached server ends ACTIVE with its cache merged and its token stamped, an unreachable one UNREACHABLE with the message, and any other outcome changes nothing; the audit records are exactly those of the outcome |
| Sync.SyncInTurn | src/backend/services/hosting-sync.service.ts:47-54 | the loop syncs the servers one after the other, sums the imported accounts and counts the failures |
| Sync.InTurnAlone | src/backend/services/hosting-sync.service.ts:43-64 | servers synced in turn are decided and changed as if each were synced from the state before the first |
| Sync.ListServers | src/backend/repositories/servers.repository.ts:52-74 | the newest live servers of the tenant come, newest first, as many as asked for or all of them |
| Sync.SyncTenant | src/backend/services/hosting-sync.service.ts:43-64 | the 1000 newest live servers, or all if there are no more, end as their outcomes in the initial state say, nothing else changes, and the summary and the audit trail are those of the outcomes |
| SyncLaws.OrderIrrelevant | src/backend/services/hosting-sync.service.ts:43-64 | for two orders of the same servers and any failures, statuses and caches agree but for row ids and timestamps |
| SyncLaws.AsIfAlone | src/backend/services/hosting-sync.service.ts:43-118 | a listed server's row, tokens and cache end as if it alone had been synced |
| SyncLaws.SyncIdempotent | src/backend/services/hosting-sync.service.ts:1-4 | syncing again against the same replies changes only timestamps and adds no row |
| SyncLaws.EveryServerCounted | src/backend/services/hosting-sync.service.ts:47-63 | failed servers and SUCCESS records together are the servers listed |
| SyncLaws.SummaryOrder | src/backend/services/hosting-sync.service.ts:45-63 | imported accounts and failures do not depend on the order of the outcomes |
| SyncLaws.WithCurrentSecret | src/backend/services/hosting-sync.service.ts:82-88 | a sync asks WHM with what its service opens of the secret last written for the token it uses; where it cannot open it, it ends without status and audit record |
| SyncLaws.FailsUnderOtherKeys | src/backend/services/hosting-sync.service.ts:82-88 | with one key id throughout, a sync fails to decrypt iff its key is not the key the token was written under, whatever the text |
| SyncLaws.SummaryExactly | src/backend/services/hosting-sync.service.ts:45-54 | the summary counts the accounts that the reached servers list between them, and the servers that were not reached |
| WhmAsked.SyncAsks | src/backend/services/hosting-sync.service.ts:82-101 | a sync asks with the host name, port and certificate setting of the server's row, the user of the token's row and the opened secret last written for it; the reply to these calls for the decision and no other reply matters |
| WhmAsked.SyncKeeps | src/backend/services/hosting-sync.service.ts:92-98 | after a sync the entry of every account in WHM's answer is what is kept of the last record naming it, and the other entries of the server are as before |
| WhmAsked.TestAsks | src/backend/services/servers.service.ts:121-149 | a connection test asks with the same five fields, and its status, version and message are those the reply to them, or the failure to open the secret, calls for |
| WhmAsked.AccessAsks | src/backend/services/account-whm-context.ts:33-40 | so do the services on an account |
| WhmAsked.SummaryExactly | src/backend/services/accounts.service.ts:75-82 | which error each reply to a refresh calls for, and that otherwise the first account listed is what is kept of |
| WhmAsked.RefreshKeeps | src/backend/services/accounts.service.ts:75-94 | the row a refresh leaves is what is kept of the first account in WHM's reply |
| TokensService.Create | src/backend/services/tokens.service.ts:39-67 | succeeds iff the server is the tenant's and live and no row, live or deleted, has the label; then one new active row holds the envelope of the given secret; every failure changes nothing and is told apart |
| TokensService.Update | src/backend/services/tokens.service.ts:69-93 | succeeds iff the token is the tenant's and live and the new label is free; the given fields are replaced, the envelope of a new secret takes the place of the old one, and the rest of the row is kept |
| TokensService.Remove | src/backend/services/tokens.service.ts:95-103 | a live token of the tenant is marked deleted and inactive, any other id is not found |
| ServersService.Create | src/backend/services/servers.service.ts:54-75 | succeeds iff no row of the tenant, live or deleted, has the name; the new server is INACTIVE; a live clash is a conflict, a deleted one the driver's error |
| ServersService.Update | src/backend/services/servers.service.ts:77-94 | succeeds iff the server is the tenant's and live and the new name is free; status and check time are kept; conflict goes before not found |
| ServersService.Remove | src/backend/services/servers.service.ts:96-104 | a live server of the tenant is marked deleted, its tokens and accounts stay, any other id is not found |
| ServersService.TestConnection | src/backend/services/servers.service.ts:106-160 | what the service opens of some active token's current secret, and WHM's answer to it, decide: ACTIVE with the token stamped, or UNREACHABLE with the message reported, a failed decryption included; without server or token nothing changes |
| AccountsService.AccessConnects | src/backend/services/account-whm-context.ts:30-40 | credentials are for the tenant's live server with the opened current secret of one of its live active WHM tokens; they are refused iff there is no such server, no such token, or the chosen token's secret does not open, each with its own error |
| AccountsService.Credentials | src/backend/services/account-whm-context.ts:30-40 | the lookups and the decryption yield that access, told from the secrets last written |
| AccountsService.Resolve | src/backend/services/account-whm-context.ts:27-42 | an account that is there gets the credentials of its own server, with the opened current secret of an active WHM token; every failure is told apart |
| AccountsService.Refresh | src/backend/services/accounts.service.ts:57-95 | on success the entry of the user in WHM's summary is set, the token stamped and the refresh recorded; every failure leaves store and records alone and is the first that applies |
| AccountsService.RefreshedExactly | src/backend/services/accounts.service.ts:78-94 | the requested account is the one written and returned iff WHM's summary names the same user |
| AccountsService.NamelessReply | src/backend/utils/whm-account-parse.ts:43-47 | a summary that is an empty record makes a refresh write and return the account `unknown`, whichever account was asked for |
| ServiceRuns.Handle | src/backend/services/hosting-sync.service.ts:43-118 | a request of any of the eleven kinds has the result and leaves the state that its kind is specified to, told from the state before |
| ServiceRuns.HandledAttests | src/backend/services/servers.service.ts:106-160 | if no stamp lies in the future and every ACTIVE server has a token used no earlier than its last check, both hold after any request handled so |
| ServiceRuns.Serve | src/backend/services/servers.service.ts:106-160 | over any sequence of requests each is handled so in the state the one before left, the store's invariant holds and rows only evolve; if the clock never steps back, ACTIVE servers keep such a token |
| ServiceRuns.RemovedForGood | src/backend/repositories/servers.repository.ts:129-135 | whatever requests follow a removal, handled one at a time, creating a token on the server, testing it, syncing it, resolving and refreshing its accounts all fail as not found |
| PlansAlone.SyncAlone | src/backend/services/hosting-sync.service.ts:66-118 | the plan of a sync, run without interruption, ends in the state the sync is specified to end in, and with success iff WHM was reached |
| PlansAlone.TenantSyncAlone | src/backend/services/hosting-sync.service.ts:43-64 | so does the plan of a tenant's sync, over the 1000 newest live servers, each as decided in the first state |
| ServicesAlone.PlanHandled | src/backend/services/tokens.service.ts:39-103 | the plan of every request, run without interruption, has the result and leaves the state specified for it, the same as for its method |
| Obedience.PlansObedient | src/backend/services/servers.service.ts:54-160 | whatever the database answers, the service of every request inserts under fresh ids, tokens and accounts only for servers its tenant was shown, and sets a status in one of the two forms |
| Obedience.SyncThenObedient | src/backend/services/hosting-sync.service.ts:66-118 | so does a sync, within its tenant's or by itself |
| Obedience.CreateTokenObedient | src/backend/services/tokens.service.ts:39-67 | whatever the database answers, a token is inserted only for a server its tenant was shown |
| Interleaving.IssuedProper | src/backend/services/tokens.service.ts:22-25 | the calls issued by any number of services, interleaved call by call, are a run of proper calls |
| Interleaving.InterleavedServices | src/backend/services/hosting-sync.service.ts:66-118 | whatever requests come in and however their services interleave, the store's invariant holds, rows only evolve, no tenant's rows or answers depend on another's calls, and ACTIVE servers keep a token used since exactly under the timely condition |
| Interleaving.TenantAlone | src/backend/repositories/accounts.repository.ts:36-116 | a tenant's services, run without the others on the same ids, can take the same turns, make the same calls, come to the same results and leave the tenant the same rows |
| Removal.RemovedForGood | src/backend/services/tokens.service.ts:22-48 | a creation of a token, test, sync, resolve or refresh that starts after its server was removed only reads, and has ended after its one or two lookups, as not found, however services interleave |
| Removal.CreateUnderWay | src/backend/services/tokens.service.ts:39-67 | a creation under way when its server is removed ends as not found iff it had not looked the server up, and else succeeds iff it meets the label at none of its remaining turns, leaving a new token on the removed server |
| SyncRaces.InsertRaceExactly | src/backend/repositories/accounts.repository.ts:71-104 | in any interleaving an insert of a sync or refresh violates the unique key iff since its lookup another call inserted the same account, and succeeds otherwise |
| SyncRaces.FailsExactly | src/backend/services/hosting-sync.service.ts:92-109 | a sync of a server or a refresh ends with that violation iff this happened to one of its inserts |
| SyncRaces.OvertakenMarks | src/backend/services/hosting-sync.service.ts:99-101 | the next call of a sync this happened to marks its server UNREACHABLE |
| TwoSyncs.OneFails | src/backend/services/hosting-sync.service.ts:66-118 | two syncs of a server that would each find the same new account alone can take turns so that the first succeeds and the second fails on the unique key and leaves the server UNREACHABLE |
| Paging.PagesCover | src/backend/services/servers.service.ts:27-45 | the pages up to the last, read one after the other, are the whole ordered result |
| Paging.LastPage | src/backend/services/accounts.service.ts:28-43 | a page holds a row iff its number is at most the number of pages |
| ControllerCache.ControllersFactory.ForRequest | src/backend/container.ts:161-183 | a request is refused as not configured iff header or else environment leaves URL or key empty or absent; a failing request leaves the cache alone; with plain keys the controllers are on the URL, and under the decoded key, of the header, or without it of the environment |
| ControllerCache.Answer | src/backend/container.ts:155-184 | over any sequence of requests whose keys hold no colon every outcome is the one the request calls for, as if nothing were cached |
| ControllerCache.PlainKeysInjective | src/backend/container.ts:171 | keys without a colon make the cache key determine URL and key, even if the URL contains the separator |
| ControllerCache.CollideExactly | src/backend/container.ts:171 | two pairs share a cache key iff a piece of text can be moved across the separator |
| Manifest.Validate | scripts/validate-manifest.ts:154-237 | the problems reported are exactly those there are, and the manifest is accepted iff all clauses on slug, prefixes, permissions, routes, views, sections, actions and variables hold |
| Manifest.ConformsExactly | scripts/validate-manifest.ts:166-236 | the clauses hold iff no problem can be named |
| Manifest.AcceptsExactly | scripts/validate-manifest.ts:166-236 | the clauses, letter by letter and manifest-wide: the fixed slug and prefixes, every path under the API, every permission asked for declared, every permission in the namespace, the key variable protected, no secret that looks public |
| Manifest.AddingPermission | scripts/validate-manifest.ts:175-180 | adding a permission to a valid manifest keeps it valid iff the permission is well namespaced |
| Manifest.SegmentsExactly | scripts/validate-manifest.ts:10 | the permission pattern after its first word accepts exactly dotted words: no empty word, no other character, no trailing dot |

## Left out

- Crypto.ReadsExactly: takes it as a law, for the two keys at hand, that nothing sealed under one opens under the other; the cipher guarantees this only up to a negligible chance.
- Redact.Redact: does not model an own property named `__proto__`, whose assignment JavaScript treats specially, nor values that are not JSON.
- Retry.Retry: a sum of backoff beyond the range of exact JavaScript integers is not modelled.
- Database.Database.Execute: a driver failure other than a violated constraint is not modelled, and neither is a sink that fails to record.
- Encryption is bundled with the repository call that stores its result, so that the plaintext store can be stated beside it.
- Ids are numbers, fresh ones from a counter or given, instead of cuids; creation and update times, the ids of the acting users and the metadata columns are absent except the creation time of servers.
- Audit records keep tenant, action, entity and outcome; their metadata and the log lines are not modelled.
- The texts of WHM errors are a parameter; the texts of validation problems are constructors.
- URL building, the HTTPS transport, JSON parsing, request schemas, the context providers and permission guards, Express routing, controllers, DTO mapping and the frontend.
- The email, domain, database and cPanel services, and the stubbed SFTP and deployment parts.
- Whm.UrlParsesExactly: leaves open which host names without a colon the URL standard accepts.
- Filters and sort orders of the lists other than that of a sync, and the derived metrics with their size parsing.
- Two lookups that the source starts at once, as in the lists, are one call here.
