# A verified model of the policy store, the outboxes and the archive

This project models, in Dafny, the parts of the Authorization, Authentication and Auditlog
services that hold state over many calls, and proves what every call, every run or every
reachable interleaving keeps.  `dafny verify dfyconfig.toml` checks it.

| module | models |
|---|---|
| `Values` | JSON values as a decoder yields them, and shared sequence functions |
| `PolicyRules` | policies, rules, operations, obligations, end times, and what they mean |
| `PolicyCodec` | the stored JSON form of rules: writer, reader, normal form |
| `PolicyMerge` | the no-change test and the deny-first merge of one request |
| `PolicyRequests` | sequences of create requests on one key |
| `PolicyStore` | the policy table, its writes and its invariant |
| `PolicyService` | `Create`/`CreatePrivate`, `Update`, `Delete`, `InitPolicy` and the event handlers on the table |
| `ConditionMerge` | the comparison and merge per condition that seeding uses |
| `PolicySeed` | seeding one policy at every start, and a list of seeds on the table |
| `Outbox` | the transactional outbox as an interleaving of processes, and the worker's code |
| `UnorderedOutbox` | the claim, heartbeat, restart and delete protocol, and the claim loop |
| `Archive` | multipart archiving of audit logs and the ranged download |
| `QuoteTo` | the identifier-quoting byte machine |
| `ObligationQuery` | obligation types per operation and the obligation query |
| `PhoneColumn` | the encrypted phone number column |
| `Hierarchy` | the resource type hierarchy codec and parser |

Every source loop is a method with a loop, proved against a function or a relation; what
the source promises is then proved of that function or relation.  A Go map iteration is an
arbitrary order, so a result built from one is a relation (`IsMerge`, `IsMergedOps`).

## Hypotheses

- Over a run of create requests (`PolicyRequests`), a request has at most one unconditional
  rule a side; the REST layer builds one rule a side with a nil condition
  (Authorization/driveradapters/policy_rest_handler.go:160-170).  The `Create` call itself is
  modelled for all requests, with the exact condition under which it keeps the invariant.
- Where obligations (not ids) are compared over a run, no list names an id twice with
  different obligations; the validator does not check this
  (Authorization/logics/policy.go:318-346).  The counterexample is `SkippedMergeCanChange`.
- Each policy call is one atomic step, a failed commit applies nothing, and new ids
  are fresh.  A table is a map from `f_id` to the row.
- A read of policies, obligations or resource types yields all its rows or fails.  The source
  at most logs an error met while rows are fetched (for policies
  Authorization/dbaccess/policy.go:191-289).  For the outbox, whose worker takes such an error
  for an empty table, it is part of the model.
- Marshal and unmarshal are inverse on JSON values, and numbers are reals.
- The lock rows of the outbox exist (Authentication/migrations/init.sql:93-96).
- Rights checks, names and ancestors looked up in other services, clocks, new ids, failures
  of statements, uploads and commits, and what other sessions do are parameters.

## What the code does that its description does not say

- The outbox can lose a wakeup.  A message query that fails while its row is fetched is only
  logged and reads as an empty table, so the worker commits and sleeps without the retry flag
  while a notified row is in the table: `WakeupLost` gives the run,
  `NotifiedRowsKeepTheWorkerAwake` the exact condition.
- A lock query that fails when it is closed is only logged too, and the transaction goes on
  without the lock: two workers can then handle one row, as `HandledTwiceAtOnce` shows.
  `DeliveryIsAccounted` counts the repeated calls, and excludes them and two open
  transactions as long as no lock query has failed so.
- A heartbeat that writes the stored time again reports no update if, as is its default, the
  driver counts changed rows: `UpdateTime`.
- A create request for a new key is stored whole, so two unconditional rules on a side break
  the store's invariant: `CreateKeepsInvExactly`.
- `InitPolicy` does not refuse a key that comes twice.  A new key then gets two rows, and of
  several seeds for a stored key all but the last that changes it are lost:
  `SeedingKeepsOnePerKeyExactly`, `LastSeedWins`.
- A download counts the bytes of an error page for a range past the end as content:
  `ShortObjectRefused` says exactly when a short object is accepted for that.
- The unconditional no-change test compares with the last of several equal ids, the merge
  keeps the first.  A skipped merge may therefore have changed obligations:
  `SkippedMergeCanChange` gives the input, `SkippedMergeChangesNothing` the exact condition.
- The deny-first merge leaves `f_condition` empty (Authorization/logics/policy.go:481-488).
- Storing drops a rule without operations, which can bring a second unconditional rule to
  light; `TestIgnoresStorage` says exactly when the test notices.
- A seed with a rule without operations is written again at every start, unless a stored
  rule of that condition has operations: `StoredTestAfterSeed`.
- Two seed rules of one condition: the comparison looks at the first stored rule only, the
  merge also rewrites the second: `RepeatedRuleFails`; `SeedTestIsExact` says for which seeds
  the comparison can be relied on.
- Seeding can put an operation on both sides of a policy: `SeedCanBreakInvariant`;
  `SeedKeepsInvariantExactly` says when it does not.
- An XML archive lacks `</log>` exactly when the number of records is a multiple of the
  batch size: `TrailerMissing`.
- A record longer than two parts makes the next one panic on a negative slice bound:
  `LongTextPanics`; `DumpLog` states exactly when that happens.
- A quoted name segment that starts with a dot is quoted wrongly, but for two corner cases:
  `QuotesExactlyFineNames`.
- A pair of quotes at the start of a name is taken for content, and the opening quote is left
  out: `LeadingPairBreaks`.
- `QueryV2` answers "not found" when an id is asked twice: `QueryV2`.

## Model

| member | source | states |
|---|---|---|
| `PolicyRules.ObligationsEqualIsListedEqual` | Authorization/logics/policy.go:2069-2074 | two obligation lists count as equal exactly when they ask for the same, nil and empty being one |
| `PolicyRules.MeaningIsLast` | Authorization/logics/policy.go:353-404 | the obligations a list gives an operation are those of its last entry, nil being none |
| `PolicyRules.MinEnd` | Authorization/logics/policy.go:492-505 | the result is one of the two end times and no later than either, -1 being later than all |
| `PolicyCodec.RulesInfoToString` | Authorization/dbaccess/policy.go:442-475 | the writing loops yield the stored form of the rules, about which the codec lemmas speak |
| `PolicyCodec.MakeConditionItem` | Authorization/dbaccess/policy.go:569-588 | the loop over the operations of one rule yields its stored form |
| `PolicyCodec.MakeObligations` | Authorization/dbaccess/policy.go:604-614 | the loop over obligations yields their stored form, in order |
| `PolicyCodec.RulesStrToInfo` | Authorization/dbaccess/policy.go:522-544 | the reading loops yield the rules, or stop exactly where a type assertion panics |
| `PolicyCodec.ParseConditionItem` | Authorization/dbaccess/policy.go:547-566 | one rule read back, with a missing condition as the empty one and missing obligations as nil |
| `PolicyCodec.GetObligations` | Authorization/dbaccess/policy.go:590-602 | the obligations read back, or the panic |
| `PolicyCodec.DecodeEncode` | Authorization/dbaccess/policy.go:442-475 | for all rules, reading what was written gives the normal form: empty rules and names dropped, nil condition as {}, nil obligations as [], order kept |
| `PolicyCodec.OperationReadable` | Authorization/dbaccess/policy.go:547-602 | an operation is read without a panic if and only if it has a string id and, if it has obligations, a list of entries with string ids |
| `PolicyCodec.OldOperationsRead` | Authorization/dbaccess/policy.go:547-566 | an operation written without obligations is read with nil ones |
| `PolicyCodec.NormIsStable` | Authorization/dbaccess/policy.go:522-588 | the normal form is a fixpoint of store and load, and has the same stored form as the rules |
| `PolicyCodec.ShownIsUnconditional` | Authorization/logics/policy.go:1793-1807 | storing shows the same unconditional operations if and only if no empty unconditional rule hides one with operations |
| `PolicyMerge.CmpPolicy` | Authorization/logics/policy.go:353-404 | true if and only if end times agree and every requested operation is there, on its side, with equal obligations |
| `PolicyMerge.TestExactly` | Authorization/logics/policy.go:353-404 | the test answers "same" if and only if the end times are equal and every requested operation has, on its side, a last entry with the same obligations, nil and empty being one |
| `PolicyMerge.MergeNewPolicy` | Authorization/logics/policy.go:409-489 | the loops yield a merge: deny map, allow map without the denied, conditional rules kept, earlier end time |
| `PolicyMerge.MergeIds` | Authorization/logics/policy.go:409-489 | on ids the merge is union with deny first, for all policies, whatever is listed twice |
| `PolicyMerge.MergeShows` | Authorization/logics/policy.go:409-489 | exactly which obligations a merge leaves: the request's last, else the policy's first, entry of an id; the rules whose condition is neither nil nor the empty object unchanged, in order |
| `PolicyMerge.MergeIsCombine` | Authorization/logics/policy.go:409-489 | on consistent policies the merge is one algebraic operation on grants |
| `PolicyMerge.SkippedMergeChangesNothing` | Authorization/logics/policy.go:353-489 | if the test says "same", the merge changes no id, end time or conditional rule, and no obligation if and only if no unnamed id is stored two ways |
| `PolicyMerge.SkippedMergeCanChange` | Authorization/logics/policy.go:353-489 | a policy and a request for which the test says "same" though the merge changes obligations |
| `PolicyMerge.TestAfterMerge` | Authorization/logics/policy.go:353-489 | after merging, the test accepts the request if and only if the policy denied none of its allows, the end times agree and it does not contradict itself |
| `PolicyMerge.TestIgnoresStorage` | Authorization/logics/policy.go:353-404 | the test answers alike before and after a store and load, for every request, if and only if storage shows the first unconditional rule; so with at most one a side |
| `PolicyRequests.CreateStepIds` | Authorization/logics/policy.go:1271-1344 | inserted, skipped or merged, a request acts on the stored ids as union with deny first |
| `PolicyRequests.CreateStepGrant` | Authorization/logics/policy.go:1271-1344 | inserted, skipped or merged, a request acts on obligations and end time as the same algebraic operation |
| `PolicyRequests.RequestsSumUp` | Authorization/logics/policy.go:353-505 | after any sequence of requests: denied is what any denied, allowed what any allowed minus that, the end time the earliest with -1 as infinity |
| `PolicyRequests.DenialsStay` | Authorization/logics/policy.go:409-489 | no later request lifts an earlier denial |
| `PolicyRequests.OrderDoesNotMatter` | Authorization/logics/policy.go:353-505 | two runs over the same requests, in any order and number, agree on ids and end time |
| `PolicyRequests.LatestRequestWins` | Authorization/logics/policy.go:409-489 | an operation carries the obligations of the latest request that named it on its side |
| `PolicyStore.WriteKeepsInv` | Authorization/dbaccess/policy.go:86-188 | every write keeps: one policy per key, one unconditional rule a side at most, allow and deny ids apart, no empty rule, no policy without rules |
| `PolicyStore.RunsKeepInv` | Authorization/dbaccess/policy.go:86-188 | so does every sequence of writes from a table that satisfies it |
| `PolicyStore.UpdateReplacesUnconditionalPart` | Authorization/logics/policy.go:864-915 | read back after an update, each side's unconditional operations are the request's and all conditional rules survive in order |
| `PolicyStore.DeleteKeepsConditionalPart` | Authorization/logics/policy.go:977-1017 | read back after a delete that keeps the row, it has its conditional rules in order and nothing else |
| `PolicyService.CheckPolicyOperationValid` | Authorization/logics/policy.go:318-346 | accepts if and only if all ids are known, none is on both sides and some operation is named |
| `PolicyService.RequestOkExactly` | Authorization/logics/policy.go:572-618 | a request is admitted if and only if its end time is -1 or in the future, its type known, some operation named, all of them known and none on both sides |
| `PolicyService.PolicyTable.Lookup` | Authorization/dbaccess/policy.go:191-237 | the policy of a key, or none |
| `PolicyService.PolicyTable.CheckBatch` | Authorization/logics/policy.go:572-618 | accepts a batch if and only if end times, types and operations are valid and no key comes twice |
| `PolicyService.PolicyTable.GetCreateAndUpdatePolicy` | Authorization/logics/policy.go:1271-1344 | what a batch of distinct keys writes, for all requests: every key takes its one step, others keep their policy |
| `PolicyService.PolicyTable.Create` | Authorization/logics/policy.go:543-674 | an error leaves the table alone; the exact condition for success, a failed commit included; success means every asked key took its step and has the returned id, a new row the looked-up name, no other key changed, and the invariant holds if and only if what was inserted is good, so always with one unconditional rule a side |
| `PolicyService.CreateKeepsInvExactly` | Authorization/logics/policy.go:543-674 | a batch keeps the store's invariant if and only if each request for a new key is good as storage shows it |
| `PolicyService.PolicyTable.Update` | Authorization/logics/policy.go:810-946 | keeps the invariant; all or nothing; the exact condition for success; success yields the rows with the named ones replaced |
| `PolicyService.UpdateChecksExactly` | Authorization/logics/policy.go:811-876 | its checks written out: no id twice, end times -1 or in the future, and for every policy that exists some operation named, all known, none on both sides |
| `PolicyService.PolicyTable.Delete` | Authorization/logics/policy.go:951-1057 | keeps the invariant; all or nothing; success yields the rows with the named ones stripped or dropped |
| `PolicyService.PolicyTable.DeleteWhere` | Authorization/dbaccess/policy.go:308-379 | exactly the rows of the given resources, accessors or expired end times go, -1 never expiring; the others stay as they are |
| `PolicyService.PolicyTable.UpdateAccessorName` | Authorization/dbaccess/policy.go:347-355 | only names change, on exactly the accessor's rows |
| `PolicyService.PolicyTable.UpdateResourceName` | Authorization/dbaccess/policy.go:358-367 | only names change, on exactly the resource's rows |
| `PolicyService.UpdateAsReadBack` | Authorization/logics/policy.go:864-915 | a named row reads back with the request's grant and, in order, the rules whose condition is neither nil nor the empty object; unnamed rows are untouched |
| `PolicyService.DeleteAsReadBack` | Authorization/logics/policy.go:977-1017 | a named row is gone if and only if every condition on both sides is nil or the empty object; else each side reads back, in order, as its other rules, and no other column changes |
| `PolicyService.TableRunIsKeyRun` | Authorization/logics/policy.go:543-805 | any sequence of create calls on the table is, for each key, a run of that key's requests |
| `PolicyService.CreateCallsSumUp` | Authorization/logics/policy.go:543-805 | hence every sequence of create calls sums up, key by key |
| `ConditionMerge.MergeOperations` | Authorization/logics/policy.go:1992-2014 | the loops list the asked operations, then the others |
| `ConditionMerge.MergedOpsMeaning` | Authorization/logics/policy.go:1992-2014 | merging operations is overriding: the asked obligations win, nothing else changes |
| `ConditionMerge.MergeRuleItems` | Authorization/logics/policy.go:2017-2058 | the loops match each asked rule with the first unused rule of its condition, and append the unused |
| `ConditionMerge.MergeNewPolicyWithCondition` | Authorization/logics/policy.go:1987-2066 | both sides merged so, the earlier end time, all else kept |
| `ConditionMerge.MergeConservesRules` | Authorization/logics/policy.go:1987-2066 | per condition, a merged side has the maximum of the two numbers of rules |
| `ConditionMerge.MergeUnitesOperations` | Authorization/logics/policy.go:1987-2066 | per condition, its operation ids are the union |
| `ConditionMerge.AskedObligationsWin` | Authorization/logics/policy.go:1987-2066 | each asked rule comes out at its place, with its condition and its obligations |
| `ConditionMerge.CmpPolicyWithCondition` | Authorization/logics/policy.go:1896-1979 | true if and only if end times agree and each seed rule is covered by the first stored rule of its condition |
| `ConditionMerge.SeedTestExactly` | Authorization/logics/policy.go:1896-1979 | the comparison written out: equal end times, and every seed rule has on its side a first stored rule of equal condition, all empty ones being equal, which lists each operation, last, with the same obligations |
| `ConditionMerge.SeedTestIsSound` | Authorization/logics/policy.go:1896-2066 | when only the first seed rule of a condition has operations (so with one rule per condition), "same" means that merging changes no (condition, operation, obligations) triple and no end time |
| `ConditionMerge.SeedTestIsExact` | Authorization/logics/policy.go:1896-2066 | for every side of a seed, "same" always means no change if and only if only the first rule of each condition has operations or the side contradicts itself |
| `ConditionMerge.RepeatedRuleFails` | Authorization/logics/policy.go:1896-2066 | a side that repeats a rule fails it |
| `ConditionMerge.SeedingTwiceIsOnce` | Authorization/logics/policy.go:1987-2066 | merging a seed twice, stored in between or not, grants what merging it once does |
| `ConditionMerge.TestAfterSeed` | Authorization/logics/policy.go:1896-2066 | after one merge the test accepts the seed if and only if the end times agree and no rule contradicts itself |
| `ConditionMerge.StoredTestAfterSeed` | Authorization/logics/policy.go:1896-2066 | after storing, if and only if besides no seed rule is lost for want of operations |
| `PolicySeed.SeedOne` | Authorization/logics/policy.go:1854-1886 | one seed policy at one start: inserted, left alone or merged, and stored |
| `PolicySeed.LaterStartsChangeNothing` | Authorization/logics/policy.go:1098-1161 | over any number of starts with a seed of one rule per condition, from any policy, the first start decides: later ones change no triple and no end time |
| `PolicySeed.SeedKeepsInvariantExactly` | Authorization/logics/policy.go:1987-2066 | a merged seed keeps the store's invariant if and only if policy and seed allow nothing that the other denies |
| `PolicySeed.SeedCanBreakInvariant` | Authorization/logics/policy.go:1987-2066 | a policy and a seed after which an operation is allowed and denied |
| `PolicyService.PolicyTable.InitPolicy` | Authorization/logics/policy.go:1098-1161 | seeding as one table step: each seed in order writes what its key, looked up in the table as it was, asks for; all or nothing |
| `PolicySeed.SeedingKeepsOnePerKeyExactly` | Authorization/logics/policy.go:1815-1888 | it leaves one policy per key if and only if no key that was not stored comes twice |
| `PolicySeed.LastSeedWins` | Authorization/logics/policy.go:1854-1886 | a stored row is as it was or the merge of its old policy with the last seed that changes it; earlier seeds for it are lost |
| `PolicySeed.DistinctSeedsTakeTheirStep` | Authorization/logics/policy.go:1815-1888 | with distinct keys every seed's key has one row and has taken its step |
| `Outbox.InvStep` | Authentication/logics/outbox.go:84-195 | every step of producers, workers, commits, rollbacks, crashes and unsaid errors keeps exclusion, accounting, wakeup and order |
| `Outbox.DeliveryIsAccounted` | Authentication/logics/outbox.go:120-195 | in every reachable state a committed message is in the table or was handled; its successful calls are 1 if removed, plus the uncommitted, plus those that found the row gone, plus those in flight; as long as no lock query failed unsaid there is none of the third kind, one in flight at most, and no two transactions are open |
| `Outbox.NotifiedRowsKeepTheWorkerAwake` | Authentication/logics/outbox.go:84-117 | a notified row still in the table means a token, the retry flag or a table read to come, if and only if the last drain did not end on a read that failed unsaid or someone notified since; a start drains leftovers |
| `Outbox.WakeupLost` | Authentication/dbaccess/outbox.go:75-99 | the run that loses a wakeup: the notified row is there, the worker sleeps and the timer changes nothing |
| `Outbox.HandledTwiceAtOnce` | Authentication/dbaccess/outbox.go:63-73 | two workers that have handled one row, after a lock query that failed unsaid |
| `Outbox.PublicationFollowsCreateTime` | Authentication/dbaccess/outbox.go:59-100 | what was committed and older when a row was read was published before it, over all processes and retries |
| `Outbox.TimesAreGiven` | Authentication/dbaccess/outbox.go:37-56 | the messages of a run and their create times are exactly those its producers committed |
| `Outbox.UncommittedStays` | Authentication/logics/outbox.go:134-153 | a handled row whose transaction rolls back, fails to commit or dies stays in the table, counted as a lost call |
| `Outbox.AwakeWorkerDelivers` | Authentication/logics/outbox.go:92-195 | when no other worker has the lock, an awake worker can empty the table by its own steps, publishing every row |
| `Outbox.Worker.Oldest` | Authentication/dbaccess/outbox.go:59-100 | a row of least create time |
| `Outbox.Worker.Push` | Authentication/logics/outbox.go:120-195 | one transaction while producers and other workers move: exactly its steps in the protocol for all faults; a retry on every failure it hears of; no retry and nothing read means all committed before is published, unless the fetch failed; else the oldest row was published and is gone |
| `Outbox.RefusedByAnother` | Authentication/dbaccess/outbox.go:63-73 | without a fault of its own a push is refused the lock if and only if another worker's transaction has it |
| `Outbox.Worker.Drain` | Authentication/logics/outbox.go:92-117 | the inner loop, while others move: the worker's own steps are those of its pushes, in order, one row each, up to the first that fails or reads none; it asks for a retry if and only if that last one failed audibly or met a held lock; asleep with no unsaid failure means all committed before is published; with no fault, nobody else and a free lock the table ends up empty |
| `Outbox.Worker.ReadMessage` | Authentication/dbaccess/outbox.go:75-99 | the message query on the table as it then is: an oldest row, or none because it is empty or the fetch failed unsaid |
| `UnorderedOutbox.ClaimsAreAccounted` | Authentication/dbaccess/unordered_outbox.go:36-113 | in every run, claims of a row are the restarts that hit it plus 1 if it is in progress or deleted; only claimed rows are deleted |
| `UnorderedOutbox.KeptAliveIsClaimedOnce` | Authentication/dbaccess/unordered_outbox.go:82-113 | a row whose heartbeats stay at or above every cutoff is claimed at most once |
| `UnorderedOutbox.QuietClaimIsTakenBack` | Authentication/dbaccess/unordered_outbox.go:82-114 | in every run a restart takes a claim back if and only if the last step that added, claimed or renewed the row has a time before the cutoff |
| `UnorderedOutbox.DeletedIsGone` | Authentication/dbaccess/unordered_outbox.go:70-79 | deleting takes away exactly a row in progress, for the rest of the run |
| `UnorderedOutbox.RetriesAreOthersClaims` | Authentication/dbaccess/unordered_outbox.go:41-66 | in every reachable state the failed updates of a call under way map one to one to claims of others made since it began, so they are no more than these |
| `UnorderedOutbox.Claimer.GetUnorderedOutboxInfo` | Authentication/dbaccess/unordered_outbox.go:36-67 | while other sessions move, the call is a run of the protocol in which this worker claims once at most, last; it returns that row unless it fails, fails only on a fault of its last turn, and with a claim only when the answer was lost; it finds none only if none is free; its failed updates are no more than the others' claims meanwhile; it ends once they stop |
| `UnorderedOutbox.Claimer.TryClaim` | Authentication/dbaccess/unordered_outbox.go:50-65 | the conditional update and what its answer, a failure or a lost answer leads to |
| `UnorderedOutbox.Claimer.UpdateTime` | Authentication/dbaccess/unordered_outbox.go:82-95 | renews exactly a row in progress; reports it if it matched or, where only changed rows count, if the time is another |
| `Archive.DumpLog` | Auditlog/logics/dump_log.go:346-484 | for all faults, exactly which of its ends it comes to: it panics if and only if the first record that does not get in is one that meets a buffer over a part, and archives if and only if all get in and all calls succeed; the numbered parts concatenate to the header, every fetched record with its line feed in order, and the trailer if the last batch has records, and add up to the size |
| `Archive.WriteText` | Auditlog/logics/dump_log.go:379-407 | one record gets in, fails or panics exactly as stated, and keeps parts plus buffer equal to what was written, every part full |
| `Archive.WriteAll` | Auditlog/logics/dump_log.go:356-435 | the nested loops over the batches, up to the first that is not full: exactly when they go through and when they panic |
| `Archive.SizesDecide` | Auditlog/logics/dump_log.go:356-435 | when no call fails, the sizes alone decide: it panics if and only if some text meets a buffer over a part |
| `Archive.ArchiveShape` | Auditlog/logics/dump_log.go:379-450 | if header and records fit in a part, the last part has 1 to PartSize bytes and there are just as many parts as needed |
| `Archive.LongTextPanics` | Auditlog/logics/dump_log.go:380-382 | a text longer than two parts, followed by another, panics |
| `Archive.TrailerComesLast` | Auditlog/logics/dump_log.go:374-377 | what is written is the records with their line feeds, in order, and the XML trailer once, last, exactly when the final batch has records |
| `Archive.TrailerMissing` | Auditlog/logics/dump_log.go:374-377 | with batches within the limit, the last one has records, hence the trailer is written, if and only if the record count is no multiple of the batch size |
| `Archive.GenDownloadFile` | Auditlog/logics/history_log.go:479-540 | byte order mark, for CSV the titles and a line feed, then the blocks in order, accepted if and only if the byte count is the recorded size; any failed block fails the call |
| `Archive.BlocksTile` | Auditlog/logics/history_log.go:507-509 | the ranges tile [0, size) without gap or overlap |
| `Archive.ShortObjectRefused` | Auditlog/logics/history_log.go:534-538 | an object shorter than recorded is refused if and only if the answers to ranges past its end do not make up the missing bytes in number |
| `Archive.ArchiveRoundTrip` | Auditlog/logics/history_log.go:479-540 | the download of an archive is accepted and is the preamble, the header, every record with its line feed, and the trailer if the last batch has records |
| `QuoteTo.QuoteToWriter` | Auditlog/proton_dm_dialect_go/dm.go:104-150 | the byte loop, with its 8-bit counters, computes the quoting machine's output |
| `QuoteTo.WriteByte` | Auditlog/proton_dm_dialect_go/dm.go:111-143 | one turn of the loop is one step of the machine |
| `QuoteTo.QuotesExactlyFineNames` | Auditlog/proton_dm_dialect_go/dm.go:104-150 | for every dotted name of non-empty quote-free segments, the output is the fully quoted form if and only if leading dots meet a stated condition |
| `QuoteTo.QuotePreservesNames` | Auditlog/proton_dm_dialect_go/dm.go:104-150 | without leading dots it is so at any length, and quoting again changes nothing |
| `QuoteTo.BareNamesAreEscaped` | Auditlog/proton_dm_dialect_go/dm.go:111-150 | for every name without dots that does not start with a quote: enclosed, pairs of quotes kept, lone quotes doubled |
| `QuoteTo.EscapedIsPaired` | Auditlog/proton_dm_dialect_go/dm.go:111-143 | what stands between the enclosing quotes then has its quotes in pairs, and is the name itself if and only if they were |
| `QuoteTo.CanonicalDetermines` | Auditlog/proton_dm_dialect_go/dm.go:104-150 | the fully quoted form determines the segment list |
| `QuoteTo.LeadingDotBreaks` | Auditlog/proton_dm_dialect_go/dm.go:119-126 | a quoted segment with a leading dot that comes out wrong |
| `QuoteTo.LeadingPairBreaks` | Auditlog/proton_dm_dialect_go/dm.go:111-118 | a name that starts with a pair of quotes comes out without its opening quote |
| `ObligationQuery.GetOperationSet` | Authorization/logics/obligation_type.go:379-428 | a bucket for every queried operation, with every type in order and exactly as often as the loops append it |
| `ObligationQuery.BucketMembers` | Authorization/logics/obligation_type.go:379-428 | a bucket holds exactly the types that are unlimited or whose first entry for the resource type is unlimited or lists the operation |
| `ObligationQuery.BucketCounts` | Authorization/logics/obligation_type.go:379-429 | how often a bucket lists a type, whatever is repeated: once for every time the operation is asked, times how often the entry lists it |
| `ObligationQuery.BucketIsFilter` | Authorization/logics/obligation_type.go:379-428 | with distinct ids the bucket is an order-keeping filter |
| `ObligationQuery.Query` | Authorization/logics/obligation_type.go:331-377 | the two loops answer as the query function, about which QuerySucceedsExactly speaks |
| `ObligationQuery.QuerySucceedsExactly` | Authorization/logics/obligation_type.go:331-376 | it succeeds if and only if the type is known and every named operation is one of its; it then answers for exactly these, or for all when none is named, with exactly the types in scope by the first matching entry |
| `ObligationQuery.QueryV2` | Authorization/logics/obligation_type.go:434-470 | the loop over a map of types answers as the query function, about which QueryV2SucceedsExactly speaks |
| `ObligationQuery.QueryV2SucceedsExactly` | Authorization/logics/obligation_type.go:434-470 | it succeeds if and only if there are ids, all different and all known; it then answers for each with all its operations and exactly the types in scope |
| `ObligationQuery.V2OnOneType` | Authorization/logics/obligation_type.go:331-470 | on one type it equals the query with no operations given |
| `ObligationQuery.QueryObligations` | Authorization/logics/obligation.go:233-301 | the filter, collect and merge loops yield, per operation, the obligations of the types left |
| `ObligationQuery.GetByObligationTypeIDs` | Authorization/dbaccess/obligation.go:202-249 | the rows of each asked type, in table order |
| `ObligationQuery.QueryIsJoin` | Authorization/logics/obligation.go:233-301 | the query succeeds if and only if the type is known and every named operation is one of its; an obligation is then listed for an operation exactly when some type of it is in scope there and passes the filter |
| `ObligationQuery.JoinedInOrder` | Authorization/logics/obligation.go:293-299 | the listed obligations come type by type in order, and within a type in table order |
| `ObligationQuery.ListedOnce` | Authorization/logics/obligation.go:233-301 | with distinct ids nothing is listed twice |
| `PhoneColumn.UnpadPad` | Authentication/dbaccess/anonymous_sms.go:216-247 | removing the padding of section 6.3 of RFC 5652 gives the data back |
| `PhoneColumn.PadBytes` | Authentication/dbaccess/anonymous_sms.go:216-221 | the data comes first, and every padding byte is the number of padding bytes |
| `PhoneColumn.DecryptEncryptBlocks` | Authentication/dbaccess/anonymous_sms.go:195-241 | chained decryption undoes chained encryption, for any invertible block function |
| `PhoneColumn.CipherChain` | Authentication/dbaccess/anonymous_sms.go:195-213 | every stored block is the encryption of its data block combined with the stored block before it, the first with the vector |
| `PhoneColumn.HexDigits` | Authentication/dbaccess/anonymous_sms.go:195-213 | the text has two lower case digits a byte, the high half first |
| `PhoneColumn.OpenedSealed` | Authentication/dbaccess/anonymous_sms.go:49-109 | a stored number reads back as it was, through padding, chaining and hexadecimal text |
| `PhoneColumn.SealedIsExact` | Authentication/dbaccess/anonymous_sms.go:174-213 | stored texts are equal if and only if the numbers are |
| `PhoneColumn.Vcodes.Create` | Authentication/dbaccess/anonymous_sms.go:49-65 | adds the record, or fails on a used id |
| `PhoneColumn.Vcodes.GetInfoByID` | Authentication/dbaccess/anonymous_sms.go:83-109 | returns the stored record, or fails on a missing id |
| `PhoneColumn.Vcodes.DeleteRecordWithinValidityPeriod` | Authentication/dbaccess/anonymous_sms.go:174-192 | removes exactly the records of that number and account since the cutoff |
| `Hierarchy.DecodeEncodeAll` | Authorization/dbaccess/resource_type_hierarchy.go:130-187 | lenient and strict reader both give a stored forest back, nil children as empty |
| `Hierarchy.ParseAllAgrees` | Authorization/driveradapters/resource_type_hierarchy_rest_handler.go:87-116 | what the strict parser accepts, the lenient reader reads alike |
| `Hierarchy.AcceptedRoundTrip` | Authorization/dbaccess/resource_type_hierarchy.go:130-187 | an accepted request is stored and read back unchanged |
| `Hierarchy.NormIsSame` | Authorization/dbaccess/resource_type_hierarchy.go:130-187 | what is read back differs from the tree in nil against empty children only, and is read back as it is |
| `Hierarchy.SameNorm` | Authorization/dbaccess/resource_type_hierarchy.go:130-187 | two trees read back alike if and only if they differ in nil against empty only |

## Left out

- REST routing, schema checks, token introspection, message queues, caches, HTTP clients, logging, tracing, translations and the web interfaces: plumbing around libraries.
- The policy evaluator, roles, and the resource type and hierarchy logic above their tables: not part of this model.
- Overlapping create calls on one key: lookup and insert are not locked in the source; each call is one step here.
- The ancestors column, create and modify times, and the presentation queries of policies: they add easy members only.
- Archive paging against the clearing of outdated rows, zip files, `SplitFile`, and the transport of the object store: batches are given, the store concatenates parts and serves byte ranges.
- Calendar and time zone arithmetic, and the conversion of stored times: times are integers.
- The block cipher itself: any invertible function on 8-byte blocks.
- Auditlog/logics/outbox.go: the same machine as the Authentication outbox with string types, not stated twice.
- Fairness: an awake worker is proved able to deliver; that a scheduler lets it run is not modelled.
