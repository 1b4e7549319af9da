# CivicLoop: a verified model of its stateful cores

This project models the parts of CivicLoop in which a mistake would spend money twice, send a draft
twice, revive authority that was taken away, or silently change a database definition, and proves
what each of them promises, over every input, every interleaving and every run. `dafny verify
dfyconfig.toml` checks all of it.

## What is modelled

**The run lane and the money ledger.** `Pricing` is the cost of tokens in whole microdollars, rounded
up. `Budgets` is the monthly budget: reserve, settle, release, charge and expire as functions on the
books (periods, reservations, ledger), the invariant that the books balance (each period's totals are
the sums over its reservations and stay within the limit, and replaying the append-only ledger gives
back the reservation table), and the tables as a class whose methods are proved against those
functions, with rollback written out. `HermesLane` has one function per database transaction of the
lane (start, queue, claim, complete, finish, cancel) and its invariant; `HermesWorkers` puts workers,
redelivered messages, crashes, dispatch failures, expiry and other users of the budget between the
transactions, in any order; `HermesOutcomes` is what becomes of a run that nobody disturbs;
`HermesTables` is the lane in place.

**The chain of inference authority.** `ScopeRegistry` issues bounded, revocable leases and leaves
tombstones. `GatewayLedger` accounts for signed assertions, with nonces that are purged and run rows
that are retained. `Authority` joins the two with any number of requests in flight, lost or delayed,
and proves that the gateway never finds less than the transport counted. `ScopeIo` is the race between
revoking a scope and a request that is being set up or sent. `ProcessController` owns at most one
child process run and conserves it.

**External writes, at most once.** `Drafts` is the claim protocol of draft and template executions,
with workers that keep the row they loaded while others write it, and that compare in one step and write
in another; `DraftExecution` is the same in place. `Adapters` has the calls each provider adapter makes
for one operation, against a provider that may answer anything; the posts that `Drafts` counts are those
among such calls. `Broker` is the tool broker's replay table and its creation of draft operations.

**Sequential algorithms.** `SqlLexer`, `SqlArrays`, `SqlRewrite` and `SqlNormalizer` specify the
normalisation of catalog definitions: tokens by what they look like and what may follow them, and a
tokenizer that finds exactly these and loses no text, a grammar of the spellings of a
literal text array, the rewriting of tokens, and what the normal form keeps and identifies.
`SqlDefinitions` is the program itself, loop by loop. `Transcript` is the one-pass checker of tool-call
transcripts against a grammar. `Eventbrite` is the resumable traversal of organizations and event
pages, against a flat enumeration, and of browsing page after page to the end; `EventOrder` sorts a page.

## Conventions

Identifiers, actors and digests are numbers; SHA-256 and HMAC are injective (in `Broker` they are free
constructors, and a client may present any digest it has seen). The clock is an input that does not
run backwards. Providers, cleanup, revocation and accounting outcomes are inputs that may be anything.
One `transaction.atomic` block, one section under a lock, or one statement outside of both is one step;
everything else can happen between two steps. The classes (`BudgetTables`, `LaneTables`, `Scopes`,
`DurableBudgetLedger`, `TransportIo`, `Controller`, `Execution`, `BrokerTables`) hold the source's fields;
each of their methods is proved equal to the function that the theorems are about, and the table below
names only those with a loop or a rollback. Model profiles and routing policies are immutable. A new run
id and a new nonce are drawn fresh. Rows that PostgreSQL protects from deletion are not deleted.

Some things the proofs brought out differ from what the code around them suggests:

- A scope may live for ten minutes but each assertion for five, and the gateway retires a run once all
  its assertions have expired. A live scope with budget left is refused after a silence of more than
  five minutes (`Authority.LiveScopeRetired`); `Authority.DeliveredExactly` gives the exact condition.
- `succeeded` is not a final status of a draft execution. The exception paths write `unknown` or
  `failed` without looking (backend/integrations/draft_operations.py:400-411 and 714-716), and a save
  compares in one statement and writes in another (backend/integrations/models.py:401-442), so that a
  late write can undo success even where nothing failed; and a write may take effect although the worker
  sees it fail. `Drafts.SuccessUndone`, `Drafts.CreationUndone` and `Drafts.DispatchUndone` are such runs;
  `Drafts.SuccessFinalExactly` and `Drafts.CreateFinalExactly` are the exact conditions.
- A cursor may not say a position above a million, yet a call can return one that does
  (backend/launchloop/eventbrite.py:303-306). Against a served catalog a call succeeds exactly if its
  own cursor is within the limits (`Eventbrite.ListPage`), and browsing reaches the end exactly if every
  cursor on the way is (`Eventbrite.BrowseAll`). `Eventbrite.CompletesWithin` gives the bounds: with all
  positions within the limits it always does; with three event pages more than that in one organization,
  or two pages of organizations more, never. In between it depends on which pages have events that pass:
  one page too many can be enough to fail (`Eventbrite.RefusedInput`), two need not be
  (`Eventbrite.QuietInput`).

## Model

| member | source | states |
|---|---|---|
| SqlLexer.OneExactly | scripts/validate_postgres_restore.py:256-283 | the tokenizer takes a token as tokens look by themselves, whole and not running on into what follows, and refuses a text exactly if it starts with a dollar, a backslash, a comment, an escape string, or quoted text that is unclosed or holds a backslash |
| SqlLexer.LexScans | scripts/validate_postgres_restore.py:242-284 | tokenizing loses no text: the tokens with the space before them spell the definition, and each looks like one and ends where it does |
| SqlLexer.ScansLex | scripts/validate_postgres_restore.py:242-284 | the tokenizing is the only one: any such reading of the text is what the tokenizer finds |
| SqlLexer.LexRefused | scripts/validate_postgres_restore.py:242-284 | a definition is refused exactly if, behind tokens and space, something is left that may not start a token |
| SqlArrays.MatchIffSpelled | scripts/validate_postgres_restore.py:287-334 | the recogniser accepts exactly the spellings of a nonempty literal text array, and ends where the spelling ends |
| SqlRewrite.RewriteIdempotent | scripts/validate_postgres_restore.py:342-394 | rewriting tokens twice is rewriting them once, at any place where a parenthesis may or may not belong to an array |
| SqlNormalizer.NormalizedTokens | scripts/validate_postgres_restore.py:342-394 | the normal form tokenizes again, to the tokens with each recognised array replaced by its canonical spelling |
| SqlNormalizer.NormalizeIdempotent | scripts/validate_postgres_restore.py:342-394 | normalizing twice equals normalizing once, for every string |
| SqlNormalizer.ContentPreserved | scripts/validate_postgres_restore.py:342-394 | all literals, and all tokens other than brackets, parentheses, commas, casts and the words array, character, varying and text, are kept in order |
| SqlNormalizer.NormalizeSeparates | scripts/validate_postgres_restore.py:342-394 | definitions with the same normal form have the same literals and other tokens of that kind, in order |
| SqlNormalizer.SpellingRewritten | scripts/validate_postgres_restore.py:287-339 | every spelling of an array becomes the canonical one of its literals |
| SqlNormalizer.SpellingsAgree | scripts/validate_postgres_restore.py:342-394 | two definitions that differ in how their first array is spelled (cast on the whole, parenthesised, or on each element) have the same normal form |
| SqlNormalizer.ReadsSome | scripts/validate_postgres_restore.py:342-394 | every token sequence reads as parts: tokens kept, unsupported arrays, and arrays given by their literals |
| SqlNormalizer.PartsDecide | scripts/validate_postgres_restore.py:342-394 | definitions that read as the same parts have the same normal form, with any number of arrays, each in any spelling |
| SqlNormalizer.OutsideCopied | scripts/validate_postgres_restore.py:342-394 | every definition is kept text with spelled arrays between, and its normal form is the same kept text, character by character, with each array's canonical spelling in its place |
| SqlDefinitions.SqlTokens | scripts/validate_postgres_restore.py:242-284 | the tokenizer's loop computes the specified tokens with their places, or refuses exactly when there are none |
| SqlDefinitions.ParseElements | scripts/validate_postgres_restore.py:287-334 | the element loop of the recogniser |
| SqlDefinitions.LiteralTextArray | scripts/validate_postgres_restore.py:287-339 | the recogniser at a token: where the match ends, and its canonical text |
| SqlDefinitions.BracketEnd | scripts/validate_postgres_restore.py:381-391 | where an array that is not supported ends |
| SqlDefinitions.NormalizeCatalogDefinition | scripts/validate_postgres_restore.py:342-394 | the rewriting loop over text positions computes the specified normal form |
| Transcript.GrammarAccepted | deploy/litellm/gateway.py:585-670 | every transcript of plain messages and exchanges, with new call ids, is accepted in one pass |
| Transcript.AcceptedGrammar | deploy/litellm/gateway.py:585-670 | every list accepted in one pass splits into plain messages and complete exchanges |
| Transcript.AcceptsIffTranscript | deploy/litellm/gateway.py:585-670 | the pass accepts exactly the grammar, all call ids distinct |
| Transcript.EncodedExactly | deploy/litellm/gateway.py:380-390 | the length of content is that of its UTF-8 bytes: those, and no others, that section 4 of RFC 3629 decodes as its characters |
| Transcript.CheckCalls | deploy/litellm/gateway.py:534-583 | the calls of one message are accepted exactly if each is well formed, declared and new |
| Transcript.CheckMessages | deploy/litellm/gateway.py:585-670 | the loop with its seen, resolved and pending calls succeeds exactly on transcripts of the grammar, and returns the messages unchanged |
| Eventbrite.CollectServed | backend/launchloop/eventbrite.py:355-378 | a page of well-formed events yields exactly those that pass the filters, by id |
| Eventbrite.ReadEvents | backend/launchloop/eventbrite.py:355-378 | the loop over one event page |
| Eventbrite.ReadPage | backend/launchloop/eventbrite.py:338-382 | reading one event page of one organization |
| Eventbrite.Browse | backend/launchloop/eventbrite.py:333-384 | the loop over organizations and event pages stays within four requests, moves forward, and skips nothing |
| Eventbrite.Traverse | backend/launchloop/eventbrite.py:312-393 | the loop over pages of organizations: against any provider it ends or moves forward, against one that serves a catalog it finds exactly what lies between |
| Eventbrite.ListPage | backend/launchloop/eventbrite.py:250-414 | a page is sorted; against any provider a page that is not the last moves the cursor forward in lexicographic order; against one that serves a catalog the call succeeds if and only if its cursor is within the limits, with exactly the events between the two cursors |
| Eventbrite.ChainComplete | backend/launchloop/eventbrite.py:308-414 | following the cursors to the end yields the flat enumeration, in a bounded number of calls |
| Eventbrite.FromExact | backend/launchloop/eventbrite.py:308-414 | the enumeration from a position has exactly the passing events at or after it |
| Eventbrite.ChainExact | backend/launchloop/eventbrite.py:308-414 | browsing from the start to the end finds exactly the events of the catalog that pass the filters |
| Eventbrite.BrowseFrom | backend/launchloop/eventbrite.py:294-414 | feeding each cursor into the next call ends, and is such a chain of calls to the end of a served catalog if and only if every cursor on the way is within the limits |
| Eventbrite.BrowseAll | backend/launchloop/eventbrite.py:250-414 | browsing from the start succeeds under exactly that condition, and then lists exactly the events of the catalog that pass the filters, on sorted pages |
| Eventbrite.RefusedCursor | backend/launchloop/eventbrite.py:303-306 | at the last allowed event page a call succeeds with a cursor that the next call refuses |
| Eventbrite.RefusedInput | backend/launchloop/eventbrite.py:303-306 | a provider and a catalog for which that happens, so that browsing never reaches the end |
| Eventbrite.CompletesWithin | backend/launchloop/eventbrite.py:303-384 | a catalog within the limits is browsed to its end; one with an organization of a million and three event pages, or a million and two pages of organizations, never is |
| Eventbrite.LandsAhead | backend/launchloop/eventbrite.py:312-384 | no call gets past an organization that has more event pages left than the call has requests |
| Eventbrite.QuietInput | backend/launchloop/eventbrite.py:303-384 | a catalog beyond the limits that is browsed to its end, as none of its events pass |
| EventOrder.SortRows | backend/launchloop/eventbrite.py:407-412 | the rows are listed each once, the latest change first and then by id |
| Pricing.CostMonotone | backend/agents/budgets.py:38-50 | usage within a ceiling costs no more than the ceiling |
| Pricing.CostLeast | backend/agents/budgets.py:38-50 | the cost is the least number of whole microdollars that covers the exact price of both counts |
| Pricing.CostTogether | backend/agents/budgets.py:38-50 | pricing a total costs no more than pricing its parts, for all rates |
| Pricing.AggregateCost | deploy/hermes/transport.py:209-216 | any usage within ceilings, priced in one total, costs no more than the worst cases priced one by one |
| Budgets.CloseBalanced | backend/agents/budgets.py:183-208 | settling or releasing an open reservation keeps the books balanced if the limit holds |
| Budgets.AddBalanced | backend/agents/budgets.py:124-146 | a new reservation within the limit keeps the books balanced |
| Budgets.AlwaysBalanced | backend/agents/budgets.py:79-320 | in every reachable state each period's totals are the sums over its reservations, within the limit, and the ledger replays to the reservation table |
| Budgets.HistoryKept | backend/agents/budgets.py:79-320 | ledger and reservations only grow, a closed reservation never changes, limits are fixed |
| Budgets.ExpireExact | backend/agents/budgets.py:239-267 | expiring a period releases exactly its due, unprotected reservations |
| Budgets.ExpireMonthsExact | backend/agents/budgets.py:270-279 | expiring the given periods releases exactly their due, unprotected reservations, in whatever order |
| Budgets.LedgerOnce | backend/agents/models.py:198-207 | a run has at most one entry of a kind, its reservation first, and never both a settled and a released one |
| Budgets.ReserveExactly | backend/agents/budgets.py:79-146 | a new run gets a reservation if and only if its model is known and priced, tokens and cost are within the limits, and the month has room beside what is still live and what is spent |
| Budgets.ReserveErrors | backend/agents/budgets.py:79-146 | which error a refused reservation gives |
| Budgets.SettleErrors | backend/agents/budgets.py:149-209 | which error a refused settlement gives |
| Budgets.SettleAtLimits | backend/agents/budgets.py:149-209 | a reservation made at the model's limits settles if and only if the usage is within them |
| Budgets.CloseTotals | backend/agents/budgets.py:212-320 | charging keeps the month's committed total, releasing frees exactly the reserved cost |
| Budgets.SettleOnce | backend/agents/budgets.py:161-167 | settling again succeeds with the same usage, changing nothing, and conflicts with any other |
| Budgets.ReserveOnce | backend/agents/budgets.py:90-106 | reserving again is answered from the first reservation, whatever became of it, or conflicts |
| Budgets.Untouched | backend/agents/budgets.py:239-267 | no operation touches another run's reservation that is closed or protected from expiry |
| Budgets.Touched | backend/agents/budgets.py:149-320 | what settling, releasing and charging make of the run's own reservation |
| Budgets.BudgetTables.ReserveBudget | backend/agents/budgets.py:79-146 | reserve in place, with every failure rolled back, expiry included |
| Budgets.BudgetTables.ExpirePeriodReservations | backend/agents/budgets.py:239-267 | the expiry loop, its period row written once at the end |
| Budgets.BudgetTables.ExpireReservations | backend/agents/budgets.py:270-279 | the loop over periods |
| HermesLane.TerminalSound | backend/agents/tasks.py:410-431 | ending a run keeps the lane's invariant, whether or not the accounting works |
| HermesLane.FinishSound | backend/agents/tasks.py:434-458 | finishing keeps the invariant even when the caller is wrong about who runs the run |
| HermesLane.CancelSound | backend/agents/tasks.py:368-407 | cancelling keeps the invariant even when revoking or accounting fails |
| HermesLane.ClaimSound | backend/agents/tasks.py:566-625 | claiming keeps the invariant |
| HermesLane.CompleteSound | backend/agents/tasks.py:630-678 | completing keeps the invariant |
| HermesLane.StartSound | backend/agents/tasks.py:68-119 | starting keeps the invariant: one receipt, one run |
| HermesLane.BooksSound | backend/agents/budgets.py:239-279 | expiry and other users of the budget leave the reservations of the lane's runs alone |
| HermesLane.AdmitsExactly | backend/agents/tasks.py:241-322 | in a sound lane a run is admitted if and only if the lane is open and free, the request is ready and the reservation succeeds |
| HermesLane.StartsExactly | backend/agents/tasks.py:68-119 | only operators start; a repeated start gets its own run, and a new one exactly the lane, queued, with a receipt and a reservation at the limits of its model |
| HermesLane.ClaimsExactly | backend/agents/tasks.py:566-625 | a claim is granted exactly to a queued run of an open lane; otherwise nothing changes |
| HermesLane.CompletesExactly | backend/agents/tasks.py:630-678 | completion with usage within the ceilings succeeds if and only if nothing but the budget would forbid it: settling never fails |
| HermesLane.FinishFrees | backend/agents/tasks.py:434-458 | finishing frees the lane, and leaves it open exactly if everything was clean; status, category, capability and the charge or release of the run follow |
| HermesLane.CancelEffects | backend/agents/tasks.py:368-407 | cancelling ends a queued run at once and free of charge, only marks a running one, and counts once |
| HermesLane.StartReplays | backend/agents/tasks.py:91-102 | a start key gives the same run to the same owner for ever, and a conflict to any other |
| HermesWorkers.NextSafe | backend/agents/tasks.py:558-700 | every transaction and every event between keeps the invariant and undoes nothing |
| HermesWorkers.AlwaysSafe | backend/agents/tasks.py:558-700 | the same over every run of the system |
| HermesWorkers.OneActiveRun | backend/agents/tasks.py:241-335 | in every reachable state the lane names exactly the one queued or running run, and its reservation is still reserved at the model's limits |
| HermesWorkers.ExecutedOnce | backend/agents/tasks.py:558-700 | over redelivery, dispatch failure, cancellation and crashes the adapter is asked to execute a run at most once, and such a run is never released free of charge |
| HermesWorkers.OneExecution | backend/agents/tasks.py:558-700 | in every reachable state with an open lane one worker at most has a run in hand, and it is the lane's: no two executions overlap |
| HermesWorkers.UnprovedCloses | backend/agents/tasks.py:581-700 | once it cannot be shown that a run's child is gone (redelivery, a lost commit, a failed cleanup or revocation) the lane is closed, and the run failed with what is known of it, when the failed worker concludes, whatever happens in between, unless the run has ended before |
| HermesWorkers.SucceededExecuted | backend/agents/tasks.py:614-678 | a run succeeds only after its adapter was asked to execute it, and never once it has been cancelled |
| HermesWorkers.NextExclusive | backend/agents/tasks.py:558-700 | every step keeps one worker to a run, none beside one that has cleaned up, and an open lane to the worker at work |
| HermesWorkers.EndedAccounted | backend/agents/tasks.py:410-458 | every ended run shows a correct lifecycle and exactly the usage charged, and is settled or released with its capability revoked unless the lane is disabled |
| HermesWorkers.NeverUndone | backend/agents/tasks.py:245-254 | disabling the lane is never undone and admits no run; an ended run and its reservation never change, an unaccounted one included |
| HermesOutcomes.TakesExactly | backend/agents/hermes.py:451-464 | the result of an execution is taken exactly if its usage is within the ceilings and the cost of the whole reservation |
| HermesOutcomes.Succeeds | backend/agents/tasks.py:558-678 | from every open and idle lane, a run that is executed with acceptable usage succeeds, is charged exactly that, and leaves the lane open and idle |
| HermesOutcomes.Fails | backend/agents/tasks.py:679-700 | one that is executed without an acceptable result and cleaned up after fails with the reported category, charged in whole, and leaves the lane open and idle |
| HermesOutcomes.FailsLate | backend/agents/tasks.py:630-700 | so does one whose completion is refused, with the category of the refusal |
| HermesOutcomes.Refuses | backend/agents/tasks.py:325-330 | one refused before it is claimed, or not dispatched, fails free of charge and leaves the lane open and idle |
| HermesOutcomes.CancelsQueued | backend/agents/tasks.py:368-407 | one cancelled before it is claimed ends at once as cancelled, free of charge |
| HermesOutcomes.CancelsExecuted | backend/agents/tasks.py:368-458 | one cancelled while it is executed ends as cancelled, charged in whole, and leaves the lane open and idle |
| ScopeRegistry.AuthorityBounded | deploy/hermes/transport.py:78-196 | over any order of operations records and active scopes stay within capacity, a run is bound to at most one token ever, and counters are the sums of the grants, within the binding |
| ScopeRegistry.NeverResurrected | deploy/hermes/transport.py:107-184 | a cleared token is never authorized, registered or granted anything again |
| ScopeRegistry.RevokedForGood | deploy/hermes/transport.py:186-196 | after an accepted revoke the token has no authority in any later state, even if it was revoked before it was registered |
| ScopeRegistry.LeaseEnds | deploy/hermes/transport.py:113-132 | a lease ends within ten minutes of its registration, in every run |
| ScopeRegistry.AuthorizedAsIssued | deploy/hermes/transport.py:134-149 | authorization succeeds exactly for a live scope and gives the binding it was first registered with |
| ScopeRegistry.RegistersExactly | deploy/hermes/transport.py:78-132 | a registration is accepted exactly if it repeats a live one or is the first of its token and run, within all limits; then exactly this binding is authorized until it expires, and the other scopes keep theirs |
| ScopeRegistry.ReservesExactly | deploy/hermes/transport.py:151-184 | an inference of a live scope is granted exactly if it asks for something, its lease holds and every counter stays within the binding; then exactly these counters grow |
| ScopeRegistry.DeniesExactly | deploy/hermes/transport.py:134-184 | a scope that is not live is granted nothing and loses its binding |
| ScopeRegistry.ClearsExactly | deploy/hermes/transport.py:186-196 | a revoke is accepted exactly if the token is known or there is room to remember it; then it has no binding and every other scope is as it was |
| ScopeRegistry.Scopes.ExpireScopes | deploy/hermes/transport.py:107-111 | the expiry loop |
| GatewayLedger.AlwaysSound | deploy/litellm/gateway.py:299-363 | every request, accepted or not, keeps the ledger's invariant |
| GatewayLedger.PreparesExactly | deploy/litellm/gateway.py:198-363 | an assertion is accepted exactly if its model, ceiling and lifetime are possible, it is not remembered, its run is new or bound the same, not retired and with tokens left, and there is room beside what is still remembered |
| GatewayLedger.PreparedLedger | deploy/litellm/gateway.py:299-363 | then exactly its nonce and its tokens are added, and what has passed is purged |
| GatewayLedger.AcceptedOnce | deploy/litellm/gateway.py:299-363 | only valid assertions are accepted, the same one at most once although expired nonces are purged; the ledger stays within capacity, and each row shows exactly the tokens accepted since its creation, within its ceiling |
| GatewayLedger.RetiredExactly | deploy/litellm/gateway.py:342-357 | the test of the row's expiry holds exactly when every assertion accepted for the run since the row was created has expired |
| GatewayLedger.StaysRetired | deploy/litellm/gateway.py:342-345 | a run whose accepted assertions have all expired is refused, whatever is presented, until its retention ends |
| GatewayLedger.DurableBudgetLedger.ReserveTokens | deploy/litellm/gateway.py:299-363 | the transaction in place, rolled back on any refusal |
| Authority.AlwaysLinked | deploy/hermes/transport.py:643-705 | registering, forwarding, delivering, losing and revoking keep transport and gateway linked |
| Authority.InitLinked | deploy/litellm/gateway.py:262-288 | a fresh transport before an empty gateway is linked |
| Authority.NeverOverspent | deploy/hermes/transport.py:158-184 | tokens reserved at the gateway plus tokens in flight are within the scope's output counter, and that within its limit |
| Authority.ForwardsExactly | deploy/hermes/transport.py:643-705 | a request is forwarded exactly for the model of a live scope with a lease, within the limit of one request and what is left of the scope, and carries the scope's binding, a lifetime of at most five minutes and of the scope, and a nonce of its own |
| Authority.DeliveredExactly | deploy/litellm/gateway.py:198-363 | no delivered request is refused for a changed binding, an exhausted budget, a replay or its lifetime; it is accepted if and only if alias, expiry, room and retirement allow it |
| Authority.CostBound | deploy/hermes/transport.py:209-216 | whatever the granted inferences of a scope use within their ceilings, the total cost is within the binding's cost limit |
| Authority.LiveScopeRetired | deploy/litellm/gateway.py:342-345 | a reachable state in which a live scope with budget left is refused as retired |
| ScopeIo.NextSound | deploy/hermes/transport.py:433-520 | every event keeps the slot, the table of requests and the promises of revokes in order |
| ScopeIo.SlotExact | deploy/hermes/transport.py:464-513 | the slot is held exactly while one request is being set up or its worker is unfinished |
| ScopeIo.AcknowledgedForGood | deploy/hermes/transport.py:433-449 | once a revoke has returned normally no request of the scope is registered or at work, none ever will be, and its authority is gone for good |
| ScopeIo.MarkedSilent | deploy/hermes/transport.py:437-444 | from the moment a scope is marked nothing more is sent for it |
| ScopeIo.Served | deploy/hermes/transport.py:451-520 | from any free slot, an undisturbed request of no scope, or of one not revoked, is sent once, and the slot is free again |
| ScopeIo.RefusedSetup | deploy/hermes/transport.py:467-473 | a request of a revoked scope is refused with nothing sent and the slot free again |
| ScopeIo.Unconnected | deploy/hermes/transport.py:475-513 | a request whose worker does not start or connect ends with nothing sent and the slot free again |
| ScopeIo.Dropped | deploy/hermes/transport.py:475-513 | so does one that is too late, or cancelled, when it would attach its socket |
| ScopeIo.GivenUp | deploy/hermes/transport.py:514-520 | nothing is ever sent for a request once it has been given up |
| ScopeIo.RevokesExactly | deploy/hermes/transport.py:433-449 | an undisturbed revoke returns normally exactly if there was room to remember it and no request of the scope is registered; a registered one is cancelled |
| ScopeIo.ConcludesExactly | deploy/hermes/transport.py:446-449 | it returns normally exactly if by then every request of the scope has ended |
| ProcessController.ChildrenConserved | deploy/hermes/process_controller.py:183-335 | every child ever started is exactly one of active, safely retired or held, and the controller is quarantined exactly while it holds one |
| ProcessController.ReturnsRetired | deploy/hermes/process_controller.py:431-488 | a result is returned only after the run's child has been safely retired, with any other calls in between |
| ProcessController.HeldFailed | deploy/hermes/process_controller.py:387-394 | at most one child is ever held, and its run is reported as failed |
| ProcessController.ResultExactly | deploy/hermes/process_controller.py:370-429 | in every run an admitted run reads a result exactly if a step ended it so: succeeded only by the thread that polled its child and with safe retirement, failed after an exit or an unsafe retirement, cancelled after a stop or a timeout |
| ProcessController.ResultFinal | deploy/hermes/process_controller.py:370-429 | a result, and what a run was admitted with, never change |
| ProcessController.AnswersRead | deploy/hermes/process_controller.py:370-410 | a status or a stop answers what the run reads from then on |
| ProcessController.StartsExactly | deploy/hermes/process_controller.py:206-221 | a new run starts exactly if the controller is open and idle, has room and the child gets ready; a failed launch quarantines exactly if it was not safely given up |
| ProcessController.ReturnsExactly | deploy/hermes/process_controller.py:485-488 | the last stop of a finished execution changes nothing, and its result is returned unless the run reads failed in quarantine |
| ProcessController.ExecutesThrough | deploy/hermes/process_controller.py:431-488 | an undisturbed execution returns its result, with the child retired and the controller idle again |
| ProcessController.AdmitReplays | deploy/hermes/process_controller.py:200-205 | a run admitted before starts nothing: the same request gets its result or state, any other is refused |
| ProcessController.QuarantinePermanent | deploy/hermes/process_controller.py:206-211 | quarantine is permanent and no child is started in it |
| ProcessController.Retire | deploy/hermes/process_controller.py:299-335 | whatever fails, the other parts are still tried, in order and once; the child is killed only if it would not end; the home is removed only when all else is known to be gone; and only then is it safe |
| ProcessController.EndChild | deploy/hermes/process_controller.py:307-317 | a running child is asked to end, and killed exactly if that failed |
| ProcessController.Drain | deploy/hermes/process_controller.py:318-324 | the bridge is drained, and closed unless draining raised; the child's own connections are drained in any case |
| Drafts.AtMostOnePost | backend/integrations/draft_operations.py:335-412 | over any interleaving at most one post is sent for an operation, and only by the user who approved exactly the review the row has |
| Drafts.RowsKept | backend/integrations/models.py:387-442 | what was reviewed, the approval and the claim never change over any run, and a claimed row is never claimed again |
| Drafts.RowShows | backend/integrations/models.py:312-386 | in every run a row shows an approval, a claim, a completion, a receipt and a provider id exactly as its status requires |
| Drafts.EndsOnlyTold | backend/integrations/draft_operations.py:301-412 | an operation has failed only if its dispatch heard from Eventbrite that it was refused, and succeeded only if a worker heard that very provider id properly confirmed |
| Drafts.UnconfirmedEnds | backend/integrations/draft_operations.py:384-412 | a dispatch, or an Iterable reconciliation, that hears anything else than a valid receipt, or sees its write fail, ends with the row unknown, whatever happens in between; with the row failed exactly if Eventbrite refused the dispatch |
| Drafts.ComparesExactly | backend/integrations/models.py:401-442 | a worker passes the comparison exactly with a valid receipt while the operation has not failed, nor succeeded without this receipt confirming it; and then writes exactly the receipt |
| Drafts.ReconcilesExactly | backend/integrations/draft_operations.py:415-431 | a reconciliation begins exactly for the approving user of a claimed operation of open outcome whose provider id is known, if it is not of a template |
| Drafts.SubmitsOnce | backend/integrations/draft_operations.py:200-246 | a submission is made once; the same one by the same user is answered with the row, any other is refused |
| Drafts.SuccessFinalExactly | backend/integrations/draft_operations.py:301-412 | a succeeded operation stays so in every continuation if and only if no dispatch, no Iterable reconciliation, and no worker that has compared an unconfirmed receipt and not yet written it, is at work on it |
| Drafts.SuccessUndone | backend/integrations/draft_operations.py:406-412 | a run in which a failing dispatch undoes success |
| Drafts.CreationUndone | backend/integrations/models.py:401-442 | a run in which two reconciliations alone undo the success of a creation |
| Drafts.DispatchUndone | backend/integrations/draft_operations.py:378-412 | a run in which a dispatch alone undoes the success it has written, because it saw the write fail |
| Drafts.CreateFinalExactly | backend/integrations/models.py:401-442 | in every run the succeeded creation of an Eventbrite draft stays so if and only if no reconciliation has an unconfirmed receipt still to write, and no dispatch that saw its write fail has still to overwrite it |
| Drafts.NextSound | backend/integrations/draft_operations.py:247-452 | submit, approve, claim, provider calls, comparison, write, overwrite, reconcile and crash keep the protocol's invariant |
| Drafts.WrittenRow | backend/integrations/models.py:387-442 | whatever a late worker writes over a row it has not looked at again, the row keeps its constraints and what cannot be undone |
| Drafts.ApprovesExactly | backend/integrations/draft_operations.py:247-264 | an approval takes effect exactly for the pending review and revision |
| Drafts.ClaimsExactly | backend/integrations/draft_operations.py:349-361 | a claim takes effect exactly for the approving user of an approved operation |
| Adapters.ConfirmEvent | backend/integrations/eventbrite_drafts.py:269-287 | an event is confirmed exactly if it reads back as the reviewed draft |
| Adapters.PermittedPrefix | backend/integrations/eventbrite_drafts.py:289-385 | an operation that breaks off has sent no more than its adapter may send |
| Adapters.CreateEvent | backend/integrations/eventbrite_drafts.py:289-318 | one post; an error is raised exactly for a refusal; the id the provider gives is recorded; the draft is read back, and confirmed exactly if it is as reviewed |
| Adapters.UpdateEvent | backend/integrations/eventbrite_drafts.py:320-359 | one post exactly if the provider's revision is the reviewed one, none and an error otherwise; confirmed exactly if it reads back as reviewed |
| Adapters.ReconcileEvent | backend/integrations/eventbrite_drafts.py:361-385 | reconciling posts nothing, and confirms exactly what reads back as reviewed |
| Adapters.Lookup | backend/integrations/iterable_templates.py:212-226 | a lookup of templates succeeds exactly if it is answered within the limit and every entry has an id |
| Adapters.ConfirmTemplate | backend/integrations/iterable_templates.py:228-268 | a template is read back exactly if it is the only one of its client id, and the known one, and is confirmed exactly if it is as reviewed |
| Adapters.CreateTemplate | backend/integrations/iterable_templates.py:270-290 | one upsert exactly if no template is there already, and no error after it |
| Adapters.ReconcileTemplate | backend/integrations/iterable_templates.py:292-299 | reconciling posts nothing, and confirms exactly the template as reviewed |
| Adapters.ConfirmCampaign | backend/integrations/iterable_drafts.py:266-335 | a campaign is confirmed exactly if it reads back as reviewed, and so does the template it copied |
| Adapters.CreateCampaign | backend/integrations/iterable_drafts.py:337-372 | one post exactly if the template is the reviewed one; an error after it exactly for a refusal; the campaign is read back |
| Adapters.ReconcileCampaign | backend/integrations/iterable_drafts.py:374-405 | reconciling posts nothing, and confirms exactly the campaign as reviewed |
| Broker.SharedIdentityDecides | backend/agents/mcp.py:225-240 | a call that shares a request id or key with an accepted one is that very call or is rejected, and changes nothing |
| Broker.Idempotent | backend/agents/mcp.py:225-253 | an accepted call, repeated after any others, gives the same answer and has no further effect |
| Broker.NewEffectNewInvocation | backend/agents/mcp.py:241-253 | a call that changes anything is recorded as a new invocation |
| Broker.IdentifiersKept | backend/agents/mcp.py:59-69 | a call with one retry identifier and not the other is refused, one with both is recorded under exactly these, and one with neither under identifiers only this very call has |
| Broker.OperationsOwned | backend/agents/mcp.py:256-267 | over any calls every draft operation is of the workflow, revision and actor of the capability its proposal was made under, for exactly that text and the reviewed content |
| Broker.AnswersFit | backend/agents/mcp.py:282-404 | whatever is answered, at once or replayed, fits the tool and the caller: its own facts, submissions and proposals, and operations of its own record and of the kinds the tool asks for |
| Broker.DeniedExactly | backend/agents/mcp.py:256-365 | a new call is denied exactly if it names a proposal or an operation that is not of the caller's record |
| Broker.OneOperation | backend/agents/mcp.py:378-404 | at most one draft operation exists for a workflow, revision, actor, kind and action |

## Left out

- SqlNormalizer.SpellingsAgree: stated for the first array of a definition; SqlNormalizer.PartsDecide is the general statement.
- Transcript.CheckMessages: the re-encoding of call arguments and which of several errors is reported first are not modelled; arguments are parsed values, and the size of the encoded messages is an input.
- Transcript.CheckCalls: the size and nesting limits on a call's arguments appear only as whether they could be read.
- Eventbrite.ListPage: the encryption, lifetime and binding of cursors, and the parsing of titles and dates; the deadline is an input that may expire at any check.
- Budgets: every budget operation is one transaction; the row locks that make it so are not modelled.
- HermesLane: binding and control rows, which are created with their run, are always there; event and audit rows are left out; what makes a workflow ready, a result valid or a check fail is an input.
- HermesWorkers: whether the adapter really ended its process is an input (the cleanup outcome).
- ScopeRegistry: malformed tokens, which are refused before anything else, and the control plane's JSON are left out.
- GatewayLedger: signatures, encoding and field shapes of assertions are left out, only their checked values remain; a row purged at the end of its retention gives the run a new budget, as in the code.
- Authority: transport and gateway read the same clock, the gateway in whole seconds; what the transport refuses before it counts (bodies that carry authority, a wrong model) has no effect.
- ScopeIo: sending is one event; bytes already handed to the operating system when a socket is closed are not modelled.
- ProcessController: the bridge, the child and the home directory appear only as the outcomes of starting and retiring them; the mapping of upstream results is left out.
- Drafts: sessions, second factors and the revalidation of reviewed content are one input; a submission's checks of its payload are left out.
- Adapters: headers, credentials, redirects and JSON shapes; content comparisons are on an abstract content.
- Broker: capabilities are valid when a call reaches the table; audit rows and result sizes are left out.
- deploy/hermes/controller_service.py, deploy/hermes/run_bridge.py and deploy/hermes/adapter.py: their single-flight, drain and revoke protocols are of the kind proved in ScopeIo and ProcessController.
- backend/agents/hermes.py: only its usage ceilings are modelled, in the workers' Return step; its sockets and slots are left out.
- HTTP servers, TLS, subprocess launch, Django, Celery, SQLite and PostgreSQL mechanics, cryptography, identity and session services, views, telemetry, the synthetic evaluator and the frontend.
