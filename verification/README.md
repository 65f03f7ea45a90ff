# Verified model of the invoicing backend

A Dafny model of the parts of a Polish invoicing backend whose state is hardest to keep right, with proofs of what they promise over whole runs. `dafny verify dfyconfig.toml` checks everything.

**Warehouse ledger** (`Layers`, `Stock`, `Numbering`, `Warehouse*`). Documents go from draft to posted or cancelled. Posting a receipt adds a cost layer; posting an issue walks the layers of an item oldest first, splits across them and records movements with price snapshots; a cached balance and a document-number counter change in the same transaction. The specification of an item's stock is a queue of single units, each with its layer and price. The issue query orders by date and transaction time only, so the lines of one PZ tie: what the database answers is any `FifoQuery`, which may list ties differently at every query, and the FIFO theorem holds for all of them. What ties do change, the layers drawn and the cost, is characterised exactly (`WarehouseForced`).

**KSeF transmission** (`Transmission*`). User submit, user retry, the submit job, the poll job, crashing jobs, and the glue that carries a transmission's end to its invoice, as atomic steps over shared rows with a pool of pending jobs. What KSeF, the validators and the content hash answer is input to each step. The invariant gives each transmission at most one job token: those of sales over every run, those of purchases over every gentle run, one in which no accepted manual retry hits a transmission in FAILED_TEMPORARY.

**Payments** (`Matcher`, `Payments`, `Payment*`, `Settlement`). Bank transactions, reversible allocations, and the cached remaining amount, match status and payment status; CSV import, scoring and automatic matching, manual allocation, reversal, the in-place form payment, and the settlement summary.

**Money and FA(3)** (`Rounding`, `Decimals`, `InvoiceTotals`, `Fa3*`, `Nip`). Line and header arithmetic, aggregates per VAT rate, the mapper to the FA(3) logical structure (CRD pattern 13775) and the parser, on trees of tagged elements whose texts are real decimal text. Amounts are whole cents; raw prices and rates are integers over a scale that is a parameter.

Pure code is modelled by datatypes, functions and lemmas. Code that changes rows step by step is also modelled as it runs, by classes and methods (`WarehouseService`, `TransmissionService`, `PaymentService`, `Fa3Codec`, the loops in `Matcher` and `InvoiceTotals`), each proved to reach the state its specification function gives; an error leaves all fields as they were, as the surrounding transaction does (`app/persistence/db.py:27-36`).

What each call and each document says in the end is also stated field by field, without the specification's own helper functions: `WarehouseRequests`, `TransmissionOutcomes` and `PaymentOutcomes` for every outcome of a call, `Fa3Document` and `Fa3Reading` for every element written and read.

What the proofs showed about the code:

- The lines of one PZ are equally old. After a receipt of one item at two prices, what the next WZ costs depends on how the database lists the tie (`WarehouseForced.OnePzLeavesCostOpen`); the cost is forced if and only if equally old layers have equal prices (`CostForcedIff`).
- A draft WZ with a source invoice and no issue reason cannot be edited through the API: the request has no field for the invoice, and the header rule looks at the request alone. In every reachable state an edit through the API is accepted for a WZ only if it gives an issue reason (`WarehouseEdits.ApiEditIff`), so a draft can be saved again just as it is if and only if it is not a WZ without one (`DraftCanBeSavedAgainIff`, with a concrete run in `InvoicedWzCannotBeEdited`). The stored invoice is never lost that way, and after any run of API calls a draft WZ posts exactly when the stock suffices (`ApiWzPostsIff`).
- Only a direct caller of the service, who names a source invoice in an update, can leave a WZ that does not post: the update is checked against that invoice, which is not stored (`WarehouseEdits.UpdatedWzIsPostableIff`, `StrandedStays`, with a concrete run in `UpdateStrandsAWz`).
- Whether a KK that mixes receipts and issues posts depends on the order of its lines (`WarehouseVerdicts.KkPostsIff`, `KkOrderMatters`).
- Saving the invoice that a lost connection puts back to ready would break the protocol: with that one write stored, a run of four steps ends with two transmissions of one sale under way (`TransmissionVariant.SavingTheReturnWouldBreakIt`). The code changes a copy and never saves it, so a sale whose session is lost stays in sending for good, whatever users and worker do (`TransmissionTokens.StuckForGood`).
- What sending, accepted, finished ends and job tokens promise for a sale after every run, they promise for a purchase after every gentle run, and for the job token that is the exact condition: unless a job is given up, no transmission ever has two jobs if and only if the run is gentle (`TransmissionTokens.TokenKeptIff`). After a retry that is not gentle, a purchase's transmission has two submit jobs (`TransmissionSafety.PurchaseRetryDoublesTheJob`), and the second can send again what KSeF has accepted: the transmission is under way once more while its invoice is accepted (`PurchaseIsSentTwice`).
- An invoice of negative gross is within the matcher's two percent of every transfer, because the quotient is negative. Automatic allocations respect a gross if and only if it is not negative (`Matcher.AutoIsNearIff`, `PaymentRuns.AutoStaysNearIff`, with a concrete run in `PaymentExamples.CorrectionIsPaid`).
- A form payment of zero is refused when the other payments exceed the gross amount, so such a form cannot be cleared (`PaymentForm.FormPaymentEffect`, with a concrete run in `PaymentExamples.FormCannotBeCleared`).
- A cash transaction spent from outside the form is overspent by the next form payment, by exactly what was spent outside (`PaymentOverspend.OverspentExactlyByOutsideUse`, with a concrete run in `OutsideUseOverspends`).
- The migration rebuilds the number counters for the years 1000 to 9999 and no others (`WarehouseNumbers.MigrationRebuildsCounters`).
- A unit price survives the FA(3) round trip exactly when it is a whole number of cents (`Fa3Lines.PriceSurvivesIff`). Stored prices are, since their column has two places (`app/persistence/models/invoice_item.py:19`), so only an invoice mapped before it was stored can carry another.
- The settlement summary is exact for any gross amount, not only positive ones (`Settlement.SummaryIsExact`).

## Model

| member | source | states |
|---|---|---|
| WarehouseTotals.BalanceIsStock | app/persistence/models/warehouse_document.py:117-120 | in every state reachable by create, update, cancel and post calls, failed ones included, the cached balance of an item is the sum of its layers' remaining quantities, equals the net quantity of the posted documents, and is never negative |
| WarehouseTotals.ValueIsConserved | app/services/warehouse_document_service.py:211-341 | in every reachable state the value of all posted receipts is the value of the stock plus the cost of everything issued |
| WarehouseTotals.LayersAreAccounted | app/services/warehouse_document_service.py:306-341 | in every reachable state a layer holds between nothing and what it received, the difference is exactly what its movements took, and they carry its price |
| WarehouseTotals.LinesAreTraced | app/services/warehouse_document_service.py:160-207 | every line of a posted document has left its layer or its positive movements summing to its quantity; a draft or cancelled document has left nothing |
| WarehouseTotals.HistoryIsKept | app/persistence/repositories/inventory_layer_repository.py:31-44 | no step rewrites a layer's item, price, date or received quantity, remaining only goes down, and movements are only appended |
| WarehouseInvariants.Reachable | app/services/warehouse_document_service.py:126-389 | the ledger and line invariant holds in every reachable state |
| WarehouseRequests.StockIsAsRequested | app/services/warehouse_document_service.py:62-73 | in every reachable state the stock of an item is exactly what the requests behind the posted documents asked of it |
| WarehouseRequests.LinesAreAsRequested | app/services/warehouse_document_service.py:62-73 | in every reachable state every document's lines are those of the last accepted request for it: item, whole quantity and price, in order |
| WarehouseRequests.CreateAcceptedIff | app/services/warehouse_document_service.py:126-139 | a create is accepted exactly for the codes PZ, WZ, KK and TRANSFER, with lines, each of a whole quantity the type allows and with the price it needs, and for a WZ with an invoice or a reason |
| WarehouseRequests.CreateStores | app/services/warehouse_document_service.py:139-156 | an accepted create adds one draft without a number, with the type, source invoice, reasons and lines of the request, and changes nothing else |
| WarehouseRequests.UpdateAcceptedIff | app/services/warehouse_document_service.py:345-357 | an update is accepted exactly for a draft and a request its type allows; each other case has its error |
| WarehouseRequests.UpdateStores | app/services/warehouse_document_service.py:358-371 | an accepted update replaces lines and both reasons by the request's and changes nothing else, the source invoice included |
| WarehouseRequests.CancelOutcome | app/services/warehouse_document_service.py:376-389 | a cancel makes a draft cancelled, leaves a cancelled document and refuses a posted one |
| WarehouseRequests.PostVerdict | app/services/warehouse_document_service.py:160-190 | in every reachable state a draft is refused for its header, or for lack of stock, or posted, each exactly when it should be; a TRANSFER never posts |
| WarehouseRequests.PostStores | app/services/warehouse_document_service.py:76-95 | a post gives the draft the next number of its type in the clock's year, written TYPE/YEAR/SEQUENCE with at least four digits, moves that counter alone and touches no other document |
| WarehouseFifo.PostingIsFifo | app/services/warehouse_document_service.py:211-341 | over every run with a clock that does not go back, and for every listing of ties the database gives, a step that posts a draft is, line by line, joining the back of every reading of the unit queue for receipts and dropping exactly the front of the reading given for issues, with movements that decode to the units dropped; any other step leaves the ledger |
| WarehouseQueue.ReceiveEnqueues | app/services/warehouse_document_service.py:211-242 | a receipt's units join the back of every reading of its item's queue |
| WarehouseQueue.IssueDequeues | app/services/warehouse_document_service.py:306-341 | an issue of n units drops the first n of the reading the database gave, its movements decode to them, and the rest is a reading of what is left |
| WarehouseQueue.OtherQueuesStay | app/services/warehouse_document_service.py:306-341 | an item whose layers were not touched has the same readings before and after |
| WarehouseQueue.ReadingsDifferInTies | app/persistence/repositories/inventory_layer_repository.py:19-29 | two readings of one item's stock hold the same units and have equally old ones at each place |
| WarehouseQueue.IssueTakesOldest | app/services/warehouse_document_service.py:306-341 | a layer is drawn from only when every older layer of the item was drawn empty |
| WarehouseVerdicts.WzPostsIff | app/services/warehouse_document_service.py:246-261 | a draft WZ posts exactly when its header is valid and, for each item, the total over its lines is in stock |
| WarehouseVerdicts.WzLinesVerdict | app/services/warehouse_document_service.py:246-261 | posting lines one after the other succeeds exactly when every item's total is on hand, and otherwise fails for lack of stock |
| WarehouseVerdicts.KkPostsIff | app/services/warehouse_document_service.py:265-302 | a draft KK posts exactly when it has a correction reason and no prefix of its lines takes an item's stock below zero |
| WarehouseVerdicts.KkOrderMatters | app/services/warehouse_document_service.py:265-302 | with nothing in stock, receiving before issuing posts and issuing before receiving fails |
| WarehouseVerdicts.PzAlwaysPosts | app/services/warehouse_document_service.py:211-242 | in every reachable state a draft PZ posts |
| WarehouseEdits.ApiStrandsNone | app/api/routers/warehouse_documents.py:62-71 | after any run whose updates come through the API every WZ, whatever its status, has a source invoice or an issue reason |
| WarehouseEdits.ApiWzPostsIff | app/services/warehouse_document_service.py:246-261 | after any such run a draft WZ posts exactly when the stock suffices; its header is never in the way |
| WarehouseEdits.ApiEditIff | app/schemas/warehouse_document.py:114-119 | in every reachable state an edit through the API is accepted exactly for a draft and good lines, of a WZ only with an issue reason in the request, whatever invoice is stored; an accepted one leaves a WZ that posts when the stock suffices |
| WarehouseEdits.DraftCanBeSavedAgainIff | app/services/warehouse_document_service.py:345-374 | in every reachable state a draft sent back just as it is stored is accepted if and only if it is not a WZ without an issue reason |
| WarehouseEdits.InvoicedWzCannotBeEdited | app/services/warehouse_document_service.py:432-442 | a concrete run: a WZ drafted from an invoice without a reason, postable, refuses every edit through the API that gives none |
| WarehouseEdits.UpdatedWzIsPostableIff | app/services/warehouse_document_service.py:345-374 | for any body, one with a source invoice coming only from a direct caller of the service: in every reachable state an accepted update of a WZ leaves it postable if and only if the stored document has a source invoice or the body gives an issue reason; if not, the next post fails, and if so it succeeds exactly when the stock suffices |
| WarehouseEdits.StrandedStays | app/services/warehouse_document_service.py:345-374 | a WZ that a direct caller left without invoice and reason is not posted by any continuation in which no update gives it a reason |
| WarehouseEdits.UpdateStrandsAWz | app/services/warehouse_document_service.py:345-374 | a concrete run of a direct caller of the service: created with a reason, updated with an invoice and none, refused when posted |
| WarehouseVerdicts.FinishedForGood | app/services/warehouse_document_service.py:98-108 | a posted or cancelled document never changes, number and lines included, through any continuation |
| WarehouseTies.VerdictIsForced | app/services/warehouse_document_service.py:246-261 | two WZ documents with the same totals per item get the same verdict, whatever their lines and the listings of ties |
| WarehouseTies.WzLinesDequeue | app/services/warehouse_document_service.py:306-341 | posting WZ lines drops each item's total from its queue, consuming a then b being consuming a + b, as far as any key on which ties agree can tell |
| WarehouseTies.LayersAreForced | app/services/warehouse_document_service.py:246-261 | they leave the same layers if no two layers in stock of an asked item are equally old |
| WarehouseTies.CostIsForced | app/services/warehouse_document_service.py:246-261 | they cost the same if equally old layers in stock of an asked item have equal prices |
| WarehouseTies.ReorderedLinesAskTheSame | app/services/warehouse_document_service.py:246-261 | reordering the lines keeps the totals, so all of this holds for it |
| WarehouseForced.LayersForcedIff | app/persistence/repositories/inventory_layer_repository.py:19-29 | in every reachable state the totals force the layers drawn if and only if no two layers in stock of an item are equally old |
| WarehouseForced.CostForcedIff | app/persistence/repositories/inventory_layer_repository.py:19-29 | in every reachable state the totals force the cost if and only if equally old layers in stock of an item have equal prices |
| WarehouseForced.OnePzLeavesCostOpen | app/services/warehouse_document_service.py:211-242 | a concrete run: one PZ of one item at two prices leaves layers and cost open |
| Layers.ConsumeIsDequeue | app/services/warehouse_document_service.py:306-341 | the layer walk leaves exactly the units behind the first n, and its movements decode to those n |
| Stock.AvailableIsOnHand | app/services/warehouse_document_service.py:314-321 | the stock test sums the whole stock of the item, whatever order the ties come in |
| WarehouseLedger.PostLineEffect | app/services/warehouse_document_service.py:211-302 | posting one line keeps the balance, the layer accounts and the value, and traces the line |
| WarehouseNumbers.NumbersAreGapless | app/services/warehouse_document_service.py:193-201 | in every reachable state the posted documents of a type and year carry exactly the numbers one to the counter, once each, and no other document has one |
| WarehouseNumbers.MigrationRebuildsCounters | alembic/versions/d1e2f3a4b5c6_warehouse_document_number_seq.py:33-49 | re-deriving the counters by parsing the stored numbers gives the live counters for four-digit years, and nothing for others |
| Numbering.FormatInjective | app/services/warehouse_document_service.py:92-95 | two documents share a formatted number only if they share type, year and sequence |
| Numbering.PatternIs | alembic/versions/d1e2f3a4b5c6_warehouse_document_number_seq.py:44 | the pattern accepts a text exactly when it is a non-empty part without slashes, four digits, and one or more digits, with slashes between |
| Numbering.FormatMatches | alembic/versions/d1e2f3a4b5c6_warehouse_document_number_seq.py:33-49 | the migration's pattern accepts a formatted number exactly when the year has four digits |
| WarehouseService.WarehouseDocumentService.CreateDocument | app/services/warehouse_document_service.py:126-156 | reaches the specified state or reports the specified error with nothing changed |
| WarehouseService.WarehouseDocumentService.UpdateDocument | app/services/warehouse_document_service.py:345-374 | the same for replacing a draft's lines |
| WarehouseService.WarehouseDocumentService.CancelDocument | app/services/warehouse_document_service.py:376-389 | the same for cancelling |
| WarehouseService.WarehouseDocumentService.PostDocument | app/services/warehouse_document_service.py:160-207 | the same for posting, the counter and every table included |
| WarehouseService.WarehouseDocumentService.ConsumeFifo | app/services/warehouse_document_service.py:306-341 | the loop over layers leaves exactly the layers, movements and balance of the specified issue |
| WarehouseService.WarehouseDocumentService.ValidateItemsForType | app/services/warehouse_document_service.py:445-485 | the two validation passes accept exactly the lists whose every line is good for the type |
| WarehouseService.WarehouseDocumentService.AllocateNextSequence | app/persistence/repositories/warehouse_document_repository.py:70-85 | gives and stores the next number of the type and year |
| TransmissionSafety.SendingMeansOneLive | app/persistence/repositories/transmission_repository.py:46-52 | in every reachable state a sale is in sending exactly when a transmission of it is under way, then exactly one is, and the query for the active one never meets two rows; the same for a purchase after a gentle run |
| TransmissionSafety.AcceptedMeansOneSuccess | app/services/transmission_service.py:71-113 | a sale, and after a gentle run a purchase, is accepted exactly when one of its transmissions succeeded, never two, and it carries that one's KSeF number when KSeF gave one |
| TransmissionSafety.AcceptedForGood | app/domain/models/invoice.py:17-22 | an accepted sale never changes again, through any continuation of any run, and an accepted purchase through any gentle one |
| TransmissionSafety.EndsAreFinal | app/worker/job_handlers/poll_ksef_status.py:54-73 | no step of any actor changes a sale's finished transmission or an accepted sale, and after a gentle run neither those of purchases |
| TransmissionBudget.SendingIsBounded | app/worker/job_handlers/submit_invoice.py:203-333 | over every run and for either direction, the submit jobs of a transmission that ran to completion and those still pending are together at most its attempts, and these at most five |
| TransmissionSafety.OneJobEach | app/worker/job_handlers/submit_invoice.py:335-388 | a transmission has at most one pending job, of the kind its status waits for: a sale's after every run, jobs given up or not, a purchase's after every gentle run |
| TransmissionSafety.SubmitOpensIff | app/services/transmission_service.py:322-352 | a submit opens a new transmission exactly when the invoice is ready, or a rejected sale, the checks pass and the content is new |
| TransmissionSafety.SaleRetryIsRefused | app/services/transmission_service.py:354-423 | a manual retry of a sale's transmission is refused in every reachable state |
| TransmissionSafety.PurchaseRetryDoublesTheJob | app/services/transmission_service.py:380-412 | for a purchase a manual retry beside the automatic one leaves two submit jobs: a concrete run |
| TransmissionSafety.PurchaseIsSentTwice | app/worker/job_handlers/submit_invoice.py:335-388 | the run goes on: one job sends the purchase, KSeF accepts it, and the other job sends it again, so its successful transmission is under way once more beside an accepted invoice |
| TransmissionOutcomes.SubmitJobLeaves | app/worker/job_handlers/submit_invoice.py:203-333 | for every outcome and attempt: a lost session or connection leaves the transmission FAILED_RETRYABLE, without a job, and its invoice as it was; a transient or unexpected failure before the fifth attempt FAILED_TEMPORARY, one attempt more and one submit job; sending SUBMITTED and one poll job; everything else FAILED_PERMANENT, and an invoice in sending rejected |
| TransmissionOutcomes.SubmitJobOfSale | app/worker/job_handlers/submit_invoice.py:203-333 | in every reachable state a submit job of a sale leaves it rejected exactly in the permanent cases, else in sending |
| TransmissionOutcomes.PollJobLeaves | app/worker/job_handlers/poll_ksef_status.py:75-143 | for every answer to a poll of a transmission under way: 200 makes it successful and carries the number to it and its invoice, the codes 400, 401, 403, 404 and 422 reject, and every other code, and no answer, leaves it waiting with one poll job and its invoice as it was |
| TransmissionOutcomes.PollJobOfSale | app/worker/job_handlers/poll_ksef_status.py:19 | in every reachable state a poll rejects a sale if and only if the code is one of the five, accepts it if and only if it is 200, and otherwise leaves it in sending with a job pending |
| TransmissionOutcomes.PollOfFinished | app/worker/job_handlers/poll_ksef_status.py:54-73 | a poll that finds the transmission finished carries its end to the invoice and nothing more |
| TransmissionOutcomes.CrashLeaves | app/worker/__main__.py:97-130 | a crashed job is pending with one claim more, until its fifth; a submit job may have marked its transmission processing |
| TransmissionOutcomes.SubmitOfIdle | app/services/transmission_service.py:322-352 | a submit of an invoice with nothing under way: failed checks are refused, known content is answered with its transmission or refused when that failed, new content opens a transmission queued at its first attempt with one submit job |
| TransmissionOutcomes.SubmitWhileSending | app/services/transmission_service.py:322-352 | a submit of an invoice in sending gives back the transmission of the same content that is under way or successful, or is refused |
| TransmissionOutcomes.SubmitOfBusy | app/services/transmission_service.py:322-352 | a submit of an invoice with something under way is refused, by the query's exception when two are |
| TransmissionOutcomes.RetryIff | app/services/transmission_service.py:354-423 | in every reachable state a manual retry gets through exactly for a purchase whose transmission is FAILED_RETRYABLE or FAILED_TEMPORARY before its fifth attempt, with nothing of the invoice under way; it queues it for one attempt more with one submit job more |
| TransmissionOutcomes.RetryRefused | app/services/transmission_service.py:354-423 | the error of each refused retry |
| TransmissionOutcomes.RetryChecksSales | app/services/transmission_service.py:376-392 | in any state, reachable or not, a sale is retried only after the checks of a first submit: prepared, valid, and ready or rejected |
| TransmissionOutcomes.SessionIsLost | app/worker/job_handlers/submit_invoice.py:239-293 | a concrete run that reaches the stuck state: a sale added, submitted, its session expired |
| TransmissionTokens.TokenKeptIff | app/services/transmission_service.py:354-423 | over every run in which no job is given up, transmissions of either direction always have at most one pending job, of the kind their status waits for, if and only if no accepted manual retry hits one in FAILED_TEMPORARY |
| TransmissionTokens.RetryKeepsTokenIff | app/services/transmission_service.py:393-412 | an accepted retry keeps the token exactly when no job for its transmission is still pending |
| TransmissionTokens.OneJobWhileWaiting | app/worker/job_handlers/submit_invoice.py:335-388 | in a run in which no job is given up, a sale's transmission has a pending job, and only one, exactly when it is under way and did not end retryable; a purchase's too, if the run is gentle |
| TransmissionTokens.NoRunLosesJobs | app/worker/__main__.py:97-130 | in such a run every transmission that waits for a job has one |
| TransmissionTokens.StuckForGood | app/worker/job_handlers/submit_invoice.py:239-293 | a sale's transmission that ended retryable, and its invoice in sending, stay exactly as they are through every continuation |
| TransmissionVariant.SavingTheReturnWouldBreakIt | app/worker/job_handlers/submit_invoice.py:49-56 | with the copy saved, the run add, submit, transient failure, submit ends with two transmissions of the sale under way and a job each; without, at most one is |
| TransmissionInvariants.Reachable | app/services/transmission_service.py:322-423 | the protocol invariant, job tokens included, holds for sales after every run and for all invoices after every gentle run |
| TransmissionInvariants.StepKeeps | app/worker/__main__.py:97-130 | every step of every actor keeps the invariant for sales, crashed jobs included, and every gentle step keeps it for all invoices |
| TransmissionService.TransmissionStore.SubmitInvoice | app/services/transmission_service.py:322-352 | reaches the specified rows and jobs, or reports the specified error with nothing changed |
| TransmissionService.TransmissionStore.RetryTransmission | app/services/transmission_service.py:354-423 | the same for a manual retry |
| TransmissionService.TransmissionStore.SyncInvoice | app/services/transmission_service.py:71-113 | carries a terminal status, and the number on success, to the invoice as specified |
| TransmissionService.TransmissionStore.HandleSubmit | app/worker/job_handlers/submit_invoice.py:335-388 | the handler and its failure handlers reach the specified rows and jobs for every outcome |
| TransmissionService.TransmissionStore.HandlePoll | app/worker/job_handlers/poll_ksef_status.py:41-143 | reaches the specified rows and jobs for every answer |
| TransmissionService.TransmissionStore.RunJob | app/worker/__main__.py:97-130 | a claimed job runs its handler and leaves the pool, as the specified step |
| TransmissionService.TransmissionStore.CrashJob | app/worker/__main__.py:97-130 | a crashed job is pending again until its fifth claim, and may leave its transmission processing |
| Matcher.DecisionIsBest | app/services/payment_matcher.py:37-59 | automatic matching picks the best score of at least 75 and the first listed among equals; review happens exactly when nothing reaches 75 but something reaches 40 |
| Matcher.ScoreIsPoints | app/services/payment_matcher.py:65-115 | the score is 40 or 20 for the number, 30 or 15 for the amount, 20 for a NIP and 10 for the name, capped at 100 |
| Matcher.CandidatesAreRanked | app/services/payment_matcher.py:37-48 | the candidates are exactly the invoices scoring at least 40, best first, in listing order among equals |
| Matcher.AutoIsNearGross | app/services/payment_matcher.py:65-115 | an automatic match of a positive transfer to a positive invoice is within two percent of its gross, because the texts give at most 70 points |
| Matcher.AutoIsNearIff | app/services/payment_matcher.py:88-95 | every automatic match of a positive transfer is within two percent of the gross, whatever the texts show, if and only if the gross is not negative |
| Matcher.ComputeScore | app/services/payment_matcher.py:65-115 | the accumulated points are the specified score, capped at 100 |
| Matcher.FindCandidates | app/services/payment_matcher.py:37-48 | the loop and sort give the ranked candidates |
| Matcher.BestAuto | app/services/payment_matcher.py:50-59 | gives the winner of the ranking, or nothing when no score reaches 75 |
| PaymentLedger.Reachable | app/services/payment_service.py:554-626 | over every run, with any amounts and failed calls included, what is left of a transaction, its match status and an invoice's payment status are what the active allocations give; external identifiers are unique |
| PaymentLedger.MoneyIsConserved | app/persistence/repositories/payment_allocation_repository.py:97-137 | over every run, what all transactions were spent of is what all invoices were paid |
| PaymentLedger.ReversalUndoes | app/services/payment_service.py:419-451 | reversing a manual allocation restores every cached value of the transaction and the invoice, a review mark excepted |
| PaymentLedger.AllocationsAreHistory | app/persistence/repositories/payment_allocation_repository.py:45-55 | through any continuation an allocation keeps its transaction, invoice, amount and method, and a reversed one stays reversed and cannot be reversed again |
| PaymentOutcomes.StatusesSay | app/services/payment_service.py:604-626 | in every reachable state, with any amounts, what is left of a transaction is its amount less its active allocations, and every status says what it should of what is left or paid |
| PaymentOutcomes.ManualOutcome | app/services/payment_service.py:381-413 | in every reachable state a manual allocation is accepted exactly for a positive amount that is left, and takes just that from the transaction for the invoice |
| PaymentOutcomes.MatchOutcome | app/services/payment_service.py:161-215 | in every reachable state an automatic match takes all that is left of the transaction for the invoice picked; a review only marks it; no match changes nothing |
| PaymentOutcomes.MatchPicksWinner | app/services/payment_service.py:161-199 | the invoice picked is the winner of scoring every invoice by its own gross against the transaction's amount |
| PaymentOutcomes.ReverseOutcome | app/services/payment_service.py:419-451 | in every reachable state a reversal is accepted exactly for an allocation that is not reversed, and its amount is left again |
| PaymentOutcomes.ImportOneRow | app/services/payment_service.py:85-147 | each row in turn adds one unmatched transaction of its amount, unless it is unreadable or its reference is known |
| PaymentOutcomes.FormRefused | app/services/payment_service.py:244-281 | the error of each refused form payment |
| PaymentRuns.NothingIsOverspent | app/services/payment_service.py:381-413 | with positive bank amounts and cash transactions left to the form, no transaction is ever spent beyond its amount |
| PaymentRuns.AutoMatchesStayNearGross | app/services/payment_service.py:187-199 | in such runs every automatic allocation to an invoice whose gross is not negative is at most 1.02 of it |
| PaymentRuns.AutoStaysNearIff | app/services/payment_service.py:187-199 | in such runs, whatever the texts show in the listing of all invoices a matching run reads, it allocates at most 1.02 of an invoice's gross to it, if and only if the gross is not negative |
| PaymentExamples.CorrectionIsPaid | app/services/payment_service.py:187-199 | a concrete run: a transfer of 5.00 is allocated automatically to an invoice of -100.00 |
| PaymentRuns.StatusesMeanWhatTheySay | app/services/payment_service.py:604-626 | in such runs matched, partial and unmatched, review marks aside, are all, some and nothing spent, and paid, partially paid and unpaid are all, some and nothing of a positive gross |
| PaymentForm.LastWriterWins | app/services/payment_service.py:244-318 | after any such run the form of every invoice holds its last accepted amount |
| PaymentForm.OneFormPayment | app/services/payment_service.py:232-242 | an invoice has at most one cash transaction and one active allocation from it, which spends it whole |
| PaymentForm.FormPaymentEffect | app/services/payment_service.py:244-318 | a form payment is accepted exactly when it fits beside the other payments; it then sets the form's amount, leaves all other rows as they were, and when positive leaves at most the gross paid |
| PaymentExamples.FormCannotBeCleared | app/services/payment_service.py:269-281 | a concrete run after which the form's payment can neither be cleared nor lowered |
| PaymentOverspend.OverspentExactlyByOutsideUse | app/services/payment_service.py:300-317 | from any ledger state, a changing form payment leaves its transaction short by exactly what was spent outside the form, so it is overspent if and only if that is positive |
| PaymentOverspend.OutsideUseOverspends | app/services/payment_service.py:300-317 | a concrete run that overspends |
| Settlement.SummaryIsExact | app/persistence/repositories/payment_allocation_repository.py:139-236 | after any run a side of the summary lists, once each and in the order of the query, exactly the invoices of that side and month whose gross exceeds their active allocations, each with its gross, what is paid and the difference |
| PaymentService.PaymentService.ImportCsv | app/services/payment_service.py:85-147 | imports new rows, skips known and unreadable ones, matches the new ones in turn and reports their number; a row that raises past the guard, or a failing match, rolls everything back |
| PaymentService.PaymentService.RunMatching | app/services/payment_service.py:161-215 | allocates, marks for review or leaves the transaction, as the ranking decides |
| PaymentService.PaymentService.AllocateByHand | app/services/payment_service.py:381-413 | reaches the specified rows or reports the specified error with nothing changed |
| PaymentService.PaymentService.ReverseAllocation | app/services/payment_service.py:419-451 | the same for a reversal |
| PaymentService.PaymentService.SetInvoiceFormPayment | app/services/payment_service.py:244-318 | the same for a form payment: reverse, rewrite or create, reallocate |
| PaymentService.PaymentService.DoAllocate | app/services/payment_service.py:554-602 | adds the allocation and refreshes both cached rows |
| PaymentService.PaymentService.GetSettlementSummary | app/services/payment_service.py:515-548 | the loop splits the open invoices into the two specified sides, each entry with its invoice's gross, what is paid and a positive remainder |
| Rounding.RoundingsCompared | app/services/invoice_totals.py:51-57 | both roundings give a nearest integer and differ, by one, exactly on a tie whose lower neighbour is even |
| Rounding.HalfUpIsTheNearest | app/services/invoice_totals.py:51-57 | of any quotient, negative ones too, HALF_UP is the only integer that is nearest and on a tie the one away from zero |
| Rounding.HalfEvenIsTheNearest | app/integrations/ksef/xml_parser.py:120 | HALF_EVEN of any quotient, negative ones included, is the only integer that is nearest and even on a tie |
| InvoiceTotals.BuildItemsVerdict | app/services/invoice_totals.py:20-74 | the builder answers with all lines in order, numbered from one, or with the first bad line and its first problem |
| InvoiceTotals.AcceptedExactlyWhenGood | app/services/invoice_totals.py:23-49 | a list is accepted exactly when no line is bad |
| InvoiceTotals.ProblemIs | app/services/invoice_totals.py:23-49 | the first problem of a line: a blank name, a quantity not positive or not whole, a negative price, a rate outside 0 to 100 |
| InvoiceTotals.LineIsNearest | app/services/invoice_totals.py:51-70 | a line keeps the request's trimmed name, unit or its default, quantity, price, rate and number; its net is its exact quantity times price, and its VAT the rate of that net, to the nearest cent |
| InvoiceTotals.BuiltInvoicesAddUp | app/domain/models/invoice.py:198-218 | totals of built lines satisfy gross = net + VAT exactly and pass every sum check of both validators |
| InvoiceTotals.SumChecksAre | app/domain/models/invoice.py:198-218 | the validators allow a cent a line between lines and header, at least one, and one cent between net plus VAT and gross |
| InvoiceTotals.AggregatesPartition | app/domain/models/invoice.py:378-403 | the aggregates per rate add up to the totals, each line counted once |
| InvoiceTotals.BuiltRatesAreClose | app/domain/models/invoice.py:378-403 | the VAT of a rate is within half a cent per line of the rate taken of its net |
| InvoiceTotals.ComputeItems | app/services/invoice_totals.py:20-74 | the building loop gives the specified lines or the first problem |
| InvoiceTotals.AggregateVatTotals | app/domain/models/invoice.py:378-403 | the dictionaries hold exactly the rates present, with the sums of their lines, and VAT in PLN for exactly the rates where a line carries it |
| Decimals.FmtReadsBack | app/integrations/ksef/mapper.py:66-68 | cents written with two places read back as the same cents, of any sign |
| Decimals.FmtLooks | app/integrations/ksef/mapper.py:66-68 | a minus for negative cents only, a whole part without leading zeros, a point and two digits |
| Decimals.StripCuts | app/integrations/ksef/xml_parser.py:21-25 | trimming only cuts white space off both ends |
| Decimals.SpacesAre | app/integrations/ksef/xml_parser.py:21-25 | white space is Python's 29 characters |
| Fa3Lines.RoundTrip | app/integrations/ksef/mapper.py:130-183 | for every built invoice the mapper accepts, parsing its document gives back number, date, currency, the type by its own code, due date, payment method, the three totals and every line in order |
| Fa3Lines.LineReads | app/integrations/ksef/xml_parser.py:107-133 | a mapped line reads back with its name, unit, quantity, price to the cent, rate, net and position |
| Fa3Lines.PriceSurvivesIff | app/integrations/ksef/mapper.py:177 | the unit price reads back unchanged exactly when it is a whole number of cents |
| Fa3Lines.RoundingGap | app/integrations/ksef/xml_parser.py:120 | header VAT less the parsed lines' VAT is one cent for each line that ended in half a cent above an even one, so between nothing and a cent per line |
| Fa3Lines.ImportedInvoicesPass | app/domain/models/invoice.py:201-210 | a round-tripped invoice passes every sum check of both validators |
| Fa3Example.SaleIsMapped | app/integrations/ksef/mapper.py:363-381 | a concrete one-line sale is mapped |
| Fa3Example.GapIsReached | app/integrations/ksef/xml_parser.py:120 | on that sale the gap of a cent per line is reached, so the bound is tight |
| Fa3RoundTrip.TotalsRead | app/integrations/ksef/xml_parser.py:185-191 | the parsed P_13, P_14 and P_15 sums are the header totals |
| Fa3RoundTrip.EveryFieldReads | app/integrations/ksef/mapper.py:26-33 | P_13_1/P_14_1 carry the net and VAT of the 23 percent lines, _2 of the 8, _3 of the 5 and _4 of the zero percent lines; a field that is not emitted reads as zero |
| Fa3RoundTrip.PaymentReads | app/integrations/ksef/mapper.py:242-251 | the payment block reads back as its method and due date |
| Fa3RoundTrip.IsoReadsBack | app/integrations/ksef/mapper.py:149 | the date text determines the date |
| Fa3RoundTrip.IsoLooks | app/integrations/ksef/mapper.py:149 | the date text has four, two and two digits between hyphens |
| Fa3Document.MappedIff | app/integrations/ksef/mapper.py:363-381 | an invoice is mapped exactly when the seller's NIP is valid, it has a line, a correction names what it corrects, and every rate is 0, 5, 8 or 23 percent; otherwise the first failure is reported |
| Fa3Document.NipIsRead | app/integrations/ksef/mapper.py:101-109 | the seller's NIP is read without surrounding space, two leading letters, hyphens and spaces |
| Fa3Document.OpeningSays | app/integrations/ksef/mapper.py:147-155 | currency, date and number, and P_6 exactly when the delivery or sale date is another day |
| Fa3Document.ExchangeSays | app/integrations/ksef/mapper.py:160-164 | the exchange rate and its date, exactly on a foreign invoice that has them |
| Fa3Document.MiddleSays | app/integrations/ksef/mapper.py:158-167 | the gross amount, and RodzajFaktury with the code of the invoice's kind and of no other of the seven |
| Fa3Document.CorrectionSays | app/integrations/ksef/mapper.py:343-360 | the corrected invoice's data exactly on corrections, with the reason if it is not blank |
| Fa3Document.RowsSay | app/integrations/ksef/mapper.py:172-180 | one row a line, in order, with its number, name, unit, quantity, price, net and the code of its rate |
| Fa3Document.VatFieldsSay | app/integrations/ksef/mapper.py:26-42 | P_13 and P_14 of a rate exactly when a line has it, and P_14_xW exactly when the invoice is foreign, the rate is not zero and a line of it carries VAT in PLN |
| Fa3Document.DocumentInOrder | app/integrations/ksef/mapper.py:146-182 | the elements come in one order, VAT fields by their rate as text, and nothing but rows twice |
| Fa3Document.PaymentSays | app/integrations/ksef/mapper.py:242-251 | the document ends in the payment block: the due date if any, and form 1 for cash or 6 for a transfer |
| Fa3Reading.HeaderIsRead | app/integrations/ksef/xml_parser.py:177-182 | any document with an issue date is read; a missing sale date is the issue date, a missing currency PLN, a missing type VAT |
| Fa3Reading.TotalsAreRead | app/integrations/ksef/xml_parser.py:137-191 | on any document net is the sum of P_13_1 to P_13_4 and P_13_6 to P_13_11, VAT that of P_14_1 to P_14_5, and gross P_15 unless that is zero and net positive |
| Fa3Reading.LineIsRead | app/integrations/ksef/xml_parser.py:107-133 | every row of any document is read in order, with the defaults for what is missing or unreadable |
| Fa3Reading.LineVatIsNearest | app/integrations/ksef/xml_parser.py:120 | a parsed line's VAT is the nearest cent to net times rate over a hundred, of any places and sign, even on a tie |
| Fa3Reading.PlusIsExact | app/integrations/ksef/xml_parser.py:121 | sums of numbers of any places are exact |
| Fa3Reading.NumberReads | app/integrations/ksef/xml_parser.py:28-36 | digits with a point among them and perhaps a sign read as that number |
| Fa3Reading.OnlyNumbersRead | app/integrations/ksef/xml_parser.py:28-36 | nothing else reads as a number |
| Fa3Reading.MethodIsFirst | app/integrations/ksef/xml_parser.py:215-224 | on any document the first payment form with code 1 or 6 decides, others are passed over |
| Fa3Reading.DueDateIsRead | app/integrations/ksef/xml_parser.py:227-246 | a due date in the body, in TerminPlatnosci or else DataPlatnosci, comes before the blocks |
| Fa3Reading.TermIsFirst | app/integrations/ksef/xml_parser.py:235-244 | among the blocks the first with a date in it gives the term |
| Fa3Reading.DateIsFirst | app/integrations/ksef/xml_parser.py:238-242 | in a block the first of the three date elements that is not blank gives the date |
| Fa3Codec.InvoiceToXml | app/integrations/ksef/mapper.py:130-183 | the appending code builds the specified document or reports the specified error |
| Fa3Codec.BuildVatTotals | app/integrations/ksef/mapper.py:294-322 | emits the fields of exactly the rates present, in key order, with VAT in PLN where a foreign invoice carries it, or refuses an unknown rate; without lines, the header totals |
| Fa3Codec.ParseItems | app/integrations/ksef/xml_parser.py:252-259 | parses every row, in order |
| Fa3Codec.ExtractTotals | app/integrations/ksef/xml_parser.py:185-191 | sums the fields as specified |
| Fa3Codec.ExtractPaymentMethod | app/integrations/ksef/xml_parser.py:215-224 | the walk gives the first payment form with a known code |
| Nip.OneWrongDigitIsDetected | app/domain/models/invoice.py:430-447 | changing one digit of a valid NIP, check digit included, makes both validators refuse it |
| Nip.SwappedNeighboursAreDetected | app/services/contractor_service.py:256-263 | swapping two different neighbouring digits of a valid NIP makes both validators refuse it |
| Nip.ValidatorsAgree | app/services/contractor_service.py:256-263 | the two validators agree on every string of ten digits |
| Nip.CheckDigitIs | app/domain/models/invoice.py:430-447 | ten digits are accepted exactly when 6, 5, 7, 2, 3, 4, 5, 6 and 7 times the first nine, modulo eleven, is the tenth |
| Nip.OnlyDigitsAccepted | app/services/contractor_service.py:256-263 | the contractor service takes ten digits only; the invoice first drops surrounding space, hyphens and spaces |

## Left out

- HTTP, authentication, encryption, REGON, NBP, PDF and XLSX, the web client, audit records and UUIDs: input or foreign code. Row ids are positions in append-only tables.
- Concurrency: calls are serial transactions with one worker. Row locks and the claiming of batches of jobs are not modelled.
- Backoff times and the order in which pending jobs are claimed: any pending job may run next.
- Liveness: polling has no bound, so nothing says that a transmission ends.
- Transmission idempotency by content: the hash is an opaque input, because the document carries a timestamp. UPO documents and error texts are not modelled.
- Text matching of transfers (regular expressions, name similarity) is input to the matcher as five truth values.
- CSV syntax: a row arrives with its identifier and its amount, or as unreadable.
- Editing an invoice's gross between payment calls (`update_invoice`): it does not refresh the payment status, so gross is fixed in payment runs.
- An invoice-side cap on manual and automatic allocations: the code has none.
- TRANSFER documents never post. Catalogue prices of items, the older stock module and count-based FV numbering are separate code.
- Decimal precision of 28 digits, database column widths and counter overflow: numbers are unbounded. Warehouse quantities and prices are read as multiples of 1/10000, the column scale.
- Fa3Codec.InvoiceToXml: the heading, the parties' blocks and the contents of the annotations and of the corrected invoice's data are not built, and the exchange rate is not read back: mapper and parser use different encodings for them. Elements are values, so sharing and in-place growth of one tree are not captured; serialisation to bytes and namespaces are left to the XML library.
- TransmissionService.TransmissionStore.CrashJob: the worker commits what a raising handler had already written. Only the mark as processing is modelled, not a status set just before the database itself failed.
- Decimals.ParseDec: number text with exponents, underscores, NaN or infinities is not read as a number; the mapper writes none.
- Nip.InvoiceAccepts: decimal digits are the ten ASCII ones; other Unicode digits are not modelled. Country prefixes of NIPs are two ASCII letters.
- The order of a document's lines: they are posted as they were entered, although the relation that loads them names no order.
- Renumbering of invoice lines by `normalize_items_order`, and the presence checks of `validate_kor` and `validate_zal`, which say nothing across calls.
