# Verified model of the estimating pipeline

CBC Copilot turns uploaded PDFs into priced quotes: triage, paid OCR, normalisation, extraction by a
language model, deterministic matching, pricing, drafting and an approval gate. This project models
its four cores in Dafny and proves what each is for. `dafny verify dfyconfig.toml` checks all of it.

**The delivery protocol.** Messages are delivered at least once and workers stop anywhere.
`OcrSubmission` is a transition system of any number of workers, each with its own stale copy of a
job row that it saves column by column (`Repository`), and of a Textract that only promises to
answer a repeated request token with the same job or to refuse it. `Completion` is the handler of a
completion; `DocumentRuns` is a transition system of both kinds of message from upload to verdict,
`CompletionRuns`, `Reopening` and `AtRest` what holds over all its runs, and `OverlappingDeliveries` a
run in which a document is left unsettled. `Extraction`, `ExtractionSpend` and
`OverlappingExtractions` bound what failing, redelivered and overlapping extractions can spend, with
`ExtractedTables` saying which tables are extracted, paid for and stored and `SoloExtractions` that
workers alone spend what the sequential run does; `StoredAnswers` says when a stored answer is accepted
again. `HardwareSets` records hardware callouts, and `HardwareRows` says which rows they leave.

**Normalisation.** `Normalize` is the three-pass loop; `ElementContents` says what each element carries
of its block; `ElementIdentity`, `PageLocality`, `BlockRenaming` and `PageMap` say when the identities it
gives are distinct, independent of what else was submitted, and stable; `ElementStore` is the
delete-then-copy write.

**Pricing and drafting.** `Rounding` is decimal arithmetic with its two roundings
(roundTiesToAway and roundTiesToEven, section 4.3.1 of IEEE 754-2008). `ReferenceData` is the
effective-dated lookup and its cache, `Pricing` one line, `Assembly` a quote, `QuoteBlocks` what the
screen shows of it, `Draft` the generation of lines and `QuoteLifecycle` the approval gate; the
modules named `...Laws` hold the properties, and `PricedLines`, `AssembledFigures`, `BlockContents`,
`DraftedLines` and `QuoteRequests` say what every stored column, block, line and request comes to, without
the functions that compute it.

**Matching and gating.** `Matching` scores and ranks, `CatalogIndex` is the division index,
`MatchStore` the rows and `MatchSafety` what holds of them over every run; `CandidateScores` and
`MatchedRows` say what a score and a row mean. `Gate` and `Link` validate extracted fields and
`FieldVerdicts` says with which verdict, confidence and counters. `SizeParser` parses and prints
sizes with the matcher of `Backtracking`, `SizeReadings` says what a text comes to, and `Calibration`
recommends thresholds.

Conventions. Decimal columns are integers: ten-thousandths for unit costs, margins, multipliers and
rates, hundredths for money, quantities and list prices. Hashes (SHA-256, and uuid5 of section 4.3
of RFC 4122) are injective constructors. Dates are day numbers. Clocks, text similarity, grounding
scores, model replies and failures are parameters, so every theorem holds for all of them. A class
method is proved against a function of the old state, and the promises are proved of that function.
Where the code makes a request in several steps, the steps are separate so that others may come
between. Reference tables do not change while one pricing operation runs, but between
operations they may change at will.

Where the code and its own words disagree, the model follows the code:

- normalize.py says paths survive fresh block ids. They do only when the new ids sort the tables of a
  page as the old ones did (`FreshIdsKeepPathsIff`, `FreshIdsCanMovePaths`).
- The page map is read again at completion, so forcing a page to another route in between can shift
  it (`ForceReadKeepsMapIff`, `ForcedSkipMovesPages`).
- A completion can be deleted and its document then reopened by a slower delivery of its upload
  (`DeletedIsSettledIff`, `SettledForGoodIff`, `SlowPreprocessReopens`).
- A redelivery reuses stored answers, and batching says citations survive a re-run. But a redelivered
  completion normalises again first, with new row ids, so what a reused answer cites is rejected
  (`StoredFieldIsAcceptedIff`, `ReusedRecordLosesItsCitations`).
- A retry storm can double-bill: deliveries that overlap do not see each other's answers
  (`OverlappingSpendIsBounded`, `OverlappingDeliveriesPayTwice`).
- A document with nothing to OCR is called complete but stays PROCESSING (`AtRestUnsettledIff`,
  `NothingToOcrStaysProcessing`).
- The multiplier cache gives one entry to "any tier" and to the empty tier
  (`MultiplierReadsAreDirectIff`, `MultiplierReadsCanDiffer`). Pricing always reads without a tier, so
  the pair that clashes does not arise there.
- A returned vendor price of zero or less is replaced by the catalogue's
  (`VendorPriceSticksIffPositive`, `ZeroVendorPriceIsReplaced`).
- A section named like a line group is shown with that group's unsectioned lines added
  (`SectionBlockShowsItsSumIff`, `SectionBlockCanMislead`).
- `groupLines` shows the block of unsectioned lines with its first line's line-group figure
  (`UnsectionedBlockShowsItsSumIff`, `UnsectionedBlockCanMislead`).
- The PDF groups lines by line group but shows a stored subtotal kept by section
  (`PdfBlockShowsItsSumIff`, `PdfBlockCanMislead`).
- Text similarity is called a tiebreaker and the lowest weight; stock weighs less, and text can outweigh
  it, though never a finish or a hard constraint (`TextCanOutrankStock`, `ExactFinishOutranksText`).
- "Exactly one freight line" is kept by adding a missing one, not by removing others
  (`ExactlyOneFreightLineIff`, `TwoFreightLinesStay`).
- An unresolved opening keeps match rows of a former hardware group (`UnresolvedKeepsNoRowsIff`,
  `FormerGroupRowStays`).
- A hardware set said to be resolved, none of whose components has an accepted description, leaves no
  row at all (`CalloutIsOnRecordIff`, `ResolvedSetCanVanish`).
- Recording a vendor price, patching a quote, moving another quote's line into it, and any request
  that another one overtook are outside the DRAFT guard (`GateHoldsIffEveryWriteIsSafe` and the
  counterexamples beside it).

## Model

| member | source | states |
|---|---|---|
| Repository.Job.GetOrCreate | backend/pipeline/db/repository.py:28-43 | fetching a job row returns the stored one, or creates it, and fills a missing idempotency key in without touching another column |
| Repository.Job.SaveColumns | backend/pipeline/db/repository.py:28-93 | a save with update_fields overwrites the named columns from a possibly stale copy and leaves the others as stored |
| Repository.Job.Start | backend/pipeline/db/repository.py:46-53 | starting writes status, attempt and error columns only |
| Repository.Job.Complete | backend/pipeline/db/repository.py:56-62 | completing writes the status column only, so a recorded job id survives it |
| Repository.Job.Fail | backend/pipeline/db/repository.py:65-80 | failing or quarantining writes status and error, the error cut at 8000 characters |
| Repository.Job.RecordExternalJobId | backend/pipeline/db/repository.py:83-93 | recording the Textract job writes that column alone |
| OcrSubmission.StepKeepsInv | backend/pipeline/coordinator.py:281-351 | every atomic step of every worker, crash and stale save keeps the agreement of rows, copies and started jobs |
| OcrSubmission.AtMostOnePaidJob | backend/pipeline/coordinator.py:281-351 | in every reachable state a document has at most one Textract job, and its row records none or exactly that one; `RecordedIsOnTheRow` and `FreshUploadIsSubmitted` say when it does record it |
| OcrSubmission.RecordedJobIdIsFinal | backend/pipeline/db/repository.py:83-93 | a recorded job id never changes, whatever runs afterwards |
| OcrSubmission.RecordedIsOnTheRow | backend/pipeline/coordinator.py:281-351 | over every run, once a worker has taken the recording step for a document, its row holds exactly the one job started for it, in that state and in every later one |
| OcrSubmission.FreshUploadIsSubmitted | backend/pipeline/coordinator.py:281-351 | an uninterrupted delivery of a fresh routed upload ends with exactly one job started and that job on the row |
| OcrSubmission.RedeliveryResumes | backend/pipeline/coordinator.py:281-351 | a redelivery while a recorded job is out resumes that job and starts none, whatever the routes and the routing table have become |
| OcrSubmission.StatusesAreSaved | backend/pipeline/db/repository.py:46-80 | what starting, skipping, failing and completing leave in the row, column by column, and that none of them touches the key or the job id |
| OcrSubmission.MayDo | backend/pipeline/coordinator.py:281-409 | what a worker may do next in every reachable state, step by step: none is stuck, a recorded job is resumed, and Textract starts a job only for a token it has not seen |
| OcrSubmission.JobsStarted | backend/pipeline/coordinator.py:325-351 | only Textract starting a job adds one, under the token of the worker's copy |
| OcrSubmission.RowsWritten | backend/pipeline/db/repository.py:28-93 | only the saving steps write a row, that of their own document, and a step concerns its own worker |
| OcrSubmission.FeatureSetsDiffer | backend/pipeline/stages/ocr.py:86-97 | the request token tells tables with layout, plain text and nothing to read apart |
| Completion.DocumentRecord.Mark | backend/pipeline/coordinator.py:469-539 | a verdict on EXTRACT and LINK never overwrites a completed stage |
| Completion.DocumentRecord.ExtractAndLink | backend/pipeline/coordinator.py:469-539 | a settled failure or quarantine is told to the caller, so PROCESSED is not written over it; transient and unknown errors raise |
| Completion.DocumentRecord.NormaliseDocument | backend/pipeline/coordinator.py:412-448 | PROCESSED is written exactly when extraction returned or was skipped for configuration |
| Completion.DocumentRecord.HandleTextractCompleted | backend/pipeline/coordinator.py:366-409 | for every pattern of failures the handler returns only with the document on its verdict, and otherwise raises or dies; with no fault it raises and leaves the status exactly when extraction is worth retrying, by codes spelt out, and else ends on the verdict spelt out in `VerdictIs` |
| Completion.Queue.ProcessCompletion | backend/pipeline/consumers/sqs_consumer.py:100-128 | the message is deleted only when undecodable, when no handler takes it, or when its handler returned with the document on its verdict; every raising path leaves it on the queue |
| Completion.VerdictIs | backend/pipeline/coordinator.py:455-535 | there is no verdict exactly when Textract succeeded and extraction ended in a lost connection, an unknown error or one of eight named throttle and outage codes; else FAILED exactly on any other client error or on Textract failing, QUARANTINED exactly over the ceiling, PROCESSED exactly on a return or a configuration skip |
| Completion.RouteIs | backend/pipeline/coordinator.py:51-121 | a body goes to a handler exactly as a completion of Textract or one of three event types, and is malformed exactly when it or the notification inside it does not decode |
| DocumentRuns.PreprocessIsSaved | backend/pipeline/coordinator.py:124-186 | what each step of an upload's delivery leaves in the PREPROCESS row, and where it goes on |
| DocumentRuns.OcrIsSaved | backend/pipeline/coordinator.py:281-409 | what each step of either delivery leaves in the OCR row, its status and the job id |
| DocumentRuns.StatusIsSaved | backend/pipeline/coordinator.py:124-186 | the document status is written by three steps alone, as PROCESSING, as QUARANTINED, and as the verdict |
| DocumentRuns.MessageIsOpened | backend/pipeline/coordinator.py:124-186 | a message taken up fetches its document's row of one stage or the other, creating it or filling a missing key in, and the worker holds that copy |
| DocumentRuns.OcrIsFetched | backend/pipeline/coordinator.py:281-351 | so does reaching the OCR stage, and submitting lets Textract report |
| DocumentRuns.MailChanges | backend/pipeline/consumers/sqs_consumer.py:100-128 | what each step does to the queue: deletion and dead-lettering remove one message, uploads and completions add one, nothing else changes it |
| DocumentRuns.MayDo | backend/pipeline/coordinator.py:124-448 | what a worker may do next, phase by phase: it can always stop, and is stuck only when extraction is worth retrying |
| DocumentRuns.MayCome | backend/pipeline/consumers/sqs_consumer.py:60-128 | any queued message may reach any idle worker, Textract reports on what was submitted, and an upload is of a new document |
| CompletionRuns.NoMessageIsLost | backend/pipeline/consumers/sqs_consumer.py:100-128 | supporting the rows below: a message is queued, dead-lettered or deleted |
| CompletionRuns.DeletedIsSettledIff | backend/pipeline/coordinator.py:124-186 | a deleted completion's document is settled exactly when no delivery of its own upload, having read the PREPROCESS row before it was COMPLETED, wrote PROCESSING with no verdict or refusal after it |
| CompletionRuns.DeletedOnlyWhenSettled | backend/pipeline/coordinator.py:366-448 | a completion is deleted only with its document PROCESSED, FAILED or QUARANTINED, whatever other documents do, if no delivery writes PROCESSING on that document once it was settled |
| Reopening.SettledForGoodIff | backend/pipeline/coordinator.py:138-186 | in every reachable state a document is settled whatever happens next exactly when it is settled, no delivery of its upload is past the COMPLETED skip, and none still queued could get past it |
| OverlappingDeliveries.SlowPreprocessReopens | backend/pipeline/coordinator.py:124-186 | two deliveries of one upload read its row before either completes it; the first goes through to a deleted completion, and the second leaves the document PROCESSING with no message left |
| AtRest.AtRestUnsettledIff | backend/pipeline/coordinator.py:124-448 | with the queues empty and no worker busy a document is unsettled exactly when a late PROCESSING write overtook its last verdict, or it never had a verdict: its upload dead-lettered, nothing to OCR found, or submitted with every completion that came dead-lettered |
| AtRest.NothingToOcrStaysProcessing | backend/pipeline/coordinator.py:290-296 | an upload with no routed page ends PROCESSING with nothing dead-lettered and no message left |
| Extraction.BuildTableBatches | backend/pipeline/stages/extract.py:117-163 | the grouping loop gives each table its cells, tables in order of first appearance |
| Extraction.BatchesPartitionCells | backend/pipeline/stages/extract.py:117-163 | every cell is in exactly the batch of its table, in order |
| Extraction.ExtractTable | backend/pipeline/stages/extract.py:273-326 | the two-attempt loop: one repair attempt after prose, none after another failure |
| Extraction.DocumentExtractions.Run | backend/pipeline/stages/run_extraction.py:101-201 | a delivery refuses over the ceiling before paying, else pays for each table with no stored answer and stores the answer |
| ExtractionSpend.OverCeilingSpendsNothing | backend/pipeline/stages/run_extraction.py:35-62 | a delivery over the table ceiling makes no premium call and stores nothing |
| ExtractionSpend.AnsweredIsNeverPaidAgain | backend/pipeline/stages/run_extraction.py:65-98 | a table answered under a prompt version is never paid for again under it, over any deliveries |
| ExtractionSpend.SpendIsBounded | backend/pipeline/stages/run_extraction.py:157-201 | over any deliveries with failures anywhere, tables are extracted at most distinct questions plus failed deliveries times and the model invoked at most twice that |
| ExtractionSpend.CompletedDeliveryCoversEveryTable | backend/pipeline/stages/run_extraction.py:157-201 | a completed delivery hands on every extractable table with its stored answer, silence of the locate pass counting as extractable |
| ExtractedTables.WantedAre | backend/pipeline/stages/extract.py:199-262 | every table with a cell is wanted unless the locate pass answered and called it a hardware schedule or other, once, in order of first appearance |
| ExtractedTables.CompletedHandsOn | backend/pipeline/stages/run_extraction.py:133-193 | a completed delivery hands on exactly the tables with a cell that the locate pass did not rule out |
| ExtractedTables.OutcomeIs | backend/pipeline/stages/run_extraction.py:133-280 | a delivery is refused exactly over the ceiling, and completes exactly when every wanted table has its answer, on record or from the model and committed, and nothing after the loop fails |
| ExtractedTables.AnswersAreTheModels | backend/pipeline/stages/run_extraction.py:65-98 | what is handed on or stored is the answer stored before or the model's own, at once or after prose, and none that was stored is replaced |
| ExtractedTables.PaysForWhatItReaches | backend/pipeline/stages/run_extraction.py:157-201 | the runs a delivery pays are exactly its wanted tables without a stored answer that it reaches, with one invocation each, two after prose |
| SoloExtractions.SoloIsDelivered | backend/pipeline/stages/run_extraction.py:101-280 | taken alone, the steps of the overlapping workers spend, store and fail as the sequential run does |
| OverlappingExtractions.OverlappingSpendIsBounded | backend/pipeline/stages/run_extraction.py:65-201 | over every interleaving of deliveries by k workers, tables are extracted at most k times the distinct questions, plus failed deliveries, plus answers still to be stored, and the model invoked at most twice that |
| OverlappingExtractions.OverlappingDeliveriesPayTwice | backend/pipeline/stages/run_extraction.py:178-193 | two workers that read the stored answers before either stores its own pay for one table twice, with no failure |
| StoredAnswers.StoredFieldIsAcceptedIff | backend/pipeline/stages/run_extraction.py:178-203 | a stored field keeps its verdict exactly until its document's rows are replaced, and is then rejected unless it cites nothing; so an accepted value is accepted again exactly when they were not replaced |
| StoredAnswers.ShownIff | backend/pipeline/stages/extract.py:117-197 | the model is shown the id and the text of exactly the rows the view picks |
| StoredAnswers.WriteIs | backend/pipeline/stages/normalize.py:257-313 | a write between storing and reusing is the delete-then-copy call: nothing without elements or over a live citation |
| StoredAnswers.ReusedRecordLosesItsCitations | backend/pipeline/stages/normalize.py:257-288 | a record reused after the document was normalised again links no field to any element |
| HardwareSets.HardwareTable.Persist | backend/pipeline/stages/link.py:448-561 | one set writes a flagged row when unresolved or empty, else one row per described component, and counts itself |
| HardwareSets.HardwareTable.Resolve | backend/pipeline/stages/run_extraction.py:283-381 | the answered sets are persisted in order, then every callout no named set mentioned is recorded as unresolved |
| HardwareSets.CalloutIsOnRecordIff | backend/pipeline/stages/run_extraction.py:283-381 | a callout ends on record exactly when the model did not answer it only with resolved sets whose components all lack a description |
| HardwareSets.ResolvedSetCanVanish | backend/pipeline/stages/link.py:494-506 | the input on which a callout leaves no row |
| HardwareSets.CountersAddUp | backend/pipeline/stages/link.py:468-492 | callouts counted are resolved plus unresolved, and rows written are component rows plus unresolved ones |
| HardwareRows.SetRowsAre | backend/pipeline/stages/link.py:448-561 | a resolved set with components leaves one row for each described one, numbered in order, flagged unless clean; any other leaves one flagged unresolved row |
| HardwareRows.RowsAreInOrder | backend/pipeline/stages/run_extraction.py:343-381 | the sets' rows come one after another in the order of the sets |
| HardwareRows.PersistedAre | backend/pipeline/stages/run_extraction.py:283-381 | the sets the model named are persisted in its order, then each callout it did not name as unresolved; nothing without a callout |
| HardwareRows.CountersAre | backend/pipeline/stages/link.py:468-492 | each counter is the number of sets, resolved sets, other sets, or described components |
| Normalize.TablePass | backend/pipeline/stages/normalize.py:143-151 | the first loop gives each table its page and its appearance ordinal on it |
| Normalize.ChildPass | backend/pipeline/stages/normalize.py:153-161 | the second loop gives each child the last table that lists it |
| Normalize.ElementPass | backend/pipeline/stages/normalize.py:163-205 | the third loop numbers elements by page and type and names cells by the sorted rank of their table |
| Normalize.ParseBlocks | backend/pipeline/stages/normalize.py:98-207 | the three passes produce exactly the specified elements, or the first block whose page the map does not have |
| ElementContents.ParsedIff | backend/pipeline/stages/normalize.py:119-169 | normalisation succeeds exactly when every table and every block that becomes an element is on a page the map has, counting from the end for zero and negative pages |
| ElementContents.FailureNamesTheFirst | backend/pipeline/stages/normalize.py:119-151 | a failure names the page of the first table off the map, or of the first element when the tables are on it |
| ElementContents.ElementCarriesItsBlock | backend/pipeline/stages/normalize.py:163-205 | the element of each kept block has that block's text, header flag, confidence over 100, indices one less or none, type, page and its own place as reading order |
| ElementContents.PlaceIsCount | backend/pipeline/stages/normalize.py:163-205 | elements come in the order of their blocks, one for each block of a kept type |
| ElementContents.IndexCountsEarlierBlocks | backend/pipeline/stages/normalize.py:169-171 | an element's index is the number of earlier blocks of its page and type |
| ElementContents.TableIsTheLastLister | backend/pipeline/stages/normalize.py:143-183 | an element's table is the last TABLE block that lists its block, named by page and by the tables before it there; only a cell of a table has a cell path, with the rank of its table's id |
| ElementContents.PathText | backend/pipeline/stages/normalize.py:181-183 | what the two kinds of path look like as text |
| ElementIdentity.RenderInjective | backend/pipeline/stages/normalize.py:181-183 | no two element identities render to the same path text |
| ElementIdentity.PathsAreDistinct | backend/pipeline/stages/normalize.py:134-183 | over all block lists, even with repeated ids, element paths are pairwise distinct |
| ElementIdentity.TableNamesAreDistinct | backend/pipeline/stages/normalize.py:143-151 | with unique table ids, distinct tables have distinct (page, ordinal) names and so distinct table ids |
| ElementIdentity.RepeatedTableIdCollides | backend/pipeline/stages/normalize.py:143-151 | the input on which a repeated block id gives two tables one name |
| PageLocality.PageLocal | backend/pipeline/stages/normalize.py:119-205 | what is produced for a page depends only on the blocks of that page |
| PageLocality.SubsetsAgreeOnAPage | backend/pipeline/stages/normalize.py:119-205 | two runs over different routed subsets that give a shared page the same blocks give it identical identities |
| BlockRenaming.JobsAgreeOnAPage | backend/pipeline/stages/normalize.py:119-205 | two jobs with ids of their own agree on a page they share in all but the table's rank in a cell's path, and in that too if the ids sort the page's tables alike |
| BlockRenaming.FreshIdsKeepAllButTableRanks | backend/pipeline/stages/normalize.py:143-199 | any injective renaming of block ids keeps table ids, indices, texts, types and pages |
| BlockRenaming.FreshIdsKeepPathsIff | backend/pipeline/stages/normalize.py:178-183 | it keeps paths exactly when each table with a cell keeps its rank among its page's sorted ids; keeping the sort order is enough, and needed once every table has a cell |
| BlockRenaming.FreshIdsCanMovePaths | backend/pipeline/stages/normalize.py:178-183 | two one-cell tables whose exchanged ids move a cell's path |
| BlockIds.SortedIndexIsRank | backend/pipeline/stages/normalize.py:178-180 | the index in the sorted id list is the number of ids that sort before |
| PageMap.RoutedPagesAre | backend/pipeline/stages/preprocess.py:422-437 | the routed pages are the pages with a paid route, each once, ascending |
| PageMap.MapsBackIffPrefix | backend/pipeline/stages/normalize.py:119-132 | the map read at completion is right exactly when the submitted pages are a prefix of it, or, when it is empty and passes pages through, are 1, 2, 3 and so on |
| PageMap.UnchangedManifestMapsBack | backend/pipeline/coordinator.py:221-241 | with an unchanged manifest whatever Textract found on the pages sent is normalised, every element on the routed page its block was read from, every element from a block |
| PageMap.ForceReadKeepsMapIff | backend/api/projects/views.py:305-337 | for every route: forcing a page mid-flight to be read keeps the map right exactly when it was routed already or lies after every routed page, and forcing it not to be read exactly when it was not routed or was the only routed page and page 1 |
| PageMap.ForcedSkipMovesPages | backend/api/projects/views.py:305-337 | two routed pages, the first forced to SKIP: what was read on page 1 comes back as page 2 |
| ElementStore.DocElementTable.BulkInsert | backend/pipeline/stages/normalize.py:257-313 | delete-then-copy replaces one document's rows with fresh ids, does nothing for no elements, and fails whole on a live citation |
| ElementStore.ReplacementConverges | backend/pipeline/stages/normalize.py:257-313 | a re-run converges on the same elements, touches no other document, and no earlier row id survives |
| ElementStore.ReplacedAreDistinct | backend/pipeline/stages/normalize.py:257-313 | no two rows ever share an id |
| Rounding.HalfUpIsNearest | backend/api/quotes/pricing_ops.py:41-47 | the half-up coefficient is the nearest integer, away from zero on a tie |
| Rounding.HalfUpUnique | backend/api/quotes/pricing_ops.py:41-47 | and the only such integer |
| Rounding.PlacesKept | backend/api/quotes/pricing_ops.py:303-311 | a 28-digit quotient keeps enough places for a 28-digit coefficient and no more |
| Rounding.DoubleRoundingIsExact | backend/api/quotes/pricing_ops.py:303-311 | rounding a quotient to 28 digits half-even and then to four places half-up is exact rational half-up, for all dividends below 10^23 and any divisor |
| ReferenceData.EffectiveOnIsNewest | backend/api/pricing/models.py:25-30 | a lookup returns a row in force than which none in force is later, none exactly when there is none, and the only such row under the uniqueness constraint |
| ReferenceData.HistoryIsReproducible | backend/api/pricing/models.py:25-30 | a lookup as of a day depends only on the rows of its key in force by then, in whatever table and order |
| ReferenceData.LaterRowsAreInvisible | backend/api/pricing/models.py:241-257 | appending later-dated rows changes no earlier lookup |
| ReferenceData.OnlyOhioAndKentuckyTax | backend/api/pricing/models.py:304-317 | whatever rows exist, only OH and KY are taxed, at a rate of their own in force |
| ReferenceData.TaxRateIff | backend/api/pricing/models.py:304-317 | a jurisdiction is taxed exactly when, trimmed and upper-cased, it is OH or KY and a row for that code is in force; the row is the newest |
| ReferenceData.MultiplierIff | backend/api/pricing/models.py:241-257 | a multiplier is found exactly when the vendor has a row in force, of the tier when one is named; the row is the newest |
| Texts.StripIs | backend/api/pricing/models.py:314 | stripping takes whitespace off both ends and leaves the rest |
| Texts.UpperIs | backend/api/pricing/models.py:314 | upper-casing maps the letters a to z one for one and leaves other characters |
| ReferenceData.TaxLookupFoldsCase | backend/api/quotes/pricing_ops.py:91-95 | the tax lookup does not see the case of its argument, so the cache may fold it |
| ReferenceData.CacheIsTransparentIff | backend/api/quotes/pricing_ops.py:58-95 | over a run of reads every cached answer is the direct lookup exactly when reads that share a key agree |
| ReferenceData.TaxReadsAreDirect | backend/api/quotes/pricing_ops.py:91-95 | any run of cached tax reads equals direct lookups |
| ReferenceData.MultiplierReadsAreDirectIff | backend/api/quotes/pricing_ops.py:85-89 | cached multiplier reads equal direct ones exactly when no vendor is read both without a tier and with the empty tier, unless the two agree |
| ReferenceData.MultiplierReadsCanDiffer | backend/api/quotes/pricing_ops.py:85-89 | two multipliers of one vendor, and the two reads of which the second is answered with the other's row |
| ReferenceData.ReferenceCache.MarginBand | backend/api/quotes/pricing_ops.py:80-83 | a valid cache answers with the direct lookup and stays valid |
| ReferenceData.ReferenceCache.Multiplier | backend/api/quotes/pricing_ops.py:85-89 | the same for every tier but the empty one |
| ReferenceData.ReferenceCache.TaxRate | backend/api/quotes/pricing_ops.py:91-95 | the same for any jurisdiction text |
| Pricing.QuoteLine.ResolveCost | backend/api/quotes/pricing_ops.py:102-164 | the waterfall: a positive cost stays with its source, else list times multiplier, else list flagged, else as entered flagged |
| Pricing.QuoteLine.MarkStaleness | backend/api/quotes/pricing_ops.py:183-201 | a cost is stale when dated before the freshness window of months of thirty days |
| Pricing.QuoteLine.SumAdders | backend/api/quotes/pricing_ops.py:208-221 | the adders that are numbers are summed exactly and rounded to cents once |
| Pricing.QuoteLine.ResolveMargin | backend/api/quotes/pricing_ops.py:224-243 | an override stands; else the item's band in force, else the line's own margin |
| Pricing.QuoteLine.CheckFloor | backend/api/quotes/pricing_ops.py:246-260 | the flag says whether the margin is below the floor of the line's band, or of the item's |
| Pricing.QuoteLine.PriceLine | backend/api/quotes/pricing_ops.py:267-315 | the row saved is the specified one, or the margin error is raised and the stored row keeps its value |
| Pricing.QuoteLine.ApplyRfqPrice | backend/api/quotes/pricing_ops.py:412-421 | a returned price is entered as the line's cost, dated and unflagged, and the line repriced |
| PricingLaws.SaleEachIsHalfUp | backend/api/quotes/pricing_ops.py:303-311 | within the columns the unit price is exact half-up of base over one minus margin |
| PricingLaws.SaleCoversCost | backend/api/quotes/pricing_ops.py:303-311 | for margins in [0, 1) the unit price is never below cost plus adders |
| PricingLaws.ExtendedErrorBound | backend/api/quotes/pricing_ops.py:303-312 | extended is within 0.005 + 0.00005 * quantity of quantity * base / (1 - margin) |
| PricingLaws.PricedFigures | backend/api/quotes/pricing_ops.py:296-312 | a priced line's figures are those of its own stored cost, adders, margin and quantity |
| PricingLaws.ListCostUsesTheNewestMultiplier | backend/api/quotes/pricing_ops.py:144-158 | a freshly sourced list cost is list times the newest multiplier in force for the vendor, half-up, with its row kept; list price and a flag exactly when the vendor has none in force |
| PricedLines.SoldAtTheBandsTarget | backend/api/quotes/pricing_ops.py:224-312 | a line that is not freight, not overridden and whose item names a band with a row in force is sold at the target of the newest such row, any other keeps margin and band; the unit price is half-up of cost plus adders over one minus that margin |
| PricedLines.ErrorIs | backend/api/quotes/pricing_ops.py:291-301 | the error is raised for a margin sold at of one or more, and never for freight |
| PricedLines.BelowFloorIff | backend/api/quotes/pricing_ops.py:246-260 | the flag is set exactly when the margin is below the floor of the line's band or, without one, of the newest row of its item's band |
| PricedLines.CostIs | backend/api/quotes/pricing_ops.py:102-201 | the whole waterfall column by column, and the line is stale exactly when its cost is dated more than the window's months of thirty days before the day |
| PricedLines.FreightIsNotComputed | backend/api/quotes/pricing_ops.py:283-289 | a freight line is sold at its entered cost times its quantity or one, and nothing else of it changes |
| PricedLines.VendorPriceIsEntered | backend/api/quotes/pricing_ops.py:412-420 | a vendor's price is entered half-up to four places, dated, and clears the flag |
| PricedLines.AddersAddUp | backend/api/quotes/pricing_ops.py:208-221 | the adder total is the sum of the adders that are numbers, in any common unit, half-up to cents |
| PricingLaws.ConstraintsExcludeTheError | backend/api/quotes/models.py:259-262 | under the database's margin constraints the 100% error cannot be raised, and pricing keeps them |
| PricingLaws.PricingAgainChangesNothing | backend/api/quotes/pricing_ops.py:267-315 | pricing a priced line again on the same terms changes no column |
| PricingLaws.RepricingKeepsWhatWasEntered | backend/api/quotes/pricing_ops.py:128-136 | over any run of repricings with changing tables, dates and catalogue, a positive cost keeps its value and source, and an override its margin |
| PricingLaws.VendorPriceSticksIffPositive | backend/api/quotes/pricing_ops.py:412-423 | the returned price is what the line is costed at, with nothing to review, exactly when it rounds to something positive or the line is freight |
| PricingLaws.ZeroVendorPriceIsReplaced | backend/api/quotes/pricing_ops.py:128-164 | a returned price of 0.00 on an item listed at 100.00 leaves the line costed at 100.00 and flagged |
| Assembly.PriceLines | backend/api/quotes/pricing_ops.py:355-359 | lines are priced and saved in order up to the first that raises, the others stay as stored |
| Assembly.SectionSubtotals | backend/api/quotes/pricing_ops.py:372-377 | the dictionary holds what each section's lines come to, and its values what all come to |
| Assembly.StoreSubtotals | backend/api/quotes/pricing_ops.py:378-383 | each line stores its section's total, a freight line zero, and nothing else changes |
| Assembly.Quote.Total | backend/api/quotes/pricing_ops.py:385-394 | subtotal, rate, tax and grand total from the goods and the rate in force |
| Assembly.Quote.Assemble | backend/api/quotes/pricing_ops.py:340-409 | the quote and lines stored are the specified ones; when a line raises, the lines before it stay priced and the totals stay |
| Assembly.Quote.ApplyRfqPrice | backend/api/quotes/pricing_ops.py:412-423 | the returned price is entered on its line and the quote reassembled, exactly when neither step raises |
| Ledger.PostKeepsBalance | backend/api/quotes/pricing_ops.py:372-377 | one dictionary update keeps the totals by key and their sum right |
| Ledger.TotalsAddUp | backend/api/quotes/pricing_ops.py:372-385 | totals by key over any duplicate-free list of all keys add up to the total of everything |
| AssemblyLaws.ConstraintsMakeQuotesPriceable | backend/api/pricing/models.py:126-135 | under the constraints every quote can be assembled |
| AssemblyLaws.SubtotalsAreSectionSums | backend/api/quotes/pricing_ops.py:372-383 | each stored subtotal is the exact sum of extended over the stored lines of its section |
| AssemblyLaws.SectionsAddUp | backend/api/quotes/pricing_ops.py:372-394 | section subtotals add up to the quote's subtotal, and the grand total is exactly subtotal plus freight plus tax |
| AssemblyLaws.TaxWithinHalfACent | backend/api/quotes/pricing_ops.py:390-392 | tax is within half a cent of rate times taxable, and nothing without a rate |
| AssemblyLaws.TaxOnlyInOhioAndKentucky | backend/api/quotes/pricing_ops.py:390-392 | a quote elsewhere is never taxed |
| AssembledFigures.FiguresAreSums | backend/api/quotes/pricing_ops.py:322-385 | on the stored lines: each line of goods carries the extended amounts of the goods in its section, freight zero, and the subtotal those of all goods; sections spelt out |
| AssembledFigures.TaxIs | backend/api/quotes/pricing_ops.py:385-394 | the rate applied is the newest in force for a taxed jurisdiction, none otherwise, tax is that rate of goods and freight half-up to cents, and the total adds all three |
| AssembledFigures.PricedUpToTheFirstError | backend/api/quotes/pricing_ops.py:355-359 | each line is priced on its own up to the first that raises, and none after it |
| AssembledFigures.AssembledLine | backend/api/quotes/pricing_ops.py:355-383 | assembly changes a line's pricing and its subtotal alone |
| AssembledFigures.CanEnterIff | backend/api/quotes/pricing_ops.py:412-423 | a vendor's price can be entered exactly when no line of the quote raises |
| AssembledFigures.EnteringPricesTheLine | backend/api/quotes/pricing_ops.py:412-423 | it leaves that line priced at it and every other line priced as it stood |
| AssemblyLaws.FreightLinesDoNotCount | backend/api/quotes/pricing_ops.py:373-380 | quotes whose lines differ in freight alone have the same totals |
| AssemblyLaws.AssemblingTwiceIsOnce | backend/api/quotes/pricing_ops.py:340-399 | assembling twice on the same terms stores what assembling once stored, in every column |
| QuoteBlocks.GroupLines | frontend/src/lib/quotes.ts:378-412 | the loop gives one block a section in order of first appearance, then the freight block |
| QuoteBlocks.BlocksPartitionTheLines | frontend/src/lib/quotes.ts:378-412 | every line is in exactly one block, as often as it is on the quote |
| BlockContents.SectionBlocksAre | frontend/src/lib/quotes.ts:378-399 | one block for each section in order of first lines, with that section's lines in sheet order and the stored subtotal of the first |
| BlockContents.EveryLineHasItsBlock | frontend/src/lib/quotes.ts:384-410 | every line that is not freight has its section's block, and the freight lines the last one, if there are any |
| BlockContents.SheetOrderIs | frontend/src/lib/quotes.ts:379 | the sheet is in line order, equal ones as they came |
| QuoteBlocks.AssemblyIsAssembled | backend/api/quotes/pricing_ops.py:372-383 | the lines assembly stores are what the block theorems ask for: each line's subtotal is its section's total |
| QuoteBlocks.SectionBlockShowsItsSumIff | frontend/src/lib/quotes.ts:385-398 | a section's block shows its lines' sum exactly when the unsectioned lines of a group of that name come to nothing, so always when no section is named like a group |
| QuoteBlocks.UnsectionedBlockShowsItsSumIff | frontend/src/lib/quotes.ts:385-398 | the exact condition for the block without a section |
| QuoteBlocks.PdfBlockShowsItsSumIff | backend/api/quotes/pdf_export.py:67-79 | a block of the PDF shows its lines' sum exactly when its lines outside its first line's section come to as much as that section's lines in other groups |
| QuoteBlocks.UnsectionedBlockCanMislead | frontend/src/lib/quotes.ts:385-398 | two unsectioned lines of 100.00 and 50.00 whose block shows 100.00 |
| QuoteBlocks.SectionBlockCanMislead | frontend/src/lib/quotes.ts:385-398 | a section named DOOR with a line of 100.00 beside an unsectioned door line of 50.00, shown as 150.00 |
| QuoteBlocks.PdfBlockCanMislead | backend/api/quotes/pdf_export.py:67-79 | two door lines of 100.00 and 50.00 in two sections, whose PDF block shows 100.00 |
| Matching.EligibleIffItSuits | backend/pipeline/stages/match.py:220-309 | a candidate is eligible exactly when rated at least as required, of no other hand and of no other division, whatever its scores |
| CandidateScores.VerdictsAre | backend/pipeline/stages/match.py:220-387 | a candidate's verdicts one by one, over-specification, the wanted finish and the other vendor, on the criteria and the catalogue row |
| CandidateScores.ScoresAre | backend/pipeline/stages/match.py:316-404 | the five soft scores, case by case |
| CandidateScores.ConfidenceIs | backend/pipeline/stages/match.py:411-475 | no confidence for an item that does not suit, 0.98 for the named part, else the weighted sum to the nearest four places, even on a tie |
| CandidateScores.OffersAreSorted | backend/pipeline/stages/match.py:572-601 | suitable items are ranked and the others turned away in the order offered; an opening with rating or handing unread ranks and rejects nothing |
| Matching.ConfidenceIsAFraction | backend/pipeline/stages/match.py:48-58 | confidences are in [0, 1] for every similarity function |
| Matching.TextIsWorthAtMost | backend/pipeline/stages/match.py:394-404 | two similarity functions place an item within 0.15 of each other, and alike when it is ineligible or the named part |
| Matching.ExactFinishOutranksText | backend/pipeline/stages/match.py:316-337 | of two items alike but for finish and description, the wanted finish outranks any other for every similarity function |
| Matching.TextCanOutrankStock | backend/pipeline/stages/match.py:48-52 | the input on which description similarity outweighs stock |
| Matching.AcceptedIsTopN | backend/pipeline/stages/match.py:591-601 | accepted and left-out candidates are the eligible ones, best first, none left out beats one accepted |
| Matching.TiesKeepOfferedOrder | backend/pipeline/stages/match.py:591-601 | of equally confident candidates the first offered are accepted, in that order, before any left out |
| Matching.AcceptedItemsSuit | backend/pipeline/stages/match.py:549-601 | every accepted candidate is the score of an offered item that suits, of an opening whose rating and handing are each known or positively absent |
| Matching.ProposedIff | backend/pipeline/stages/match.py:549-620 | PROPOSED exactly when the rating is known or positively absent, the handing too, and a suitable item reaches the cut-off |
| CatalogIndex.CatalogSnapshot.constructor | backend/pipeline/stages/match.py:496-500 | the index holds each division's items in catalogue order |
| CatalogIndex.CatalogSnapshot.CandidatesFor | backend/pipeline/stages/match.py:511-524 | the items offered are the division's and the unfiled ones, or all |
| CatalogIndex.IndexIsTransparent | backend/pipeline/stages/match.py:511-524 | matching over the index gives the confidence sequence and status that scoring the whole catalogue gives |
| MatchStore.MatchTable.PersistMatches | backend/pipeline/stages/match.py:632-683 | the rows of one opening or component are replaced by the accepted candidates ranked from 1 |
| MatchStore.MatchTable.MatchProject | backend/pipeline/stages/match.py:686-728 | every opening and every component of its group is matched in turn; the five counters returned are those of the run |
| MatchStore.EveryOpeningIsCounted | backend/pipeline/stages/match.py:706-713 | every opening is counted once, as proposed or manual |
| MatchStore.MatchWith | backend/pipeline/stages/match.py:549-620 | the matcher of a run, through the snapshot, is the specified one |
| MatchedRows.CriteriaAre | backend/pipeline/stages/match.py:99-161 | what a door and a component are matched on: the opening's constraints in Division 08 and its finish; size for a door, manufacturer and part for a component |
| MatchedRows.JoinSkipsBlanks | backend/pipeline/stages/match.py:100-146 | the description leaves blank parts out |
| MatchedRows.JoinOfMore | backend/pipeline/stages/match.py:100-146 | and puts one space between each two |
| MatchedRows.SetIs | backend/pipeline/stages/match.py:731-747 | the components of a group are its resolved ones, by index |
| MatchedRows.OfferedIff | backend/pipeline/stages/match.py:511-524 | an item is offered exactly when it is of the division asked for or of none |
| MatchedRows.RunLeavesItsResults | backend/pipeline/stages/match.py:686-728 | a whole run leaves for every opening and every resolved component of its group exactly the candidates accepted for it, with item, rank, confidence and status |
| MatchedRows.EveryRowHasAnOrigin | backend/pipeline/stages/match.py:632-728 | over every run each stored row came from an opening some run visited, by that opening's rating and handing in Division 08, with an item of that run's catalogue |
| MatchedRows.CountersAre | backend/pipeline/stages/match.py:693-728 | each of the five counters is the number it is named for |
| MatchSafety.PlansAreSound | backend/pipeline/stages/match.py:572-601 | a run's matcher accepts only items that suit the opening's rating and handing in Division 08, and nothing when either was neither read nor stated absent |
| MatchSafety.RematchReplacesRows | backend/pipeline/stages/match.py:632-674 | matching again leaves for an opening or component exactly the new result, ranked from 1 best first, and every other row as it was |
| MatchSafety.StoredRowsAreSound | backend/pipeline/stages/match.py:632-674 | over every run of matching, review and deletion each stored row's item satisfies the constraints it was matched against, and rating and handing were each known or positively absent |
| MatchSafety.UnresolvedKeepsNoRowsIff | backend/pipeline/stages/match.py:572-590 | after a run an unresolved opening keeps rows only for components outside its present group, and so none exactly when it had none of those |
| MatchSafety.FormerGroupRowStays | backend/pipeline/stages/match.py:632-674 | an unresolved opening moved to another group keeps the row of its former group's component |
| Draft.BestMatchIsBest | backend/api/quotes/draft_ops.py:38-54 | the chosen match has the best status there is and the lowest rank in it, never MANUAL; none exactly when there is neither |
| Draft.TiesTakeTheFirst | backend/api/quotes/draft_ops.py:38-54 | of equally ranked matches of that status the first is taken |
| Draft.QuoteDraft.CreateDoor | backend/api/quotes/draft_ops.py:141-163 | a door's line and its components' lines are appended with running numbers |
| Draft.QuoteDraft.EnsureFreightLine | backend/api/quotes/draft_ops.py:212-229 | a freight line is added exactly when there is none |
| Draft.QuoteDraft.Rebuild | backend/api/quotes/draft_ops.py:134-166 | the transaction stores the assembled kept, created and freight lines, or rolls everything back |
| Draft.QuoteDraft.GenerateLines | backend/api/quotes/draft_ops.py:98-178 | refuses unless DRAFT, and over existing lines unless replacing, changing nothing; else rebuilds |
| Redraft.RedraftedRows | backend/api/quotes/draft_ops.py:134-166 | drafting again over stored kept and freight rows stores the same rows and entries |
| DraftLaws.GeneratedLinesAreThePlan | backend/api/quotes/draft_ops.py:98-209 | opening-linked lines are the flattening of doors and their resolved components in door order, numbered 1 to n, with the planned match, item and quantity |
| DraftedLines.LinesAre | backend/api/quotes/draft_ops.py:134-209 | door by door in door order there is one line for the door and one for each of its components, numbered through, with its opening and component, the component's quantity or one, and the best match's item or none and a flag |
| DraftedLines.GeneratedArePriced | backend/api/quotes/draft_ops.py:181-209 | every generated line is a blank line priced: nothing is entered on it but item, place and quantity |
| DraftedLines.NewLinesAreBlank | backend/api/quotes/draft_ops.py:181-229 | a new line, freight included, has no adders, no override, no margin, no figures, and no cost but freight's |
| DraftedLines.HardwareIs | backend/api/quotes/draft_ops.py:243-282 | a door's components are the resolved ones of its group, by index, and none without a group |
| DraftedLines.DoorOrderIs | backend/api/quotes/draft_ops.py:122-126 | every opening has its place in the order of door numbers, equal ones as read |
| DraftedLines.FreightAddedIff | backend/api/quotes/draft_ops.py:212-229 | a freight line for the quote's freight amount is added exactly when neither kept nor created lines have one |
| DraftedLines.RefusalIs | backend/api/quotes/draft_ops.py:116-132 | which of the three refusals, exactly when |
| DraftedLines.FlaggedIs | backend/api/quotes/draft_ops.py:181-209 | the count of lines needing review is that of planned lines without a match |
| DraftLaws.HandAddedLinesAreKept | backend/api/quotes/draft_ops.py:102-113 | lines without an opening come through with quantity, positive cost and override |
| DraftLaws.ExactlyOneFreightLineIff | backend/api/quotes/draft_ops.py:212-229 | exactly one freight line exactly when kept and created lines hold at most one between them, and never none |
| DraftLaws.TwoFreightLinesStay | backend/api/quotes/draft_ops.py:212-229 | two freight lines entered by hand are both still there after generating |
| DraftLaws.RegeneratingChangesNothing | backend/api/quotes/draft_ops.py:98-178 | regenerating with unchanged inputs gives the same totals and lines up to ids |
| DraftLaws.PlacedItemsSuit | backend/api/quotes/draft_ops.py:137-209 | over any match history every item placed on a line is from an accepted or proposed match for that opening and component and passed rating, handing and division |
| QuoteLifecycle.QuoteDesk.Edit | backend/api/quotes/views.py:247-304 | a line change goes through exactly when the quote read was DRAFT |
| QuoteLifecycle.QuoteDesk.Approve | backend/api/quotes/views.py:128-167 | approval goes through exactly when the quote read was DRAFT with no line to review |
| QuoteLifecycle.QuoteDesk.RequestExport | backend/api/quotes/views.py:180-199 | an export is queued only for a quote read as APPROVED or EXPORTED |
| QuoteLifecycle.QuoteDesk.Render | backend/pipeline/coordinator.py:546-566 | the worker, unless it read DRAFT, renders the stored lines under the totals it read, on any redelivery |
| QuoteLifecycle.QuoteDesk.MarkExported | backend/pipeline/coordinator.py:567-572 | the save that follows a rendering marks the quote EXPORTED without looking again |
| QuoteLifecycle.QuoteDesk.Destroy | backend/api/quotes/views.py:60-67 | only a quote read as DRAFT is deleted |
| QuoteLifecycle.QuoteDesk.RecordPrice | backend/api/quotes/views.py:330-351 | a vendor price is entered and the quote reassembled whatever the status; a price that cannot be taken changes nothing |
| QuoteRequests.GoesThroughIff | backend/api/quotes/views.py:60-199 | which requests go through on a quote that is there, by its status and its lines |
| QuoteRequests.EffectIs | backend/api/quotes/views.py:128-199 | what each request that goes through leaves of the quote |
| QuoteRequests.RefusedChangesNothing | backend/api/quotes/views.py:128-199 | one that does not changes nothing |
| QuoteRequests.RecordedPriceIs | backend/api/quotes/views.py:330-351 | a recorded price prices its line, the others as they price, when no line raises, and else changes nothing |
| QuoteRequests.DraftIsExported | backend/pipeline/coordinator.py:546-572 | a draft with nothing to review, approved, requested, rendered and marked, ends EXPORTED with one PDF of what was approved |
| QuoteRequests.DraftToReviewStays | backend/api/quotes/views.py:128-167 | a draft with a line to review goes nowhere |
| QuoteLifecycle.GuardedRunsKeepTheGate | backend/api/quotes/views.py:105-199 | over every run of guarded requests that nothing overtook, exports happen only after an approval with nothing to review and show what was approved |
| QuoteLifecycle.StatusOnlyMovesForward | backend/api/quotes/views.py:128-167 | status moves only DRAFT to APPROVED by approval and APPROVED to EXPORTED by the worker |
| QuoteLifecycle.ApprovedContentStays | backend/pipeline/coordinator.py:557-572 | what was approved stays what was approved for the rest of the run |
| QuoteLifecycle.WriteKeepsGateIffSafe | backend/api/quotes/views.py:247-304 | a write keeps the gate exactly when the quote, as it is when the write lands, is in the status its guard asks for or the write changes nothing |
| QuoteLifecycle.GateHoldsIffEveryWriteIsSafe | backend/api/quotes/views.py:330-351 | for every run, unguarded and overtaken requests included, the gate holds all along exactly when every write was safe where it landed |
| QuoteLifecycle.RecordedPriceBreaksTheGate | backend/api/quotes/views.py:330-351 | any positive returned price that differs from a line's cost, entered after approval, changes what was approved |
| QuoteLifecycle.OvertakenEditBreaksTheGate | backend/api/quotes/views.py:262-276 | an edit that read DRAFT and lands after an approval breaks it |
| QuoteLifecycle.OvertakenApprovalMovesBack | backend/api/quotes/views.py:157-163 | an approval that lands after the export moves the quote back to APPROVED |
| QuoteLifecycle.OvertakenRenderMixes | backend/pipeline/coordinator.py:557-566 | a price entered between the worker's reading and its rendering gives a PDF of new lines under old totals |
| Gate.AcceptedIffTraceable | backend/pipeline/llm/validators/gate.py:116-175 | a value is accepted exactly when it is not blank, cites, cites only what was shown, and is found there |
| FieldVerdicts.VerdictIs | backend/pipeline/llm/validators/gate.py:116-175 | which verdict and which code, exactly when, and when there is a score |
| FieldVerdicts.CitedTextIs | backend/pipeline/llm/validators/gate.py:161 | the cited text is the elements' texts with a space between each two |
| Gate.LowestIsLowest | backend/pipeline/llm/validators/gate.py:223-248 | the OCR part is the lowest measured confidence of the cited elements |
| Gate.PenaltyIsAFraction | backend/pipeline/llm/validators/gate.py:210-220 | the completeness penalty is in [0, 1] |
| FieldVerdicts.PenaltyForIs | backend/pipeline/stages/link.py:158-164 | the penalty is the share of expected fields returned with a value that is not empty, at most one |
| Gate.FinalNeverExceedsItsInputs | backend/pipeline/llm/validators/gate.py:223-254 | the final confidence never exceeds the model's nor any cited element's, and is absent exactly when all are |
| Link.LinkStats.LinkField | backend/pipeline/stages/link.py:166-266 | one field's result and its effect on each counter |
| Link.LinkStats.LinkFields | backend/pipeline/stages/link.py:136-268 | the loop returns the results in order and adds the counters up |
| Link.OneResultPerField | backend/pipeline/stages/link.py:166-268 | one result per expected field, in order, and rejected ones carry no citation |
| Link.CountersAddUp | backend/pipeline/stages/link.py:184-250 | for every gate, emitted is accepted plus rejected for citation plus rejected for grounding, and the rejected are those so marked |
| Link.ZeroToleranceIsCleanIff | backend/pipeline/stages/link.py:230-250 | a zero-tolerance field is AUTO exactly when a value was accepted and measured at or above its own floor |
| FieldVerdicts.StateIff | backend/pipeline/stages/link.py:166-266 | the state of every field: rejected exactly by the gate, flagged exactly when not returned, absent or unmeasured at zero tolerance, or below its own floor |
| FieldVerdicts.FieldHolds | backend/pipeline/stages/link.py:166-266 | what a linked field holds; its OCR part is the lowest measured confidence among the elements it cites, its final one the lesser of that and the model's, scaled |
| FieldVerdicts.FinalIsNoHigher | backend/pipeline/stages/link.py:216-266 | no final confidence exceeds the model's or that of any element the field cites |
| FieldVerdicts.CountersAre | backend/pipeline/stages/link.py:184-250 | each of the six counters is the number of fields it is named for |
| Link.CleanZeroToleranceIsTraceable | backend/pipeline/stages/link.py:230-250 | with the real gate such a field is not blank, cites what was shown and is found there |
| Backtracking.MatchIffPossible | backend/pipeline/parsers/size.py:39-45 | the matcher finds a match exactly when there is one, and the one that prefers longer runs from the left |
| SizeParser.ParsedSizesAreInRange | backend/pipeline/parsers/size.py:70-111 | nothing parses outside 0 to 1199 inches, and a parse gives both dimensions or a flag |
| SizeParser.ShorthandRule | backend/pipeline/parsers/size.py:84-93 | four digits are feet, inches, feet, inches, flagged exactly when a dimension has zero feet |
| SizeParser.ExplicitParsesIff | backend/pipeline/parsers/size.py:95-111 | a trimmed text that is no shorthand is read exactly when it can be read as two dimensions at all |
| SizeParser.RoundTripIff | backend/pipeline/parsers/size.py:114-121 | parsing a printed size returns it exactly for dimensions from 0 to 1199 inches |
| SizeParser.ReparsingChangesNothing | backend/pipeline/parsers/size.py:70-121 | printing what parsed and parsing that is the identity, for any text |
| SizeParser.MissingDimensionIsFlagged | backend/pipeline/parsers/size.py:114-121 | a missing dimension prints as nothing and is flagged |
| SizeReadings.BlankIsNoSize | backend/pipeline/parsers/size.py:78-79 | nothing or whitespace alone is flagged as no size, and nothing else is |
| SizeReadings.ShorthandReads | backend/pipeline/parsers/size.py:81-93 | any text that is four digits but for spaces and dashes is twelve times the first plus the second, and the third and fourth, zero feet flagged |
| SizeReadings.ExplicitReads | backend/pipeline/parsers/size.py:39-111 | any other text is read exactly when, trimmed and upper-cased, its characters spell two dimensions, by the reading that takes longer parts first, more than eleven inches flagged |
| Calibration.Curve | ops/scripts/calibrate_threshold.py:121-144 | the loops compute flag and escape rates at every swept threshold |
| Calibration.RowIs | ops/scripts/calibrate_threshold.py:121-144 | a row's threshold, the samples below it and the wrong ones not below it, and both shares |
| Calibration.RowsAre | ops/scripts/calibrate_threshold.py:121-144 | one row for each swept threshold, in order |
| Calibration.CurvesAreMonotone | ops/scripts/calibrate_threshold.py:121-144 | the flag rate never falls and the escape rate never rises with the threshold |
| Calibration.RecommendsTheLowestViable | ops/scripts/calibrate_threshold.py:147-156 | the lowest swept threshold meeting the target is recommended, or nothing exactly when the highest misses it |

## Left out

- HTTP, serializers, authentication, admin, mail, logging and metrics: plumbing.
- Textract, S3, SQS and Bedrock themselves: only token reuse, at-least-once delivery and arbitrary
  replies or failures are kept. `fetch_results` is one loop that concatenates result pages, and the
  token's expiry is not modelled.
- FAKE_OCR, a local path, and reprocess, which deletes job rows and so ends a row's lifetime.
- Preprocessing: rendering, classification, and the cost sum compared with one budget.
- The premium call of hardware resolution and Bedrock's own retries of throttled calls are not
  counted by `ExtractionSpend.SpendIsBounded` and `OverlappingExtractions.OverlappingSpendIsBounded`.
- `StoredAnswers` takes which elements a table's batch shows as any choice among the document's; the
  window of lines beside a table is not modelled.
- Geometry of elements and citations: polygons, boxes and their union.
- Finish, throat-depth and handing lookups, cost reports, model resolution, configuration loading and
  board status: table lookups.
- The 28-digit context is modelled for the quotient of the unit price; products and sums are exact,
  as they are within the columns' 14 and 12 digits. NaN and infinity as adder texts are not modelled.
- Text operations are ASCII: Unicode digits, spaces, case folding and normalisation are not modelled.
- Match scores are exact reals rounded half to even, not binary floating point.
- Query order among equal keys is the given order; lookups are unique under the table constraints.
- Notes, descriptions, review notes and rejection texts of lines, matches and fields.
- MatchStore.MatchTable.MatchProject: takes the matcher as a parameter, because it is pure; `MatchWith`
  ties the real one to the snapshot.
- QuoteLifecycle.QuoteDesk.RecordPrice: stores what the specification gives that
  `Assembly.Quote.ApplyRfqPrice` is proved against, and does not call it on line objects.
- DocumentRuns follows a document's status and takes Textract's job id as given; who is paid for is
  `OcrSubmission`'s matter.
- Draft.QuoteDraft.Reassemble: assembles rows by the specification that `Assembly.Quote.Assemble` is
  proved against, not by calling it on line objects.
- Pricing.QuoteLine.PriceLine: a line's columns are held as one record of grouped columns, so updates of
  single columns are record updates.
