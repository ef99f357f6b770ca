# E-invoicing core: a verified model

A Dafny model of the parts of the e-invoicing system where a mistake costs money or a refused submission, with proofs
of what they promise. `dafny verify dfyconfig.toml` checks all of it.

- **Canonical text** (`Json`, `JsonText`, `CanonicalServer`, `CanonicalAgent`, `CanonicalText`, `CanonicalLeaves`): the
  string that is hashed and signed, built by the server and, by a differently shaped walk, by the desktop agent. The laws
  it obeys, when the two agree, exactly, and what the string says about the document.
- **Money and taxes** (`Money`, `TaxModes`, `TaxCatalogue`, `TaxEngine`, `TaxProperties`, `TaxOrder`, `TaxUses`,
  `TaxRounding`, `InvoiceLines`, `LineAccuracy`, `DocumentTotals`, `Validator`, `TotalsCheck`, `Recalculation`): ETA's tax
  equations, the passes that compute them, when order matters, rounding, document totals, exactly what the local check
  accepts, and recalculation from stored rows.
- **Payload** (`MoneyText`, `EtaPayload`, `PayloadFields`, `PayloadText`): the amounts written into a document, field by
  field, and read back from it.
- **Usage** (`UsageAggregate`, `UsageRollup`, `UsageSummary`, `UsageAgreement`, `UsageGauge`, `UsageRuns`, `UsageRows`):
  daily and monthly tables rebuilt from an event log, what each row stands for, and exactly when they agree with the log.
- **Archives** (`Bytes`, `Crc32`, `Crc32Values`, `ZipFormat`, `ZipWriters`, `ZipReader`, `ZipFields`, `ZipNames`): two ZIP
  writers, two CRC loops, a reader written from PKWARE's APPNOTE, and the naming of entries.
- **Protocols** (`TokenCache`, `TokenAnswers`, `TokenKeys`, `Devices`, `DeviceRuns`, `DevicePairing`, `Points`,
  `PointsExactly`, `SearchWindows`, `EtaHttp`, `EtaRetries`): single-flight token refresh, device pairing, the points
  ledger, search windows, retries and pacing.
- **Documents** (`Documents`, `DocumentRuns`, `DocumentLocks`, `DocumentRecalculation`, `RecalculatedText`): editing,
  recalculating and signing one document.

`Wrappers`, `Sequences`, `Text`, `Decimals`, `Sums` and `SetSums` hold shared types and facts.

## How it is modelled

- Money is whole piasters; rates, quantities and prices are reals. Times are whole milliseconds.
- Loops are methods proved equal to a function of their input; objects with state are classes whose methods are proved
  equal to a step function on the state; the promises are lemmas about those functions and about whole runs of steps.
- A database transaction is one atomic step, and one that throws changes nothing. Query results without an order come
  in any order. Rows are numbered in creation order in place of random identifiers.
- Hashes are injective and secrets are fresh: a token or code is kept as itself.
- A rejected argument, a missing row or an oversized field is a `Result` or `Option`, as the code returns or throws it.

## Where the code and its promises differ

- Server and agent write booleans, and numbers inside arrays, differently; the exact condition for agreement is proved.
- The duplicate check of tax types compares trimmed text while the engine compares upper-cased codes.
- A rate is stored as displayed, with two decimals, so recalculating a line with a third decimal changes its tax.
- A rebuild of the usage tables never deletes, so a replaced outcome stays counted; the difference is proved to be
  exactly the rows left behind.
- The request that finds a pairing code expired rolls back its own marking, so no code is ever stored as expired.
- Unpairing a device with several linked tills raises the number of slots in use.
- Splitting a range that ends after the epoch never ends for a limit between minus one and one millisecond, both excluded,
  unless the first step leaves the range of dates; a limit of minus a millisecond or less gives windows that hold no
  instant. The exact condition is proved.
- Token cache keys of different slots can be equal when a part has a colon; exactly when is proved.
- The tax rows of a line are read back in no order, so recalculating can change the tax of a line that lists one code twice
  in two spellings. Where it keeps the money it still changes the text that is signed, exactly when the rows show something
  else, entry by entry; swapping two rows is enough.

## Model

| member | source | states |
|---|---|---|
| Json.QuotePrefixFree | packages/eta-core/src/canonical-serialize.ts:10-13 | Quoted literals are self-delimiting: two literals with anything after them are equal only if the strings and the remainders are |
| JsonText.LiteralReadsBack | packages/eta-core/src/canonical-serialize.ts:10-13 | A quoted literal is read back, by RFC 8259 section 7, as the text it was written for |
| JsonText.QuoteIsShortest | packages/eta-core/src/canonical-serialize.ts:10-13 | Every other literal for the same text, with lower-case hexadecimal digits, is longer |
| CanonicalServer.SerializeObject | packages/eta-core/src/canonical-serialize.ts:25-56 | The nested loops append exactly the string defined by recursion on the document: names upper-cased, an array's name repeated per item, null and arrays in arrays silent |
| CanonicalText.CanonObeys | packages/eta-core/src/canonical-serialize.ts:25-56 | A field shows its name in upper case between quotes, then its literal, its quoted number or boolean, its object, or its array items as fields of that name; fields follow one another |
| CanonicalText.CanonIsTheOnlyOne | packages/eta-core/src/canonical-serialize.ts:25-56 | A function from documents to texts obeys these laws if and only if it is the canonical string |
| CanonicalText.CaseDoesNotShow | packages/eta-core/src/canonical-serialize.ts:28-29 | Documents that are equal but for the case of field names, at every depth, have one string |
| CanonicalServer.StripSignatures | packages/eta-core/src/eta-payload.ts:40-47 | The loop returns the document without its signatures field, other fields in order |
| CanonicalServer.OnlySignaturesGo | packages/eta-core/src/eta-payload.ts:40-60 | Exactly the fields named signatures go, and attached ones come last under that name |
| CanonicalServer.AttachOverwrites | packages/eta-core/src/eta-payload.ts:54-60 | Attaching signatures twice is attaching the second ones |
| CanonicalServer.SigningKeepsSignedString | packages/eta-core/src/eta-payload.ts:40-60 | Attaching signatures any number of times leaves the string that is hashed unchanged |
| CanonicalAgent.SerializeToken | apps/agent/src/Einvoice.Agent/CanonicalSerialize.cs:28-85 | The agent's token walk, with its root test and discarded first call, returns the string of the walk on tokens; an empty root object fails because the discarded call dereferences its first child |
| CanonicalAgent.SerializeProperty | apps/agent/src/Einvoice.Agent/CanonicalSerialize.cs:37-67 | The property branch of the walk |
| CanonicalAgent.Serialize | apps/agent/src/Einvoice.Agent/CanonicalSerialize.cs:12 | Serializing a document gives the walk over its properties, or the failure on an empty one |
| CanonicalText.AgentShows | apps/agent/src/Einvoice.Agent/CanonicalSerialize.cs:37-53 | The agent, by its own means, names fields in upper case between quotes as well, and writes booleans as True and False |
| CanonicalAgent.AgentAgreesExactlyOnPortable | apps/agent/src/Einvoice.Agent/CanonicalSerialize.cs:28-85 | Agent and server give the same string if and only if the document is not empty, emits no boolean and has no number or boolean directly in an emitted array |
| CanonicalAgent.AgentSignsServerString | packages/eta-core/src/eta-payload.ts:50-60 | For such documents the agent signs, whatever signatures were attached before, the string the server hashes |
| CanonicalLeaves.CanonicalDeterminesEmittedLeaves | packages/eta-core/src/canonical-serialize.ts:10-56 | For two documents of one shape: equal canonical strings if and only if equal text at every emitted scalar |
| CanonicalLeaves.ShapeIsNeeded | packages/eta-core/src/canonical-serialize.ts:25-56 | Two documents of different shapes can share a string |
| CanonicalLeaves.CanonicalDeterminesAllLeavesExactly | packages/eta-core/src/canonical-serialize.ts:34-47 | The string determines every scalar of a document, among documents of its shape, if and only if no scalar is below an array that is an array item |
| Money.Round | packages/eta-core/src/money.ts:12-21 | The nearest whole piaster, halves away from zero |
| Money.RoundIsNearest | packages/eta-core/src/money.ts:12-21 | Those properties leave only one rounding |
| Money.RoundOdd | packages/eta-core/src/money.ts:12-21 | Rounding a negated amount negates the rounded amount |
| Money.FormatMoneyStable | packages/eta-core/src/money.ts:19-21 | A formatted amount formats to itself |
| TaxModes.CodeOfIsFaithful | packages/eta-core/src/tax-modes.ts:188-217 | The code a tax type is classified by is equal for two texts exactly when they agree after trimming and upper-casing |
| TaxCatalogue.NumberedExactly | packages/eta-core/src/tax-modes.ts:188-217 | A tax type has number n if and only if its text, trimmed and in upper case, is T and the digits of n |
| TaxCatalogue.ClassesByText | packages/eta-core/src/tax-modes.ts:150-217 | Fixed amounts are T3 and T6, taxable fees T5 to T12, other fees T13 to T20, and T4 alone is taken off |
| TaxModes.NormalizeIdempotent | packages/eta-core/src/tax-modes.ts:188-190 | Normalizing twice is normalizing once |
| TaxEngine.ChargeFixedAmounts | packages/eta-core/src/calculate-totals.ts:164-174 | Fixed types take their last given amount, and the first one without an amount is the error |
| TaxEngine.ChargeFees | packages/eta-core/src/calculate-totals.ts:176-186 | Fees are charged on the net once per code, and every occurrence of a taxable fee is added to the fee total |
| TaxEngine.IndexByCode | packages/eta-core/src/calculate-totals.ts:189 | The map from codes to taxes keeps the last tax of each code |
| TaxEngine.ChargeTableAndValueAdded | packages/eta-core/src/calculate-totals.ts:188-200 | T2 on the fee base plus T3, then T1 on that plus T2 |
| TaxEngine.ChargeRemaining | packages/eta-core/src/calculate-totals.ts:202-207 | What is left, T4 on the net less items discount, is charged once per code |
| TaxEngine.ComputeTaxAmounts | packages/eta-core/src/calculate-totals.ts:156-218 | The four passes charge every entry the amount its code has by direct definition, and report the fee total |
| TaxProperties.EngineMeetsEquations | packages/eta-core/src/calculate-totals.ts:113-218 | With one entry per normalized code the charged amounts solve ETA's equations (each amount from the other charged amounts) |
| TaxProperties.EquationsDetermineAmounts | packages/eta-core/src/calculate-totals.ts:113-218 | The equations have at most one solution, so they specify the engine completely |
| TaxOrder.OrderDoesNotMatter | packages/eta-core/src/calculate-totals.ts:156-218 | With one entry per code every permutation of the list charges every code the same and reports the same fees |
| TaxUses.ChargeAlikeExactly | packages/eta-core/src/calculate-totals.ts:156-218 | Two lists of the same codes charge alike in every context if and only if they use the same amount or rate per code, T1 apart when T2 takes back its base |
| TaxUses.OrderNeverMattersExactly | packages/eta-core/src/calculate-totals.ts:156-218 | Every order of a list charges the same in every context if and only if entries of one code agree in the rate or amount (T1 entries may differ when T2 is at -100 percent) |
| TaxUses.RatesApart | packages/eta-core/src/calculate-totals.ts:88-97 | Two rates are told apart by every base far enough from zero |
| TaxRounding.FeesError | packages/eta-core/src/calculate-totals.ts:176-186 | The fee base is within 3.5 piasters of the exact one |
| TaxRounding.StagedRoundingStaysClose | packages/eta-core/src/calculate-totals.ts:156-218 | For any subset of T1 to T20 once each, rates between 0 and 100, the signed taxes are within 20 piasters of the same equations in exact arithmetic |
| InvoiceLines.RepeatedMeaning | packages/eta-core/src/tax-modes.ts:253-265 | A key is reported exactly when it is not blank and occurs at two positions |
| InvoiceLines.FindDuplicateTaxTypes | packages/eta-core/src/tax-modes.ts:253-265 | The loop over two sets returns those keys in the order of their second occurrence |
| InvoiceLines.DuplicateCheckExactlyOver | packages/eta-core/src/tax-modes.ts:253-265 | Over a vocabulary of texts the check passes exactly the lists with unique codes if and only if no text is blank and every code has one spelling up to trimming |
| InvoiceLines.DuplicateCheckMissesCase | packages/eta-core/src/tax-modes.ts:259 | T1 with t1 passes the check although the engine treats them as one code |
| InvoiceLines.EstimateEtaItemTotal | packages/eta-core/src/calculate-totals.ts:124-149 | The running totals are the sums of additive and deductible taxes, and the total is ETA rule 17 |
| InvoiceLines.CalculateLine | packages/eta-core/src/calculate-totals.ts:220-256 | A line is refused exactly for repeated keys or a missing fixed amount; otherwise every field is the defined amount |
| LineAccuracy.ColumnsOfLine | packages/eta-core/src/calculate-totals.ts:218-256 | Sales total is quantity times price to the nearest piaster, halves away from zero; a discount amount wins over a rate of the sales total; net is their difference |
| LineAccuracy.LineTotalFromInputs | packages/eta-core/src/calculate-totals.ts:218-256 | A catalogue line's total is within 63.5 piasters of ETA's equations over quantity, price and discounts without any rounding |
| InvoiceLines.LineTotalEquation | packages/eta-core/src/calculate-totals.ts:220-256 | The line total is net, plus signed taxes, less items discount |
| InvoiceLines.LineTotalIgnoresTaxOrder | packages/eta-core/src/calculate-totals.ts:220-256 | With unique codes the line total is the same for every order of its taxes |
| InvoiceLines.ChargeIgnoresOrder | packages/eta-core/src/calculate-totals.ts:209-215 | So is the charge of each entry |
| InvoiceLines.LineTotalStaysClose | packages/eta-core/src/calculate-totals.ts:124-256 | A catalogue line's total is within 0.20 of the exact equation on its net total |
| DocumentTotals.CalculateDocumentTotals | packages/eta-core/src/calculate-totals.ts:264-296 | The loops return the sums over lines and, per tax type in order of first appearance, the sum of its amounts |
| DocumentTotals.TaxTotalsConserve | packages/eta-core/src/calculate-totals.ts:282-284 | Any weighting by tax type sums to the same over the document's tax totals and over all line taxes |
| DocumentTotals.TaxTotalsOnePerType | packages/eta-core/src/calculate-totals.ts:274-284 | No tax type is listed twice |
| DocumentTotals.TaxTotalIsSumOfLines | packages/eta-core/src/calculate-totals.ts:282-284 | Each listed amount is the sum over all lines of the taxes of that type |
| DocumentTotals.TaxTotalsMembers | packages/eta-core/src/calculate-totals.ts:274-294 | The tax totals hold exactly the charged types with their sums over all lines |
| DocumentTotals.TaxTotalsIgnoreOrder | packages/eta-core/src/calculate-totals.ts:274-294 | Reordering the taxes of lines only reorders the tax totals |
| DocumentTotals.CalculatedIsBalanced | packages/eta-core/src/calculate-totals.ts:220-256 | Every computed line is balanced |
| DocumentTotals.DocumentConservesMoney | packages/eta-core/src/calculate-totals.ts:258-296 | Net is sales less discounts; total is net plus additive less deductible tax totals less both discounts; for any number of balanced lines |
| Validator.ReadTaxes | packages/eta-core/src/local-validator.ts:119-132 | Unreadable entries are skipped and reported as incomplete |
| Validator.CheckEtaTotals | packages/eta-core/src/local-validator.ts:98-200 | The loop pushes exactly the issues of the direct definition, and stops at the lines when something is unreadable |
| TotalsCheck.AcceptsExactly | packages/eta-core/src/local-validator.ts:87-200 | No issue is raised if and only if every line is within half a pound of its equation and, when all can be read, net amount and total are within half a pound of their lines |
| Validator.AcceptedTotalsAreClose | packages/eta-core/src/local-validator.ts:76-200 | A complete document of n lines without issues declares a total within 0.5*(n+1) of the equation summed from net totals and taxes, and a net within 0.5 |
| Validator.DriftIsAttained | packages/eta-core/src/local-validator.ts:76-200 | For every n some accepted document drifts exactly that far |
| Validator.EngineDocumentsPass | packages/eta-core/src/local-validator.ts:98-200 | A document carrying the engine's totals raises no issue, every difference being zero |
| Recalculation.BasesSurvive | apps/api/src/documents/documents.service.ts:1560-1583 | Sales, discount, net and the other bases survive storing and loading, the tax rows up to order |
| Recalculation.SurvivesExactly | apps/api/src/documents/documents.service.ts:1584-1589 | Recalculation charges the same for every context and every order of the rows if and only if every entry is stored with the rate or amount its code used |
| Recalculation.UniqueStableSurvive | apps/api/src/documents/documents.service.ts:1584-1589 | One entry per code and rates of at most two decimals are enough |
| Recalculation.RowOrderChangesTax | apps/api/src/documents/documents.service.ts:1231-1236 | T1 at 14 with t1 at 0 passes the duplicate check, is charged nothing, and is charged 14 percent when its rows come back the other way round |
| Recalculation.StoredLineIsAccepted | apps/api/src/documents/documents.service.ts:1560-1590 | A stored line is never refused, in any order of its rows |
| Recalculation.RecalculationKeepsMoney | apps/api/src/documents/documents.service.ts:408-448 | Such a line recalculates to the same money and the same charges up to order, for every order of its rows, fixed types showing rate 0 |
| Recalculation.SecondRecalculation | apps/api/src/documents/documents.service.ts:1560-1590 | When entries of one code are stored with one rate, a second recalculation charges the same money as the first and stores the line exactly as it read it |
| Recalculation.UniqueRowsAgree | apps/api/src/documents/documents.service.ts:1584-1589 | With one entry per code they are |
| Recalculation.DisplayKeepsTaxExactly | packages/eta-core/src/calculate-totals.ts:99-101 | Storing a rate as displayed keeps its tax on every base if and only if display keeps the rate |
| Recalculation.ThirdDecimalIsLost | packages/eta-core/src/calculate-totals.ts:99-101 | 14.005 percent of 10000 pounds recalculates half a pound higher |
| MoneyText.AmountRoundTrip | packages/eta-core/src/eta-formats.ts:28-34 | An amount written as a JSON number reads back as the same amount |
| EtaPayload.ReadsPayload | packages/eta-core/src/builders/document.ts:71-197 | The local check reads from a payload exactly the stored rows and totals it was built from |
| PayloadFields.TotalsInOrder | packages/eta-core/src/builders/document.ts:140-197 | The totals of a document by name and in the order in which they are signed |
| PayloadFields.TotalsShow | packages/eta-core/src/builders/document.ts:140-197 | And their values |
| PayloadFields.LineInOrder | packages/eta-core/src/builders/document.ts:71-137 | The amounts of a line by name and in order |
| PayloadFields.LineShows | packages/eta-core/src/builders/document.ts:71-137 | And their values |
| PayloadFields.TaxInOrder | packages/eta-core/src/builders/document.ts:106-111 | A tax row has type, amount, subtype and rate, in this order |
| PayloadFields.StoredColumns | apps/api/src/documents/documents.service.ts:408-448 | Stored columns are the computed ones, taxes and all |
| EtaPayload.BuiltPayloadsPass | packages/eta-core/src/builders/document.ts:120-197 | A payload built from the engine's lines and totals raises no issue |
| PayloadText.PayloadsShowExactly | packages/eta-core/src/builders/document.ts:106-111 | Payloads with the same columns and, where the rows show the same, the same totals have one canonical text if and only if the rows show the same, entry by entry |
| PayloadText.ShownAmounts | packages/eta-core/src/builders/document.ts:106-111 | Rows that show the same have the same type, subtype and amount |
| UsageAggregate.GroupByMeter | apps/api/src/analytics/usage-aggregate.ts:76-94 | The map holds, per meter, the selected events in order |
| UsageAggregate.MeterTotal | apps/api/src/analytics/usage-aggregate.ts:96-116 | A counter is the sum; the gauge is the last of the latest readings |
| UsageAggregate.AggregateEventsToTotals | apps/api/src/analytics/usage-aggregate.ts:65-119 | All meters are totalled as by a direct fold over the selected events |
| UsageRuns.AppendIsIdempotent | apps/api/src/analytics/usage-event.service.ts:24-60 | Appending keeps every earlier event and the idempotency keys of a meter unique, leaves the key used, and appending again changes nothing |
| UsageRollup.UsageTables.SetDocumentOutcome | apps/api/src/analytics/usage-event.service.ts:66-96 | All outcomes of the document go and the new one is added, or nothing changes when its key is taken |
| UsageRollup.UsageTables.RebuildRange | apps/api/src/analytics/usage-rollup.service.ts:26-203 | Exactly the buckets with events in the window get the direct total of their events, other rows stay, and every touched month is recomputed |
| UsageRollup.UsageTables.RebuildMonths | apps/api/src/analytics/usage-rollup.service.ts:123-199 | Every month of the set is recomputed from the daily rows |
| UsageRollup.UsageTables.RebuildMonth | apps/api/src/analytics/usage-rollup.service.ts:124-198 | One month's rows become the sums, or last values, of its daily rows |
| UsageRollup.GroupByDay | apps/api/src/analytics/usage-rollup.service.ts:59-78 | Events are grouped by local day, meter and dimensions, only inside the window |
| UsageRollup.UpsertDays | apps/api/src/analytics/usage-rollup.service.ts:80-121 | Each group's row becomes its total |
| UsageRollup.GroupByMonth | apps/api/src/analytics/usage-rollup.service.ts:146-159 | Daily rows are grouped by meter and dimensions |
| UsageRollup.UpsertMonth | apps/api/src/analytics/usage-rollup.service.ts:161-198 | Each group's monthly row is written, others stay |
| UsageRollup.MonthValue | apps/api/src/analytics/usage-rollup.service.ts:162-173 | The sum, or for storage the value of the last day, in whatever order the rows come |
| UsageSummary.SummarizeDailyRows | apps/api/src/analytics/usage-rollup.service.ts:237-269 | The summary of the rows of a window, for any query order, is the sum or the last value of the counted rows |
| UsageAgreement.PaddingSuffices | apps/api/src/analytics/usage-rollup.service.ts:34-37 | The padded query contains every event of the local window, for zones within the padding |
| UsageAgreement.RebuildSeesWindow | apps/api/src/analytics/usage-rollup.service.ts:39-61 | So a rebuild sees exactly the window's events |
| UsageAgreement.SumOverBuckets | apps/api/src/analytics/usage-rollup.service.ts:59-93 | Summing buckets is summing their events |
| UsageAgreement.CounterSummaryIsEventsPlusStale | apps/api/src/analytics/usage-rollup.service.ts:94-121 | After a rebuild a counter is the sum of the counted events plus the stale rows |
| UsageAgreement.CounterDifference | apps/api/src/analytics/analytics.service.ts:85-141 | For every filter, a counter differs from the fold over the log by exactly the sum of its stale rows |
| UsageAgreement.CounterMatchesExactly | apps/api/src/analytics/analytics.service.ts:85-141 | With positive stored values a counter agrees with the log if and only if no counted row has lost all its events |
| UsageRuns.RunsKeepPositive | apps/api/src/analytics/usage-rollup.service.ts:82-121 | In every run on positive quantities the stored values of a counter are positive |
| UsageRuns.RunsMatchExactly | apps/api/src/analytics/analytics.service.ts:85-141 | So in every such run a rebuilt counter agrees with the log if and only if no counted row is stale |
| UsageAgreement.NilBranchFilterFindsNothing | apps/api/src/analytics/usage-rollup.service.ts:252-264 | Filtering by the placeholder branch finds nothing |
| UsageGauge.GaugeSummary | apps/api/src/analytics/analytics.service.ts:85-141 | The gauge is the log's latest reading unless a stale row lies on a later day, and then it is that row's value |
| UsageGauge.AccuracyCompareMatches | apps/api/src/analytics/analytics.service.ts:84-141 | With nothing stale, every meter of the summary equals the fold over the log, for any filter and query order |
| UsageGauge.GaugeMatchesExactly | apps/api/src/analytics/analytics.service.ts:84-141 | The storage gauge equals the log's latest reading if and only if no stale row is later than the log, or the last one says the same |
| UsageGauge.AccuracyMatchesExactly | apps/api/src/analytics/analytics.service.ts:84-141 | With positive stored counters all meters together match the log if and only if no counter counts a stale row and the gauge is not disturbed by one |
| UsageRuns.RebuildKeepsMonthly | apps/api/src/analytics/usage-rollup.service.ts:123-199 | A rebuild keeps: a monthly row exists exactly when a daily row of its month and key does, with their sum or last value |
| UsageRuns.RunsKeepMonthly | apps/api/src/analytics/usage-rollup.service.ts:82-199 | That holds in every state of every run of rebuilds and log changes from empty tables |
| UsageRows.MonthlyRowsExactly | apps/api/src/analytics/usage-rollup.service.ts:123-200 | In every run a monthly row exists if and only if its month has a daily row of the same meter, branch and currency, and holds the sum over exactly those rows, or the value of the last for storage |
| UsageRows.DailyRowsExactly | apps/api/src/analytics/usage-rollup.service.ts:60-120 | A rebuild writes a daily row for exactly the local days, meters, branches and currencies with an event in the window, with their sum or latest value |
| UsageRows.QueryIsExact | apps/api/src/analytics/usage-rollup.service.ts:34-45 | The rebuild queries an event if and only if some time zone puts it on a day of the range |
| UsageRows.SummaryCounts | apps/api/src/analytics/analytics.service.ts:222-245 | Which daily rows a summary counts, with branch, currency and placeholder spelled out |
| UsageRows.KeptEvents | apps/api/src/analytics/usage-event.service.ts:66-96 | Replacing a document's outcome drops exactly its valid and invalid events |
| UsageRows.AppendsExactly | apps/api/src/analytics/usage-event.service.ts:24-60 | An event is appended if and only if no event of its meter has its key |
| UsageRuns.RebuildIsIdempotent | apps/api/src/analytics/usage-rollup.service.ts:39-203 | Rebuilding again from the same events changes nothing, in any query order |
| UsageRuns.RebuildKeepsBacked | apps/api/src/analytics/usage-rollup.service.ts:82-121 | A rebuild creates no stale row |
| UsageRuns.AppendKeepsBacked | apps/api/src/analytics/usage-event.service.ts:24-60 | Nor does appending |
| UsageRuns.OutcomeKeepsBackedExactly | apps/api/src/analytics/usage-event.service.ts:66-96 | Replacing an outcome leaves no stale row if and only if the request is rolled back or every stored bucket of an old outcome of the document is the new one's or holds an event of something else |
| UsageRuns.SupersededOutcomeStaysCounted | apps/api/src/analytics/usage-event.service.ts:66-96 | An outcome replaced on a later day stays counted by the rollups |
| Crc32.BothStepsAreOne | apps/api/src/backup/backup-export.service.ts:79 | The two differently written bit steps are one function |
| Crc32.Crc32OfExports | apps/api/src/exports/zip-store.ts:6-15 | The register loop computes the CRC defined by recursion |
| Crc32.Crc32OfBackup | apps/api/src/backup/backup-export.service.ts:74-83 | So does the other loop |
| Crc32.StepLinear | apps/api/src/exports/zip-store.ts:11 | The step is linear over exclusive or |
| Crc32.StepInjective | apps/api/src/exports/zip-store.ts:11 | The step can be undone |
| Crc32.BlockStep | apps/api/src/exports/zip-store.ts:8-13 | Up to four bytes act on the register as one word mixed in at once |
| Crc32.BurstIsDetected | apps/api/src/exports/zip-store.ts:6-15 | Inputs that differ only inside some four adjacent bytes never share a CRC |
| Crc32Values.MagicNumber | apps/api/src/exports/zip-store.ts:6-15 | Any bytes followed by their CRC leave 0xdebb20e3 in the register, as APPNOTE section 4.4.7 has it |
| Crc32Values.CheckValues | apps/api/src/exports/zip-store.ts:6-15 | No bytes have CRC 0 and the digits 1 to 9 have 0xcbf43926 |
| ZipReader.Field32 | apps/api/src/exports/zip-store.ts:31 | A little-endian field reads back from its four bytes |
| ZipWriters.ExportsLocal | apps/api/src/exports/zip-store.ts:30-43 | Field by field in place: the local file, or a RangeError exactly when name or body is too long |
| ZipWriters.ExportsCentral | apps/api/src/exports/zip-store.ts:46-64 | The central record, or a RangeError exactly when a field does not fit |
| ZipWriters.BackupLocal | apps/api/src/backup/backup-export.service.ts:23-37 | The same header in a buffer that also holds the name |
| ZipWriters.BackupCentral | apps/api/src/backup/backup-export.service.ts:39-58 | The same central record with no flags |
| ZipWriters.WriteEnd | apps/api/src/exports/zip-store.ts:69-78 | The end record, or a RangeError exactly when count, size or offset does not fit |
| ZipWriters.BuildZipStore | apps/api/src/exports/zip-store.ts:21-81 | The archive with running offsets for every list that fits the 16- and 32-bit fields, else the RangeError |
| ZipWriters.ZipStore | apps/api/src/backup/backup-export.service.ts:17-72 | The same for the second writer, on the same lists |
| ZipFields.LocalHeaderFields | apps/api/src/exports/zip-store.ts:30-43 | Every field of a local header by its offset: version 2.0, flags, stored, no time, CRC, sizes, name length |
| ZipFields.CentralHeaderFields | apps/api/src/exports/zip-store.ts:46-64 | What a central record repeats of it |
| ZipFields.CentralPlaceFields | apps/api/src/exports/zip-store.ts:46-64 | CRC, sizes, name length and offset of the local file; no extra field, comment, disk or attributes |
| ZipFields.EndRecordFields | apps/api/src/exports/zip-store.ts:69-81 | The end record counts the entries on disk and in all, and holds size and offset of the directory |
| ZipReader.ReadsBack | apps/api/src/exports/zip-store.ts:21-81 | Reading from the end record through the central directory to the local headers recovers exactly the names and bodies, for every list that fits |
| ZipReader.BothWritersReadBack | apps/api/src/backup/backup-export.service.ts:17-72 | Both writers fail on the same lists and otherwise read back to the same entries |
| ZipNames.CleanedIsPlain | apps/api/src/exports/zip-store.ts:89-99 | The cleaned id has no separator, dot or control character, no two adjacent underscores, and at most 80 characters |
| ZipNameRules.MaskExactly | apps/api/src/exports/zip-store.ts:89-94 | Control characters and \/:*?"<>. and the bar become underscores, others stay |
| ZipNameRules.OnlyUnderscoresGo | apps/api/src/exports/zip-store.ts:95-98 | Up to the cut at 80 only underscores are dropped, at the ends and where they repeat |
| ZipNameRules.GoodIdsStay | apps/api/src/exports/zip-store.ts:89-99 | An id that needs no cleaning is kept |
| ZipNameRules.GoodSuffixesStay | apps/api/src/exports/zip-store.ts:100-102 | A suffix of letters, digits, underscores and hyphens keeps its first twelve; a blank one is "id" |
| ZipNameRules.SuffixLeavesOut | apps/api/src/exports/zip-store.ts:100-102 | Other characters of a suffix are left out |
| Decimals.DigitsInjective | apps/api/src/exports/zip-store.ts:109-110 | Numbers are told apart by their decimal text |
| ZipNames.NumberedInjective | apps/api/src/exports/zip-store.ts:109 | So the numbered names are all different |
| ZipNames.UsedNames.FirstFree | apps/api/src/exports/zip-store.ts:108-109 | The search ends, at the least free number from two |
| ZipNames.UsedNames.SafeInvoicePdfFilename | apps/api/src/exports/zip-store.ts:84-113 | The base name if free, else the least numbered one; never used before, safe, and the one name added |
| ZipNames.NameEntries | apps/api/src/exports/exports.service.ts:941-953 | All names of one archive are safe and different |
| TokenCache.RunKeepsInv | apps/api/src/eta/eta-token.cache.ts:86-112 | In every interleaving the in-flight map holds exactly the live jobs, producers run only after nothing fresh was found, and answers are their job's |
| TokenCache.OneLiveJobPerKey | apps/api/src/eta/eta-token.cache.ts:95-110 | At most one job per key is live |
| TokenCache.NoEntryIsLeftBehind | apps/api/src/eta/eta-token.cache.ts:106-108 | When every job has settled the map is empty |
| TokenCache.JobRemovesOnlyItsOwnEntry | apps/api/src/eta/eta-token.cache.ts:107 | Deleting by key removes the job's own entry and no other |
| TokenCache.JoinedCallersShareTheAnswer | apps/api/src/eta/eta-token.cache.ts:95-111 | Callers that joined one job have one answer, the job's |
| TokenCache.ProducerRunsAtMostOnce | apps/api/src/eta/eta-token.cache.ts:98-105 | A job calls its producer at most once, after a second read that found nothing fresh |
| TokenAnswers.AnswersAreExplained | apps/api/src/eta/eta-token.cache.ts:61-112 | In every run an answered token was read while fresh under the caller's key, or produced and written back; an error was thrown by a read, the producer or the write |
| TokenAnswers.DueExactly | apps/api/src/eta/eta-token.cache.ts:40-44 | A token is due once eight tenths of its lifetime have gone, or all of it |
| TokenCache.WaitingCallerCanFinish | apps/api/src/eta/eta-token.cache.ts:96-111 | In every reachable state a waiting caller can have its answer within six steps |
| TokenKeys.KeyIsUnsharedExactly | apps/api/src/eta/eta-token.cache.ts:19-37 | An identity shares its cache entry only with identities that mean its slot if and only if its text can be cut at three colons into trimmed, non-blank parts in one way |
| TokenKeys.KeySpelled | apps/api/src/eta/eta-token.cache.ts:19-37 | The key of a till, and every other key, spelled out with trimming and defaults |
| TokenKeys.EnvironmentsNeverShare | apps/api/src/eta/eta-token.cache.ts:13-18 | Identities whose tenants and environments have no colon never share an entry across tenants, environments or tills, whatever client and third part |
| TokenKeys.HarmlessColon | apps/api/src/eta/eta-token.cache.ts:19-37 | A colon alone does not make a key shared |
| TokenKeys.KeysSeparateSlots | apps/api/src/eta/eta-token.cache.ts:19-37 | So an identity without colons shares its entry only with identities that mean the same slot: sandbox and production never do |
| TokenKeys.ColonsCanCollide | apps/api/src/eta/eta-token.cache.ts:19-37 | With a colon in a client id two slots can share a key |
| Devices.Registry.PairAgent | apps/api/src/devices/devices.service.ts:118-232 | The checks in their order; then the paired row, else the last revoked one, else a new one takes the new token and the code is consumed; any error changes nothing |
| Devices.Registry.UnpairDevice | apps/api/src/devices/devices.service.ts:78-98 | The row is revoked with an unusable hash and its claimed jobs become pending; a revoked row is left alone |
| DevicePairing.PairsExactly | apps/api/src/devices/devices.service.ts:118-232 | Pairing succeeds if and only if the code is active and not expired, the name is given, the tenant writable, and the machine still paired or a slot free |
| DevicePairing.RefusalsInOrder | apps/api/src/devices/devices.service.ts:118-160 | Which error a refused pairing gets |
| DevicePairing.PairingChanges | apps/api/src/devices/devices.service.ts:118-232 | One row takes the next token, the code is used up by it, and every other row, code, job and till stays |
| DevicePairing.PairingTimes | apps/api/src/devices/devices.service.ts:150-220 | Only a machine that is still paired keeps the time of its pairing; only a new row has never been seen |
| DevicePairing.RowTaken | apps/api/src/devices/devices.service.ts:140-200 | The row is a paired one of the machine, else the one revoked last, else a new one |
| DevicePairing.UnpairingChanges | apps/api/src/devices/devices.service.ts:78-98 | A paired row is revoked at that time; other rows, codes and tills stay |
| Devices.Registry.CountDeviceSlots | apps/api/src/billing/quota.service.ts:203-221 | Paired agents plus active tills that share no paired agent's slot |
| DeviceRuns.RunKeepsInv | apps/api/src/devices/devices.service.ts:78-232 | In every run: one row per fingerprint, hashes match the status, codes are consumed by a device and never marked expired, no job is held by a revoked device |
| DeviceRuns.OnlyTheLatestTokenResolves | apps/api/src/devices/devices.service.ts:258-271 | A token resolves if and only if it is the last one issued to its device and the device was not unpaired since |
| DeviceRuns.ReplacedTokensStayDead | apps/api/src/devices/devices.service.ts:83-91 | A token that stopped resolving never resolves again |
| DeviceRuns.CodeRegistersAtMostOnce | apps/api/src/devices/devices.service.ts:146-211 | A code registers at most once, and exactly when it is marked consumed |
| DeviceRuns.UnpairReleasesJobs | apps/api/src/devices/devices.service.ts:94-97 | Unpairing releases exactly the device's claimed jobs, loses none and leaves it none |
| DeviceRuns.PairingTakesAtMostOneSlot | apps/api/src/devices/devices.service.ts:131-214 | Resuming takes no slot; other pairings take one less the device's own active tills |
| DeviceRuns.PairingKeepsWithinLimit | apps/api/src/billing/quota.service.ts:157-179 | An account within its pooled limit stays within it when a device of any of its tenants is paired |
| DeviceRuns.UnpairingSlots | apps/api/src/billing/quota.service.ts:203-221 | Unpairing frees one slot less the device's own active tills, so it can raise the count |
| Points.CostMap | apps/api/src/billing/points.service.ts:416-423 | Each kind has the tenant's last price, else the platform's last |
| Points.EffectiveCosts | apps/api/src/billing/points.service.ts:65-96 | The same prices are quoted, and default kinds without one at nothing |
| Points.SumCosts | apps/api/src/billing/points.service.ts:252-256 | The loop adds each kind's price, by exact then normalized name |
| Points.BatchCostsWhatIsQuoted | apps/api/src/billing/points.service.ts:252-256 | A batch costs exactly the sum of the costs quoted for its kinds |
| Points.PointsService.ConsumeForSend | apps/api/src/billing/points.service.ts:220-300 | Charge and ledger row together, or an error that changes nothing, for the quoted total |
| PointsExactly.SendsExactly | apps/api/src/billing/points.service.ts:220-300 | A batch is sent if and only if the trial goes on and the balance covers the quoted total; then the balance falls by it under one new ledger row |
| PointsExactly.AdjustsExactly | apps/api/src/billing/points.service.ts:356-414 | An adjustment is refused if and only if it takes off more than there is |
| PointsExactly.GrantsExactly | apps/api/src/billing/points.service.ts:179-214 | Points of a kind are granted when they never were and there is something to grant |
| PointsExactly.UnpricedKinds | apps/api/src/billing/points.service.ts:252-256 | A kind without a price costs what its trimmed name in upper case does, or nothing |
| PointsExactly.QuotedByDefault | apps/api/src/billing/points.service.ts:65-96 | Without any price exactly seven kinds are quoted, at nothing |
| Points.PointsService.GrantIfNeeded | apps/api/src/billing/points.service.ts:179-214 | Granted unless granted before or nothing to grant |
| Points.LedgerExplainsBalance | apps/api/src/billing/points.service.ts:220-414 | In every run the balance is the start plus all deltas, each row holds its prefix sum, nothing is negative, and trial and plan points are granted at most once |
| SearchWindows.BuildEtaSearchWindows | apps/api/src/eta/eta-documents-search.client.ts:207-228 | For every limit for which the loop ends: windows in order, adjacent, as long as the limit allows, that span the range; for a negative limit windows that each end before they start |
| SearchWindows.EveryInstantOnce | apps/api/src/eta/eta-documents-search.client.ts:207-228 | Every millisecond of the range is in exactly one window and no other in any |
| SearchWindows.WindowCount | apps/api/src/eta/eta-documents-search.client.ts:217-228 | How many windows there are, for a limit of whole milliseconds |
| SearchWindows.AdvancesExactly | apps/api/src/eta/eta-documents-search.client.ts:221-227 | The cursor advances if and only if the limit is at least a millisecond, or positive with the cursor not after the epoch and not at the first date of all |
| SearchWindows.EndsExactly | apps/api/src/eta/eta-documents-search.client.ts:221-227 | The loop over a range ends if and only if the limit is a millisecond or more either way, or positive with the range ending by the epoch, or its first step lands before the first date of all |
| SearchWindows.BackwardsFindNothing | apps/api/src/eta/eta-documents-search.client.ts:221-227 | No instant is in a window of a negative limit |
| SearchWindows.WithinLimit | apps/api/src/eta/eta-documents-search.client.ts:217-227 | No window of a positive limit is longer than it |
| SearchWindows.DaysPerWindow | apps/api/src/eta/eta-documents-search.client.ts:207-227 | For whole days no window is longer than so many days, and all but the last are as long |
| SearchWindows.NoSecondIsLost | packages/eta-core/src/eta-formats.ts:11-18 | Cutting the ends to whole seconds loses no second of the range |
| SearchWindows.SharedSeconds | packages/eta-core/src/eta-formats.ts:11-18 | Neighbouring cut windows share a second exactly when the later one does not start on a whole second |
| SearchWindows.WholeSecondSteps | packages/eta-core/src/eta-formats.ts:11-18 | For limits of whole seconds that is when the range does not start on one |
| EtaHttp.EtaFetch | apps/api/src/eta/eta-http.ts:63-112 | For every sequence of answers the loop does what its two allowances say, in at most ten calls, so it never ends by running out of attempts |
| EtaHttp.Retry | apps/api/src/eta/eta-http.ts:76-107 | By the allowances alone: the request ends with its last answer, and the fixed waits are spent in order |
| EtaRetries.RetriesExactly | apps/api/src/eta/eta-http.ts:63-112 | A request ends with the first answer that is neither a 429 before the seventh nor a status of 500 or a failure other than a timeout before the fourth, after waits of 200, 800 and 2000 milliseconds |
| EtaHttp.TenCallsAttained | apps/api/src/eta/eta-http.ts:72-76 | Ten calls can happen |
| EtaHttp.RequestStartPacer.Take | apps/api/src/eta/eta-rate-limit.ts:98-106 | A turn starts at once or when allowed, and moves the allowed time; a turn that throws does not |
| EtaHttp.Pace | apps/api/src/eta/eta-rate-limit.ts:93-107 | The starts of a whole queue of turns |
| EtaHttp.StartsAreSpaced | apps/api/src/eta/eta-rate-limit.ts:88-107 | Under any schedule a later start is at least the earlier one's delay after it |
| EtaHttp.StartsInOrder | apps/api/src/eta/eta-rate-limit.ts:97-106 | Starts come in call order |
| Documents.CalculatesEach | apps/api/src/documents/documents.service.ts:379-406 | Lines are computed one for one, unless one is refused |
| Documents.DocumentsService.Save | apps/api/src/documents/documents.service.ts:894-948 | Lines, totals, payload and canonical text are replaced together, the version rises, signature and open jobs go |
| Documents.DocumentsService.UpdateDocument | apps/api/src/documents/documents.service.ts:865-950 | An edit of an editable local document at its current version saves new content; every error changes nothing |
| DocumentLocks.EditsExactly | apps/api/src/documents/documents.service.ts:865-950 | An edit succeeds if and only if there are lines, the row is local and a draft, ready, signed, rejected or invalid, at that version, and every line can be computed; it leaves a draft of the next version without signature and open jobs |
| DocumentLocks.RefusalsInOrder | apps/api/src/documents/documents.service.ts:865-876 | Which error a refused edit gets |
| Documents.DocumentsService.RecalculateTotals | apps/api/src/documents/documents.service.ts:1229-1303 | The content rebuilt from the stored rows is saved in the same way |
| DocumentRuns.RunKeepsInv | apps/api/src/documents/documents.service.ts:733-950 | In every reachable state the stored lines, totals and payload are what some content builds, the canonical text is the payload's, and at most one job is open, for the current version |
| DocumentRuns.StoredPayloadPasses | apps/api/src/documents/documents.service.ts:733-950 | In every reachable state the local check reads from the stored payload the stored amounts, and accepts it |
| DocumentRuns.SignatureCoversContent | apps/api/src/signing/signing.service.ts:203-345 | A stored signature always covers the canonical text of the content beside it, though a job and the text handed out with it are read apart |
| DocumentRuns.VersionCountsChanges | apps/api/src/documents/documents.service.ts:937 | The version counts the content changes |
| DocumentRuns.StepCountsVersion | apps/api/src/documents/documents.service.ts:897-937 | Each content change raises the version by one, drops the signature, returns to draft and closes the open jobs |
| DocumentRuns.OneEditPerVersion | apps/api/src/documents/documents.service.ts:874-876 | Of all edits based on one version at most one is saved |
| DocumentRuns.LockedContentIsKept | apps/api/src/documents/documents-mutability.ts:8-68 | No user request changes the content of an imported document or of one in a locked status |
| DocumentLocks.LockedRowsStay | apps/api/src/documents/documents-mutability.ts:8-68 | On a row that is imported, waiting for a signature, submitted, valid or cancelled, no edit, recalculation, mark-ready or sending changes anything |
| DocumentLocks.RecalculatesExactly | apps/api/src/documents/documents.service.ts:1220-1303 | When a recalculation succeeds, with statuses spelled out, and what it leaves |
| DocumentLocks.MarksReadyExactly | apps/api/src/documents/documents.service.ts:1169-1196 | Marking ready succeeds if and only if the row may change and is valid, and changes the status only |
| DocumentLocks.CreatesExactly | apps/api/src/documents/documents.service.ts:733-853 | A created document is a local, unsigned draft of version 1 |
| DocumentLocks.SendsExactly | apps/api/src/signing/signing.service.ts:104-186 | A job is made if and only if the document is local, ready and without an open job |
| DocumentLocks.SignsExactly | apps/api/src/signing/signing.service.ts:288-345 | A signature is stored if and only if the job is claimed and its version, the document's and the handed text's are one |
| DocumentLocks.OnlySigningCompletes | apps/api/src/signing/signing.service.ts:329-345 | Only an agent's signature completes a job |
| DocumentRuns.StoredTotalsAdd | apps/api/src/documents/documents.service.ts:408-448 | In every reachable state the stored totals are the sums of the stored lines |
| DocumentRecalculation.RecalculationNeverFails | apps/api/src/documents/documents.service.ts:1229-1303 | Recalculating an editable document never fails on its stored lines, however their rows come back |
| DocumentRecalculation.ReachableRecalculation | apps/api/src/documents/documents.service.ts:1229-1303 | That holds in every reachable state that may change |
| DocumentRecalculation.RecalculatingKeepsMoney | apps/api/src/documents/documents.service.ts:1220-1303 | A document of any status that may change, whose content keeps what its taxes use, recalculates to the same columns and totals for every order of its rows; only charges and tax totals are reordered |
| DocumentRecalculation.RunKeepsEditedMoney | apps/api/src/documents/documents.service.ts:1220-1303 | In every run, and after any number of recalculations, a document has the columns and totals of its last edit, when the lists of taxes that were edited keep what they use |
| DocumentRecalculation.ReachableMoney | apps/api/src/documents/documents.service.ts:1220-1303 | In every reachable state that may change, one more recalculation gives the columns and totals of the last such edit |
| RecalculatedText.RecalculationShowsExactly | apps/api/src/documents/documents.service.ts:1247-1260 | Under the same settings such a document keeps its text to sign if and only if its tax rows show what they showed before |
| RecalculatedText.MovedRowChangesText | apps/api/src/documents/documents.service.ts:1229-1303 | A tax row read back in the place of one of another type changes the text |
| RecalculatedText.SwappedRowsChangeText | apps/api/src/documents/documents.service.ts:1229-1303 | A document with T1 and T4 on one line, read back the other way round, keeps its money and changes its text |
| RecalculatedText.RecalculatingTwice | apps/api/src/documents/documents.service.ts:1229-1303 | When rows of one code have one rate, a second recalculation stores the lines as it reads them, keeps every total, and keeps the text if and only if the rows as read show what they showed |

## Left out

- Money.Round: IEEE-754 effects of `Number(rate) / 100` and of payload numbers, and Decimal's limit of 40 significant digits; arithmetic is exact. Malformed decimal text is not modelled.
- TaxRounding.StagedRoundingStaysClose: measured from the line's rounded net total, for listed codes; an unlisted code has no rounding weight, and rates outside 0 to 100 or not numeric are excluded.
- LineAccuracy.LineTotalFromInputs: for codes listed once each, tax and discount rates between 0 and 100, and fixed amounts of two decimals.
- JsonText.QuoteIsShortest: literals with upper-case hexadecimal digits or with surrogate pairs are not read.
- CanonicalServer.SerializeObject: documents are ordered lists of keys; JavaScript's reordering of integer-like keys and its handling of lone surrogates are not modelled, and upper-casing and trimming are ASCII.
- CanonicalAgent.SerializeToken: string literals and number texts are shared with the server; Newtonsoft's extra escapes of U+0085, U+2028 and U+2029 and its date tokens are not modelled.
- UsageRollup.UsageTables.RebuildRange: event counts and timestamps of rows are not modelled; time-zone tables are any bucketing within the padding, monotone where needed; quantities are whole numbers.
- SearchWindows.BuildEtaSearchWindows: the number of milliseconds is computed exactly, without the rounding of doubles far from the epoch; limits that are not finite are left out, and so are those for which the loop does not end.
- UsageGauge.AccuracyMatchesExactly: gauge events of one instant that differ, and stored counters that are not positive, are excluded; by how much a meter differs is stated per meter by UsageAgreement.CounterDifference and UsageGauge.GaugeSummary.
- ZipReader.ReadsBack: names are bytes, UTF-8 encoding is not modelled; the reader has no ZIP64, comments or compression, and does not treat all-ones fields as ZIP64 markers.
- ZipNames.UsedNames.SafeInvoicePdfFilename: names are sequences of characters, while the code cuts at 80 UTF-16 units; only ASCII white space is trimmed.
- TokenCache.RunKeepsInv: one process; Redis is a map that others may change at any time, and a corrupt entry is a missing one. Wall-clock steps backwards are not modelled.
- Devices.Registry.PairAgent: a request is one step, so races between its separate transactions are not covered; audit records, heartbeat and renaming are left out, and the quota's plan arithmetic is a parameter.
- DeviceRuns.RunKeepsInv: job claiming is an abstract step by a token that resolves.
- Points.LedgerExplainsBalance: requests are atomic, so two grants racing between check and insert are not covered; database integer width and setting of prices are left out.
- EtaHttp.EtaFetch: the lengths of rate-limit waits, jitter and abort signals are left out; the fixed server waits are kept.
- EtaHttp.StartsAreSpaced: delays are not negative and timers never fire early.
- Documents.DocumentsService.UpdateDocument: what the payload holds besides amounts is a parameter; issuer, currency, branch and date resolution succeed or fail as one parameter. The stored issuer snapshot, receiver columns, cooldown fields and audit records are left out.
- EtaPayload.ReadsPayload: numbers in exponent notation, and texts with white space or other forms that JavaScript reads as numbers, are not read; tax types that are not texts or numbers read as blank.
- DocumentRuns.LockedContentIsKept: requests of users only; synchronisation rewrites imported documents.
- Documents.DocumentsService.RecalculateTotals: the header is kept as stored; the mapping of receiver, references and payload fields back into a request is not modelled.
- Documents.DocumentsService.MarkDocumentReady: reading, validating and updating are one step; the code updates in a later transaction without asking the status again. Runs cover that update too, because they may set any status at any time.
- DocumentRuns.RunKeepsInv: transactions come one after the other, so sending for signature reads the version and makes the job in one step, while the code reads the version before it locks the row; a job's device and its lease are left out.
- DocumentRuns.SignatureCoversContent: the agent signs the text it was handed; certificates and the signature format are left out, and submission and ETA's answers may set any status at any time.
- Internal-id schemes, quota overrides and entitlement merging, display formatting, permission tables, controllers and error texts: branch-by-branch facts without interaction.
- Databases, Redis, HTTP, queues, object storage, PDF drawing, smart-card and keychain access, hashing and signature cryptography: input and output or foreign code.
- Sorting of the quoted costs for display, ledger paging and listing endpoints: no effect on the state.
