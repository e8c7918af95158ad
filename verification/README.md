# SokoFlow: a verified model

SokoFlow keeps the books of small shops over chat: a merchant adds products, records sales, asks for
stock and for figures, and a worker answers each message. This project models the parts of it whose
correctness is hard to see from one function at a time, and proves what they keep true over every
input, every run and every interleaving. `dafny verify dfyconfig.toml` checks all of it.

The database, Redis, the model provider, the clock and every failure of them are inputs: an `Env`
carries what one message meets, and nothing is assumed of it beyond "fresh ids are fresh" and "query
rows are rows that the query may return". Money is held in cents, ids are natural numbers with 0 for
the nil id, and instants are integers.

| module | what it models |
|---|---|
| `Text`, `Inputs`, `InputLaws` | Python's string and number parsing, price parsing and rounding, money printing; what a merchant may type, and what it is read as |
| `Resolver` | the fuzzy product query and the two resolvers that read its first rows |
| `Ledger`, `LedgerRuns`, `StockAlerts` | stock and sales services on one database session; any number of sessions interleaved under row locks, savepoints, commits, second readings and rollbacks; what their calls answer about low stock |
| `Analytics`, `ToolLaws` | argument validation, tool execution, the bounded repair loop, the retry policy; the schemas tool by tool, and look-ups against the whole shop |
| `Conversation`, `Engine` | the state machine as functions of a session, and as the code that updates it in place, verified against those functions |
| `SessionInvariant` | what every message keeps true of a session |
| `Worker`, `Protocol`, `Races` | the session store with its compare-and-set script, one worker task, and any number of workers interleaved with key expiry |
| `SessionRuns`, `LastCall`, `Questions` | sequential runs: error counter, history, remembered analytics call; which messages reach the model, and what it is told |
| `Starts`, `Disambiguation`, `Journeys`, `SaleAlerts`, `Witnesses` | commands and flows, choosing by number, whole conversations, sales and their alerts, runs that break a promise |
| `Calendar`, `Periods`, `Reports` | calendar arithmetic, reporting periods, revenue and the report queries |
| `Dedup`, `Percentile` | webhook deduplication; the benchmark's percentile |

## Where the code and its documentation differ

The model follows the code.

- docs/adr/007-best-effort-low-stock-alert-enqueue.md promises an alert after the commit, so that a
  failed notification never costs a sale. The flow enqueues before the commit
  (app/fsm/flows/record_sale.py:176-181): a failed enqueue takes the sale back, and an alert can go out
  for a sale that is then rolled back. `SaleAlerts` states exactly when each happens.
- The diagram in the repository's README has restart edges, an edge for help and a low-stock check
  state; the code has none of them. `REPORT_PENDING` is entered and left inside one message, and
  `START_ADD_PRODUCT` is never entered.
- The compare-and-set compares the state only, and the database is committed before the session is
  saved. Workers that hold the same confirmation all sell, as far as the stock goes (`Races`).
- A deduction that commits on its own reads its row again after the commit, without the lock, and answers
  from that. Two racing deductions can both raise the alert, and a restock can hide one (`StockAlerts`).
  Sales deduct inside their transaction and are not affected.
- Adding a product commits the shop, the product and its stock one after the other: a failed task can leave
  a product without its opening stock (`Journeys.AddingIsNotAtomic`).
- The repair loop and the retry policy differ on an active tool that the registry lacks
  (`Analytics.RepairMatchesPolicy`).
- The resolver's verdict is a statement about the whole shop only because the query fetches at least
  two rows and the margin is no wider than the gap between the two thresholds
  (`Resolver.OtherSettingsMislead`).

## Model

| member | source | states |
|---|---|---|
| Text.PrintedNumberParses | app/fsm/primitives.py:55-74 | reading back a printed number gives that number, for every natural number short enough for Python to read |
| Inputs.PriceIsHalfUpRounding | app/fsm/fsm_utils.py:32-49 | on every finite decimal x the price is floor(100x + 1/2) cents, accepted exactly when positive and within the decimal precision, and otherwise invalid or not positive |
| InputLaws.SpelledPriceParses | app/fsm/fsm_utils.py:32-49 | every positive amount that the bot prints is read back in every spelling: the currency in any case before it, with or without a point and space, the shilling sign after it, and space all around |
| InputLaws.DecimalReads | app/fsm/fsm_utils.py:38-41 | every way to write a decimal number, with sign, point and exponent, is read as that number |
| InputLaws.NoFinitePrice | app/fsm/fsm_utils.py:38-49 | infinities and signalling NaNs are refused as prices; a quiet NaN breaks the message off |
| InputLaws.QuantityReads | app/fsm/fsm_utils.py:52-65 | a printed number with any sign and padding is that quantity, or refused as negative |
| InputLaws.NoDigitsNoNumber | app/fsm/fsm_utils.py:52-65 | text without a digit is no quantity |
| InputLaws.UnderscoresRead | app/fsm/fsm_utils.py:52-65 | one underscore between digits is skipped, any other makes the text no number, and so does too great a length |
| InputLaws.NameReads | app/fsm/fsm_utils.py:20-29 | a product name is taken without the space around it, from two to a hundred characters |
| InputLaws.ConfirmationReads | app/fsm/fsm_utils.py:68-79 | yes and no in both languages, by letter or number, in any case and padding; every other word is refused |
| InputLaws.GroupsOfThree | app/ai/formatter.py:53 | a printed amount is the plain number, with separators before every third digit from the end and nowhere else |
| InputLaws.TwoDecimals | app/ai/formatter.py:53 | and it has its cents as two digits after the point |
| Resolver.ExactMatchIffClearWinner | app/ai/product_resolver.py:36-80 | the answer is an exact match on p exactly when p is confident and beats every other product of the shop by the margin, those cut off by the threshold or the limit included, whatever the order of ties |
| Resolver.OtherSettingsMislead | app/core/config.py:40-41 | with a limit of one, or a margin wider than the gap between the thresholds, some shop makes the resolver accept a product without a clear lead |
| Resolver.FirstRowIsBest | app/sql/products/find_products_by_fuzzy_search.sql:1-12 | the first rows of the query bound the scores of every product of the shop, listed or not |
| Resolver.ResolversAgreeWhenSure | app/services/product_service.py:91-124 | when the analytics resolver is sure, the chat resolver, with its own limit and its own order of ties, is sure of the same product |
| Resolver.ChatAnswerIsTopScorer | app/services/product_service.py:91-124 | the chat resolver is sure exactly when some product of the shop reaches the confident score, and answers one that no other outscores; otherwise it offers the rows exactly when something reaches the listing score |
| Resolver.RowsAreNamedCandidates | app/sql/products/find_products_by_fuzzy_search.sql:1-12 | the rows are at most `limit` named products of the shop |
| Ledger.RecordedSale | app/services/sales_service.py:48-84 | a sale that succeeds takes exactly its units off a row that had them, appends one row with the product's price, and touches no other stock row, shop or product |
| Ledger.StockCallLaw | app/sql/inventory/add_stock.sql:1-18 | when a stock call is accepted, what it makes of quantity and threshold field by field, and with which error it is refused: a restock and a deduction keep the threshold, a threshold change keeps the quantity |
| Ledger.UpdatedStock | app/services/inventory_service.py:15-77 | a stock call changes no table but inventory, no row but its own, and that row by this law; it goes through exactly when the row accepts it and a restocked product exists |
| Ledger.SaleRefusals | app/services/sales_service.py:48-84 | when a sale goes through, and with which error it is refused |
| Ledger.Database.UpdateStock | app/services/inventory_service.py:15-93 | the method on the session refines that function for each commit mode and each failure; a committing deduction answers from the row it reads after its commit, whatever other sessions have made of it |
| Ledger.Database.RecordSale | app/services/sales_service.py:56-84 | deduction and sale row together, or neither: the savepoint takes the deduction back |
| Ledger.Database.FinalizeInventory | app/services/inventory_service.py:79-93 | commit, flush, or roll everything back; then the row as it is when it is read again |
| Ledger.AlertBalance | app/services/inventory_service.py:42-54 | for any calls in turn, alerts and the other ways into low stock minus the ways out of it are low-now minus low-at-start |
| Ledger.FixedThresholdNeverDrops | app/services/inventory_service.py:68-77 | while the threshold of a stored row is left alone, alerts are the only way into low stock |
| Ledger.LiftBetweenAlerts | app/services/inventory_service.py:65-66 | between two alerts some call lifted the product above its threshold; with positive quantities, a restock or a threshold change |
| LedgerRuns.RunIsSound | app/services/inventory_service.py:23-54 | in every interleaving the locks keep each open session's changes replayable on the committed rows, and each second reading sees the row that the committed log gave at that moment |
| LedgerRuns.StockIsConserved | app/sql/inventory/add_stock.sql:1-18 | in every interleaving a product's committed quantity is what was added minus units sold minus direct deductions, never negative, and a sale row exists exactly when its deduction is committed |
| LedgerRuns.ThresholdIsLastSet | app/sql/inventory/add_stock.sql:9-13 | in every interleaving a product's committed threshold is the last committed one set on it, or the default |
| LedgerRuns.RunsAreSerializable | app/core/database.py:40-48 | every row, and every crossing of a threshold, is what the committed calls give one after the other, all of them succeeding; a crossing is an alert of that serial run |
| LedgerRuns.CommitKeepsSound | app/core/database.py:40-48 | a commit keeps the log replayable, disturbs no other open session and no reading made before |
| StockAlerts.AnswersReadCommittedRows | app/services/inventory_service.py:42-54 | every answer compares the committed row before the change with one after it: the change's own row inside an outer transaction, a later one for a committing call |
| StockAlerts.AnswerIsSerialIff | app/services/inventory_service.py:42-54 | an answer is the serial one always inside an outer transaction, and for a committing deduction of a row that was not low exactly when the row it read again is as low as the one it committed |
| StockAlerts.UndisturbedAnswerIsSerial | app/services/inventory_service.py:79-89 | so also when nobody commits a change of the product between commit and second reading |
| StockAlerts.CrossingsBalance | app/services/inventory_service.py:42-54 | over every interleaving, at every point of the committed log, crossings and the other ways into low stock minus the ways out of it are the product's lowness |
| StockAlerts.ExpectedAtFixedThreshold | app/services/inventory_service.py:42-54 | while nobody changes the threshold, crossings minus lifting restocks is low-now minus low-at-creation |
| StockAlerts.AlertsBalanceThroughoutIff | app/services/inventory_service.py:79-93 | the alerts that are given balance at every point exactly when every committing deduction of a row above its threshold reads a row as low as the one it committed |
| StockAlerts.AlertsBalance | app/services/inventory_service.py:42-54 | and so at any point of a run with such readings, whatever else happens to quantities and thresholds |
| StockAlerts.SaleAlertsBalance | app/services/sales_service.py:64-66 | a product that only sales take from has its alerts in balance, whoever sells it and whatever happens to its threshold |
| StockAlerts.UndisturbedAlertsBalance | app/services/inventory_service.py:79-89 | and so has one whose committing deductions all read their row again undisturbed |
| StockAlerts.RacingDeductionsAlertTwice | app/services/inventory_service.py:83-88 | a run of two committing deductions in which both alert and nothing lifts the product in between; neither condition holds in it |
| StockAlerts.RacingRestockLosesAlert | app/services/inventory_service.py:83-88 | a run in which a restock hides a crossing from the deduction that made it |
| StockAlerts.AlertsAlternateIff | app/services/inventory_service.py:42-54 | between two alerts something lifted the product exactly when the first deduction, or another change before the second one, left it low |
| StockAlerts.AlertsAlternate | app/services/inventory_service.py:65-77 | so whenever the first alert follows a crossing of its own, or its call had read its row by the time of the second change; with positive quantities it was a restock or a threshold change |
| Analytics.Execute | app/ai/executor.py:52-160 | a proposal reaches a handler exactly when it is registered and validates; the handler runs for the trusted shop, with no shop among its arguments; a look-up that succeeds reports a product of that shop with its stored name and price, and its stored quantity and threshold or two zeros |
| ToolLaws.ValidIffSchema | app/ai/validator.py:22-52 | the one validator accepts for each tool exactly the arguments of its input model, refuses every proposal that names a shop, and reports an inverted date range as an error of its own |
| ToolLaws.HandlerArguments | app/ai/contracts/tools.py:17-190 | a handler is given the arguments that are not null, numbers as integers within their bounds, and the default for the most sales |
| ToolLaws.LookUpById | app/ai/handlers/stock_handlers.py:45-48 | a look-up by id answers about just that product of the shop, whatever name comes with it, or finds nothing |
| ToolLaws.LookUpByName | app/ai/handlers/stock_handlers.py:49-67 | a look-up by name answers about a product exactly when it wins clearly over every other one of the shop, and finds nothing exactly when no product comes close |
| ToolLaws.EmptyIffNothingToShow | app/ai/orchestrator.py:229-249 | an answer is reported as empty exactly when its figures are |
| ToolLaws.OutcomeOfLastTurn | app/ai/orchestrator.py:86-227 | there is a second request exactly when the first response needs a repair, and the outcome is what the last response comes to |
| ToolLaws.RepairExtendsPrompt | app/ai/orchestrator.py:86-148 | the second request repeats the first and adds what was proposed and what was wrong with it |
| Analytics.FindProduct | app/ai/handlers/stock_handlers.py:36-83 | a product found by id or by name belongs to the shop |
| Analytics.Run | app/ai/orchestrator.py:58-227 | the loop computes the outcome, the prompts and the executions of the two-turn function, and never falls through |
| Analytics.OrchestrationIsBounded | app/ai/orchestrator.py:86-227 | at most two provider calls and two executions, each execution being the sole call of a response and naming an active tool |
| Analytics.RepairMatchesPolicy | app/ai/retry.py:20-46 | the loop repairs a single call exactly when the policy allows it, except for an active tool that is not registered |
| Analytics.AmbiguousCallsAreLookups | app/ai/handlers/stock_handlers.py:45-67 | only a validated product look-up comes back ambiguous, with the rows it found |
| Analytics.ResumedCallValidates | app/ai/validator.py:22-52 | the parked arguments with the choice written in always validate |
| Analytics.ResumedCallRuns | app/fsm/flows/analytics.py:120-192 | the resumed call runs, never fails the schema, and is never ambiguous again for a real product id |
| Analytics.ReportedArgumentsAreValidated | app/ai/executor.py:107-112 | what a success reports is never replaced by the raw proposal |
| Engine.UserSession.Transition | app/fsm/primitives.py:25-29 | moves the state and appends the old one to the history, only when it changes |
| Engine.UserSession.ClearContext | app/fsm/primitives.py:31-37 | forgets all but shop and history |
| Engine.UserSession.ResolveProductChoice | app/fsm/primitives.py:55-74 | refines the choice function, lost list and bad numbers included |
| Engine.FSMEngine.HandleConfirmSale | app/fsm/flows/record_sale.py:144-192 | refines the confirmation step, whose laws are `SaleAlerts.MessageSellsIff` and `SaleAlerts.NoCancelsSale`: sale, cancellation, alert, reset, and every error exit |
| Engine.FSMEngine.PersistProduct | app/fsm/flows/add_product.py:117-143 | refines the separate commits of shop, product and opening stock, however far they get |
| Engine.FSMEngine.HandleQuery | app/fsm/flows/analytics.py:51-118 | refines the analytics query step |
| Engine.FSMEngine.HandleProductSelection | app/fsm/flows/analytics.py:120-192 | refines the resumption of a parked call |
| Engine.FSMEngine.ProcessMessage | app/fsm/engine.py:59-96 | the engine, updating the session and the database in place, computes exactly the message function, on every branch |
| SessionInvariant.MessageKeepsInvariant | app/fsm/engine.py:59-145 | from every well-formed session every message in every environment leads to a well-formed one, along an edge of the graph, with a history that only grows; no branch for a lost, corrupted or foreign context can fire |
| SessionInvariant.HandleKeeps | app/fsm/engine.py:71-79 | the same for every handler |
| SessionInvariant.ConfirmSaleKeeps | app/fsm/flows/record_sale.py:161-171 | a sale confirmed in chat is never refused for belonging to another shop |
| SessionInvariant.QueryKeeps | app/fsm/flows/analytics.py:51-118 | a question parks only a validated look-up, with candidates of the merchant's own shop |
| SessionInvariant.RowsAreChoosable | app/fsm/flows/record_sale.py:66-78 | whatever the query answers is a list the merchant can choose from |
| Worker.UpdateScript | app/fsm/lua/update_session_state.lua:7-26 | the save succeeds exactly when the key is absent or holds the expected state, and otherwise leaves the key alone; data is corrupted exactly when it is no JSON |
| Worker.ConversationStore.SaveSession | app/fsm/conversation_store.py:49-79 | refines that script, with IDLE expected for a new session |
| Worker.Converse | app/workers/conversation_tasks.py:31-60 | one task: read, process, commit, then save; a failure takes back what is not committed and saves nothing |
| Protocol.EveryRunIsSafe | app/workers/conversation_tasks.py:37-60 | for any number of workers interleaved with expiry and other users: stored sessions are well-formed, stored states walk along the message graph, and each save that reports a sale has its own committed row, the one that its message confirmed with a yes |
| Protocol.StoredSessionsAreWellFormed | app/fsm/lua/update_session_state.lua:7-26 | the script never sees corrupted data, and a refusal always means that the stored state has moved on |
| Protocol.StepKeepsSafe | app/fsm/conversation_store.py:37-79 | every single step keeps that invariant |
| Protocol.SaveExtendsHistoryIff | app/fsm/lua/update_session_state.lua:19-25 | in every run a save that goes through extends the stored history exactly when that begins the history its worker read, or is the one it saves |
| Protocol.MessageAddsReportedSale | app/fsm/flows/record_sale.py:144-192 | a message commits one sale row, the confirmed one, exactly when it reports a sale, and only if its text reads as a yes |
| Races.RacingConfirmations | app/workers/conversation_tasks.py:47-60 | any number of workers that hold the same confirmation: as many sell as the stored row covers, the first of them saves and reports its sale, and nobody else saves |
| Races.SecondConfirmationSellsIff | app/fsm/lua/update_session_state.lua:19-25 | of two workers with the same confirmation the second sells too exactly when the stored row covers both sales |
| Witnesses.OneConfirmationSellsTwice | app/workers/conversation_tasks.py:47-60 | a run from an empty store in which one confirmation is sold twice and reported once |
| SessionRuns.CounterCountsWrongMessages | app/fsm/engine.py:81-96 | the saved counter is the number of invalid messages since the last success, reset or expiry, and stays below the limit |
| SessionRuns.GivesUpExactlyAtLimit | app/fsm/engine.py:84-90 | an invalid message resets the conversation exactly when it reaches the limit |
| SessionRuns.InvalidStreakGivesUp | app/fsm/engine.py:84-90 | any streak of that many invalid messages contains one that returns to IDLE with an empty draft |
| SessionRuns.HistoryOnlyGrows | app/fsm/primitives.py:25-37 | between expiries the history is only ever extended at its end |
| LastCall.MessageFollowsCall | app/fsm/flows/analytics.py:72-118 | an answer sets the remembered call to the one executed in that message, a context reset clears it, and everything else, failures included, leaves it |
| LastCall.RememberedCallReallyRan | app/fsm/flows/analytics.py:149-184 | in every run a remembered call is the tool and validated arguments of the execution that answered an earlier message, and has been remembered ever since |
| LastCall.ProductAnswersAreTrue | app/ai/handlers/stock_handlers.py:36-84 | what an answered question says of a product is what the database holds for that product of the merchant's shop, the one whose id the call names |
| Questions.QuestionsReachTheModelIff | app/fsm/routing_policy.py:39-78 | text that starts no flow reaches the model exactly when analytics is configured and its length, its shape and the age of the last call allow it; otherwise nothing changes |
| Questions.PriorCallIsSentIff | app/fsm/flows/analytics.py:51-72 | the first request holds the remembered call exactly when that is no older than the time-to-live |
| Questions.PriorCallIsRecentAnswer | app/fsm/flows/analytics.py:51-118 | in every run the earlier call that the model is told of answered an earlier message, no longer ago than the time-to-live, and nothing since has answered anything else |
| Questions.QuestionReply | app/fsm/flows/analytics.py:72-118 | what the merchant hears and what the session keeps for each outcome of a question |
| Questions.AskingAndChoosing | app/fsm/flows/analytics.py:51-192 | an ambiguous question and a number: the question is answered about just that product, with its stored figures, and the conversation is idle again |
| LastCall.AnswersReportRuns | app/ai/orchestrator.py:150-172 | an answered question reports the last call that the run executed, the sole call of its last response, with the arguments that validated |
| Disambiguation.TypedNumberSelectsItsLine | app/services/localization.py:311-317 | typing the number printed before a candidate selects exactly that candidate, in a list of any readable length |
| Disambiguation.OnlyPrintedNumbersSelect | app/fsm/primitives.py:55-74 | a text selects a candidate exactly when it reads as the number printed before it; which message the others get |
| Disambiguation.DisambiguationEnds | app/fsm/flows/analytics.py:120-192 | one valid number ends the disambiguation: in IDLE, nothing parked, no candidates, never ambiguous or rejected; a product still in the shop is reported, and otherwise the merchant hears why and keeps the call remembered before |
| Disambiguation.ParkedCallRuns | app/ai/orchestrator.py:201-215 | resuming a parked call leads neither to new choices nor to an invalid proposal |
| Journeys.AddingAProduct | app/fsm/flows/add_product.py:30-143 | four messages leave just the named product, at the typed price and stock, in the merchant's own shop, and change nothing else |
| Journeys.AddingIsNotAtomic | app/fsm/flows/add_product.py:117-143 | which of product and opening stock are stored, and what the merchant hears, for every set of failures |
| Journeys.NoCancelsProduct | app/fsm/flows/add_product.py:79-92 | a no adds nothing, creates no shop, and drops the draft |
| Journeys.UnreadableTextIsRefused | app/fsm/engine.py:76-96 | in every state a text that cannot be read is answered with what is wrong with it and changes nothing but the error count, until the limit |
| Journeys.FailedReadingsBreakOff | app/fsm/flows/record_sale.py:39-120 | a message whose reading of shop, products or stock fails saves nothing; the shop of an unknown number stays |
| Journeys.LostDrafts | app/fsm/flows/add_product.py:54-104 | a draft that lacks a field its state needs is refused, or breaks a sale off, and stores nothing |
| Journeys.WrongQuantityIsRefused | app/fsm/flows/record_sale.py:102-131 | zero, and more than the stored stock, are refused, the latter with what is available, until the error limit |
| Journeys.StockStep | app/fsm/flows/stock_lookup.py:29-91 | a found name tells the stored stock and ends the conversation, several give the choice, none may be tried again |
| Journeys.CheckingStock | app/fsm/flows/stock_lookup.py:29-118 | name and number tell the stock of just that product of the merchant's shop, as stored when the number comes in |
| Starts.CommandsCancel | app/fsm/engine.py:61-74 | four words, in any case and padding, break off any conversation and leave database and tasks alone; no other word does |
| Starts.IntentsStartTheirFlow | app/fsm/engine.py:98-145 | each intent starts its own flow and stores nothing but the session |
| Starts.ReportIsRequested | app/fsm/flows/generate_report.py:15-35 | a report request enqueues one report of the merchant's own shop for the merchant's own number; a failed broker keeps the message from being saved |
| Journeys.ChoosingAProduct | app/fsm/flows/record_sale.py:39-100 | a name that fits several products and a number lead to the quantity question for just that product of the merchant's shop |
| Journeys.SellingAChosenProduct | app/fsm/flows/record_sale.py:39-192 | name, number, quantity and yes record exactly that sale of exactly that product, and take exactly that stock |
| Journeys.SellingAProduct | app/fsm/flows/record_sale.py:102-192 | a quantity and a yes record exactly that sale, at the price stored when the merchant confirms, and take exactly that stock |
| SaleAlerts.SaleKeptAndAlertSent | app/fsm/flows/record_sale.py:173-192 | when a confirmed sale is committed, and when its alert goes out, each as an if-and-only-if over the failures |
| SaleAlerts.NoCancelsSale | app/fsm/flows/record_sale.py:147-155 | a no at the confirmation sells nothing, leaves database and tasks alone, and drops the draft |
| SaleAlerts.RefusedSaleStoresNothing | app/fsm/flows/record_sale.py:157-172 | a confirmed sale that the database refuses stores nothing, and is a wrong message or a failed task by its error |
| SaleAlerts.MessageSellsIff | app/fsm/flows/record_sale.py:144-192 | from every session in every state a message adds to the sales exactly when its text is a yes, session and database are ready to sell, and neither a needed alert nor reply nor commit fails |
| SaleAlerts.SaleGoesThroughIff | app/services/sales_service.py:56-84 | an offered sale goes through exactly when the stored row covers it, and leaves exactly that much less |
| SaleAlerts.NotificationFailureIsHarmlessIff | docs/adr/007-best-effort-low-stock-alert-enqueue.md:69-79 | a failed notification is harmless exactly when the stored row is not above its threshold or the sale leaves it there |
| Witnesses.NotificationFailureLosesSale | app/fsm/flows/record_sale.py:173-192 | a run to a confirmation whose sale a failed notification takes back |
| Calendar.NextDayOrdinal | app/ai/handlers/utils.py:14-42 | the closed-form day number counts days, across leap days and year ends |
| Calendar.OrdinalsAreOrdered | app/ai/handlers/utils.py:14-42 | day numbers follow the calendar order and are unique |
| Periods.EveryAnchorAgrees | app/ai/handlers/utils.py:14-42 | every date of a day, week, month or year resolves to that same period |
| Periods.PeriodIsStable | app/ai/handlers/utils.py:45-77 | a period contains the reference instant and is the same for every instant inside it |
| Periods.PeriodsAreEqualOrDisjoint | app/ai/handlers/utils.py:45-77 | any two periods of a kind are the same or do not overlap |
| Periods.PreviousPeriodIsAdjacent | app/ai/handlers/utils.py:80-109 | the previous period ends where the current one starts, and is itself a period of the kind |
| Periods.PreviousWindowIsAsLong | app/ai/handlers/utils.py:105-109 | the window before a date range is adjacent and equally long |
| Periods.PreviousWindowIsWholeDays | app/ai/handlers/utils.py:105-109 | at a fixed offset from UTC that window is as many whole local days |
| Periods.WeekIsMondayToMonday | app/ai/handlers/utils.py:22-25 | a week has seven days and starts a whole number of weeks from Monday, 5 January 1970 |
| Periods.NairobiWeeks | app/ai/handlers/utils.py:22-25 | in the default zone it starts on a Sunday at nine in the evening, UTC |
| Periods.RangeHoldsItsDates | app/ai/handlers/utils.py:62-69 | a date range is the instants of its dates, both ends included |
| Periods.YearIsItsMonths | app/ai/handlers/utils.py:27-38 | months have their calendar length and tile the year |
| Periods.NairobiPeriods | app/ai/handlers/utils.py:45-49 | all of this in the default zone |
| Periods.NairobiDays | app/services/sales_service.py:26-46 | its days start at nine in the evening, UTC, and last twenty-four hours |
| Periods.DayBoundariesAgree | app/services/sales_service.py:26-46 | the sales service and the analytics tools agree on the day of every date, local time and instant |
| Reports.WindowsAdd | app/sql/sales/get_total_revenue_and_count.sql:1-7 | adjacent windows neither drop nor double a sale |
| Reports.OtherSalesDoNotCount | app/sql/sales/get_total_revenue_and_count.sql:1-7 | sales of other shops, or outside the window, change no figure of any query, wherever they stand |
| Reports.OwnSaleCounts | app/sql/sales/get_total_revenue_and_count.sql:1-7 | one more sale of the shop in the window adds exactly its amount and one |
| Reports.PeriodTotalIsSumOfDays | app/sql/sales/get_total_revenue_and_count.sql:1-7 | revenue and count of any period are the sum of the daily figures of its days |
| Reports.RevenueGroupsSumToTotal | app/sql/sales/get_top_moving_products_by_revenue.sql:1-19 | the revenue groups add up to the total-revenue query |
| Reports.TopProductsAreTheMaxima | app/sql/sales/get_top_moving_products_by_units.sql:1-19 | the top query returns exactly the products whose sum no other exceeds |
| Reports.TopProductExists | app/sql/sales/get_top_moving_products_by_units.sql:1-19 | there is one as soon as a known product has sold |
| Reports.JoinMultipliesByInventoryRows | app/sql/sales/get_slow_moving_products.sql:7-20 | what the double join adds up: the product's units once for each of its inventory rows in the group |
| Reports.SlowQueryListsEachOnce | app/sql/sales/get_slow_moving_products.sql:1-23 | with unique inventory rows each slow product is listed at most once, with its exact units, and left out only for products that sold no more |
| Reports.OneStockEach | app/models/inventory.py:21 | the unique constraint gives each product one group |
| Dedup.MessageStore.IsDuplicate | app/fsm/conversation_store.py:27-35 | a message is a duplicate exactly while its key lives, and a duplicate does not renew the key |
| Dedup.Receive | app/api/routes/webhook.py:80-119 | claim, then dispatch some time later; a claim is never given back |
| Dedup.IgnoredIffRecentlyClaimed | app/api/routes/webhook.py:84-96 | in every run a delivery is ignored exactly when the message was claimed less than the time-to-live ago |
| Dedup.DispatchesAreApart | app/api/routes/webhook.py:80-104 | the claims behind two dispatches of a message are at least the time-to-live apart, the dispatches by as much more or less as the second took longer or shorter |
| Dedup.DispatchGapNeedsLag | app/api/routes/webhook.py:99-104 | the dispatches themselves are always the time-to-live apart exactly when the second follows its claim no faster than the first |
| Dedup.FailedDispatchSilencesRetries | app/api/routes/webhook.py:105-110 | after a failed dispatch every redelivery within the time-to-live is ignored |
| Percentile.PercentileIsWithinSamples | tools/analytics_benchmark.py:111-122 | the percentile stays between minimum and maximum and reaches them at 0 and 100 |
| Percentile.PercentileIsLinearBetweenRanks | tools/analytics_benchmark.py:111-122 | at rank k + f it lies the fraction f of the way between the two neighbours |
| Percentile.MedianOfEvenSamples | tools/analytics_benchmark.py:111-122 | the median of an even sample is the mean of the middle two |
| Percentile.PercentileIsMonotone | tools/analytics_benchmark.py:111-122 | it never falls as p rises |
| Percentile.PercentileIgnoresOrder | tools/analytics_benchmark.py:111-122 | it does not depend on the order of the samples |
| Percentile.RaisingSamplesNeverLowers | tools/analytics_benchmark.py:111-122 | raising any samples never lowers it |

## Left out

- HTTP, Celery, the Redis client, SQLAlchemy, provider networking, PDF reports, the simulator, migrations, HMAC checks and logging: each appears only as its effect or as an arbitrary result.
- Time-to-live of a session key: expiry is a step that may happen at any moment, not a function of the clock. In `Dedup` the clock is explicit.
- Text beyond ASCII: case folding, white space and digits are those of ASCII; message texts and locale tables are represented by their keys, and of the parameters of a message only product choices, money, and the stock that is told or lacking are modelled.
- Similarity scores are arbitrary reals in [0, 1], with 0 for an empty name; intent patterns are an arbitrary classification of the text.
- The text of a UUID is carried beside its value; how a UUID is written is not modelled.
- Reports.SlowQueryListsEachOnce: leaves the collation of product names to a parameter, because it is a setting of the database.
- Percentile.PercentileIsMonotone: is proved over real numbers, because floating-point rounding is not the point of the function.
- Inputs.PriceIsHalfUpRounding: does not model the exponent limits of the decimal context beyond its 28 digits.
- InputLaws.SpelledPriceParses: covers amounts below 10^28 cents, which is where quantizing stops.
- Periods.PreviousPeriodIsAdjacent: the calendar starts on 1 January of year 1 as in Python, so the very first period has no predecessor; the upper end of Python's date range is not modelled.
- A time zone is any strictly increasing map from local dates to the instants of their midnights; zones whose clocks go back across midnight are excluded.
- SessionRuns.CounterCountsWrongMessages: is about messages served in turn, because a racing save with the right state may replace a session that its worker has not read, and its error count with it.
- Trend reports read the clock twice and so may straddle midnight; nothing is claimed about that.
- Dedup.IgnoredIffRecentlyClaimed: supposes that the deliveries reach Redis in the order of its clock, because Redis runs one command at a time.
- Worker.Converse: takes the database work of one message as one step; sessions interleave inside it in `LedgerRuns`, for stock and sales only.
- LedgerRuns.StockIsConserved: a step that is blocked by a lock or fails is skipped; deadlock detection and lock waits are not modelled.
- The context of a session is a value inside the session object, so aliasing between a session and its deep copy cannot arise.
- `_counts_by` and the other tallies of the benchmark, SKU generation, thresholds set through the REST routes, and REST sales, which are never committed: no hard property.
- The layout of `_format_top_products` and the other formatters beyond the money format.
- Analytics.Execute: takes the figures of the tools that look up no product as an input; `Reports` models the queries behind the summary, the rankings and the slow products.
- The analytics quota and the interaction record described in the decision records: their code is not part of the repository.
