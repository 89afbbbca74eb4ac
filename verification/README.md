# Verified model of the trading back office

This project models the parts of the trading back office that keep state
across syncs and proves what they promise over whole runs.  Tables are maps and
sequences, real numbers stand for floats, integers for instants and dates.

Where a query states no order, the orders in which the handoff visits links, BAG
rows and live fills are parameters, and so is the order of equal revisions
(`FillIngest.ROW_ORDER`, a constant without a value).  The remaining unordered
queries read their table from the front: the parent of a fill by perm id or own
reference, the stored summary of a combo, the first book event and the last
settled BAG row.  Their claims hold for any content of the tables, but for a
store that returns those rows in the same order in every call.

- **Live-to-settled handoff** (`Handoff`, `HandoffProperties`,
  `HandoffAssignments`, `HandoffColumns`, `HandoffStore`, `ExecRoles`).  One economic fill arrives from TWS and later from FlexQuery,
  often under another id.  The modules hold the matching rules, the purge and
  reconcile passes, the carrying of group tags, and runs of syncs and taggings.
- **Fill ingest** (`FillIngest`, `ComboSynthesis`, `IngestPipeline`,
  `IngestRun`, `IngestProperties`, `KeptRows`, `WrittenRows`, `IngestColumns`,
  `StaleTotals`, `KeyedRuns`, `AggregateProperties`, `ComboTracking`, `ComboRuns`).  Parent resolution, upsert, synthesized combo summaries, revision flags, leg
  re-tagging and aggregates, and the relation of batched or deferred
  maintenance to a fold from scratch.
- **Overlay PnL** (`Calendar`, `Holdings`, `Overlay`, `OverlayLoops`,
  `OverlayProperties`, `OverlayColumns`, `HoldingColumns`, `RealizedPnl`).  Staleness, merge precedence, apportioning positions to
  groups, the batched evaluator and the settled-only path.
- **Item links** (`ItemLinks`, `ItemLinkRows`, `ItemLinkStore`).  Tags and tasks on items:
  merge, settlement, order inheritance and flat positions.
- **Orders** (`Orders`, `OrderColumns`, `OrderRow`), **jobs** (`Jobs`,
  `JobColumns`, `JobQueue`) and the **event broadcaster** (`Broadcast`, `Broadcaster`).

Each component has value-level functions, on which the theorems are stated, and
a class or methods that update state in place the way the services do, proved
equal to those functions.  `Common` holds the sequence and sum lemmas they share.
The modules whose names end in `Columns` or `Rows`, and `RealizedPnl`, state what
the functions return in terms of the stored columns alone, without naming the
rules and helper functions the passes are built from.

Six claims one might expect of the services fail, each with the input that
shows it and the exact condition under which it holds.

- *Every settled row a tagged fill is matched to ends in a group.*  A fill that
  two rules match hands its tag to the first only
  (`HandoffAssignments.SecondTwinStaysUngrouped`); when all of them end in a
  group is `HandoffAssignments.EveryTwinGroupedExactly`.
- *A settled row that had no group gets the group of the fill matched to it.*
  Two partial fills tagged to different groups can settle as one row, which gets
  one of them (`HandoffAssignments.LaterTagIsDropped`); a fill's group arrives if
  and only if the first fill to claim the row is tagged to the same group
  (`HandoffAssignments.OwnGroupExactly`).
- *After an ingest every trade has the aggregates of its rows.*  A fill re-sent
  under another order leaves its old trade with stale totals
  (`StaleTotals.MovedFillLeavesStaleTotals`); `KeptRows` says from the store and
  the batch which rows a trade keeps, and `StaleTotals.AllUpToDateExactly` when
  all trades stay up to date.
- *However one combo's fills are delivered, the outcome is the same.*  Ids such
  as `c` and `c.1` parse to the same base and revision (`ComboRuns.SomeIdsTie`);
  all deliveries agree if and only if no two fills tie
  (`ComboRuns.DeliveriesAgreeExactly`).
- *Where the groups' holdings exhaust a position, they share its whole
  unrealized PnL.*  A group that has sold today what it holds of the snapshot
  drops the live view, and without a mark the snapshot's figure is shown nowhere
  (`OverlayProperties.DroppedViewLosesItsFigure`); the figure is split whole if
  and only if it is zero or every holding group keeps the view
  (`OverlayProperties.ApportioningConservesUnrealized`).
- *Each adjacent pair of order events follows the table or ends in a forced
  event.*  A broker sync moves the status off the table without one
  (`Orders.SyncLeavesNoForcedEvent`); the history follows the table if and only
  if every synced report does (`Orders.HistoryFollowsTheTableExactly`).

Where a fill meets several matching rules the model follows the code's order.
Sibling rows of a combo summary are found by the order's id alone, as in the
code, although the item links scope the same order to its account.

## Model

| member | source | states |
|---|---|---|
| HandoffAssignments.RunNeverLosesATag | src/services/group_link_carryover.py:25-130 | in every run of intraday syncs, Flex syncs and live taggings, a fill that was tagged is still tagged, or one transaction took its tag and at the end every settled row it was handed is in its group: the one the row had, or that of the first tagged fill to claim it |
| HandoffProperties.RunKeepsInvariant | src/services/group_link_carryover.py:111-130 | in every such run each settled row is in at most one group, each live group link points at a live row, each settled link at a settled row |
| HandoffAssignments.FreeRowGoesToItsClaimant | src/services/group_link_carryover.py:99-130 | a settled row that was in no group ends with exactly the assignment of the first tagged fill, in visiting order, that is handed the row; with none it stays in no group |
| HandoffAssignments.OwnGroupExactly | src/services/group_link_carryover.py:99-130 | a free row a fill is handed ends in the fill's own group if and only if the first fill to claim that row is tagged to the same group, whatever source and time their links carry |
| HandoffAssignments.AssignedRowStays | src/services/group_link_carryover.py:111-119 | a row that was in a group keeps that assignment and gets no other |
| HandoffAssignments.LaterTagIsDropped | src/services/intraday_sync_tws.py:504-562 | a concrete store: two partial BAG fills of one instant, tagged to different groups, settle as one row, which gets the group of the fill visited first, and the other group does not get it |
| HandoffAssignments.HandedExactly | src/services/live_reconcile.py:252-296 | over a whole transaction a tagged fill is carried to exactly the rows of the first guard it meets: own id, else last settled BAG row of its instant, else stripped id, else first book event, else the settled legs of a redundant summary |
| HandoffAssignments.GroupedExactly | src/services/group_link_carryover.py:59-130 | the settled rows in a group after a transaction are those before it and the rows those guards hand to a tagged fill, and no others |
| HandoffAssignments.EveryTwinGroupedExactly | src/services/group_link_carryover.py:59-130 | every row that any rule pairs with a tagged fill ends in a group if and only if each such row its own fill is not handed was in a group already or is handed to another tagged fill |
| HandoffProperties.CarriesAreJustified | src/services/live_reconcile.py:121-249 | every carry of a transaction follows one of the matching rules |
| HandoffAssignments.SecondTwinStaysUngrouped | src/services/intraday_sync_tws.py:542-562 | a concrete store where a fill matched both by id and by BAG instant hands its tag to the first match only, so the second stays ungrouped |
| HandoffProperties.IntradaySurvivors | src/services/intraday_sync_tws.py:542-562 | the exact live rows left by an intraday sync: no row under the same id, no settled BAG at a BAG row's account and instant, no stripped-id or book-event twin, and not a keyed summary without surviving legs whose account and instant have settled legs |
| HandoffProperties.PurgeSurvivors | src/services/intraday_sync_tws.py:504-562 | the exact live rows the settled purge leaves |
| HandoffProperties.ReconcileSurvivors | src/services/live_reconcile.py:252-296 | the exact live rows one reconcile pass leaves, summaries judged by the rows the first loop left |
| HandoffProperties.PeerSummariesDoNotBlock | src/services/live_reconcile.py:186-210 | adding another summary of the same order never changes whether a summary is redundant |
| HandoffProperties.ReconcileOrderDoesNotMatter | src/services/live_reconcile.py:263-296 | any two visiting orders leave the same live rows, the same tags and the same settled rows grouped; the same groups when the tags that compete for a row name one group, and equal ledgers when they are equal |
| HandoffProperties.ReconcileIsIdempotent | src/services/live_reconcile.py:252-306 | a second reconcile pass, in any order, changes nothing |
| HandoffProperties.MatchTwinProperty | src/services/live_reconcile.py:121-166 | a row has a divergent twin exactly when some settled row is its strip twin or book twin, and the one picked is one of them |
| HandoffProperties.SummaryTargetsProperty | src/services/live_reconcile.py:213-249 | a summary is handed exactly the settled legs of its account and instant, under exactly the redundancy condition |
| HandoffColumns.IntradaySurvivorsInColumns | src/services/live_reconcile.py:121-249 | the live rows an intraday sync leaves, in columns: those without a settled row of the same id, the same BAG account and instant, the stripped id or the same booked trade, except BAG summaries with settled legs at their account and instant none of whose order's legs, by perm id when nonzero, else by order id, is still without such a row |
| HandoffColumns.ReconcileSurvivorsInColumns | src/services/live_reconcile.py:252-296 | the same for one reconcile pass, which leaves rows settled under their own id |
| HandoffColumns.LiveLegBlocks | src/services/live_reconcile.py:168-210 | a summary finds no legs to hand over to while another live row under its order key is no summary |
| HandoffColumns.OpenLegKeepsItsSummary | src/services/live_reconcile.py:186-210 | so over a whole intraday sync a summary without a twin stays while some leg under its order key has none |
| HandoffColumns.SameKeySameOrder | src/services/order_keys.py:34-39 | rows with one order key are rows of one order by the column each is looked up in |
| HandoffColumns.HandedInColumns | src/services/live_reconcile.py:121-249 | exactly the settled rows a transaction hands a fill, in columns: the row of its id, else the last BAG row of its account and instant, else the row its id strips to, else the first booked trade, else the legs of a summary whose order has no leg left |
| HandoffColumns.CarriesInColumns | src/services/group_link_carryover.py:59-96 | every carry of a transaction goes to such rows |
| HandoffColumns.WrittenRowIsTheLast | src/services/intraday_sync_tws.py:459-501 | a live row is the last fill of the sync under its id, else as it was |
| Handoff.InsertAllProperty | src/services/group_link_carryover.py:76-96 | folding a link onto several targets houses every target, keeps every existing membership and at most one group per row |
| Handoff.CarryAllProperty | src/services/group_link_carryover.py:48-73 | after a list of carries each carried tag is gone, its first targets are housed, and every new membership carries the tag's own assignment |
| HandoffStore.LiveStore.InsertGroupExecution | src/services/group_link_carryover.py:111-130 | creates the settled link exactly when the row has none, and reports it |
| HandoffStore.LiveStore.CarryOverLinkToExecution | src/services/group_link_carryover.py:59-73 | the new links, and a count equal to the growth of memberships |
| HandoffStore.LiveStore.CarryOverLinkToExecutions | src/services/group_link_carryover.py:76-96 | the same for several targets; an untagged fill or no target changes nothing |
| HandoffStore.LiveStore.CarryOverSettledGroupLinks | src/services/group_link_carryover.py:25-56 | the id-equality carry, scoped or not, and its count |
| HandoffStore.LiveStore.MatchBookEvent | src/services/live_reconcile.py:132-166 | the candidate loop finds the first settled book twin, or that there is none |
| HandoffStore.LiveStore.MatchOrphan | src/services/live_reconcile.py:270-278 | the twin of an orphan, and which of the two rules found it |
| HandoffStore.LiveStore.ReconcileTwins | src/services/live_reconcile.py:269-286 | the state and counts after the first loop, and the orphans it defers in visiting order |
| HandoffStore.LiveStore.ReconcileSummaries | src/services/live_reconcile.py:288-295 | the state and counts after the second loop, although it deletes summaries while it looks for siblings |
| HandoffStore.LiveStore.ReconcileOrphans | src/services/live_reconcile.py:252-306 | the whole pass; orphans equal leg_strip + book_event + bag_summary + unmatched, each class counts its own rows, and links_carried equals the number of new memberships |
| HandoffStore.LiveStore.PurgeSettled | src/services/intraday_sync_tws.py:542-562 | both carries, each in the order of its own query, the deletion, and the number of rows deleted |
| HandoffStore.LiveStore.SettledByKey | src/services/intraday_sync_tws.py:528-534 | the loop over settled BAG rows keeps, per account and instant, the last one, and nothing else |
| HandoffStore.LiveStore.SettledComboSummaries | src/services/intraday_sync_tws.py:504-539 | exactly the live BAG rows with a settled BAG row at their account and instant, each with the last such row |
| HandoffStore.LiveStore.WriteFills | src/services/intraday_sync_tws.py:459-501 | upsert by execution id, the last fill under an id winning |
| HandoffStore.LiveStore.IntradaySync | src/services/intraday_sync_tws.py:599-621 | the table part of an intraday sync takes the store to the next state of the run and keeps the invariant |
| HandoffStore.LiveStore.FlexSync | src/services/trade_sync_flexquery.py:288-306 | the table part of a Flex sync, likewise |
| HandoffStore.LiveStore.TagLive | src/api/routers/trade_groups.py:802-824 | the loop tags each fill to the group with its own time stamp, a tagged fill moving there, and takes the store to the next state of the run |
| HandoffStore.ReconcileInTwoLoops | src/services/live_reconcile.py:252-296 | the two loops together are the one pass judged row by row |
| ExecRoles.RoleOfEachFill | src/services/intraday_sync_tws.py:317-353 | a fill of an order with a BAG fill and legs in two contracts is a summary when BAG and a leg otherwise; every other fill is standalone |
| ExecRoles.BatchOrderDoesNotMatter | src/services/intraday_sync_tws.py:317-353 | the roles do not depend on the order of the batch |
| ExecRoles.RolesInColumns | src/services/intraday_sync_tws.py:317-353 | the role of every fill from the batch's columns: order by perm id when nonzero, else order id; a BAG fill and two contracts among the others |
| ExecRoles.ExecRolesByExecId | src/services/intraday_sync_tws.py:317-353 | the grouping and assignment loops compute those roles |
| IngestProperties.OneCanonicalAfterEveryRun | src/services/sync_common.py:177-202 | from an empty store, after any sequence of ingests from either feed, exactly one row per account and base is canonical, and none has a higher revision |
| IngestProperties.ReingestChangesNoRowSet | src/services/fill_ingest.py:274-331 | re-ingesting a batch inserts no row and flips no revision flag, where tied revisions come in the same order both times |
| IngestProperties.RowOrderOnlyBreaksTies | src/services/sync_common.py:182-190 | with distinct revisions the order in which the store returns rows does not change which row of a group is read first |
| IngestProperties.DistinctRevisionsDecide | src/services/sync_common.py:194-199 | with distinct revisions a row is canonical exactly when none of its group has a higher revision, whatever that order |
| IngestProperties.NothingInsertedNothingFlipped | src/services/fill_ingest.py:542-544 | an ingest that inserts nothing leaves every flag as it was |
| IngestProperties.TouchedTradesAreUpToDate | src/services/fill_ingest.py:547-549 | after an ingest every touched trade's aggregates are the fold over its canonical rows |
| StaleTotals.AllUpToDateExactly | src/services/fill_ingest.py:542-550 | after one ingest every trade of the store is up to date if and only if, for each trade the batch does not touch, the fold over the canonical rows it keeps is what it has stored |
| StaleTotals.TouchedByTheParentRule | src/services/fill_ingest.py:181-207 | a batch of plain fills (no combo key; matched by perm id or own reference, or in a store where every trade has a symbol) touches exactly those stored trades that the parent rule, on the store as it is before the call, gives some fill of the batch |
| StaleTotals.PlainBatchLeavesNoneStaleExactly | src/services/fill_ingest.py:509-550 | after such a batch every trade is up to date if and only if each stored trade is the parent of some fill of the batch or has the totals of the rows it keeps, all read off the store before the call |
| StaleTotals.PlainBatchLosesNothingExactly | src/services/fill_ingest.py:509-550 | and it loses no row of an untouched trade if and only if every canonical row it rewrites or overtakes hangs off the parent of some fill of the batch |
| StaleTotals.AllTradesStayUpToDate | src/services/fill_ingest.py:509-550 | over a run, if at each call every canonical row whose id the batch writes, or which it overtakes with a new revision, hangs off a trade the batch touches, every trade of the store is up to date |
| StaleTotals.StableRunsLoseNothing | src/services/fill_ingest.py:509-550 | that holds whenever no fill changes parent and the revisions of a base share one |
| KeyedRuns.KeyedRunsAreStable | src/services/fill_ingest.py:181-183 | and no fill changes parent, nor do revisions split, when the fills alone satisfy this: each names its order by a positive perm id, an id keeps its account, and the revisions of a base name one order |
| KeyedRuns.KeyedRunsStayUpToDate | src/services/fill_ingest.py:542-550 | from an empty store, under that condition on the fills, every trade is up to date after any run over either feed |
| KeptRows.WrittenAdds | src/services/fill_ingest.py:274-331 | the rows after the writing phase are the stored ones in place and then, in order, one row per id that is neither stored nor earlier in the batch, fills first and then synthesized summaries, each with its account, base and revision |
| KeptRows.WrittenRewrites | src/services/fill_ingest.py:311-327 | a row whose id the batch does not write is left as it was, and every written row hangs off a touched trade |
| KeptRows.StaysCanonicalExactly | src/services/sync_common.py:177-202 | a stored row is canonical after an ingest if and only if it was and the batch adds no revision of its base that is read before it |
| KeptRows.UntouchedRowsAreTheKept | src/services/fill_ingest.py:509-550 | the canonical rows of a trade a batch does not touch are exactly its stored ones whose id the batch does not write and which it does not overtake, from either feed |
| KeptRows.UntouchedRowsStayExactly | src/services/fill_ingest.py:509-550 | they are the rows it had if and only if no canonical row of the trade has an id the batch writes and no new id of the batch overtakes one |
| WrittenRows.RowsAreCorrected | src/services/fill_ingest.py:274-331 | after an ingest the row of every fill's id shows the last fill the batch has under it in quantity, price, commission, type, outcome, role and feed, and keeps account, time, side and order reference as stored, or from the batch's first fill under a new id; except where the batch stores a summary under that id |
| WrittenRows.SummariesAreShown | src/services/fill_ingest.py:416-469 | the row of every summary's id shows, in every column but account and feed, the summary of the last of the batch's combos stored under it |
| IngestColumns.ExecIdReadsBack | src/services/sync_common.py:101-116 | a base and a decimal number joined by a dot parse back to both; any other suffix, and none, reads as revision 1 |
| IngestColumns.PlainParentInColumns | src/services/fill_ingest.py:161-207 | a plain fill goes under the first trade with its account and perm id, else own reference, else order, symbol, side and, for TWS, day; its blank contract columns are filled in; and exactly when there is none a new trade of the fill's identity is made |
| IngestColumns.FeedsDiffer | src/services/fill_ingest.py:66-76 | only TWS asks for the trade's first day on the third tier, and only its ingest turns standalone fills beside a summary into legs |
| IngestColumns.ParentIsFoundAgain | src/services/fill_ingest.py:161-207 | sent again at once, a fill finds that trade if and only if the trade was there before or its tier does not ask for the day |
| IngestColumns.ComboParentInColumns | src/services/fill_ingest.py:210-249 | a combo's fill goes under the trade the call already uses, else that of the first stored summary of the combo in its account, else a new BAG trade named by the underlying |
| IngestColumns.TradesKeepTheirIdentity | src/services/fill_ingest.py:258-266 | an ingest never changes account, perm id, order ids, side or feed of a stored trade, nor a symbol, exchange or currency it has |
| IngestColumns.RowsHangUnderTheirParent | src/services/fill_ingest.py:521-530 | after an ingest the row of a plain fill hangs under a trade that carries the identity of the last fill under its id |
| IngestColumns.LegsShareATrade | src/services/fill_ingest.py:210-249 | and the rows of one combo's fills hang under one trade |
| IngestColumns.SynthesisInColumns | src/services/fill_ingest.py:351-391 | a synthesized summary holds the legs' net cash over its quantity as price, its sign as side, the sum of the known commissions, the earliest time and the reference all legs share |
| IngestColumns.ComboIdInColumns | src/services/fill_ingest.py:382-391 | its id is slot 01.01 of the one prefix the legs' ids have, else made of the combo key |
| IngestColumns.PrefixInColumns | src/services/fill_ingest.py:382-388 | the prefix is the first two of at least four segments |
| StaleTotals.UntouchedTradeIsUnchanged | src/services/fill_ingest.py:509-550 | when the batch loses no canonical row of a trade it does not touch, such a trade's canonical rows and totals do not change |
| StaleTotals.UntouchedIsUpToDateExactly | src/services/fill_ingest.py:547-549 | a trade the batch does not touch is up to date afterwards if and only if the fold over its stored rows that are kept gives its stored totals, from either feed |
| StaleTotals.PlainTradeIsUpToDateExactly | src/services/fill_ingest.py:547-549 | a trade of sized fills without a summary that was up to date stays so if and only if each of its canonical rows is kept: one lost row already shows in the quantity |
| StaleTotals.MovedFillLeavesStaleTotals | src/services/fill_ingest.py:311-315 | a concrete store and fill: a fill re-sent under another order leaves its old trade with stale totals |
| IngestProperties.FinishProperty | src/services/fill_ingest.py:542-550 | what the final passes change: flags and roles of rows, totals of touched trades, nothing else |
| IngestProperties.WriteFillIds | src/services/fill_ingest.py:274-331 | a fill adds its own id and counts as inserted exactly when the id is new |
| IngestProperties.WriteSummaryIds | src/services/fill_ingest.py:419-469 | a synthesized summary adds its own id, and counts as inserted exactly when that id is new |
| IngestPipeline.EnforceAllProperty | src/services/sync_common.py:177-202 | visiting groups any number of times sets the flag on each one's best row and clears the rest |
| IngestPipeline.FlaggedProperty | src/services/fill_ingest.py:542-544 | the revision pass makes every group's flags right and changes rows only of groups that received a new row |
| IngestPipeline.WriteFillKeeps | src/services/fill_ingest.py:521-530 | writing a fill keeps stored rows' place, account, base, revision and flag, and records trade and base of every new or changed row |
| IngestPipeline.WriteSummaryKeeps | src/services/fill_ingest.py:532-540 | the same for a synthesized summary |
| AggregateProperties.AverageIsBetweenCountedPrices | src/services/sync_common.py:230-245 | quantity times average price is the counted notional, and the average lies between any bounds of the counted prices |
| AggregateProperties.AverageWhenCounted | src/services/sync_common.py:232-246 | the quantity is the counted size, and there is an average exactly when a counted execution has a size |
| AggregateProperties.CountedProperty | src/services/sync_common.py:227-241 | counted are the canonical combo summaries when there are any, else all canonical executions |
| IngestColumns.TotalsInColumns | src/services/sync_common.py:205-252 | quantity is the sum of absolute sizes over the counted rows, average times quantity that of absolute size times price, and every figure is absent exactly when the trade has no canonical row |
| AggregateProperties.FirstAndLastAreExtremes | src/services/sync_common.py:242-248 | first and last time are attained extremes over all canonical executions, legs included |
| AggregateProperties.StatusIsTheSharedOutcome | src/services/sync_common.py:249-249 | a book-event status is reported exactly when every canonical execution has that outcome |
| AggregateProperties.DeferredEqualsEager | src/services/trade_sync_flexquery.py:338-351 | Flex chunks ingested without the aggregate pass, then one recompute over all touched trades, give the same store as recomputing after each chunk, while no chunk loses a row of a trade it does not touch, so in particular while parents are stable |
| AggregateProperties.ParentIgnoresTotals | src/services/fill_ingest.py:181-207 | a feed that does not match on the trade date finds the same parent whatever the aggregates say |
| ComboTracking.BatchTracks | src/services/fill_ingest.py:521-550 | one batch, holding any of the order's fills among fills of other orders, adds exactly the order's fills to what its one trade and rows hold, none standalone once a BAG fill is in |
| ComboRuns.ComboRunProperty | src/services/fill_ingest.py:472-488 | on any store that does not know the order, however its fills are delivered among those of other orders, the order has one trade, BAG and with fresh totals, holding exactly one row per fill with a fixed role and flag |
| ComboRuns.DeliveriesAgreeExactly | src/services/fill_ingest.py:311-327 | between any two such stores all deliveries agree on the order's rows, type and totals if and only if no two fills tie for being read first: by falling revision, then in the store's order of equal revisions |
| ComboRuns.DeliveriesAgree | src/services/fill_ingest.py:542-550 | with one highest revision per base, any two deliveries, split, ordered, repeated or mixed with other orders' fills differently, agree, whatever the store's order of equal revisions |
| ComboRuns.TiedDeliveriesDiffer | src/services/sync_common.py:188-199 | two fills that the revision and the store's order leave tied: the one stored first is canonical, so two deliveries differ |
| ComboRuns.SomeIdsTie | src/services/sync_common.py:101-116 | the ids `c` and `c.1` parse to one base and revision: a concrete combo order with these two fills ties in any store that does not tell the ids apart |
| ComboRuns.TotalsOfPermutation | src/services/sync_common.py:205-252 | a trade's totals do not depend on the order of the rows |
| ComboSynthesis.ComboQuantityProperty | src/services/fill_ingest.py:363-376 | the summary's quantity is the greatest common divisor of the nonzero whole leg sizes, and 1 when one is fractional or all are zero |
| ComboSynthesis.SummaryKeepsNetCash | src/services/fill_ingest.py:378-379 | quantity times price is the legs' net cash and the side its sign |
| ComboSynthesis.SynthesisIgnoresLegOrder | src/services/fill_ingest.py:351-391 | reordering the legs changes nothing, the row id included |
| IngestRun.LegSizes | src/services/fill_ingest.py:363-373 | the size loop, abandoned at the first fractional leg |
| IngestRun.CommonSize | src/services/fill_ingest.py:374-376 | the gcd reduction with its fallback to 1 |
| IngestRun.IngestRun.MatchParentTrade | src/services/fill_ingest.py:181-207 | the tiers and the candidate loop find the first trade of the one tier that applies |
| IngestRun.IngestRun.ResolveComboParent | src/services/fill_ingest.py:210-249 | this call's parent, else the one a stored summary names, else a new BAG trade |
| IngestRun.IngestRun.EnforceCanonicalFlags | src/services/sync_common.py:177-202 | the flags of one group, and the exact number of rows whose flag changed |
| IngestRun.IngestRun.RetagComboLegs | src/services/fill_ingest.py:472-488 | the per-trade loop, in any order, equals tagging all touched trades at once |
| IngestRun.IngestRun.RecomputeTradeAggregates | src/services/sync_common.py:205-252 | one trade's totals from the accumulating loop |
| IngestRun.IngestRun.Finish | src/services/fill_ingest.py:542-550 | flags, then roles, then totals unless deferred, and the number of flag changes |
| IngestRun.IngestFills | src/services/fill_ingest.py:553-572 | the whole call: its tables, touched trades and inserted count, one upsert per fill and per combo of two legs or more, and no reported flag change when nothing was inserted |
| IngestRun.NothingInsertedNothingReported | src/services/fill_ingest.py:542-544 | a call that inserts nothing reports no flag change |
| IngestRun.ReportedFlips | src/services/sync_common.py:177-202 | the flag changes a call reports are exactly the rows whose flag it left different, however often a group is visited |
| Calendar.CutoffIsTheDateTest | src/services/intraday_overlay.py:104-138 | the per-row date test and the instant cutoff pick the same captures, for any strictly increasing day starts |
| Calendar.StaleMeansPriorDay | src/services/intraday_overlay.py:69-91 | a capture is stale exactly when its local day is before today and the import postdates that day's start |
| Calendar.DateIsUnique | src/services/intraday_overlay.py:94-101 | an instant has exactly one local date |
| OverlayProperties.ShownExactly | src/services/intraday_overlay.py:354-366 | a key is shown exactly when it has a live row, or a settled row in an account without a current capture |
| OverlayProperties.ShownOnce | src/services/intraday_overlay.py:379-479 | with unique input keys no key is shown twice |
| OverlayProperties.ViewCount | src/services/intraday_overlay.py:379-479 | one view per live row plus one per settled-only row that is kept |
| OverlayProperties.SupersededCapturesHideNothing | src/services/intraday_overlay.py:370-373 | an account with only superseded captures shows every settled row it has |
| OverlayColumns.MergedLiveRow | src/services/intraday_overlay.py:379-441 | the view of a live row in columns: position, cost and, with a mark, position times (mark times multiplier less cost) from the capture, or the snapshot's numbers when the capture's day is over and outdated; a mark exactly for a positive quote, not an hour old for futures, scaled by the magnifier; the snapshot row's figures beside it |
| OverlayColumns.GainHasTheSign | src/services/intraday_overlay.py:178-182 | a long position shows a gain exactly when the mark exceeds its cost, a short one exactly when the cost exceeds the mark |
| OverlayColumns.MergedSettledRow | src/services/intraday_overlay.py:443-477 | every other view is a snapshot row as stored, its cost times the multiplier, without a live row and in an account without a capture as new as its snapshot |
| OverlayColumns.ShownInColumns | src/services/intraday_overlay.py:354-373 | and all such rows are shown |
| OverlayColumns.LoadedSettledRows | src/services/trade_group_pnl.py:204-272 | the snapshot rows loaded are exactly the open ones of the pairs |
| OverlayColumns.LoadedLiveRows | src/services/trade_group_pnl.py:204-272 | the live rows loaded are exactly the open ones of the pairs with an open snapshot row or a capture not older than the account's newest snapshot date |
| OverlayColumns.LoadedRowInColumns | src/services/trade_group_pnl.py:204-272 | over a loaded context each live row's view shows the stored quote and magnifier of its contract |
| OverlayProperties.WatermarkPurge | src/services/position_sync_flexquery.py:133-143 | the watermark purge deletes exactly the captures the per-row test calls superseded |
| OverlayProperties.BatchEqualsSingle | src/services/trade_group_pnl.py:518-530 | a group's views, totals, per-account figures and stale flag are the same in any batch as computed alone |
| OverlayProperties.WiderContextChangesNothing | src/services/trade_group_pnl.py:204-272 | a context loaded for more pairs gives a group the same overlay as one loaded for its own |
| OverlayProperties.SettledPathEqualsFullPath | src/services/trade_group_pnl.py:587-613 | the settled-only batch path gives the realized and settled unrealized figures of the full path, absent read as zero |
| RealizedPnl.RealizedIsWhatCounts | src/services/execution_pnl.py:51-75 | the realized total is the sum, each once, of the summaries and standalone fills when a summary is valued, else of legs and standalone fills; absent exactly when none of those is valued |
| RealizedPnl.LegsDoNotCount | src/services/execution_pnl.py:51-75 | while a summary is valued, adding, dropping or revaluing legs leaves the total |
| RealizedPnl.UnvaluedSummariesDoNotCount | src/services/execution_pnl.py:51-75 | while none is, so does adding or dropping summaries |
| RealizedPnl.SummariesReplaceLegs | src/services/execution_pnl.py:51-75 | valued summaries take the place of exactly the legs' sum |
| RealizedPnl.BatchRealizedIsWhatCounts | src/services/trade_group_pnl.py:587-626 | both batch entry points answer that sum for every group |
| OverlayColumns.IntradayRealizedInColumns | src/services/intraday_overlay.py:505-560 | the intraday realized PnL adds each live fill of the group's pairs that is not settled under its id, once, to the settled figure |
| OverlayColumns.TotalsInColumns | src/services/intraday_overlay.py:482-567 | the intraday figure sums per view the live unrealized PnL, else the snapshot's, absent without any; the total adds the realized part; the mark time is the newest |
| OverlayColumns.GroupViewsInColumns | src/services/trade_group_pnl.py:142-171 | a group shows exactly the merged views it holds a share of, position and live figure cut by the share of the position, both snapshot figures by the share of the snapshot row, per-unit columns as they are |
| OverlayColumns.AccountInColumns | src/services/trade_group_pnl.py:460-489 | an account is broken out when it has a view or a settled fill, with figures over its own rows alone |
| OverlayColumns.StaleFlagInColumns | src/services/trade_group_pnl.py:407-418 | a group is flagged exactly when it shows a captured position and the snapshot outdates the capture of every one it shows |
| OverlayColumns.PairsInColumns | src/services/trade_group_pnl.py:301-306 | a group's pairs are those its settled and live fills name and those its links carry |
| OverlayProperties.BatchPathsAgree | src/services/trade_group_pnl.py:587-626 | for every group of a batch the settled-only entry point and the overlay entry point answer the same realized PnL and, absent read as zero, the same settled unrealized; the answers are equal if and only if a settled pair of the group has a valued open position or no pair of it has |
| OverlayProperties.NoLiveRowsNoDifference | src/services/intraday_overlay.py:482-490 | with no live position row of the group's pairs its intraday unrealized is its settled unrealized, through merge, apportion and totals |
| OverlayProperties.ApportioningConservesQuantity | src/services/trade_group_pnl.py:142-171 | the quantities shown to groups the position covers sum to exactly what they hold |
| OverlayProperties.ApportioningConservesUnrealized | src/services/trade_group_pnl.py:142-171 | when the holdings exhaust the position a view's figure values (the live one, or the snapshot's of a live view without a mark), the whole figure is split between the groups if and only if it is zero or every group that holds part of the position keeps the view |
| OverlayProperties.MarkedFigureIsWhole | src/services/trade_group_pnl.py:142-171 | so the figure of a settled view, and of a live view with a mark, is always split whole |
| OverlayProperties.DroppedViewLosesItsFigure | src/services/trade_group_pnl.py:154-170 | a live view without a mark, and a group that holds the whole snapshot position but nothing in total: the group drops the view and its figure is lost |
| OverlayProperties.AccountsReconcile | src/services/trade_group_pnl.py:460-489 | the per-account intraday unrealized figures add up to the group's |
| Holdings.HoldingStaysWithinOpening | src/services/trade_group_pnl.py:83-93 | whatever the fills, a holding never exceeds or flips what was opened |
| Holdings.NothingHeldExactly | src/services/trade_group_pnl.py:83-93 | nothing is held exactly when the opposing closes outweigh the opening |
| HoldingColumns.SettledHoldingInColumns | src/services/trade_group_pnl.py:75-128 | a settled holding is the signed sum of the canonical fills not marked as closes, no summaries, less the closes against that sum, and nothing once they outweigh it |
| HoldingColumns.TotalHoldingInColumns | src/services/trade_group_pnl.py:75-128 | the same with the unsettled fills, each of which opens |
| HoldingColumns.SignInColumns | src/services/trade_group_pnl.py:76-80 | a sale counts negative, any other side positive, and without a side the quantity as signed |
| Holdings.FractionIsAShare | src/services/trade_group_pnl.py:131-135 | the held fraction lies in [0, 1] and is positive exactly for a holding on the position's side |
| Holdings.ShareIsTheHolding | src/services/trade_group_pnl.py:131-135 | a share of the position is the holding itself if and only if the position covers the holding |
| Holdings.ComputeHoldings | src/services/trade_group_pnl.py:109-128 | the two grouping loops and the netting compute each pair's holding |
| OverlayLoops.MergePositions | src/services/intraday_overlay.py:330-479 | the two loops with the growing set of seen keys compute the merge |
| OverlayLoops.ApportionToGroup | src/services/trade_group_pnl.py:142-171 | the loops compute the shares and the cut views |
| OverlayLoops.SettledBatchPnls | src/services/trade_group_pnl.py:587-613 | the table and summing loops compute each group's figures, for every iteration order of its pairs |
| OverlayLoops.FigureIgnoresOrder | src/services/trade_group_pnl.py:606-608 | the iteration order of a group's pairs does not matter |
| ItemLinks.AtMostOneOpenAlways | src/services/item_links.py:29-35 | from empty tables, whatever is attached, detached, merged, carried, inherited or ended, an item has at most one open link of a tag and one of a task |
| ItemLinks.MergeProperty | src/services/item_links.py:38-55 | merging two distinct tags leaves the target the union of open items and every ended link of both, the source nothing, other tags untouched |
| ItemLinks.CarryOverProperty | src/services/item_links.py:86-115 | after a carry-over each trade has the fill's open owners next to its own, and the fill has no link left |
| ItemLinks.InheritProperty | src/services/item_links.py:134-171 | a live fill ends with exactly its own tags or tasks and those of the other live fills of its order |
| ItemLinks.OrderIsUniform | src/services/item_links.py:156-170 | all live fills of an order end with the same tags and tasks |
| ItemLinks.InheritAgainAddsNone | src/services/item_links.py:134-171 | a second inheritance pass changes nothing |
| ItemLinks.DetachProperty | src/services/item_links.py:58-63 | detaching removes the open link only; ended links stay |
| ItemLinks.EndFlatProperty | src/services/item_links.py:181-208 | an open link ends exactly when its position is flat in a recent enough snapshot; nothing else of any row changes |
| ItemLinks.OwnersOnProperty | src/services/item_links.py:149-154 | the snapshot of a fill's owners holds exactly its open links |
| ItemLinkRows.AttachInColumns | src/services/item_links.py:29-35 | attaching opens a link by the given creator now exactly when the item has none open of the owner |
| ItemLinkRows.MergeInColumns | src/services/item_links.py:38-55 | a merge leaves all other rows in place and adds rows with the item and creator of a source row, opened now or with their dates |
| ItemLinkRows.CarryOverInColumns | src/services/item_links.py:86-115 | a carry-over leaves the rows off the fill in place and each added one credits who linked the fill, opened now; without a trade nothing moves |
| ItemLinkRows.InheritInColumns | src/services/item_links.py:134-171 | inheritance changes no row; each added one is for an owner the fill lacked, crediting who linked the last fill of the order, within the account, that has it |
| ItemLinkRows.EndFlatInColumns | src/services/item_links.py:181-208 | exactly the open links of positions held nowhere, whose account's snapshot date, else the newest, is not before the link's Chicago day, end now |
| ItemLinkStore.LinkTable.AttachLink | src/services/item_links.py:29-35 | opens a link unless one is open, and reports whether a row was added |
| ItemLinkStore.LinkTable.DetachLink | src/services/item_links.py:58-63 | the rows left and the number removed |
| ItemLinkStore.LinkTable.MoveTagLinks | src/services/item_links.py:38-55 | moving and deleting row by row gives the merge, and the number of links moved |
| ItemLinkStore.LinkTable.CarryOverLinks | src/services/item_links.py:86-115 | the nested loops and the deletions give the carry-over, and the number of links added |
| ItemLinkStore.LinkTable.InheritOrderLinks | src/services/item_links.py:134-171 | the nested loops over orders, fills and owners give the inheritance, and the number of links added |
| ItemLinkStore.LinkTable.EndFlatPositionTags | src/services/item_links.py:198-208 | the loop ends exactly the flat links and counts them |
| Orders.NewestEventMirrorsTheOrder | src/services/order_queue.py:85-152 | in every run the newest event has the order's status, filled quantity, average price and broker id, and a terminal order a completion time |
| OrderColumns.NewestEventShowsTheLastReport | src/services/order_worker.py:244-289 | in every run the newest event shows the filled quantity, not below zero, and average price of the last report applied, or nothing filled when none was |
| OrderColumns.FillsOfRun | src/services/order_sync_tws.py:281-378 | and so does the row |
| OrderColumns.OrderIdOfRun | src/services/order_sync_tws.py:281-378 | in every run the broker id is the last nonzero one reported, or the imported one |
| OrderColumns.ProgressInColumns | src/services/order_worker.py:205-289 | every column after a worker's report: fills and status as reported, ids where nonzero, names where given, stamps, and exactly which events are logged; changed exactly when a compared column differs |
| OrderColumns.SyncInColumns | src/services/order_sync_tws.py:281-378 | the same for a broker sync, with the terms |
| OrderColumns.ImportInColumns | src/services/order_sync_tws.py:198-254 | every column and the event of an imported order |
| OrderColumns.ClaimInColumns | scripts/work_order_queue.py:93-123 | a claimed order ends failed with the error, its fills and ids untouched, and each stage logged in order |
| OrderColumns.StartupInColumns | src/services/order_worker.py:454-487 | without a broker report startup puts up exactly the started orders for reconciliation, marks those already up, and leaves any other alone |
| OrderColumns.CancelInColumns | src/api/routers/orders.py:202-235 | the API cancels a queued order, with its completion time and one event, and changes no other |
| OrderColumns.TableByColumn | src/services/order_queue.py:34-76 | the transition table by target, and that exactly the terminal statuses have no way out |
| OrderColumns.StatusInColumns | src/services/order_worker.py:90-99 | every broker word and fill means exactly one status, the one computed |
| Orders.WorkerHistoryFollowsTheTable | src/services/order_worker.py:205-289 | without broker syncs every adjacent pair of events keeps the status, follows the table, or ends in an event marked forced |
| Orders.SyncKeepsToTableExactly | src/services/order_sync_tws.py:308-378 | a broker sync keeps the history on the table if and only if its report keeps the order's status or moves it along the table |
| Orders.HistoryFollowsTheTableExactly | src/services/order_queue.py:34-152 | in every run, broker syncs included, each adjacent pair of events is equal, allowed or forced if and only if every sync does so, given the status the earlier inputs lead to |
| Orders.StatusOfRun | src/services/order_worker.py:205-289 | that status follows from the run's inputs alone |
| Orders.SyncLeavesNoForcedEvent | src/services/order_sync_tws.py:308-340 | a concrete run: a broker sync moves a queued order to filled and leaves no forced event |
| Orders.ReconcileIsSound | src/services/order_worker.py:454-487 | startup reconciliation of any order never meets a transition error and keeps the log a mirror |
| Orders.ProcessIsSound | src/services/order_worker.py:379-437 | processing fails an order, with the error recorded, exactly when the table lets its status fail |
| Orders.ClaimedOrdersFail | scripts/work_order_queue.py:93-123 | every claimed order ends failed, with completion time and error |
| Orders.ProgressIsSound | src/services/order_worker.py:244-289 | applying any broker report keeps the log a mirror, on the forced path too |
| Orders.SyncIsSound | src/services/order_sync_tws.py:344-378 | so does a broker sync onto a stored order |
| Orders.TransitionIsSound | src/services/order_queue.py:111-152 | a transition succeeds exactly when the table allows it or it is forced, and then leaves a sound log |
| Orders.CancelIsSound | src/api/routers/orders.py:202-231 | the API cancels exactly queued and terminal orders, and leaves them terminal |
| OrderRow.StartupIsAStep | src/services/order_worker.py:454-487 | startup's handling of an order is that step of a run, and counts it as touched exactly when it logged an event |
| OrderRow.Order.TransitionStatus | src/services/order_queue.py:111-152 | the new row and event, or the error with the row unchanged |
| OrderRow.Order.ApplyTradeProgress | src/services/order_worker.py:244-289 | the new row, its events, and whether anything changed |
| OrderRow.Order.ClaimForSubmission | scripts/work_order_queue.py:93-123 | the compare-and-set from queued to submitting |
| OrderRow.Order.ProcessOrder | src/services/order_worker.py:379-437 | the row a failed processing leaves |
| OrderRow.Order.CancelOrder | src/api/routers/orders.py:201-235 | a queued order is cancelled with its event, a terminal one returned as it is, any other refused unchanged |
| OrderRow.Order.SyncTrade | src/services/order_sync_tws.py:344-378 | the new row, its events, and whether anything changed |
| OrderRow.Order.Import | src/services/order_sync_tws.py:198-254 | the row and event of an order created from a broker report: its numbers as reported, a zero id included, and a default for each missing term |
| OrderRow.ReconcileOpenOrders | src/services/order_worker.py:440-488 | every non-terminal order ends as its own report says, no order raises, and the touched count is exact |
| Jobs.ClaimsAreAccountedFor | src/services/jobs.py:117-178 | in every run claims equal attempts + deferrals + the run that is on or completed, attempts stay within the maximum, and a job is failed exactly when they reach it |
| Jobs.WorkerIsARun | scripts/work_jobs.py:155-210 | after any run, the worker's loop is a run of claims and reports alone that leaves the same rows |
| Jobs.WorkerIsAccountedFor | scripts/work_jobs.py:155-210 | so the accounts hold of every row the worker's loop leaves, whatever the queue went through before |
| Jobs.ClaimsAreBounded | src/services/jobs.py:148-178 | a job deferred at most d times is claimed at most d plus its maximum of attempts |
| Jobs.JobEnds | scripts/work_jobs.py:155-207 | in every run of the queue a job claimed its maximum of attempts plus d times, with at most d deferrals, and not running is completed or failed |
| Jobs.CyclesEnd | scripts/work_jobs.py:155-207 | with at most d deferrals, as many cycles as the attempts and deferrals left end the job, whenever each is claimed and recorded |
| Jobs.CycleSpendsBudget | scripts/work_jobs.py:187-206 | each cycle of a queued job finishes it or spends some of that budget |
| Jobs.FailsExactly | src/services/jobs.py:166-178 | a job fails exactly when the attempts left are used up before its first success; waiting never costs one |
| Jobs.TerminalJobsStay | src/services/jobs.py:117-136 | a finished job is never claimed, reported on or requeued again |
| Jobs.IdleEnqueueIsExclusive | src/services/jobs.py:91-114 | a type only ever enqueued when idle never has two active jobs |
| Jobs.NextJob | src/services/jobs.py:117-131 | the claimable job created first, or that there is none |
| JobColumns.WaitingJobStays | src/services/jobs.py:117-178 | whatever else happens, a requeued job is left alone, archiving aside, until a claim at or after its time |
| JobColumns.ClaimInColumns | src/services/jobs.py:117-136 | a claim starts an oldest queued, due, unarchived job and changes nothing else; it does nothing exactly when there is none |
| JobColumns.ReportInColumns | src/services/jobs.py:139-178 | what completing, deferring and failing leave of every column |
| JobColumns.EnqueueInColumns | src/services/jobs.py:64-114 | a new job waits from now on with no attempt spent; an idle enqueue adds one exactly when no unarchived job of the type is queued or running |
| JobQueue.JobQueue.ClaimNext | src/services/jobs.py:117-136 | starts that job and no other |
| JobQueue.JobQueue.EnqueueIfIdle | src/services/jobs.py:91-114 | enqueues exactly when no unarchived job of the type is queued or running |
| JobQueue.Job.FailOrRetry | src/services/jobs.py:166-178 | the row after a failure |
| JobQueue.Job.Defer | src/services/jobs.py:148-163 | the row after a deferral, attempts untouched |
| JobQueue.JobQueue.Work | scripts/work_jobs.py:155-210 | the worker's loop over the table, each job claimed and recorded at its own time; it stops early only when nothing is claimable |
| Broadcast.SubscribersMissNothing | src/services/ui_events.py:104-137 | in every run what a registered subscriber consumed followed by its queue is exactly the events of its topics since it subscribed; a dropped one has a first part of them; no queue passes its bound |
| Broadcast.DroppedExactly | src/services/ui_events.py:120-137 | a publish drops exactly the registered subscribers of its topic that are 256 events behind |
| Broadcast.UnsubscribedGetsNothingMore | src/services/ui_events.py:116-137 | whatever happens later, a client that unsubscribed keeps what it had been sent and is sent nothing more |
| Broadcaster.Broadcaster.Publish | src/services/ui_events.py:120-137 | the queues and the subscribers after a publish, in any iteration order |
| Broadcaster.Broadcaster.Subscribe | src/services/ui_events.py:110-114 | a new subscriber is due nothing yet |
| Broadcaster.Broadcaster.Unsubscribe | src/services/ui_events.py:116-118 | only that subscriber leaves |
| Broadcaster.Broadcaster.Consume | src/services/ui_events.py:92-96 | a client takes the first queued event |

## Left out

- HandoffStore.LiveStore.CarryOverLinkToExecution: the item links the same entry point carries are modelled apart, in `ItemLinkStore.LinkTable.CarryOverLinks`.
- HandoffStore.LiveStore.CarryOverLinkToExecutions: likewise.
- HandoffStore.LiveStore.CarryOverSettledGroupLinks: likewise.
- HandoffStore.LiveStore.PurgeSettled: likewise.
- HandoffStore.LiveStore.FlexSync: likewise; the settled table the ingest leaves is any table that keeps the stored ids in place.
- HandoffStore.LiveStore.WriteFills: the fills are those of the window and of known accounts, and the keeping of a stored realized PnL is not modelled.
- HandoffStore.LiveStore.IntradaySync: does not model the fill window, the fetch, the merge of a missing realized PnL into the stored one, or the item-link hooks at the end; the roles of the batch are modelled separately in `ExecRoles`.
- HandoffStore.LiveStore.TagLive: the fills of the position are given, and only links of live fills are modelled; the sibling fan-out of a tagged combo and manual assignment of settled executions are not modelled.
- HandoffAssignments.RunNeverLosesATag: groups are never deleted and settled links never removed by hand in these runs.
- ItemLinks.CarryOverProperty: item links and group links are carried by the same entry points; the two are modelled as separate tables and their carries are not composed.
- IngestRun.IngestFills: accounts are given as ids, and contract id, exchange, currency, liquidity, raw payload and timestamps of rows are not modelled.
- FillIngest.ParseExecId: a revision is read from plain digits only; signs, underscores and spaces that Python's `int` accepts count as no number.
- IngestProperties.ReingestChangesNoRowSet: a store that returns tied revisions in another order the second time could still flip their flags.
- AggregateProperties.DeferredEqualsEager: the condition is sufficient; a trade left stale by one chunk may be recomputed by a later one.
- KeyedRuns.KeyedRunsStayUpToDate: covers fills with a perm id, which FlexQuery fills lack; for those the condition is on the store before each call.
- ComboRuns.DeliveriesAgree: other fills in the batches have a positive perm id of another order and share no id or base with the combo.
- Common.Day: the calendar day of an instant is its UTC day.
- Calendar.DateOf: time zone rules appear only as strictly increasing day starts.
- OverlayProperties.AccountsReconcile: the per-account settled figures and realized figures are modelled but not claimed to add up; views without a live share and valued combo summaries break it.
- Overlay.LiveView: display fields, option greeks and expiries are not modelled.
- OverlayProperties.WatermarkPurge: the second purge signal, fills that net to zero, is not modelled.
- Overlay.RealizedTotal: reading a realized PnL or a lifecycle from a raw payload is not modelled; both are fields of the fill.
- ItemLinks.MergeProperty: the account and contract copied onto a live-fill link are not modelled.
- ItemLinkStore.LinkTable.CarryOverLinks: the trades of the settled executions are given, each once.
- Orders.ClaimedOrdersFail: order submission is switched off, so the code after the unconditional error and the poll loop are unreachable and left out.
- Orders.SyncIsSound: side, quantity and limit price of a report are taken as already normalized.
- OrderRow.Order.Import: the account, the request text and the upper-casing of codes are not modelled.
- JobQueue.JobQueue.Work: handlers are their outcomes; a worker that dies while a job is running is not modelled.
- Broadcaster.Broadcaster.Consume: waiting on an empty queue is not modelled.
- Broker calls, report fetching and parsing, HTTP routes, notifications, the agent, the frontend and migrations.
- Matching of notes, symbols and sides by case folding and regular expressions; they enter as flags and normalized values.
- Combo keys of Flex rows: grouping rows into combos is not part of this model; fills carry their key.
- Fuzzy search of trade groups, option value split, price selection and expiry parsing: they would only add easy members.
