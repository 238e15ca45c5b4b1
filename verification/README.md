# Conference backend: a verified model

A Dafny model of the stateful parts of the conference backend, with proofs of what they
promise. `dafny verify dfyconfig.toml` checks all of it.

**The shop.** `shop_item`, `shop_order` and `shop_order_item` are maps, amounts are integers of
ten-thousandths. `ShopTables` says what each operation does to the tables when nothing else runs;
`ShopRepo` is the repository as an object whose methods are proved to do exactly that. `ShopMeaning`
reads the operations' answers and effects off the columns of the tables.
`ShopProtocol` takes the same operations apart into the statements the code issues and lets any
number of checkouts, confirmations, sweeps and organizer changes interleave, each with its own
uncommitted writes and row locks. `ShopTxInvariant`, `ShopSafety` and `ShopRuns` show that every
step keeps the invariant and that every commit is one of the atomic operations; `ShopTheorems`,
`ShopAnswers`, `ShopLocks`, `ShopWaits`, `ShopReplay` and `ShopTransfers` draw the conclusions, and `ShopDeadlock`
and `ShopSweeps` mark the limits of one. `Money` covers the float64 and int64 arithmetic and the payment check,
`ShopRequest` the validation in front of it, `Regroup` the order history's (and agenda's) fold over
joined rows.

**The directory.** `AttendeeSearch`: keyset pages filtered after decryption, cursors, and crawls
over a table that changes between pages. `AttendeeRegistration`: who may claim an attendee row, and
what stays true of claimed rows over all runs.

**Connections.** `Connections`: one row per unordered pair of ids, its life from request to acceptance
or deletion. `ConnectionViews`: identities under several spellings, and what each party is shown.
`ConnectionPeople`: when one row per pair of ids is one row per pair of attendees.

**Feature flags.** `FeatureKeys`, `FeatureGates` and `FeatureOverlay`: the keys, route patterns and
the overlay computed by loops over maps in arbitrary order. `FeatureService` is the resolver as an
object serving one caller; `Resolver` is its TTL cache under concurrent callers, a moving clock and
an operator editing the table. `AppConfig` is the row pipeline of `GET /app-configs`.

**Schema capabilities.** `SchemaCaps`: the probe cache under concurrent callers, failing probes and
migrations, as an object and as a protocol, and the meaning of the SQL built from its answers.

**E-mail.** `EmailTemplate`: HTML escaping and the trimming of printed amounts; `EmailAmounts`: how a
stored amount reads.

`Sums`, `Text` and `Numbers` hold sums over maps, Go's string operations and unused numbers.

## What the environment is assumed to do

- The database runs at READ COMMITTED: a statement sees the committed tables and its own
  transaction's writes, `FOR UPDATE` re-reads a row after waiting for it, `SKIP LOCKED` skips
  locked rows, and `UNIQUE(user_uuid, idempotency_key)` and `UNIQUE(transaction_hash)` make an
  insert or update wait for an uncommitted rival and fail on a committed one.
- The locking SELECT of a checkout evaluates an item's visibility and event when it locks the row. The
  query evaluates them on its snapshot and again after a wait, so an item made visible while it waits
  for an earlier row is selected in the model and skipped by the query; no theorem turns on it.
- Order ids and generated row ids are fresh. `ORDER BY id` is byte order; the deadlock
  result only needs it to be one fixed total order.
- The chain is a fixed function of the transaction hash.
- The organizer's admin UI (its code is not part of this model) fulfils confirmed orders, reverses
  orders returning what they hold, and edits items, under the same row locks; an edit leaves caps
  alone.
- Float64 rounding has relative error at most 2^-53 between 0.00001 and 10^18 in magnitude and is
  exact on integers up to 2^53; a conversion to int64 out of range gives the smallest int64.
- Time stamps print and parse as in RFC 3339 (section 5.6) without loss and without `|`, and
  base64url (section 5 of RFC 4648) decodes what it encodes. Decryption is total. Letter case maps
  ASCII letters only.

## Where the code and its documentation differ

The model follows the code; the lemma named says exactly when the documented claim holds.

- `features/resolver.go` says a read never fails. It panics exactly when app_config holds a row
  keyed `is_enabled`, whose prefix and suffix overlap (`FeatureKeys.PanicsExactlyOnIsEnabled`,
  `FeatureOverlay.Apply`, `FeatureService.FeatureResolver.Refresh`).
- The same file calls the TTL the latency of a toggle. The TTL runs from the end of the read: an edit
  stays hidden past it if and only if it falls between a snapshot's read and its publication
  (`Resolver.HiddenPastTtlExactly`; a run is `Resolver.ToggleCanTakeLonger`), and never longer than the
  TTL plus that read's duration (`Resolver.EditsShowInTime`).
- `features/gates.go` does not say what two features listing one route do: the map's iteration order
  then decides, and only then (`FeatureGates.OrderDecidesNothing`).
- `repository/schema.go` says a capability that resolved true never changes. In every
  reachable state it can still be lost, the schema growing no more, if and only if some call that has
  probed will store an answer not above the cached one, not above what another such call will store,
  or, while nothing is cached, not the truth (`SchemaCaps.LosesExactlyWhenLosable`); once the truth is
  cached that is a probe older than a migration (`SchemaCaps.LosesExactlyWhenStale`; a run is
  `SchemaCaps.ResolvedYesCanRegress`). Queries stay valid; the field stays degraded.
- `repository/schema.go` probes `sessions.topic_id` only, but the query also joins `track_topics`: it
  names what exists exactly when the table came with the column (`SchemaCaps.QueriesNameWhatExists`; a
  run in which it does not is `SchemaCaps.TopicQueryCanFail`).
- Identity lookups ignore letter case, the unique column on the address does not. Lookups are
  unambiguous exactly when claimed rows differ by more than case
  (`AttendeeRegistration.UnambiguousExactlyWhen`, `AttendeeRegistration.SpellingsCanCollide`);
  the visibility results assume it.
- `models/connection.go` says the alias set is never empty. It is empty exactly when every form is
  blank (`Connections.NewCallerIdentity`).
- `repository/connection.go` says one row per unordered pair of attendees. Two rows join the same two
  attendees exactly when one of them is stored under two ids
  (`ConnectionPeople.TwoRowsExactlyForTwoIds`), which happens in no run in which every requester is
  resolved when asking (`ConnectionPeople.OneRowPerTwoAttendees`); a requester whose resolution fails
  asks under the raw sub and can get a second row later
  (`ConnectionPeople.UnresolvedRequesterCanDouble`).
- `models/shop.go` says this service writes only PENDING and CONFIRMED; a sweep also writes EXPIRED, to
  the stale PENDING orders and no others (`ShopRepo.ShopRepo.MarkStaleOrders`,
  `ShopSafety.SweepCommitIsAtomic`).
- `repository/shop.go` keeps a payment from being used twice by comparing hashes as strings, and a
  confirmation accepts a hash in either letter case and with or without a prefix. One transfer pays at
  most one order if and only if no payable transfer goes by two accepted names
  (`ShopTransfers.OneTransferOneOrder`; the runs that fail are `ShopTransfers.TwoNamesPayTwice`).
- `repository/shop.go` locks items in id order so that carts cannot deadlock. Carts cannot
  (`ShopLocks.NoWaitCycle`), but sweeps return items in no fixed order: each circle of waits contains a
  sweep out of order (`ShopWaits.EveryCircleHasALateSweep`). Such a sweep can be caught by a checkout
  when both items are open for one event and nobody holds the lower one
  (`ShopWaits.LateSweepCanDeadlock`, `ShopDeadlock.SweepAndCheckoutCanDeadlock`), and, hidden items or
  not, by a sweep of a stale order of both, when nobody holds that order or the item still owed
  (`ShopSweeps.SweepCanTrapSweep`, `ShopSweeps.TwoSweepsCanDeadlock`).
- `repository/shop.go` says a replayed key returns the existing order, also when two replays race. A
  replay that waited for item locks is refused when a line can no longer be bought
  (`ShopReplay.ReplayCanBeRefused`) and in every run only then, or when its total does not fit
  (`ShopReplay.ReplayInEveryRun`); two successes never differ (`ShopTheorems.SameKeySameAnswer`).

## Model

| member | source | states |
|---|---|---|
| ShopTheorems.StockIsConserved | apps/conference/backend/internal/repository/shop.go:362-748 | After any interleaving of checkouts, confirmations, sweeps and organizer changes, each item's stock is non-negative and stock plus the units held by orders neither EXPIRED nor FAILED is the supply |
| ShopTheorems.SupplyIsFixed | apps/conference/backend/internal/repository/shop.go:496-500 | The supply itself moves only when the organizer restocks; no order operation creates or destroys units |
| ShopTheorems.AllowanceIsRespected | apps/conference/backend/internal/repository/shop.go:389-446 | In every interleaving a user's units of a capped item in PENDING, CONFIRMED and FULFILLED orders of an event or of none never exceed the cap: the item lock serialises the counts |
| ShopTheorems.PaymentsBackOrders | apps/conference/backend/internal/repository/shop.go:592-665 | In every interleaving a hash string backs at most one order, is a successful transfer whose recipient is the master wallet, letter case aside, worth exactly that order, every CONFIRMED or FULFILLED order has one, and the paid totals sum to the amounts of the distinct hash strings |
| ShopTransfers.OneTransferOneOrder | apps/conference/backend/internal/repository/shop.go:613-656 | With the transfer a hash names as an identity of its own: every run pays each order with a transfer of its own if and only if no payable transfer goes by two accepted names, or no wallet is configured |
| ShopTransfers.TwoNamesPayTwice | apps/conference/backend/internal/repository/shop.go:613-656 | For any two accepted names of payable transfers of one amount, a run from sound tables confirms two orders with them |
| ShopTransfers.EitherCasePaysTwice | apps/conference/backend/internal/models/shop.go:311-322 | A chain that reads hashes in either letter case lets one transfer pay twice once a hash has a capital |
| ShopTransfers.ConfirmAlone | apps/conference/backend/internal/repository/shop.go:592-665 | An undisturbed confirmation of a confirmable order goes through, step by step |
| ShopTheorems.TotalsMatchLines | apps/conference/backend/internal/repository/shop.go:426-494 | Every stored order total is the sum of its lines' unit price times quantity |
| ShopTheorems.EveryStepIsAtomic | apps/conference/backend/internal/repository/shop.go:362-748 | Refinement: each step of the interleaved protocol leaves the committed tables alone or changes them as one whole order of buyable lines, one confirmation paid to the wallet, one release of stale PENDING orders or one organizer change would at that moment, so a failed checkout changes nothing |
| ShopTheorems.GuardedUpdatesAlwaysHit | apps/conference/backend/internal/repository/shop.go:502-513 | The RowsAffected() == 0 branches of Checkout, ConfirmOrder and MarkStaleOrders are unreachable in every run |
| ShopTheorems.StockComesBackOnce | apps/conference/backend/internal/repository/shop.go:686-747 | In every run the stock of an order is returned at most once |
| ShopTheorems.SweepSparesConfirmed | apps/conference/backend/internal/repository/shop.go:718-731 | A sweep's commit leaves every order that is not PENDING as it was |
| ShopTheorems.ConfirmingOrderIsSkipped | apps/conference/backend/internal/repository/shop.go:694-700 | An order whose confirmation is in progress is in no sweep's locked set, whatever the interleaving |
| ShopTheorems.SameKeySameAnswer | apps/conference/backend/internal/repository/shop.go:363-371 | In every run two successful checkouts of a user under one non-empty key were given the same order id and total |
| ShopReplay.LateReplayIsAnswered | apps/conference/backend/internal/repository/shop.go:474-485 | Moving on undisturbed, a checkout that held its locks when another order under its key was committed is told of that order exactly when every line can still be bought and the total fits, and otherwise of the first fault; it commits nothing |
| ShopReplay.ReplayInEveryRun | apps/conference/backend/internal/repository/shop.go:474-485 | Whatever other transactions do in between, a checkout whose key is taken ends with the order placed under the key, or refused by a check that failed or a total that did not fit on the tables of that moment, or rolled back |
| ShopReplay.ChecksTellTheTruth | apps/conference/backend/internal/repository/shop.go:426-448 | In every run a check of a line whose item is locked refuses it exactly for its fault on the committed tables of that moment |
| ShopReplay.ReplayCanBeRefused | apps/conference/backend/internal/repository/shop.go:354-361 | A run of two requests under one key, one unit in stock, in which the replay is refused for lack of stock |
| ShopTheorems.OnlyTheCreatorWrites | apps/conference/backend/internal/repository/shop.go:474-485 | A checkout that was rejected, aborted or answered with another request's order has committed nothing in the whole run |
| ShopTheorems.OverIsFinal | apps/conference/backend/internal/repository/shop.go:378-379 | A transaction that has ended never commits later: the deferred rollback after a commit is a no-op |
| ShopAnswers.TransactionsFollowTheCode | apps/conference/backend/internal/repository/shop.go:362-748 | In every run each step that is no rollback takes its transaction to a point that follows in the code, and the branches for a guarded update that finds no row are not among them |
| ShopAnswers.OneTransactionMoves | apps/conference/backend/internal/repository/shop.go:362-748 | A step moves one transaction at most, and one that begins holds and has written nothing |
| ShopAnswers.CheckoutWaitsExactly | apps/conference/backend/internal/repository/shop.go:389-485 | A checkout's statement waits exactly for an item row of its cart that somebody holds, or for an uncommitted order of its user under its key |
| ShopAnswers.ConfirmationWaitsExactly | apps/conference/backend/internal/repository/shop.go:600-663 | A confirmation waits exactly for its order row while somebody holds it, or for an uncommitted update with its hash |
| ShopAnswers.SweepWaitsExactly | apps/conference/backend/internal/repository/shop.go:694-739 | A sweep selects exactly the PENDING orders older than its cutoff that nobody holds, and waits exactly for item rows somebody holds |
| ShopAnswers.LookUpsTellTheTruth | apps/conference/backend/internal/repository/shop.go:363-371 | In every run the first look-up answers with the order under the user's key exactly when there is one, with its total |
| ShopAnswers.LineChecksTellTheTruth | apps/conference/backend/internal/repository/shop.go:426-448 | In every run a check of a locked line goes on exactly when the item is visible, open to the event, in stock and within the allowance, and else refuses for the reason that holds |
| ShopAnswers.InsertsTellTheTruth | apps/conference/backend/internal/repository/shop.go:450-485 | In every run the insert is reached with every line buyable, fails exactly when the exact total does not fit, and else finds the key taken exactly when it is |
| ShopAnswers.CommitsTellTheTruth | apps/conference/backend/internal/repository/shop.go:516-519 | A checkout that commits answers with its own order and the total stored for it, the rows of its cart booked and nothing else |
| ShopAnswers.ConfirmationsTellTheTruth | apps/conference/backend/internal/repository/shop.go:592-665 | In every run a confirmation goes on exactly while it may, and each refusal (no such order, another's, not PENDING, hash used, payment not to the wallet or of another amount) is true of the committed tables of that moment |
| ShopAnswers.OriginStays | apps/conference/backend/internal/repository/shop.go:452-467 | In every run an order keeps its buyer, event, key, total and time of creation |
| ShopAnswers.YoungOrdersAreSpared | apps/conference/backend/internal/repository/shop.go:694-700 | An order placed at some moment is changed by no later sweep for orders older than that moment or an earlier one |
| ShopRuns.StepKeepsInv | apps/conference/backend/internal/repository/shop.go:362-748 | The inductive step behind all of these: sound tables, per-transaction facts and disjoint locks survive any enabled step of any transaction |
| ShopRuns.RunKeepsInv | apps/conference/backend/internal/repository/shop.go:362-748 | ... and hence every run |
| ShopSafety.CheckoutCommitIsAtomic | apps/conference/backend/internal/repository/shop.go:496-519 | The pending writes of a checkout ready to commit are exactly the whole order placed on today's committed tables |
| ShopSafety.ConfirmCommitIsAtomic | apps/conference/backend/internal/repository/shop.go:648-665 | The pending write of a confirmation is exactly one confirmable order confirmed |
| ShopSafety.SweepCommitIsAtomic | apps/conference/backend/internal/repository/shop.go:716-744 | The pending writes of a sweep are exactly the release of the orders it finished |
| ShopSafety.CommitDisturbsNoOther | apps/conference/backend/internal/repository/shop.go:381-398 | One transaction's commit invalidates nothing another transaction read under its locks |
| ShopTxInvariant.DecrementAlwaysHits | apps/conference/backend/internal/repository/shop.go:502-513 | Under the item locks the guarded decrement always finds enough stock |
| ShopTxInvariant.ConfirmAlwaysHits | apps/conference/backend/internal/repository/shop.go:658-663 | Under the row lock the guarded confirmation always finds a PENDING row |
| ShopTxInvariant.ExpireAlwaysHits | apps/conference/backend/internal/repository/shop.go:724-731 | Under the row lock the guarded expiry always finds a PENDING row |
| ShopLocks.NoWaitCycle | apps/conference/backend/internal/repository/shop.go:381-398 | No run reaches a circle of checkouts waiting for one another's item rows or idempotency keys |
| ShopLocks.WaitsClimb | apps/conference/backend/internal/repository/shop.go:457-484 | Of two successive waits the first is for an item, and two item waits go up in id order: nobody waits for a key before holding all its items |
| ShopLocks.UnblockedCanStep | apps/conference/backend/internal/repository/shop.go:362-520 | A checkout that waits for nobody has an enabled step other than rolling back |
| ShopLocks.SomeCheckoutCanStep | apps/conference/backend/internal/repository/shop.go:362-520 | While only checkouts are under way, some unfinished one can always step, so the system never stops |
| ShopWaits.EveryCircleHasALateSweep | apps/conference/backend/internal/repository/shop.go:733-739 | In every run each circle of waits among checkouts, confirmations and sweeps contains a sweep that asks for an item while it holds a later one |
| ShopWaits.LateSweepCanDeadlock | apps/conference/backend/internal/repository/shop.go:733-739 | Conversely, whenever a sweep holds an item and still needs an earlier free one, both open for sale, one more checkout closes a circle with it |
| ShopSweeps.SweepCanTrapSweep | apps/conference/backend/internal/repository/shop.go:716-739 | Whenever a sweep holds one item and owes units of another, a second sweep of a stale order of both closes a circle with it if nobody holds that order or the owed item, whether or not the items are for sale |
| ShopSweeps.TwoSweepsCanDeadlock | apps/conference/backend/internal/repository/shop.go:694-744 | From any state, two stale orders sharing two items, their rows held by nobody, can be swept by two sweeps each holding the item the other still owes |
| ShopWaits.SomebodyCanStep | apps/conference/backend/internal/repository/shop.go:362-748 | While no sweep is out of order, as long as any transaction is unfinished some transaction has an enabled step other than rolling back |
| ShopDeadlock.SweepAndCheckoutCanDeadlock | apps/conference/backend/internal/repository/shop.go:733-739 | With a sweep in play the result is false: a run from sound tables after which a sweep and a checkout each hold the item row the other needs |
| ShopInvariants.PlaceOrderKeepsSound | apps/conference/backend/internal/repository/shop.go:381-519 | Placing an order keeps conservation, caps, unique keys and hashes, linked lines, exact totals and paid orders together |
| ShopInvariants.ConfirmKeepsSound | apps/conference/backend/internal/repository/shop.go:592-665 | Confirming with a verified, unused hash keeps them |
| ShopInvariants.ReleaseKeepsSound | apps/conference/backend/internal/repository/shop.go:716-744 | Releasing any set of orders to EXPIRED or FAILED keeps them |
| ShopInvariants.FulfilKeepsSound | apps/conference/backend/internal/models/shop.go:41-46 | Environment step: fulfilling a confirmed order keeps them |
| ShopInvariants.EditKeepsSound | apps/conference/backend/internal/models/shop.go:25-34 | Environment step: the organizer's edit of price, visibility, event and stock keeps them, the supply moving by the edit |
| ShopInvariants.HeldAfterPlace | apps/conference/backend/internal/repository/shop.go:487-514 | Placing a cart raises the held units of each item by the cart's quantity of it and no other item's |
| ShopInvariants.PurchasedAfterPlace | apps/conference/backend/internal/repository/shop.go:548-568 | Placing a cart raises the buyer's counted units by exactly the cart's quantity, and nobody else's |
| ShopInvariants.HeldAfterRelease | apps/conference/backend/internal/repository/shop.go:733-739 | Releasing orders lowers an item's held units by exactly what is put back in stock |
| ShopInvariants.CartLinesTotal | apps/conference/backend/internal/repository/shop.go:487-494 | The lines inserted for a cart add up to the cart's accumulated total |
| ShopInvariants.FloatLoopMeetsTotal | apps/conference/backend/internal/repository/shop.go:425-450 | On DECIMAL(10,4) prices the float and int64 loop over a valid cart accumulates the integer total that is placed |
| ShopInvariants.PaymentsBalance | apps/conference/backend/internal/repository/shop.go:648-656 | With sound tables the totals of paid orders and the amounts of their distinct hashes sum to the same |
| ShopMeaning.PurchasedIsCounted | apps/conference/backend/internal/repository/shop.go:548-568 | The counted purchases are the quantities on the lines of the user's PENDING, CONFIRMED and FULFILLED orders of the event or of none |
| ShopMeaning.PurchasedWithoutReleased | apps/conference/backend/internal/repository/shop.go:540-546 | Once orders are EXPIRED or FAILED the count is the sum over the other ones: a purchase that never completed does not use up the allowance |
| ShopMeaning.AnswerIsExplained | apps/conference/backend/internal/repository/shop.go:426-485 | A new checkout is placed exactly when every line is on sale, in stock and within the allowance and the total fits; else the answer names the first line that is not and why, with the stock, limit and count of that moment |
| ShopMeaning.PlacedIsBooked | apps/conference/backend/internal/repository/shop.go:462-514 | A placed order is one PENDING row of the buyer, event, key, total and time, one line at today's price for each line of the cart, and that much less stock, and nothing else |
| ShopMeaning.ConfirmableMeans | apps/conference/backend/internal/repository/shop.go:592-665 | Confirmable is: the caller's own PENDING order, a hash no order has, and a successful transfer to the master wallet, letter case aside, worth the total |
| ShopMeaning.ReleaseMeans | apps/conference/backend/internal/repository/shop.go:716-744 | A sweep turns its orders EXPIRED, gives each item the quantities on their lines and changes nothing else |
| ShopRepo.ShopRepo.Checkout | apps/conference/backend/internal/repository/shop.go:362-520 | One call alone: an existing key returns its order; else the whole order is booked or the tables are unchanged and the first line that cannot be bought is reported, as the tables' columns explain it |
| ShopRepo.ShopRepo.PlaceNew | apps/conference/backend/internal/repository/shop.go:373-519 | The transaction of a new checkout, all or nothing |
| ShopRepo.ShopRepo.LoadCatalog | apps/conference/backend/internal/repository/shop.go:389-421 | The locking SELECT loads exactly the requested items that are visible and open to the event |
| ShopRepo.ShopRepo.CheckCart | apps/conference/backend/internal/repository/shop.go:426-448 | The check loop reports the first line that is unavailable, short or over its cap, or the exact total |
| ShopRepo.ShopRepo.PurchasedQuantity | apps/conference/backend/internal/repository/shop.go:548-568 | The loop sums the quantities in the user's PENDING, CONFIRMED and FULFILLED orders of the event (or of none) |
| ShopRepo.ShopRepo.OrderByIdempotencyKey | apps/conference/backend/internal/repository/shop.go:524-538 | Finds an order exactly when the user has one under the key |
| ShopRepo.ShopRepo.WriteLines | apps/conference/backend/internal/repository/shop.go:487-514 | The write loop inserts every line and takes its stock; its guard never fails |
| ShopRepo.ShopRepo.ConfirmOrder | apps/conference/backend/internal/repository/shop.go:592-666 | Confirms exactly when the order exists, is the caller's, is PENDING, no order has the hash and a successful transfer of the total went to the master wallet; each refusal names the first failing check and changes nothing |
| ShopRepo.ShopRepo.MarkStaleOrders | apps/conference/backend/internal/repository/shop.go:686-748 | Exactly the PENDING orders older than the cutoff expire, exactly what they held comes back, and their number is returned |
| ShopRepo.ShopRepo.ExpireAll | apps/conference/backend/internal/repository/shop.go:716-740 | The restore loop equals one release of all selected orders |
| ShopRepo.ShopRepo.RestoreStock | apps/conference/backend/internal/repository/shop.go:733-739 | UPDATE ... FROM adds each line's quantity to its item once |
| Money.ScaleIsExact | apps/conference/backend/internal/models/shop.go:58-70 | For every rounding with relative error at most 2^-53, scaling a stored amount below 2^51 ten-thousandths gives back the integer |
| Money.RoundIsNearest | apps/conference/backend/internal/models/shop.go:68-70 | math.Round gives a nearest integer, and of two the one farther from zero |
| Money.Int64Holds | apps/conference/backend/internal/models/shop.go:68-70 | The conversion to int64 keeps what fits and gives the smallest value for what does not |
| Money.StoredTotalIsExact | apps/conference/backend/internal/repository/shop.go:450-467 | Storing the float total in DECIMAL(10,4) and reading it back loses nothing |
| Money.AccumulateTotal | apps/conference/backend/internal/repository/shop.go:426-450 | The accumulation loop on floats and int64 yields the exact line sum below 2^51 without overflow, and its float form scales back to it |
| Money.TotalFitsInt64 | apps/conference/backend/internal/models/shop.go:189-193 | 50 lines of at most 1000 units of DECIMAL(10,4) prices stay below 2^51 |
| Money.VerifyIsExact | apps/conference/backend/internal/service/shop_service.go:320-354 | verifyPayment accepts exactly the found, successful transfers to the master wallet whose scaled amount equals the stored total |
| Money.AcceptedMeans | apps/conference/backend/internal/service/shop_service.go:320-354 | Accepted is: found, successful with status SUCCESS, a transfer call whose first argument is the master wallet in any letter case, and the stored total in ten-thousandths |
| Money.RefusalsAreTrue | apps/conference/backend/internal/service/shop_service.go:320-354 | Each refusal names the first condition the transfer fails; it is refused for its recipient exactly when the address differs from the wallet in more than letter case |
| Money.PaymentMustBeExact | apps/conference/backend/internal/service/shop_service.go:346-348 | A transfer off by one ten-thousandth is refused |
| ShopRequest.CheckoutRequest.Validate | apps/conference/backend/internal/models/shop.go:202-279 | Accepts exactly the requests with 1 to 50 lines of distinct non-blank ids, quantities 1 to 1000, the five required fields not blank and the nine bounded ones at most 255 bytes, all trimmed in place; a refusal names a line or field that is wrong as it says |
| ShopRequest.CheckoutConfirmRequest.Validate | apps/conference/backend/internal/models/shop.go:311-345 | Accepts exactly an order id of 1 to 255 bytes with a hash of 1 to 128 digits and letters, both trimmed in place; a refusal is true |
| ShopRequest.CheckoutRequest.CheckItems | apps/conference/backend/internal/models/shop.go:218-247 | The item loop trims in place and fails at the first bad line, for what is wrong with it |
| ShopRequest.CheckoutRequest.CheckFields | apps/conference/backend/internal/models/shop.go:249-279 | Fails exactly when one of the five required fields is blank or one of the nine bounded ones longer than 255 bytes, naming such a field |
| ShopRequest.GoodLinesAreValid | apps/conference/backend/internal/models/shop.go:224-240 | The seen-map bookkeeping decides distinctness of all ids |
| ShopRequest.HashSafeMeans | apps/conference/backend/internal/models/shop.go:311-322 | A hash is safe exactly when each character is one of the ten digits and 52 letters |
| Regroup.GroupRows | apps/conference/backend/internal/repository/shop.go:213-324 | The map-and-order fold yields each parent at its first appearance with its children in row order |
| Regroup.EachParentOnce | apps/conference/backend/internal/repository/shop.go:213-324 | Every parent with a row appears exactly once, and nothing else appears |
| Regroup.RegroupInvertsJoin | apps/conference/backend/internal/repository/event.go:248-383 | Folding the rows of a LEFT JOIN returns the joined parents: childless ones kept, no phantom child, no lost order |
| Regroup.ReceiptIsLineTotal | apps/conference/backend/internal/repository/shop.go:213-324 | The lines nested under an order sum to the stored lines' total |
| Regroup.ReceiptsAddUp | apps/conference/backend/internal/repository/shop.go:213-324 | On sound tables each order of the history shows lines that add up to its total |
| AttendeeSearch.AttendeeProfileRepo.Search | apps/conference/backend/internal/repository/attendee_profile.go:335-460 | With or without a text query the page is the first wanted rows past the cursor, with a next cursor exactly when more are left; only an undecodable cursor is refused |
| AttendeeSearch.AttendeeProfileRepo.FillPage | apps/conference/backend/internal/repository/attendee_profile.go:405-445 | The early-exit scan yields the first limit matches and whether another exists |
| AttendeeSearch.ScanIsPage | apps/conference/backend/internal/repository/attendee_profile.go:370-445 | LIMIT limit+1 in SQL and the unbounded filtered scan give the same page |
| AttendeeSearch.RemainingIsFindable | apps/conference/backend/internal/repository/attendee_profile.go:344-375 | The rows a page is cut from are, in order, the claimed attendees past the cursor other than the caller whose trimmed name, company or title contains the trimmed query, letter case aside |
| AttendeeSearch.WantedIsFindable | apps/conference/backend/internal/repository/attendee_profile.go:462-474 | Row by row: a row is wanted exactly when some part of name, company or title is the query in some letter case, or the query is blank |
| AttendeeSearch.PageIsFull | apps/conference/backend/internal/repository/attendee_profile.go:317-342 | A page holds 20 rows unless 1 to 100 are asked for, at most 100, and fewer only when no more are left |
| AttendeeSearch.CursorRoundTrip | apps/conference/backend/internal/repository/attendee_profile.go:478-505 | A cursor decodes to the position it was made from and is never blank |
| AttendeeSearch.UuidShape | apps/conference/backend/internal/repository/session.go:35 | The pattern accepts exactly 8-4-4-4-12 hexadecimal digits of either case |
| AttendeeSearch.CrawlIncreases | apps/conference/backend/internal/repository/attendee_profile.go:335-460 | A crawl over tables that change between pages returns strictly increasing (created_at, id) |
| AttendeeSearch.CrawlMissesNobody | apps/conference/backend/internal/repository/attendee_profile.go:335-460 | An attendee present and matching throughout a crawl is returned |
| AttendeeSearch.CrawlReturnsNobodyElse | apps/conference/backend/internal/repository/attendee_profile.go:335-460 | Every row of a crawl was in the table of its page and is someone the search is for |
| AttendeeSearch.EveryoneExactlyOnce | apps/conference/backend/internal/repository/attendee_profile.go:335-460 | ... and exactly once |
| AttendeeSearch.CrawlOfFixedTable | apps/conference/backend/internal/repository/attendee_profile.go:335-460 | On a fixed table the pages concatenate to the filtered, ordered table |
| AttendeeSearch.CrawlEnds | apps/conference/backend/internal/repository/attendee_profile.go:335-460 | A crawl must end: over tables holding finitely many positions, however they change, no crawl gets more pages with a next cursor than there are positions |
| AttendeeSearch.NextPageIsLast | apps/conference/backend/internal/repository/attendee_profile.go:446-460 | After as many pages as there are positions the next page has no next cursor |
| AttendeeRegistration.AttendeeProfileRepo.Insert | apps/conference/backend/internal/repository/attendee_profile.go:88-139 | A free address gets a row, a claimable row is claimed and keeps its member id when none is given; anything that is another's or breaks a unique column is refused and changes nothing |
| AttendeeRegistration.AttendeeProfileRepo.PatchByEmail | apps/conference/backend/internal/repository/attendee_profile.go:272-315 | Exactly the row with the address changes, in its profile columns only, and absent fields keep their value |
| AttendeeRegistration.RegistrationIsReadBack | apps/conference/backend/internal/repository/attendee_profile.go:111-132 | After a registration the caller's row shows each profile field of the request in its own column; a claimed row keeps its creator, and its member id when none is given |
| AttendeeRegistration.RefusedExactlyWhen | apps/conference/backend/internal/repository/attendee_profile.go:125-138 | A registration fails exactly when the address is another's, or the caller or the member id already belongs to a row under another address |
| AttendeeRegistration.PatchIsReadBack | apps/conference/backend/internal/repository/attendee_profile.go:294-314 | An edit writes each given field in its own column, leaves absent ones, identity and membership, and is not found exactly when no row has the address |
| AttendeeRegistration.KeysStayUnique | apps/conference/backend/internal/repository/attendee_profile.go:88-139 | Addresses, identities and member ids are unique at every moment of every run of registrations, edits and roster imports |
| AttendeeRegistration.OwnersStay | apps/conference/backend/internal/repository/attendee_profile.go:106-118 | In every run a claimed row keeps its owner and address for good and never loses its member id |
| AttendeeRegistration.OwnersRegistered | apps/conference/backend/internal/repository/attendee_profile.go:106-118 | Whoever owns a row registered under that row's address |
| AttendeeRegistration.OnlyTheOwnerWrites | apps/conference/backend/internal/repository/attendee_profile.go:106-118 | A claimed row changes only for its owner's registration or an edit under its own address |
| AttendeeRegistration.UnambiguousExactlyWhen | apps/conference/backend/internal/repository/attendee_profile.go:177-196 | Unique columns make identity lookups unambiguous exactly when claimed rows differ by more than letter case |
| AttendeeRegistration.SpellingsCanCollide | apps/conference/backend/internal/repository/attendee_profile.go:106-118 | A run of two registrations in which they do not |
| Connections.NewCallerIdentity | apps/conference/backend/internal/models/connection.go:112-126 | The aliases are the non-blank forms, each once, canonical first; the set is empty exactly when every form is blank |
| Connections.PairIsUnordered | apps/conference/backend/migrations/014_user_connection_redesign.sql:75-82 | Equal pair columns mean the same two parties in either direction |
| Connections.ConnectionRepo.Request | apps/conference/backend/internal/repository/connection.go:228-277 | A new pair gets one pending row; an existing pair in either direction is returned unchanged; self and unknown addressees are refused |
| Connections.ConnectionRepo.Accept | apps/conference/backend/internal/repository/connection.go:296-340 | Only a caller answering to the addressee moves a pending row; every refusal is the right one and changes nothing |
| Connections.ConnectionRepo.Delete | apps/conference/backend/internal/repository/connection.go:351-364 | Either party removes the row; anyone else gets not-found and changes nothing |
| Connections.OneRowPerPair | apps/conference/backend/internal/repository/connection.go:228-277 | At every moment of every run there is at most one row per unordered pair of stored ids and none of an id with itself |
| Connections.RequestsInRuns | apps/conference/backend/internal/repository/connection.go:228-277 | In every run a request between two different ids, the asked one known, makes a pending row unless a row joins them in either direction, and returns the row; others change nothing and say why |
| Connections.AcceptsInRuns | apps/conference/backend/internal/repository/connection.go:296-340 | In every run a pending row is accepted exactly for a caller with its addressee among the aliases; each other answer is determined and changes nothing |
| Connections.RowsLeaveByAParty | apps/conference/backend/internal/repository/connection.go:351-364 | In every run a row leaves exactly when a caller answering to one of its parties deletes it |
| Connections.OnlyTheAddresseeMoves | apps/conference/backend/internal/repository/connection.go:296-340 | In every run a row that stays changes only by being accepted, by someone answering to its addressee; an accept by its requester alone is forbidden and changes nothing |
| ConnectionPeople.TwoRowsExactlyForTwoIds | apps/conference/backend/internal/repository/connection.go:28-33 | Two entries of a run that join the same two attendees are different rows if and only if one of the attendees is stored under two ids |
| ConnectionPeople.OneRowPerTwoAttendees | apps/conference/backend/internal/repository/connection.go:228-277 | In every run over a directory that changes but keeps ids once set, if each requester was resolved when asking, no two rows join the same two attendees at any unambiguous moment |
| ConnectionPeople.UnresolvedRequesterCanDouble | apps/conference/backend/internal/handlers/connection.go:269-282 | A run in which an attendee asks under the raw sub, is claimed, and asks again: two rows join the same two attendees |
| Connections.PartiesStay | apps/conference/backend/internal/repository/connection.go:228-364 | While a row exists its parties never change and acceptance is never undone |
| Connections.RowsComeFromRequests | apps/conference/backend/internal/repository/connection.go:228-277 | Every row was created by an earlier request of its requester |
| Connections.AcceptedWasAgreed | apps/conference/backend/internal/repository/connection.go:296-340 | Every accepted row was requested by its requester and later accepted by a caller whose aliases contain its addressee |
| Connections.ReverseRequestChangesNothing | apps/conference/backend/internal/repository/connection.go:240-270 | A request back returns the standing row unchanged |
| Connections.RacedRequest | apps/conference/backend/internal/repository/connection.go:250-270 | With the suppressed insert and the fallback read as separate steps, the read finds the pair unless some call deleted it in between |
| ConnectionViews.SubResolvesToOwner | apps/conference/backend/internal/repository/attendee_profile.go:177-196 | With unambiguous identities ResolveUUID answers the attendee the token's sub belongs to |
| ConnectionViews.ResolvesInTurn | apps/conference/backend/internal/repository/attendee_profile.go:177-196 | In any directory a caller resolves to the attendee with the sub for a uuid, else to one with the sub for an address, else to one with the claimed address, letter case aside, and otherwise to nobody |
| ConnectionViews.Get | apps/conference/backend/internal/repository/connection.go:140-195 | The loop splits the joined rows into sent, received and connections in row order, dropping unresolved parties and hiding the address until accepted |
| ConnectionViews.OtherForAgrees | apps/conference/backend/internal/models/connection.go:146-155 | The other side computed in code equals the one computed in the query exactly for parties, and is none for others |
| ConnectionViews.ListedOnceIff | apps/conference/backend/internal/repository/connection.go:101-195 | A stored row is listed once exactly when the caller is a party and the other stored id leads to exactly one attendee, and then in one bucket only |
| ConnectionViews.BothSidesSeeIt | apps/conference/backend/internal/repository/connection.go:101-195 | Both parties see a stored pair exactly once, in opposite request lists while pending and both connection lists once accepted, also when it is stored under an alias |
| ConnectionViews.NewRequestsAreVisible | apps/conference/backend/internal/handlers/connection.go:269-282 | A request written between two resolved identities is seen by both, each under the other's resolved id |
| FeatureKeys.PanicsExactlyOnIsEnabled | apps/conference/backend/internal/features/resolver.go:142-151 | The slice bounds cross, and the extraction panics, for exactly one key: is_enabled |
| FeatureKeys.ExtractionInvertsEnabledKey | apps/conference/backend/internal/features/resolver.go:142-151 | Everywhere else extraction finds f exactly in the flag key of a non-empty f |
| FeatureKeys.KeysAreApart | apps/conference/backend/internal/features/features.go:152-158 | The three key builders are injective and their ranges are disjoint |
| FeatureKeys.FlagWords | apps/conference/backend/internal/features/resolver.go:157-165 | A stored flag is on exactly for 1, true, yes and on, off exactly for 0, false, no and off, in any letter case and with white space around |
| FeatureKeys.NormaliseIsIdempotent | apps/conference/backend/internal/features/gates.go:54-75 | Normalising a route pattern twice is normalising it once |
| FeatureKeys.NormalShape | apps/conference/backend/internal/features/gates.go:54-75 | A normalised pattern is an upper-case verb without blanks, one blank and a path from the root |
| FeatureKeys.RouteIsFound | apps/conference/backend/internal/features/gates.go:54-75 | A hand-written pattern normalises to the key the lookup builds for that verb and route |
| FeatureKeys.PatternIsRead | apps/conference/backend/internal/features/gates.go:54-75 | Whatever the spacing, a pattern of a verb and a path becomes the verb in capitals, one blank and the path from the root |
| FeatureKeys.PathAloneIsRead | apps/conference/backend/internal/features/gates.go:54-75 | A path without a verb stands for every verb |
| FeatureKeys.OnlyBlankIsRefused | apps/conference/backend/internal/features/gates.go:54-75 | Only a blank pattern is refused: the second check for an empty path never fires |
| FeatureGates.ParseGateMap | apps/conference/backend/internal/features/gates.go:79-103 | The nested loops compute the map of some iteration order of the names |
| FeatureGates.GatedByAClaimant | apps/conference/backend/internal/features/gates.go:79-103 | In any order exactly the listed routes are gated, each by a feature that lists it |
| FeatureGates.OrderDecidesNothing | apps/conference/backend/internal/features/gates.go:79-103 | All iteration orders agree if and only if no route is listed under two features |
| FeatureGates.GatedIffClaimed | apps/conference/backend/internal/features/gates.go:108-117 | A request is gated exactly when its route is listed for its verb or for all verbs, and an exact verb wins |
| FeatureGates.ParseBypass | apps/conference/backend/internal/features/bypass.go:73-89 | The set holds exactly the folded non-blank fields of the row |
| FeatureGates.FieldsReadBack | apps/conference/backend/internal/features/bypass.go:73-89 | A list joined with any of the separators splits back into the same list |
| FeatureGates.OnlyTheListedBypass | apps/conference/backend/internal/features/bypass.go:101-113 | A caller bypasses the gates exactly when the row names them, in any letter case |
| FeatureOverlay.Apply | apps/conference/backend/internal/features/resolver.go:183-241 | Panics exactly when a row is keyed is_enabled; otherwise the map loops, in any order, compute the declarative per-feature overlay, the gates in force and the bypass set |
| FeatureOverlay.Discover | apps/conference/backend/internal/features/resolver.go:191-207 | Discovery in any order finds exactly the registered features and those with a flag row |
| FeatureOverlay.Overlay | apps/conference/backend/internal/features/resolver.go:209-222 | Rewriting entries in place in any order gives each feature its own overlay |
| FeatureOverlay.StatesReadTheirRows | apps/conference/backend/internal/features/resolver.go:191-222 | For every feature: it is known exactly when registered or flagged; it is on unless its row says off, or says nothing valid and the build turns it off; title and message are those of its own _coming_soon_title and _coming_soon_message rows where not blank, else the build's, else the generic ones |
| FeatureOverlay.LastRowCounts | apps/conference/backend/internal/features/resolver.go:184-187 | Of several rows with one key the last is the one overlaid |
| FeatureOverlay.BypassReadsItsRow | apps/conference/backend/internal/features/resolver.go:234-239 | A caller is on the bypass list exactly when a field of feature_gate_bypass_emails is the caller's address, letter case and white space aside |
| FeatureOverlay.GatedWhereListed | apps/conference/backend/internal/features/resolver.go:224-232 | A request meets a gate exactly where the stored mapping if it decodes, else the build's, lists its route for its verb or for all |
| FeatureOverlay.OneTableOneSnapshot | apps/conference/backend/internal/features/resolver.go:183-241 | One table gives one snapshot whatever the iteration order, unless its gate row lists a route twice |
| FeatureOverlay.ClosedForAReason | apps/conference/backend/internal/features/resolver.go:292-302 | A closed gate is listed in the mapping in force for the request's verb or for all verbs, under a feature whose flag row, or without one whose build default, is off |
| FeatureOverlay.RowReachesOneFeature | apps/conference/backend/internal/features/resolver.go:209-222 | Writing one row changes at most one feature, and only through one of its own three keys |
| FeatureService.FeatureResolver.Load | apps/conference/backend/internal/features/resolver.go:245-264 | Served alone: within a ttl of fetchedAt the cache answers, a failed or panicking read changes nothing, a good one is published with the later clock reading; the answer is the cache or the compiled-in defaults |
| FeatureService.FeatureResolver.Refresh | apps/conference/backend/internal/features/resolver.go:310-354 | Panics exactly on a stale cache and a table with the is_enabled row; the state changes only on a good read |
| FeatureService.FeatureResolver.Gate | apps/conference/backend/internal/features/resolver.go:292-302 | The route's owner and its state come from the one snapshot being served |
| FeatureService.FeatureResolver.BypassesGates | apps/conference/backend/internal/features/bypass.go:101-113 | A blank address is refused without a read; otherwise membership in the snapshot being served |
| Resolver.StepKeepsInv | apps/conference/backend/internal/features/resolver.go:245-354 | The inductive step for every caller, the clock and the operator |
| Resolver.LoadsFollowTheCode | apps/conference/backend/internal/features/resolver.go:245-354 | Each step takes one load on along the code, touching no other, and nobody enters a mutex that is held |
| Resolver.PublishedInOrder | apps/conference/backend/internal/features/resolver.go:310-354 | In every interleaving each read starts at least a ttl after the previous publication, and table versions never go back |
| Resolver.OnlyGoodReadsPublish | apps/conference/backend/internal/features/resolver.go:326-353 | The cache changes only by a successful read of a table without is_enabled, made alone under the mutex on an expired cache |
| Resolver.OneReader | apps/conference/backend/internal/features/resolver.go:311-321 | At most one caller is past the refresh mutex at a time |
| Resolver.NeverOlder | apps/conference/backend/internal/features/resolver.go:245-264 | A call that begins after another returned never answers from an older snapshot |
| Resolver.DefaultsOnlyWhileEmpty | apps/conference/backend/internal/features/resolver.go:260-263 | The compiled-in defaults are answered only while nothing was ever published |
| Resolver.EditsShowInTime | apps/conference/backend/internal/features/resolver.go:30-36 | Unless its own read failed, a call answers from a snapshot fresh when it began, and shows every edit older than ttl plus that snapshot's read time |
| Resolver.HiddenPastTtlExactly | apps/conference/backend/internal/features/resolver.go:344-353 | Once a snapshot is published, some later call misses an edit a ttl or more after it was made if and only if the edit fell between the snapshot's read and its publication |
| Resolver.HiddenEditsFallInBetween | apps/conference/backend/internal/features/resolver.go:30-36 | In every run a call that misses an edit past the ttl, its own read not having failed, answers from a snapshot read before and published after that edit |
| Resolver.ToggleCanTakeLonger | apps/conference/backend/internal/features/resolver.go:30-36 | A run in which a call starting 31 seconds after an edit still misses it with a 30 second ttl, because fetchedAt is stamped after the read |
| Resolver.OnlyPoisonPanics | apps/conference/backend/internal/features/resolver.go:332-334 | In every run only a caller that read a table with is_enabled has panicked, it no longer holds the mutex, and no snapshot of such a table was published |
| Resolver.NobodyIsStuck | apps/conference/backend/internal/features/resolver.go:310-354 | An unfinished call can step, or the holder of the mutex can |
| SchemaCaps.QueriesNameWhatExists | apps/conference/backend/internal/repository/schema.go:226-471 | In every interleaving of callers, failed probes and additions, SQL built from an answer names only what exists; for topics exactly when track_topics came with sessions.topic_id |
| SchemaCaps.RequestsFollowTheCode | apps/conference/backend/internal/repository/schema.go:243-267 | Each step takes one request on along the code and fails only where a probe was, touching no other request |
| SchemaCaps.TopicQueryCanFail | apps/conference/backend/internal/repository/schema.go:226-231 | With the column and without track_topics, the first request's topic query names a missing table |
| SchemaCaps.CacheHoldsOnlyFindings | apps/conference/backend/internal/repository/schema.go:250-262 | In every run what is cached was found by a call whose probes were all answered, and nothing resolved is forgotten |
| SchemaCaps.FixedSchemaTellsTruth | apps/conference/backend/internal/repository/schema.go:243-267 | While the schema stands still every answer, except to a caller whose own probe failed, is the true one |
| SchemaCaps.OnlyStaleStoresRegress | apps/conference/backend/internal/repository/schema.go:260-262 | A cached yes is lost only to a caller that probed before the schema grew |
| SchemaCaps.StaleStoreLoses | apps/conference/backend/internal/repository/schema.go:260-262 | While the whole truth is cached, a store loses some of it if and only if its probe is out of date |
| SchemaCaps.LosesExactlyWhenStale | apps/conference/backend/internal/repository/schema.go:243-267 | From any reachable state with the kind unresolved or resolved to the truth, a yes can still be lost if and only if some call has already probed and is out of date |
| SchemaCaps.LosesExactlyWhenLosable | apps/conference/backend/internal/repository/schema.go:243-267 | From every reachable state, the schema growing no more, a yes can still be lost if and only if a call that has probed will store an answer not above the cached one, not above another such call's, or, while the kind is unresolved, not the truth |
| SchemaCaps.QuietGrowthKeepsAnswers | apps/conference/backend/internal/repository/schema.go:243-267 | In runs where no growth falls between a call's probe and its store, resolved answers never go down |
| SchemaCaps.ResolvedYesCanRegress | apps/conference/backend/internal/repository/schema.go:243-267 | A run of two callers in which that happens: a resolved true becomes false for good |
| SchemaCaps.SoloIsARun | apps/conference/backend/internal/repository/schema.go:243-267 | An undisturbed request is a run of the protocol that caches and answers what its probes found |
| SchemaCaps.ProbesAreARun | apps/conference/backend/internal/repository/schema.go:243-267 | Left alone, a request against a schema is a run of the protocol with the answer the object's method gives |
| SchemaCaps.Capabilities.HasTopicId | apps/conference/backend/internal/repository/schema.go:243-267 | A cold cache probes sessions.topic_id and keeps the answer unless the probe fails; a warm one answers from itself; no other capability moves |
| SchemaCaps.Capabilities.ColorTokenColumns | apps/conference/backend/internal/repository/schema.go:317-344 | A cold cache probes both colour columns and keeps the two answers unless a probe fails; a warm one answers from itself |
| SchemaCaps.Capabilities.VenueColumns | apps/conference/backend/internal/repository/schema.go:390-417 | A cold cache probes venue_name and venue_address and keeps the two answers unless a probe fails; a warm one answers from itself |
| SchemaCaps.Capabilities.ActivityTables | apps/conference/backend/internal/repository/schema.go:443-471 | A cold cache answers whether both activity tables exist, skipping the second probe when the first says no, and keeps it unless a probe fails |
| SchemaCaps.ColorTokenMeans | apps/conference/backend/internal/repository/schema.go:291-302 | The degraded colour expression runs exactly when it names no absent column, and equals the full room, track, main precedence with absent columns read as NULL |
| SchemaCaps.VenueMeans | apps/conference/backend/internal/repository/schema.go:367-376 | The venue expressions equal the columns with absent ones read as NULL |
| SchemaCaps.ColorQueryNeverFails | apps/conference/backend/internal/repository/schema.go:284-286 | In every run the colour query runs on every row of the schema it meets |
| SchemaCaps.ColorsAreServed | apps/conference/backend/internal/repository/schema.go:278-302 | While the schema stands still a caller whose probes are answered is served room before track before main |
| SchemaCaps.VenueQueryNeverFails | apps/conference/backend/internal/repository/schema.go:354-376 | In every run the venue query runs on every row of the schema it meets |
| SchemaCaps.VenuesAreServed | apps/conference/backend/internal/repository/schema.go:354-417 | While the schema stands still such a caller is served both venue columns, NULL where one is absent |
| SchemaCaps.TablesAreServed | apps/conference/backend/internal/repository/schema.go:443-471 | Activities are read only where both tables exist and, the schema standing still and the probes answered, wherever they do; the topic column likewise |
| SchemaCaps.QueriesRunOnWhatTheyName | apps/conference/backend/internal/repository/schema.go:226-376 | The colour and venue SQL evaluates on a row exactly when the row has every column it names |
| AppConfig.Redact | apps/conference/backend/internal/handlers/app_config.go:181-190 | Compaction in the slice's own array keeps exactly the rows not held back, in order |
| AppConfig.DefaultsAreFunctional | apps/conference/backend/internal/handlers/app_config.go:299-316 | No two defaults share a key and none has the redacted or the wallet key, whatever the features are called |
| AppConfig.WithDefaults | apps/conference/backend/internal/handlers/app_config.go:293-325 | Stored rows win, every missing key gets its one default, whatever the snapshot's order, and the rows are in key order |
| AppConfig.Unhide | apps/conference/backend/internal/handlers/app_config.go:241-256 | Exactly the known features' flags are overwritten with 1, in place |
| AppConfig.Respond | apps/conference/backend/internal/handlers/app_config.go:158-160 | The three stages together serve the declared rows, sorted, to ordinary callers and to those on the allowlist while the snapshot has features |
| AppConfig.ResponseMeans | apps/conference/backend/internal/handlers/app_config.go:181-325 | An ordinary caller gets exactly the stored rows but feature_gate_bypass_emails, with is_shop_hidden 0 and the snapshot's flag, title and message for keys no row has; a tester gets the same with every flag of the snapshot at 1 |
| AppConfig.ClientReadsTheSnapshot | apps/conference/backend/internal/handlers/app_config.go:275-325 | Round trip: what an ordinary caller reads in a feature's three rows is the snapshot's state, or a stored flag that says nothing valid, or a stored text that is blank |
| AppConfig.StoredRowsSurvive | apps/conference/backend/internal/handlers/app_config.go:181-325 | Every stored row not held back reaches an ordinary caller unchanged; a tester sees only flags changed |
| AppConfig.EveryFeatureOnce | apps/conference/backend/internal/handlers/app_config.go:308-316 | Each snapshot feature has exactly one row per key, and so has is_shop_hidden |
| AppConfig.NothingLeaksAndFlagsReadOn | apps/conference/backend/internal/handlers/app_config.go:225-273 | The held-back row is never served and an allowlisted caller reads 1 on every flag |
| AppConfig.WalletKeyIsFresh | apps/conference/backend/internal/handlers/app_config.go:162-167 | A configured wallet is appended as one row, which keeps keys unique exactly when no stored row already has its key; without a wallet nothing is appended |
| EmailTemplate.EscapeIsOnePass | apps/conference/backend/internal/service/email_template.go:97-104 | The five sequential replacements equal one character-wise substitution |
| EmailTemplate.OutputIsInert | apps/conference/backend/internal/service/email_template.go:97-104 | No raw <, >, double or single quote is left and each ampersand starts one of the five entities |
| EmailTemplate.ReaderSeesInput | apps/conference/backend/internal/service/email_template.go:97-104 | Decoding the entities returns the input |
| EmailTemplate.TrimKeepsUnsigned | apps/conference/backend/internal/service/email_template.go:106-115 | Trimming zeros and the point keeps the decimal value and leaves no trailing fractional zero or point |
| EmailTemplate.AmountReadsExactly | apps/conference/backend/internal/service/email_template.go:106-115 | For every number of hundredths, negative ones too, the shown text denotes it exactly |
| EmailAmounts.StoredAmountIsShown | apps/conference/backend/internal/service/email_template.go:106-115 | A stored amount, read into any float, is shown as a nearest hundredth of it, and exactly if and only if it has at most two decimals |
| Text.CaseFolds | apps/conference/backend/internal/service/shop_service.go:334 | Lower-casing makes equal exactly the strings that differ in letter case only |
| Text.TrimDropsBlanks | apps/conference/backend/internal/models/shop.go:202-213 | Trimming takes white space from both ends and nothing else |
| Text.SpaceIsWhiteSpace | apps/conference/backend/internal/models/shop.go:202-213 | White space is the 25 characters Unicode lists as such |
| Text.Utf8LengthIs | apps/conference/backend/internal/models/shop.go:272-276 | The length that is bounded is the number of octets of the UTF-8 encoding |
| Text.LessIsLexicographic | apps/conference/backend/internal/handlers/app_config.go:323 | Strings are ordered by their first difference, a prefix before what it starts |

## Left out

- ShopLocks.NoWaitCycle: is about checkouts only; ShopWaits has the waits of all transactions.
- ShopWaits.LateSweepCanDeadlock: has a condition on the items, which a checkout needs; with it unmet ShopSweeps has the circles two sweeps make, and circles of three or more with hidden items are not described.
- ShopRepo.ShopRepo.Checkout: is one call without interleaving; the interleavings are in ShopProtocol, and the wallet, e-mail and shipping columns are not stored.
- Connections.ConnectionRepo.Request: is for calls one after another; `Connections.RacedRequest` says when its insert and fallback read, taken apart, find no row, which the code reports as an error.
- Connections.OneRowPerPair: counts ids, as the table does; ConnectionPeople says what that means for attendees.
- FeatureService.FeatureResolver.Load: serves one caller; Resolver covers interleavings, with snapshots named by the table version they were read from.
- SchemaCaps.Capabilities.HasTopicId: like its three siblings, runs alone; the protocol in the same module covers interleavings.
- AppConfig.Respond: takes the snapshot and the bypass list as they were read; the handler reads them in two loads, which may see different snapshots, so the two are independent parameters.
- FeatureOverlay.Apply: takes JSON decoding and the registry as parameters.
- Money.AccumulateTotal: fixes the order of operations of the code but no particular float64 encoding.
- Regroup.RegroupInvertsJoin: keeps a parent's and a child's columns as opaque values; speakers, session windows and nullable text columns of agendas and orders are not modelled.
- EmailTemplate.AmountReadsExactly: starts from a number of hundredths; `EmailAmounts.StoredAmountIsShown` links it to stored amounts, leaving open which side "%.2f" takes at a tie and what it prints for infinities and NaN.
- The orders' e-mails and the loop that concatenates the item rows of the e-mail: no state.
- Reading one attendee and the attendee list: single statements.
- The sweep's ticker: a sweep may start at any moment in ShopProtocol.
- Cancellation, timeouts and connection failures: a transaction may be rolled back at any step, a probe or a config read may fail at any time, and nothing more is said about them.
- Logging, HTTP handlers and wiring, tokens, encryption, coin scanning, analytics, push notifications, venue joining and audience checks.
