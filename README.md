# Interview-practice systems, modelled in Dafny

This project models five small in-memory systems written in Python and proves properties about them:

- **Bank ledger** (`bank_ledger.py`) keeps integer balances per account and per currency. It supports deposits, withdrawals, and transfers with currency conversion. A day counter runs one-off scheduled transfers and recurring transfers.
- **Chat system** (`chat.py`) stores messages owned by users, with an optional timestamp and expiry. It lists messages sorted and filtered by id prefix. `zip_messages` takes a backup under a timestamp, and `unzip_messages` restores the latest backup and re-stamps its messages.
- **Inventory system** (`inventory_management.py`) has named items with a quantity and an optional owner, and users with a capacity. Insertion is capacity-checked. When a capacity shrinks, items are evicted greedily, largest first. A path-style search groups matching items by quantity.
- **Food delivery matcher** (`food_delivery.py`) pairs waiting drivers with pending orders, first come first served, and has a priority lane for orders. It supports cancellations, keeps an assignment log, and tracks a status per order and per driver.
- **Crawl frontier** (`crawler/main.py`, `CrawlerQueue`) holds the set of URLs seen and a FIFO queue of URLs to visit.

Each file follows the source's form:

- Every operation has a pure function ending in `On` that gives its effect on a value of the state. The properties are proved about these functions.
- Each Python class becomes a Dafny `class` with the same fields. Its methods update the fields in place and are proved to agree with the function.
- Loops in the source become `while` loops with invariants, in methods proved equal to their specification function. Examples are eviction, the search, the day loop, the backup copy and the re-stamping.
- Exceptions become `Failure` values. A state change made before the exception is kept, as in Python.

Layout:

| file | contents |
|---|---|
| `wrappers.dfy` | `Option`, `Result` and `Outcome` |
| `seqs.dfy` | distinctness, first index, removal and flattening of sequences |
| `ordering.dfy` | lexicographic string order, strict total orders, and sorted enumeration of a finite set (Python's `sorted`) |
| `text.dfy` | `startswith`, `join`, `split`, `strip` and integer formatting |
| `sums.dfy` | sums over a finite key set |
| `ledger.dfy` | the bank ledger |
| `chat.dfy` | the chat system |
| `inventory.dfy` | the inventory system |
| `delivery.dfy` | the food delivery matcher |
| `frontier.dfy` | the crawl frontier |

## Model

| member | source | states |
|---|---|---|
| Ledger.OpenOn | bank_ledger.py:44-49 | fails with AccountExists exactly when the id is known, leaving the balances unchanged; otherwise adds the account with a zero balance in each listed currency |
| Ledger.BalanceOf | bank_ledger.py:51-60 | succeeds exactly when the account exists and holds the currency, returning that balance; an unknown account and an unused currency are told apart |
| Ledger.DepositOn | bank_ledger.py:62-71 | fails exactly for an unknown account; otherwise only that entry changes, by +amount, with an absent currency read as 0; a non-negative deposit keeps all balances non-negative |
| Ledger.WithdrawOn | bank_ledger.py:73-85 | fails exactly for an unknown account; returns True exactly when the currency is held with at least the amount, and then debits only that entry; otherwise the balances are unchanged; non-negativity is preserved |
| Ledger.Convert | bank_ledger.py:110-115 | a same-currency conversion is the identity; any other pair goes through the rate table, which may lack it |
| Ledger.TransferOn | bank_ledger.py:87-122 | AccountNotFound exactly when either account is unknown; False without change exactly when the source lacks the currency or the funds; NoFxRate leaves the source already debited; success debits the source and credits the converted amount to the destination |
| Ledger.TransferConserves | bank_ledger.py:87-122 | a same-currency transfer between known accounts conserves the total held in every currency |
| Ledger.TransferKeepsNonNegative | bank_ledger.py:87-122 | a transfer of a non-negative amount whose conversion is non-negative never makes a balance negative |
| Ledger.RunPayments | bank_ledger.py:169-177 | running a day's payments in order can only fail with AccountNotFound or NoFxRate, and the empty list changes nothing |
| Ledger.RunPaymentsConcat | bank_ledger.py:169-177 | running two lists of payments in sequence is running their concatenation, stopping at the first exception |
| Ledger.RunPaymentsConserve | bank_ledger.py:169-177 | same-currency payments conserve every currency's total |
| Ledger.FiresOn | bank_ledger.py:179-188 | the recurrence test fails with ZeroDivisionError exactly when the day is at or after the start and the frequency is 0; it fires only on or after the start date |
| Ledger.FiringDays | bank_ledger.py:179-188 | with a positive frequency, a recurring transfer fires exactly on the days start + k * frequency |
| Ledger.RunRecurring | bank_ledger.py:179-188 | the recurring loop fails only with a transfer's errors or ZeroFrequency, and when it completes no recurring transfer raised on that day |
| Ledger.Due | bank_ledger.py:179-188 | every transfer due on a day comes from a recurring transfer that fires on that day, and every recurring transfer that fires on that day is due |
| Ledger.DueIsTheFiringOnes | bank_ledger.py:179-188 | the due transfers are those of the recurring transfers that fire that day, kept in scheduling order |
| Ledger.RunRecurringIsDue | bank_ledger.py:179-188 | running the recurring loop is running, in order, the list of transfers due that day |
| Ledger.ProcessDayOrder | bank_ledger.py:165-188 | a day runs its one-off transfers first, then its due recurring transfers |
| Ledger.ProcessDayOn | bank_ledger.py:165-188 | the only exceptions a day can raise are AccountNotFound, NoFxRate and ZeroDivisionError |
| Ledger.DaysAfter | bank_ledger.py:190-197 | the days advanced through are from + 1 to to, one each, and none when to <= from |
| Ledger.RunDays | bank_ledger.py:190-197 | advancing over no days changes nothing; an exception can only be one of the three ledger failures |
| Ledger.RunDaysConserve | bank_ledger.py:190-197 | advancing any number of days with same-currency transfers conserves every currency's total |
| Ledger.BankLedger.constructor | bank_ledger.py:23-29 | an empty ledger at day 0 |
| Ledger.BankLedger.OpenAccount | bank_ledger.py:44-49 | updates the balances as OpenOn does and raises what it raises |
| Ledger.BankLedger.GetBalance | bank_ledger.py:51-60 | returns BalanceOf on the current balances |
| Ledger.BankLedger.Deposit | bank_ledger.py:62-71 | updates the balances as DepositOn does |
| Ledger.BankLedger.Withdraw | bank_ledger.py:73-85 | updates the balances as WithdrawOn does |
| Ledger.BankLedger.Transfer | bank_ledger.py:87-122 | updates the balances as TransferOn does |
| Ledger.BankLedger.SchedulePayment | bank_ledger.py:124-141 | appends the transfer to that day's list, creating it if needed, and leaves every other day alone |
| Ledger.BankLedger.ScheduleRecurringPayment | bank_ledger.py:143-163 | appends the recurring transfer to the list |
| Ledger.BankLedger.ProcessDay | bank_ledger.py:165-188 | its two loops leave the balances and outcome of ProcessDayOn |
| Ledger.BankLedger.AdvanceDay | bank_ledger.py:190-197 | its loop leaves the balances and outcome of RunDays over the days after the current one; the day moves to the target only when no exception escapes |
| Delivery.NextOrder | food_delivery.py:33-38 | takes the oldest priority order, else the oldest regular order, else nothing, removing it from its lane |
| Delivery.PlaceOrderOn | food_delivery.py:40-54 | with a driver waiting, the longest-waiting driver gets the order and the pairing is logged; otherwise the order pends in its lane; the log only grows and a driver never waits while an order pends |
| Delivery.DriverAvailableOn | food_delivery.py:56-67 | with the `is not None` reading of line 59 given under Findings: the driver takes the next order and the pairing is logged, or, with no order pending, the driver waits; the log only grows and the never-both-waiting invariant is kept |
| Delivery.DriverAvailableAsWritten | food_delivery.py:56-67 | line 59 as written: the log only grows; when the next order id is not "" the result is DriverAvailableOn's; when it is "", the order leaves its lane unassigned and the driver waits |
| Delivery.EmptyOrderIdBreaksMatching | food_delivery.py:59 | with "" and "o2" pending, an arriving driver is made to wait and "" is lost, so a driver and an order both wait |
| Delivery.CancelOrderOn | food_delivery.py:69-78 | fails exactly when the order pends in neither lane; otherwise removes its first occurrence and marks it cancelled; keeps the invariant |
| Delivery.CancelDriverOn | food_delivery.py:80-86 | fails exactly when the driver is not waiting; otherwise removes and cancels it; keeps the invariant |
| Delivery.AssignmentsOf | food_delivery.py:88-90 | the (order, driver) pairs of the log, in log order |
| Delivery.AssignmentsPrefix | food_delivery.py:88-90 | once the log has only been extended, earlier assignments are a prefix of later ones |
| Delivery.StatusIn | food_delivery.py:92-98 | a known id's status; KeyError for an id never seen |
| Delivery.Initial | food_delivery.py:24-31 | the empty matcher satisfies the invariant and has an empty log |
| Delivery.CancelPendingScenario | food_delivery/test.py:109-112 | three orders, one priority, with no driver all pend; cancelling the third leaves the other two pending |
| Delivery.StatusTrackingScenario | food_delivery/test.py:113-127 | drivers A and B take the priority order and then the older order; C waits and is cancelled; the assignments and the five statuses are the expected ones |
| Delivery.DriversArrive | food_delivery/test.py:112-114 | from that state, A is assigned the priority order, B the regular one, and C waits with both queues empty |
| Delivery.FoodDeliverySystem.constructor | food_delivery.py:24-31 | an initial matcher |
| Delivery.FoodDeliverySystem.GetNextOrder | food_delivery.py:33-38 | removes and returns what NextOrder gives |
| Delivery.FoodDeliverySystem.PlaceOrder | food_delivery.py:40-54 | state becomes PlaceOrderOn of the old state |
| Delivery.FoodDeliverySystem.DriverAvailable | food_delivery.py:56-67 | state becomes DriverAvailableOn of the old state, the `is not None` reading of line 59 given under Findings |
| Delivery.FoodDeliverySystem.CancelOrder | food_delivery.py:69-78 | state and outcome as CancelOrderOn |
| Delivery.FoodDeliverySystem.CancelDriver | food_delivery.py:80-86 | state and outcome as CancelDriverOn |
| Delivery.FoodDeliverySystem.GetAssignments | food_delivery.py:88-90 | AssignmentsOf the state |
| Delivery.FoodDeliverySystem.GetStatus | food_delivery.py:92-94 | StatusIn over the order statuses |
| Delivery.FoodDeliverySystem.GetDriverStatus | food_delivery.py:96-98 | StatusIn over the driver statuses |
| Frontier.Admitted | crawler/main.py:17-22 | the URLs enqueued from a batch are exactly the batch's unseen URLs, each once; a batch of seen URLs adds nothing |
| Frontier.AdmittedInBatchOrder | crawler/main.py:17-22 | admitted URLs keep the order in which the batch first names them |
| Frontier.EnqueueBatch | crawler/main.py:17-22 | the loop marks each URL of the batch seen and queues each unseen one once, in the order Admitted gives, keeping the queue a suffix of the admitted URLs |
| Frontier.CrawlerQueue.constructor | crawler/main.py:12-15 | an empty queue with nothing seen |
| Frontier.CrawlerQueue.QueuedAreSeen | crawler/main.py:11-25 | every queued URL has been seen |
| Frontier.CrawlerQueue.AddUrls | crawler/main.py:17-22 | seen grows by the batch, and the queue and the record of admitted URLs grow by Admitted; no URL is ever enqueued twice |
| Frontier.CrawlerQueue.GetNextUrl | crawler/main.py:24-25 | returns and removes the oldest queued URL, which has been seen |
| Frontier.CrawlerQueue.SeenCount | crawler/main.py:66 | the number of seen URLs equals the number of URLs ever enqueued |
| Frontier.StartCrawl | crawler/main.py:45-47 | a fresh frontier seeded with the start URL has one URL seen and one queued |
| Chat.IsValidAt | chat.py:12-19 | a message without expiry is always valid; otherwise it is valid exactly while its age at the given time is below its expiry |
| Chat.Truthy | chat.py:165 | Python truthiness of an optional timestamp: false for None and for 0 |
| Chat.ValidityIsAPrefixOfTime | chat.py:12-19 | a message valid at a time is valid at every earlier time, and one without expiry is always valid |
| Chat.Restamped | chat.py:150-168 | re-stamping replaces only a truthy timestamp; the re-stamped message is then valid exactly before restore time + expiry |
| Chat.Touch | chat.py:23-26 | reading a defaultdict inserts an empty set for an unseen user and changes nothing else; a plain dict is not changed |
| Chat.SendOn | chat.py:28-32 | the message is always stored under its id; on the default table the id joins the user's set; after a restore, adding to the restored list fails (KeyError or AttributeError) after the message was stored; only the backup sharing the live dicts sees the write |
| Chat.GetOn | chat.py:34-38 | KeyError exactly for a missing user on a restored table or an owned id without a message; otherwise the owned message's content, or "" for an id the user does not own |
| Chat.DeleteOn | chat.py:40-45 | returns True exactly when the user owns a stored id, and then removes it from the message table and from the user's set; False touches nothing more than the read; KeyError changes nothing |
| Chat.GetAtOn | chat.py:94-104 | as GetOn, except that an expired owned message reads as "" |
| Chat.DeleteAtOn | chat.py:83-92 | True exactly when the owned, stored message is still valid at the time, and then it deletes as DeleteOn does |
| Chat.Shown | chat.py:47-62 | the ids listed are sorted and are exactly the user's ids with a stored message that match the prefix and are valid at the time |
| Chat.Entry | chat.py:47-53 | an entry is the id, then the content in parentheses, so both can be read back from it |
| Chat.Render | chat.py:47-53 | one "id(content)" entry per id, in order |
| Chat.ListOn | chat.py:106-129 | fails exactly for a missing user or a dangling owned id; otherwise joins the sorted entries with ", "; a user with no messages gets "" |
| Chat.ListWithEmptyPrefix | chat.py:55-62 | listing by the empty prefix is listing everything |
| Chat.SnapshotAt | chat.py:131-148 | a backup keeps exactly the messages valid at its time, pointing at the same objects, and cuts every user's set down to them |
| Chat.ZipOn | chat.py:131-148 | stores the snapshot under the time, records the time once in backup order, detaches the live tables if they were that backup, and returns the number of valid messages |
| Chat.LatestIndex | chat.py:151-159 | picks the last backup time at most the bound; nothing exactly when all are later |
| Chat.LatestIsLargestWhenInOrder | chat.py:151-156 | when backups were taken in increasing time, the chosen backup is the latest one at or before the bound |
| Chat.Restamp | chat.py:164-166 | every referenced message object is re-stamped and the others are left as they are |
| Chat.UnzipOn | chat.py:150-168 | with no eligible backup, or one under the falsy time 0, nothing changes; otherwise the backup's tables become the live ones and its messages are re-stamped in place |
| Chat.ZipThenUnzip | chat.py:131-168 | restoring a backup just taken under a fresh nonzero time brings back exactly the messages valid then, re-stamped |
| Chat.SendThenGet | chat.py:28-38 | sending on the default table then reading returns the content sent |
| Chat.DeleteThenGet | chat.py:34-45 | after a successful delete the message reads as "" |
| Chat.BackupScenario | chat.py:248-254 | the level-4 backup trace: zip(70) counts 1, and after unzip(100, 70) only the first message is listed at 100 |
| Chat.ChatSystem.constructor | chat.py:23-26 | the initial state |
| Chat.ChatSystem.Send | chat.py:64-81 | the shared body of the three send methods: state and result as SendOn |
| Chat.ChatSystem.SendMessage | chat.py:28-32 | state and result as SendOn with an unstamped message |
| Chat.ChatSystem.SendMessageAt | chat.py:64-73 | state and result as SendOn with a timestamp |
| Chat.ChatSystem.SendMessageWithExpiry | chat.py:75-81 | state and result as SendOn with a timestamp and an expiry |
| Chat.ChatSystem.GetMessage | chat.py:34-38 | state and result as GetOn |
| Chat.ChatSystem.DeleteMessage | chat.py:40-45 | state and result as DeleteOn |
| Chat.ChatSystem.GetMessageAt | chat.py:94-104 | state and result as GetAtOn |
| Chat.ChatSystem.DeleteMessageAt | chat.py:83-92 | state and result as DeleteAtOn |
| Chat.ChatSystem.List | chat.py:106-129 | the shared body of the four listings: state and result as ListOn for the given prefix and time |
| Chat.ChatSystem.ListMessages | chat.py:47-53 | state and result as ListOn with no prefix and no time |
| Chat.ChatSystem.ListMessagesByPrefix | chat.py:55-62 | as ListOn with a prefix |
| Chat.ChatSystem.ListMessagesAt | chat.py:106-117 | as ListOn at a time |
| Chat.ChatSystem.ListMessagesByPrefixAt | chat.py:119-129 | as ListOn with a prefix at a time |
| Chat.ChatSystem.ZipMessages | chat.py:131-148 | state and count as ZipOn |
| Chat.ChatSystem.UnzipMessages | chat.py:150-168 | state as UnzipOn |
| Chat.BackupOwners | chat.py:138-142 | the per-user sets of a backup are the live sets cut down to the kept messages |
| Chat.FindRestorePoint | chat.py:151-156 | the backwards scan finds LatestIndex |
| Chat.RestampAll | chat.py:164-166 | the re-stamping loop produces Restamp |
| Inventory.AddUserOn | inventory_management.py:17-22 | True, with the capacity recorded, exactly for a new user; otherwise unchanged |
| Inventory.AddItemOn | inventory_management.py:24-29 | True, with the item stored, exactly for a new name; otherwise unchanged |
| Inventory.CopyItemOn | inventory_management.py:84-93 | True exactly when the source exists and the target does not, and then the target holds the source's entry; otherwise unchanged |
| Inventory.CopyKeepsQuantity | inventory_management.py:84-101 | after a copy the target reads the source's quantity and every other name reads as before |
| Inventory.QuantityOf | inventory_management.py:95-101 | a quantity exactly for a present, not evicted name |
| Inventory.OwnedNames | inventory_management.py:31-32 | the names of the live items the user owns |
| Inventory.UsageAsWritten | inventory_management.py:31-32 | the usage computation as written: AttributeError on an evicted entry, TypeError as soon as the user owns an item, and 0 otherwise |
| Inventory.UsageAsWrittenRaisesForOwners | inventory_management.py:31-32 | a user owning an item of positive quantity gets TypeError, where the intended sum is positive |
| Inventory.Usage | inventory_management.py:31-32 | corrected: the sum of the quantities of the user's items, or AttributeError when an entry was evicted |
| Inventory.UsageForUser | inventory_management.py:31-32 | the loop computes Usage |
| Inventory.AddItemByOn | inventory_management.py:34-55 | refuses an unknown user or a quantity above the capacity; AttributeError exactly when usage meets an evicted entry; adds the owned item exactly when usage plus quantity fits; unchanged otherwise |
| Inventory.AddItemByWithinCapacity | inventory_management.py:34-55 | after a successful add, the user's usage is at most the capacity |
| Inventory.SortedOwned | inventory_management.py:67-73 | the user's names, sorted by (quantity, name) with no repetition |
| Inventory.Evict | inventory_management.py:77-80 | the popping loop: success leaves the usage minus what was removed within capacity; the only failure is IndexError |
| Inventory.EvictRemovesTheTop | inventory_management.py:77-80 | the loop evicts exactly the names on top of the stack above its stop point |
| Inventory.EvictCountsTheTop | inventory_management.py:77-80 | the amount removed is the sum of the evicted quantities; an IndexError means the whole stack went and the usage is still above capacity |
| Inventory.EvictStopsAsSoonAsItFits | inventory_management.py:77-80 | no shorter run of pops would have brought the usage within capacity |
| Inventory.UpdateCapacityOn | inventory_management.py:57-82 | unknown user exactly when not registered; AttributeError exactly on an evicted entry; within capacity exactly when usage fits; items unchanged unless something was removed or the stack ran empty |
| Inventory.UpdateCapacityFits | inventory_management.py:57-82 | after removals the usage left is the old usage minus the amount reported, within capacity; at least one item went; only evicted names change, and they read as None |
| Inventory.UpdateCapacityEvictsLargestFirst | inventory_management.py:57-82 | every evicted item ranks above every kept item by (quantity, name), and without the smallest evicted item the usage would still exceed the capacity |
| Inventory.UpdateCapacityPopsEmptyOnlyBelowZero | inventory_management.py:77-80 | the loop can pop an empty list only when the new capacity is negative |
| Inventory.EvictLargestFirst | inventory_management.py:67-80 | sorting and the popping loop compute Evict |
| Inventory.PlainNameMatches | inventory_management.py:111-113 | a name without a slash matches exactly when it starts with the stripped prefix and with the suffix |
| Inventory.Hits | inventory_management.py:110-114 | the names whose stripped first segment starts with the stripped prefix and whose last segment starts with the suffix |
| Inventory.Matching | inventory_management.py:110-114 | groups every hit under its quantity, and no group is empty |
| Inventory.QuantitiesDown | inventory_management.py:116-123 | the quantities with a group, each once, in strictly decreasing order |
| Inventory.Entry | inventory_management.py:121 | an entry is the name, then the quantity in decimal inside " (" and ")" |
| Inventory.BucketLines | inventory_management.py:116-121 | one line per quantity that has a group, as many as the groups |
| Inventory.Listing | inventory_management.py:116-123 | the listing is the ranked entries, quantity descending then name, joined with ", " |
| Inventory.FindOn | inventory_management.py:103-123 | AttributeError exactly when a matching name was evicted |
| Inventory.FindListsByQuantityThenName | inventory_management.py:103-123 | a successful search lists "name (quantity)" entries joined by ", ", ordered by quantity descending and then by name |
| Inventory.ListingIsRanked | inventory_management.py:116-123 | joining the per-quantity groups equals joining the flat ranked list |
| Inventory.FileMatches | inventory_management.py:110-114 | the matching loop computes Matching over the hits, or fails as FindOn does |
| Inventory.ListBuckets | inventory_management.py:116-123 | the joining loop computes the listing of the groups |
| Inventory.InventorySystem.constructor | inventory_management.py:13-15 | no items and no users |
| Inventory.InventorySystem.AddUser | inventory_management.py:17-22 | users and result as AddUserOn |
| Inventory.InventorySystem.AddItem | inventory_management.py:24-29 | items and result as AddItemOn |
| Inventory.InventorySystem.AddItemBy | inventory_management.py:34-55 | items and result as AddItemByOn |
| Inventory.InventorySystem.UpdateCapacity | inventory_management.py:57-82 | items and result as UpdateCapacityOn |
| Inventory.InventorySystem.CopyItem | inventory_management.py:84-93 | items and result as CopyItemOn |
| Inventory.InventorySystem.GetItemQuantity | inventory_management.py:95-101 | QuantityOf the items |
| Inventory.InventorySystem.FindItem | inventory_management.py:103-123 | FindOn the items |

## Left out

- The worker threads, the lock around `add_urls`, `task_done`, the `None` shutdown sentinels, `crawler_worker`, `multicrawl` and its process pool are left out. They are concurrency. `crawler/url_worker.py` is not part of this model, because it fetches pages over the network. Only the sequential frontier is modelled.
- `print` calls and the test harnesses are left out. A few test traces are restated as scenario lemmas.
- The FX table and `math.floor(amount * rate)` are floating point. They stay abstract as a function `FxConvert` that may report a missing pair.
- Ledger.ProcessDayOn: reading `scheduled_payments[day]` on a defaultdict inserts an empty list for that day. The model does not record that insertion, because it changes no balance and no later lookup.
- Integers are unbounded, as Python's are.
- The string-typed results of `update_capacity`, `copy_item`, `get_item_quantity` and `find_item` are modelled as datatypes. The `int()` conversions are left out because quantities are already integers here.
- Python lists are modelled as sets in two places: the per-user id lists of a restored chat table, and the per-quantity name lists built by `find_item`. No list repeats an element, and their order is never observed, because `sorted` is applied before any output.
- `copy_item` makes two names share one `Item` object. It is modelled as a copied value, because items are never mutated after creation.
- `inventory_management/inventory_system.py` is not part of this model. It is an empty skeleton.
- The inline tests in `food_delivery.py` (level 4) expect "pending" or "waiting" for unknown ids, marked optional. The code raises KeyError, and the model follows the code: `StatusIn` fails with `UnknownId`.
- The same inline test also cancels driver B after B has taken order1. The code raises there, and the model does too: `CancelDriverOn` fails. The scenario lemmas follow `food_delivery/test.py` instead, which agrees with the code.

## Findings

| source | as written | input that shows it | evidently intended | confidence | as-written member | corrected member |
|---|---|---|---|---|---|---|
| food_delivery.py:59 | `if next_order:` treats the order id "" as no order; the id was already popped, so it is lost and the driver waits | orders "" and "o2" pending, then driver "d" becomes available: "d" waits, "o2" still pends, "" is gone | `if next_order is not None:` — the driver takes "" | not executed | Delivery.EmptyOrderIdBreaksMatching | Delivery.DriverAvailableOn |
| inventory_management.py:32 | the comprehension iterates the dict's keys, binding the item name to `qty`, so `sum` adds strings | user "u" owning item "a" of quantity 5: `add_item_by`/`update_capacity` raise TypeError | the sum of the quantities of the items the user owns | not executed | Inventory.UsageAsWrittenRaisesForOwners | Inventory.Usage |
