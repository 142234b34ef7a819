# Coffee_Demo domain layer in Dafny

This project models the domain layer of the Coffee_Demo order and delivery system and proves properties about it. It covers the following parts.

- **Value objects.** `Money` is held as non-negative cents with HALF_UP rounding. `OrderItem`, `Address` and `RiderInfo` are validated, and `Address` is trimmed. `DeliverySlip` and `DeliverySlipItem` are read-only projections of a delivery, and the slip has a builder.
- **Pricing.** Dine-in pricing is the sum of the line totals. Delivery pricing adds a 2.00 packaging fee and a 5.00 delivery fee. `PricingStrategyFactory` looks up a strategy by order type.
- **Three state machines.**
  - `Order`: CREATED, SETTLED, PREPARING, READY, COMPLETED, plus cancel.
  - `DeliveryStatus` / `Delivery`: a seven-status lifecycle.
  - `DeliveryItemStatus` / `DeliveryItem`: items move in step with their delivery.
- **The two in-memory repositories.**
- **The batching service `DeliveryBatchServiceImpl`.**
  - It validates a batch and saves it as one delivery.
  - It finds the orders that still wait for a delivery.
  - It splits them automatically into deliveries of at most 5 orders from one address, within a 15-minute window.

How the model is built:

- Immutable Java classes become datatypes with functions and lemmas.
- Classes whose fields change become Dafny classes, with one method per Java method. These are `Order`, `DeliveryItem`, `Delivery`, the slip builder, the repositories and the batch service.
- Each such method is proved to leave exactly the state that a pure transition function gives. Those are `Orders.Step`, `DeliveryItems.MarkPickedUp`/`MarkDelivered` and `Deliveries.Step`.
- The lifecycle properties are proved about the pure functions, over any sequence of calls.
- The batching loop of `autoBatchOrders` is proved against `BatchPlanning.Plan`, the greedy split as a function. The proof shows three things:
  - every delivery it creates has 1 to 5 orders, in creation order, of one address, each two within 15 minutes of each other;
  - every batchable order lands in exactly one delivery;
  - no `createDeliveryBatch` call inside the loop is ever refused.

Conventions:

- Times are whole seconds.
- Money is natural-number cents.
- Order and delivery ids are opaque values.
- A Java `null` is an `Option`.
- A thrown exception is the `Err`/`Fail` case of a result.
- The clock reading (`now`) and the id a generator would produce (`id`, or `idFor(j)` for the j-th delivery of a run) are parameters.

## Model

| member | source | states |
|---|---|---|
| Text.SkipLeading | src/main/java/com/bluemountain/coffee/domain/model/valobj/Address.java:32-48 | the index reached by the first loop of `trim`: everything skipped is a character at most U+0020 and it stops at the first one that is not |
| Text.SkipTrailing | src/main/java/com/bluemountain/coffee/domain/model/valobj/Address.java:32-48 | the index reached by the second loop of `trim`: never below the start, everything skipped is trimmable, and it stops at a kept character |
| Text.TrimShape | src/main/java/com/bluemountain/coffee/domain/model/aggregate/OrderItem.java:40 | the trimmed string is a slice of the input, everything cut off around it is trimmable, and its two ends are kept characters |
| Text.BlankIffAllTrimmable | src/main/java/com/bluemountain/coffee/domain/model/valobj/Address.java:32-43 | a string is blank after trim exactly when all its characters are trimmable |
| Text.TrimIdempotent | src/main/java/com/bluemountain/coffee/domain/model/valobj/Address.java:45-48 | trimming an already trimmed string changes nothing, so stored fields are in trimmed form |
| MoneyValue.Pow10 | src/main/java/com/bluemountain/coffee/domain/model/valobj/Money.java:36 | a power of ten is at least 1, so rescaling divides by a positive number |
| MoneyValue.RoundsHalfUpToUnique | src/main/java/com/bluemountain/coffee/domain/model/valobj/Money.java:36 | for any amount and scale at most one number of cents is the HALF_UP rounding to scale 2 |
| MoneyValue.HalfUpBounds | src/main/java/com/bluemountain/coffee/domain/model/valobj/Money.java:36 | the rounded quotient lies within half a unit of the exact one, the HALF_UP condition |
| MoneyValue.RoundHalfUp | src/main/java/com/bluemountain/coffee/domain/model/valobj/Money.java:29-37 | the cents stored are the HALF_UP rounding of the amount to scale 2 |
| MoneyValue.Of | src/main/java/com/bluemountain/coffee/domain/model/valobj/Money.java:55-57 | a negative amount is refused with the negative-amount error, and every other amount yields its HALF_UP rounding to cents |
| MoneyValue.Zero | src/main/java/com/bluemountain/coffee/domain/model/valobj/Money.java:64-66 | `zero()` holds 0 cents |
| MoneyValue.Add | src/main/java/com/bluemountain/coffee/domain/model/valobj/Money.java:74-76 | `add` never fails and holds the exact sum |
| MoneyValue.Subtract | src/main/java/com/bluemountain/coffee/domain/model/valobj/Money.java:84-90 | `subtract` fails exactly when the other amount is larger, and otherwise the difference added back gives the receiver |
| MoneyValue.Multiply | src/main/java/com/bluemountain/coffee/domain/model/valobj/Money.java:98-100 | multiplying by an integer fails exactly when the product would be negative and otherwise holds the exact product |
| MoneyValue.Equals | src/main/java/com/bluemountain/coffee/domain/model/valobj/Money.java:112-117 | two amounts are equal exactly when their cents are |
| MoneyValue.ZeroIsAddIdentity | src/main/java/com/bluemountain/coffee/domain/model/valobj/Money.java:64-76 | `zero()` is a left and right identity of `add` |
| MoneyValue.AddCommutativeAssociative | src/main/java/com/bluemountain/coffee/domain/model/valobj/Money.java:74-76 | `add` is commutative and associative |
| MoneyValue.SubtractUndoesAdd | src/main/java/com/bluemountain/coffee/domain/model/valobj/Money.java:74-90 | subtracting what was added gives back the original amount |
| MoneyValue.MultiplyByPositive | src/main/java/com/bluemountain/coffee/domain/model/valobj/Money.java:98-100 | multiplying by a positive quantity always succeeds with amount times quantity, the form order lines use |
| MoneyValue.RoundingExamples | src/main/java/com/bluemountain/coffee/domain/model/valobj/Money.java:29-37 | 2.005 rounds up to 2.01, 2.004 down to 2.00, 2.0 is 2.00 and a negative amount is refused |
| AddressValue.Of | src/main/java/com/bluemountain/coffee/domain/model/valobj/Address.java:31-62 | each of street, city, postal code and country is refused if null or blank, checked in that order, and an accepted address stores all four trimmed |
| AddressValue.Equals | src/main/java/com/bluemountain/coffee/domain/model/valobj/Address.java:101-109 | addresses are equal exactly when their four fields are |
| AddressValue.ToString | src/main/java/com/bluemountain/coffee/domain/model/valobj/Address.java:116-124 | the text begins with `Address{`, so it never equals `UNKNOWN` |
| AddressValue.OfEqualIffTrimmedEqual | src/main/java/com/bluemountain/coffee/domain/model/valobj/Address.java:45-48 | two accepted inputs give the same address exactly when their fields agree after trimming |
| AddressValue.EqualAddressesEqualKeys | src/main/java/com/bluemountain/coffee/domain/model/valobj/Address.java:101-124 | equal addresses have equal texts, so they get the same batching key |
| OrderItemValue.Of | src/main/java/com/bluemountain/coffee/domain/model/aggregate/OrderItem.java:29-56 | a null or blank name, a quantity of 0 or less and a null unit price are refused in that order; an accepted line stores the name trimmed and a total equal to unit price times quantity |
| OrderItemValue.Equals | src/main/java/com/bluemountain/coffee/domain/model/aggregate/OrderItem.java:95-102 | comparing name, quantity and unit price is, on constructed lines, full equality, because the total is determined by the other fields |
| OrderItemValue.OfIgnoresSurroundingWhitespace | src/main/java/com/bluemountain/coffee/domain/model/aggregate/OrderItem.java:40 | names that differ only in surrounding whitespace give equal lines |
| RiderInfoValue.New | src/main/java/com/bluemountain/coffee/domain/model/valobj/RiderInfo.java:15-29 | rider id, name and phone are refused in that order if null or blank, stored untrimmed, and a null vehicle type becomes BICYCLE |
| RiderInfoValue.OfDefaultVehicle | src/main/java/com/bluemountain/coffee/domain/model/valobj/RiderInfo.java:83-85 | the three-argument factory always gives a BICYCLE rider |
| RiderInfoValue.Of | src/main/java/com/bluemountain/coffee/domain/model/valobj/RiderInfo.java:76-78 | the four-argument factory succeeds exactly when id, name and phone are all non-blank, and then holds them as given with a null vehicle type replaced by BICYCLE |
| RiderInfoValue.DefaultVehicleAgreesWithNull | src/main/java/com/bluemountain/coffee/domain/model/valobj/RiderInfo.java:76-85 | the three-argument factory builds the same rider as the four-argument one with a null vehicle type |
| RiderInfoValue.Equals | src/main/java/com/bluemountain/coffee/domain/model/valobj/RiderInfo.java:48-56 | riders are equal exactly when all four fields are |
| Pricing.FeesAsBuilt | src/main/java/com/bluemountain/coffee/domain/strategy/DeliveryPricingStrategy.java:35-40 | the packaging fee is 2.00 and the delivery fee 5.00, as `Money.of` builds them |
| Pricing.FoldIsSum | src/main/java/com/bluemountain/coffee/domain/strategy/DineInPricingStrategy.java:38-43 | folding line totals with `add` from an accumulator gives the accumulator plus the sum of the totals |
| Pricing.Calculate | src/main/java/com/bluemountain/coffee/domain/strategy/DeliveryPricingStrategy.java:53-63 | delivery pricing charges the sum of the line totals plus the 2.00 packaging fee and the 5.00 delivery fee; dine-in pricing (DineInPricingStrategy.java:38-43) charges exactly that sum, with no fee |
| Pricing.DeliveryIsDineInPlusFees | src/main/java/com/bluemountain/coffee/domain/strategy/DeliveryPricingStrategy.java:53-63 | delivery pricing charges the dine-in price of the same lines plus 7.00, so never less than 7.00 |
| Pricing.TenDollarOrder | src/main/java/com/bluemountain/coffee/domain/strategy/DeliveryPricingStrategy.java:47-60 | lines totalling 10.00 cost 10.00 dine-in and 17.00 for delivery |
| Pricing.SumCentsAppend | src/main/java/com/bluemountain/coffee/domain/strategy/DineInPricingStrategy.java:40-42 | the sum of the totals of two lists of lines is the sum of their sums |
| Pricing.SumCentsRemove | src/main/java/com/bluemountain/coffee/domain/strategy/DineInPricingStrategy.java:40-42 | removing one line from a list takes exactly its total off the sum |
| Pricing.MultisetRemoveFirst | src/main/java/com/bluemountain/coffee/domain/strategy/DineInPricingStrategy.java:40-42 | removing the first line of one list and a matching line of a permutation of it leaves two permutations |
| Pricing.SumCentsPermutation | src/main/java/com/bluemountain/coffee/domain/strategy/DineInPricingStrategy.java:40-42 | lists with the same lines in any order have the same sum |
| Pricing.PriceIgnoresItemOrder | src/main/java/com/bluemountain/coffee/domain/strategy/DeliveryPricingStrategy.java:55-57 | either strategy charges the same for any reordering of the lines |
| PricingFactory.GetStrategy | src/main/java/com/bluemountain/coffee/application/PricingStrategyFactory.java:66-72 | a registered type gives its strategy and an unregistered one the no-strategy error |
| PricingFactory.Registry | src/main/java/com/bluemountain/coffee/application/PricingStrategyFactory.java:50-57 | the constructor registers a strategy for every order type, and a different one for DINE_IN and DELIVERY |
| PricingFactory.RegistryServesEveryType | src/main/java/com/bluemountain/coffee/application/PricingStrategyFactory.java:50-57 | the registry built by the constructor serves both order types: DINE_IN gets dine-in and DELIVERY gets delivery pricing |
| PricingFactory.FactoryPriceByType | src/main/java/com/bluemountain/coffee/application/PricingStrategyFactory.java:66-72 | pricing through the factory charges a dine-in order its line sum and a delivery order the line sum plus 7.00 |
| Orders.NewOrder | src/main/java/com/bluemountain/coffee/domain/model/aggregate/Order.java:67-93 | a null customer name, a delivery order without an address, a dine-in order with one and an empty item list are refused in that order; a new order is CREATED with no price and updatedAt equal to createdAt |
| Orders.Step | src/main/java/com/bluemountain/coffee/domain/model/aggregate/Order.java:170-246 | each named method succeeds exactly when the table allows its target; it then sets the status and updatedAt, and only `settle` sets the price, to the strategy's charge; a refusal names the current and target status, or that a completed order cannot be cancelled |
| Orders.TransitionToStatus | src/main/java/com/bluemountain/coffee/domain/model/aggregate/Order.java:256-277 | `transitionTo` succeeds exactly when the target is neither SETTLED nor CREATED and the table allows the move; it then changes only the status, to the target, and updatedAt; SETTLED is refused as unsupported |
| Orders.TransitionToAgreesWithNamedMethods | src/main/java/com/bluemountain/coffee/domain/model/aggregate/Order.java:256-277 | `transitionTo` refuses CREATED as an invalid move and otherwise does exactly what the named method for that status does |
| Orders.RunKeepsInvariantAndIdentity | src/main/java/com/bluemountain/coffee/domain/model/aggregate/Order.java:45-53 | along any sequence of calls the order keeps its id, customer, type, lines, address and creation time and its invariant |
| Orders.PriceFixedOnceSet | src/main/java/com/bluemountain/coffee/domain/model/aggregate/Order.java:179 | once an order is settled its price never changes again |
| Orders.NeverBackToCreated | src/main/java/com/bluemountain/coffee/domain/model/aggregate/Order.java:256-277 | after any accepted call an order is never CREATED again |
| Orders.CompletedIsFinal | src/main/java/com/bluemountain/coffee/domain/model/aggregate/Order.java:225-246 | a completed order refuses every further call |
| Orders.CancelAllowedUnlessCompleted | src/main/java/com/bluemountain/coffee/domain/model/aggregate/Order.java:238-246 | `cancel` succeeds exactly when the order is not COMPLETED, including on an already cancelled order |
| Orders.HappyPath | src/main/java/com/bluemountain/coffee/domain/model/aggregate/Order.java:170-233 | settle, start preparing, mark ready and complete take a new order to COMPLETED with its price set by the strategy |
| Orders.Order.FromSnapshot | src/main/java/com/bluemountain/coffee/domain/model/aggregate/Order.java:67-93 | an order object holding the given field values |
| Orders.Order.Create | src/main/java/com/bluemountain/coffee/domain/model/aggregate/Order.java:107-128 | `create` builds the order `NewOrder` describes, or reports its error |
| Orders.Order.Settle | src/main/java/com/bluemountain/coffee/domain/model/aggregate/Order.java:170-182 | the fields after the call are those `Step` gives for settle, and a refusal changes no field |
| Orders.Order.StartPreparing | src/main/java/com/bluemountain/coffee/domain/model/aggregate/Order.java:187-195 | the fields after the call are those `Step` gives, and a refusal changes no field |
| Orders.Order.MarkAsReady | src/main/java/com/bluemountain/coffee/domain/model/aggregate/Order.java:202-220 | the fields after the call are those `Step` gives, and a refusal changes no field |
| Orders.Order.Complete | src/main/java/com/bluemountain/coffee/domain/model/aggregate/Order.java:225-233 | the fields after the call are those `Step` gives, and a refusal changes no field |
| Orders.Order.Cancel | src/main/java/com/bluemountain/coffee/domain/model/aggregate/Order.java:238-246 | the fields after the call are those `Step` gives, and a refusal changes no field |
| Orders.Order.TransitionTo | src/main/java/com/bluemountain/coffee/domain/model/aggregate/Order.java:256-277 | the fields after the call are those `transitionTo` gives, and a refusal changes no field |
| DeliveryItemStatuses.CanTransitionTo | src/main/java/com/bluemountain/coffee/domain/model/enums/DeliveryItemStatus.java:26-37 | an item moves exactly one step forward along READY, PICKED_UP, DELIVERED, so nothing returns to READY |
| DeliveryItemStatuses.IsTerminal | src/main/java/com/bluemountain/coffee/domain/model/enums/DeliveryItemStatus.java:42-44 | DELIVERED, the end of the chain, is the terminal status, and nothing moves out of it |
| DeliveryItemStatuses.CanMarkPickedUp | src/main/java/com/bluemountain/coffee/domain/model/enums/DeliveryItemStatus.java:49-51 | picking up is allowed exactly where the table allows a move to PICKED_UP |
| DeliveryItemStatuses.CanMarkDelivered | src/main/java/com/bluemountain/coffee/domain/model/enums/DeliveryItemStatus.java:56-58 | delivering is allowed exactly where the table allows a move to DELIVERED |
| DeliveryItemStatuses.TerminalIffNoMoveOut | src/main/java/com/bluemountain/coffee/domain/model/enums/DeliveryItemStatus.java:26-44 | the terminal status is exactly the one with no move out |
| DeliveryStatuses.CanTransitionTo | src/main/java/com/bluemountain/coffee/domain/model/enums/DeliveryStatus.java:50-69 | a move goes one step along CREATED, ASSIGNED, PICKED_UP, IN_TRANSIT, DELIVERED, COMPLETED, or to CANCELLED from CREATED or ASSIGNED |
| DeliveryStatuses.IsTerminal | src/main/java/com/bluemountain/coffee/domain/model/enums/DeliveryStatus.java:74-76 | COMPLETED and CANCELLED, the end of the chain and the status off it, are terminal, and nothing moves out of them |
| DeliveryStatuses.IsActive | src/main/java/com/bluemountain/coffee/domain/model/enums/DeliveryStatus.java:81-83 | the active statuses are exactly those strictly between CREATED and DELIVERED along the chain |
| DeliveryStatuses.CanAssignRider | src/main/java/com/bluemountain/coffee/domain/model/enums/DeliveryStatus.java:88-90 | assigning a rider is allowed exactly where the table allows a move to ASSIGNED |
| DeliveryStatuses.CanCancel | src/main/java/com/bluemountain/coffee/domain/model/enums/DeliveryStatus.java:95-97 | cancelling is allowed exactly where the table allows a move to CANCELLED |
| DeliveryStatuses.CanMarkPickedUp | src/main/java/com/bluemountain/coffee/domain/model/enums/DeliveryStatus.java:102-104 | picking up is allowed exactly where the table allows a move to PICKED_UP |
| DeliveryStatuses.CanMarkInTransit | src/main/java/com/bluemountain/coffee/domain/model/enums/DeliveryStatus.java:109-111 | going in transit is allowed exactly where the table allows a move to IN_TRANSIT |
| DeliveryStatuses.CanMarkDelivered | src/main/java/com/bluemountain/coffee/domain/model/enums/DeliveryStatus.java:116-118 | delivering is allowed exactly where the table allows a move to DELIVERED |
| DeliveryStatuses.CanComplete | src/main/java/com/bluemountain/coffee/domain/model/enums/DeliveryStatus.java:123-125 | completing is allowed exactly where the table allows a move to COMPLETED |
| DeliveryStatuses.TerminalIffNoMoveOut | src/main/java/com/bluemountain/coffee/domain/model/enums/DeliveryStatus.java:50-76 | the terminal statuses are exactly those with no move out |
| DeliveryStatuses.ActiveAndTerminalAreDisjoint | src/main/java/com/bluemountain/coffee/domain/model/enums/DeliveryStatus.java:74-83 | no status is both active and terminal; CREATED and DELIVERED are the two that are neither |
| DeliveryItems.MarkPickedUp | src/main/java/com/bluemountain/coffee/domain/model/aggregate/DeliveryItem.java:53-60 | picking up succeeds exactly from READY, changes only the status, and otherwise reports the current status |
| DeliveryItems.MarkDelivered | src/main/java/com/bluemountain/coffee/domain/model/aggregate/DeliveryItem.java:65-72 | delivering succeeds exactly from PICKED_UP, changes only the status, and otherwise reports the current status |
| DeliveryItems.ItemLifecycle | src/main/java/com/bluemountain/coffee/domain/model/aggregate/DeliveryItem.java:53-72 | an item goes READY, PICKED_UP, DELIVERED, keeps its order throughout, and then refuses both calls |
| DeliveryItems.ItemEquals | src/main/java/com/bluemountain/coffee/domain/model/aggregate/DeliveryItem.java:75-80 | two items are equal exactly when they differ at most in their order snapshot and status |
| DeliveryItems.MarkingKeepsItemEqual | src/main/java/com/bluemountain/coffee/domain/model/aggregate/DeliveryItem.java:75-80 | a successful mark changes the item but it stays equal to its earlier self, since equality is by order id |
| DeliveryItems.DeliveryItem.constructor | src/main/java/com/bluemountain/coffee/domain/model/aggregate/DeliveryItem.java:17-27 | a new item holds its order and starts READY |
| DeliveryItems.DeliveryItem.MarkAsPickedUp | src/main/java/com/bluemountain/coffee/domain/model/aggregate/DeliveryItem.java:53-60 | the item after the call is what `MarkPickedUp` gives, and a refusal changes nothing |
| DeliveryItems.DeliveryItem.MarkAsDelivered | src/main/java/com/bluemountain/coffee/domain/model/aggregate/DeliveryItem.java:65-72 | the item after the call is what `MarkDelivered` gives, and a refusal changes nothing |
| Deliveries.OrdersOf | src/main/java/com/bluemountain/coffee/domain/model/aggregate/Delivery.java:316-318 | `getOrders` lists the items' orders in item order |
| Deliveries.OrderIdsOf | src/main/java/com/bluemountain/coffee/domain/model/aggregate/Delivery.java:325-329 | `getOrderIds` lists the items' order ids in item order |
| Deliveries.IdsOf | src/main/java/com/bluemountain/coffee/domain/model/aggregate/Delivery.java:92-95 | the ids of a list of orders, one per order, in order, as `create` hands them to the items |
| Deliveries.CheckAllReady | src/main/java/com/bluemountain/coffee/domain/model/aggregate/Delivery.java:73-80 | the check passes exactly when every order is READY, and otherwise names an order that is not |
| Deliveries.CheckAllReadyFindsFirst | src/main/java/com/bluemountain/coffee/domain/model/aggregate/Delivery.java:73-80 | the order the check names is the first one that is not READY, with its status |
| Deliveries.ItemsFor | src/main/java/com/bluemountain/coffee/domain/model/aggregate/Delivery.java:93-95 | one READY item per order, in order |
| Deliveries.NewDelivery | src/main/java/com/bluemountain/coffee/domain/model/aggregate/Delivery.java:58-105 | an empty list and any order not READY are refused; a new delivery is CREATED with no rider or times, created and updated now, and its orders and order ids are the input's, in order |
| Deliveries.WithItemStatus | src/main/java/com/bluemountain/coffee/domain/model/aggregate/Delivery.java:184-186 | every item with its status replaced and nothing else changed |
| Deliveries.Step | src/main/java/com/bluemountain/coffee/domain/model/aggregate/Delivery.java:144-277 | each method succeeds exactly when the table allows its target, keeps the orders, keeps items in step with the status and sets rider, pickup or delivery time as its method does; a refusal names the method and current status |
| Deliveries.ItemLoopsNeverThrow | src/main/java/com/bluemountain/coffee/domain/model/aggregate/Delivery.java:184-230 | in a well-formed delivery the item loops of pickup and delivery never meet an item that refuses |
| Deliveries.StepAdvances | src/main/java/com/bluemountain/coffee/domain/model/aggregate/Delivery.java:144-277 | an accepted call moves one step forward along the chain, or cancels from CREATED or ASSIGNED |
| Deliveries.TerminalIffStuck | src/main/java/com/bluemountain/coffee/domain/model/aggregate/Delivery.java:341-343 | a delivery is terminal exactly when it refuses every call |
| Deliveries.RunKeepsWellFormedAndBatch | src/main/java/com/bluemountain/coffee/domain/model/aggregate/Delivery.java:171-277 | along any sequence of calls the delivery keeps its id, orders and creation time, and item statuses stay determined by its status |
| Deliveries.NoCancelAfterPickup | src/main/java/com/bluemountain/coffee/domain/model/aggregate/Delivery.java:267-277 | once picked up a delivery never becomes CANCELLED or goes back before pickup, and its pickup time stays |
| Deliveries.HappyPath | src/main/java/com/bluemountain/coffee/domain/model/aggregate/Delivery.java:144-262 | the five calls take a new delivery to COMPLETED with the rider and both times recorded and every item DELIVERED |
| Deliveries.Delivery.ItemRecords | src/main/java/com/bluemountain/coffee/domain/model/aggregate/Delivery.java:61 | the item objects' fields in order |
| Deliveries.Delivery.FromItems | src/main/java/com/bluemountain/coffee/domain/model/aggregate/Delivery.java:58-81 | the private constructor: a CREATED delivery over the given items, created and updated now |
| Deliveries.Delivery.Create | src/main/java/com/bluemountain/coffee/domain/model/aggregate/Delivery.java:114-137 | `create` builds the delivery `NewDelivery` describes, with fresh items, or reports its error |
| Deliveries.Delivery.AssignRider | src/main/java/com/bluemountain/coffee/domain/model/aggregate/Delivery.java:144-166 | the fields after the call are those `Step` gives, and a refusal changes nothing |
| Deliveries.Delivery.MarkAsPickedUp | src/main/java/com/bluemountain/coffee/domain/model/aggregate/Delivery.java:171-195 | the fields after the call, items included, are those `Step` gives, and a refusal changes nothing |
| Deliveries.Delivery.MarkItemsPickedUp | src/main/java/com/bluemountain/coffee/domain/model/aggregate/Delivery.java:184-186 | the loop leaves every item PICKED_UP and nothing else changed |
| Deliveries.Delivery.MarkAsInTransit | src/main/java/com/bluemountain/coffee/domain/model/aggregate/Delivery.java:200-210 | the fields after the call are those `Step` gives, and a refusal changes nothing |
| Deliveries.Delivery.MarkAsDelivered | src/main/java/com/bluemountain/coffee/domain/model/aggregate/Delivery.java:215-239 | the fields after the call, items included, are those `Step` gives, and a refusal changes nothing |
| Deliveries.Delivery.MarkItemsDelivered | src/main/java/com/bluemountain/coffee/domain/model/aggregate/Delivery.java:228-230 | the loop leaves every item DELIVERED and nothing else changed |
| Deliveries.Delivery.Complete | src/main/java/com/bluemountain/coffee/domain/model/aggregate/Delivery.java:244-262 | the fields after the call are those `Step` gives, and a refusal changes nothing |
| Deliveries.Delivery.Cancel | src/main/java/com/bluemountain/coffee/domain/model/aggregate/Delivery.java:267-277 | the fields after the call are those `Step` gives, and a refusal changes nothing |
| DeliverySlips.ProductNames | src/main/java/com/bluemountain/coffee/domain/model/valobj/DeliverySlipItem.java:70-72 | the product names of the order's lines, in line order |
| DeliverySlips.FromDeliveryItem | src/main/java/com/bluemountain/coffee/domain/model/valobj/DeliverySlipItem.java:64-86 | a slip line copies order id, customer, address and item status, lists the product names and counts the quantities |
| DeliverySlips.QuantitiesCoverLines | src/main/java/com/bluemountain/coffee/domain/model/valobj/DeliverySlipItem.java:74-76 | the quantity count of constructed lines is at least the number of lines |
| DeliverySlips.SlipItemEquals | src/main/java/com/bluemountain/coffee/domain/model/valobj/DeliverySlipItem.java:88-94 | two slip lines are equal exactly when they differ at most outside the order id |
| DeliverySlips.SlipItemEqualityIgnoresProgress | src/main/java/com/bluemountain/coffee/domain/model/valobj/DeliverySlipItem.java:89-94 | a slip line stays equal to its earlier self as the item moves on, though the values differ |
| DeliverySlips.Assemble | src/main/java/com/bluemountain/coffee/domain/model/valobj/DeliverySlip.java:32-40 | a slip is built exactly when delivery id, items, status and creation time are all set, the first missing one naming the error |
| DeliverySlips.SlipItemsOf | src/main/java/com/bluemountain/coffee/domain/model/valobj/DeliverySlip.java:92-94 | one slip line per delivery item, in order |
| DeliverySlips.FromDelivery | src/main/java/com/bluemountain/coffee/domain/model/valobj/DeliverySlip.java:89-105 | the slip copies id, rider, status and the three times, and has one line per item in order |
| DeliverySlips.ItemCount | src/main/java/com/bluemountain/coffee/domain/model/valobj/DeliverySlip.java:73-75 | the order count is zero only for an empty slip, and never exceeds the product count when each order counts at least one product |
| DeliverySlips.TotalProductCount | src/main/java/com/bluemountain/coffee/domain/model/valobj/DeliverySlip.java:80-84 | when each order counts at least one product the product count is at least the number of orders (its value is given by `SlipTotalIsQuantitySum`) |
| DeliverySlips.SlipTotalIsQuantitySum | src/main/java/com/bluemountain/coffee/domain/model/valobj/DeliverySlip.java:80-84 | the product count of the slip of a delivery is the sum of the quantities of every line of every one of its orders |
| DeliverySlips.SumItemCountsAtLeastLength | src/main/java/com/bluemountain/coffee/domain/model/valobj/DeliverySlip.java:80-84 | a sum of line counts each at least 1 is at least the number of lines |
| DeliverySlips.SlipCountsOrdersAndProducts | src/main/java/com/bluemountain/coffee/domain/model/valobj/DeliverySlip.java:73-84 | the slip of a delivery counts its orders and lists their ids in order; its product count is the sum of all the orders' quantities, at least one per order |
| DeliverySlips.SlipEquals | src/main/java/com/bluemountain/coffee/domain/model/valobj/DeliverySlip.java:108-119 | two slips are equal exactly when all fields but the lines agree and the lines agree pointwise on their order ids; equal values are equal slips |
| DeliverySlips.StepChangesSlip | src/main/java/com/bluemountain/coffee/domain/model/valobj/DeliverySlip.java:108-119 | after every accepted call the new slip is not equal to the old one, while each line still is |
| DeliverySlips.SlipBuilder.constructor | src/main/java/com/bluemountain/coffee/domain/model/valobj/DeliverySlip.java:142-149 | a builder starts with every field unset |
| DeliverySlips.SlipBuilder.WithDeliveryId | src/main/java/com/bluemountain/coffee/domain/model/valobj/DeliverySlip.java:151-154 | the setter records the delivery id and nothing else |
| DeliverySlips.SlipBuilder.WithItems | src/main/java/com/bluemountain/coffee/domain/model/valobj/DeliverySlip.java:156-159 | the setter records the items and nothing else |
| DeliverySlips.SlipBuilder.WithRiderInfo | src/main/java/com/bluemountain/coffee/domain/model/valobj/DeliverySlip.java:161-164 | the setter records the rider and nothing else |
| DeliverySlips.SlipBuilder.WithStatus | src/main/java/com/bluemountain/coffee/domain/model/valobj/DeliverySlip.java:166-169 | the setter records the status and nothing else |
| DeliverySlips.SlipBuilder.WithCreatedAt | src/main/java/com/bluemountain/coffee/domain/model/valobj/DeliverySlip.java:171-174 | the setter records the creation time and nothing else |
| DeliverySlips.SlipBuilder.WithPickupTime | src/main/java/com/bluemountain/coffee/domain/model/valobj/DeliverySlip.java:176-179 | the setter records the pickup time and nothing else |
| DeliverySlips.SlipBuilder.WithDeliveryTime | src/main/java/com/bluemountain/coffee/domain/model/valobj/DeliverySlip.java:181-184 | the setter records the delivery time and nothing else |
| DeliverySlips.SlipBuilder.Build | src/main/java/com/bluemountain/coffee/domain/model/valobj/DeliverySlip.java:186-188 | `build` succeeds exactly when the four required fields are set |
| DeliverySlips.BuildFromDelivery | src/main/java/com/bluemountain/coffee/domain/model/valobj/DeliverySlip.java:89-105 | `fromDelivery` through the builder gives the slip `FromDelivery` describes |
| OrderRepository.Lookup | src/main/java/com/bluemountain/coffee/infrastructure/persistence/InMemoryOrderRepository.java:75-78 | found exactly when stored, and then the order filed under that id |
| OrderRepository.Values | src/main/java/com/bluemountain/coffee/infrastructure/persistence/InMemoryOrderRepository.java:86-89 | `findAll` holds exactly the stored orders |
| OrderRepository.WithStatus | src/main/java/com/bluemountain/coffee/infrastructure/persistence/InMemoryOrderRepository.java:98-103 | exactly the stored orders with the status |
| OrderRepository.WithType | src/main/java/com/bluemountain/coffee/infrastructure/persistence/InMemoryOrderRepository.java:112-117 | exactly the stored orders of the type |
| OrderRepository.CreatedBetween | src/main/java/com/bluemountain/coffee/infrastructure/persistence/InMemoryOrderRepository.java:127-135 | exactly the stored orders created within the range, both ends included |
| OrderRepository.SaveThenFind | src/main/java/com/bluemountain/coffee/infrastructure/persistence/InMemoryOrderRepository.java:62-78 | after a save the order is found under its id and every other id finds what it found before |
| OrderRepository.SaveIsIdempotent | src/main/java/com/bluemountain/coffee/infrastructure/persistence/InMemoryOrderRepository.java:62-66 | saving the same order twice stores what saving it once does |
| OrderRepository.DeleteThenFind | src/main/java/com/bluemountain/coffee/infrastructure/persistence/InMemoryOrderRepository.java:144-147 | after a delete the id finds nothing and every other id finds what it found before |
| OrderRepository.StatusQueriesPartition | src/main/java/com/bluemountain/coffee/infrastructure/persistence/InMemoryOrderRepository.java:98-103 | each stored order is found under its own status and under no other |
| OrderRepository.BetweenBounds | src/main/java/com/bluemountain/coffee/infrastructure/persistence/InMemoryOrderRepository.java:127-135 | a reversed range finds nothing and a one-instant range finds exactly the orders created then |
| OrderRepository.InMemoryOrderRepository.constructor | src/main/java/com/bluemountain/coffee/infrastructure/persistence/InMemoryOrderRepository.java:53 | a new repository is empty |
| OrderRepository.InMemoryOrderRepository.Save | src/main/java/com/bluemountain/coffee/infrastructure/persistence/InMemoryOrderRepository.java:62-66 | the order is filed under its id, replacing only that entry, and handed back |
| OrderRepository.InMemoryOrderRepository.FindById | src/main/java/com/bluemountain/coffee/infrastructure/persistence/InMemoryOrderRepository.java:75-78 | `Lookup` on the stored map |
| OrderRepository.InMemoryOrderRepository.FindAll | src/main/java/com/bluemountain/coffee/infrastructure/persistence/InMemoryOrderRepository.java:86-89 | exactly the stored orders |
| OrderRepository.InMemoryOrderRepository.FindByStatus | src/main/java/com/bluemountain/coffee/infrastructure/persistence/InMemoryOrderRepository.java:98-103 | exactly the stored orders with the status |
| OrderRepository.InMemoryOrderRepository.FindByType | src/main/java/com/bluemountain/coffee/infrastructure/persistence/InMemoryOrderRepository.java:112-117 | exactly the stored orders of the type |
| OrderRepository.InMemoryOrderRepository.FindByCreatedAtBetween | src/main/java/com/bluemountain/coffee/infrastructure/persistence/InMemoryOrderRepository.java:127-135 | exactly the stored orders created in the range, both ends included |
| OrderRepository.InMemoryOrderRepository.DeleteById | src/main/java/com/bluemountain/coffee/infrastructure/persistence/InMemoryOrderRepository.java:144-147 | true exactly when the id was stored, which it no longer is |
| OrderRepository.InMemoryOrderRepository.ExistsById | src/main/java/com/bluemountain/coffee/infrastructure/persistence/InMemoryOrderRepository.java:156-158 | true exactly when `findById` finds something |
| DeliveryRepository.Values | src/main/java/com/bluemountain/coffee/infrastructure/persistence/InMemoryDeliveryRepository.java:84-86 | exactly the stored deliveries |
| DeliveryRepository.Carrying | src/main/java/com/bluemountain/coffee/infrastructure/persistence/InMemoryDeliveryRepository.java:59-64 | the stored deliveries whose order ids contain the order, whatever their status |
| DeliveryRepository.SaveThenFind | src/main/java/com/bluemountain/coffee/infrastructure/persistence/InMemoryDeliveryRepository.java:29-39 | after a save the delivery is found under its id and every other id is untouched |
| DeliveryRepository.SaveAndCarrying | src/main/java/com/bluemountain/coffee/infrastructure/persistence/InMemoryDeliveryRepository.java:29-64 | saving a delivery carrying an order makes the order found; saving one that does not cannot |
| DeliveryRepository.CountIsValues | src/main/java/com/bluemountain/coffee/infrastructure/persistence/InMemoryDeliveryRepository.java:112-114 | in a keyed store the number of ids is the number of stored deliveries |
| DeliveryRepository.InMemoryDeliveryRepository.constructor | src/main/java/com/bluemountain/coffee/infrastructure/persistence/InMemoryDeliveryRepository.java:26 | a new repository is empty |
| DeliveryRepository.InMemoryDeliveryRepository.Save | src/main/java/com/bluemountain/coffee/infrastructure/persistence/InMemoryDeliveryRepository.java:29-33 | the delivery is filed under its id, replacing only that entry, and handed back |
| DeliveryRepository.InMemoryDeliveryRepository.FindById | src/main/java/com/bluemountain/coffee/infrastructure/persistence/InMemoryDeliveryRepository.java:36-39 | found exactly when stored, and then the delivery filed under that id |
| DeliveryRepository.InMemoryDeliveryRepository.FindByStatus | src/main/java/com/bluemountain/coffee/infrastructure/persistence/InMemoryDeliveryRepository.java:42-47 | exactly the stored deliveries with the status |
| DeliveryRepository.InMemoryDeliveryRepository.FindByRiderId | src/main/java/com/bluemountain/coffee/infrastructure/persistence/InMemoryDeliveryRepository.java:50-56 | exactly the stored deliveries that have a rider with that id; those without a rider are skipped |
| DeliveryRepository.InMemoryDeliveryRepository.FindByOrderId | src/main/java/com/bluemountain/coffee/infrastructure/persistence/InMemoryDeliveryRepository.java:59-64 | present exactly when some stored delivery carries the order, and then one that does |
| DeliveryRepository.InMemoryDeliveryRepository.FindActiveDeliveries | src/main/java/com/bluemountain/coffee/infrastructure/persistence/InMemoryDeliveryRepository.java:67-71 | exactly the stored deliveries that are ASSIGNED, PICKED_UP or IN_TRANSIT |
| DeliveryRepository.InMemoryDeliveryRepository.FindDeliveriesBetween | src/main/java/com/bluemountain/coffee/infrastructure/persistence/InMemoryDeliveryRepository.java:74-81 | exactly the stored deliveries created within the range, both ends included |
| DeliveryRepository.InMemoryDeliveryRepository.FindAll | src/main/java/com/bluemountain/coffee/infrastructure/persistence/InMemoryDeliveryRepository.java:84-86 | exactly the stored deliveries |
| DeliveryRepository.InMemoryDeliveryRepository.DeleteById | src/main/java/com/bluemountain/coffee/infrastructure/persistence/InMemoryDeliveryRepository.java:89-92 | the id is removed and nothing else changes |
| DeliveryRepository.InMemoryDeliveryRepository.ExistsById | src/main/java/com/bluemountain/coffee/infrastructure/persistence/InMemoryDeliveryRepository.java:95-98 | true exactly when `findById` finds something |
| DeliveryRepository.InMemoryDeliveryRepository.Clear | src/main/java/com/bluemountain/coffee/infrastructure/persistence/InMemoryDeliveryRepository.java:103-105 | the store is empty |
| DeliveryRepository.InMemoryDeliveryRepository.Count | src/main/java/com/bluemountain/coffee/infrastructure/persistence/InMemoryDeliveryRepository.java:112-114 | the number of stored ids, which in a keyed store is the number of stored deliveries |
| BatchPlanning.WindowBoundaries | src/main/java/com/bluemountain/coffee/infrastructure/service/DeliveryBatchServiceImpl.java:236-240 | exactly 15 minutes before or after the reference is inside the window, 15 minutes and one second is outside, and the window is symmetric |
| BatchPlanning.IsWithinTimeWindow | src/main/java/com/bluemountain/coffee/infrastructure/service/DeliveryBatchServiceImpl.java:236-240 | a time is in the window exactly when it is at most 15 minutes from the reference, either way |
| BatchPlanning.AddressKey | src/main/java/com/bluemountain/coffee/infrastructure/service/DeliveryBatchServiceImpl.java:115-118 | the key as written is "UNKNOWN" exactly for an order without an address: no address text equals it |
| BatchPlanning.DistinctAddressesShareKey | src/main/java/com/bluemountain/coffee/infrastructure/service/DeliveryBatchServiceImpl.java:115-118 | two different valid addresses exist whose texts, and so whose grouping keys as written, are equal |
| BatchPlanning.FieldBoundaryShift | src/main/java/com/bluemountain/coffee/infrastructure/service/DeliveryBatchServiceImpl.java:115-118 | moving the text `', city='` across the boundary between street and city leaves the address text unchanged |
| BatchPlanning.KeyCollisionAsWritten | src/main/java/com/bluemountain/coffee/infrastructure/service/DeliveryBatchServiceImpl.java:115-118 | two orders bound for different addresses get the same grouping key as written |
| BatchPlanning.BatchKeyRefinesAddressKey | src/main/java/com/bluemountain/coffee/infrastructure/service/DeliveryBatchServiceImpl.java:210-214 | orders with the same address key have the same text key, and an order without an address shares its key only with another one without |
| BatchPlanning.EnumerationExists | src/main/java/com/bluemountain/coffee/infrastructure/service/DeliveryBatchServiceImpl.java:88-100 | every finite set of orders can be listed once each, so the listing the repository hands back exists |
| BatchPlanning.Insert | src/main/java/com/bluemountain/coffee/infrastructure/service/DeliveryBatchServiceImpl.java:112 | inserting adds exactly the one order to the list's contents |
| BatchPlanning.InsertKeepsSorted | src/main/java/com/bluemountain/coffee/infrastructure/service/DeliveryBatchServiceImpl.java:112 | inserting into a list sorted by creation time keeps it sorted |
| BatchPlanning.SortByCreatedAt | src/main/java/com/bluemountain/coffee/infrastructure/service/DeliveryBatchServiceImpl.java:112 | the sort gives a list ordered by creation time holding exactly the input's orders |
| BatchPlanning.FilterKeys | src/main/java/com/bluemountain/coffee/infrastructure/service/DeliveryBatchServiceImpl.java:115-118 | the filter keeps only orders of the input with a chosen key, never more copies than the input has |
| BatchPlanning.FlattenAppend | src/main/java/com/bluemountain/coffee/infrastructure/service/DeliveryBatchServiceImpl.java:121-167 | the orders of two runs of deliveries, one after the other, are the orders of each run in turn |
| BatchPlanning.Scan | src/main/java/com/bluemountain/coffee/infrastructure/service/DeliveryBatchServiceImpl.java:125-166 | the scan of one group never creates an empty delivery, nor more deliveries than it has orders |
| BatchPlanning.GroupBatches | src/main/java/com/bluemountain/coffee/infrastructure/service/DeliveryBatchServiceImpl.java:122-166 | one address group gives at least one delivery exactly when it is non-empty, none of them empty, and no more deliveries than orders |
| BatchPlanning.ScanFlattens | src/main/java/com/bluemountain/coffee/infrastructure/service/DeliveryBatchServiceImpl.java:125-166 | the scan of one address group neither drops nor repeats nor reorders an order: its batches, joined, are the open batch followed by the rest of the group |
| BatchPlanning.ClosedBatchIsWellShaped | src/main/java/com/bluemountain/coffee/infrastructure/service/DeliveryBatchServiceImpl.java:131-166 | a sorted batch of 1 to 5 orders of one key inside one anchor's window is well shaped |
| BatchPlanning.Grow | src/main/java/com/bluemountain/coffee/infrastructure/service/DeliveryBatchServiceImpl.java:127-141 | adding an order inside the anchor's window keeps the batch open while it has fewer than 5 orders and keeps it well shaped |
| BatchPlanning.ScanIsWellShaped | src/main/java/com/bluemountain/coffee/infrastructure/service/DeliveryBatchServiceImpl.java:125-166 | every delivery the scan of a sorted group creates has 1 to 5 orders, in creation order, of one address, every two within 15 minutes of each other |
| BatchPlanning.FilterKeepsSorted | src/main/java/com/bluemountain/coffee/infrastructure/service/DeliveryBatchServiceImpl.java:112-118 | the group of a sorted list is sorted |
| BatchPlanning.PlanIsWellShaped | src/main/java/com/bluemountain/coffee/infrastructure/service/DeliveryBatchServiceImpl.java:103-170 | with the orders sorted, every delivery of the run is well shaped |
| BatchPlanning.FilterSplits | src/main/java/com/bluemountain/coffee/infrastructure/service/DeliveryBatchServiceImpl.java:115-118 | adding a key to the filter adds exactly that key's group |
| BatchPlanning.FilterAllKeys | src/main/java/com/bluemountain/coffee/infrastructure/service/DeliveryBatchServiceImpl.java:115-118 | filtering by a set holding every key of the list keeps the whole list |
| BatchPlanning.GroupBatchesFlatten | src/main/java/com/bluemountain/coffee/infrastructure/service/DeliveryBatchServiceImpl.java:121-167 | the deliveries made from one address group hold exactly that group, in order |
| BatchPlanning.PlanCoversKeys | src/main/java/com/bluemountain/coffee/infrastructure/service/DeliveryBatchServiceImpl.java:121-167 | the deliveries made for some distinct keys hold exactly the orders with those keys |
| BatchPlanning.PlanPartitions | src/main/java/com/bluemountain/coffee/infrastructure/service/DeliveryBatchServiceImpl.java:103-170 | each batchable order lands in exactly one delivery of the run, and nothing else does |
| BatchPlanning.PlanShapes | src/main/java/com/bluemountain/coffee/infrastructure/service/DeliveryBatchServiceImpl.java:103-170 | every delivery of the run is well shaped: 1 to 5 orders, in creation order, one address, every two within 15 minutes of each other |
| BatchPlanning.FilterSnoc | src/main/java/com/bluemountain/coffee/infrastructure/service/DeliveryBatchServiceImpl.java:115-118 | `groupingBy` adds each order at the end of its key's list |
| BatchPlanning.FilterKeeps | src/main/java/com/bluemountain/coffee/infrastructure/service/DeliveryBatchServiceImpl.java:115-118 | an order whose key is kept is in the filter |
| BatchPlanning.PlanPrefix | src/main/java/com/bluemountain/coffee/infrastructure/service/DeliveryBatchServiceImpl.java:121-167 | the deliveries of the first groups are the start of the deliveries of all groups |
| BatchPlanning.GroupNonEmpty | src/main/java/com/bluemountain/coffee/infrastructure/service/DeliveryBatchServiceImpl.java:115-123 | a key has a non-empty group exactly when some order has it, so `addressGroup.get(0)` always exists |
| BatchPlanning.PlanSnoc | src/main/java/com/bluemountain/coffee/infrastructure/service/DeliveryBatchServiceImpl.java:121-167 | visiting one more group appends that group's deliveries |
| BatchPlanning.Plan | src/main/java/com/bluemountain/coffee/infrastructure/service/DeliveryBatchServiceImpl.java:121-167 | no delivery of the run is empty |
| BatchPlanning.ScanStep | src/main/java/com/bluemountain/coffee/infrastructure/service/DeliveryBatchServiceImpl.java:125-156 | the scan follows the loop body: a full batch is saved and re-anchored at the order, an in-window order joins the batch, an out-of-window order closes a non-empty batch and starts a new one |
| BatchService.FirstUnfit | src/main/java/com/bluemountain/coffee/infrastructure/service/DeliveryBatchServiceImpl.java:58-69 | the first loop reports nothing exactly when every order is a READY delivery order, and otherwise the type or status error of the first order that is not |
| BatchService.FirstCarried | src/main/java/com/bluemountain/coffee/infrastructure/service/DeliveryBatchServiceImpl.java:72-78 | the second loop reports nothing exactly when no stored delivery carries any of the orders, and otherwise the first carried order |
| BatchService.CheckBatch | src/main/java/com/bluemountain/coffee/infrastructure/service/DeliveryBatchServiceImpl.java:46-78 | a batch passes exactly when it has 1 to 5 orders, each a READY delivery order no stored delivery carries; an empty list and more than 5 orders get their own errors, and the carried check runs only after every order passed the type and status check |
| BatchService.BatchingTwiceFails | src/main/java/com/bluemountain/coffee/infrastructure/service/DeliveryBatchServiceImpl.java:72-82 | after a batch is saved every one of its orders is found in a delivery, and the same batch is refused with its first order reported as already in a delivery |
| BatchService.BatchableSet | src/main/java/com/bluemountain/coffee/infrastructure/service/DeliveryBatchServiceImpl.java:88-100 | exactly the stored READY delivery orders that no stored delivery carries |
| BatchService.BatchableAlone | src/main/java/com/bluemountain/coffee/infrastructure/service/DeliveryBatchServiceImpl.java:88-100 | an order is batchable exactly when it is stored and passes every check of `createDeliveryBatch` on its own |
| BatchService.StoredIdsAreUnique | src/main/java/com/bluemountain/coffee/infrastructure/service/DeliveryBatchServiceImpl.java:90 | no two different stored orders share an id |
| BatchService.StoreAfterSnoc | src/main/java/com/bluemountain/coffee/infrastructure/service/DeliveryBatchServiceImpl.java:80-82 | saving one more batch files its new delivery under the next id |
| BatchService.StoreAfterAddsEach | src/main/java/com/bluemountain/coffee/infrastructure/service/DeliveryBatchServiceImpl.java:121-167 | with fresh distinct ids a run keeps every delivery already stored and adds exactly one new delivery per batch, under that batch's id |
| BatchService.StoreAfterHas | src/main/java/com/bluemountain/coffee/infrastructure/service/DeliveryBatchServiceImpl.java:121-167 | a run adds no id other than those it hands out |
| BatchService.StoreAfterKeeps | src/main/java/com/bluemountain/coffee/infrastructure/service/DeliveryBatchServiceImpl.java:121-167 | with fresh ids a run leaves every stored delivery where it was |
| BatchService.StoreAfterHolds | src/main/java/com/bluemountain/coffee/infrastructure/service/DeliveryBatchServiceImpl.java:121-167 | with distinct ids each batch's delivery stays under its id to the end of the run |
| BatchService.StoreAfterCarrying | src/main/java/com/bluemountain/coffee/infrastructure/service/DeliveryBatchServiceImpl.java:121-167 | after a run an order is carried only if it was before or it belongs to one of the run's batches |
| BatchService.PlanIdsAreDistinct | src/main/java/com/bluemountain/coffee/infrastructure/service/DeliveryBatchServiceImpl.java:105-118 | the orders of one run's deliveries have distinct ids |
| BatchService.FlattenAround | src/main/java/com/bluemountain/coffee/infrastructure/service/DeliveryBatchServiceImpl.java:121-167 | the orders of a run are those of the batches before the n-th, then the n-th, then the rest |
| BatchService.LaterIdsAreNew | src/main/java/com/bluemountain/coffee/infrastructure/service/DeliveryBatchServiceImpl.java:121-167 | with distinct ids, no order of an earlier batch shares an id with an order of a later one |
| BatchService.PlannedOrdersAreBatchable | src/main/java/com/bluemountain/coffee/infrastructure/service/DeliveryBatchServiceImpl.java:105-118 | every order of every delivery of the run is batchable |
| BatchService.NextBatchPasses | src/main/java/com/bluemountain/coffee/infrastructure/service/DeliveryBatchServiceImpl.java:133-161 | each batch of the run passes every check of `createDeliveryBatch` against the store the earlier batches left |
| BatchService.PlanAccepted | src/main/java/com/bluemountain/coffee/infrastructure/service/DeliveryBatchServiceImpl.java:132-165 | no batch of the run is ever refused, so none of the three `catch` blocks runs |
| BatchService.AcceptedNext | src/main/java/com/bluemountain/coffee/infrastructure/service/DeliveryBatchServiceImpl.java:132-165 | the batch that comes next in an accepted run passes every check |
| BatchService.AcceptedPrefix | src/main/java/com/bluemountain/coffee/infrastructure/service/DeliveryBatchServiceImpl.java:121-167 | every start of an accepted run is accepted |
| BatchService.SavedAppend | src/main/java/com/bluemountain/coffee/infrastructure/service/DeliveryBatchServiceImpl.java:134-162 | deliveries saved in one stretch and then in the next are saved in sequence |
| BatchService.SavedPrefix | src/main/java/com/bluemountain/coffee/infrastructure/service/DeliveryBatchServiceImpl.java:121-167 | deliveries saved from the start of the run are saved from the whole run |
| BatchService.SavedWithin | src/main/java/com/bluemountain/coffee/infrastructure/service/DeliveryBatchServiceImpl.java:121-167 | deliveries saved from the run are saved from any start of it long enough to hold them |
| BatchService.IdsAppend | src/main/java/com/bluemountain/coffee/infrastructure/service/DeliveryBatchServiceImpl.java:134-162 | two stretches of deliveries, one after the other, carry the ids of both, in order |
| BatchService.IdsFollowAt | src/main/java/com/bluemountain/coffee/infrastructure/service/DeliveryBatchServiceImpl.java:134-162 | the j-th created delivery carries the j-th id handed out |
| BatchService.MinCreatedAt | src/main/java/com/bluemountain/coffee/infrastructure/service/DeliveryBatchServiceImpl.java:199-202 | the earliest creation time is one of the others' times and no later than any of them |
| BatchService.CanBatchWith | src/main/java/com/bluemountain/coffee/infrastructure/service/DeliveryBatchServiceImpl.java:173-215 | true exactly when the order exists, there are 1 to 4 others, the order is a READY delivery order no stored delivery carries, it is within 15 minutes of the earliest other order, and it has the first other's address |
| BatchService.CanBatchWithExtendsBatch | src/main/java/com/bluemountain/coffee/infrastructure/service/DeliveryBatchServiceImpl.java:173-215 | an order `canBatchWith` accepts, added to a batch `createDeliveryBatch` accepts, gives a batch it still accepts, all of one address |
| BatchService.Filter | src/main/java/com/bluemountain/coffee/infrastructure/service/DeliveryBatchServiceImpl.java:223-226 | the stream `filter`: no longer than its input, and holding exactly the listed orders the test accepts |
| BatchService.FilterCounts | src/main/java/com/bluemountain/coffee/infrastructure/service/DeliveryBatchServiceImpl.java:223-226 | the stream `filter` keeps each accepted order as often as it is listed, and drops every other |
| BatchService.FilterConcat | src/main/java/com/bluemountain/coffee/infrastructure/service/DeliveryBatchServiceImpl.java:223-226 | the stream `filter` of two lists one after the other is the filter of the first followed by that of the second |
| BatchService.FindBatchableOrdersFor | src/main/java/com/bluemountain/coffee/infrastructure/service/DeliveryBatchServiceImpl.java:218-227 | a missing reference finds nothing; otherwise exactly the listed orders, other than the reference, that `canBatchWith` accepts beside it |
| BatchService.FindBatchableOrdersForCounts | src/main/java/com/bluemountain/coffee/infrastructure/service/DeliveryBatchServiceImpl.java:218-227 | each order other than the reference that `canBatchWith` accepts is found as many times as it is listed, and no other order is found |
| BatchService.FindBatchableOrdersForSplits | src/main/java/com/bluemountain/coffee/infrastructure/service/DeliveryBatchServiceImpl.java:218-227 | the filter on two lists one after the other is the filter on the first followed by the filter on the second, so the found orders keep the list order |
| BatchService.FoundOrdersPairWithReference | src/main/java/com/bluemountain/coffee/infrastructure/service/DeliveryBatchServiceImpl.java:218-227 | each order found for a batchable reference forms with it a batch `createDeliveryBatch` accepts, of one address |
| BatchService.KeysSnoc | src/main/java/com/bluemountain/coffee/infrastructure/service/DeliveryBatchServiceImpl.java:115-118 | appending an order adds its key to the keys seen |
| BatchService.GroupsSnoc | src/main/java/com/bluemountain/coffee/infrastructure/service/DeliveryBatchServiceImpl.java:115-118 | each `groupingBy` step keeps the map equal to the grouping of the orders seen so far |
| BatchService.GroupSnocAt | src/main/java/com/bluemountain/coffee/infrastructure/service/DeliveryBatchServiceImpl.java:115-118 | after a `groupingBy` step each key's list is the group of the orders seen |
| BatchService.GroupByAddress | src/main/java/com/bluemountain/coffee/infrastructure/service/DeliveryBatchServiceImpl.java:115-118 | the map holds exactly the keys of the sorted orders, each with its orders in sorted order |
| BatchService.ValuesOrder | src/main/java/com/bluemountain/coffee/infrastructure/service/DeliveryBatchServiceImpl.java:121 | `values()` visits every key of the map exactly once, in some order |
| BatchService.SortAndGroup | src/main/java/com/bluemountain/coffee/infrastructure/service/DeliveryBatchServiceImpl.java:112-121 | the orders are sorted by creation time, and the groups are visited once each, each holding its orders in that order |
| BatchService.KeepDeliveryOrders | src/main/java/com/bluemountain/coffee/infrastructure/service/DeliveryBatchServiceImpl.java:90-92 | the READY orders of type DELIVERY, each listed once |
| BatchService.DeliveryBatchService.constructor | src/main/java/com/bluemountain/coffee/infrastructure/service/DeliveryBatchServiceImpl.java:37-43 | the service holds the two repositories it is given |
| BatchService.DeliveryBatchService.ValidateOrders | src/main/java/com/bluemountain/coffee/infrastructure/service/DeliveryBatchServiceImpl.java:58-69 | the first validation loop reports what `FirstUnfit` does |
| BatchService.DeliveryBatchService.ValidateNotInDelivery | src/main/java/com/bluemountain/coffee/infrastructure/service/DeliveryBatchServiceImpl.java:72-78 | the second validation loop reports what `FirstCarried` does against the stored deliveries |
| BatchService.DeliveryBatchService.CreateDeliveryBatch | src/main/java/com/bluemountain/coffee/infrastructure/service/DeliveryBatchServiceImpl.java:46-85 | a refused batch reports the first failed check and changes nothing; an accepted one gives a fresh delivery as `Delivery.create` makes it, saved under its id and nothing else changed |
| BatchService.DeliveryBatchService.FindBatchableOrders | src/main/java/com/bluemountain/coffee/infrastructure/service/DeliveryBatchServiceImpl.java:88-100 | the result lists each batchable order exactly once and nothing else |
| BatchService.DeliveryBatchService.DropCarried | src/main/java/com/bluemountain/coffee/infrastructure/service/DeliveryBatchServiceImpl.java:95-97 | the filter keeps exactly the orders no stored delivery carries, with their multiplicity |
| BatchService.DeliveryBatchService.SaveNextBatch | src/main/java/com/bluemountain/coffee/infrastructure/service/DeliveryBatchServiceImpl.java:133-135 | saving an accepted batch stores the delivery `Delivery.create` makes under the next id |
| BatchService.DeliveryBatchService.SaveNextDelivery | src/main/java/com/bluemountain/coffee/infrastructure/service/DeliveryBatchServiceImpl.java:133-135 | the next delivery of the run is created, saved and recorded after those before it |
| BatchService.DeliveryBatchService.ScanOrder | src/main/java/com/bluemountain/coffee/infrastructure/service/DeliveryBatchServiceImpl.java:126-155 | one pass of the loop body advances the scan by one order, saving what the scan says to save |
| BatchService.DeliveryBatchService.ScanNext | src/main/java/com/bluemountain/coffee/infrastructure/service/DeliveryBatchServiceImpl.java:125-156 | one pass of the inner loop on the next order of the group |
| BatchService.DeliveryBatchService.SaveOpenBatch | src/main/java/com/bluemountain/coffee/infrastructure/service/DeliveryBatchServiceImpl.java:144-152 | a non-empty batch becomes the next delivery of the run; an empty one saves nothing |
| BatchService.DeliveryBatchService.ScanGroup | src/main/java/com/bluemountain/coffee/infrastructure/service/DeliveryBatchServiceImpl.java:122-156 | the inner loop saves every batch of the group's scan but the last open one |
| BatchService.DeliveryBatchService.FinishGroup | src/main/java/com/bluemountain/coffee/infrastructure/service/DeliveryBatchServiceImpl.java:158-166 | the batch left open, if any, becomes the group's last delivery |
| BatchService.DeliveryBatchService.BatchGroup | src/main/java/com/bluemountain/coffee/infrastructure/service/DeliveryBatchServiceImpl.java:122-166 | one address group becomes exactly the deliveries of its scan, saved in order |
| BatchService.DeliveryBatchService.BatchKeyGroup | src/main/java/com/bluemountain/coffee/infrastructure/service/DeliveryBatchServiceImpl.java:121-167 | one pass of the outer loop saves the deliveries of the next group |
| BatchService.DeliveryBatchService.BatchAll | src/main/java/com/bluemountain/coffee/infrastructure/service/DeliveryBatchServiceImpl.java:121-167 | the outer loop saves every delivery of the run in order, the j-th under the j-th id, and the store ends as those saves leave it |
| BatchService.DeliveryBatchService.AutoBatchOrders | src/main/java/com/bluemountain/coffee/infrastructure/service/DeliveryBatchServiceImpl.java:103-170 | the deliveries created are exactly the run's batches of the batchable orders, in order, each saved as `Delivery.create` makes it; none is refused |

## Left out

- Floating point: `Money.of(double)` is modelled as `Of(unscaled, scale)`, the exact decimal the double denotes. Binary floating-point error is not modelled.
- MoneyValue.Multiply: models `Money.multiply(double)` (Money.java has no integer multiply) only at integral factors. `OrderItem` calls it that way, widening its `int` quantity. A fractional multiplier, and the rounding of `BigDecimal.valueOf(double)`, are not modelled.
- Java `int` overflow is not modelled. This affects `OrderItem` quantities, slip counts and the size checks, which use unbounded integers.
- Clocks and id generation (`LocalDateTime.now()`, `OrderId.generate`, `DeliveryId.generate`) are parameters. Each call takes one `now`, so two readings within one Java method are the same instant.
- Domain events and the `ApplicationEventPublisher` are not modelled, including the unguarded `publishEvent` at `Delivery.create` with a null publisher. Spring wiring, HTTP controllers, application services, DTOs, assemblers, event listeners and the payment and notification mocks are not part of this model.
- `OrderEventListener.checkForBatching` truncates its candidate list to 5 after appending the triggering order, which can drop that order. It is not part of this model; the batching rules it calls are.
- Concurrency: the `ConcurrentHashMap` stores are sequential maps.
- The repositories store value snapshots of orders and deliveries, not references. Aliasing between a stored aggregate and a live object is not modelled.
- A `DeliveryItem` refers to a snapshot of its order. Later changes to the order object are not seen through the item.
- Null arguments rejected with `Objects.requireNonNull` are not modelled where the types rule null out. These are:
  - the `Order` constructor's id, type, items and creation time (Order.java:69-74); the customer name is modelled, as `NullCustomerName`;
  - the arguments of `Order.calculatePrice` (Order.java:171) and `Order.transitionTo` (Order.java:257);
  - the `Delivery` constructor's id, list and creation time (Delivery.java:60-62);
  - the rider of `Delivery.assignRider` (Delivery.java:145);
  - the `DeliverySlipItem` constructor (DeliverySlipItem.java:29-34), `DeliverySlipItem.fromDeliveryItem` (line 65) and `DeliverySlip.fromDelivery` (DeliverySlip.java:90);
  - the query arguments of `InMemoryDeliveryRepository`.
  The four builder fields that `DeliverySlip`'s constructor checks (DeliverySlip.java:33-37) are modelled as `Option`, each with its own error.
- Null guards written as `if (… == null) throw IllegalArgumentException` are dropped where the types exclude null. These are the `DeliveryItem` constructor's order id and order (DeliveryItem.java:18-23) and the `Money` constructor's amount (Money.java:30-32). The `if` guards on names and address fields, which can also be blank, are modelled, with null as `None`.
- The iteration order of `HashMap.values()` and of the repositories' `values()` is unspecified. It is chosen nondeterministically, and every result is proved for every choice.
- The three `catch (IllegalArgumentException)` blocks of `autoBatchOrders` are not modelled as branches. `BatchService.PlanAccepted` proves that no batch of the run is refused.
- The bodies of the `autoBatchOrders` loops are split into methods, one per pass or branch (`ScanOrder`, `SaveOpenBatch`, `BatchKeyGroup`). The early return on an empty list is the zero-delivery case of the same proof.
- `DeliveryItem`, `DeliverySlipItem` and `DeliverySlip` `equals` are modelled as predicates on values. `hashCode` is not modelled.
- The two `DeliveryTest` cases that contradict the code are not encoded:
  - `testIsTerminal` calls `complete()` from CREATED, which the code rejects;
  - `testDeliveryCreationWithEventPublisher` passes a null publisher, and events are not modelled.
- BatchService.CanBatchWith, BatchService.FindBatchableOrdersFor and the batching engine group by the address itself, not by its `toString` text. This departs from the code as written; see Findings.

## Findings

| source | as written | input that shows it | evidently intended | confidence | as-written member | corrected member |
|---|---|---|---|---|---|---|
| src/main/java/com/bluemountain/coffee/infrastructure/service/DeliveryBatchServiceImpl.java:115-118 | orders are grouped, and `canBatchWith` compares addresses (lines 210-214), by `Address.toString()`, whose fields are quoted but not escaped | street `a', city='b`, city `c` against street `a`, city `b', city='c`, both with postal code `p` and country `k`: two different valid addresses with the same text | orders for different addresses never share a delivery, so group by the address value | high; not executed | BatchPlanning.KeyCollisionAsWritten | BatchPlanning.PlanShapes |
