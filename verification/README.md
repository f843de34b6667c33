# Class bookings, payments and admissions: a verified model

This project models the transactional core of the backend in Dafny and proves what it promises its users.

- **Class bookings** (`ClassData`, `BookingSteps`, `BookingInvariants`, `BookingTheorems`, `BookingClocks`,
  `BookingLiveness`, `InsertErrors`, `ClassProgramsRepository`). Booking, cancelling, checking in and the reminder sweep are sequences of
  database steps. Each transaction is a program counter plus what it has read; the advisory, row and index locks it
  holds follow from its program counter; its writes become visible when it commits; `now()` is fixed when it begins and
  the clock never goes back. A run is any list of steps, so every theorem about runs covers every interleaving of any
  number of transactions, catalogue edits and new passes, also when different slots hash to the same advisory lock. The
  class `Repository` has the same operations run one at a time, and lemmas connect the two.
- **Around bookings** (`PassSpending`, `ClassBalance`, `ClassAvailability`, `PackagePlans`). Which pass a booking
  spends, what the balance and the availability listing promise, and which packages can be sold.
- **Payment orders** (`PaymentOrders`, `PaymentQueries`, `PaymentsBacklog`, `SweepTrace`, `SweepBooks`,
  `PaymentsReconciliation`, `PaymentNights`). Webhook, polling, nightly sweep, admin override and last-ticket cancellation
  race on the status of an order. The sweep is imperative code that is interrupted by everybody else at each awaited call;
  its own acts and everybody else's are told apart in every entry of the log.
- **Payouts and refunds** (`Payouts`, `RefundWindow`), **push delivery** (`PushOutbox`), **door scans**
  (`TicketScans`), and three exact cores: week keys (`IsoWeek`), access codes (`AccessCodes`) and signed QR texts
  (`QrPayloads`).

## What the code does not keep

Where a promise fails, the model keeps the code's behaviour and the project proves exactly when the promise holds.

- The scanner's date is read before the check-in transaction begins. When midnight falls between the two, a client is
  admitted and stamped on the day after the session (`BookingClocks.AdmittedTheDayAfter`); a valid check-in is stamped on
  the session's date exactly when the transaction began on the date read (`BookingClocks.StampedOnTheDateIff`).
- Payouts are stored in `numeric(12,2)`. A request whose amount rounds up to the next cent can be accepted for the whole
  balance and then exceeds it, by at most half a cent, for good and in all (`Payouts.OverdraftIffRoundingUp`,
  `Payouts.NeverOverdrawnByMoreThanHalfACent`).
- Whoever moves an order to paid reads it back first. If that read throws, nobody starts to fulfil the order at once
  (`PaymentOrders.WonButNotStarted`); immediate fulfilment starts exactly when the read-back returned and saw the order
  still paid (`PaymentOrders.OnlyTheWinnerFulfils`). A later sweep can deliver the pass.
- For the same reason the sweep can make a move that it does not count (`PaymentNights.MoveNotCounted`). A move is counted
  exactly if its read-back did not throw, whatever else throws (`PaymentsReconciliation.Sweep.RunNightlySweep`).
- The sweep cancels an expired order although the gateway reports it paid when another order claims that payment
  (`PaymentNights.CancelledThoughPaid`), and also when asking the gateway failed (`PaymentNights.CancelledUnasked`).
  `PaymentsReconciliation.Sweep.ExpireOne` says exactly which orders are cancelled.
- The request parser accepts a pack of one credit, which `class_packages_shape_chk` refuses, and numbers that no `integer`
  column holds (`PackagePlans.AcceptedTooLarge`); exactly the other plans it accepts are stored
  (`PackagePlans.AcceptedPlanIsStored`).
- A stored package can be valid for so long that its pass would end after the last `Date`. It is sold, and no pass is ever
  minted (`PackagePlans.SoldForNothing`); `PackagePlans.SoldPassIsSound` says exactly which packages become a pass.
- The nightly sweep takes the fifty oldest paid packages without a pass. Orders whose pass cannot be minted keep their place,
  so fifty of them starve every order behind them (`PaymentNights.FiftyStarve`). A waiting order is ever delivered exactly
  if its own pass can be minted and fewer than fifty such orders are ahead of it (`PaymentsBacklog.BacklogStarvation`).
- When the dashboard's query for the refund policy throws, refunds count as off: all revenue is shown as released while
  cancellations still ask for it back (`RefundWindow.ReleasedWhileRefundable`). An event is released exactly if a
  cancellation earns no refund or that query threw (`RefundWindow.ReleasedIffNotRefundable`).
- Two active templates of one program with the same weekday and start time are listed as two occurrences, and booking
  refuses both (`ClassAvailability.ListingPredictsBooking`).

`weekOfYear` is the ISO week of every date unless the calendar year or the week-year lies between 0 and 99, which
`Date.UTC` reads as 1900 to 1999 (`IsoWeek.KeyIsIsoWeek`). It is only called with today's date
(src/features/notifications/notifications.service.ts:507), so no such date reaches it.

## Reading the model

- A table is a sequence whose index is the row id. Rows are appended and updated, never deleted.
- Instants are whole seconds (milliseconds in `RefundWindow`). Honduras' civil clock is a fixed offset from UTC.
- Two passes with equal `expires_at` and `created_at` are ordered by age, an order the query leaves open.
- In a booking, the template read, the pass query, the wait for each candidate row, the re-check of that row, the
  duplicate check, the count and the insert are separate steps. A candidate that fails its re-check stays locked until the
  transaction ends. The credit is spent in the commit step, since the row lock is already held.
- `Reservation.refunds`, `admissions`, `reminders` and `admittedOn`, and the logs of the payment and scan machines, are
  history: they record what happened and no decision reads them (a scan reads only whether a `valid` row exists).
- A class order names a package and a program of one package row (src/features/class-programs/class-programs.service.ts:499-533),
  and foreign keys forbid their deletion (prisma/migrations/20260804120000_class_package_payments/migration.sql:1-40), so
  the branch of `createClassPass` for a missing package is out of reach. `Order.deliverable` is false for an order of a
  package whose pass would end after the last `Date`.
- Interactive transactions time out after five seconds by default, as src/features/me/me.service.ts:1016 notes. Only
  `BookingClocks.RemindedNeverRefunded` relies on it; everything else holds for transactions of any length.
- In `PaymentOrders`, a step that is not enabled does nothing, and a process may die at any point. In `SweepTrace`, `Env`
  supplies what the others do at each awaited call, whether the call throws, and what the gateway answers about each
  order. The sweep works in any state that some run of the order machine reaches. `Onward` says that a sequence of acts of
  the sweep leads from one point of it to another: calls it awaits, in which the others run, and updates, read-backs and
  passes of its own, each a run of that machine. Its ghost fields are determined by its acts, not chosen.

## Model

| member | source | states |
|---|---|---|
| `BookingInvariants.EveryRunKeeps` | src/features/class-programs/class-programs.repository.ts:655-910 | every state of every interleaving of bookings, cancellations, check-ins and reminders keeps credits, lifecycle, unique codes, one live reservation per user and slot, lock exclusion and what each open transaction relies on |
| `BookingInvariants.OthersKept` | src/features/class-programs/class-programs.repository.ts:663-669 | what an open transaction has read stays true under any step of another that writes only below its own locks |
| `BookingInvariants.BookingCommitted` | src/features/class-programs/class-programs.repository.ts:759-781 | committing an insert and its spent credit keeps all stored data consistent |
| `BookingInvariants.CancelCommitted` | src/features/class-programs/class-programs.repository.ts:872-907 | committing a cancellation keeps all stored data consistent, in particular that a credit came back iff a finite pass paid and the cancellation began six hours ahead |
| `BookingInvariants.CheckInCommitted` | src/features/class-programs/class-programs.repository.ts:1006-1061 | admitting a reservation keeps all stored data consistent; the stored check-in time is never before the session's date, and on it iff the transaction began on the date read |
| `BookingInvariants.RemindCommitted` | src/features/class-programs/class-reminder.service.ts:52-79 | marking any claimed set of due rows as reminded keeps all stored data consistent |
| `BookingTheorems.CreditsConserved` | src/features/class-programs/class-programs.repository.ts:774-907 | over any run a finite pass holds between zero and its total, and total = left + live reservations + cancellations not refunded |
| `BookingTheorems.ReservationLifecycle` | src/features/class-programs/class-programs.repository.ts:844-907 | over any run a reservation is never both cancelled and checked in, and has at most one refund, one admission (never before its date) and one reminder; it is refunded iff a finite pass paid and it was cancelled six hours ahead |
| `BookingClocks.StampedOnTheDateIff` | src/features/class-programs/class-programs.service.ts:401-408 | over any run a valid check-in is stamped on the session's date iff its transaction began on the date read before it, and never earlier |
| `BookingClocks.CheckedInOnItsDate` | src/features/class-programs/class-programs.repository.ts:1023-1050 | while no midnight falls between reading the date and beginning the transaction, every stored check-in is on its session's date |
| `BookingClocks.AdmittedTheDayAfter` | src/features/class-programs/class-programs.service.ts:401-408 | a run across midnight admits a client on the day after the session |
| `BookingClocks.NoRefundAfterReminder` | src/features/class-programs/class-programs.repository.ts:844-907 | once any run has reminded a reservation, a cancellation of it that begins later never answers `refunded` |
| `BookingClocks.RemindedNeverRefunded` | src/features/class-programs/class-reminder.service.ts:52-79 | with transactions that time out, no reachable reservation is both reminded and refunded |
| `BookingTheorems.NoDoubleBooking` | src/features/class-programs/class-programs.repository.ts:733-772 | over any run no user holds two live reservations of a slot and no two reservations share a code |
| `BookingTheorems.RefundedMeansCredited` | src/features/class-programs/class-programs.repository.ts:888-908 | a cancellation answers `refunded` exactly when the reservation got its one credit back |
| `BookingTheorems.InsertWithinCapacity` | src/features/class-programs/class-programs.repository.ts:747-781 | every insert leaves the slot at or below the capacity read under its lock and spends a pass that is usable at that moment |
| `BookingTheorems.CapacityRespected` | src/features/class-programs/class-programs.repository.ts:663-757 | while no slot is withdrawn or shrunk, live reservations never exceed capacity in any reachable state |
| `BookingTheorems.OccurrenceIndexNeverFires` | src/features/class-programs/class-programs.repository.ts:733-757 | when a booking inserts, its slot lock has already ruled out a second live reservation of that user |
| `BookingTheorems.RefusalsWriteNothing` | src/features/class-programs/class-programs.repository.ts:785-806 | refusals, collisions and exhausted retries leave the database unchanged; a duplicate is reported only to a user who holds the slot, and never for a code collision |
| `BookingLiveness.LocksTakenInOrder` | src/features/class-programs/class-programs.repository.ts:663-772 | whatever any transaction waits for ranks above everything it holds: slot, then reservation row, then pass rows in query order, then code |
| `BookingLiveness.NoWaitCycle` | src/features/class-programs/class-programs.repository.ts:820-908 | no reachable state contains a cycle of waiting transactions |
| `BookingLiveness.SomeoneCanAdvance` | src/features/class-programs/class-programs.repository.ts:655-910 | from any unfinished transaction, following the waits ends at one that can step |
| `BookingLiveness.RunsAreBounded` | src/features/class-programs/class-programs.repository.ts:785-806 | any interleaving of the running transactions stops after a bounded number of steps, retries included |
| `BookingLiveness.StuckMeansFinished` | src/features/class-programs/class-programs.repository.ts:655-910 | a schedule that cannot be extended has answered every request |
| `InsertErrors.IndexesToldApart` | src/features/class-programs/class-programs.repository.ts:71-97 | the occurrence index's error, whose key is printed without a capital K, is read as a duplicate; the code index's never is, for any code, and is retried iff attempts are left |
| `InsertErrors.HandlerIsTheStep` | src/features/class-programs/class-programs.repository.ts:785-806 | for the error the two indexes raise at an instant, the handler does exactly what the insert step of the state machine does |
| `InsertErrors.NameRecognisedIffColumn` | src/features/class-programs/class-programs.repository.ts:88-97 | a textual target that is a bare identifier is read as the code index iff it is `code` itself |
| `ClassProgramsRepository.Repository.CreateReservation` | src/features/class-programs/class-programs.repository.ts:634-639 | the method's reply and new tables are `Book` of the old tables |
| `ClassProgramsRepository.Repository.CreateReservationAttempt` | src/features/class-programs/class-programs.repository.ts:655-807 | one attempt, and the retries it starts, compute `Book` from that attempt on |
| `ClassProgramsRepository.Repository.CancelReservation` | src/features/class-programs/class-programs.repository.ts:816-910 | the method's reply and new tables are `CancelNow` of the old tables, and mean what `CancelMeans` says |
| `ClassProgramsRepository.CancellationMeans` | src/features/class-programs/class-programs.repository.ts:839-908 | a refusal is true of the database it leaves alone, and a cancellable reservation is not refused; a cancellation changes that row and nothing else, but for one credit more on its pass iff it is six hours ahead and the pass is the holder's and finite |
| `ClassProgramsRepository.Repository.CheckInReservation` | src/features/class-programs/class-programs.repository.ts:974-1063 | the method's reply and new tables are `CheckInNow` of the old tables, and mean what `CheckInMeans` says |
| `ClassProgramsRepository.ScanMeans` | src/features/class-programs/class-programs.repository.ts:974-1061 | with unique codes, a scan answers invalid iff no row of the provider is located, else what that row's status, date and earlier check-in say, and changes that row only to admit it |
| `ClassProgramsRepository.RetryRefinesOneBooking` | src/features/class-programs/class-programs.repository.ts:642-806 | the five tries are one atomic booking decided by the first code that does not collide: every reply is explained in terms of the untouched database, the reservation is appended, the earliest usable pass pays; giving up means all five collided |
| `ClassProgramsRepository.BookingAlone` | src/features/class-programs/class-programs.repository.ts:655-807 | a booking left alone at any stage runs to an answer, and the answer and tables are the ones it was heading for |
| `ClassProgramsRepository.QuietBookingIsBook` | src/features/class-programs/class-programs.repository.ts:655-807 | in a quiet database the step-by-step transaction returns exactly what `Book` returns |
| `ClassProgramsRepository.CancelIsAtomic` | src/features/class-programs/class-programs.repository.ts:833-908 | however interleaved, a cancellation writes nothing until its last step, which is `CancelNow` on the tables of that instant |
| `ClassProgramsRepository.CheckInIsAtomic` | src/features/class-programs/class-programs.repository.ts:992-1061 | however interleaved, a check-in writes nothing until its last step, which is `CheckInNow` on the tables of that instant |
| `ClassData.PickPass` | src/features/class-programs/class-programs.repository.ts:712-731 | picks a usable pass that ranks before every other usable one, and none iff none is usable |
| `PassSpending.EarliestFirstIsOptimal` | src/features/class-programs/class-programs.repository.ts:718-731 | over any timeline of grants and requests no way of spending passes serves more bookings than earliest expiry first |
| `PassSpending.RequestLeads` | src/features/class-programs/class-programs.repository.ts:774-781 | one request keeps "served + credits outliving d" ahead of any rival's, for every d, whatever the rival spends |
| `PassSpending.StaysAhead` | src/features/payments/payment-fulfillment.service.ts:54-58 | a lead held at one moment is kept through any further grants and requests |
| `ClassBalance.ShownBalanceIsExact` | src/features/class-programs/class-programs.repository.ts:918-960 | a shown balance of n means the first n bookings of distinct open slots succeed and the next finds no pass; null means none is refused; no row means the first is refused |
| `ClassBalance.BalanceAfter` | src/features/class-programs/class-programs.repository.ts:918-960 | one booking lowers a finite shown balance by exactly one and leaves an unlimited one |
| `ClassAvailability.CountsAgree` | src/features/class-programs/class-programs.repository.ts:466-477 | the grouped count map holds, for every slot of the window, the count booking makes |
| `ClassAvailability.HoldingAgrees` | src/features/class-programs/class-programs.repository.ts:493-508 | the user's occurrence set holds a slot iff booking would find a duplicate |
| `ClassAvailability.EntriesExplained` | src/features/class-programs/class-programs.service.ts:252-334 | the listing shows a slot once per matching template, with booking's own capacity, count and duplicate check |
| `ClassAvailability.ListingPredictsBooking` | src/features/class-programs/class-programs.service.ts:252-334 | listed never, once or more iff booking finds no template, one or several; listed once, a user who gets to try a free code, at the first attempt or a later one, is booked iff it can be reserved and is not theirs, else told the right reason |
| `PackagePlans.AcceptedPlanIsStored` | src/features/class-programs/class-programs.validation.ts:136-152 | a plan the parser accepts is stored iff it is not a pack of one credit and no number it takes from the body exceeds the `integer` columns |
| `PackagePlans.AcceptedUpdateIsStored` | src/features/class-programs/class-programs.repository.ts:353-370 | an update changes the whole plan or none of it, so a stored row is refused only for a pack of one credit or a number too large |
| `PackagePlans.SoldPassIsSound` | src/features/payments/payment-fulfillment.service.ts:54-75 | a stored package becomes a pass iff its last day is a `Date`; that pass may enter the booking engine, is usable at once, and expires if it is unlimited |
| `PackagePlans.AcceptedTooLarge` | prisma/migrations/20260804010000_class_programs_foundation/migration.sql:47-68 | a pack of three thousand million credits is accepted and not stored |
| `PackagePlans.SoldForNothing` | src/features/payments/payment-fulfillment.service.ts:54-92 | a package accepted, stored and sold that never becomes a pass |
| `PaymentOrders.PendingNeverReturns` | src/features/payments/payment-orders.repository.ts:331-377 | under any steps of all actors an order that left `pending_payment` never returns, and its fixed fields never change |
| `PaymentOrders.OneAutomaticResolver` | src/features/payments/payment-orders.repository.ts:331-377 | at most one of webhook, polling and cron ever resolves an order, always out of pending |
| `PaymentOrders.OnlyTheWinnerFulfils` | src/features/paygate/paygate.webhook.controller.ts:192-250 | immediate fulfilment starts at most once per order, only by the automatic actor that moved it to paid, and iff that actor's one read-back returned and saw it still paid |
| `PaymentOrders.WonButNotStarted` | src/features/payments/payment-orders.repository.ts:357-361 | a payment won by the webhook whose read-back throws is paid, and nobody starts to fulfil it |
| `PaymentOrders.OnePassPerPaidOrder` | src/features/payments/payment-fulfillment.service.ts:26-93 | however fulfilments overlap, an order gets at most one pass, only if it is a class package and only after it was paid |
| `PaymentOrders.RunKeeps` | src/features/payments/me-payments.service.ts:261-330 | every reachable state keeps the payment invariant: log, passes, jobs, payment ids and paid orders agree |
| `PaymentOrders.ManualKeeps` | src/features/admin/admin.controller.ts:409-438 | an unguarded manual status change keeps the payment invariant |
| `PaymentsReconciliation.Sweep.RunNightlySweep` | src/features/payments/payments-reconciliation.service.ts:80-180 | whatever the others do and whatever throws, every entry the log gains is the sweep's own recorded move or was appended by others during a call it awaited; it marks paid only orders it was told are paid, cancels only orders overdue at its start, moves each order once and only out of pending, and mints passes only for orders it marked paid or listed; its counters are those of its own moves, passes and failed questions, and a move is counted iff its read-back did not throw; without error no order that was pending and expired at the start is pending; if no database call throws, however often the gateway is out of reach, it ends without error and what can be delivered of the fifty oldest missing passes, listed at the time of a call it awaited, is delivered |
| `PaymentNights.MoveNotCounted` | src/features/payments/payments-reconciliation.service.ts:125-137 | from one overdue order a whole sweep cancels it, ends in error and counts nothing |
| `PaymentsReconciliation.Sweep.ReconcileOne` | src/features/payments/payments-reconciliation.service.ts:222-270 | the sweep's only move is to paid, of this order, only if it has a link and the gateway says so in this call's answer, and then the order ends resolved unless another order claims the payment; undisturbed it is marked paid exactly then; exactly the failed fetches are counted |
| `PaymentsReconciliation.Sweep.ExpireOne` | src/features/payments/payments-reconciliation.service.ts:114-123 | left alone, a pending order is moved once, to paid iff it has a link, the gateway is reached and says it is paid and no other order claims that payment, and to cancelled otherwise; under interference it is resolved, and not cancelled if the gateway says it is paid and no other order claims that payment |
| `PaymentNights.CancelledThoughPaid` | src/features/payments/payments-reconciliation.service.ts:114-123 | from two orders the sweep cancels the overdue one, which the gateway says is paid, its payment being claimed by the other |
| `PaymentNights.CancelledUnasked` | src/features/payments/payments-reconciliation.service.ts:235-242 | from one pending order the fetch fails and the sweep cancels it, although the gateway would have said that it is paid |
| `PaymentsReconciliation.Sweep.ExpireAll` | src/features/payments/payments-reconciliation.service.ts:112-137 | a completed pass over a list leaves none of the orders it does not skip pending |
| `PaymentsReconciliation.Sweep.BackfillMissed` | src/features/payments/payments-reconciliation.service.ts:139-157 | the list is read during the phase, at the time of a call it awaited; if nothing throws, each of its first fifty that can be delivered has its pass; undisturbed, the phase is exactly one `BackfillOnce` at that time |
| `PaymentsReconciliation.Sweep.CreateClassPass` | src/features/payments/payment-fulfillment.service.ts:26-93 | a pass is counted iff this call added it, for an order that had none; if nothing throws, a deliverable order has one afterwards, whoever minted it |
| `PaymentsReconciliation.Sweep.Transition` | src/features/payments/payment-orders.repository.ts:331-377 | the sweep's compare-and-set moves the order iff it was pending and its payment unclaimed when the update ran, and counts it iff the read-back returned too; refused by the unique index it returns at once; its fulfilment goes on record iff the order read back is still paid |
| `SweepTrace.EveryEntryAccountedFor` | src/features/payments/payment-orders.repository.ts:331-377 | for every sequence of acts of a sweep, its own moves stand in the log in the order they were made, and each other new entry was appended while one of its calls was awaited |
| `SweepTrace.AloneLogIsMoves` | src/features/payments/payment-orders.repository.ts:331-377 | a sweep left alone adds exactly its own moves to the log |
| `SweepTrace.MintIsFulfilment` | src/features/payments/payment-fulfillment.service.ts:26-93 | the sweep's insert is an undisturbed fulfilment of the order state machine |
| `SweepBooks.LedgerMoves` | src/features/payments/payment-orders.repository.ts:331-377 | the sweep's update is a step of the order state machine, justified by what the sweep saw, of an order it never moved before |
| `SweepBooks.SweptIsSettled` | src/features/payments/payment-orders.repository.ts:146-196 | the two expired lists together catch every order that had expired at the start, whenever each list is read |
| `PaymentQueries.All` | src/features/payments/payment-orders.repository.ts:146-241 | each list holds exactly the orders its filter names, in the order of its column |
| `PaymentsBacklog.NextIsBacklog` | src/features/payments/payment-orders.repository.ts:226-241 | one undisturbed sweep leaves of the backlog exactly the undeliverable among its first fifty and everything past them, in order, seen from any time that lists the same orders |
| `PaymentsBacklog.DrainsFiftyPerSweep` | src/features/payments/payment-orders.repository.ts:226-241 | with every listed order deliverable and none becoming due, undisturbed sweeps at any times leave n - 50k after k: the backlog is empty after exactly n/50 sweeps, rounded up |
| `PaymentsBacklog.BacklogStarvation` | src/features/payments/payments-reconciliation.service.ts:149-157 | with no order becoming due, the order at position i of the backlog is delivered by some number of undisturbed sweeps iff its pass can be minted and fewer than fifty orders ahead of it are undeliverable |
| `PaymentsBacklog.DeliveredWithin` | src/features/payments/payments-reconciliation.service.ts:149-157 | behind fewer than fifty undeliverable orders, the deliverable order at position i has its pass after any i + 1 undisturbed sweeps |
| `PaymentNights.FiftyStarve` | src/features/payments/payments-reconciliation.service.ts:149-157 | a reachable state in which a deliverable order is never delivered, by any number of undisturbed sweeps at any times at which all are listed |
| `PaymentNights.NightsDrain` | src/features/payments/payments-reconciliation.service.ts:149-157 | over successive nightly sweeps with anything else in between and during them, if nothing throws and no order joins the n listed the first night, of which u are undeliverable, at most n - (50 - u)k of them, or u, wait after k nights; with u = 0 none after n/50 nights, rounded up |
| `PaymentNights.RunNights` | src/features/payments/payments-reconciliation.service.ts:80-180 | running the nightly sweep at the given times, from the given state to the one it leaves, yields nights as `NightsDrain` assumes them, each starting where the one before ended, and `NightsDrain`'s bound holds of the backlog it leaves |
| `Payouts.AcceptedRequestFits` | src/features/providers/providers.service.ts:2690-2745 | with any requesters racing, an accepted amount plus all pending and completed payouts fits the released balance read under the lock |
| `Payouts.CompletionConserves` | src/features/providers/providers.service.ts:2752-2789 | completing a payout moves it between the two sums and conserves the total |
| `Payouts.NeverOverdrawnByMoreThanHalfACent` | src/features/providers/providers.service.ts:2703-2737 | while the released balance does not fall, all payouts together never exceed it by more than half a cent |
| `Payouts.NeverOverdrawn` | src/features/providers/providers.service.ts:2703-2737 | and never at all when no requested amount rounds up to the next cent |
| `Payouts.OverdraftIffRoundingUp` | prisma/migrations/20260728120000_supabase_lint_security_fixes/migration.sql:85-95 | a single request can overdraw some balance that covers it iff its amount rounds up when stored |
| `RefundWindow.ReleasedIffNotRefundable` | src/features/providers/providers.service.ts:2548-2568 | for a provider's event, policy and time, the dashboard releases the revenue iff a cancellation then is not refund-eligible or its policy query threw |
| `RefundWindow.ReleasedWhileRefundable` | src/features/providers/providers.service.ts:2548-2568 | one failed query releases an event two days ahead whose cancellation still earns a refund |
| `RefundWindow.ReleaseIsPermanent` | src/features/me/me.service.ts:1573-1623 | released under a policy that was read it stays released, so no later cancellation writes a requested refund |
| `RefundWindow.ReleasedPlusRefundableIsGross` | src/features/providers/providers.service.ts:2484-2512 | released revenue and what buyers could still claim add up to the gross; if the policy query threw, all of the gross is released |
| `PushOutbox.AttemptsAreBounded` | src/features/notifications/notifications.service.ts:137-261 | under overlapping workers, stale resets and late reports attempts stay at most three, rows in play have attempts left, and sent and failed are final |
| `PushOutbox.NotificationsService.DeliverPushOutbox` | src/features/notifications/notifications.service.ts:137-261 | the whole round, chunks and parallel arrays included, is `Round` of the old outbox, and exactly the dead tokens are removed |
| `PushOutbox.NotificationsService.Send` | src/features/notifications/notifications.service.ts:208-227 | for any chunk failures and short replies, a row counts as delivered iff some ok ticket answers one of its messages |
| `PushOutbox.NotificationsService.Compose` | src/features/notifications/notifications.service.ts:187-206 | the two arrays stay parallel: one message per claimed row and token of its user, in order |
| `PushOutbox.EntryMembers` | src/features/notifications/notifications.service.ts:180-206 | a message exists for a row and a token iff the row was claimed and the token is one of its user's |
| `PushOutbox.RoundSettlesClaimed` | src/features/notifications/notifications.service.ts:229-253 | every claimed row ends the round sent iff delivered, else pending with one attempt more or failed after the third; other rows are untouched |
| `PushOutbox.ThreeRoundsFinish` | src/features/notifications/notifications.service.ts:137-261 | without crashes, however large the table, while at most a hundred rows wait three rounds finish every row whatever the push service answers |
| `PushOutbox.BacklogDrains` | src/features/notifications/notifications.service.ts:137-261 | without crashes, a table with W attempts left in all is finished after W/100 + 3 rounds |
| `TicketScans.AdmittedOnceAndNotAfterCancelling` | src/features/providers/providers.service.ts:2058-2128 | over any interleaving of both scan kinds and cancellations a ticket has at most one valid record, none after its cancellation |
| `TicketScans.PreviewPredictsConfirm` | src/features/providers/providers.service.ts:1903-2008 | at the instant a confirmation answers, the preview says ready, duplicate, cancelled or invalid iff the answer is valid, duplicate, cancelled or invalid |
| `TicketScans.ScanAlone` | src/features/providers/providers.service.ts:2161-2313 | a scan of either kind in a quiet system answers within four steps what the preview says |
| `IsoWeek.WeekOfYear` | src/features/notifications/notifications.service.ts:576-588 | the date arithmetic on one mutated value computes `KeyOf` |
| `IsoWeek.KeyIsIsoWeek` | src/features/notifications/notifications.service.ts:576-588 | the key is the ISO week-year and week of the date iff neither year lies in 0 to 99 |
| `IsoWeek.IsoWeekUnique` | src/features/notifications/notifications.service.ts:576-588 | a day has one ISO week, and two days share it iff they share their Monday |
| `IsoWeek.SameKeyIffSameWeek` | src/features/notifications/notifications.service.ts:576-588 | printed dedupe keys are equal iff the dates lie in the same Monday-to-Sunday week |
| `AccessCodes.GenerateCode` | src/features/class-programs/class-qr.utils.ts:38-45 | a generated code is the prefix, a dash and the six alphabet letters picked |
| `AccessCodes.GeneratedCodeNormalizes` | src/features/class-programs/class-qr.utils.ts:53-57 | a generated class or ticket code, re-cased and with any spaces and dashes added or dropped, normalizes to itself |
| `AccessCodes.NormalizeIdempotent` | src/features/providers/ticket-qr.utils.ts:33-37 | normalizing a normalized code changes nothing |
| `AccessCodes.NoCodeIsBoth` | src/features/class-programs/class-qr.utils.ts:26-57 | no input normalizes both as a class code and as a ticket code |
| `QrPayloads.RoundTrip` | src/features/class-programs/class-qr.utils.ts:85-158 | parsing a built payload gives back its ids, verified iff a secret signed it, in both formats |
| `QrPayloads.FormatsAreDisjoint` | src/features/providers/ticket-qr.utils.ts:96-164 | no payload built in one format is accepted as the other, whatever the ids and secrets |
| `QrPayloads.BothAcceptIff` | src/features/providers/ticket-qr.utils.ts:96-164 | any text is accepted by both parsers iff it is a bare UUID or an object with a fitting class payload and beside it a fitting compact ticket payload or, lacking one, a legacy ticket id |
| `QrPayloads.BothVerifyOnlyOnCollision` | src/features/class-programs/class-qr.utils.ts:114-158 | no text is verified by both parsers unless a class and a ticket payload have the same HMAC |
| `QrPayloads.VerifiedMeansSigned` | src/features/class-programs/class-qr.utils.ts:114-158 | a verified answer carries a signature over exactly the id it names under that format's keys |

## Left out

- Controllers, wiring, SQL text, Supabase, the payment gateway's protocol, Expo, e-mail and logging: gateway and push replies are arbitrary inputs.
- `claimFreePackage` and its unique index: it adds one more way to grant a pass, which the booking model already allows at any time.
- Template labels, the default start of the availability window (today) and the order of its entries: the listing follows table order.
- Grouping of balances by provider: a program has one provider, so the grouping by program is the same.
- `BookingInvariants.RemindCommitted`: a reminder sweep claims any set of at most 200 due unlocked rows; which 200 the query's order prefers is not modelled.
- `PassSpending.EarliestFirstIsOptimal`: covers grants and requests; credits handed back by cancellations are not part of the timeline.
- `BookingTheorems.CapacityRespected`: covers catalogue changes that keep or raise capacity; the code allows a provider to lower it below what is reserved.
- `ClassProgramsRepository.BookingAlone`: retries of one booking that meets no other transaction read one clock value; interleaved retries read a new one each.
- Tickets: the sweep counts successful mintings, but there is no table of tickets to tie `ticketsBackfilled` to or to keep delivered orders off the ticket list; `scanned` is not tied to the first list.
- `PackagePlans.SoldPassIsSound`: every `Date` is taken to be storable, and instants are whole seconds.
- `PaymentsBacklog.BacklogStarvation`: whether an order can be delivered is fixed; a package edited after the sale is not modelled.
- `PaymentOrders.RunKeeps`: polling's grace conditions and the order lookup of the webhook only restrict when a modelled step is taken.
- `RefundWindow.ReleasedIffNotRefundable`: the policy and the event stay as they are between the instants compared.
- Commission: the released balance of a provider is an input of the payout model, which may move at any step.
- Event capacity, sold counters, subscription terms and the other statements of `cancelTicket`: the code does not promise them to be exact or atomic.
- `PushOutbox.BacklogDrains`: covers rounds without new notifications and without crashed workers, whose rows wait for the stale reset.
- `AccessCodes.NoCodeIsBoth`: Unicode upper-casing is arbitrary outside ASCII letters, digits and white space.
- `QrPayloads.RoundTrip`: JSON text and the HMAC (section 2 of RFC 2104) are taken as given; the time stamp is a whole number.
- The body and data of a push message, the instant a row was sent and the text of its error.
- Program, template and date parsers, discovery feeds, friends, conversations, profiles and listings: they would only add easy members.
