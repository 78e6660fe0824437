# Order, payment and stock bookkeeping of the shop

A Dafny model of the part of the Django shop that moves money and stock:

- **Carts.** A cart holds at most one line per variant. Its total is Σ quantity × price. The cart actions add, reduce, remove and refuse deletion. `CartItemSerializer.validate` is modelled on its own, as `ValidateLine`: the add view never runs it (the serializer appears only as a read-only nested field), so an add accepts inactive variants and quantities above the stock.
- **Addresses.** `Address.save` keeps exactly one default address per user. `Address.__str__` gives the text form.
- **Checkout.** Turns the cart into a `pending` order, with price-snapshot lines and the cart total. It touches no stock.
- **The reconciliation task.** `process_order_payment`:
  - stops if the order is already confirmed;
  - computes the sorted list of its variant ids, meant as the order of the row locks (orders/tasks.py:24; see "## Findings");
  - cancels the order if any line is short;
  - otherwise deducts every line, confirms the order and empties the owner's cart.

  A failure inside its transaction rolls everything back and cancels the order.
- **PaymentService.** Initiation, verification and refund, plus the status report. Amounts are converted to kobo on the way to the provider and back on the way in.

## Modules

Modules follow the source files:

- `Catalog`: variants and stock levels.
- `Carts`: carts/models.py and carts/serializers.py.
- `Addresses`: address/models.py.
- `Orders`: orders/models.py, plus the pure half of orders/tasks.py as the function `Reconcile`.
- `Payments`: payments/models.py and the pure parts of payments/services.py.
- `Checkout`: the pure parts of orders/views.py.
- `Shop`: the class `Store`, which holds the database. There is one method per operation of carts/views.py, `Address.save`, orders/views.py, orders/tasks.py and payments/services.py.

### How the model treats money and state

- Money is integer cents (kobo). Stock is an `int`, so the model can show it going below zero.
- `Store.Valid()` collects the database constraints, and every method keeps it:
  - one cart line per variant;
  - strictly increasing address keys;
  - orders that refer to existing variants, have distinct lines, and carry their lines' total, which fits DECIMAL(12, 2);
  - one payment per order;
  - unique `tx_ref`;
  - each payment for its order's total.
- Each operation is one atomic method. Where the source rolls a transaction back, the method's result is the state after the rollback.
- These outside inputs are method parameters:
  - the payment provider's answer (accepted with a reference, refused, unreachable, or for verify a non-200 reply);
  - whether the confirmation mail of the task was sent.

### Behaviour of the code the model keeps, and four inconsistencies

The model follows the code. In the first four cases the code contradicts itself, and the model takes the reading stated:

- **Order items.** `OrderItem` declares only two text snapshots (orders/models.py:30-31). Checkout writes `product_variant` (orders/views.py:56), verify and refund read it (payments/services.py:162, 263), and the task reads `variant_snapshot.get('id')` (orders/tasks.py:24). An order line is modelled as the variant it was bought from, the price at purchase and the quantity: the reading that makes those three callers agree.
- **Payment status.** The status choices of `Payment` omit `refunded`, but the refund path writes it (payments/services.py:253). The model's status type includes it.
- **Variant record.** products/models.py defines no `ProductVariant`. Its fields are inferred from use: SKU, price, stock level, and the variant's and its product's `is_active`.
- **Transactions.** The project's database is PostgreSQL (ai_assistant/utils.py:1 uses pgvector). There `select_for_update` outside a transaction raises, so verification and refund (payments/services.py:147, 226) work only if every request runs in a transaction. The model takes that reading throughout: a request that fails on a database error leaves no row behind. In particular a refused cart add (carts/views.py:32) also rolls back the cart and line that `get_or_create` inserted at carts/views.py:24-25.
- **Order status transitions.** Nothing in the code makes an order status terminal. The task short-circuits only on `confirmed`, so a cancelled order can be reconciled again and confirmed. Verification confirms or cancels whatever the order's status was.
- **Verification and stock.** Verification deducts stock without any check (payments/services.py:161-165), so stock can go negative. The no-oversell property is proved only for the task's path.
- **Reconciliation and payments.** The task never touches the `Payment` row.
- **Verify on a non-200 reply.** `verify_payment` has no `else` for a reply whose status code is not 200 (payments/services.py:139). In that case the call falls off its end and returns `None`. The model gives this case its own result, `NoReport`, and leaves all state unchanged.
- **Refused initiation.** When the provider refuses an initiation, the `failed` payment stays stored under the placeholder reference `TEMP` (payments/services.py:60, 100-102). A later initiation for any order is then refused by the unique `tx_ref` constraint. The model keeps that row and returns `IntegrityError` for such a later attempt.

## Model

| member | source | states |
|---|---|---|
| Catalog.FindVariantBySku | carts/views.py:22 | a variant is found exactly when some variant has the SKU, and the one found has it |
| Carts.Subtotal | carts/models.py:36-38 | definition: a line's `subtotal`, the variant's current price times the line's quantity; related to the total by `TotalIsSumOfSubtotals` |
| Carts.CartTotal | carts/models.py:17-22 | definition: the `total_price` aggregate, Σ quantity × price over the lines and 0 for none; its behaviour under each cart action is proved by `TotalAppend`, `TotalIncrease`, `TotalReduce` and `TotalWithout` |
| Carts.TotalIsSumOfSubtotals | carts/models.py:17-38 | the cart total (0 for no lines) equals the sum of the lines' subtotals |
| Carts.FindLine | carts/views.py:42 | no line is found exactly when no line names the variant; a found line names it |
| Carts.SetQuantityKeepsUnique | carts/models.py:41 | changing one line's quantity keeps one line per variant |
| Carts.AppendAbsentKeepsUnique | carts/models.py:41 | a line for a variant the cart lacks keeps one line per variant |
| Carts.WithoutKeepsUnique | carts/views.py:57-58 | deleting a line keeps one line per variant and leaves no line for its variant |
| Carts.TotalAppend | carts/models.py:17-22 | a new line adds its quantity times its price to the total |
| Carts.TotalIncrease | carts/views.py:27-28 | adding to an existing line raises the total by the added quantity times the price |
| Carts.TotalReduce | carts/views.py:48-49 | taking units off a line lowers the total by those units times the price |
| Carts.TotalWithout | carts/views.py:44-45 | deleting a line lowers the total by its quantity times its price |
| Carts.ValidateLine | carts/serializers.py:14-26 | accepted exactly when variant and product are active and the quantity is at most the stock (equal passes); inactive is refused first; accepted data comes back unchanged |
| Addresses.Display | address/models.py:16-17 | the text starts with the label and " - ", ends with the country, and has the five fields plus nine separator characters |
| Addresses.FirstDefault | orders/views.py:28 | none exactly when the user has no default; otherwise the first default row in key order |
| Addresses.SaveRows | address/models.py:19-34 | definition: the rows after `save`, i.e. the flag forced on for a lone address, other defaults cleared when the flag is set, then the upsert; its properties are proved by the lemmas below |
| Addresses.SaveKeepsOneDefault | address/models.py:19-34 | a user with at most one default before a save has exactly one after it |
| Addresses.InsertKeepsOneDefault | address/models.py:19-34 | the same for a new address |
| Addresses.UpdateKeepsOneDefault | address/models.py:19-34 | the same for an update of an existing address of the user |
| Addresses.FirstAddressBecomesDefault | address/models.py:21-24 | a user's first address is stored as the default whatever flag it had |
| Addresses.DefaultSaveClearsOthers | address/models.py:26-28 | saving a default clears the flag on every other address of the user |
| Addresses.NonDefaultSaveKeepsExisting | address/models.py:26-34 | saving a non-default while another default exists changes no other row and keeps it non-default |
| Addresses.LoneAddressStaysDefault | address/models.py:30-32 | saving a non-default when no other default exists stores it as the default |
| Addresses.SaveLeavesOtherUsers | address/models.py:21-34 | no address of another user changes |
| Addresses.UpsertKeepsRowsValid | address/models.py:34 | writing a row keeps keys increasing; an insert takes the next key |
| Orders.InsertPerm | orders/tasks.py:24 | insertion adds exactly the one id |
| Orders.InsertSorted | orders/tasks.py:24 | insertion into a sorted list keeps it sorted |
| Orders.SortIdsSorted | orders/tasks.py:24 | sorting gives a sorted permutation of the ids |
| Orders.LockOrder | orders/tasks.py:23-24 | the id list the task computes is sorted, is a permutation of the lines' variant ids, and holds exactly the variants the lines name |
| Orders.ItemOrderLocksUnsorted | orders/tasks.py:27-32 | items naming variant 9 then 3 are locked 9 first, an unsorted order, while the computed list is 3, 9 |
| Orders.FirstShortfall | orders/tasks.py:29-46 | none exactly when every line fits the stock; otherwise the first line that does not |
| Orders.FirstShortfallAt | orders/tasks.py:30-35 | a short line with every earlier line fitting is the one reported |
| Orders.Deduct | orders/tasks.py:49-53 | definition: each line's quantity taken off its variant's row, one line after another; characterised by `DeductPointwise` |
| Orders.Restore | payments/services.py:262-265 | definition: each line's quantity put back on its variant's row, one line after another; characterised by `RestorePointwise` and `RestoreUndoesDeduct` |
| Orders.DeductPointwise | orders/tasks.py:48-53 | deduction keeps the stock rows and lowers each variant by the total quantity of its lines |
| Orders.RestorePointwise | payments/services.py:261-265 | restoration keeps the stock rows and raises each variant by the total quantity of its lines |
| Orders.DeductSnoc | orders/tasks.py:49-53 | deducting one more line is one more row update |
| Orders.RestoreSnoc | payments/services.py:262-265 | restoring one more line is one more row update |
| Orders.RestoreUndoesDeduct | payments/services.py:261-265 | restoring an order's lines after deducting them gives back the original stock |
| Orders.QtyOfDistinct | orders/tasks.py:49-52 | with distinct variants a line's variant loses exactly that line's quantity |
| Orders.QtyOfAbsent | orders/tasks.py:49-52 | a variant no line names loses nothing |
| Orders.NoOversell | orders/tasks.py:29-53 | when every line passed the check and variants are distinct, no stock goes negative |
| Orders.PerLineCheckNeedsDistinctLines | orders/tasks.py:30-33 | two lines of one unit against one unit both pass the per-line check and drive the stock to -1 |
| Orders.Reconcile | orders/tasks.py:14-89 | definition: the task's result as a value (new status, new stock, whether the cart is cleared, outcome) for an order, the stock, whether the owner has a cart and whether the mail went out; its properties are proved by the `Reconcile*` lemmas |
| Orders.ReconcileAllOrNothing | orders/tasks.py:14-78 | a run completes exactly when every line fits, the cart exists and the mail goes out; then the order is confirmed, the cart cleared and each variant lowered by its lines; otherwise the order is cancelled and stock is unchanged |
| Orders.ReconcileShortLineCancels | orders/tasks.py:29-46 | a short line cancels the order and changes no stock |
| Orders.ReconcileDeductsEachLine | orders/tasks.py:48-53 | on completion each line's variant drops by its quantity and unreferenced variants do not move |
| Orders.ReconcileNoOversell | orders/tasks.py:29-53 | the task never drives a non-negative stock negative for an order with distinct variants |
| Orders.ReconcileTwiceDeductsOnce | orders/tasks.py:19-21 | a second run after a completed one reports already confirmed and deducts nothing more |
| Payments.ToKobo | payments/services.py:66 | definition: `int(amount * 100)`, the amount times 100 truncated toward zero; exact for two decimals by `ToKoboExact`, truncating otherwise by `ToKoboTruncates` |
| Payments.FromKobo | payments/services.py:174 | definition: kobo divided by 100 as an exact two-decimal value; inverse of `ToKobo` by `KoboRoundTrip` and `KoboFromKobo` |
| Payments.DivTrunc | payments/services.py:66 | int() of a quotient: the result times the divisor is within one divisor of the dividend, toward zero |
| Payments.ToKoboExact | payments/services.py:66 | an amount with at most two decimals converts to kobo exactly |
| Payments.KoboRoundTrip | payments/services.py:174 | kobo of an amount with at most two decimals, divided by 100, is the same amount |
| Payments.KoboFromKobo | payments/services.py:174 | kobo divided by 100 and converted back are the same kobo |
| Payments.CentsAreKobo | payments/services.py:239 | a stored amount in cents is sent as that many kobo |
| Payments.ToKoboTruncates | payments/services.py:66 | beyond two decimals the kobo sent are truncated toward zero, short by less than one kobo |
| Payments.SubKoboDigitsAreLost | payments/services.py:66 | 10.005 is sent as 1000 kobo and does not come back as 10.005 |
| Payments.RefundAmount | payments/services.py:231 | a missing or zero amount means the whole payment; any other amount is taken as given |
| Checkout.FirstShortLine | orders/views.py:33-39 | none exactly when every cart line is covered by stock; otherwise the first line that is not |
| Checkout.FirstShortLineAt | orders/views.py:33-39 | a short line with every earlier line covered is the one reported |
| Checkout.Snapshot | orders/views.py:51-59 | one order line per cart line, in order, with the variant's current price and the line's quantity |
| Checkout.SnapshotTotal | orders/views.py:43-59 | the order lines' Σ price × quantity equals the cart total given to the order |
| Checkout.SnapshotDistinct | carts/models.py:41 | a cart's unique lines give an order with distinct variants |
| Shop.Added | carts/views.py:24-32 | definition: the carts after the add view, the line grown or appended, or on a negative quantity refused with the carts unchanged; `Shop.Store.AddVariant` is proved to produce it |
| Shop.AddedTotal | carts/views.py:24-32 | a successful add raises the cart total by quantity times the variant price |
| Shop.Reduced | carts/views.py:40-50 | definition: the carts after the reduce view, a 404 for no cart or no line, the line deleted at `<=`, otherwise lowered; `Shop.Store.ReduceVariant` is proved to produce it |
| Shop.ReducedTotal | carts/views.py:42-50 | a deleted line takes its subtotal off the total; a reduced line takes quantity times price off and keeps at least one unit |
| Shop.Removed | carts/views.py:55-59 | definition: the carts after the remove view, a 404 for no cart or no line, otherwise that line deleted; `Shop.Store.RemoveItem` is proved to produce it |
| Shop.RemovedTotal | carts/views.py:57-58 | removing takes the line's subtotal off the total and leaves no line for the variant |
| Shop.SnapshotOrderValid | orders/views.py:43-59 | the order checkout writes is valid and its lines add up to its total |
| Shop.Settled | payments/services.py:149-185 | definition: the state a provider report leaves, paid giving payment `success`, order `confirmed` and every line deducted, not paid giving `failed`, `cancelled` and stock untouched; `Shop.Store.SettlePayment` is proved to produce it |
| Shop.VerifyThenRefundRestoresStock | payments/services.py:160-265 | a successful verify followed by a refund of the same payment gives back every variant's stock from before the verify |
| Shop.OrderStatusKeepsValid | orders/models.py:21 | changing an order's status keeps the order and payment invariants |
| Shop.PaymentStatusKeepsValid | payments/models.py:15 | changing a payment's status keeps the payment invariant |
| Shop.NewOrderKeepsValid | orders/views.py:43-48 | a valid order under the next id keeps the invariants |
| Shop.NewPaymentKeepsValid | payments/models.py:11-14 | a payment for an order without one, under an unused reference and for the order total, keeps one payment per order and unique references |
| Shop.StockKeysKeepOrdersValid | orders/tasks.py:52-53 | stock movements that keep the rows keep the orders valid |
| Shop.CartUpdateKeepsValid | carts/models.py:41 | replacing one cart by a valid one keeps every cart valid |
| Shop.Store.AddItem | carts/views.py:19-33 | unknown SKU: not found, carts unchanged; otherwise the effect of `Added` |
| Shop.Store.AddVariant | carts/views.py:24-32 | an existing line grows by the quantity; otherwise a line with the quantity is added ; a negative result is refused and, as the request's transaction rolls back, no cart changes |
| Shop.Store.ReduceItem | carts/views.py:37-50 | unknown SKU: not found, carts unchanged; otherwise the effect of `Reduced` |
| Shop.Store.ReduceVariant | carts/views.py:40-50 | no cart or line: not found and unchanged; at most the quantity left: line deleted; otherwise quantity lowered |
| Shop.Store.RemoveItem | carts/views.py:53-59 | unknown SKU, no cart or no line: not found and unchanged; otherwise exactly that line deleted |
| Shop.Store.DestroyCart | carts/views.py:61-68 | always refused as not allowed; nothing changes |
| Shop.Store.SaveAddress | address/models.py:19-34 | the rows become `SaveRows` of the old rows; an update keeps its key, an insert takes the next key; the single-default invariant holds after it |
| Shop.Store.ClearOtherDefaults | address/models.py:26-28 | every other default of the user loses its flag, nothing else changes |
| Shop.Store.WriteRow | address/models.py:34 | the row with the key is replaced, or a row under the next key is appended |
| Shop.Store.Checkout | orders/views.py:18-76 | no cart: not found; empty cart; no default address; first short line with its stock and quantity; total too large; otherwise one pending order under the next id with the default address text, the cart total and the snapshot lines; stock and carts untouched |
| Shop.Store.PreCheck | orders/views.py:33-39 | reports exactly the first cart line the stock cannot cover |
| Shop.Store.SnapshotItems | orders/views.py:51-59 | returns the snapshot lines of the cart |
| Shop.Store.PlaceOrder | orders/views.py:43-48 | stores the order under the next id |
| Shop.Store.TakeStock | orders/tasks.py:48-53 | stock becomes `Deduct` of the old stock over the lines |
| Shop.Store.Deducted | orders/tasks.py:49-53 | changes nothing; returns the stock levels after every line's quantity is taken off its variant, i.e. `Deduct` of the stock |
| Shop.Store.ReturnStock | payments/services.py:261-265 | stock becomes `Restore` of the old stock over the lines |
| Shop.Store.Restored | payments/services.py:262-265 | changes nothing; returns the stock levels after every line's quantity is put back on its variant, i.e. `Restore` of the stock |
| Shop.Store.ProcessOrderPayment | orders/tasks.py:12-89 | unknown order: nothing changes; otherwise stock, order status, cart and result are those of `Reconcile`, and the lock list is the sorted variant ids unless the order was confirmed |
| Shop.Store.CheckStock | orders/tasks.py:29-46 | reports exactly the first line the stock cannot serve |
| Shop.Store.ConfirmOrder | orders/tasks.py:48-78 | with a cart and the mail sent: lines deducted, order confirmed, cart emptied; otherwise all rolled back and the order cancelled |
| Shop.Store.ProcessPayment | payments/services.py:22-119 | unknown order, non-pending order, amount other than the total: error and no payment; otherwise the charge goes out in kobo and the payment is stored `pending` with the provider's reference, or `failed` under `TEMP` when refused, or not at all when unreachable or when a unique constraint refuses it |
| Shop.Store.AddPayment | payments/services.py:54-61 | for an existing order with the matching amount and no payment yet, under a fresh reference: the payment is stored under the next key, the invariant holds, nothing else changes |
| Shop.Store.VerifyPayment | payments/services.py:121-211 | network error, non-200 reply, invalid reply, unknown reference: nothing changes; otherwise the payment is settled as `Settled` says and the amount comes back divided by 100 |
| Shop.Store.SettlePayment | payments/services.py:149-185 | paid: payment `success`, order confirmed, every line deducted; not paid: payment `failed`, order cancelled, stock unchanged |
| Shop.Store.RefundPayment | payments/services.py:213-292 | unknown payment, status other than success, amount above the payment: refused, nothing sent; otherwise the refund goes out in kobo; if accepted the payment is refunded, the order cancelled and every line's full quantity restored; if not, nothing changes |
| Shop.Store.PaymentStatusReport | payments/services.py:294-323 | none exactly when the payment is unknown; otherwise the payment's id, its own order's id and that order's current status, and the payment's amount, status, method and reference; the amount is also the order's total |

## Left out

- The payment provider's HTTP calls are not modelled; their answers are parameters. A malformed provider reply (a missing key inside the success branch) raises into the generic handler and is not modelled.
- Row locks, `transaction.atomic` and the Celery queue exist for concurrency and are not modelled. Each operation is atomic. The lock order is only computed, as a list. The task takes the locks in item order, not in that list's order (see "## Findings"); with no concurrency in the model, that order changes no result.
- `send_mail` is not modelled. The one mail that matters, the confirmation mail of the task with `fail_silently=False`, is a boolean parameter. The cancellation mails are best-effort and are left out.
- The float comparison of the amount with the order total (payments/services.py:47) is exact equality of cents.
- Timestamps (`created_at`, `updated_at`) are left out, including `created_at` in the payment status report.
- `int()` parsing of the requested quantity in the cart views is left out: the quantity arrives as an integer.
- A user has at most one cart, a map entry. The foreign key would allow several, and `get_or_create` would then fail.
- The 32-bit upper bound of PositiveIntegerField is not modelled. The DECIMAL(10, 2) bound of `price_at_purchase` is not checked either, because products/models.py does not define the variant's price column. The DECIMAL(12, 2) bound of the order total is modelled.
- Protected deletion of users and variants is not modelled: the model has no delete operation for them.
- The HTTP views of payments, products, users and the assistant are not modelled. This includes the verify view's own cart clearing.
- Authentication, the AI assistant, embeddings, signals, managers and the other serializers are not modelled.
- Shop.Store.AddItem: the model returns `QuantityRejected` where the database's non-negative check raises an IntegrityError (a 500). Under the request transaction the rows `get_or_create` inserted are rolled back, so the carts are unchanged.

## Findings

| source | as written | input that shows it | evidently intended | confidence | as-written member | corrected member |
|---|---|---|---|---|---|---|
| orders/tasks.py:23-32 | the ids are sorted "to prevent deadlocks", but the `select_for_update` queryset is lazy and each row is locked by its own `variants.get(id=...)` while the loop walks the items, so rows are locked in item order | an order whose items name variant 9 and then variant 3: row 9 is locked before row 3 | rows locked in ascending id order, as the sorted list says | high; not executed | Orders.ItemOrderLocksUnsorted | Orders.LockOrder |
