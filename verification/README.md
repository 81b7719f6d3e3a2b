# Verified model of the money, stock and tax-document core

A Dafny model of the part of a GST-registered web shop where figures must agree to the paisa and where
requests race: checkout and its stock, the gateway payment state machine, the refund ledger, tax invoices
and credit notes, the period reports, serial numbering, amounts in words and the anonymous-traffic counters.

Money is in integer paise and rates are in hundredths of a percent. Decimal division followed by
`.quantize` is exact rational division followed by one of the two rounding modes the program uses: half up
(`Money.HalfUp`) where it asks for it, half even (`Money.HalfEven`) where it does not.

| file | what it holds |
|---|---|
| `Money`, `Apportionment`, `Buckets` | rounding, sums, round-then-give-the-residual-to-the-largest, dictionaries of running totals |
| `Orders` | rows shared by the other modules |
| `Pricing`, `TaxBreakdown`, `Coupons`, `Checkout` | inclusive and exclusive GST, the combo split, the breakup of an order, refund tax, coupons, checkout's line money, the cart quote, the coupon preview |
| `Documents`, `Reports`, `Agreement`, `Ordering` | CGST/SGST/IGST heads, invoice and credit-note rows, period, state-wise and HSN reports, what they agree on, the order of their rows |
| `Numbering`, `AmountInWords`, `AnonCounters` | serial numbers, Indian number words, the Redis drain |
| `Shop` | the shared rows and every request as one atomic step; runs are arbitrary sequences of steps |
| `PriceLaws`, `DocumentLaws`, `ShopLaws` | what orders, documents, reports and requests come to, in the figures of the cart, the place of supply and the rows' own fields |
| `ShopBooks`, `ShopStock`, `Recipes`, `ShopPayments`, `ShopSafety`, `ShopRuns` | what every run keeps |
| `ShopLive`, `ShopExceptions` | exactly when a promise fails: live orders without stock, payments reopened, captured money without an alert, invoices left due |
| `ShopDocuments` | the documents of a run and the period summary over them |
| `StockUpdates`, `ShopService` | the same requests as methods that fill dictionaries and update rows in place, each proved to end in the state its step specifies |

A run (`Shop.Run`) starts from a shop without orders and takes any requests in any order with any
arguments: checkouts whose cart and coupon were read earlier, payment events repeated, reordered or wrongly
addressed, customer and staff cancellations, the reconciliation job, admin edits, gateway and admin refunds,
and recipe edits. A request that fails leaves every row as it was.
Gateway refunds are among the requests because `mark_payment_refunded` is written and guarded, but the webhook branch
that would call it is switched off (`payments/views.py:430-454`): at this commit only admins record refunds.

## Where the code and its comments disagree

The model follows the code.

- The odd paisa of an intra-state split goes to CGST, not SGST (`Documents.SplitTax`).
- The coupon preview taxes `line total - discount`; the order taxes `rounded unit price x quantity`. They agree
  exactly when the line's discount divides evenly among its units (`Checkout.PreviewAmountMatches`). It also taxes
  a combo without components at the default rate, which the order does not (`Checkout.EmptyComboPreview`).
- A cart worth nothing without a coupon is quoted free delivery but charged the delivery fee
  (`Checkout.QuoteEqualsCharge` has the exact condition).
- GST reversed by instalments need not add up to the whole (`Checkout.InstalmentsNeedNotAddUp`); it does exactly
  when the instalments' own rounded shares reach it (`TaxBreakdown.InstalmentsComplete`).
- The residual fix can leave a negative part on tiny amounts (`Pricing.TinyComboGoesNegative`); the bounds below
  say when it cannot.
- Cancelling an invoice of exempt goods credits the money but a slab value of zero
  (`Documents.CancellationMirrorsExactly`), so the state-wise report keeps the sale
  (`Agreement.CancellationNetsOutExactly`).
- Credit notes can exceed the invoice: a refund recorded after a cancellation note
  (`ShopBooks.RefundStaysWithinInvoice`, `ShopBooks.LateRefundCreditsTwice`).
- A combo line without recorded components is restocked from the live recipe, so a recipe edit that changes the
  units of a size loses or invents stock (`ShopStock.RecipeEditLosesStock`, `ShopStock.StockIsLostForGood`).
- Orders whose payment failed are not superseded and keep their stock (`ShopSafety.FailedOrderIsNotSuperseded`).
- Staff and admin edits can cancel a paid order without any alert (`ShopExceptions.CancelLeavesUnflagged`).
- An order moved back from cancelled or refunded to a live status draws no stock again, so its units can be sold
  twice (`ShopLive.RevivedOrderIsSoldTwice`); `ShopLive.UnbackedExactly` names every request that does this.
- A refunded order should always have an invoice to credit. One that an edit refunds while taking back the mark that
  it was paid has none (`ShopExceptions.UninvoicedRefundRun`, `ShopExceptions.InvoiceLeftDueExactly`).
- A payment is meant to be terminal once settled. The gateway page refuses only cancelled and paid orders, so one
  refunded by an admin passes: its payment goes back to waiting, and money captured then cannot be refunded
  (`ShopExceptions.AdminRefundedOrderIsCapturedAgain`, `ShopExceptions.PageOpensExactly`). A completed payment of a
  paid order is reopened only when the capture lands between the page's unlocked check and its lock
  (`ShopExceptions.CheckLetsSettledThrough`, `ShopSafety.SettledReopensExactly`).
- Refunding an exempt order reports its total at 0%, its invoice the rounded prices of its lines
  (`Agreement.ExemptRefundNetsOutExactly`, `Agreement.ExemptCouponDrifts`).
- An increment between a flush's swap and its clean-up is lost (`AnonCounters.LateIncrementIsLost`), and a counter first
  seen between its listing and its clean-up is left without an index entry (`AnonCounters.FirstIncrementIsStranded`).

## Model

| member | source | states |
|---|---|---|
| Pricing.TaxOnTopIsRecovered | orders/pricing.py:23-57 | extracting GST from `net + GST on net` gives back exactly that GST, for every net and positive rate |
| Pricing.ComboSplitIsExact | orders/pricing.py:291-325 | a combo line's parts sum to the line exactly; each non-largest part is within half a paisa of its share and the largest within (n-1)/2; none is negative from n(n-1)/2 paise on; the even-split fallback obeys the same |
| Pricing.TinyComboGoesNegative | orders/pricing.py:299-309 | below that bound a part can be negative: two paise over four equal components |
| Pricing.EqualComboSignExactly | orders/pricing.py:293-309 | over n equally weighted components no part is negative exactly when n-1 of the rounded shares fit in the line |
| PriceLaws.ComboSplitByPrice | orders/pricing.py:291-309 | each part but that of one of the dearest components is the line in proportion to price times packs, rounded half up; components that cost nothing share evenly |
| Pricing.AllocateComboComponents | orders/pricing.py:241-325 | the loop computes the split that the lemmas are about, and no rows for an empty combo or amount |
| Pricing.SlabRowsKeepTax | orders/pricing.py:60-96 | grouping lines by rate keeps the total of the GST extracted from them |
| Pricing.GroupTaxByRate | orders/pricing.py:60-96 | filling the buckets in place gives one row per rate in rate order with the lines' totals |
| PriceLaws.SlabsAre | orders/pricing.py:60-96 | each rate once and in order, with the GST of its lines and, as taxable value, what that leaves of their gross |
| TaxBreakdown.BreakdownTotal | orders/pricing.py:99-178 | for any order, legacy lines included, the rows sum to the larger of the tax attributed and the tax charged |
| TaxBreakdown.BreakdownReconciles | orders/pricing.py:99-178 | when line tax and rates agree, the rows sum to goods plus delivery GST and nothing is left unattributed |
| TaxBreakdown.OrderTaxBreakdown | orders/pricing.py:99-178 | the loop computes that breakup |
| TaxBreakdown.RefundTaxMonotone | orders/pricing.py:181-238 | a larger refund never reverses less GST |
| TaxBreakdown.RefundTaxFor | orders/pricing.py:216-238 | GST reversed is never negative and never more than what is left to reverse |
| PriceLaws.RefundTaxIs | orders/pricing.py:216-238 | every refund, up to the cap: below the goods value the goods GST in proportion, past it all of that and the delivery GST in proportion to the delivery money returned, each rounded half up |
| TaxBreakdown.RefundTaxWithinRefund | orders/pricing.py:210-238 | whatever was reversed before, no refund reverses more GST than the refund itself exactly when goods GST does not exceed a positive goods value |
| TaxBreakdown.FullRefundReversesEverything | orders/pricing.py:210-238 | the first full refund reverses goods and delivery GST exactly |
| TaxBreakdown.InstalmentsReverse | orders/pricing.py:216-238 | any sequence of refunds reverses the sum of their own shares, each rounded on its own, cut off at the whole GST |
| TaxBreakdown.InstalmentsComplete | orders/pricing.py:216-238 | instalments reverse the whole GST exactly when those shares reach it |
| Coupons.InvalidReason | admin_panel/models.py:109-126 | a coupon is accepted exactly when active, for this account, unexpired, not used up and large enough; the shortfall quoted is exact |
| Coupons.DiscountFor | admin_panel/models.py:133-145 | the discount never passes the amount, fixed coupons take the smaller of the two, percentages are within half a paisa of exact |
| Checkout.PlaceOrder | orders/views.py:653-733 | the checkout loops write the bill that the lemmas below are about |
| PriceLaws.CouponTakesOff | orders/views.py:659-666 | the subtotal is price times quantity; nothing is off without a coupon, a fixed one takes the smaller of amount and subtotal, a percentage is rounded half to even and never passes the subtotal |
| PriceLaws.OrderCosts | orders/views.py:718-737 | an order a coupon leaves nothing of costs nothing; any other ships free from the threshold on, after the discount, or at the fee plus GST, and its GST is its lines' |
| PriceLaws.OrderLines | orders/views.py:674-716 | every line: proportional discount and unit price rounded half to even, final price, GST inside it, and for a combo its components with their sizes, units, rates and codes; waived lines are charged nothing |
| Checkout.PlacedOrderReconciles | orders/views.py:659-733 | for every cart and coupon the order's breakup sums to its goods and delivery GST, with no unattributed row |
| Checkout.PlacedOrderShape | orders/views.py:653-733 | GST and fee are non-negative, the discount within the subtotal, the total adds up, and tax is charged only on a positive remainder |
| Checkout.FullRefundOfPlacedOrder | orders/pricing.py:210-238 | the first full refund of any order checkout writes reverses its whole GST |
| Checkout.InstalmentsNeedNotAddUp | orders/pricing.py:216-238 | an order checkout writes whose three equal instalments return all the money and leave one paisa of GST unreversed |
| Checkout.UndiscountedRefundsStayWithin | orders/pricing.py:210-238 | without a coupon, and with no combo line too small for its parts, goods GST stays within goods value and no refund reverses more GST than itself |
| Checkout.ProportionalDiscountDrift | orders/views.py:659-692 | line prices sum to the discounted subtotal within (units + lines)/2 paise |
| Checkout.DiscountSharesDrift | orders/views.py:682-689 | line discounts sum to the order discount within n/2 paise |
| Checkout.UndiscountedOrder | orders/views.py:659-692 | without a coupon line prices sum to the subtotal exactly |
| Checkout.GetSummary | cart/serializers.py:181-238 | the loop computes the quoted subtotal, GST, slabs, delivery and total |
| Checkout.QuotedSlabsAreCharged | cart/serializers.py:188-218 | the quoted slabs are the order's breakup, delivery included, when every combo is recorded, the cart is not free and a fee, if any, carries GST |
| Checkout.QuoteEqualsCharge | cart/serializers.py:181-238 | without a coupon the quoted goods GST is always the order's, and delivery fee, delivery GST and total are too exactly when the subtotal is not zero, the fee is zero or free delivery starts at zero |
| Checkout.PreviewAmountMatches | orders/views.py:430-440 | the coupon preview taxes the amount the order charges exactly when the line's discount divides evenly among its units |
| Checkout.PreviewTaxMatches | orders/views.py:399-441 | then the previewed GST of a line is the GST charged exactly when it is not a combo without components, or the default rate extracts nothing from it |
| PriceLaws.PreviewTaxes | orders/views.py:416-441 | the preview taxes what the line's rounded share of the discount leaves: a product at its rate, a combo by its parts, one without parts at the default rate |
| Checkout.EmptyComboPreview | orders/pricing.py:357-360 | a combo without components is charged no GST, and previewed none exactly when the default rate extracts nothing |
| Checkout.PreviewDriftsOnQuantity | orders/views.py:430-440 | a three-unit line whose preview and charge differ by a paisa |
| Checkout.PreviewDriftsOnEmptyCombo | orders/pricing.py:357-360 | a combo of 105 without components, previewed at 5.00 of GST and charged none |
| Documents.SplitTax | orders/place_of_supply.py:240-255 | heads sum to the positive part of the tax; interstate is all IGST; an odd paisa goes to CGST |
| Documents.CreditNoteTaxRows | orders/invoice.py:243-285 | the in-place loop computes the scaled and patched rows |
| Documents.RefundNoteReconciles | orders/invoice.py:264-285 | for any order and any reversed GST the note's rows sum to it exactly, are non-negative from n(n-1)/2 paise on, and its heads sum to its tax exactly when no row is negative |
| Documents.PlacedInvoiceReconciles | orders/invoicing.py:173-188 | the heads of every invoice of a checkout-written order sum to its GST |
| DocumentLaws.InvoiceIs | orders/invoicing.py:163-188 | any order's invoice has its total, GST and slabs, under its place of supply or the seller's; at home CGST and SGST share the GST, anywhere else all of it is IGST |
| DocumentLaws.NotesAreHeaded | orders/credit_notes.py:80-113 | every credit note has its amount and GST, its invoice's place of supply and the heads that place calls for |
| DocumentLaws.RefundNoteScales | orders/invoice.py:264-285 | a note reports the order's own slabs, value and GST, in proportion to the GST reversed, to the paisa but for one row; one that reverses none reports its amount at 0% |
| DocumentLaws.CancellationScales | orders/credit_notes.py:145-165 | likewise a cancellation note, in proportion to the GST left on the invoice |
| Documents.FullRefundMirrorsInvoice | orders/credit_notes.py:66-113 | a single full refund's note has the invoice's own rows, slab by slab and head by head |
| Documents.CancellationNoteRows | orders/credit_notes.py:145-165 | the loop computes the cancellation rows |
| Documents.CancellationReconciles | orders/credit_notes.py:134-184 | a cancellation note's rows sum to the GST left on the invoice, are non-negative from n(n-1)/2 paise on, repeat the invoice when nothing was credited before, and its heads sum to its tax exactly when no row is negative |
| Documents.CancellationMirrorsExactly | orders/credit_notes.py:145-165 | with nothing credited before, a cancellation note repeats its invoice exactly when the invoice carried GST or had no slab value |
| Agreement.CancellationNetsOutExactly | orders/gst_ledger.py:99-153 | cancelling a checkout-written order whole leaves every state and rate bucket's net as it was exactly when it was charged GST or had no slab value |
| Agreement.ExemptOrder | orders/credit_notes.py:146-158 | one exempt product shipped free is such an order: no GST, yet a slab value |
| Agreement.ExemptRefundNetsOutExactly | orders/credit_notes.py:88-94 | refunding whole an order without GST leaves every bucket's net as it was exactly when its invoice reported the whole total at 0% and nothing at another rate |
| Agreement.OneExemptLineNetsOut | orders/credit_notes.py:88-94 | for one exempt product shipped free that is exactly when the price of its line is the order's total |
| Agreement.ExemptCouponDrifts | orders/views.py:682-692 | a coupon of one paisa on three packs at 1.00: the line says 3.00, the order 2.99 |
| Reports.PeriodSummary | orders/gst_ledger.py:60-87 | the loops compute the invoice, credit-note and net blocks of the documents in the window |
| DocumentLaws.WindowKeeps | orders/gst_ledger.py:29-34 | a window keeps exactly the documents issued from its first day to its last |
| DocumentLaws.BlocksAre | orders/gst_ledger.py:37-87 | a block counts its documents and adds up their amounts, GST and heads; net is invoices less notes |
| Reports.PeriodHeadsMatchTax | orders/gst_ledger.py:60-87 | over any window CGST, SGST and IGST add up to the tax in all three blocks |
| Reports.B2cByState | orders/gst_ledger.py:99-153 | per state and rate, in that order, the gross, credited and net totals |
| DocumentLaws.StatesShowTheirHeads | orders/gst_ledger.py:99-153 | over any documents headed by their place of supply, the seller's own state shows no IGST and every other nothing but IGST, gross, credited and net; values are those of the state's documents at that rate |
| DocumentLaws.StateRowsInOrder | orders/gst_ledger.py:127-128 | rows come by state code, the row without a rate first and then by rate |
| Reports.StateRowsMatchPeriod | orders/gst_ledger.py:99-153 | the state-wise rows add up to the period summary's heads, gross and credited |
| Reports.FullRefundNetsToZero | orders/gst_ledger.py:99-153 | adding an order's invoice and the note of its full refund leaves every state and rate bucket's net as it was |
| Reports.HsnSummary | orders/gst_reports.py:77-187 | sorted rows with their taxable values, totals, order count and unclassified value are those of the lines, components and delivery of the orders invoiced in the window; the refunds are its credit-note block |
| DocumentLaws.HsnRowIs | orders/gst_reports.py:105-148 | each row has the units, value and GST supplied under its code and rate, combos by their components, delivery under 9968, and the value left without GST |
| DocumentLaws.HsnRowsInOrder | orders/gst_reports.py:164-165 | rows come by code and rate, the unclassified last |
| DocumentLaws.BillsKept | orders/gst_reports.py:92-98 | the orders it keeps are those of the invoices in the window: their GST is the invoices' |
| Reports.HsnTotals | orders/gst_reports.py:105-187 | the HSN summary carries all the GST and money of the orders: components neither double-count nor lose a paisa |
| Reports.HsnMatchesInvoices | orders/gst_reports.py:105-187 | its tax is the invoice block's tax for the same orders |
| Agreement.ReportsAgree | orders/gst_reports.py:77-187 | for any checkout-written orders and any window, HSN tax, invoice block tax, its three heads together and the state-wise gross heads are one figure |
| Numbering.InvoiceBook.AllocateNumber | orders/invoicing.py:103-116 | the next number of the series, the counter row moved by one, other series untouched |
| Numbering.InvoiceBook.Issue | orders/invoicing.py:289-331 | check, allocate, insert: ends as the specified attempt does, races and rollbacks included |
| Numbering.RunIsSound | orders/invoicing.py:289-331 | over any run one document per order, all serials distinct, each counter equals documents issued plus numbers burned by lost races |
| Numbering.NoRaceNoGap | orders/invoicing.py:103-116 | without lost races a series carries exactly 1 to its counter |
| Numbering.MissingMeansBurned | orders/invoicing.py:318-327 | a number was burned by a lost race exactly when it is at most the counter and on no document |
| Numbering.GapCountsMissing | orders/gst_ledger.py:163-167 | the reported gap is the count of sequences missing between the smallest and largest |
| Numbering.DocumentsIssued | orders/gst_ledger.py:156-175 | one row per series that issued anything, series in order, each with its printed range, its count and the number of sequences missing |
| Numbering.NumbersPrintDistinctly | orders/invoicing.py:103-116 | two serials print alike only when they are the same serial |
| Numbering.SeriesPerFinancialYear | orders/invoicing.py:79-100 | two dates share a series exactly when their April-to-March years agree modulo a century |
| Numbering.SeriesTurnsInApril | orders/invoicing.py:79-100 | two dates less than a century apart share a series exactly when no first of April lies between them |
| Numbering.SeriesNamesYear | orders/invoicing.py:79-100 | a series names its prefix, cut to three letters, and the years of the April before and the April after |
| Numbering.NumberLength | orders/invoicing.py:103-116 | a printed number keeps to the sixteen characters of Rule 46(b) of the CGST Rules 2017 exactly up to 999999 for a three-letter prefix, one digit more for two letters |
| AmountInWords.AmountRoundTrip | orders/invoice.py:322-347 | a reader recovers every non-negative amount from its words, crores of crores included |
| AmountInWords.AmountsPrintDistinctly | orders/invoice.py:340-347 | different amounts never print alike |
| AmountInWords.AmountFramed | orders/invoice.py:344-350 | every amount is printed between "Rupees" and "Only" |
| AmountInWords.PrintNumber | orders/invoice.py:322-337 | the in-place lists, recursion included, print the words the reader understands |
| AmountInWords.PrintAmount | orders/invoice.py:340-347 | the printed line is the text of the round trip |
| AnonCounters.NeverOvercounts | analytics/anon.py:142-224 | over every interleaving of increments, flushers and crashes, database plus Redis never exceed what was recorded, and each missing increment is accounted for |
| AnonCounters.QuietRunLosesNothing | analytics/anon.py:188-224 | nothing is lost when no increment falls between a flush's swap and its clean-up and none crashes with counts in hand |
| AnonCounters.FlushesHoldSome | analytics/anon.py:188-190 | over every run a flush at work holds at least one counter: one that finds nothing indexed never deletes the index |
| AnonCounters.CrashLosesWhatItHeld | analytics/anon.py:192-214 | a crash loses exactly the counts its flush had in hand and touches nothing else |
| AnonCounters.LateIncrementIsLost | analytics/anon.py:200-222 | one increment in that window is lost |
| AnonCounters.MemberParsesBack | analytics/anon.py:150-198 | an index member parses back to its counter exactly when the metric has no separator |
| AnonCounters.StrandedExactly | analytics/anon.py:187-222 | which step leaves which counter in Redis without an index entry: clean-up strands exactly those still holding counts that its flush had not swapped |
| AnonCounters.StrandedNeverFlushed | analytics/anon.py:187-222 | a counter that neither the index nor a flusher knows stays in Redis until it is incremented again |
| AnonCounters.FirstIncrementIsStranded | analytics/anon.py:187-222 | a first increment between listing and clean-up ends there |
| AnonCounters.CounterStore.IncrRedis | analytics/anon.py:142-153 | every listed counter goes up by its occurrences and is indexed |
| AnonCounters.CounterStore.UpsertCounts | analytics/anon.py:156-166 | positive counts are added to the database, others leave it alone |
| AnonCounters.CounterStore.FlushAnonToDb | analytics/anon.py:169-224 | an uninterrupted flush keeps database plus Redis, leaves every indexed counter at zero, and reports how many had counts |
| Recipes.RestoresAfterEdit | orders/views.py:112-131 | a recipe edit moves what a restock gives back of a size by the combos on unrecorded lines times the change in units |
| Recipes.RecipeEditKeepsRestores | orders/views.py:112-131 | it leaves every size alone exactly when the order has no such line or both recipes use the same units of every size |
| ShopStock.PlacedRestores | orders/views.py:901-950 | an order as checkout writes it restocks the units it drew, when unrecorded compositions are still worth the same units |
| ShopStock.UnrecordedExactly | orders/views.py:677-702 | a combo line goes unrecorded exactly when a coupon waives the order, the combo is empty, or the unit price rounds to nothing |
| ShopStock.StockConserved | orders/views.py:76-164 | over every traceable run each size's stock plus the units of orders not yet restocked is what the shop opened with; a clamped display mirror never falls short; bills and draws are frozen and restocks never undone |
| ShopStock.SnapshotsSurviveRecipeEdits | orders/views.py:112-124 | when every combo line is recorded at checkout this holds over every run, whatever happens to the recipes |
| ShopLive.UnbackedExactly | orders/views.py:1239-1376 | a backed order becomes a live order without stock exactly by an edit that revives a cancelled or refunded one, an accepted capture on a refunded one, or a recorded partial gateway refund |
| ShopLive.EndedOrdersGaveBack | orders/views.py:76-164 | in every run a cancelled or refunded order has given its stock back |
| ShopLive.OversoldExactly | orders/views.py:954-1008 | over every traceable run stock plus what live orders bought of a size passes what the shop opened with by exactly what live orders without stock bought |
| ShopLive.NeverOversold | orders/views.py:954-1008 | over every traceable run without such a request no size is oversold |
| ShopLive.RevivedOrderIsSoldTwice | orders/views.py:1239-1376 | from any empty shop the units of an accepted cash checkout are sold twice: cancel, edit back to processing, order again |
| ShopLive.FivePacksSoldTwice | orders/views.py:1239-1376 | a concrete run: five packs on the shelf, ten sold |
| ShopStock.RecipeEditKeepsCovered | orders/views.py:125-131 | an edit leaves every live order restorable exactly when it changes no size's units or no live order reads the recipe |
| ShopStock.RecipeEditLosesStock | orders/views.py:125-131 | cancelling any cancellable order after an edit keeps every size's stock exactly when the order has no unrecorded line of the combo or the edit keeps the units |
| ShopStock.WaivedComboRun | orders/views.py:677-684 | from an empty shop: waived checkout, edit, cancellation change each size by the combos bought times the change in units |
| ShopStock.StockIsLostForGood | orders/views.py:125-131 | a concrete such run ends with two packs missing |
| ShopBooks.RunKeepsBooks | orders/refunds.py:93-171 | after any run: refunded totals are the ledger's sums and within the order, references recorded once, refunded means a positive ledger, one restock per order, over all sessions at most one confirmation more than the settled payment was reopened, at most one cancellation note, and the last status audited is the payment's |
| ShopBooks.CancelledOrderIsCredited | orders/credit_notes.py:134-184 | in every run an order with a cancellation note has one, and its notes come to exactly the invoice's amount and tax plus what was refunded afterwards |
| ShopBooks.NotesWithinInvoice | orders/credit_notes.py:116-141 | in every run an order's notes stay within its invoice exactly when no refund was credited after its cancellation note |
| ShopBooks.RefundStaysWithinInvoice | orders/refunds.py:158-169 | a refund takes the notes past the invoice exactly when a cancellation note already stands |
| ShopBooks.LateRefundCreditsTwice | orders/views.py:1319-1337 | cancel, tick as paid, refund: every shipped unpaid cash order ends with twice its invoice credited |
| ShopBooks.CaptureKeepsBooks | payments/services.py:215-325 | a capture, whatever its id and amount, keeps the ledger, notes and audit trail consistent |
| ShopBooks.RefundedKeepsBooks | payments/services.py:397-444 | so does a gateway refund, over-reported or redelivered |
| ShopBooks.EditKeepsBooks | orders/views.py:1226-1438 | so does every admin edit, whatever it combines |
| ShopBooks.CommitKeepsBooks | orders/views.py:783-1076 | so does a checkout with its supersede |
| ShopRuns.EveryOrderReconciles | orders/pricing.py:99-178 | the breakup of every order any run reaches sums to its GST |
| ShopRuns.FirstFullRefundSettles | orders/refunds.py:93-171 | in every run a first refund of the whole money settles the order, reverses exactly its GST, and is the last |
| ShopRuns.RunInstalments | orders/refunds.py:115-131 | in every run the GST an order has reversed is the sum of its refunds' own shares cut off at the whole, complete exactly when they reach it |
| ShopRuns.RefundsReturnMoney | orders/views.py:189-214 | in every run each refund in the ledger was recorded by the gateway, or by an edit that found the order paid, with the cash ticked if it was to be cash |
| ShopDocuments.RunNotesFine | orders/credit_notes.py:105-111 | in every run each credit note credits money, and between nothing and all of its order's GST |
| ShopDocuments.RunHeadsMatchTax | orders/gst_ledger.py:60-87 | over every run and window the heads of its invoices and credit notes add up to the tax in all three blocks, if every note reaches n(n-1)/2 paise of its order's n slabs or reverses no tax |
| ShopDocuments.RunStatesShowTheirHeads | orders/gst_ledger.py:99-153 | over every run and window the state-wise report shows no IGST at home and nothing but IGST elsewhere |
| ShopPayments.PaymentOutcome | payments/services.py:215-369 | any sequence of captures and failures, repeated and reordered: completed when some capture has a matching or absent amount, otherwise failed when some failure came, otherwise awaiting; an open order's row follows from that alone |
| ShopPayments.DeliveriesConverge | payments/services.py:215-369 | two deliveries of the same events end in the same payment, and the same orders when the order was open |
| ShopPayments.FailureFirst | payments/services.py:242-246 | under a shared event id a failure that comes first shuts the capture out |
| ShopPayments.CaptureFirst | payments/services.py:339-348 | under the same id a capture that comes first wins |
| ShopLaws.CheckoutRows | orders/views.py:801-880 | a committed checkout closes the customer's own pending unpaid online orders, leaves every other earlier row as it was, and appends one that waits to be paid, or is paid and invoiced at once when a coupon leaves nothing |
| ShopLaws.CheckoutUsesCoupon | orders/views.py:1066-1076 | it uses its coupon exactly once and no other |
| ShopLaws.CheckoutCart | orders/views.py:1101-1110 | it empties the cart unless the order still has to be paid at the gateway |
| ShopLaws.CheckoutAcceptedExactly | orders/views.py:783-1076 | it is accepted exactly when the cart is there, the coupon's locked row admits it, and stock covers it once the closed orders gave theirs back |
| ShopLaws.SessionOnRow | payments/views.py:217-290 | the page leaves a payment waiting for exactly the order's total, in the same session or the next; its checks pass orders neither cancelled nor paid that cost something |
| ShopLaws.CaptureOnRow | payments/services.py:215-325 | a capture counts exactly when its session is the payment's, that is unsettled, the event new and the amount right; then a cancelled order is only marked captured, any other confirmed, paid, invoiced and its cart emptied |
| ShopLaws.FailureOnRow | payments/services.py:328-369 | a failure declines exactly a waiting payment of its session, once per event |
| ShopLaws.CancelOnRow | orders/views.py:1461-1510 | honoured exactly before delivery is under way, and for a customer without a completed payment; restocks once and credits what the invoice is still worth unless money is held |
| ShopLaws.AbandonOnRow | payments/management/commands/reconcile_payments.py:126-150 | the job closes exactly the orders neither cancelled nor paid |
| ShopLaws.RefundOnRow | payments/services.py:397-444 | a new event about an unreturned payment returns what it reports, or all that is left, never more; the payment is returned once the whole order is |
| ShopLaws.EditAcceptedExactly | orders/views.py:1226-1350 | an edit is accepted exactly when the move, the cash tick and the refund it asks for are each possible; any other changes nothing |
| ShopLaws.RefundNeedsMoney | orders/views.py:189-214 | an edit asking to refund an order that is not paid, or whose cash was never ticked, leaves every row as it was |
| ShopLaws.EditOnRow | orders/views.py:1272-1420 | what an accepted edit leaves: payment marks, restock and credit of a cancellation, the invoice it makes due, and the refund with its ledger row |
| ShopSafety.StepTouches | payments/services.py:215-444 | a request about one order changes no other; a payment only advances; without an admin edit a cancelled order stays cancelled until its whole money is back and nothing becomes open again |
| ShopSafety.PaymentNeverMovesBack | payments/services.py:219-240 | over every run, whatever its requests, a payment never moves back within a session, and only a counted reopening undoes a settlement |
| ShopSafety.SettledReopensExactly | payments/views.py:253-290 | a settled payment goes back to waiting exactly when the gateway page is opened on its order |
| ShopSafety.CancelledIsNeverReopened | payments/services.py:263-281 | over every run without admin edits or gateway refunds a cancelled order stays cancelled |
| ShopSafety.CancelledMoneyIsFlagged | payments/services.py:263-281 | over every run without admin edits and staff cancellations a cancelled order with a completed payment carries the captured-after-cancel alert |
| ShopExceptions.CancelLeavesUnflagged | orders/views.py:1364-1385 | a request leaves captured money on a cancelled order without an alert exactly when it cancels an order whose payment completed: staff, an admin edit, or, where the order no longer reads paid, the job or a checkout |
| ShopExceptions.AdminRefundedOrderPaysAgain | orders/views.py:1412-1436 | every order with a settled payment passes the page's checks after an admin refund, whole or partial, and the page opens a new session |
| ShopExceptions.AdminRefundedOrderIsCapturedAgain | payments/views.py:217-290 | after a whole admin refund a capture of that session confirms the order again, and no refund of it can be recorded |
| ShopExceptions.PageOpensExactly | payments/views.py:217-225 | whatever the request, the page opens to an order with a settled payment exactly by an edit that refunds it or leaves it neither cancelled nor paid, or by the gateway refund that completes its money |
| ShopExceptions.CheckLetsSettledThrough | payments/views.py:217-225 | over every run without admin edits and staff cancellations, a settled payment passes the page's checks exactly when it was returned and its order is neither cancelled nor paid |
| ShopExceptions.RefundedOrderPaysAgain | payments/services.py:410-444 | the same after a whole gateway refund, if those are switched back on |
| ShopSafety.InvoicesAreRaised | orders/invoicing.py:256-286 | in every run every order paid for or dispatched has its invoice, cancelled and refunded orders aside |
| ShopExceptions.InvoiceLeftDueExactly | orders/invoicing.py:256-286 | a request leaves an invoice due and unraised exactly when it completes the gateway refund of an order without one, or is an edit that refunds one while unmarking its payment |
| ShopExceptions.InvoicesAlwaysRaised | orders/invoicing.py:256-286 | over every run without such a request, every order paid for, paid back or dispatched, and not cancelled, has its invoice |
| ShopExceptions.UnmarkedRefundIsUninvoiced | orders/views.py:1261-1280 | a cancelled, uninvoiced gateway order marked paid by hand, refunded by an edit that takes the mark back, is such a request |
| ShopExceptions.UninvoicedRefundRun | orders/views.py:1226-1438 | from any empty shop: checkout, cancellation, an edit marking it paid, and that edit leave a refunded order whose invoice is due and was never raised |
| ShopExceptions.RefundedLateCaptureIsUninvoiced | payments/services.py:410-433 | if gateway refunds are switched back on, one that returns money captured after a cancellation is another, unless its reference was already recorded |
| ShopSafety.RunKeepsOneOpen | orders/views.py:801-823 | over every run without admin edits a customer never has two open unpaid gateway orders |
| ShopSafety.DoubleSubmit | orders/views.py:784-823 | after a cash or waived checkout a repeated submit is refused; after an online one a repeat that commits leaves the first order cancelled, rejected and restocked |
| ShopSafety.FailedOrderIsNotSuperseded | orders/views.py:811-815 | an order whose payment failed is left as it is by a later checkout |
| ShopSafety.RunKeepsCaps | orders/views.py:1069-1076 | however many checkouts validated a capped coupon, its uses never pass the cap |
| ShopService.Service.RestoreOrderStock | orders/views.py:76-164 | filling the dictionaries and crediting row by row gives the specified stock, mirrors and flag, once |
| ShopService.Service.DrawVariants | orders/views.py:960-984 | fails exactly when a size has too few, otherwise takes the units and collects what the mirrors lose |
| ShopService.Service.DrawProducts | orders/views.py:990-1020 | fails exactly when a variant-less product has too few, otherwise takes them and clamps the mirrors |
| ShopService.Service.SupersedeStale | orders/views.py:811-823 | the loop closes and restocks exactly the customer's own open unpaid gateway orders and leaves every other row as it was |
| ShopService.Service.Create | orders/views.py:781-1100 | checkout commits exactly when cart, stock and coupon allow it, ends in the specified state, and otherwise leaves every row as it was |
| ShopService.Service.OpenSession | payments/views.py:253-290 | a live payment of the right amount is reused, anything else starts a new session |
| ShopService.Service.OnCapture | payments/services.py:104-129 | an unknown session changes nothing, a known one is captured as specified |
| ShopService.Service.OnFailure | payments/services.py:104-129 | likewise for failures |
| ShopService.Service.MarkPaymentCaptured | payments/services.py:200-325 | the branches end in the specified payment, order, cart, audit entry and remembered id |
| ShopService.Service.MarkPaymentFailed | payments/services.py:328-369 | likewise for failures, which never downgrade |
| ShopService.Service.AppendRefund | orders/refunds.py:57-171 | clamped ledger row, totals recomputed from the ledger, status, one restock and the note, or nothing |
| ShopService.Service.LedgerTotals | orders/refunds.py:127-131 | the totals are the sums of the order's ledger rows |
| ShopService.Service.MarkPaymentRefunded | payments/services.py:372-444 | the payment is returned exactly when the whole order is |
| ShopService.Service.CancelByRequest | orders/views.py:1461-1510 | refused exactly for uncancellable orders and customers whose payment completed |
| ShopService.Service.CancelAbandoned | payments/management/commands/reconcile_payments.py:126-150 | an unpaid open order is closed and restocked, any other left alone |
| ShopService.Service.Update | orders/views.py:1151-1438 | an edit is accepted exactly under its checks; one that asks to refund money never received changes nothing; and a refund found impossible after the row was saved rolls everything back |

## Left out

- Decimal context precision: quotients are exact rationals, and floats that carry two-decimal money are exact.
- Unit prices, GST rates, HSN codes, recipes, the delivery fee and its threshold are read from the catalogue and the settings; here they are parameters of a cart line or of the policy.
- Checkout's checks before its transaction (active items, quantity and order limits, open cash orders): they only refuse, and nothing later relies on them.
- `usageCount` is the only trace a coupon leaves here; which order used it is not recorded.
- A fixed coupon with a negative value: the admin serializer refuses it, and the model's coupons cannot hold one.
- Soft deletion of orders, row deletion and the Django admin's direct status edits.
- Resolving a place of supply from an address: the resolved code is an input.
- Failures swallowed while a document is raised: in the shop's steps a due document is always raised. Their numbers and the races on them are in `Numbering`.
- In the shop's steps a credit note is its amount and tax; `ShopDocuments.NoteDocument` gives it the slab rows of `Documents`.
- E-mails and alerts: only the confirmation is kept, as the counter `confirmed` of a payment.
- The gateway's own order ids are session numbers; a late capture on a superseded session finds no payment.
- Instrument details, gateway fees and shipping details of an order, which no property here reads.
- HSN codes are taken without surrounding blanks, and their descriptions and unit codes are not modelled.
- Windows and issue dates are integers; time zones and date parsing are not modelled.
- Taxable values of the period summary and of the slab reports are not compared: under coupons the code does not make them equal.
- ShopStock.StockConserved: a display mirror is bounded from below only, because the code clamps it at zero when drawn.
- ShopSafety.CancelledMoneyIsFlagged: says nothing of runs with admin edits or staff cancellations; `ShopExceptions.CancelLeavesUnflagged` says exactly why.
- ShopService.Service.Update: leaves out edits of the address, place of supply, tracking and courier cost, and their refusals, which change no money, stock or status.
- Checkout.QuotedSlabsAreCharged: not stated for combos that checkout does not record, which the order shows as a 0% line and the cart not at all.
- Expiry of Redis keys and the `_` that stands for an empty dimension in a key.
- HTTP, serializers, permissions, PDF and CSV layout, the assistant and the dashboards.
