# Vistaraa storefront checkout — a Dafny model

This project models the checkout core of the Vistaraa storefront, a React
shop backed by Firestore. It covers these parts:

- **Card checkout page.** It merges the cart with a "buy now" item, resolves
  SKUs and sellers, and computes the total. It saves the order under
  `users/{uid}/orders`, writes one copy per seller into
  `sellers/{sellerId}/orders`, and appends a summary to each seller's
  profile document. The Razorpay success handler saves the order as paid.
- **Cash-on-delivery page.** It runs the same fan-out with its own rules. It
  resolves sellers from eight fields, stores the `sellerid` field as a scalar
  or an array, and adds a mirror copy to the top-level `orders` collection.
  It skips empty seller ids, increments `totalSales`, and tries to
  bootstrap a missing seller document first, with an update call that
  cannot create it.
- **Order confirmation page.** It fills in default shipping details and picks
  a delivery estimate of 3 or 4 days. It records the order in the local
  history cache, at most once per id, and renders the text receipt.
- **Order list.** It maps a stored order document to the shape the list
  shows.
- **Product page.**
  - Review statistics.
  - Size ordering of variants.
  - The current variant and its price.
  - The quantity controls, bounded by stock.
  - The add-to-cart and buy-now guards.
  - The similar-products filter and sort.
- **Footwear listing.** It extracts the colour from the description text and
  pages through the products eight at a time.

The store is an abstract value (`Store.Db`). A set of `Store.Write` values
names the calls that fail. Document ids, order ids, timestamps, random
draws and currency/date formatters are parameters. JavaScript's `a || b`
is modelled with `Option` values: `None` or `""` is falsy. Numbers are
`int`, with `0` standing for a missing number wherever the source writes
`x || d`.

The two checkout paths differ, and the model keeps each difference:

| | card checkout | cash on delivery |
|---|---|---|
| Seller of a line | Looked-up product document, then `sellerId`, `sellerid`, then `default_seller`. | Eight cart fields, then `default_seller`. |
| `totalAmount` in a seller copy | The whole order's total, plus a separate `sellerSubtotal`. | The group's subtotal, with no `sellerSubtotal`. |
| `totalSales` of a seller | Overwritten with this order's subtotal. | Incremented by it. |
| A seller update that fails | Ends the update loop. | Is skipped. Only a failed read ends the loop. |
| A summary the library refuses | Ends the update loop. | Ends the update loop: the refusal is thrown, not rejected. |
| Failed copy write | Ends the copy loop (both paths). | Ends the copy loop (both paths). |

## Model

| member | source | states |
|---|---|---|
| Sellers.ProductSeller | src/components/cartPage/CheckoutPage.jsx:116-118 | The seller of a product document is the first truthy field among `sellerId`, `sellerid`, `vendorId`, `vendor_id`, `sellersid`. With all five falsy it is `default_seller`. It is never empty. |
| Sellers.CodItemSeller | src/components/cartPage/CashOnDelivey.jsx:73-86 | The seller of a cash-on-delivery cart item is the first truthy field among its eight probed fields, in the page's order. With all eight falsy it is `default_seller`. It is never empty. |
| Sellers.PageSellerId | src/pages/ProductDetailPage.jsx:188 | The product page's seller lookup is the first truthy field of the same five, and absent exactly when all five are falsy. When present it is never empty. |
| Sellers.ProductSellerIsChain | src/components/cartPage/CheckoutPage.jsx:116-118 | The five-field rule equals the written-out chain `sellerId \|\| sellerid \|\| vendorId \|\| vendor_id \|\| sellersid \|\| "default_seller"` on every record. |
| Sellers.CodItemSellerIsChain | src/components/cartPage/CashOnDelivey.jsx:73-86 | The eight-field rule equals the written-out eight-step chain ending in `"default_seller"` on every record. |
| Sellers.PageSellerMatchesProductSeller | src/pages/ProductDetailPage.jsx:188 | The product page's lookup, defaulted, equals the checkout page's product seller rule. |
| Sellers.CodAgreesWithProductRule | src/components/cartPage/CashOnDelivey.jsx:73-86 | The eight-field rule and the five-field rule agree whenever `seller`, `storeId` and `merchantId` are all falsy. |
| Sellers.ProbeListsDiffer | src/components/cartPage/CashOnDelivey.jsx:73-86 | An item naming its seller only in `seller` gets that seller under the eight-field rule and `default_seller` under the five-field rule. |
| Sellers.ResolutionExamples | src/components/cartPage/CashOnDelivey.jsx:73-86 | Worked priorities: `sellerId` beats `vendorId`; `merchantId` alone is found; no field at all gives the default. |
| Cart.ResolveSku | src/components/cartPage/CheckoutPage.jsx:66-69 | The SKU is the first truthy alias among `sku`, `SKU`, `product_sku`, `skuCode`, in that order. It is never empty. It is "N/A" when all four are falsy, and that is the only way to get "N/A" without an alias holding that text. |
| Cart.ResolveSkuIsChain | src/components/cartPage/CheckoutPage.jsx:66-69 | The SKU rule equals the written-out chain `sku \|\| SKU \|\| product_sku \|\| skuCode \|\| "N/A"` on every item. |
| Cart.NormaliseAll | src/components/cartPage/CheckoutPage.jsx:66-69 | Normalising keeps the cart's length. Each line is the original with only `sku` replaced by the resolved SKU. |
| Cart.BuyNowItem | src/components/cartPage/CheckoutPage.jsx:63-81 | The "buy now" line has the passed quantity, or 1 when none is passed. It gets the resolved SKU and keeps the product's id and price. |
| Cart.FindLine | src/components/cartPage/CheckoutPage.jsx:82-84 | `find` returns the first line with the same id and SKU, or reports that none matches. |
| Cart.AbsorbIntoExisting | src/components/cartPage/CheckoutPage.jsx:82-87 | A matching line absorbs the "buy now" quantity. Only the first matching line changes, and only in its quantity. The length is unchanged. |
| Cart.AbsorbAppends | src/components/cartPage/CheckoutPage.jsx:88-90 | With no matching line, the "buy now" item is appended at the end. |
| Cart.TotalNormalise | src/components/cartPage/CheckoutPage.jsx:66-95 | SKU normalisation leaves the total unchanged. |
| Cart.TotalAfterAbsorb | src/components/cartPage/CheckoutPage.jsx:82-95 | Merging the "buy now" item raises the total by its quantity times a price. The price is the matched cart line's own price when the item is absorbed, and the item's price when it is appended. |
| Cart.MergeCart | src/components/cartPage/CheckoutPage.jsx:63-95 | Without a "buy now" product the merged cart has the cart's length and total. With one, the total grows by its quantity (1 when none is passed) times the matched line's price, or its own price when no line matches; only then is a line added. |
| Orders.MainSku | src/components/cartPage/CheckoutPage.jsx:121-130 | The main SKU of a product is `sku`, else `basesku`, else the product id. |
| Orders.FetchProductInfo | src/components/cartPage/CheckoutPage.jsx:121-167 | The SKU and seller maps share their keys. They hold exactly the stored-cart products that exist. Each entry is that product's main SKU and seller. |
| Orders.CheckoutItemSeller | src/components/cartPage/CheckoutPage.jsx:396-399 | The checkout seller of a line is the looked-up seller when non-empty, else `sellerId`, else `sellerid`, else `default_seller`. It is never empty. |
| Orders.CheckoutItemSellerIsChain | src/components/cartPage/CheckoutPage.jsx:396-399 | The checkout seller rule equals its written-out chain on every item and lookup map. |
| Orders.FetchedSellerWins | src/components/cartPage/CheckoutPage.jsx:396-399 | For a looked-up product, the product document decides the seller, even over a seller named on the cart item. |
| Orders.LineSku | src/components/cartPage/CheckoutPage.jsx:447-448 | A stored line's SKU is the looked-up main SKU when non-empty. Otherwise it is the item's SKU, with "N/A" replaced by the product id. |
| Orders.CheckoutLine | src/components/cartPage/CheckoutPage.jsx:434-470 | A checkout order line keeps id, price and quantity. Its `totalAmount` is price times quantity. Its seller is the checkout seller rule. |
| Orders.CodLine | src/components/cartPage/CashOnDelivey.jsx:197-226 | A cash-on-delivery line has price `price \|\| 0`, quantity `quantity \|\| 1` (never 0), `totalAmount` their product, and the eight-field seller, never empty. |
| Orders.CheckoutOrder | src/components/cartPage/CheckoutPage.jsx:410-473 | The order carries the requested ids, status, payment method and payment id. Its lines are the checkout lines and its total is the cart total. Its seller list is the distinct line sellers. |
| Orders.TotalIsLineSum | src/components/cartPage/CheckoutPage.jsx:434-468 | The cart total equals the sum of the stored lines' `totalAmount`. |
| Orders.CheckoutOrderTotal | src/components/cartPage/CheckoutPage.jsx:423-472 | The order's `totalAmount` equals the sum of its line totals plus the zero shipping charge. |
| Orders.CheckoutSellerIdsMatchLines | src/components/cartPage/CheckoutPage.jsx:413-415 | `sellerIds` has no duplicates. It names exactly the sellers that appear on some line. |
| Orders.CodSellerIds | src/components/cartPage/CashOnDelivey.jsx:193 | The cash-on-delivery seller list has no duplicates and no empty id. It names exactly the sellers of the cart items. |
| Orders.SelleridField | src/components/cartPage/CashOnDelivey.jsx:230 | `sellerid` is the single id when there is exactly one seller and the whole array otherwise. |
| Orders.CodOrder | src/components/cartPage/CashOnDelivey.jsx:230-254 | The cash-on-delivery order records the page's `totalPrice`, the cash-on-delivery lines and the `sellerid` field. It sets phone and name to null exactly when they are blank. |
| Orders.CodSelleridShape | src/components/cartPage/CashOnDelivey.jsx:193-230 | When every item has the same seller, `sellerid` is that seller as a scalar. |
| Orders.CodSelleridTwoSellers | src/components/cartPage/CashOnDelivey.jsx:193-230 | When two items have different sellers, `sellerid` is an array of at least two ids. |
| Grouping.GroupLinesSpec | src/components/cartPage/CheckoutPage.jsx:498-510 | Grouping makes one group per distinct seller key, in order of first appearance. Each group holds exactly that seller's lines, in order. |
| Grouping.EachLineInOneGroup | src/components/cartPage/CheckoutPage.jsx:498-510 | Every line's seller key names exactly one group. |
| Grouping.GroupsTotalIsSubtotal | src/components/cartPage/CheckoutPage.jsx:498-513 | The group subtotals add up to the subtotal of all lines. |
| Store.WriteCopiesIsPrefix | src/components/cartPage/CheckoutPage.jsx:511-533 | Writing the seller copies stops at the first rejected write. The result is exactly the copies before it, written. |
| Store.AppendCopiesContents | src/components/cartPage/CheckoutPage.jsx:511-530 | Copies for distinct sellers land one in each seller's collection, after what was there. Every other collection and document is unchanged. |
| Store.ArrayUnion | src/components/cartPage/CheckoutPage.jsx:558-563 | `arrayUnion` adds the summary once. Existing entries stay and an already present summary changes nothing. |
| Store.Applied | src/components/cartPage/CheckoutPage.jsx:558-563 | A profile update unions in the summary. It sets `totalSales` for the card path and increments it for cash on delivery. |
| Store.UpdateSellerDoc | src/components/cartPage/CheckoutPage.jsx:558-566 | `updateDoc` is rejected exactly when the seller document is missing or the write fails. Otherwise it changes only that seller's profile. |
| CheckoutFlow.Copy | src/components/cartPage/CheckoutPage.jsx:513-523 | A card seller copy holds the order, its document id, the seller's lines, the whole order's `totalAmount`, and the seller's subtotal as `sellerSubtotal`. |
| CheckoutFlow.UpdateSellers | src/components/cartPage/CheckoutPage.jsx:537-570 | The profile loop changes no order collection, creates no seller document, and leaves sellers outside the list untouched. A refused summary ends it at once. |
| CheckoutFlow.SummaryRefusedUpdatesNoSeller | src/components/cartPage/CheckoutPage.jsx:545-567 | When the client library refuses the summary (its `serverTimestamp()` inside an `arrayUnion` element), saving an order leaves every seller profile as it was. |
| CheckoutFlow.SavePaidOrder | src/components/cartPage/CheckoutPage.jsx:654-663 | After payment, a signed-in buyer's newest order document is the new one, marked "Paid" and "Razorpay" with the payment id. Otherwise nothing is stored. |
| CheckoutFlow.SaveOrderGuards | src/components/cartPage/CheckoutPage.jsx:407-492 | With nobody signed in, or with the buyer's order rejected, the store is unchanged and nothing is placed. |
| CheckoutFlow.SaveOrderKeepsBuyerOrder | src/components/cartPage/CheckoutPage.jsx:475-488 | A successful save appends the order to the buyer's collection only. It leaves the top-level `orders` collection and the set of seller documents unchanged. |
| CheckoutFlow.UpdateSellersAllSucceed | src/components/cartPage/CheckoutPage.jsx:537-570 | With a summary the library accepts and every seller document present and accepting the write, each seller gets its summary unioned in and `totalSales` set to its subtotal. |
| CheckoutFlow.UpdateSellersAbort | src/components/cartPage/CheckoutPage.jsx:537-570 | A missing or failing seller document ends the loop. That seller and every later one keep their profile. |
| CheckoutFlow.CopiesHaveDistinctSellers | src/components/cartPage/CheckoutPage.jsx:498-510 | Seller copies go to distinct sellers. Their sellers are exactly the sellers on the order's lines. |
| CheckoutFlow.CopiesHoldSellerLines | src/components/cartPage/CheckoutPage.jsx:498-513 | Each seller copy holds exactly that seller's lines, the same lines its profile summary lists. |
| CheckoutFlow.SellerSubtotalsSumToTotal | src/components/cartPage/CheckoutPage.jsx:498-513 | The sellers' subtotals add up to the order's `totalAmount`. |
| CheckoutFlow.SaveOrderWritesEveryCopy | src/components/cartPage/CheckoutPage.jsx:496-534 | With no copy write failing, every seller's collection receives exactly its copy. |
| CodFlow.Copy | src/components/cartPage/CashOnDelivey.jsx:98-119 | A cash-on-delivery seller copy holds the order, its document id and the seller's lines. Its `totalAmount` is their subtotal and it has no `sellerSubtotal`. |
| CodFlow.Bootstrap | src/components/cartPage/CashOnDelivey.jsx:154-166 | The corrected bootstrap creates an empty profile unless the write fails. It touches no order collection. |
| CodFlow.UpdateOne | src/components/cartPage/CashOnDelivey.jsx:154-177 | One seller's update as written. A seller without a document is left without one, and the store is unchanged. An existing profile gets the summary unioned in and `totalSales` incremented unless the update fails. No other seller changes. |
| CodFlow.UpdateOneCorrected | src/components/cartPage/CashOnDelivey.jsx:154-177 | The same step with a bootstrap that creates the document. The seller exists afterwards unless its creation failed, and the update starts from the existing or the new empty profile. No other seller changes. |
| CodFlow.UpdateSellers | src/components/cartPage/CashOnDelivey.jsx:131-182 | The cash-on-delivery profile loop writes no order collection. It creates and removes no seller document, and leaves unlisted sellers untouched. |
| CodFlow.SaveOrderGuards | src/components/cartPage/CashOnDelivey.jsx:186-286 | With nobody signed in, or with the buyer's order rejected, the store is unchanged and the result is a failure. |
| CodFlow.SaveOrderKeepsBuyerOrder | src/components/cartPage/CashOnDelivey.jsx:258-281 | A successful save appends the order to the buyer's collection and mirrors it into `orders` unless that write fails. It creates no seller document. It reports the document id and `sellerid`. |
| CodFlow.CopiesHaveDistinctSellers | src/components/cartPage/CashOnDelivey.jsx:91-98 | Cash-on-delivery copies go to distinct sellers. |
| CodFlow.UpdateSellersContinue | src/components/cartPage/CashOnDelivey.jsx:131-182 | With a summary the library accepts and no read failing, every non-empty seller that has a document and whose update succeeds gets its summary and sales. Earlier update failures do not stop later sellers. |
| CodFlow.UpdateSellersReadAbort | src/components/cartPage/CashOnDelivey.jsx:154-181 | A failed read of a seller document ends the loop. That seller and every later one keep their profile. |
| CodFlow.SummaryRefusedLoop | src/components/cartPage/CashOnDelivey.jsx:131-182 | When the library refuses the summary, the loop ends at the first non-empty seller and changes nothing. |
| CodFlow.SummaryRefusedUpdatesNoSeller | src/components/cartPage/CashOnDelivey.jsx:141-181 | When the library refuses the summary, saving an order leaves every seller profile as it was, although the update has its own `.catch`. |
| CodFlow.BootstrapAsWrittenLosesSummary | src/components/cartPage/CashOnDelivey.jsx:155-177 | As written, the bootstrap of a missing seller document changes nothing. The following update is then rejected, so the seller still has no document and the summary is lost. |
| CodFlow.UpdateSellersLosesNewSellers | src/components/cartPage/CashOnDelivey.jsx:131-182 | Over a whole fan-out with no failing write, a listed seller without a document still has none afterwards. |
| CodFlow.BootstrapCreatesProfile | src/components/cartPage/CashOnDelivey.jsx:155-177 | With the corrected step, a new seller's profile holds just this order's summary, with `totalSales` equal to its subtotal. |
| CodFlow.LinesOfCodKey | src/components/cartPage/CashOnDelivey.jsx:92-138 | Grouping by `sellerId \|\| default_seller` and filtering on `sellerId` select the same lines when no line has an empty seller. |
| CodFlow.SummaryMatchesCopy | src/components/cartPage/CashOnDelivey.jsx:91-146 | Each seller's profile summary lists the same lines and the same total as that seller's copy. |
| CodFlow.CodLinesSum | src/components/cartPage/CashOnDelivey.jsx:100 | The cash-on-delivery subtotal of all lines equals the cart total when no quantity is missing. |
| CodFlow.CopyTotalsSumToOrderTotal | src/components/cartPage/CashOnDelivey.jsx:98-107 | When the page's `totalPrice` is the cart total, the copies' totals add up to the order's `totalAmount`. |
| CodFlow.ConfirmOrder | src/components/cartPage/CashOnDelivey.jsx:317-320 | Confirming opens the modal unless a save is running or nobody is signed in. |
| CodFlow.FinalPlacementBusy | src/components/cartPage/CashOnDelivey.jsx:290-291 | While a save is running, placing the order again does nothing. |
| CodFlow.FinalPlacementSuccess | src/components/cartPage/CashOnDelivey.jsx:290-315 | A successful placement empties the cart and clears the flags. It moves to the confirmation page with the method, formatted total, item count, billing, items, `sellerid` and document id. |
| CodFlow.FinalPlacementFailure | src/components/cartPage/CashOnDelivey.jsx:290-315 | A failed placement keeps the cart, the screen and the store, and clears the saving flag. |
| Confirmation.ShippingFrom | src/components/cartPage/OrderConformPage.jsx:24-40 | Each shipping field is the billing field when non-empty, else its default. Without billing details every field is the default. |
| Confirmation.ShippingNeverBlank | src/components/cartPage/OrderConformPage.jsx:24-40 | No shipping field shown on the confirmation is ever empty. |
| Confirmation.DeliveryDays | src/components/cartPage/OrderConformPage.jsx:49 | The delivery estimate is 3 or 4 days; 3 exactly when the random draw is below one half. |
| Confirmation.NewEntry | src/components/cartPage/OrderConformPage.jsx:73-85 | A history entry carries the order id, method, item count, shipping, `sellerid` and products. Its `total` is `Number(total)` and its formatted total formats `Number(total \|\| 0)`. |
| Confirmation.NumberOfText | src/components/cartPage/OrderConformPage.jsx:77 | The model decides `Number` of text in three cases. It is `NaN` when the text holds a character no numeric string can hold. Empty text is 0, and plain digits are their decimal value. Any other text stays unevaluated, keeping the text. |
| Confirmation.CurrencyInput | src/components/cartPage/OrderConformPage.jsx:61-67 | The formatter is given 0 for an empty or zero total, and `Number(total)` otherwise. |
| Confirmation.NumberOfRenderedInt | src/components/cartPage/OrderConformPage.jsx:77 | The decimal rendering of a whole number reads back as that number. |
| Confirmation.FormattedTotalIsNaN | src/components/cartPage/OrderConformPage.jsx:73-85 | A total handed over as rupee-formatted text is cached as `NaN` and formatted as the formatter's `NaN`. |
| Confirmation.NumericTotalKept | src/components/cartPage/OrderConformPage.jsx:73-85 | A total handed over as a number, or as its plain decimal text, is cached and formatted as that amount. |
| Confirmation.ItemsCount | src/components/cartPage/OrderConformPage.jsx:80 | The item count is the passed count, else the number of cart items. |
| Confirmation.Record | src/components/cartPage/OrderConformPage.jsx:88-97 | A new id is put first and the cache is otherwise unchanged. A known id changes nothing. |
| Confirmation.OnArrival | src/components/cartPage/OrderConformPage.jsx:73 | Without a truthy payment method and a defined total, the cache is left alone. |
| Confirmation.RecordTwice | src/components/cartPage/OrderConformPage.jsx:88-97 | Recording is idempotent. After recording a new order, its id occurs exactly once. |
| Confirmation.RecordKeepsIdsUnique | src/components/cartPage/OrderConformPage.jsx:88-97 | Recording keeps the cache's ids pairwise distinct. |
| Confirmation.SellerText | src/components/cartPage/OrderConformPage.jsx:127 | The receipt shows an array of sellers joined by ", ", a single seller as itself, and "N/A" when none is given. |
| Confirmation.Receipt | src/components/cartPage/OrderConformPage.jsx:120-134 | The receipt has ten fixed lines, then one line per item, or a placeholder when there are none. |
| Confirmation.ItemLineDefaults | src/components/cartPage/OrderConformPage.jsx:132 | An item without a quantity is shown as "x1" and priced at one unit. |
| OrderView.MapOrder | src/components/cartPage/ViewOrderDetails.jsx:17-48 | The list entry has the document id and the status or "Processing". It has the date or "N/A", the total or 0, the payment method or "N/A", and one item per stored line. Shipping name, address and phone are the truthy field or "N/A". Coordinates are kept when non-zero and null otherwise. |
| OrderView.MapOrderDefaults | src/components/cartPage/ViewOrderDetails.jsx:17-48 | An empty document maps to the defaults throughout. |
| OrderView.MapStoredOrder | src/components/cartPage/ViewOrderDetails.jsx:17-48 | An order saved by a checkout reads back with its status, total, method and address. Each item has the same name, quantity and price. |
| ProductPage.FetchReviewStats | src/pages/ProductDetailPage.jsx:270-283 | The statistics count the reviews and sum their ratings. Each star bucket counts the ratings equal to it. The average is the sum over the count, or 0 without reviews. |
| ProductPage.DistributionCountsInRange | src/pages/ProductDetailPage.jsx:274-280 | The five buckets together count exactly the ratings in 1..5. That equals the number of reviews exactly when every rating is in range. |
| ProductPage.AverageWithinStars | src/pages/ProductDetailPage.jsx:270-282 | When every rating is in 1..5, the average lies in [1, 5]. |
| ProductPage.RankLeIsTotalPreorder | src/pages/ProductDetailPage.jsx:387-399 | The size comparator is a total preorder. |
| ProductPage.SortedVariantsPermutation | src/pages/ProductDetailPage.jsx:387-399 | Sorting the variants keeps exactly the same variants. |
| ProductPage.SortedVariantsOrdered | src/pages/ProductDetailPage.jsx:387-399 | Known sizes come in S < M < L < XL < XXL < XXXL order, ahead of every unknown size. |
| ProductPage.SortedVariantsStable | src/pages/ProductDetailPage.jsx:387-399 | Variants of equal rank keep their relative order. |
| ProductPage.SizeRankIgnoresCase | src/pages/ProductDetailPage.jsx:388-396 | Every size ranks as its upper-case spelling does, so sizes are ranked case-insensitively. |
| ProductPage.UpperAsciiIdempotent | src/pages/ProductDetailPage.jsx:395-396 | Upper-casing an upper-cased size changes nothing. |
| ProductPage.SizeRankExamples | src/pages/ProductDetailPage.jsx:388-396 | "xl" and "XL" both rank fourth; "Free" is unranked. |
| ProductPage.CurrentVariant | src/pages/ProductDetailPage.jsx:372-375 | The current variant is the first variant of the selected size, as `find` returns it. It exists whenever some variant has that size and the selection is real, and is absent without a real selection. |
| ProductPage.FindSize | src/pages/ProductDetailPage.jsx:405 | `find` by size gives the first variant whose size equals the argument, a missing size included, and nothing exactly when none has it. |
| ProductPage.UnitPrice | src/pages/ProductDetailPage.jsx:377-381 | The price is the variant's when non-zero, else the product's, else 0 without a product. |
| ProductPage.MaxStock | src/pages/ProductDetailPage.jsx:418 | The stock bound is the current variant's stock when there are variants and the product's stock otherwise. It is unbounded (`Infinity`) when that is missing or 0, and with variants but no current variant. |
| ProductPage.Increment | src/pages/ProductDetailPage.jsx:417-429 | The increment is refused at or above the stock bound and adds one otherwise. |
| ProductPage.TypedQuantity | src/pages/ProductDetailPage.jsx:432-445 | A typed quantity is at least 1 and at most the stock. It is the typed value unless that exceeds the stock. |
| ProductPage.IncrementStaysWithinStock | src/pages/ProductDetailPage.jsx:417-429 | Incrementing never takes the quantity above the stock. |
| ProductPage.IncrementWithinPageStock | src/pages/ProductDetailPage.jsx:417-429 | With the page's own bound, stepping up from within the current variant's (or the product's) stock stays within it, and always succeeds when no stock is set. |
| ProductPage.TypedQuantityWithinPageStock | src/pages/ProductDetailPage.jsx:432-445 | With the page's own bound, a typed quantity stays within the current variant's (or the product's) stock, and is the typed value, at least 1, when no stock is set. |
| ProductPage.Decrement | src/pages/ProductDetailPage.jsx:729 | `Math.max(1, q - 1)`: from above 1 the quantity steps down by one, and otherwise it becomes 1. It is never below 1. |
| ProductPage.SelectSizeWithinStock | src/pages/ProductDetailPage.jsx:401-414 | After choosing a size whose first variant has stock, the quantity is within that stock. |
| ProductPage.SelectSize | src/pages/ProductDetailPage.jsx:401-414 | Choosing a size selects it. The quantity changes exactly when it is not 1 and exceeds the stock of the first variant of that size; it then becomes 1. A size-less variant's button passes a missing size, which finds that variant. |
| ProductPage.SelectSizeFirstVariantExample | src/pages/ProductDetailPage.jsx:401-414 | With two "M" variants only the first one's stock decides the reset; a size-less variant with stock 2 resets a quantity of 3. |
| ProductPage.AddToCart | src/pages/ProductDetailPage.jsx:447-500 | Add-to-cart accepts exactly when the first guard passes and, with variants, the current variant exists and is in stock, or, without them, the product is. Each refusal has its reason. The line has the product id, the chosen quantity and size, the shown price, the line seller, and the title with or without the size. |
| ProductPage.BuyNowClick | src/pages/ProductDetailPage.jsx:502-549 | Buy now is refused exactly when the first guard fails, when a current variant is out of stock, or when a product without variants is. Otherwise it carries the line add-to-cart would build, to checkout when signed in and to the login otherwise. |
| ProductPage.AddToCartImpliesBuyNow | src/pages/ProductDetailPage.jsx:447-549 | Whatever add-to-cart accepts, buy now lets through with the same line. Whatever buy now refuses, add-to-cart refuses for the same reason. |
| ProductPage.NameOrTitle | src/pages/ProductDetailPage.jsx:477 | The line title is the name when truthy, and otherwise the title as it is, empty or missing. |
| ProductPage.LineSeller | src/pages/ProductDetailPage.jsx:491 | The line seller is the fetched seller's id when truthy, else the product's `sellerId` when truthy, else `default_seller`. |
| ProductPage.MakeLine | src/pages/ProductDetailPage.jsx:457-492 | The line carries the product id, quantity, size and seller. With variants it has the size in its title and the current variant; without them, the bare title and no variant. |
| ProductPage.BuyNowSkipsVariantCheck | src/pages/ProductDetailPage.jsx:447-549 | With a selection that matches no variant, add-to-cart refuses, but buy now proceeds at the product's base price. |
| ProductPage.LineSellerMatchesProductRule | src/pages/ProductDetailPage.jsx:491 | The seller put on the cart line agrees with the checkout page's product seller rule. |
| ProductPage.CategoryProducts | src/pages/ProductDetailPage.jsx:344-369 | The similar products are exactly the category's other products, priced at the exchange rate, with rating 4 when missing. None is the product being viewed. |
| ProductPage.CategoryProductsAppend | src/pages/ProductDetailPage.jsx:344-369 | Dropping the viewed product works document by document: the result for a concatenation is the concatenation of the results, so the fetched order is kept. |
| ProductPage.CategoryProductsSingle | src/pages/ProductDetailPage.jsx:344-369 | A single document is kept, converted, exactly when it is not the viewed product. |
| ProductPage.WithinPrice | src/pages/ProductDetailPage.jsx:605 | The price filter keeps exactly the products at or below the limit. |
| ProductPage.WithinPriceAppend | src/pages/ProductDetailPage.jsx:605 | The price filter works product by product and keeps the list's order. |
| ProductPage.WithinPriceSingle | src/pages/ProductDetailPage.jsx:605 | A single product is kept exactly when its price is within the limit. |
| ProductPage.FilteredAndSortedSpec | src/pages/ProductDetailPage.jsx:603-621 | The list keeps exactly the products within the price filter and orders them by the chosen key. Ties keep their order. |
| ProductPage.SimilarExcludesCurrent | src/pages/ProductDetailPage.jsx:603-621 | The product being viewed never appears among the similar products. |
| Footwear.ExtractColor | src/components/category/Footwears.jsx:16-20 | The colour is the leftmost `color:` match's letter run, or "N/A" without a description or a match. |
| Footwear.FirstMatch | src/components/category/Footwears.jsx:18 | The search finds nothing exactly when no position matches. A found colour is the capture at some matching position with no match before it. |
| Footwear.ExtractColorShape | src/components/category/Footwears.jsx:16-20 | An extracted colour is either "N/A" or a non-empty run of ASCII letters. |
| Footwear.ExtractColorExample | src/components/category/Footwears.jsx:16-20 | "COLOR:  Navy-blue" gives "Navy"; "colour: red" gives "N/A". |
| Footwear.ProductColor | src/components/category/Footwears.jsx:24-25 | A product's own colour wins over the one extracted from the description. |
| Footwear.InitialLoad | src/components/category/Footwears.jsx:109-137 | The first page replaces the list. A short page ends paging. Loading stops either way. |
| Footwear.LoadMore | src/components/category/Footwears.jsx:142-174 | A further load does nothing without a cursor, while one is running, or once paging has ended; a failed query changes nothing. The list only grows, and ended paging stays ended. |
| Footwear.LoadMoreAppends | src/components/category/Footwears.jsx:142-174 | A further page is appended. An empty page ends paging. |
| Footwear.LoadPagesInvariant | src/components/category/Footwears.jsx:109-174 | Across any sequence of loads the cursor stays the last loaded product. The list only grows, and paging, once ended, stays ended. |

## Left out

- Firestore is a map of collections with a failure set. Server timestamps, `createdAt`, `updatedAt` and `lastOrderDate` are omitted.
- Store.ArrayUnion: a summary carries `orderDate: serverTimestamp()` inside the array element. The client library refuses that while it reads the data and throws before any request. The model does not decide the refusal. It is the `RefuseSummary` entry of the failure set. With it, both loops end at the first seller whose update is reached (`SummaryRefusedUpdatesNoSeller` in both flows). Without it, the summary is accepted.
- Authentication listeners are reduced to a signed-in user id, or `""` for none.
- Loading the Razorpay script, reverse geocoding and geolocation are left out. They are foreign services.
- `handlePayment` is left out: form validation, routing to the cash-on-delivery page, and building the payment request in paise.
- `saveBillingDetails` and `fetchUserData` are left out. They read and write the user profile, not the order.
- Floating point is left out: `toFixed`, `Math.round(totalPrice * 100)`, the 1.5× "original price" and the discount percentage.
- Ratings are integers. A fractional rating would go to a non-existent bucket in the source.
- Locale formatting (`toLocaleString`, `Intl.NumberFormat`) is the `fmt` and `date` parameters.
- Confirmation.NumberOfText: text such as "abc", "1-2" or "Inf" is `NaN` in JavaScript although each of its characters can occur in a numeric string; the model leaves it `Unevaluated` rather than decide JavaScript's numeric-string grammar.
- Confirmation.NewEntry: `Number` of text is only evaluated for empty text, plain decimal digits, and text holding a character no numeric string holds (`NaN`). Signs, points, exponents, radix prefixes and surrounding white space give `Unevaluated`.
- The model assumes `Object.entries` returns sellers in first-appearance order. JavaScript lists integer-like keys first.
- ProductPage.NameAsc: `localeCompare` is modelled as code-unit lexicographic order.
- ProductPage.SizeRank: `toUpperCase` is modelled on ASCII letters only.
- ProductPage.VariantTitle: a template renders both `null` and `undefined` in its own way; a missing name and title are rendered as "undefined" only.
- CodFlow.UpdateOne: the model follows the page as written, where a seller without a document never gets one. The creating step is kept apart as `CodFlow.UpdateOneCorrected`.
- Product fields that are only passed through are dropped: images, size variants, brand, category, colour and size on a stored line.
- Cart.Total: a line with no price or no quantity makes the source's `item.price * item.quantity`, and so the total, `NaN`. Here a missing price or quantity is 0.
- The product page's seller lookup keeps only the seller id, not the other seller profile fields.
- UI state is left out: toasts, modals, scrolling, spinners, and the stale `latitude`/`longitude` closure in the checkout page.
- The local history cache is a sequence of entries. JSON (de)serialisation and the receipt download `Blob` are not modelled.
- Review submission and the review modal are left out. They write reviews, not orders.
- The footer, privacy policy and return policy pages are static content.

## Findings

| source | as written | input that shows it | evidently intended | confidence | as-written member | corrected member |
|---|---|---|---|---|---|---|
| src/components/cartPage/CashOnDelivey.jsx:155-166 | The "create minimal if missing" step calls `updateDoc` on a seller document that does not exist. `updateDoc` rejects a missing document, the rejection is swallowed, and the following `updateDoc` is rejected for the same reason. | A cash-on-delivery order for a seller with no `sellers/{id}` document and no failing write. The seller gets no summary and no sales. | Create the document first (`setDoc`, or `setDoc` with `merge`) so that the summary and sales are recorded. | medium; relies on `updateDoc` rejecting missing documents; not executed | CodFlow.BootstrapAsWrittenLosesSummary | CodFlow.BootstrapCreatesProfile |
| src/components/cartPage/CheckoutPage.jsx:545-567 | The seller summary puts `orderDate: serverTimestamp()` inside the `arrayUnion` element. The client library refuses server timestamps inside arrays and throws while reading the data. The `try` around the loop catches the throw and ends it at the first seller. | Any card order with at least one seller. No seller profile receives a summary or a `totalSales` value. | A summary without a server timestamp (a client-side date), so that each seller's profile is updated. | medium; relies on the client library's refusal of server timestamps inside arrays; not executed | CheckoutFlow.SummaryRefusedUpdatesNoSeller | CheckoutFlow.UpdateSellersAllSucceed |
| src/components/cartPage/CashOnDelivey.jsx:141-181 | The same summary is written here. The refusal is thrown before the promise exists, so the update's own `.catch` never sees it. The outer `try` ends the loop at the first non-empty seller. | Any cash-on-delivery order with a non-empty seller id. No seller profile receives a summary or sales. | A summary without a server timestamp, so that each seller's profile is updated and the loop goes on past rejected updates. | medium; relies on the client library's refusal of server timestamps inside arrays; not executed | CodFlow.SummaryRefusedUpdatesNoSeller | CodFlow.UpdateSellersContinue |
| src/components/cartPage/OrderConformPage.jsx:73-85 | The cached `total` is `Number(total)`. The cash-on-delivery page hands `total` over as rupee-formatted text (CashOnDelivey.jsx:305). `Number` of that text is `NaN`, and the formatter then renders `NaN`. | Any cash-on-delivery order, whose total arrives as text starting with the rupee sign. The history entry's total is `NaN`. | Hand over the numeric total, or parse the text, so that the history and the page show the order's amount. | high; not executed | Confirmation.FormattedTotalIsNaN | Confirmation.NumericTotalKept |
