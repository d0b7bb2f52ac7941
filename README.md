# Marketplace inventory ledger and order flow, modelled in Dafny

This project models the server side of a multi-seller shop: an Express
application on MongoDB where sellers list products with variations,
customers fill carts and place cash or card (Paymob) orders, couriers
deliver them, and admins run seller applications, privacy policies,
notifications, storefront placements and sales statistics.

The primary core is the inventory ledger of a product (`quantity`,
`reservedStock`, `sold`, the low-stock threshold and the append-only
stock and price histories), the variation catalogue, the cart, and the
order flow that reads and changes them. The secondary cores are the
small state machines and "at most one" rules around them:
- the seller-application lifecycle;
- seller-profile provisioning;
- one default payment method per user;
- one active privacy policy;
- one active sales target per seller;
- one social-links record;
- customer links;
- notification targeting;
- the bulk product import;
- the statistics folds;
- the schema validators of banners, ads, featured products and social links.

## How the model is built

- Each Mongoose model becomes a record `datatype`, and its collection a
  `seq` or `map` held by a small store class. `Load`, `Save`, `Create`
  and `Delete` change that field and say exactly what the new collection is.
- A live document that a handler changes field by field is a `class`
  built from its record (`Product`, `Cart`, `Order`, `Profile`). The
  ledger methods `Reserve`, `Release` and `Consume` and the pre-save
  derivations work in place on it, and `Save` writes it back.
- Each handler is a `method`. It is proved equal to a request function
  that states the expected answer and the expected new state. Lemmas
  about those functions state the rules the code promises: rejections,
  what changes and what is untouched, invariants kept, and round trips.
- Loops in the source (`forEach` totals, the province dictionary, the
  SKU retry loop, the bulk-add and generate loops, the import loop)
  are `while`/`for` loops with invariants. Each is tied to a
  recursive specification function.
- Money is exact: integer prices and percentages, and `real` where the
  source divides (taxes, averages, progress). The rounding rules are
  written out: `ceil(x / 5) * 5` for cart totals and
  `ceil(price * (100 - d) / 100)` for the price after discount.
- Clocks, random SKU candidates, the slug library, settings (tax
  percentage, shipping) and the Paymob payload are parameters.

## Where the model follows the code rather than the description

- A 20% coupon on a cart of 40 gives 35, not 32. The coupon total is
  rounded up to a multiple of 5 (`CartController.TwentyPercentOfForty`).
- A cash order's `cartPrice` adds up unit prices and ignores quantity
  (controller/orderController.js:23-25). The cart total does multiply by
  quantity.
- Orders never call the ledger methods. Both order paths lower
  `quantity` and raise `sold` directly, without an availability check.
- The release endpoint refuses to release more than is reserved, while
  the product method clamps at zero
  (`InventoryController.OverReleaseEndpointRefusesMethodClamps`).
- Cart lines never store `color` or `size`: the cart schema does not
  declare them, and strict mode drops them. A line without a variation
  id therefore merges only with a request that gives neither.
- `findVariation`, `getLowStockVariations` and the `variations`
  container are not defined in the product model. Variations are a
  sequence of records with an option map, color and size are two of its
  keys, and `findVariation` is an exact, case-sensitive match.
- `updateMyApplication` passes the whole body to the update, so an
  applicant can set their own status to approved. After that the
  seller-profile provisioning opens a profile
  (`SellerApplicationController.SelfApprovalOpensProfile`).
- A `last4` such as "-123" passes the controller's numeric check but not
  the schema (`PaymentMethodController.SignedLast4Refused`).
- Removing a cart line when the user has no cart is a server error,
  because the error's message and status arguments are swapped.
- Nine copies of one product pass the featured-products hook, but the
  handler refuses them: looking up nine equal ids finds one product
  (`FeaturedAdmin.SetFeaturedRules`).
- A paid order carries no shipping address. The credit-order path builds
  one from the provider's data, but the order schema has no such path and
  strict mode drops it (`OrderController.CreditOrderRequest`).
- `createCustomer` builds the new user's name as `firstName + " " +
  lastName`. Each name may be 30 characters, but the user schema allows 30
  for the joined name, so a longer one is refused
  (`CustomerController.CreateCustomerRules`). The email is looked up
  lower-cased, as the schema stores it.
- The seller's order update compares product ids with populated product
  documents, so as written it never applies (see Findings).

## Model

| member | source | states |
|---|---|---|
| ProductModel.AvailableStock | models/productModel.js:201-203 | the `availableStock` virtual is never negative, is at least quantity − reservedStock, and equals it unless it is 0 |
| ProductModel.DiscountedPrice | models/productModel.js:189-193 | the discounted price is the exact ceiling of price·(100 − discount)/100 |
| ProductModel.DiscountedPriceBounds | models/productModel.js:189-193 | a discount in 0..100 gives a discounted price between 0 and the price, and 0% keeps the price |
| ProductModel.PreSave | models/productModel.js:188-198 | the hook changes only priceAfterDiscount and isLowStock; isLowStock ⇔ quantity − reservedStock ≤ threshold (unclamped); the price is re-derived only when price or discount is nonzero |
| ProductModel.PreSaveIdempotent | models/productModel.js:188-198 | running the pre-save derivations twice gives the same document as once |
| ProductModel.AddPriceEntry | models/productModel.js:206-216 | appends exactly one price entry holding the given price, discount and ceiled discounted price; earlier entries and other fields unchanged |
| ProductModel.AddStockEntry | models/productModel.js:219-228 | appends exactly one stock entry with the given type, quantity, order, notes and actor; nothing else changes |
| ProductModel.Reserve | models/productModel.js:231-238 | refused exactly when available stock < q; otherwise reservedStock grows by q, one "reserved" entry of q is appended, nothing else changes, and 0 ≤ reservedStock ≤ quantity is preserved |
| ProductModel.Release | models/productModel.js:241-245 | never refused; reservedStock becomes max(0, reservedStock − q); the "released" entry logs the requested q, not the clamped amount; the bound is preserved |
| ProductModel.Consume | models/productModel.js:248-256 | refused exactly when reservedStock < q; otherwise quantity and reservedStock both drop by q, `sold` is untouched, a "sale" entry carries the order id, and the bound is preserved |
| ProductModel.ReserveThenRelease | models/productModel.js:231-245 | reserve(q) then release(q) restores reservedStock, leaves quantity and sold alone and logs both moves in order |
| ProductModel.ReserveThenConsume | models/productModel.js:231-256 | reserve(q) then consume(q) always succeeds, restores reservedStock and lowers quantity by q without touching sold |
| ProductModel.Product.RunPreSave | models/productModel.js:188-198 | the live document after the hook is the pre-save derivation of the document before it |
| ProductModel.Product.AddPriceHistory | models/productModel.js:206-216 | the live document gains exactly the one price entry of AddPriceEntry |
| ProductModel.Product.AddStockHistory | models/productModel.js:219-228 | the live document gains exactly the one stock entry of AddStockEntry |
| ProductModel.Product.ReserveStock | models/productModel.js:231-238 | in place: succeeds iff Reserve succeeds and then equals its result; on failure (a thrown error) nothing changed |
| ProductModel.Product.ReleaseStock | models/productModel.js:241-245 | in place: the document becomes the clamped Release of the old one |
| ProductModel.Product.ConsumeStock | models/productModel.js:248-256 | in place: succeeds iff Consume succeeds and then equals its result; on failure nothing changed |
| ProductModel.ProductStore.Save | models/productModel.js:9-125 | `save()` validates the schema bounds first (quantity ≥ 1, price ≤ 250000, discount in 0..100, reservedStock ≥ 0, threshold ≥ 0, required fields): an invalid document leaves the collection unchanged; a valid one is stored after the pre-save hook |
| ProductModel.ProductStore.IncStock | controller/orderController.js:43-52 | one `$inc` update: the named product's quantity and sold move by the given deltas with no validation; other products and an unknown id are untouched |
| ProductModel.Product.FromDoc | controller/inventoryController.js:15 | a loaded document object carries exactly the stored fields |
| ProductModel.Product.Available | models/productModel.js:201-203 | the object's `availableStock` is the virtual computed from its quantity and reserved stock |
| ProductModel.Product.SetQuantity | controller/inventoryController.js:20-28 | `product.quantity = n` changes only the quantity |
| ProductModel.Product.SetReservedStock | controller/inventoryController.js:262 | `product.reservedStock = n` changes only the reserved stock |
| ProductModel.Product.SetLowStock | controller/inventoryController.js:63-65 | writes the threshold and the low-stock flag and nothing else |
| ProductModel.Product.SetPricing | controller/inventoryController.js:227-228 | writes the price and the discount percentage and nothing else |
| ProductModel.Product.MarkVariations | controller/variationController.js:45 | writes `hasVariations` and nothing else |
| ProductModel.Product.SetAxes | controller/variationController.js:604-605 | writes the variation axes and nothing else |
| ProductModel.Product.SetVariations | controller/variationController.js:186 | replaces the variation list and nothing else |
| ProductModel.Product.PushVariation | controller/variationController.js:33-43 | appends the variation, allots the next embedded id and changes nothing else |
| ProductModel.Product.IncludeOptions | controller/variationController.js:25-30 | adds the color and the size to the product's lists when missing and changes nothing else |
| ProductModel.ProductStore.constructor | models/productModel.js:7-10 | the store holds the given documents |
| ProductModel.ProductStore.Load | controller/inventoryController.js:248 | `findById`: null iff no document has the id, otherwise a fresh object equal to the stored document |
| ProductModel.ProductStore.LoadOwned | controller/inventoryController.js:15 | `findOne({_id, seller})`: null iff no document has the id and that seller, otherwise a fresh object equal to it |
| InventoryController.AdjustRequest | controller/inventoryController.js:9-31 | "add" raises quantity by q and logs a "purchase" of q; "subtract" is refused iff quantity < q, else lowers quantity by q and logs an "adjustment" of positive q; any other type is refused; unowned product → 404; nothing else changes |
| InventoryController.AdjustStock | controller/inventoryController.js:9-45 | the handler stores exactly the document AdjustRequest describes (after validation and the hook), or leaves the collection unchanged on refusal or invalid save |
| InventoryController.AddThenSubtract | controller/inventoryController.js:20-28 | adding q then subtracting q restores quantity and logs a purchase then an adjustment |
| InventoryController.SubtractAllIsRejected | controller/inventoryController.js:23-33 | subtracting the whole stock passes the handler's check but the resulting quantity 0 fails the schema minimum on save |
| InventoryController.ThresholdRequest | controller/inventoryController.js:48-65 | a negative threshold is refused before any lookup; otherwise the threshold is stored and isLowStock = (quantity − reservedStock ≤ threshold) |
| InventoryController.SetLowStockThreshold | controller/inventoryController.js:48-77 | the handler stores exactly the document ThresholdRequest describes, or changes nothing |
| InventoryController.PriceRequest | controller/inventoryController.js:211-230 | a price entry is appended iff price or the raw discount differs from the stored one; price and the discount (0 when absent) are stored; nothing else changes |
| InventoryController.UpdateProductPrice | controller/inventoryController.js:211-241 | the handler stores exactly the document PriceRequest describes, or changes nothing |
| InventoryController.PriceEntryMatchesSaved | controller/inventoryController.js:222-230 | the logged discounted price equals the saved one, except when price and discount are both 0, where the entry says 0 and the hook keeps the old value |
| InventoryController.OmittedDiscountIsLogged | controller/inventoryController.js:223-228 | resubmitting the same price without a discount still appends a price entry |
| InventoryController.ReserveRequest | controller/inventoryController.js:244-263 | unknown product → 404; refused iff available stock < q; otherwise reservedStock += q and one "reserved" entry signed by the caller is appended |
| InventoryController.ReserveProductStock | controller/inventoryController.js:244-274 | the handler stores exactly the document ReserveRequest describes, or changes nothing |
| InventoryController.ReleaseRequest | controller/inventoryController.js:277-296 | unknown product → 404; refused iff reservedStock < q (strict, not clamped); otherwise reservedStock −= q (never negative) and one "released" entry is appended |
| InventoryController.ReleaseProductStock | controller/inventoryController.js:277-307 | the handler stores exactly the document ReleaseRequest describes, or changes nothing |
| InventoryController.ReserveThenReleaseRequests | controller/inventoryController.js:253-296 | releasing what the endpoint just reserved is accepted and restores reservedStock and quantity |
| InventoryController.OverReleaseEndpointRefusesMethodClamps | controller/inventoryController.js:286-293 | an over-release is refused with 400 by the endpoint, while the document method clamps reservedStock to 0 |
| InventoryController.PagedHistory | controller/inventoryController.js:121-137 | page and limit default to 1 and 10; for page, limit ≥ 1 the results are exactly the window of the newest-first history from (page − 1)·limit on, `limit` entries long or cut short by the end; they are sorted and drawn from the history; totalRecords is the history length and numberOfPages = ceil(length/limit); for every page and limit, including a negative page, the results are Page of the newest-first history |
| InventoryController.NegativePageCountsFromEnd | controller/inventoryController.js:122-127 | page −1 is not refused: it answers the window of `limit` entries starting 2·limit before the end of the newest-first history |
| InventoryController.StockHistory | controller/inventoryController.js:111-139 | a failed seller lookup is passed on, an unowned product → 404; otherwise the answer is PagedHistory of that product's own stock history, with its full length as total |
| InventoryController.PriceHistory | controller/inventoryController.js:142-170 | a failed seller lookup is passed on, an unowned product → 404; otherwise the answer is PagedHistory of that product's own price history, with its full length as total |
| InventoryController.LowStockProducts | controller/inventoryController.js:80-84 | exactly the caller's products whose stored isLowStock flag is set |
| InventoryController.InventoryDashboard | controller/inventoryController.js:173-208 | over exactly the products whose seller is the caller's profile: totals are the sums of quantity and reservedStock, totalAvailableStock is their difference, lowStockCount counts flagged products, outOfStockCount counts quantity 0, and the three values are the price-weighted sums with available = total − reserved |
| InventoryController.SellerProducts | controller/inventoryController.js:176 | `find({ seller })` keeps exactly the products of that seller |
| VariationController.FindVariation | controller/variationController.js:19 | the assumed `findVariation`: none iff no variation has exactly that option map; otherwise the first index whose map is exactly it |
| VariationController.FindVariationById | controller/variationController.js:145-148 | `variations.id(vid)`: none iff no variation has that id; otherwise an index holding it |
| VariationController.HasAppend | controller/variationController.js:33-43 | after appending a variation, a combination exists iff it existed before or is the appended one |
| VariationController.AddedVariationDefaults | controller/variationController.js:33-43 | with an empty body the new variation has sku = upper-case "<productSku>-<color>-<size>", the product's price and discount, quantity 0, threshold 5, the cover image, and is active |
| VariationController.AddRequest | controller/variationController.js:8-46 | unowned product → 404; refused with 400 iff the color/size pair already exists; otherwise colors and sizes gain the value only if absent, exactly one variation is appended, hasVariations becomes true and nothing else changes |
| VariationController.AddVariation | controller/variationController.js:8-53 | the handler stores exactly the document AddRequest describes, or changes nothing |
| VariationController.AddThenAddAgain | controller/variationController.js:18-43 | after a successful add the pair is found at the end of the list and the same add a second time is refused |
| VariationController.BulkStep | controller/variationController.js:313-341 | one pair lands in exactly one of added/skipped, existing variations are kept, and the pair exists afterwards |
| VariationController.BulkRequest | controller/variationController.js:293-345 | unowned product → 404; refused iff colors or sizes is empty; otherwise every pair is visited and hasVariations becomes true |
| VariationController.BulkAddVariations | controller/variationController.js:293-357 | the handler stores the document BulkRequest describes and answers its added and skipped lists, or changes nothing |
| VariationController.BulkAll | controller/variationController.js:311-343 | the nested loops over colors and sizes compute exactly the fold of BulkStep over every pair, color by color |
| VariationController.BulkSizesCovers | controller/variationController.js:312-342 | for one color: every size lands in one list, variations only grow by the added ones, and every pair of that color exists afterwards |
| VariationController.BulkColorsCovers | controller/variationController.js:311-343 | over all colors: labels grow by #colors·#sizes, variations grow by exactly the added ones, and every color×size pair exists afterwards |
| VariationController.BulkAccounting | controller/variationController.js:303-343 | after a successful bulk add, #added + #skipped = #colors·#sizes, the product gained exactly #added variations, and every pair exists |
| VariationController.Extend | controller/variationController.js:527-529 | one `flatMap`/`map` step yields #acc·#values tuples |
| VariationController.Cartesian | controller/variationController.js:522-532 | the Cartesian helper yields as many tuples as the product of the list lengths |
| VariationController.ExtendMembers | controller/variationController.js:527-529 | a tuple comes out of one step iff its prefix was in the accumulator and its last value in the list |
| VariationController.CartesianMembers | controller/variationController.js:522-532 | a sequence is produced iff it picks, position by position, one value of each list |
| VariationController.OptionsOf | controller/variationController.js:533-539 | the option map of a tuple has exactly the input keys, each mapped to the tuple's value at its position |
| VariationController.OverridePrice | controller/variationController.js:558-565 | the price is the override of the first option value that has a truthy override, else the default price |
| VariationController.PickPrice | controller/variationController.js:559-565 | the loop with `break` computes exactly OverridePrice |
| VariationController.GenStep | controller/variationController.js:548-585 | one combination lands in exactly one of added/skipped, variations only grow by the added one, and the combination exists afterwards |
| VariationController.CartesianFits | controller/variationController.js:522-542 | every generated tuple has one value per axis key |
| VariationController.GenerateRequest | controller/variationController.js:498-607 | unowned product → 404; refused iff axes is empty, combinations is missing or defaultPrice is falsy; otherwise hasVariations is set and the axes are stored |
| VariationController.GenerateRequestOk | controller/variationController.js:509-607 | a well-formed request resolves to the fold over the whole Cartesian product, with hasVariations and axes set |
| VariationController.GenerateCombinations | controller/variationController.js:498-621 | the handler stores the document GenerateRequest describes and answers its added and skipped lists, or changes nothing |
| VariationController.GenerateAll | controller/variationController.js:547-603 | the loop over all combinations computes exactly the fold of GenStep |
| VariationController.GenerateOne | controller/variationController.js:548-585 | one iteration: an existing map is skipped; otherwise the variation with the generated SKU, override price, default quantity, threshold 5 and active flag is appended |
| VariationController.GeneratedSku | controller/variationController.js:568 | the sku starts with the product sku and "-", and the rest holds no white space and no lower-case ASCII letter |
| VariationController.GenFoldCounts | controller/variationController.js:547-603 | every combination adds one label and variations grow by exactly the added ones |
| VariationController.GenFoldCovers | controller/variationController.js:547-603 | after the loop every combination has a variation |
| VariationController.GenerateAccounting | controller/variationController.js:542-607 | after a successful generation, #added + #skipped = product of the value-list lengths, the product gained exactly #added variations, and every tuple exists |
| VariationController.Patched | controller/variationController.js:151-156 | each of the six allowed fields (price, discountPercentage, quantity, lowStockThreshold, image, isActive) is replaced when present (0, "" and false included) and kept when absent; id, options, sku, reservedStock and priceAfterDiscount are never touched |
| VariationController.PatchLaws | controller/variationController.js:151-156 | an empty patch changes nothing and applying the same patch twice equals applying it once |
| VariationController.UpdateRequest | controller/variationController.js:135-158 | unowned product or unknown variation → 404; otherwise only the addressed variation is patched |
| VariationController.UpdateVariation | controller/variationController.js:135-165 | the handler stores exactly the document UpdateRequest describes, or changes nothing |
| VariationController.DeleteRequest | controller/variationController.js:170-193 | unowned product or unknown variation → 404; otherwise exactly the variations with that id are removed, and hasVariations is cleared when none remain |
| VariationController.WithoutId | controller/variationController.js:186 | `pull` keeps exactly the variations with another id and removes at least one when the id is present |
| VariationController.WithoutIdAppend | controller/variationController.js:186 | the pull keeps the surviving variations in their order: pulling from two runs is pulling from each and joining the results |
| VariationController.DeleteVariation | controller/variationController.js:170-200 | the handler stores exactly the document DeleteRequest describes, or changes nothing |
| VariationController.AdjustRequest | controller/variationController.js:205-234 | unowned product or unknown variation → 404; otherwise the variation's quantity is set to the requested value and one entry of type type (default "adjustment") logs new − old, signed by the caller |
| VariationController.AdjustVariationStock | controller/variationController.js:205-250 | the handler stores exactly the document AdjustRequest describes, or changes nothing |
| VariationController.AdjustTwiceTelescopes | controller/variationController.js:221-232 | adjusting to a and then to b leaves b, and the two logged deltas add up to b minus the starting quantity |
| VariationController.FirstIndexSameIds | controller/variationController.js:145 | a lookup by id finds the same position in two lists with the same ids |
| VariationController.CheckVariationStock | controller/variationController.js:363-411 | unknown product → 404, no variations → 400, no exact match → 404; otherwise availableStock = quantity − reservedStock (unclamped), requested defaults to 1, inStock ⇔ available ≥ requested, price is the discounted price when set |
| VariationController.Matching | controller/variationController.js:439-455 | exactly the active variations with quantity > reservedStock whose options equal every selected value (case-sensitive) |
| VariationController.AxisValuesMeans | controller/variationController.js:455-459 | a value is listed for an axis iff some variation of the list takes it on that axis |
| VariationController.AvailableOptions | controller/variationController.js:416-493 | unknown product → 404, no variations → 400; totalMatches is the number of matches; matching holds exactly the eligible matching variations; availableOptions has exactly the axes as keys |
| VariationController.AvailableOptionsThrows | controller/variationController.js:455-459 | the handler throws exactly when a matching variation has an option key outside the axes |
| VariationController.AvailableValues | controller/variationController.js:455-481 | each axis lists exactly the values it takes over the matching variations |
| VariationController.GetAvailableOptions | controller/variationController.js:416-493 | the handler answers exactly AvailableOptions |
| VariationController.ScanOptions | controller/variationController.js:439-476 | the forEach fails iff a matching variation leaves the axes, and otherwise computes the matches and each axis's value set |
| VariationController.ScanItem | controller/variationController.js:440-475 | one item is skipped when not on offer or not matching; otherwise its values are added and it is listed |
| VariationController.AddValues | controller/variationController.js:457-459 | each axis set gains the variation's value for that axis and nothing else |
| VariationController.SecondValuesMeans | controller/variationController.js:97-113 | a value is in the matrix row of x iff some variation with first-axis value x has it on another option |
| VariationController.ProductVariations | controller/variationController.js:58-130 | unknown product → 404; items and axes are returned as stored; byAxis has exactly the axes as keys when the product has variations; the matrix rows are exactly the first axis's values |
| VariationController.VariationsValues | controller/variationController.js:70-115 | each axis lists exactly the values of offered variations, and each matrix row exactly the other option values of offered variations with that first-axis value |
| VariationController.GetProductVariations | controller/variationController.js:58-130 | the handler answers exactly ProductVariations |
| VariationController.ScanOffered | controller/variationController.js:76-85 | the first forEach collects the offered variations and each axis's values over them |
| VariationController.SecondValuesOutside | controller/variationController.js:97-113 | a value the first axis never takes has an empty matrix row |
| VariationController.FirstAxisMatrix | controller/variationController.js:93-115 | the matrix built in one pass equals, for each first-axis value, its set of other option values |
| CartModel.UserCart | models/cartModel.js:28-31 | `findOne({ user })` with a non-unique `user`: none iff no cart has that user; otherwise the first cart of that user |
| CartModel.PaymobCart | models/cartModel.js:38-42 | `findOne({ paymobOrderId })` with a non-unique id: none iff no cart carries it; otherwise the first cart carrying it |
| CartModel.PaymobLookupShadows | models/cartModel.js:38-42 | when two carts carry the same provider order id, the lookup answers with the earlier one and never reaches the later |
| CartModel.UserCartAppend | models/cartModel.js:28-31 | appending a cart for a user who had none makes it that user's cart |
| CartModel.UserCartReplace | models/cartModel.js:28-31 | replacing a user's cart by another of the same user keeps it the one found |
| CartController.Priced | controller/cartController.js:9-16 | totalPrice is a multiple of 5, at least Σ price·quantity and below that sum + 5; totalPriceAfterDiscount is cleared; nothing else changes |
| CartController.SumLines | controller/cartController.js:10-13 | the forEach adds price·quantity line by line, giving the line total |
| CartController.Cart.CalculatePrice | controller/cartController.js:9-16 | in place: the cart becomes Priced of the old cart |
| CartController.Cart.SetLineQuantity | controller/cartController.js:136 | in place: only the k-th line's quantity changes, to q |
| CartController.Cart.PushLine | controller/cartController.js:107-113 | in place: the line is appended and nothing else changes |
| CartController.Cart.SetDiscountedTotal | controller/cartController.js:194 | in place: only totalPriceAfterDiscount changes |
| CartController.CartStore.Load | controller/cartController.js:70 | a fresh document object holding the stored cart |
| CartController.CartStore.NewId | models/cartModel.js:5-27 | each new line gets a new id and the counter moves past it |
| CartController.CartStore.Save | controller/cartController.js:117 | only the addressed cart is replaced by the document |
| CartController.CartStore.Create | controller/cartController.js:74-83 | the new cart is appended after every stored cart |
| CartController.CartStore.PullLine | controller/cartController.js:151-157 | `$pull` keeps, in the addressed cart, exactly the lines with another id |
| CartController.CartStore.Delete | controller/cartController.js:171 | only the addressed cart is removed |
| CartController.Without | controller/cartController.js:154 | exactly the lines whose id differs from the pulled one |
| CartController.WithoutAppend | controller/cartController.js:154 | the pull keeps the surviving lines in their order: pulling from two runs of lines is pulling from each and joining the results |
| CartController.OfferOf | controller/cartController.js:41-68 | an unknown product is refused with 404; every refusal is 404 (product or variation missing) or 400 (inactive variation, nothing available); an accepted offer always has at least one unit available |
| CartController.OfferRules | controller/cartController.js:41-68 | both paths in full: with a colour or size, no variation with exactly those options is 404; otherwise the first such variation decides: inactive or with fewer than one unit left (quantity less reserved) is 400, else the offer is its discounted price when non-zero, else its price, with that availability; without options the product itself is judged the same way |
| CartController.MatchLine | controller/cartController.js:86-93 | with a variation id: a line carrying that id, or none iff no line carries it; without one: only a request without color and size can match (stored lines keep no color or size), then a line of that product, or none iff no line is of that product |
| CartController.AddProductToCart | controller/cartController.js:37-124 | the handler leaves the carts collection AddRequest describes and answers with the caller's cart, or changes nothing on refusal |
| CartController.AddRequest | controller/cartController.js:37-124 | a refused stock gate is passed on, every refusal is 404 or 400; an accepted add creates a cart exactly when the caller had none and leaves every other user's cart as it was |
| CartController.AddToNewCart | controller/cartController.js:73-84 | for a user without a cart the collection becomes NewCartState (one new priced cart with one line of quantity 1) and the handler answers with it |
| CartController.AddToCart | controller/cartController.js:85-117 | for a user with a cart the collection becomes what MergeState describes (the merge refused with 400 when over stock, else a line merged or appended and the cart re-priced), or stays put on refusal |
| CartController.CommitCart | controller/cartController.js:116-123 | saving the caller's modified cart leaves the collection the request describes and answers with the cart |
| CartController.LineIndex | controller/cartController.js:132-134 | none iff no line has that id; otherwise a line with that id |
| CartController.UpdateProductQuantityInCart | controller/cartController.js:126-148 | the handler leaves the collection UpdateQuantityRequest describes: no cart or no line → 404, else the line's quantity is set and totals recomputed |
| CartController.UpdateQuantityRequest | controller/cartController.js:126-148 | refused (404) exactly when the caller has no cart or it has no line with that id; otherwise no cart is added or removed and every other user's cart is as it was |
| CartController.RemoveProductFromCart | controller/cartController.js:150-168 | the handler leaves the collection RemoveRequest describes: the lines with that id are pulled and totals recomputed; with no cart the swapped ApiError arguments give a server error |
| CartController.RemoveRequest | controller/cartController.js:150-168 | refused, with a server error, exactly when the caller has no cart; otherwise no cart is added or removed and every other user's cart is as it was |
| CartController.ClearCart | controller/cartController.js:170-176 | the collection becomes ClearRequest: only the caller's first cart is deleted, if there is one |
| CartController.ClearRequest | controller/cartController.js:170-176 | with no cart nothing changes; otherwise exactly one cart is gone and every remaining cart is one that was there |
| CartController.LiveCoupon | controller/cartController.js:180-186 | none iff no coupon has that code with expire > now; otherwise such a coupon |
| CartController.CouponTotal | controller/cartController.js:191-193 | the discounted total is the least multiple of 5 at or above totalPrice·(100 − d)/100 |
| CartController.ApplyCouponToCart | controller/cartController.js:178-202 | the handler leaves the collection CouponRequest describes: unknown or expired code → 400, no cart → 404, else only totalPriceAfterDiscount is set |
| CartController.CouponRequest | controller/cartController.js:178-202 | 400 exactly for an unknown or expired code, 404 exactly for a live code and no cart; otherwise the caller's cart differs only in its discounted total and every other cart is as it was |
| CartController.AddGrowsByAtMostOne | controller/cartController.js:70-117 | after a successful add the caller's cart is priced and undiscounted; a first add creates one cart of one line of quantity 1; a later add grows the caller's cart by at most one line |
| CartController.NewCartShape | controller/cartController.js:73-84 | the new cart is the caller's, priced, with one line of quantity 1 for the product |
| CartController.MergeShape | controller/cartController.js:86-117 | merging keeps the caller's cart in place, priced, with the same or one more line |
| CartController.AddMergeWithinStock | controller/cartController.js:95-105 | with a matching line the add succeeds iff quantity + 1 ≤ available stock, and then only that line gains one unit |
| CartController.AddWithColorAppends | controller/cartController.js:86-113 | an add naming a color and no variation id never merges: it appends a fresh line of quantity 1 |
| CartController.AddHoldsVariationId | controller/cartController.js:76-113 | after an add naming a variation id, the caller's cart holds a line with that id |
| CartController.AddByVariationIdTwiceMerges | controller/cartController.js:86-105 | a second add of the same variation id does not add a line |
| CartController.UpdateIgnoresStock | controller/cartController.js:132-147 | update succeeds iff the caller's cart holds the line, whatever the quantity and stock; only that line's quantity changes, to exactly the request |
| CartController.RemoveOnlyThatLine | controller/cartController.js:150-162 | remove succeeds iff the caller has a cart; it keeps exactly the lines with another id, and an absent id changes no line |
| CartController.ClearLeavesSecondCart | controller/cartController.js:170-171 | since `user` is not unique, a caller with two carts still has one after clearing |
| CartController.CouponTotalBounds | controller/cartController.js:191-193 | a 0–100 % coupon on a non-negative multiple of 5 gives a total between 0 and that total |
| CartController.CouponNeverRaises | controller/cartController.js:178-195 | a coupon applies iff the code is live and the caller has a cart; lines and totalPrice are unchanged and the discounted total lies in [0, totalPrice] |
| CartController.TwoLineTotal | controller/cartController.js:9-16 | lines 12×1 and 13×2 give totalPrice 40 |
| CartController.TwentyPercentOfForty | controller/cartController.js:191-193 | a 20 % coupon on 40 gives ceil(32/5)·5 = 35 |
| OrderController.CashCartPriceAtMostTotal | controller/orderController.js:23-25 | the cash cart price adds unit prices only: with quantities of at least 1 and non-negative prices it never exceeds Σ price·quantity, and falls strictly below it once a priced line has quantity above 1 |
| OrderController.CashCartPrice | controller/orderController.js:23-25 | when every line has quantity 1 the cash cart price is the cart's line total |
| OrderController.UnitQuantitySum | controller/orderController.js:23-25 | summing unit prices equals summing price × quantity when every quantity is 1 |
| OrderController.Taxes | controller/orderController.js:27 | no tax for a zero rate or a zero cart; for a non-negative cart and a rate between 0 and 100 the tax lies between 0 and the cart price |
| OrderController.CartById | controller/orderController.js:18 | none iff no cart has that id; otherwise a cart with that id |
| OrderController.ItemsOf | controller/orderController.js:30-36 | one order item per cart line, in order, copying product, quantity, color and price and taking the product's seller |
| OrderController.SellAllNext | controller/orderController.js:44-50 | the bulk write is one `$inc` per line, applied in order |
| OrderController.SellAllEffect | controller/orderController.js:44-50 | the bulk write keeps the set of products; each product's quantity falls and its sold count rises by the total quantity the lines order of it, with no availability check; nothing else changes |
| OrderController.SellAllIds | controller/orderController.js:44-50 | every product record stays under its own id |
| OrderController.OrderStore.Create | controller/orderController.js:28-42 | the new order is stored under the next, previously unused id and the store stays valid |
| OrderController.OrderStore.Load | controller/orderController.js:211 | none iff no order has that id; otherwise a fresh object holding it |
| OrderController.OrderStore.Replace | controller/orderController.js:224 | only the addressed order is replaced |
| OrderController.OrderStore.Save | controller/orderController.js:224 | the save succeeds iff the document passes the schema; a rejected save is Invalid and changes nothing |
| OrderController.Order.SetPayment | controller/orderController.js:216-217 | in place: only isPaid and paidAt change |
| OrderController.Order.SetStatus | controller/orderController.js:223 | in place: only the status changes |
| OrderController.Order.SetDeliveredAt | controller/orderController.js:221 | in place: only deliveredAt changes |
| OrderController.Order.SetPaymentMethod | controller/orderController.js:529 | in place: only the payment method changes |
| OrderController.SellLines | controller/orderController.js:44-50 | the loop of `$inc` updates leaves the products SellAll describes |
| OrderController.PlaceOrder | controller/orderController.js:43-52 | the order is stored, its cart deleted and the cart's lines sold, as Placed describes |
| OrderController.CreateCashOrder | controller/orderController.js:14-54 | an unknown cart id is 404 and changes nothing; otherwise the order CashOrderRequest describes is stored, the cart's lines sold and the cart deleted |
| OrderController.CashOrderRequest | controller/orderController.js:14-54 | an unknown cart id is 404 and a line whose product is gone a server error, exactly; otherwise the order is valid, numbered by the generator, the caller's and pending |
| OrderController.CashOrderShape | controller/orderController.js:23-42 | a cash order mirrors its cart line by line, is the caller's, pending, unpaid, cash on delivery, priced at the unit-price sum, with taxes = cartPrice·pct/100 and total = cartPrice + taxes + shipping |
| OrderController.CreateCreditOrder | controller/orderController.js:56-111 | a missing cart for the provider order id or a missing customer throws and changes nothing; otherwise the approved, paid order CreditOrderRequest describes is stored, the lines sold and the cart deleted |
| OrderController.ChargedPrice | controller/orderController.js:70 | the discounted total when one is set and non-zero, otherwise the total price |
| OrderController.CreditOrderRequest | controller/orderController.js:56-111 | every failure is the thrown server error; an order is made exactly when the provider's cart, the customer and every line's product exist, and it is valid, the customer's, approved, paid now through "Paymob", unassigned, with the amount paid as its total |
| OrderController.WebhookCheckout | controller/orderController.js:187-208 | an event that is not a successful PAID transaction changes nothing and answers 200; otherwise 200 iff the paid order is created, else 500 |
| OrderController.RedeliveredWebhookFails | controller/orderController.js:61-62 | the same paid webhook delivered twice creates one order: the first delivery deletes the only cart carrying that provider order id, so the second fails |
| OrderController.SessionTotal | controller/orderController.js:122-124 | the session amount is within half a unit of charged price + price·pct/100 + shipping |
| OrderController.PaidTotalDiffersFromSum | controller/orderController.js:70-99 | a paid order keeps the unrounded tax but the rounded amount paid: at 35 and 14 % the tax is 4.9 and the total 40, which is not cartPrice + taxes + shipping |
| OrderController.CommitOrder | controller/orderController.js:224 | saving the handler's order leaves the store as the request describes |
| OrderController.UpdateOrderStatus | controller/orderController.js:210-226 | an unknown order is 404; otherwise the saved order is AdminUpdate of the stored one, or the store is unchanged when the schema rejects the status |
| OrderController.AdminUpdateRequest | controller/orderController.js:210-226 | refused (404) exactly for an unknown order; otherwise the order keeps its id, items and customer, takes the requested status and is paid now when isPaid is truthy |
| OrderController.AdminUpdateMeaning | controller/orderController.js:215-224 | the status becomes exactly the requested one, deliveredAt is stamped only for "delivered", isPaid becomes old isPaid or the flag, items and prices are untouched; the save passes iff the status is absent or in the enumeration |
| OrderController.AdminUpdate | controller/orderController.js:215-224 | the admin update keeps the order's id, customer, items, total, payment method and courier |
| OrderController.SellerUpdateKeepsValid | controller/orderController.js:516-530 | a valid order stays valid under any update the validator lets through, so the seller's save cannot fail |
| OrderController.SellerUpdate | controller/orderController.js:516-530 | the seller update keeps the order's id, customer, items, total, courier and delivery status |
| OrderController.SellerUpdateMeaning | controller/orderController.js:516-530 | for every order and body: a truthy status is stored and a falsy one keeps the old; deliveredAt becomes now exactly when the stored status is "completed" or "delivered", else is kept; a truthy paymentMethod is stored, else kept; a boolean isPaid is stored with paidAt now for true and cleared for false, else both are kept; every other field is unchanged |
| OrderController.UpdateSellerOrder | controller/orderController.js:500-539 | with the ownership check as intended (see Findings): no seller profile or unknown order → 404, an order without the seller's products → 403, otherwise the order SellerUpdateRequest describes is saved; never Invalid |
| OrderController.ApplySellerUpdate | controller/orderController.js:516-530 | the field assignments leave the document SellerUpdate describes |
| OrderController.SellerUpdateNeedsOwnership | controller/orderController.js:240-250 | with the ownership check as intended: the seller update is refused with 403 iff no item's product is currently the seller's; an accepted update keeps items and customer and sets isPaid, with paidAt set iff paid (the other stored fields are stated by SellerUpdateMeaning and SellerUpdateRequest) |
| OrderController.SellerUpdateRequest | controller/orderController.js:500-539 | no seller profile or an unknown order → 404; every other refusal is 403; an accepted update is of an order that holds one of the seller's products, and stores a truthy status (else keeps the old one), stamps deliveredAt with now for "completed" or "delivered", stores a truthy payment method (else keeps the old one), and for isPaid false leaves the order unpaid with no paidAt |
| OrderController.SellerProductIds | controller/orderController.js:242-245 | `productIds` holds exactly the id strings of the seller's products |
| OrderController.WrittenOwnsOrder | controller/orderController.js:240-250 | as written: a throw (500) only when some item's product no longer exists, and a true answer only when some item's rendered product is among `productIds` |
| OrderController.OwnsOrder | controller/orderController.js:240-250 | as intended: the seller owns the order iff some item's product id is among the id strings of the seller's products |
| OrderController.WrittenOwnsOrderNeverHolds | controller/orderController.js:240-250 | as written, the check on the populated order never answers true: it answers false when every item's product exists and throws (500) exactly when one is missing |
| OrderController.WrittenSellerUpdateRequest | controller/orderController.js:500-539 | as written, no seller profile or an unknown order → 404 before the ownership check |
| OrderController.WrittenSellerUpdateNeverApplies | controller/orderController.js:500-517 | as written, every seller update of an existing order is refused: 500 when an item's product is gone, otherwise 403 |
| OrderController.OwnOrderRefusedAsWritten | controller/orderController.js:240-250 | an order holding one product of the seller is refused with 403 as written and accepted under the id comparison |
| OrderController.SellerItems | controller/orderController.js:358-360 | exactly the items whose seller is the caller |
| OrderController.SellerOrders | controller/orderController.js:357-373 | no more views than orders |
| OrderController.SellerOrdersMeaning | controller/orderController.js:357-373 | each listed view holds only the seller's items, at least one, with total = subtotal + taxes; an order is listed iff one of its items is the seller's |
| OrderController.ViewForInjective | controller/orderController.js:357-373 | an order's view is listed only if one of its items is the seller's |
| OrderController.SellerOrdersFrom | controller/orderController.js:357-373 | every listed view comes from a listed order and keeps at least one item |
| OrderController.SellerOrderDetails | controller/orderController.js:416-497 | no seller profile or unknown order → 404; 403 iff no item is the seller's; otherwise exactly the seller's items, subtotal Σ price·quantity and total = subtotal + taxes |
| OrderController.SellerTaxesProportional | controller/orderController.js:363 | when the order's taxes are cartPrice·pct/100, the seller's share is their subtotal·pct/100 |
| DeliveryController.NewProfile | controller/deliveryController.js:15-18 | `{ userId: caller, ...body }`: a userId in the body overrides the caller's; the schema defaults fill the rest |
| DeliveryController.Profile.FromDoc | models/deliveryModel.js:3-45 | the loaded object holds the stored profile |
| DeliveryController.Profile.Credit | controller/deliveryController.js:194-195 | in place: totalDeliveries + 1 and earnings + 10, nothing else |
| DeliveryController.ProfileStore.constructor | models/deliveryModel.js:5-10 | an empty collection satisfies the unique userId index |
| DeliveryController.ProfileStore.Load | controller/deliveryController.js:192 | none iff the user has no profile; otherwise a fresh object holding it |
| DeliveryController.ProfileStore.Insert | controller/deliveryController.js:15-18 | a profile under a free userId is added and the store stays valid |
| DeliveryController.ProfileStore.Save | controller/deliveryController.js:196 | only that user's profile is replaced |
| DeliveryController.CreateDeliveryProfile | controller/deliveryController.js:9-24 | the handler answers exactly what CreateProfileRequest decides; it stores the new profile under its userId on success and changes nothing on refusal |
| DeliveryController.CreateProfileRequest | controller/deliveryController.js:9-24 | a caller with a profile is refused with 400; every refusal is 400, Invalid or a duplicate-key error; a created profile is valid, under a userId without one (the body's if given, else the caller's), with the body's city, vehicle and licence |
| DeliveryController.ProfileCreateRules | controller/deliveryController.js:10-18 | a caller who already has a profile is refused with 400; a created profile's userId had none, and it is the body's userId if one was sent, else the caller's |
| DeliveryController.ProfileCreatedForNewCourier | controller/deliveryController.js:10-18 | a caller without a profile sending a valid body with no userId, status or rating gets a profile of their own, "offline", with the sent or zero counters |
| DeliveryController.DeliveryUpdateMeaning | controller/deliveryController.js:181-204 | a courier's report sets deliveryStatus; status becomes "shipping" for picked_up, "delivered" for delivered and is untouched otherwise; only those set their timestamps; items, prices, payment and courier are untouched and the order stays valid |
| DeliveryController.DeliveryUpdate | controller/deliveryController.js:181-204 | the report sets deliveryStatus and moves status to "shipping" for picked_up and "delivered" for delivered, keeping it otherwise; id, customer, items, courier, payment and total are kept |
| DeliveryController.UpdateDeliveryStatus | controller/deliveryController.js:168-210 | an order not assigned to the caller is 404 and nothing changes; otherwise the order becomes DeliveryUpdate of itself and, for "delivered", the caller's profile (if any) is credited; stock is never touched |
| DeliveryController.DeliveredTwiceCreditsTwice | controller/deliveryController.js:187-197 | no order between statuses is enforced: two "delivered" reports add 2 deliveries and 20 to earnings |
| DeliveryController.DeliveredStaysAssigned | controller/deliveryController.js:172-175 | after a "delivered" report the order is still the caller's, so a repeat is accepted |
| DeliveryController.NearbyOrders | controller/deliveryController.js:108-140 | a caller without a profile gets 404; otherwise exactly the Approved or shipping, unassigned orders in the courier's city |
| DeliveryController.AssignedOrders | controller/deliveryController.js:143-165 | exactly the caller's orders in assigned, picked_up or in_transit |
| DeliveryController.NearbyAndAssignedDisjoint | controller/deliveryController.js:114-147 | no order is both nearby and in the caller's hands |
| DeliveryController.ReportMovesOrder | controller/deliveryController.js:181-204 | after a report the order stays in the courier's hands iff it was not "delivered", and it is never offered as nearby again |
| OrderModel.NewOrder | models/orderModel.js:51-86 | a new order passes the schema and takes the defaults: cash on delivery, unpaid, unassigned, no courier and no delivery date |
| SellerApplicationModel.OptionalValidators | models/sellerApplicationModel.js:62-80 | tax id and website are optional (empty passes); a tax id shorter than 5 characters fails and one of 5 passes; a website must start with http:// or https:// |
| SellerApplicationModel.NewApplication | models/sellerApplicationModel.js:97-110 | a new application carries the user and the form, defaults its status to "pending" and has no `reviewedBy` or `reviewedAt` |
| SellerApplicationController.ApplicationById | controller/sellerApplicationController.js:183-187 | none iff no application has that id; otherwise the index of one that has it |
| SellerApplicationController.ApplicationStore.constructor | models/sellerApplicationModel.js:3-10 | an empty collection is valid (one application per user, ids below the next id) |
| SellerApplicationController.ApplicationStore.Insert | controller/sellerApplicationController.js:80-83 | appends a valid application of a user with none under the next id and keeps the collection valid |
| SellerApplicationController.ApplicationStore.Delete | controller/sellerApplicationController.js:71-78 | removes exactly the record at the index and keeps the collection valid |
| SellerApplicationController.ApplicationStore.Put | controller/sellerApplicationController.js:125-129 | replaces the record at the index by a valid one with the same id and keeps the collection valid |
| SellerApplicationController.UserStore.constructor | controller/sellerApplicationController.js:207 | the store holds the given users |
| SellerApplicationController.UserStore.SetRole | controller/sellerApplicationController.js:207 | changes only the role of the one user |
| SellerApplicationController.CheckEligibility | controller/sellerApplicationController.js:9-50 | a seller can never apply; anyone else can apply iff they have no application or only a declined one |
| SellerApplicationController.SubmitApplication | controller/sellerApplicationController.js:53-90 | answers and stores what SubmitRequest decides (blocking statuses refused, an existing seller refused, a declined application deleted before the new one is created) and keeps the collection valid |
| SellerApplicationController.SubmitRequest | controller/sellerApplicationController.js:53-90 | users and seller profiles are never touched; a caller with a seller profile is refused with 400 and nothing changes; an application of the caller in an open status (pending, under review, approved) is refused with 400 and nothing changes; otherwise the answer is never 400, it is Invalid exactly when the new application fails validation, a declined application is removed first, and an accepted application carries the next id, the form and the body's user (else the caller) and is appended after the kept ones |
| SellerApplicationController.UpdateMyApplication | controller/sellerApplicationController.js:115-136 | answers and stores what UpdateRequest decides (404 without a pending application, otherwise the body merged and validated) and keeps the collection valid |
| SellerApplicationController.UpdateRequest | controller/sellerApplicationController.js:115-136 | a refusal changes nothing; 404 exactly when the caller has no pending application; an accepted edit holds the merged form and the body's status (pending when absent) and touches neither users nor seller profiles |
| SellerApplicationController.ApproveApplication | controller/sellerApplicationController.js:180-225 | answers and stores what ApproveRequest decides across applications, users and seller profiles, keeping both collections valid |
| SellerApplicationController.ApproveRequest | controller/sellerApplicationController.js:180-225 | 404 exactly for an unknown id; a refusal other than a validation failure changes nothing; an approval is stamped by the admin now, makes the user a seller and creates the profile the user did not have |
| SellerApplicationController.DeclineApplication | controller/sellerApplicationController.js:228-257 | answers and stores what DeclineRequest decides and keeps the collection valid |
| SellerApplicationController.DeclineRequest | controller/sellerApplicationController.js:228-257 | a missing or empty reason is 400 whatever the id; a refusal changes nothing; a decline is stamped by the admin, keeps the reason and touches neither users nor seller profiles |
| SellerApplicationController.SetUnderReview | controller/sellerApplicationController.js:260-280 | answers and stores what UnderReviewRequest decides and keeps the collection valid |
| SellerApplicationController.UnderReviewRequest | controller/sellerApplicationController.js:260-280 | 404 exactly for an unknown id; a refusal changes nothing; otherwise the addressed application is under review, stamped by the admin, and nothing else is touched |
| SellerApplicationController.EligibleSubmitSucceeds | controller/sellerApplicationController.js:9-90 | whoever the eligibility check lets apply, with a valid form and no profile, gets a pending application that is afterwards their only one, and the collection stays valid |
| SellerApplicationController.RemoveKeepsValid | controller/sellerApplicationController.js:71-78 | deleting a record keeps the collection valid and leaves no application of that user |
| SellerApplicationController.AppendKeepsValid | controller/sellerApplicationController.js:80-83 | appending a valid record of a user without one under the next id keeps the collection valid and makes it that user's only record |
| SellerApplicationController.ApproveRules | controller/sellerApplicationController.js:180-225 | a 404 exactly when the id is unknown, changing nothing; a success only from a non-approved application of a user without a profile, leaving it approved with a reason, the user a seller and a profile with the application's first name and phone |
| SellerApplicationController.SelfApprovalOpensProfile | controller/sellerApplicationController.js:115-136 | an applicant who updates a pending application with status "approved" has it stored approved with no new `reviewedBy` recorded, and the seller lookup then creates their profile |
| SellerApplicationController.StatusMoves | controller/sellerApplicationController.js:189-272 | approving an approved application and declining a declined one are refused; a successful decline or under-review sets that status; under-review succeeds on any valid application with short enough notes |
| SellerProfile.SellerStore.constructor | models/sellerModel.js:1-40 | an empty collection satisfies the unique userId index |
| SellerProfile.SellerStore.Insert | utils/findOrCreateSellerProfile.js:37-45 | a valid profile under a free userId is added and the store stays valid |
| SellerProfile.ApplicationOf | utils/findOrCreateSellerProfile.js:22 | none iff no application is the user's; otherwise an application of that user |
| SellerProfile.ProfileFrom | utils/findOrCreateSellerProfile.js:37-45 | names from the application, email from the user (stored lower-cased), phone from the application, else the user, else "" |
| SellerProfile.FindOrCreateSellerProfile | utils/findOrCreateSellerProfile.js:16-56 | answers what AccessRequest decides and stores a profile only when it creates one |
| SellerProfile.AccessRequest | utils/findOrCreateSellerProfile.js:16-56 | an existing profile is returned exactly when the user has one; no application exactly when the user has neither; a refusal for status names a status other than approved; a created profile is valid, the user's own, from an approved application |
| SellerProfile.AccessRules | utils/findOrCreateSellerProfile.js:17-45 | an existing profile is returned as is; a profile is created only for a user without one whose application is approved; no application and any other status are refused, the latter naming that status |
| SellerProfile.AccessTwice | utils/findOrCreateSellerProfile.js:17-19 | after a creation, the next lookup returns the created profile rather than creating again |
| CustomerController.UserByEmail | controller/customerController.js:22 | `findOne({ email })`: none iff no user has the email; otherwise a user with it |
| CustomerController.LinkOf | controller/customerController.js:36-39 | none iff no link joins the user and the seller; otherwise such a link |
| CustomerController.LinkById | controller/customerController.js:100 | none iff no link has the id; otherwise a link with it |
| CustomerController.CustomerStore.constructor | controller/customerController.js:4-6 | empty users, links and carts form a valid book |
| CustomerController.CustomerStore.AddUser | controller/customerController.js:26-32 | appends the user under the next id, changes nothing else and keeps the book valid |
| CustomerController.CustomerStore.AddLink | controller/customerController.js:46-57 | appends a link for a pair without one, changes nothing else and keeps every pair linked at most once |
| CustomerController.CustomerStore.AddCart | controller/customerController.js:294-299 | appends the cart under the next id and changes nothing else |
| CustomerController.CustomerStore.MarkRecovered | controller/customerController.js:332-336 | sets `recovered` on that one cart and changes nothing else |
| CustomerController.CreateCustomer | controller/customerController.js:12-60 | answers and stores what CreateCustomerRequest decides, including the refused user creation, and keeps the book valid |
| CustomerController.CreateCustomerRequest | controller/customerController.js:12-60 | the answer is a link, a 400 or a validation failure, and it is the validation failure exactly when no user has the lower-cased email and `firstName + " " + lastName` is over the user schema's 30 characters |
| CustomerController.CreateCustomerRules | controller/customerController.js:12-60 | a pair already linked is a 400 that changes nothing; a new user whose joined name is over 30 characters is refused and nothing is created; otherwise one link is added for the caller (or the seller an admin names) and the user with that email, who is created as a customer, with a name of at most 30 characters, only when no user has the email |
| CustomerController.SecondLinkRefused | controller/customerController.js:36-43 | repeating a successful create for the same email and seller is refused |
| CustomerController.CustomerAccess | controller/customerController.js:100-109 | 404 exactly when no link has the id; for the first link with the id, 403 exactly when the caller is a seller and the link is another seller's, and otherwise that link |
| CustomerController.TallyMeaning | controller/customerController.js:136-174 | totalOrders is the sum of the order totals, allOrdersCount the number of orders, the counters add up to the orders with one of the seven statuses (so at most allOrdersCount) and pendingCount counts the pending ones |
| CustomerController.TallyAnyStart | controller/customerController.js:136-174 | the same meaning for any starting allOrdersCount |
| CustomerController.TallyTotal | controller/customerController.js:149 | the running total is the sum of the order totals |
| CustomerController.TallyCounted | controller/customerController.js:151-173 | each order bumps at most one counter, and only for one of the seven statuses |
| CustomerController.TallyPending | controller/customerController.js:152-154 | the pending counter counts the pending orders |
| CustomerController.TallyOrders | controller/customerController.js:136-174 | the `forEach` loop computes the tally |
| CustomerController.GetCustomerDetails | controller/customerController.js:117-190 | answers what DetailsOf states: the access check, then the tally of the customer's orders that hold the seller's items and the count of unrecovered carts of the pair |
| CustomerController.DetailsOf | controller/customerController.js:117-190 | a refused access is answered with the same refusal; otherwise the details are of the accessed link, with no more abandoned carts than carts stored |
| CustomerController.HistoryOf | controller/customerController.js:195-235 | a refused access is answered with the same refusal; otherwise, with page and limit defaulting to 1 and 10, a server error exactly when the skip (page − 1)·limit is negative, and on success the page and limit echoed and at most |limit| orders |
| CustomerController.HistoryPageIsPage | controller/customerController.js:207-219 | for positive page and limit the query result is exactly the page (page − 1)·limit onwards with numberOfPages = ceil(total / limit) |
| CustomerController.HistoryPaging | controller/customerController.js:195-235 | a page holds at most `limit` of the customer's orders from this seller, newest first, and is non-empty exactly up to numberOfPages |
| CustomerController.RecordAbandonedCart | controller/customerController.js:280-302 | the access failure, changing nothing, or a new unrecovered cart of the link's user and seller under the next id |
| CustomerController.AbandonedCartsOf | controller/customerController.js:307-326 | the access failure, or exactly the pair's unrecovered carts |
| CustomerController.CartById | controller/customerController.js:332 | none iff no cart has the id; otherwise a cart with it |
| CustomerController.RecoverAbandonedCart | controller/customerController.js:331-343 | 404 for an unknown cart, changing nothing; otherwise that cart, and only it, marked recovered and returned |
| CustomerController.RecoverLeavesList | controller/customerController.js:319-336 | a recovered cart drops out of the unrecovered list, whose count falls by one |
| ProductImport.ChosenSkuRules | controller/productController.js:146-163 | a supplied sku is kept; otherwise the sku is one of the row's five candidates that no product carries, or the fallback, and it is the fallback when all five are taken |
| ProductImport.ChosenSku | controller/productController.js:146-163 | a non-empty fallback makes the sku non-empty; when the row supplies no sku, a chosen sku other than the fallback is not taken by any stored product |
| ProductImport.FreeFromRules | controller/productController.js:150-158 | the retry from attempt a finds a free candidate among attempts a to 4, or none when all are taken |
| ProductImport.PickSku | controller/productController.js:146-163 | the retry loop, at most five lookups, picks the sku that ChosenSku defines |
| ProductImport.NewProduct | controller/productController.js:165-172 | the created product carries the row's title, price and quantity, the chosen sku, the caller's seller profile, no variations and nothing sold |
| ProductImport.SchemaOfRow | controller/productController.js:165-172 | the schema accepts a complete row's product, whatever its sku, exactly when the row meets the length, price, quantity and discount limits |
| ProductImport.Stored | controller/productController.js:165-172 | an accepted row is stored after the pre-save hook, owned by the caller's seller profile, with a sku and no variations |
| ProductImport.ImportStep | controller/productController.js:130-178 | each row adds exactly one entry to the created list or the error list, and the error it adds is the one its classification gives |
| ProductImport.Classes | controller/productController.js:133-177 | the classification has one entry per row, each that row's own |
| ProductImport.ImportCounts | controller/productController.js:126-178 | after k rows, created and errors together number k, and the errors are those of the rows' classes |
| ProductImport.ErrorsOfClasses | controller/productController.js:134-176 | the errors of the first k rows are the errors of their classes |
| ProductImport.RowsBelowMeaning | controller/productController.js:135 | the error rows are each at least 2 and below the bound, strictly increasing along the list |
| ProductImport.RowsBelowWeaker | controller/productController.js:135 | the row bound may be raised |
| ProductImport.ErrorsIncrease | controller/productController.js:134-176 | the error rows of n classified rows increase strictly and lie between 2 and n + 1 |
| ProductImport.ErrorsExact | controller/productController.js:134-176 | a row is reported exactly when it has a failure class, with that failure and with its number `i + 2` |
| ProductImport.ErrorReport | controller/productController.js:126-188 | the error list names rows 2 to n + 1 in increasing order; a row missing a required field (including a price or quantity of 0) is reported as missing, and a complete row is reported as rejected exactly when its create is refused |
| ProductImport.ClassifiedErrors | controller/productController.js:134-176 | the error report of ErrorReport, on the classification alone |
| ProductImport.ClassifiedRows | controller/productController.js:133-177 | each row is reported with the failure it is classified with |
| ProductImport.Classify | controller/productController.js:133-172 | a row is reported missing exactly when a required field is absent; it is created exactly when the fields are present, the status is known, the title slugifies to something and the row passes the schema |
| ProductImport.CreatedBelongToSeller | controller/productController.js:165-173 | every created product belongs to the caller's seller profile, carries a sku and has no variations |
| ProductImport.ImportOne | controller/productController.js:131-177 | one pass of the loop body on the store is ImportStep |
| ProductImport.BulkImportProducts | controller/productController.js:115-189 | 404 without a seller profile and 400 for an empty list, both changing nothing; otherwise the report counts and lists exactly the created products and the row errors of ImportFirst over every row, and the store is its result |
| PaymentMethodModel.ClearOthers | models/paymentMethodModel.js:68-71 | the `updateMany` clears `isDefault` on exactly the user's other cards, active or not, and leaves every other field and card as it was |
| PaymentMethodModel.HookKeepsOneDefault | models/paymentMethodModel.js:66-74 | a save that turns the flag on leaves that card the user's only default; any other save touches no other card |
| PaymentMethodController.NewMethod | controller/paymentMethodController.js:9-18 | the new card belongs to the caller, is active, and is default exactly when the body asks for it |
| PaymentMethodController.FindOwn | controller/paymentMethodController.js:42-46 | none iff the caller has no active card with the id; otherwise that card |
| PaymentMethodController.FirstActive | controller/paymentMethodController.js:105-108 | none iff the caller has no active card; otherwise the first active card of the caller in storage order |
| PaymentMethodController.PaymentMethodStore.constructor | models/paymentMethodModel.js:3-63 | an empty collection has distinct ids below the next id |
| PaymentMethodController.PaymentMethodStore.ClearDefaults | controller/paymentMethodController.js:71-74 | the collection becomes ClearOthers of itself and stays valid |
| PaymentMethodController.PaymentMethodStore.Save | models/paymentMethodModel.js:66-74 | `save()` runs the hook, then writes the card, keeping the ids distinct |
| PaymentMethodController.PaymentMethodStore.Create | controller/paymentMethodController.js:9-18 | `create` runs the hook, then appends the card under a fresh id |
| PaymentMethodController.AddPaymentMethod | controller/paymentMethodController.js:6-25 | answers and stores what AddRequest decides: the schema check in the current year, then the hook and the insert |
| PaymentMethodController.AddRequest | controller/paymentMethodController.js:6-25 | refused (Invalid, nothing stored) exactly when the schema rejects the card; otherwise the caller's active card with the next id is appended |
| PaymentMethodController.SetDefaultPaymentMethod | controller/paymentMethodController.js:59-85 | answers and stores what SetDefaultRequest decides: 404, or the other cards cleared and then the card saved as default |
| PaymentMethodController.RemovePaymentMethod | controller/paymentMethodController.js:88-120 | answers and stores what RemoveRequest decides: 404, or a soft delete, followed by promotion when the default went |
| PaymentMethodController.UpdatePaymentMethod | controller/paymentMethodController.js:123-145 | answers and stores what UpdateRequest decides: 404, or the one card renamed |
| PaymentMethodController.GetRequest | controller/paymentMethodController.js:41-56 | 404 exactly when the caller has no active card with the id; otherwise that stored card, the caller's and active |
| PaymentMethodController.SetDefaultRequest | controller/paymentMethodController.js:59-85 | 404 exactly when the caller has no such active card, changing nothing; every refusal is 404 or Invalid; on success the card is the default and none of the caller's other cards is; other users' cards never change |
| PaymentMethodController.RemoveRequest | controller/paymentMethodController.js:88-120 | 404 exactly when the caller has no such active card, changing nothing; every refusal is 404 or Invalid; on success the card stays stored but inactive; other users' cards never change |
| PaymentMethodController.UpdateRequest | controller/paymentMethodController.js:123-145 | 404 exactly when the caller has no such active card, changing nothing; otherwise only that card changes, to the new cardholder name |
| PaymentMethodController.AcceptedBodyStored | controller/paymentMethodController.js:6-25 | a body the validator accepts, with plain digits, in the validator's own year, is stored as built |
| PaymentMethodController.SignedLast4Refused | models/paymentMethodModel.js:15-25 | a signed last4 such as "-123" passes the request validator and is then refused by the schema, storing nothing |
| PaymentMethodController.AddKeepsOneDefault | models/paymentMethodModel.js:66-74 | adding keeps every user at one default card at most, and a new default card is the caller's only one |
| PaymentMethodController.SetDefaultRules | controller/paymentMethodController.js:59-85 | 404 iff the caller has no such active card, changing nothing; success makes that card the default and clears every other card of the caller, changing nothing else; a failed save leaves the caller's other cards cleared |
| PaymentMethodController.SetDefaultKeepsOneDefault | controller/paymentMethodController.js:59-85 | setting a default keeps every user at one default card at most |
| PaymentMethodController.UpdateRules | controller/paymentMethodController.js:123-145 | 404 iff no such active card of the caller, changing nothing; otherwise only that card's name changes |
| PaymentMethodController.RemoveRules | controller/paymentMethodController.js:88-120 | 404 iff no such active card of the caller, changing nothing; removal keeps the card stored but inactive and never changes another user's card |
| PaymentMethodController.RemovePromotes | controller/paymentMethodController.js:103-114 | when the default card goes, the caller's first remaining active card becomes the default and the removed card loses the flag; with none left, the removed card keeps it |
| PaymentMethodController.RemoveKeepsOneDefault | controller/paymentMethodController.js:88-120 | removal keeps every user at one default card at most |
| PaymentMethodController.MyMethodsMembers | controller/paymentMethodController.js:28-38 | the listing holds exactly the caller's active cards, each as often as it is stored |
| PaymentMethodController.MyMethodsOrder | controller/paymentMethodController.js:31 | defaults come first, and within each group the newest card comes first |
| PaymentMethodController.MyMethods | controller/paymentMethodController.js:28-38 | as many cards as the caller has active default and active non-default cards, each the caller's and active |
| PaymentMethodController.GetRules | controller/paymentMethodController.js:41-56 | a card is returned iff it is the caller's and active; otherwise 404 |
| PrivacyPolicyModel.DeactivateOthers | models/privacyPolicyModel.js:31-34 | the `updateMany` turns off `isActive` on exactly the other policies and changes nothing else |
| PrivacyPolicyModel.HookKeepsOneActive | models/privacyPolicyModel.js:29-37 | a save that turns the flag on leaves that policy the only active one; any other save touches no other policy |
| PrivacyPolicyController.ActiveIndex | controller/privacyPolicyController.js:7 | none iff no policy is active; otherwise the first active policy in storage order |
| PrivacyPolicyController.IndexOf | controller/privacyPolicyController.js:75 | none iff no policy has the id; otherwise the policy with it |
| PrivacyPolicyController.PolicyStore.constructor | models/privacyPolicyModel.js:3-26 | an empty collection is valid |
| PrivacyPolicyController.PolicyStore.Create | controller/privacyPolicyController.js:34-39 | `create` runs the hook, then appends the policy under the next id |
| PrivacyPolicyController.PolicyStore.Save | models/privacyPolicyModel.js:29-37 | `save()` runs the hook, then writes the policy |
| PrivacyPolicyController.PolicyStore.Put | controller/privacyPolicyController.js:52-60 | `findByIdAndUpdate` writes the one policy without running the hook |
| PrivacyPolicyController.PolicyStore.Delete | controller/privacyPolicyController.js:103 | removes exactly the one policy |
| PrivacyPolicyController.CreatePrivacyPolicy | controller/privacyPolicyController.js:31-46 | answers and stores what CreateRequest decides and keeps the collection valid |
| PrivacyPolicyController.UpdatePrivacyPolicy | controller/privacyPolicyController.js:49-71 | answers and stores what UpdateRequest decides and keeps the collection valid |
| PrivacyPolicyController.ActivatePrivacyPolicy | controller/privacyPolicyController.js:74-89 | answers and stores what ActivateRequest decides and keeps the collection valid |
| PrivacyPolicyController.DeletePrivacyPolicy | controller/privacyPolicyController.js:92-109 | answers and stores what DeleteRequest decides and keeps the collection valid |
| PrivacyPolicyController.CreateRequest | controller/privacyPolicyController.js:31-46 | a missing or too short content is Invalid and changes nothing; otherwise the new policy gets the next id, is active, is stamped with the caller and time, is appended last, and every other policy with another id is deactivated |
| PrivacyPolicyController.UpdateRequest | controller/privacyPolicyController.js:49-71 | Invalid exactly when a content is given and is too short; every refusal (Invalid or 404) changes nothing; otherwise only that policy changes, its content to the given one (or kept), its editor to the caller, its active flag kept |
| PrivacyPolicyController.ActivateRequest | controller/privacyPolicyController.js:74-89 | 404 exactly for an unknown id, changing nothing; otherwise the policy is stored active in its place |
| PrivacyPolicyController.DeleteRequest | controller/privacyPolicyController.js:92-109 | 404 exactly for an unknown id and 400 exactly for the active policy, both changing nothing; otherwise that inactive policy alone is removed |
| PrivacyPolicyController.GetOnlyActive | controller/privacyPolicyController.js:6-17 | when exactly one policy is active, the public read returns it |
| PrivacyPolicyController.GetRules | controller/privacyPolicyController.js:6-17 | the public read is a 404 iff no policy is active, and otherwise returns an active stored policy |
| PrivacyPolicyController.GetRequest | controller/privacyPolicyController.js:6-17 | a 404 exactly when no policy is active; otherwise the first active policy |
| PrivacyPolicyController.AllPoliciesRules | controller/privacyPolicyController.js:20-28 | the admin list holds every policy, as many as stored, newest first |
| PrivacyPolicyController.CreateRules | controller/privacyPolicyController.js:31-46 | creation succeeds iff content of at least 100 characters is given; the new policy is stored last, active, versioned "1.0" unless a version is given, every other policy is deactivated, and it becomes the public policy |
| PrivacyPolicyController.ActivateRules | controller/privacyPolicyController.js:74-89 | 404 iff the id is unknown, changing nothing; otherwise the policy becomes the only active one and the public one, and nothing else changes |
| PrivacyPolicyController.UpdateRules | controller/privacyPolicyController.js:49-71 | an update never changes which policies are active; a 404 exactly for an unknown id with acceptable content; success rewrites only that policy's content (when given), version ("1.0" unless given) and updatedBy |
| PrivacyPolicyController.DeleteRules | controller/privacyPolicyController.js:92-109 | 404 iff the id is unknown, 400 iff the policy is active, both changing nothing; otherwise exactly that policy is removed |
| PrivacyPolicyController.DeleteKeepsPublic | controller/privacyPolicyController.js:99-103 | deleting an inactive policy leaves the public read as it was |
| PrivacyPolicyController.DeleteKeepsOneActive | controller/privacyPolicyController.js:92-109 | deletion keeps at most one policy active and never changes the public policy |
| NotificationModel.Stamped | models/notificationModel.js:53-58 | after the hook a read notification always has `readAt`; one already stamped or unread is unchanged, and only `readAt` can change |
| NotificationModel.StampedIdempotent | models/notificationModel.js:53-58 | running the hook a second time, at any later time, changes nothing |
| NotificationController.OwnIndex | controller/notificationController.js:48-52 | none iff the caller has no notification with the id; otherwise that notification |
| NotificationController.MarkAll | controller/notificationController.js:67-70 | the `updateMany` sets `isRead` and `readAt` on exactly the caller's unread notifications and leaves the rest as they were |
| NotificationController.UserIndex | controller/notificationController.js:100-101 | none iff no user has the id; otherwise that user |
| NotificationController.Outbox | controller/notificationController.js:165-174 | one unread notification per target, in target order, with the body's kind, title and body and an empty icon when none is given |
| NotificationController.NotificationCenter.constructor | models/notificationModel.js:3-51 | the users given and no notifications |
| NotificationController.NotificationCenter.Put | controller/notificationController.js:48-52 | `findOneAndUpdate` writes the one notification and changes nothing else |
| NotificationController.NotificationCenter.ReadAll | controller/notificationController.js:67-70 | the notifications become MarkAll of themselves |
| NotificationController.NotificationCenter.Delete | controller/notificationController.js:189-192 | removes exactly the one notification |
| NotificationController.NotificationCenter.InsertMany | controller/notificationController.js:174 | appends the documents under the next ids, keeping the ids distinct |
| NotificationController.NotificationCenter.SetPrefs | controller/notificationController.js:100-114 | writes the one user's preferences and nothing else |
| NotificationController.MarkAsRead | controller/notificationController.js:47-63 | answers and stores what MarkReadRequest decides |
| NotificationController.MarkAllAsRead | controller/notificationController.js:66-76 | the collection becomes MarkAll of itself for the caller |
| NotificationController.DeleteNotification | controller/notificationController.js:188-202 | answers and stores what DeleteRequest decides |
| NotificationController.UpdateMyNotificationPreferences | controller/notificationController.js:89-121 | answers and stores what UpdatePrefsRequest decides |
| NotificationController.MarkReadRequest | controller/notificationController.js:47-63 | 404 exactly when the caller has no notification with the id, changing nothing; otherwise only that notification changes, to read with readAt now |
| NotificationController.DeleteRequest | controller/notificationController.js:188-202 | 404 exactly when the caller has no notification with the id, changing nothing; otherwise that one alone is removed |
| NotificationController.UpdatePrefsRequest | controller/notificationController.js:89-121 | a server error exactly when the caller has no user record, changing nothing; otherwise the caller's record holds the merged preferences and no other user changes |
| NotificationController.SendNotification | controller/notificationController.js:124-185 | answers and stores what SendRequest decides |
| NotificationController.SendRequest | controller/notificationController.js:124-185 | a refusal is 400 and stores nothing, and a direct send without user ids is refused; otherwise at least one notification is appended after the existing ones, numbered from the generator, of the requested kind and unread |
| NotificationController.InboxPaging | controller/notificationController.js:7-44 | for positive page and limit the inbox is exactly the window of the caller's notifications that pass the filters, newest first, starting at (page − 1)·limit and at most `limit` long; the total counts every match |
| NotificationController.InboxOf | controller/notificationController.js:7-44 | with page and limit defaulting to 1 and 20, a server error exactly when the skip (page − 1)·limit is negative; a success counts all of the caller's matching notifications and the unread ones, and shows no more than the total |
| NotificationController.UnreadIgnoresFilters | controller/notificationController.js:32-35 | the unread count is the caller's unread notifications whatever the `since`, unread-only and paging parameters |
| NotificationController.MarkReadRules | controller/notificationController.js:47-63 | 404 iff the caller has no such notification, changing nothing; otherwise only that notification changes, to read at the current time |
| NotificationController.MarkAllRules | controller/notificationController.js:66-76 | afterwards the caller has no unread notification; read ones and everyone else's are unchanged |
| NotificationController.DeleteRules | controller/notificationController.js:188-202 | 404 iff the caller has no such notification, changing nothing; otherwise exactly that notification of the caller is removed |
| NotificationController.MergeRules | controller/notificationController.js:103-111 | each flag is the supplied value when given and the stored one otherwise |
| NotificationController.MergePrefs | controller/notificationController.js:103-111 | every kind given in the update takes the given flag, and an empty update keeps the preferences |
| NotificationController.MergeIdentity | controller/notificationController.js:103-111 | an empty update keeps the preferences, and repeating an update changes nothing more |
| NotificationController.UpdatePrefsRules | controller/notificationController.js:89-121 | a failure iff the caller has no user record, changing nothing; otherwise only the caller's record changes, to the merged flags |
| NotificationController.SendRules | controller/notificationController.js:124-185 | refusals are 400 and write nothing, and neither user ids nor send-to-all is refused; a send appends one valid unread notification for every user who is opted in to the kind (and has the role, or is listed) and for no one else, and reports how many |
| NotificationController.Targets | controller/notificationController.js:139-162 | the targets are exactly the ids of the reached users (opted in to the kind, and named when a list of users is given), one per reached user |
| NotificationController.SendNobody | controller/notificationController.js:160-162 | when no user is opted in to the kind, the send is a 400 and writes nothing |
| NotificationController.StatsRules | controller/notificationController.js:205-229 | the stats count every notification once and no more unread than in all, with one entry per kind present, each counting at least one notification and no more unread than its count |
| NotificationController.StatsOf | controller/notificationController.js:205-229 | every notification is counted in the total, and neither the unread count nor any per-kind count exceeds it |
| StatsController.SellerTotals | controller/statsController.js:79-88 | the nested `forEach` computes the seller's revenue (Σ price × quantity) and items sold (Σ quantity) over the projected lines |
| StatsController.OrderTotals | controller/statsController.js:408-417 | the admin loop computes the sum of the order totals and of every line's quantity |
| StatsController.NoLinesOfOthers | controller/statsController.js:66-76 | the `$filter` projection of an order without a line of the seller is empty |
| StatsController.RevenueSnoc | controller/statsController.js:83-88 | one more order adds exactly its projected lines to both totals |
| StatsController.RevenueIgnoresMatch | controller/statsController.js:58-77 | the `"items.seller"` condition changes neither total, only the number of orders |
| StatsController.RevenueIgnoresOthers | controller/statsController.js:66-76 | adding another seller's line to an order leaves the seller's totals as they were |
| StatsController.PeriodStart | controller/statsController.js:44-56 | a start date exists exactly for the periods day, month and year, and it is the start of that day, month or year respectively |
| StatsController.Rounded | controller/statsController.js:101-102 | `Math.round(x * 100) / 100` is within half a cent of x |
| StatsController.GetSellerSalesAnalytics | controller/statsController.js:38-105 | answers what SellerAnalyticsOf defines, computing the totals by the loop |
| StatsController.GetAdminSalesAnalytics | controller/statsController.js:388-434 | answers what AdminAnalyticsOf defines, computing the totals by the loop |
| StatsController.ReportAverages | controller/statsController.js:90-102 | the averages are 0 with no orders and otherwise within half a cent of the exact ratios |
| StatsController.SellerAnalyticsRules | controller/statsController.js:38-105 | 404 without a profile; 400 iff the period (default month) is unknown; otherwise the seller's totals over every non-cancelled order of the window, with at most as many orders as stored, and all zero when no order matches |
| StatsController.SellerAnalyticsOf | controller/statsController.js:38-105 | 404 without a seller profile; with one, 400 exactly for an unknown period; a success reports the period (default month), its start date, and no more orders than exist |
| StatsController.AdminAnalyticsRules | controller/statsController.js:388-434 | 400 iff the period is unknown; otherwise the order count is that of the window's non-cancelled orders and no cancelled order is counted |
| StatsController.AdminAnalyticsOf | controller/statsController.js:388-434 | the only refusal is 400, exactly for an unknown period; a success reports the period (default month), its start date, and no more orders than exist |
| StatsController.GetSellerDashboardStats | controller/statsController.js:192-244 | answers what SellerDashboardOf defines, computing the revenue by the loop |
| StatsController.GetAdminDashboardStats | controller/statsController.js:502-527 | answers what AdminDashboardOf defines, computing the revenue by the loop |
| StatsController.CustomersAtMost | controller/statsController.js:231-233 | there are never more distinct customers than orders, and some order means some customer |
| StatsController.SellerDashboardRules | controller/statsController.js:192-244 | the revenue is the seller's over every live order; transactions and customers are at most the seller's orders; every customer of the seller's orders, cancelled ones included, is counted; products are at most all products |
| StatsController.SellerDashboardOf | controller/statsController.js:192-244 | refused with 404 exactly without a seller profile; otherwise no more transactions than orders and no more products than stored |
| StatsController.FilterBoth | controller/statsController.js:202-208 | adding a condition to the `$match` never matches more orders |
| StatsController.AdminDashboardRules | controller/statsController.js:502-527 | customers are between 1 and the number of orders when there is one, transactions count the non-cancelled orders and products all products |
| StatsController.AdminDashboardOf | controller/statsController.js:502-527 | every product is counted; the transactions are the orders not cancelled; the customers number at most the orders, and at least one when there is an order |
| StatsController.Provinces | controller/statsController.js:168-169 | one province per address: its city, or "Unknown" when the city is empty or absent |
| StatsController.Occurs | controller/statsController.js:170-173 | a province that never occurs is counted 0 times |
| StatsController.TallySnoc | controller/statsController.js:170-173 | counting one more province is one step of `provinceStats[p]++` |
| StatsController.CitiesNext | controller/statsController.js:166-176 | visiting one more order adds its customer's provinces |
| StatsController.CountAddresses | controller/statsController.js:168-174 | the inner loop counts each address of one customer |
| StatsController.ProvinceCounts | controller/statsController.js:164-176 | the counting loops build the tally of every address of every order's customer |
| StatsController.TotalBump | controller/statsController.js:173 | raising one count by one raises the total by one |
| StatsController.BumpFound | controller/statsController.js:170-173 | counting a province that has an entry raises that entry alone and keeps the tally exact |
| StatsController.BumpNew | controller/statsController.js:170-173 | counting a new province appends its entry with 1 and keeps the tally exact |
| StatsController.TallyRules | controller/statsController.js:164-176 | the tally has one entry per province seen, each holding its number of addresses (at least 1), and the counts add up to the number of addresses |
| StatsController.GetSellerProvinceStats | controller/statsController.js:154-189 | answers what SellerProvinceStatsOf defines, counting by the loops |
| StatsController.GetAdminProvinceStats | controller/statsController.js:471-499 | answers what AdminProvinceStatsOf defines, counting by the loops |
| StatsController.SortedCounts | controller/statsController.js:178-180 | sorting the entries keeps every entry's count and the set of provinces |
| StatsController.ProvinceStatsRules | controller/statsController.js:471-499 | the report is a permutation of the tally, highest count first, one entry per province seen with its exact count, the counts adding up to the number of addresses |
| StatsController.StatsOf | controller/statsController.js:178-186 | the report lists every tally entry once (a permutation), highest count first, and totalProvinces is their number |
| StatsController.SellerProvinceStatsOf | controller/statsController.js:154-189 | refused with 404 exactly without a seller profile; otherwise the provinces are highest count first and totalProvinces is their number |
| StatsController.AdminProvinceStatsOf | controller/statsController.js:471-499 | the provinces are highest count first and totalProvinces is their number |
| StatsController.CitiesCount | controller/statsController.js:476-486 | every address of every order's customer with an address list is counted once |
| StatsController.PrefixHoldsBetter | controller/statsController.js:24-27 | the first n of a list sorted by `sold` include every product that sold more than one of them |
| StatsController.PrefixOfSorted | controller/statsController.js:26-27 | the `limit` keeps a sorted sub-multiset |
| StatsController.TopRules | controller/statsController.js:586-591 | `sort({ sold: -1 }).limit(n)` returns min(n, count) products (10 by default) drawn from the candidates, highest `sold` first, and leaves out none that sold more than one shown |
| StatsController.SellerPopularRules | controller/statsController.js:16-35 | 404 without a seller profile; otherwise only the seller's own products |
| StatsController.SellerPopularOf | controller/statsController.js:16-35 | refused with 404 exactly without a seller profile; otherwise no more products than stored, best sellers first |
| StatsController.AdminPopularRules | controller/statsController.js:367-385 | with a `sellerId` only that seller's products; otherwise as many products as the best-seller list |
| FeaturedAdmin.FeaturedStore.constructor | models/featuredProductModel.js:3-20 | the featured collection starts empty with the first id |
| FeaturedAdmin.FeaturedStore.Create | controller/statsController.js:629-632 | `create` appends the new set and advances the id counter |
| FeaturedAdmin.SetFeaturedProducts | controller/statsController.js:614-638 | the handler's result and new collection are the ones SetFeaturedRequest defines |
| FeaturedAdmin.SetFeaturedRequest | controller/statsController.js:614-638 | a missing list or one not of nine ids is 400; a refusal changes nothing; a stored set names nine distinct existing products and is appended by the caller at now |
| FeaturedAdmin.SubsetCard | controller/statsController.js:621-627 | a subset of the requested ids is no larger than the set of them |
| FeaturedAdmin.DistinctCard | controller/statsController.js:621-627 | a list of ids has at most as many distinct ids as entries, and exactly as many iff none repeats |
| FeaturedAdmin.FoundNine | controller/statsController.js:621-627 | for nine ids, finding nine products means every id exists and none repeats, and conversely |
| FeaturedAdmin.SetFeaturedRules | controller/statsController.js:614-638 | a set is stored iff exactly nine distinct existing product ids are given; it is appended with the caller as editor; every refusal is 400 and leaves the collection unchanged |
| FeaturedAdmin.GetFeaturedRules | controller/statsController.js:604-611 | nothing is shown iff no set is stored; otherwise the set shown is a stored one updated no earlier than any other |
| FeaturedAdmin.GetFeatured | controller/statsController.js:604-611 | nothing exactly when no set is stored; otherwise a stored set updated no earlier than any other |
| FeaturedAdmin.SetThenGet | controller/statsController.js:604-638 | a set stored after every other is the one shown afterwards |
| FeaturedProductModel.RepeatsPass | models/featuredProductModel.js:22-27 | the pre-save hook counts entries only, so nine copies of one product pass it |
| BannerModel.BannerKinds | models/bannerModel.js:3-60 | a saved banner is in one of three slots; a structured one has a headline of at most 100 and a call to action of at most 50 characters, both non-empty; an html one has non-empty content |
| BannerModel.AtMostThreeBanners | models/bannerModel.js:5-10 | the enum and the unique index on `slot` leave room for at most three banners |
| BannerModel.SlotCount | models/bannerModel.js:9 | with unique slots as many slots are in use as there are banners |
| BannerModel.SubsetSize | models/bannerModel.js:7 | a subset of the slot names is no larger than the enum |
| AdModel.SlotsDisjoint | models/adModel.js:5-10 | the ad and banner slot enums share no name, so no document passes both schemas |
| AdModel.AdKinds | models/adModel.js:11-60 | a saved ad is structured or html; a structured one has headline, description and call to action, an html one its content |
| PlacementAdmin.IndexOf | controller/statsController.js:665-668 | `findById` finds the position of the document with that id, or reports that none has it |
| PlacementAdmin.PlacementStore.constructor | models/adModel.js:3-45 | a collection starts empty, with its schema's slot names and unique slots |
| PlacementAdmin.PlacementStore.Insert | controller/statsController.js:655 | inserting a placement whose slot is free appends it, advances the id counter and keeps slots unique |
| PlacementAdmin.PlacementStore.Put | controller/statsController.js:665-668 | replacing one placement by a version whose slot is free elsewhere changes that entry alone and keeps slots unique |
| PlacementAdmin.PlacementStore.Delete | controller/statsController.js:682 | removing one placement removes that entry alone and keeps slots unique |
| PlacementAdmin.CreatePlacement | controller/statsController.js:654-661 | createAd and createBanner give the result and collection that CreateRequest defines, keeping slots unique |
| PlacementAdmin.UpdatePlacement | controller/statsController.js:664-678 | updateAd and updateBanner give the result and collection that UpdateRequest defines, keeping slots unique |
| PlacementAdmin.DeletePlacement | controller/statsController.js:681-692 | deleteAd and deleteBanner give the outcome and collection that DeleteRequest defines, keeping slots unique |
| PlacementAdmin.CreateRequest | controller/statsController.js:654-661 | a refusal is Invalid or, for a slot already in use, a duplicate-key server error, changing nothing; otherwise the valid placement with the next id is appended and no other placement has its slot |
| PlacementAdmin.UpdateRequest | controller/statsController.js:664-678 | Invalid exactly when the body fails its validators, 404 exactly for a valid body and unknown id, both changing nothing; otherwise only that placement changes, keeps its id, and no other holds its slot |
| PlacementAdmin.DeleteRequest | controller/statsController.js:681-692 | 404 exactly for an unknown id, changing nothing; otherwise that placement alone is removed |
| PlacementAdmin.CreateRules | controller/statsController.js:654-661 | a created placement passed the validators and the hook, got the next id, is active unless the body says otherwise, and is appended; a taken slot is the duplicate-key error iff the document was otherwise valid; a failure changes nothing |
| PlacementAdmin.UpdateRules | controller/statsController.js:664-678 | 404 iff the body passes its validators and no placement has the id; a success replaces that placement alone, keeping it valid for the field validators; slots stay unique and a failure changes nothing |
| PlacementAdmin.UpdateSkipsHook | controller/statsController.js:664-667 | an update runs the field validators but not the pre-save hook, so clearing a structured placement's headline is accepted |
| PlacementAdmin.DeleteRules | controller/statsController.js:681-692 | 404 iff no placement has the id, and then nothing changes; otherwise exactly that placement is removed |
| PlacementAdmin.ActiveRules | controller/statsController.js:355-362 | the public lists (lines 695-703 and 760-768) hold exactly the active placements; the seller ad exists iff some active placement holds the `sellerAd` slot, and it is one |
| PlacementAdmin.ActiveOf | controller/statsController.js:695-703 | a placement is listed exactly when it is stored and active, each as often as stored |
| PlacementAdmin.SellerAd | controller/statsController.js:355-362 | nothing exactly when no stored placement is an active sellerAd; otherwise a stored, active placement in the sellerAd slot |
| SalesTargetAdmin.Retire | controller/statsController.js:271-274 | `updateMany` deactivates exactly the seller's active targets and keeps every other entry and the length |
| SalesTargetAdmin.TargetStore.constructor | models/salesTargetModel.js:3-36 | the target collection starts empty with the first id |
| SalesTargetAdmin.TargetStore.RetireSeller | controller/statsController.js:271-274 | the stored targets become Retire of the old ones; ids are kept |
| SalesTargetAdmin.TargetStore.Create | controller/statsController.js:277-284 | `create` appends the target and advances the id counter |
| SalesTargetAdmin.SetSellerSalesTarget | controller/statsController.js:246-290 | the handler's result and new collection are the ones SetTargetRequest defines |
| SalesTargetAdmin.SetTargetRequest | controller/statsController.js:247-290 | no profile → 404; a missing or zero amount, or a period other than monthly or yearly → 400, both changing nothing; a schema refusal leaves the seller's targets retired; otherwise an active target of the seller with that amount and period is appended after retiring the seller's old ones |
| SalesTargetAdmin.SetTargetRules | controller/statsController.js:246-290 | 404 without a profile; 400 for a missing or zero amount or period and for a period other than monthly or yearly, changing nothing; a stored target is active, positive, last and the seller's only active one; a negative amount fails validation after the seller's targets were retired; other sellers' targets are untouched |
| SalesTargetAdmin.GetSellerSalesTarget | controller/statsController.js:293-352 | answers what GetTargetRequest defines, summing the window's revenue by the loop |
| SalesTargetAdmin.GetTargetRequest | controller/statsController.js:293-352 | 404 exactly without a profile; no data exactly when the seller has no active target; otherwise a stored active target of the seller with its own window's revenue |
| SalesTargetAdmin.ProgressClose | controller/statsController.js:342-349 | the progress is the percentage of the target reached, to within half a hundredth |
| SalesTargetAdmin.Progress | controller/statsController.js:342-349 | no progress exactly for a zero target amount; otherwise the percentage of the target reached, to within half a hundredth |
| SalesTargetAdmin.GetTargetRules | controller/statsController.js:293-352 | no data iff the seller has no active target; otherwise an active target of the seller, with the seller's revenue over the live orders of its window |
| SalesTargetAdmin.SetThenGet | controller/statsController.js:246-352 | after a target is stored the seller's report is about that target |
| SalesTargetAdmin.AllTargetsRules | controller/statsController.js:530-582 | the list succeeds iff every active target's seller exists; it then has one report per active target, each with that target's own revenue |
| SalesTargetAdmin.AllTargetsOf | controller/statsController.js:530-582 | the only failure is a server error; a success has one report per active target, each about an active target whose seller exists |
| SocialLinksModel.EmptyLinksValid | models/socialLinksModel.js:9-59 | every validator accepts an empty value, so a record of empty strings is valid |
| SocialLinksModel.UrlPrefixOnly | models/socialLinksModel.js:30 | the URL validators test only the `http://` or `https://` prefix: anything may follow it |
| SocialLinksModel.PhoneRules | models/socialLinksModel.js:10-20 | every valid phone is a valid WhatsApp value, and no URL passes as a phone number |
| SocialLinksController.SocialLinksStore.constructor | models/socialLinksModel.js:3-71 | the collection starts empty with the first id |
| SocialLinksController.SocialLinksStore.SaveFirst | controller/socialLinksController.js:35-43 | saving the edited record replaces the first record alone |
| SocialLinksController.SocialLinksStore.Create | controller/socialLinksController.js:46-54 | `create` appends the record and advances the id counter |
| SocialLinksController.UpdateSocialLinks | controller/socialLinksController.js:28-62 | the handler's result and new collection are the ones UpdateRequest defines |
| SocialLinksController.UpdateRequest | controller/socialLinksController.js:28-62 | the update is accepted exactly when the WhatsApp number, the phone number and the four URLs it would save (each the supplied value when non-empty, else the stored one, or empty for a new record) pass their validators; a rejected record is Invalid and changes nothing; otherwise the first record (or a new one with the next id when none exists) is the valid result, edited by the caller, and every other record is kept |
| SocialLinksController.UpdateKeepsOrReplaces | controller/socialLinksController.js:33-43 | on an existing record each link becomes the supplied value when it is non-empty and keeps its old value otherwise, so a link cannot be cleared; the editor is the caller and only the first record changes |
| SocialLinksController.UpdateCreatesOnlyFirst | controller/socialLinksController.js:44-55 | a record is created only when none exists, with the next id and the caller as editor, and an empty body creates six empty links; an update of an existing record never adds one; a refusal is a validation error that changes nothing |
| SocialLinksController.SingleRecord | controller/socialLinksController.js:6-62 | from at most one record an update leaves at most one, and the public read then shows what was saved |
| SocialLinksController.GetRules | controller/socialLinksController.js:6-25 | with no record the read shows six empty strings; otherwise the links of a stored record created no earlier than any other |
| SocialLinksController.GetRequest | controller/socialLinksController.js:6-25 | with no record six empty strings; otherwise the links of a stored record created no earlier than any other |
| Listing.SortDesc | controller/inventoryController.js:126 | the newest-first sort returns a permutation of the history, sorted by descending key |
| Listing.SortDescMembers | controller/inventoryController.js:126 | sorting neither adds nor drops an entry |
| Listing.SortDescHead | controller/socialLinksController.js:7 | the first entry of the newest-first order is an entry of the list with the largest key, which is what `findOne().sort({ createdAt: -1 })` returns |
| Listing.FilterAppend | controller/cartController.js:154 | filtering a concatenation filters each part and joins the results, so a filter keeps the survivors in order |
| Listing.NegativeProduct | controller/notificationController.js:10 | the skip `(page - 1) * limit` is negative exactly when one factor is negative and the other positive |
| Listing.KeyRun | controller/inventoryController.js:126 | the entries with a given key, in list order, each having that key |
| Listing.SortDescStable | controller/inventoryController.js:126 | the sort is stable: for every key, the entries with that key come out in the order they went in |
| Listing.SliceIndex | controller/inventoryController.js:127 | a `slice` index counts back from the end when negative and is then clamped to 0 .. length |
| Listing.JsSlice | controller/inventoryController.js:127 | `slice(start, end)` is exactly the run of the list between the two resolved indices, empty when the end does not lie after the start |
| Listing.Page | controller/inventoryController.js:122-127 | a page, for any page and limit, is the run between the resolved slice indices of (page − 1)·limit and (page − 1)·limit + limit |
| Listing.PageWindow | controller/inventoryController.js:122-127 | for page, limit ≥ 1 the page is the window of `limit` entries from (page − 1)·limit, shorter at the end |
| Listing.PageMinusOne | controller/inventoryController.js:122-127 | page −1 is the window of `limit` entries starting 2·limit before the end |
| Listing.PageCount | controller/inventoryController.js:135 | for a positive limit, `Math.ceil(total / limit)` is the least page count whose pages hold every record |
| Listing.PageContents | controller/inventoryController.js:122-127 | for page, limit ≥ 1 a page holds at most `limit` entries, namely those from (page − 1)·limit on, and it is non-empty exactly for pages 1 to numberOfPages |
| Listing.PageCovers | controller/inventoryController.js:122-127 | entry k of the list is entry k mod limit of page k / limit + 1, so no entry falls between pages |
| Listing.PageOfSorted | controller/inventoryController.js:126-127 | a page of the sorted history is sorted and holds only history entries |
| Listing.SortedFilterPage | controller/notificationController.js:8-30 | a page of the filtered, newest-first notifications is sorted and holds only notifications that pass the filter |
| Listing.Include | controller/variationController.js:25-30 | `includes`-then-`push` leaves the value in the list, keeps the list when it was already there and appends it otherwise |
| Listing.IncludeMembers | controller/variationController.js:25-30 | after the push the members are the old ones plus the value, and a list without duplicates stays without duplicates |
| Base.CeilRatio | controller/inventoryController.js:135 | `Math.ceil(a / b)`: the least integer not below the exact ratio, for either sign of divisor |
| Base.RoundUpToFive | controller/cartController.js:14 | `Math.ceil(x / 5) * 5` is the least multiple of five that is not below x |
| Base.Round | controller/orderController.js:123 | `Math.round` gives the integer within one half of x, halves going up |
| Base.Upper | controller/variationController.js:36 | `toUpperCase` on ASCII: the length is kept, each lower-case ASCII letter becomes its capital, every other character is kept, and no lower-case ASCII letter remains |
| Base.Lower | models/sellerModel.js:31 | the schema's `lowercase: true` on ASCII: the length is kept, each capital ASCII letter becomes its lower-case letter, every other character is kept, and no capital ASCII letter remains |
| Base.UpperIdempotent | controller/variationController.js:36 | upper-casing twice is upper-casing once |
| Base.LowerIdempotent | models/sellerModel.js:31 | lower-casing twice is lower-casing once |

## Findings

| source | as written | input that shows it | evidently intended | confidence | as-written member | corrected member |
|---|---|---|---|---|---|---|
| controller/orderController.js:240-250 | `ensureSellerOwnsOrder` compares `productIds` with `item.product.toString()`. The order was loaded with `findById`, whose `pre(/^find/)` hook (models/orderModel.js:97-110) populates `items.product`, so the string is the rendered product document, not its id; a deleted product populates as `null` and `toString()` throws | an order whose single item is a product of the calling seller: updateSellerOrder answers 403 | the seller may update an order that holds one of their products | medium, not executed; it rests on Mongoose rendering a populated document, not its id | OrderController.WrittenSellerUpdateNeverApplies | OrderController.SellerUpdateNeedsOwnership |

## Left out

- Base.Upper and Base.Lower: map ASCII letters only. JavaScript's `toUpperCase` and `toLowerCase` follow the Unicode case tables, where 'é' becomes 'É', 'ß' becomes "SS" and 'İ' becomes two code units, so the length can change. Variation SKUs and the stored, lower-cased emails therefore agree with the source only on ASCII text.
- Base.IsSpace: is ASCII white space only (space, tab, line feed, carriage return, vertical tab, form feed). The JavaScript `\s` class also matches Unicode spaces such as U+00A0, U+2028 and U+FEFF. So the model keeps those characters in a generated variation sku (Base.CollapseSpaces, variationController.js:568), where the code would turn them into "-", and it rejects a cardholder name that holds one (paymentMethodValidator.js:10 and :59), which the code accepts.
- Concurrency: each request runs alone. Read-modify-write races, `bulkWrite` atomicity, `Promise.all` and the duplicate-key race in seller-profile provisioning are not modelled beyond the duplicate-key branch itself.
- Floating point: JS `Number` arithmetic (discounts, coupon, taxes, `sellerTaxes`, `amount_cents / 100`, averages, progress, `Math.round`) is exact integer or real arithmetic here, so float artefacts are not captured.
- Clocks: `Date.now`, `new Date()` stamps, the statistics period windows and the current year of the expiry validator are parameters.
- Randomness and libraries: the random SKU candidates, the high-resolution fallback SKU, `slugify` and the random customer id are parameters.
- Network: the Paymob HTTP calls in `checkOutSession` are left out; only its price arithmetic is modelled. The webhook payload is reduced to the fields the dispatch reads.
- Code outside this model: `couponModel`, the settings source of taxes and shipping, `ApiFeatures` and `controllerHandler` (`getAllOrders`, `deleteOrder`, `filterOrderForUsers`, the generic product handlers) are not part of this model. Their results are inputs.
- Population and aggregation: `populate`, `$lookup` and `$group` pipelines are modelled by their effect on the fields the handlers read. The one place where population changes a comparison, the populated `items.product` in `ensureSellerOwnsOrder`, is modelled as written under Findings; the handler itself is modelled with the id comparison. The customer-growth handlers, which group first purchases by `$year`/`$month`, are left out.
- OrderController.UpdateSellerOrder: modelled with the intended id comparison, so it saves updates that the code as written refuses (`OrderController.WrittenSellerUpdateNeverApplies`).
- OrderController.SellerUpdateNeedsOwnership and OrderController.SellerUpdateRequest: state the ownership rule with the intended id comparison; the rule as written, under which every such update is refused, is `OrderController.WrittenSellerUpdateNeverApplies`.
- CustomerController.OrderOfLink: user ids and seller-profile ids share one `Id` type. A link's `sellerId` is the seller's user id (the link schema refers to `User`), while an order item's `seller` is a seller-profile id, so in the running system the `items.seller` condition of getCustomerDetails and getCustomerOrderHistory matches no order and their statistics and pages are empty. The model states what the handlers compute for the ids they are given and does not tell the two kinds apart.
- CustomerController.GetCustomerDetails and CustomerController.HistoryPaging: see the line above; the orders they count and page are the ones `OrderOfLink` selects.
- InventoryController: each handler takes the outcome of resolving the caller's seller profile as its `seller` parameter. The profile that `findOrCreateSellerProfile` may create on the way is modelled by `SellerProfile.FindOrCreateSellerProfile` on its own and is not part of each inventory handler's state change.
- VariationController.GenerateCombinations: the `matrix` field of the answer, a grouping of the added labels' values under their first-axis value, is not modelled. It is computed for the response only and nothing is stored from it.
- getLowStockVariations: calls a product method that the product model does not define, so it has nothing to model.
- VariationController.FindVariation: the product model does not define `findVariation`, so this is an assumed exact, case-sensitive match of color and size.
- The request validators (express-validator chains) are `requires` clauses where they bound a handler's input: inventory quantity at least 1, the seller and courier order statuses, the 8-character coupon code, the card body and cardholder name (`PaymentMethodController.AddAccepted`, `PaymentMethodController.NameAccepted`), the customer body (`CustomerController.BodyAccepted`), the notification body (`NotificationController.SendAccepted`), the courier profile body (`DeliveryController.BodyAccepted`) and the seller's order update (`OrderController.SellerBodyAccepted`). A body these refuse gets the validator's 400, which is not modelled.
- ProductImport.RowValid: the title length is checked on the title as given. The product schema trims the title before checking 3 to 100 characters, so a row whose title is padded with spaces can be judged differently.
- deleteSellerOrder: guarded by the same ownership check and then a plain delete; it is not modelled separately (as written it never deletes, for the reason under Findings).
- The courier's getMyProfile, updateMyProfile, updateStatus, updateLocation and getMyStats, and the seller application's getAllApplications, getApplicationDetails, getApplicationStats and getMyApplicationStatus are plain reads or field copies with no rule beyond what the modelled handlers state.
- updateCustomer and deleteCustomer (field copies and a link delete), getAllCustomers (`ApiFeatures` paging) and getMyNotificationPreferences (a plain read) are left out for the same reason.
- getAds and getBanners return the whole collection and are not modelled separately. The active lists and the seller ad are modelled.
- StatsController.OrderTotals: a missing `totalOrderPrice`, which the source counts as 0, cannot occur, because every modelled order carries a total.
- StatsController.ProvinceStatsRules: provinces are kept in first-seen order before the sort. `Object.entries` lists integer-like keys first, so for city names that are numbers the order among equal counts can differ.
- DeliveryController.NearbyOrders: the city condition is a parameter. The query compares `customer.city` and `customer.addresses.city` with the courier's `currentCity`, but an order stores its customer as an id, so what that condition matches depends on the database and not on the handler. `ApiFeatures` paging of the result is left out.
- DeliveryController.DeliveryUpdateMeaning: an absent `deliveryNotes` is taken to be dropped from the update, which leaves the stored notes as they were. The source passes it as `undefined`.
- Authentication, JWT, OAuth, e-mail, image uploads, routes and the one-off index migration are outside the modelled core.
