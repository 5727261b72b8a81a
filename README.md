# Storefront cart and catalog model

A Dafny model of the logic of a small bilingual (French / Arabic) React
storefront. It covers:

- the shop context: the cart reducer, its derived totals and the translation lookup;
- the catalog page's derivation of the shown products: search, price window, sort, grouping by category and the header category list;
- the product page's lookup, similar products and quantity stepper;
- the search dropdown;
- the cart side panel;
- the header's category split and menus;
- the order form's submit sequence.

Modelling choices:

- **Pure code.** Pure code (the reducer, the filters, the derived values) becomes datatypes, functions and lemmas.
- **Component state.** Component state that handlers update step by step becomes a class whose methods change its fields:
  - `Shop` for the provider;
  - `Page`, `ProductPage`, `Dropdown`, `Panel`, `Menus` and `Form` for the components.
- **The catalog pipeline.** `groupedProducts` sorts an array in place and fills a map in a loop. It is modelled as the method `IndexPage.GroupedProducts`, with an in-place insertion sort on an `array`. Both are proved against the reference functions `SortedBy`, `Bucket` and `GroupBy`.
- **Prices and quantities.** Both are unbounded integers.
- **Text operations:**
  - `toLowerCase` is ASCII lower-casing (`Text.Lower`);
  - `localeCompare` is a code-unit lexicographic order (`Text.LexLe`);
  - `trim` strips ASCII whitespace, no-break space and the byte-order mark.
- **Callbacks.** Callbacks that a component receives from its parent are results of the methods:
  - `onCategoryChange` becomes a returned `Selection`;
  - `onSearchChange('')` becomes a returned empty query;
  - navigation becomes a returned route id;
  - `onSubmit` / `onCancel` become a returned list of `Callback` values.
- **Typed values.**
  - `Number(id)` and `parseInt(value)` become `Option<int>`, with `None` for NaN.
  - The saved cart and language read at start-up are `Option` parameters of `Shop.Hydrate`.

Where the code and the written design of the project disagree, the model follows the code:

- **Orders are never sent.** No shown component sends an order.
  - `OrderForm` only forwards the customer data to an optional `onSubmit`, and neither of its callers passes one.
  - So the model has no order submission and no "clear the cart after a successful order".
- **The product page's items are ignored.** The product page hands `initialItems` to `OrderForm`, which ignores them. The order summary always shows the cart.
- **Stock is not checked when adding.** The reducer itself never checks stock. Every add button (product page, product card, product modal) is withheld or refuses when the stock is 0, but the quantity added is capped neither against what is already in the cart nor, after a navigation between products, against the new product's stock.
- **No price constraint.** Nothing enforces `price <= originalPrice`.
- **The language is part of the cart state.** The shop state holds `language` next to `cartItems` and `isCartOpen`. The saved language is taken as stored, without a check.
- **Behaviour kept as written.**
  - The catalog page passes no `allProducts` to the header. The header's search dropdown therefore searches an empty list and never lists a result (`SearchBar.NoProductsNoResults`).
  - The cart panel's − / + buttons set the quantity of every colour of the product, and − on a quantity-1 line removes every colour (`CartPanel.MinusOnOneRemovesAllColours`).
  - Setting a quantity also drops any other line whose quantity was already not positive.
  - A product without a `discount` field counts as a promotion (`ProductDetails.PromoWithoutDiscount`).
  - The product page keeps its stepper quantity when a similar-product link changes the shown product, so it can add more units than the new product's stock (`ProductDetails.CarriedQuantityExceedsStock`).
  - Every category gets a bucket, so "no products found" shows only for a catalog without categories.

## Model

| member | source | states |
|---|---|---|
| ShopContext.InitialState | src/contexts/ShopContext.tsx:21-25 | the starting state is an empty cart, French, panel closed |
| ShopContext.AddLine | src/contexts/ShopContext.tsx:29-49 | with a line for (id, colour) already present: same length, that line's quantity raised by the added quantity, every other line unchanged and in place; otherwise exactly the old lines plus one new line at the end; afterwards the key always has a line |
| ShopContext.BumpLines | src/contexts/ShopContext.tsx:38-42 | lines with the (id, colour) key gain the quantity, all others are kept, length and order preserved |
| ShopContext.RemoveLines | src/contexts/ShopContext.tsx:51-55 | a line survives iff its product id differs, whatever its colour, each surviving line as often as before, and the survivors keep their relative order |
| ShopContext.SetLineQuantities | src/contexts/ShopContext.tsx:56-60 | every line of the product gets max(0, q), every other line unchanged, length and order preserved |
| ShopContext.UpdateLines | src/contexts/ShopContext.tsx:56-64 | the result is exactly the positive lines of the floored per-line update, each as often as there and in the same order; so no quantity is ≤ 0, lines of the product carry the new quantity or vanish when it is ≤ 0, other positive lines stay, and on a cart of positive lines with q > 0 nothing is dropped |
| ShopContext.Reduce | src/contexts/ShopContext.tsx:27-93 | the reducer: only a cart action changes the cart, only SET_LANGUAGE the language, only TOGGLE_CART / SET_CART_OPEN the panel flag |
| ShopContext.ReduceChangesOnlyItsSlice | src/contexts/ShopContext.tsx:27-93 | cart actions touch only the cart, SET_LANGUAGE only the language, TOGGLE / SET_CART_OPEN only the panel flag; CLEAR empties, LOAD replaces wholesale, ADD without a quantity adds 1 |
| ShopContext.ReducePreservesInvariant | src/contexts/ShopContext.tsx:27-93 | if every quantity is positive and no (id, colour) key repeats, every action with a positive added quantity (and a valid loaded cart) keeps both |
| ShopContext.UpdateToZeroRemovesProduct | src/contexts/ShopContext.tsx:56-64 | setting a quantity ≤ 0 leaves no line of that product in any colour |
| ShopContext.AddLineKeyFacts | src/contexts/ShopContext.tsx:29-49 | after an add the key has exactly max(1, old count) lines and its quantity grew by the added quantity |
| ShopContext.RepeatedAddsAccumulate | src/contexts/ShopContext.tsx:29-49 | any non-empty series of adds of one key leaves exactly one line whose quantity is the old quantity plus the sum of the added quantities |
| ShopContext.AddChangesTotals | src/contexts/ShopContext.tsx:29-49 | an add raises the item count by the added quantity and the total by quantity × the price on the key's line (or the product's price for a new line) |
| ShopContext.TotalFoldIsSum | src/contexts/ShopContext.tsx:226-228 | the reduce fold of the total equals the start value plus Σ price × quantity |
| ShopContext.CountFoldIsSum | src/contexts/ShopContext.tsx:230-232 | the reduce fold of the count equals the start value plus Σ quantity |
| ShopContext.CartTotal | src/contexts/ShopContext.tsx:226-228 | the cart total is Σ price × quantity over the lines |
| ShopContext.CartItemsCount | src/contexts/ShopContext.tsx:230-232 | the item count is Σ quantity, and at least the number of lines when all quantities are positive |
| ShopContext.CountAtLeastLines | src/contexts/ShopContext.tsx:230-232 | with positive quantities Σ quantity is at least the number of lines |
| ShopContext.TotalsExample | src/contexts/ShopContext.tsx:226-232 | two of a 100 product and one of a 50 product make total 250 and count 3 (not 2 lines) |
| ShopContext.T | src/contexts/ShopContext.tsx:234-236 | the current language's translation when the key is present, otherwise the key itself |
| ShopContext.TranslationsCoverSameKeys | src/contexts/ShopContext.tsx:110-159 | the French and Arabic tables translate the same keys |
| ShopContext.Shop.constructor | src/contexts/ShopContext.tsx:162 | the provider starts in the initial state |
| ShopContext.Shop.Dispatch | src/contexts/ShopContext.tsx:162 | the state becomes the reducer applied to the old state |
| ShopContext.Shop.Hydrate | src/contexts/ShopContext.tsx:165-180 | a saved cart replaces the cart and a saved language replaces the language; the panel flag is untouched |
| ShopContext.Shop.AddToCart | src/contexts/ShopContext.tsx:194-200 | dispatches ADD_TO_CART with quantity defaulting to 1; the new cart is the merge-or-append of the old |
| ShopContext.Shop.RemoveFromCart | src/contexts/ShopContext.tsx:202-204 | the new cart drops every line of the product |
| ShopContext.Shop.UpdateQuantity | src/contexts/ShopContext.tsx:206-208 | the new cart is the floored update with non-positive lines dropped |
| ShopContext.Shop.ClearCart | src/contexts/ShopContext.tsx:210-212 | the cart empties, language and panel flag kept |
| ShopContext.Shop.SetLanguage | src/contexts/ShopContext.tsx:214-216 | only the language changes |
| ShopContext.Shop.ToggleCart | src/contexts/ShopContext.tsx:218-220 | only the panel flag flips |
| ShopContext.Shop.SetCartOpen | src/contexts/ShopContext.tsx:222-224 | only the panel flag changes, to the given value |
| IndexPage.CategoriesHeader | src/pages/Index.tsx:34-44 | no catalog gives no entries; otherwise exactly the projections of the categories with at least one product, each as often as in the catalog and in catalog order, so an entry is present iff such a category projects to it |
| IndexPage.CategoriesHeaderInOrder | src/pages/Index.tsx:37-43 | the header entries keep the catalog's order |
| IndexPage.SearchFilter | src/pages/Index.tsx:54-61 | a query that trims to nothing filters nothing; otherwise a product survives iff its lower-cased name, or its category when present, contains the lower-cased untrimmed query; order kept |
| IndexPage.SearchExample | src/pages/Index.tsx:54-61 | "phone" keeps an "iPhone 15" in "Electronics" and drops a "Serum" in "Cosmetics" |
| IndexPage.PriceFilter | src/pages/Index.tsx:64-66 | a product survives iff min ≤ price ≤ max, both ends inclusive; order kept |
| IndexPage.FilteredMembers | src/pages/Index.tsx:48-66 | the filtered products are exactly the catalog's products passing both filters, in catalog order |
| IndexPage.LeTotal | src/pages/Index.tsx:69-79 | any two products are comparable in every sort mode |
| IndexPage.LeTransitive | src/pages/Index.tsx:69-79 | each sort mode's order is transitive |
| IndexPage.SortProducts | src/pages/Index.tsx:69-79 | the array ends sorted by the mode (price ascending, price descending, or name) and is a permutation of what it held |
| IndexPage.Bucket | src/pages/Index.tsx:82-87 | a product is in a category's bucket iff its category string equals the category's name; products without a category are in none |
| IndexPage.LastNameFound | src/pages/Index.tsx:82-87 | an id has a bucket name iff it is a category's id (the last category with that id wins) |
| IndexPage.GroupBy | src/pages/Index.tsx:82-87 | every category id is a key, even when its bucket is empty |
| IndexPage.GroupedProducts | src/pages/Index.tsx:48-90 | without a catalog the grouping is empty; otherwise its keys are the category ids and each bucket is sorted by the mode and holds exactly the filtered products of that category name |
| IndexPage.BucketKeepsOrder | src/pages/Index.tsx:69-87 | grouping a sorted list gives sorted buckets |
| IndexPage.SortModeKeepsBuckets | src/pages/Index.tsx:48-90 | two groupings that differ only in the sort mode have the same keys and every bucket holds the same products as a multiset |
| IndexPage.NoProductsOnlyWithoutCategories | src/pages/Index.tsx:151 | the "no products found" view shows iff the catalog has no categories |
| IndexPage.SectionsToRender | src/pages/Index.tsx:153-157 | a category section is rendered iff its bucket is non-empty, as often as the category occurs, in catalog order |
| IndexPage.HasSection | src/pages/Index.tsx:98-99 | the element lookup finds a section iff one of the rendered sections carries the id |
| IndexPage.Page.constructor | src/pages/Index.tsx:17-22 | all categories selected, empty query, price window 0 to 30000, sort by name |
| IndexPage.Page.ScrollToCategory | src/pages/Index.tsx:95-103 | the selection is stored; the page scrolls iff a specific category was chosen, the catalog has loaded and that category's section is rendered (its bucket is non-empty) |
| IndexPage.Page.OnSearchChange | src/pages/Index.tsx:107-113 | only the query changes |
| ProductDetails.FindById | src/pages/ProductDetails.tsx:44-46 | none iff no product has the id; otherwise the first product with that id |
| ProductDetails.FindProduct | src/pages/ProductDetails.tsx:44-46 | nothing without a catalog or a numeric id; otherwise nothing iff no catalog product has the id, and else the first product in catalog order with that id |
| ProductDetails.AllSimilar | src/pages/ProductDetails.tsx:49-55 | exactly the products with the shown product's category and a different id, each as often as in the catalog, in catalog order |
| ProductDetails.SimilarProducts | src/pages/ProductDetails.tsx:49-56 | none without a catalog; otherwise the first min(8, n) of the n similar products, in catalog order |
| ProductDetails.NotSimilarToItself | src/pages/ProductDetails.tsx:49-56 | the shown product is never among its similar products |
| ProductDetails.PromoWithoutDiscount | src/pages/ProductDetails.tsx:79 | promo iff the discount is not an explicit 0, so a missing discount is a promo |
| ProductDetails.TotalPrice | src/pages/ProductDetails.tsx:132 | the displayed price is the cart total of one line of that product and quantity |
| ProductDetails.AddRaisesTotalByDisplayedPrice | src/pages/ProductDetails.tsx:81-100 | adding the page's selection as a new line raises the cart total by the displayed price |
| ProductDetails.ProductPage.constructor | src/pages/ProductDetails.tsx:32-33 | the stepper starts at 1 with no colour, within [1, max(1, stock)] |
| ProductDetails.ProductPage.OnRouteChange | src/App.tsx:34 | a new route id on the mounted page changes the shown product and keeps the quantity and colour |
| ProductDetails.ProductPage.Increment | src/pages/ProductDetails.tsx:120-124 | +1 only below the stock; never below 1, and within max(1, stock) if it was |
| ProductDetails.ProductPage.Decrement | src/pages/ProductDetails.tsx:126-130 | −1 only above 1; never below 1, and within max(1, stock) if it was |
| ProductDetails.ProductPage.OnQuantityInput | src/pages/ProductDetails.tsx:265-270 | a typed value is taken only when 0 < value ≤ stock; an accepted value is within the stock, a refused one leaves the quantity |
| ProductDetails.ProductPage.AddToCart | src/pages/ProductDetails.tsx:81-100 | nothing when the shown product is out of stock; otherwise the cart becomes the add of the current quantity and colour, unchecked against the stock |
| ProductDetails.ProductPage.BuyNow | src/pages/ProductDetails.tsx:102-118 | nothing when the shown product is out of stock; otherwise adds like AddToCart and opens the panel |
| ProductDetails.CarriedQuantityExceedsStock | src/pages/ProductDetails.tsx:32-86 | raising the quantity to 5 on a product with stock 10, then following a link to one with stock 2, adds 5 units of the second product |
| SearchBar.CatalogMatchImpliesSearchBarMatch | src/components/SearchBar.tsx:33-36 | whatever the catalog search keeps the dropdown also matches; the dropdown matches more only through the description |
| SearchBar.AllMatches | src/components/SearchBar.tsx:32-37 | exactly the products whose name, category or description contains the query, each as often as in the input, in input order |
| SearchBar.SearchResults | src/components/SearchBar.tsx:29-44 | blank query gives none; otherwise the first min(8, n) of the n matches on name, category or description, in input order |
| SearchBar.NoProductsNoResults | src/components/SearchBar.tsx:29-44 | with no products to search there is never a result |
| SearchBar.ListAndNoteExclusive | src/components/SearchBar.tsx:91-135 | the results list and the "no products" note never show together, and one of them shows when open with a non-empty query |
| SearchBar.Dropdown.constructor | src/components/SearchBar.tsx:24-25 | closed with no results |
| SearchBar.Dropdown.OnQueryChanged | src/components/SearchBar.tsx:29-44 | the results become the search results and the dropdown is open iff the query is not blank |
| SearchBar.Dropdown.OnFocus | src/components/SearchBar.tsx:78 | focus opens the dropdown only for a non-empty query |
| SearchBar.Dropdown.HandleProductClick | src/components/SearchBar.tsx:58-62 | navigates to the product, returns the empty query and closes |
| SearchBar.Dropdown.HandleClearSearch | src/components/SearchBar.tsx:64-67 | returns the empty query and closes |
| SearchBar.ClearedQueryClosesDropdown | src/components/SearchBar.tsx:29-44 | once the cleared query comes back, the effect empties the results |
| CartPanel.FreeShippingRemaining | src/components/Cart.tsx:28-30 | never negative, 0 iff the total reaches 500, and otherwise exactly what is missing to 500 |
| CartPanel.BannerAndBadgeExclusive | src/components/Cart.tsx:62-177 | the progress banner and the free-shipping badge never show together, and outside checkout exactly one of them shows for a non-empty cart |
| CartPanel.TitleBadge | src/components/Cart.tsx:44-46 | shown iff the cart has lines, showing the number of lines |
| CartPanel.TitleBadgeCountsLines | src/components/Cart.tsx:44-46 | the title badge never exceeds the item count, and is below it once a line holds more than one unit |
| CartPanel.StepOnSingleLine | src/components/Cart.tsx:109-122 | when the product has one line, ± changes the item count by exactly that step, including − on a line of one, which removes the line |
| CartPanel.ClearButtonNeedsTwoLines | src/components/Cart.tsx:192 | the clear button shows iff, outside checkout, the title badge counts more than one line, and then the item count is at least 2 |
| CartPanel.MinusOnOneRemovesAllColours | src/components/Cart.tsx:109 | − on a quantity-1 line removes every line of that product, every colour |
| CartPanel.PlusSetsAllColours | src/components/Cart.tsx:122 | + sets every colour of the product to the clicked line's quantity + 1 |
| CartPanel.Panel.constructor | src/components/Cart.tsx:22 | checkout mode starts off |
| CartPanel.Panel.OnCartOpenChanged | src/components/Cart.tsx:33-35 | opening the panel always leaves checkout mode |
| CartPanel.Panel.Checkout | src/components/Cart.tsx:186 | enters checkout mode |
| CartPanel.Panel.Back | src/components/Cart.tsx:151-169 | leaves checkout mode |
| CartPanel.Panel.Minus | src/components/Cart.tsx:109 | the cart becomes the update to the line's quantity − 1 |
| CartPanel.Panel.Plus | src/components/Cart.tsx:122 | the cart becomes the update to the line's quantity + 1 |
| CartPanel.Panel.Trash | src/components/Cart.tsx:131 | every line of the product is removed |
| CartPanel.Panel.ClearCart | src/components/Cart.tsx:192-193 | the cart empties |
| CartPanel.Panel.ContinueShopping | src/components/Cart.tsx:189 | only the panel closes |
| Header.VisibleCategories | src/components/Header.tsx:26-42 | the first min(5, n) categories |
| Header.SplitKeepsEveryCategory | src/components/Header.tsx:42-43 | visible followed by "More" is the full list, with n − min(5, n) in "More" |
| Header.MoreMenuOnlyBeyondFive | src/components/Header.tsx:79 | the "More" menu shows iff there are more than 5 categories |
| Header.HighlightUnique | src/components/Header.tsx:71 | at most one category id is highlighted, and none when all categories are selected |
| Header.CartBadge | src/components/Header.tsx:154-158 | shown iff Σ quantity is positive, showing Σ quantity |
| Header.BadgeShownIffCartNonEmpty | src/components/Header.tsx:41-158 | with positive quantities the badge shows iff the cart has lines, and is at least the line count |
| Header.Menus.constructor | src/components/Header.tsx:38-39 | both menus start closed |
| Header.Menus.ToggleMore | src/components/Header.tsx:82 | flips the "More" menu only |
| Header.Menus.MoreMouseLeave | src/components/Header.tsx:91 | closes the "More" menu only |
| Header.Menus.SelectVisible | src/components/Header.tsx:66-69 | selects the category's id |
| Header.Menus.SelectFromMore | src/components/Header.tsx:96-99 | selects the category's id and closes the "More" menu |
| Header.Menus.SelectFromMobile | src/components/Header.tsx:179-182 | selects the category's id and closes the mobile menu |
| Header.Menus.ToggleMobileMenu | src/components/Header.tsx:165 | flips the mobile menu only |
| Header.Menus.CartButton | src/components/Header.tsx:147-150 | opens the cart panel and closes the mobile menu |
| OrderForm.NotesAreOptional | src/components/OrderForm.tsx:106-190 | the notes never decide whether the form is complete; the empty form is not |
| OrderForm.ComposeAddress | src/components/OrderForm.tsx:35 | the street, area and villa numbers, each after its bilingual label, joined by Arabic commas; what it keeps is stated by ComposedAddressRoundTrip |
| OrderForm.ComposedAddressRoundTrip | src/components/OrderForm.tsx:35 | the composed address gives back street, area and villa in that order (street and area without an Arabic comma) |
| OrderForm.ParseFieldsRoundTrip | src/components/OrderForm.tsx:35 | for any labels, a template of three labelled fields split by Arabic commas reads back its fields when the first two hold no Arabic comma |
| OrderForm.BuildCustomerInfo | src/components/OrderForm.tsx:37-41 | name and phone copied unchanged |
| OrderForm.CustomerInfoCarriesForm | src/components/OrderForm.tsx:35-41 | the customer data ignores the notes and its address carries street, area and villa |
| OrderForm.RendersIffSummaryNonEmpty | src/components/OrderForm.tsx:63 | the form renders iff its summary has a line; when it does not, the cart total is 0 |
| OrderForm.SummaryLines | src/components/OrderForm.tsx:72-83 | one summary amount per cart line, price × quantity |
| OrderForm.SummaryAddsUpToTotal | src/components/OrderForm.tsx:80-88 | the summary amounts add up to the cart total shown below them |
| OrderForm.AfterSubmit | src/components/OrderForm.tsx:43-47 | onSubmit is called once iff supplied, and first; onCancel iff inline and supplied; nothing else |
| OrderForm.Form.constructor | src/components/OrderForm.tsx:29-31 | dialog closed, empty form |
| OrderForm.Form.SetOpen | src/components/OrderForm.tsx:203-215 | the dialog flag changes, values kept |
| OrderForm.Form.Edit | src/components/OrderForm.tsx:94-195 | values change, the dialog flag kept |
| OrderForm.Form.Submit | src/components/OrderForm.tsx:33-48 | an incomplete form changes nothing and calls nothing; a complete one makes the calls of AfterSubmit, then resets the form and closes the dialog |
| OrderForm.MountedFormsNeverSubmit | src/components/Cart.tsx:153 | the cart's inline form, given only onCancel, just calls onCancel after a submit |

## Left out

- Saving the cart and language to local storage and parsing them back as JSON: browser I/O and a foreign parser. Start-up reading is `Shop.Hydrate`, with the parsed values as parameters.
- The order, product and admin HTTP services: network calls, and no shown component sends an order.
- The 300 ms delays, toasts, navigation itself, the click-outside listener of the dropdown, the page `dir`/`lang` attributes and scrolling: asynchronous or DOM behaviour. A handler's navigation target or scroll decision is returned instead.
- The i18n library behind the header's language menu: it switches its own language, not the shop's.
- The add-to-cart / buy-now spinners and the "show full description" toggle: flags with no logic.
- PDF generation, price formatting with `toLocaleString`, the discount percentage, the progress-bar width and the singular/plural results label: floating point and presentation.
- The struck-through original price next to a search result (shown when `originalPrice > price`): a display condition on two fields with nothing further to state.
- Presentation-only components (hero, footer, features, banner, WhatsApp button, order confirmation, product card and modal) and the static product fixture.
- The second product shape with string ids and localized names: one product record is modelled.
- Text.Lower: ASCII lower-casing only, not Unicode case mapping.
- Text.Trim: strips ASCII white space, U+00A0 and U+FEFF only. JavaScript's `trim` also strips U+1680, U+2000 to U+200A, U+2028, U+2029, U+202F, U+205F and U+3000, so a query made only of those counts as non-blank here.
- IndexPage.Le: the name order is code-unit lexicographic, not the locale collation of `localeCompare`.
- IndexPage.SortProducts: states sorted and a permutation. It does not state the tie order of the stable JavaScript sort.
- IndexPage.GroupedProducts: states each bucket's contents as a multiset and its order by the sort mode. It does not state the tie order.
- ProductDetails.FindProduct: `Number(id)` is a parameter (`None` for NaN). Parsing the route string is not modelled.
- ProductDetails.ProductPage: models the page while it shows a found product. The loading and "not found" screens are not modelled.
- ShopContext.Shop.Hydrate: the saved language is taken as a `Language` value. An arbitrary stored string cast to the language type is not representable.
