# Logistics dashboard: cart, checkout, access control and catalogue filters in Dafny

This project models the client-side business rules of a logistics dashboard written in
TypeScript and React. The model covers:

- the shopping-cart store, with its add / remove / update / increase / decrease / clear actions;
- the cart total;
- the grouping of the cart into per-store sub-orders at checkout, and the checkout itself;
- the role-based `can` decision of the access-control provider;
- the category chips of the product grid (reading the `category.id` filter, toggling a category,
  clearing the selection);
- the shortened description and the per-category product list of the categories table;
- the `capitalize` helper.

Modules, one per source file or concept:

| module | what |
|---|---|
| `Options` | `Option<T>`; `GetOr` is JavaScript's `??` |
| `JsValues` | the JavaScript values the code inspects, truthiness and `Number()` |
| `Seqs` | `Array.prototype.filter`, `indexOf`, the one-element `splice`, and order-preserving subsequences |
| `JsObjects` | objects with integer keys and the order `Object.values` lists them in |
| `Strings` | `capitalize` (`split(' ')`, per-word case change, `join(' ')`) |
| `AccessControl` | `can`, and an independent role / permission table that it is proved equal to |
| `ProductItems` | the cart store as a class `ProductsStore` whose field `products` each action reassigns, and pure step functions that give the new line list |
| `ProductsCart` | `totalPrice`; the `reduce` that groups lines by store into a mutable object; `handleConfirm` |
| `CategoryFilter` | `categoryFilters`, `hasCategoryFilter`, `handleOnTagClick`, the "all categories" chip |
| `CategoryList` | the description cell and `categoryProducts` |

Modelling choices:

- Prices and quantities are integers (for instance cents).
- An absent `quantity` or `unitPrice` is `None`, so the code's `?? 1` and `?? 0` defaults are modelled.
- The grouping is a `while` loop over the cart that updates an object with integer keys:
  - the object is a record holding its keys in creation order and a `map` of entries;
  - `Object.values` lists array-index keys (0 to 2^32 - 2) in ascending order first, then the
    other keys in creation order;
  - so the sub-orders follow store id order for ordinary ids, not first-seen order.
- Calls to refine hooks, or to APIs outside these files, become parameters or results:
  - `setFilters` / `setCurrent` become the method's results;
  - the `fetch` outcome becomes a parameter: an answer with its `res.ok` flag, or a rejection;
  - the decoded token becomes an `Identity` value;
  - the notification and dialog-close calls become results.

Behaviours of the code worth noting:

- the denial reason is `No tienes permiso`;
- a customer may list orders only when `params.id` is truthy;
- after `setProducts` or `updateProduct` a line may hold any quantity (the "quantity is at least 1" invariant is proved only for the actions that keep it);
- sub-orders come in `Object.values` order.

## Model

| member | source | states |
|---|---|---|
| `JsValues.Truthy` | src/accessControlProvider.ts:56 | JavaScript truthiness, the condition `params?.id` stands for; `AccessControl.CustomerOrdersNeedId` relies on it |
| `JsValues.ToNumber` | src/components/dashboard/productItems/index.tsx:89-91 | `Number(v)` is always a number or NaN; numbers and NaN are unchanged; a digit string becomes its decimal value |
| `JsValues.DecimalValue` | src/components/dashboard/productItems/index.tsx:89-91 | `k` digits hold a value below `10^k` |
| `JsValues.DecimalAppend` | src/components/dashboard/productItems/index.tsx:89-91 | appending digits shifts the prefix's value by one decimal place per digit and adds theirs |
| `JsValues.LeadingZero` | src/components/dashboard/productItems/index.tsx:89-91 | a leading zero does not change the value, as in `Number("03") === 3` |
| `JsValues.DecimalExamples` | src/components/dashboard/productItems/index.tsx:89-91 | `Number("42")` is 42, `Number("")` is 0, `Number("4a")` is NaN |
| `Seqs.Filter` | src/pages/categories/list.tsx:67-69 | `Array.prototype.filter`, also used by `removeProduct` and `decreaseQuantity`; specified by `FilterSatisfies`, `FilterMultiset`, `FilterIsSubsequence`, `FilterAllKept`, `FilterConcat` |
| `Seqs.FilterSatisfies` | src/pages/categories/list.tsx:67-69 | everything `filter` keeps satisfies the predicate |
| `Seqs.FilterMultiset` | src/store/productItems.ts:46-48 | `filter` keeps each satisfying element exactly as often as it occurs, and drops every other |
| `Seqs.FilterIsSubsequence` | src/pages/categories/list.tsx:67-69 | `filter` keeps the original relative order |
| `Seqs.FilterAllKept` | src/store/productItems.ts:78 | a filter that every element passes returns the list unchanged |
| `Seqs.FilterConcat` | src/pages/categories/list.tsx:67-69 | filtering distributes over concatenation |
| `Seqs.FilterDropsOne` | src/store/productItems.ts:70-79 | filtering out the one rejected element of a list whose other elements all pass leaves the elements before it followed by those after it |
| `Strings.ToUpper` | src/utils/strings/index.ts:5 | `toUpperCase` on one character, ASCII letters only; `CaseIdempotent` shows a second application changes nothing and spaces stay spaces |
| `Strings.ToLower` | src/utils/strings/index.ts:5 | `toLowerCase` on one character, ASCII letters only; `CaseIdempotent` shows the same for lower case |
| `Strings.Join` | src/utils/strings/index.ts:7 | `join(' ')`; `SplitThenJoin` and `JoinThenSplit` prove it inverse to `split(' ')` |
| `Strings.CapitalizeWord` | src/utils/strings/index.ts:5 | the per-word rule: an empty word stays empty, else the first character upper-cased and the rest lower-cased; specified by `CapitalizeWordAt` and `CapitalizeWordShape` |
| `Strings.Split` | src/utils/strings/index.ts:3 | `split(' ')` yields at least one piece and no piece contains a space |
| `Strings.CapitalizeWords` | src/utils/strings/index.ts:4-6 | the per-word map keeps the number of words |
| `Strings.SplitThenJoin` | src/utils/strings/index.ts:3-7 | joining the pieces of a split with spaces gives back the string |
| `Strings.SplitWord` | src/utils/strings/index.ts:3 | a string without spaces splits into itself alone |
| `Strings.SplitWordThenRest` | src/utils/strings/index.ts:3 | splitting `w + ' ' + t` gives `w` followed by the pieces of `t` |
| `Strings.JoinThenSplit` | src/utils/strings/index.ts:3-7 | splitting a join of space-free words gives back the words |
| `Strings.CapitalizeWordAt` | src/utils/strings/index.ts:5 | a word keeps its length; its first letter is upper-cased and the rest lower-cased; no space appears |
| `Strings.CapitalizeWordsNoSpaces` | src/utils/strings/index.ts:4-6 | capitalised words stay space-free |
| `Strings.CapitalizeWordsAt` | src/utils/strings/index.ts:4-6 | the k-th capitalised word is the capitalisation of the k-th word |
| `Strings.JoinCapitalizedAt` | src/utils/strings/index.ts:4-7 | the joined result has the input's length and holds at each position the character rule of `CapitalizedAt` |
| `Strings.Capitalize` | src/utils/strings/index.ts:1-8 | `capitalize`: a missing string read as empty, split on spaces, each word capitalised, joined with spaces; specified character by character by `CapitalizeAt` |
| `Strings.CapitalizeAt` | src/utils/strings/index.ts:1-8 | `capitalize(s)` has the length of `s`; at each position a character that starts a word is upper-cased, any other is lower-cased, and spaces stay |
| `Strings.CapitalizeEmpty` | src/utils/strings/index.ts:2 | a missing and an empty string both give the empty string |
| `Strings.CapitalizeKeepsSpaces` | src/utils/strings/index.ts:1-8 | spaces sit exactly where they were |
| `Strings.CapitalizeWordShape` | src/utils/strings/index.ts:5 | a capitalised word has an upper-case-mapped first letter and lower-case-mapped rest |
| `Strings.CapitalizeWordShapes` | src/utils/strings/index.ts:1-8 | the result has the same words, of the same lengths, each one capitalised |
| `Strings.CaseIdempotent` | src/utils/strings/index.ts:5 | upper- or lower-casing a character twice is casing it once, and only a space maps to a space |
| `Strings.CapitalizeIdempotent` | src/utils/strings/index.ts:1-8 | capitalising twice is capitalising once |
| `AccessControl.ParseRole` | src/accessControlProvider.ts:27-64 | only the five role names the chain tests are recognised |
| `AccessControl.Can` | src/accessControlProvider.ts:13-70 | the decision `can` resolves to for a decoded identity, resource, action and parameters; specified by `CanMatchesTable` and the per-role rules below |
| `AccessControl.CanMatchesTable` | src/accessControlProvider.ts:13-70 | for every identity, resource, action and params, `can` equals the independent decision table: login always allowed; no token, no role or an empty role denied; each known role granted exactly its resources; unknown roles denied with the reason |
| `AccessControl.LoginAlwaysAllowed` | src/accessControlProvider.ts:14-16 | the login resource is allowed for anyone, with no reason |
| `AccessControl.NoRoleDenied` | src/accessControlProvider.ts:18-24 | with no token, or a token without a truthy role, everything but login is denied without reason |
| `AccessControl.AdministratorAllowed` | src/accessControlProvider.ts:27 | an administrator is allowed everything |
| `AccessControl.ManagerRule` | src/accessControlProvider.ts:30-34 | a manager is allowed exactly what is not `users` or `couriers` |
| `AccessControl.DispatcherRule` | src/accessControlProvider.ts:37-45 | a dispatcher is allowed exactly `orders`, `products`, `categories` and `dashboard` |
| `AccessControl.CourierRule` | src/accessControlProvider.ts:48-52 | a courier is allowed exactly (`couriers`, `list`) and `dashboard` |
| `AccessControl.CustomerRule` | src/accessControlProvider.ts:55-64 | a customer is allowed exactly (`orders`, `list`, truthy `params.id`) and `dashboard` |
| `AccessControl.CustomerOrdersNeedId` | src/accessControlProvider.ts:56 | a missing, empty or zero `id` denies a customer's order list; a non-empty one allows it |
| `AccessControl.UnknownRoleDenied` | src/accessControlProvider.ts:66-69 | any other non-empty role is denied with the reason `No tienes permiso` |
| `AccessControl.ReasonOnlyForUnknownRole` | src/accessControlProvider.ts:13-70 | a reason is given exactly when the role is unknown, and only with a denial |
| `ProductItems.EffectiveQuantity` | src/store/productItems.ts:66 | `quantity ?? 1`, the quantity increase, decrease and the total read; `AddOnAbsentQuantity` shows how it differs from the `?? 0` of `addProduct` |
| `ProductItems.Patched` | src/store/productItems.ts:57 | `{ ...product, ...updatedProduct }` on one line; specified field by field by `UpdateSpec` |
| `ProductItems.WithAdded` | src/store/productItems.ts:25-43 | the list `addProduct` sets; specified by `AddNewAppends`, `AddExistingRaises`, `AddKeepsUnique`, `AddKeepsPositive` |
| `ProductItems.WithoutProduct` | src/store/productItems.ts:44-49 | the list `removeProduct` sets; specified by `RemoveSpec`, `RemoveKeepsInvariants`, `RemoveAbsentIsNoop` |
| `ProductItems.WithUpdated` | src/store/productItems.ts:50-60 | the list `updateProduct` sets; specified by `UpdateSpec`, `UpdateKeepsUnique`, `UpdateKeepsPositive` |
| `ProductItems.WithIncreased` | src/store/productItems.ts:62-69 | the list `increaseQuantity` sets; specified by `IncreaseRaises`, `IncreaseAbsentIsNoop` |
| `ProductItems.Decremented` | src/store/productItems.ts:72-77 | the `map` step of `decreaseQuantity`; specified through `DecreaseAtOneRemoves` and `DecreaseAboveOneDecrements` |
| `ProductItems.WithDecreased` | src/store/productItems.ts:70-79 | the list `decreaseQuantity` sets; specified by `DecreaseLeavesPositive`, `DecreaseAbsentIsNoop`, `DecreaseAtOneRemoves`, `DecreaseAboveOneDecrements` |
| `ProductItems.ProductsStore.constructor` | src/store/productItems.ts:23 | the cart starts empty |
| `ProductItems.ProductsStore.SetProducts` | src/store/productItems.ts:24 | the cart becomes the given lines |
| `ProductItems.ProductsStore.AddProduct` | src/store/productItems.ts:25-43 | the new cart is `WithAdded` of the old; the product is then in the cart; unique ids and positive quantities are kept |
| `ProductItems.ProductsStore.RemoveProduct` | src/store/productItems.ts:44-49 | the product is gone; the rest is an order-preserving subsequence; invariants are kept |
| `ProductItems.ProductsStore.UpdateProduct` | src/store/productItems.ts:50-60 | the new list is `WithUpdated` of the old (see `UpdateSpec`): the length is kept and every line of another product is unchanged |
| `ProductItems.ProductsStore.IncreaseQuantity` | src/store/productItems.ts:62-69 | the new cart is `WithIncreased` of the old; invariants are kept |
| `ProductItems.ProductsStore.DecreaseQuantity` | src/store/productItems.ts:70-79 | the new cart is `WithDecreased` of the old; every remaining line has a positive quantity; unique ids are kept |
| `ProductItems.ProductsStore.ClearProducts` | src/store/productItems.ts:80-83 | the cart becomes empty |
| `ProductItems.AddNewAppends` | src/store/productItems.ts:40-42 | a product not in the cart is appended with quantity 1, after the unchanged old lines |
| `ProductItems.AddExistingRaises` | src/store/productItems.ts:27-37 | a product already in the cart keeps the length; its line gets `(quantity ?? 0) + 1`; others are unchanged |
| `ProductItems.AddKeepsUnique` | src/store/productItems.ts:25-43 | after an add the product is present, and no product id appears twice if none did |
| `ProductItems.AddKeepsPositive` | src/store/productItems.ts:25-43 | an add keeps every quantity positive |
| `ProductItems.AddTwice` | src/store/productItems.ts:25-43 | adding a new product twice yields one line of quantity 2, not two lines |
| `ProductItems.AddOnAbsentQuantity` | src/store/productItems.ts:34 | adding to a line whose quantity is absent leaves its effective quantity at 1, while `increaseQuantity` makes it 2 |
| `ProductItems.IncreaseRaises` | src/store/productItems.ts:62-69 | ids and length are kept; a matching line is the same line with quantity `(quantity ?? 1) + 1`; others are unchanged |
| `ProductItems.IncreaseAbsentIsNoop` | src/store/productItems.ts:62-69 | increasing an absent product changes nothing |
| `ProductItems.DecreaseLeavesPositive` | src/store/productItems.ts:78 | after a decrease no line has a quantity of 0 or below |
| `ProductItems.DecreaseAbsentIsNoop` | src/store/productItems.ts:70-79 | decreasing an absent product in a valid cart changes nothing |
| `ProductItems.DecreaseAtOneRemoves` | src/store/productItems.ts:70-79 | decreasing a line at quantity 1 removes exactly that line |
| `ProductItems.DecreaseAboveOneDecrements` | src/store/productItems.ts:73-77 | decreasing a line above 1 lowers just its quantity by one |
| `ProductItems.DecreaseTwiceFromOne` | src/store/productItems.ts:70-79 | from quantity 1, a decrease removes the product and a second decrease changes nothing |
| `ProductItems.FilterKeepsUnique` | src/store/productItems.ts:72-78 | filtering a cart with unique ids keeps them unique |
| `ProductItems.DecreaseKeepsUnique` | src/store/productItems.ts:70-79 | a decrease keeps ids unique |
| `ProductItems.RemoveSpec` | src/store/productItems.ts:44-49 | the product is absent, the rest is a subsequence, every other line is kept as often as it was |
| `ProductItems.RemoveKeepsInvariants` | src/store/productItems.ts:44-49 | a removal keeps unique ids and positive quantities |
| `ProductItems.RemoveAbsentIsNoop` | src/store/productItems.ts:44-49 | removing an absent product changes nothing |
| `ProductItems.UpdateSpec` | src/store/productItems.ts:54-59 | the length is kept; other lines are unchanged; on a matching line each of the seven fields the patch gives is taken, each it omits keeps its value, and an empty patch changes nothing |
| `ProductItems.UpdateKeepsUnique` | src/store/productItems.ts:54-59 | an update that does not give a line another line's id keeps ids unique |
| `ProductItems.UpdateKeepsPositive` | src/store/productItems.ts:54-59 | an update that sets no non-positive quantity keeps quantities positive |
| `ProductsCart.PriceOf` | src/components/header/user/products-cart.tsx:56 | `unitPrice ?? 0`; the `TotalAfter*` lemmas give each total change in terms of it |
| `ProductsCart.LineTotal` | src/components/header/user/products-cart.tsx:55-57 | `(quantity ?? 1) * (unitPrice ?? 0)`, the amount one line adds to the total; `TotalPriceExample` and `CartSumWithoutZeros` use it |
| `ProductsCart.TotalFrom` | src/components/header/user/products-cart.tsx:54-58 | the `reduce` fold from an accumulator; specified by `TotalFromIsSum` |
| `ProductsCart.TotalPrice` | src/components/header/user/products-cart.tsx:54-58 | `totalPrice`, the fold from 0; specified by `TotalPriceIsSum` and the `TotalAfter*` lemmas |
| `ProductsCart.TotalFromIsSum` | src/components/header/user/products-cart.tsx:54-58 | the left fold from `acc` equals `acc` plus the sum of `(quantity ?? 1) * (unitPrice ?? 0)` |
| `ProductsCart.TotalPriceIsSum` | src/components/header/user/products-cart.tsx:54-58 | `totalPrice` is the sum of the line totals, and 0 for an empty cart |
| `ProductsCart.TotalPriceExample` | src/components/header/user/products-cart.tsx:54-58 | a single line of quantity 3 at 250 totals 750 |
| `ProductsCart.CartSumAppend` | src/components/header/user/products-cart.tsx:54-58 | the total of two carts joined is the sum of their totals |
| `ProductsCart.CartSumReplace` | src/components/header/user/products-cart.tsx:54-58 | replacing one line changes the total by the difference of the two line totals |
| `ProductsCart.CartSumWithoutZeros` | src/components/header/user/products-cart.tsx:54-58 | dropping lines of quantity 0 does not change the total |
| `ProductsCart.TotalAfterAddNew` | src/components/header/user/products-cart.tsx:54-58 | adding a new product raises the total by its unit price |
| `ProductsCart.TotalAfterAddExisting` | src/components/header/user/products-cart.tsx:54-58 | adding an existing product raises the total by its unit price, or by nothing when its quantity was absent |
| `ProductsCart.TotalAfterIncrease` | src/components/header/user/products-cart.tsx:54-58 | an increase raises the total by the line's unit price |
| `ProductsCart.TotalAfterDecrease` | src/components/header/user/products-cart.tsx:54-58 | a decrease lowers the total by the line's unit price |
| `JsObjects.PropertyOrder` | src/components/header/user/products-cart.tsx:252 | the order `Object.values` lists integer keys in; specified by `PropertyOrderPermutes`, `PropertyOrderMembers`, `PropertyOrderAscending` |
| `JsObjects.ObjectValues` | src/components/header/user/products-cart.tsx:252 | `Object.values` of an object with integer keys: the entries in `PropertyOrder` of the keys; `GroupedValues` states what it yields for the grouping object |
| `JsObjects.InsertAscendingMultiset` | src/components/header/user/products-cart.tsx:252 | inserting a key into the ascending index keys adds exactly that key |
| `JsObjects.InsertAscendingMembers` | src/components/header/user/products-cart.tsx:252 | after inserting a key the list holds that key and the old ones, and nothing else |
| `JsObjects.InsertAscendingSorted` | src/components/header/user/products-cart.tsx:252 | inserting a new key into an ascending list keeps it strictly ascending |
| `JsObjects.SortAscendingMultiset` | src/components/header/user/products-cart.tsx:252 | sorting the index keys only rearranges them |
| `JsObjects.SortAscendingSorted` | src/components/header/user/products-cart.tsx:252 | distinct index keys come out strictly ascending |
| `JsObjects.PropertyOrderPermutes` | src/components/header/user/products-cart.tsx:252 | `Object.values` lists each key exactly as often as it was created |
| `JsObjects.PropertyOrderMembers` | src/components/header/user/products-cart.tsx:252 | the listed keys are exactly the object's keys, and distinct keys are listed once each |
| `JsObjects.PropertyOrderAscending` | src/components/header/user/products-cart.tsx:252 | array-index keys come before all others, in strictly ascending order |
| `ProductsCart.ToOrderItem` | src/components/header/user/products-cart.tsx:243-247 | the item pushed for a line: its id, `quantity ?? 1` and its unit price; `ItemsOfInCartOrder` and `SubOrdersFlatten` use it |
| `ProductsCart.StoresInOrder` | src/components/header/user/products-cart.tsx:233-250 | the keys the grouping object gets, in creation order; specified by `StoresInOrderSpec` |
| `ProductsCart.ItemsOf` | src/components/header/user/products-cart.tsx:243-247 | the items one store's `orderItems` collects; specified by `ItemsOfAbsent`, `ItemsOfNonEmpty`, `ItemsOfInCartOrder` |
| `ProductsCart.SubOrdersOf` | src/components/header/user/products-cart.tsx:233-252 | the sub-orders `Object.values` yields; specified by `SubOrdersItems`, `SubOrdersDistinct`, `SubOrdersCover`, `SubOrdersFlatten`, `SubOrdersAscending` |
| `ProductsCart.StoresInOrderSpec` | src/components/header/user/products-cart.tsx:233-241 | the object's keys are distinct and are exactly the cart's store ids |
| `ProductsCart.ItemsOfAbsent` | src/components/header/user/products-cart.tsx:236-241 | a store not yet seen has collected no items |
| `ProductsCart.ItemsOfNonEmpty` | src/components/header/user/products-cart.tsx:243-247 | a store with a line has collected at least one item |
| `ProductsCart.ItemsOfInCartOrder` | src/components/header/user/products-cart.tsx:243-247 | a store collects exactly the items of its lines, in cart order, with `quantity ?? 1` |
| `ProductsCart.ItemsOverMultiset` | src/components/header/user/products-cart.tsx:233-250 | over distinct stores covering the cart, the collected items are the cart's items, each exactly once |
| `ProductsCart.SubOrdersItems` | src/components/header/user/products-cart.tsx:233-252 | each sub-order holds exactly its store's items in cart order and is never empty |
| `ProductsCart.SubOrdersDistinct` | src/components/header/user/products-cart.tsx:233-252 | no two sub-orders share a store |
| `ProductsCart.SubOrdersCover` | src/components/header/user/products-cart.tsx:233-252 | a store has a sub-order exactly when some line belongs to it |
| `ProductsCart.SubOrdersFlatten` | src/components/header/user/products-cart.tsx:233-252 | all sub-orders together hold every line's item exactly once, with none lost or duplicated |
| `ProductsCart.SubOrdersAscending` | src/components/header/user/products-cart.tsx:252 | sub-orders of array-index store ids come first, in ascending store order |
| `ProductsCart.SubOrdersExample` | src/components/header/user/products-cart.tsx:233-252 | lines of stores 1, 1, 2 give two sub-orders, store 1's holding both of its items |
| `ProductsCart.GroupedValues` | src/components/header/user/products-cart.tsx:252 | `Object.values` of a fully built grouping object is `SubOrdersOf` of the cart |
| `ProductsCart.GroupSubOrders` | src/components/header/user/products-cart.tsx:233-252 | the updating loop yields `SubOrdersOf(lines)`: non-empty sub-orders with distinct stores that together hold every item exactly once |
| `ProductsCart.HandleConfirm` | src/components/header/user/products-cart.tsx:228-283 | the request carries the user, the address text and the grouped cart; on an ok answer: cleared cart, success notice, dialog closed; on another answer: cart untouched, error notice, dialog open; when `fetch` rejects: cart untouched, no notice, dialog open |
| `CategoryFilter.FindCategoryFilter` | src/components/dashboard/productItems/index.tsx:82-87 | the result is absent exactly when no logical `category.id` filter exists; otherwise it is the first one |
| `CategoryFilter.Numbers` | src/components/dashboard/productItems/index.tsx:89-91 | mapping `Number` keeps the length and yields only numbers or NaN |
| `Seqs.RemoveFirst` | src/components/dashboard/productItems/index.tsx:105 | the selection without the first copy of an id; `RemoveFirstAt` proves it equal to `splice(indexOf(id), 1)` and `RemoveFirstMultiset` shows it takes out one copy |
| `Seqs.IndexOf` | src/components/dashboard/productItems/index.tsx:105 | `indexOf` is -1 exactly when the value is absent; otherwise it is the first index holding it |
| `Seqs.RemoveFirstAt` | src/components/dashboard/productItems/index.tsx:105 | removing the first occurrence of `x`, found at index `i`, equals `splice(i, 1)` |
| `Seqs.RemoveFirstMultiset` | src/components/dashboard/productItems/index.tsx:105 | the splice removes exactly one occurrence |
| `CategoryFilter.HandleOnTagClick` | src/components/dashboard/productItems/index.tsx:101-118 | hands the grid a single `category.id in` filter holding `Toggled(selection, id)`, and page 1; reading that filter back gives `Toggled(selection, id)` |
| `CategoryFilter.SelectAllCategories` | src/components/dashboard/productItems/index.tsx:136-145 | hands an empty `category.id in` filter and page 1; reading it back yields no selection, so no category filter is active and no chip is highlighted |
| `CategoryFilter.Extract` | src/components/dashboard/productItems/index.tsx:81-97 | the memo's `{ operator, value }`, or the `TypeError` it throws; specified by `NoCategoryFilter`, `FirstCategoryFilterDecides`, `ExtractFails` |
| `CategoryFilter.CategoryFilters` | src/components/dashboard/productItems/index.tsx:81-97 | `categoryFilters`, the memo's `value`; specified by `ExtractedNumbers`, `ReExtract` |
| `CategoryFilter.HasCategoryFilter` | src/components/dashboard/productItems/index.tsx:99 | `hasCategoryFilter`: the selection is not empty; used by `ToggleLeavesSelection` |
| `CategoryFilter.IsSelected` | src/components/dashboard/productItems/index.tsx:152 | whether a chip is highlighted; used by `ToggleHighlight` |
| `CategoryFilter.Toggled` | src/components/dashboard/productItems/index.tsx:102-108 | the selection after a chip click; specified by `ToggleAbsentAppends`, `ToggleRemovesFirst`, `ToggleCounts`, `ToggleTwice*` |
| `CategoryFilter.NoCategoryFilter` | src/components/dashboard/productItems/index.tsx:81-97 | without a `category.id` filter the selection is empty and the operator is `in` |
| `CategoryFilter.FirstCategoryFilterDecides` | src/components/dashboard/productItems/index.tsx:81-97 | the first `category.id` filter decides: nullish gives `[]`, an array gives its values through `Number`; the operator defaults to `in` when empty |
| `CategoryFilter.ExtractFails` | src/components/dashboard/productItems/index.tsx:89-91 | reading the filters throws exactly when the first `category.id` filter's value is neither an array nor nullish |
| `CategoryFilter.ExtractedNumbers` | src/components/dashboard/productItems/index.tsx:89-96 | a read selection holds only numbers |
| `CategoryFilter.ReExtract` | src/components/dashboard/productItems/index.tsx:110-116 | reading back the filter a click sets yields exactly the selection handed to it |
| `CategoryFilter.ToggleAbsentAppends` | src/components/dashboard/productItems/index.tsx:106-107 | an unselected id is appended at the end |
| `CategoryFilter.ToggleRemovesFirst` | src/components/dashboard/productItems/index.tsx:104-105 | a selected id loses its first occurrence; the others stay in order |
| `CategoryFilter.ToggleCounts` | src/components/dashboard/productItems/index.tsx:103-108 | a click changes the count of its id by one, and no other count |
| `CategoryFilter.ToggleHighlight` | src/components/dashboard/productItems/index.tsx:152 | after a click the chip is highlighted exactly when the id was not selected exactly once |
| `CategoryFilter.ToggleLeavesSelection` | src/components/dashboard/productItems/index.tsx:99 | after a click `hasCategoryFilter` holds unless the selection was just that id |
| `CategoryFilter.ToggleTwiceAbsent` | src/components/dashboard/productItems/index.tsx:101-108 | clicking an unselected chip twice restores the selection exactly |
| `CategoryFilter.ToggleTwicePresent` | src/components/dashboard/productItems/index.tsx:101-108 | clicking a chip selected once twice restores the same ids, with that id moved last |
| `CategoryFilter.ToggleTwiceReorders` | src/components/dashboard/productItems/index.tsx:101-108 | `[3, 5]` clicked twice on 3 becomes `[5, 3]` |
| `CategoryFilter.ToggledNumbers` | src/components/dashboard/productItems/index.tsx:102-108 | a toggled selection of numbers still holds only numbers |
| `CategoryList.ShortDescription` | src/pages/categories/list.tsx:53-57 | the shown text is at most 53 characters and starts with the description's first min(50, length) characters |
| `CategoryList.MissingDescription` | src/pages/categories/list.tsx:53 | a missing description shows as empty |
| `CategoryList.ShortDescriptionKept` | src/pages/categories/list.tsx:55-57 | a description of at most 50 characters shows unchanged |
| `CategoryList.LongDescriptionCut` | src/pages/categories/list.tsx:55-56 | a longer one shows as its first 50 characters and `...`, 53 in all |
| `CategoryList.ShortDescriptionIdempotent` | src/pages/categories/list.tsx:53-57 | shortening a shown description again changes nothing |
| `CategoryList.CategoryProducts` | src/pages/categories/list.tsx:67-69 | `categoryProducts`; specified by `CategoryProductsSpec`, `CategoryProductsAll`, `CategoryProductsConcat` |
| `CategoryList.CategoryProductsSpec` | src/pages/categories/list.tsx:67-69 | a row shows exactly its category's products, each as often as listed, in list order |
| `CategoryList.CategoryProductsAll` | src/pages/categories/list.tsx:67-69 | if every product is in the category, the row shows them all |
| `CategoryList.CategoryProductsConcat` | src/pages/categories/list.tsx:67-69 | the row for two joined lists is the two rows joined |

## Left out

- Network and storage:
  - `fetch` and its answer body are left out; only whether it rejected and the `res.ok` flag are a parameter;
  - `localStorage` and `jwtDecode` are left out; the decoded token is the `Identity` parameter, so a malformed token, on which `jwtDecode` throws and `can` rejects, is not modelled;
  - the `async` suspension of `can` and `handleConfirm` is not modelled.
- Floating point: prices are integers, and the `toFixed(2)` display formatting is not part of this model.
- JsValues.ToNumber: is weaker than JavaScript. Only empty and decimal-digit strings convert; signs, fractions, exponents, hexadecimal and surrounding white space read as NaN, and every object reads as NaN, whereas `Number([])` is 0 and `Number([7])` is 7 (the filter values the code converts are strings or numbers).
- Strings.CapitalizeAt: upper- and lower-casing map ASCII letters only; other characters are unchanged, with no Unicode case mapping.
- CategoryList.ShortDescription: lengths count characters, while JavaScript counts UTF-16 code units.
- ProductItems.ProductsStore.UpdateProduct: a `Partial` patch explicitly holding `undefined` (which would erase a field) is not distinguished from a missing field.
- ProductItems.UpdateSpec: the patch covers only the modelled line fields. Display-only fields of the available-products record are not modelled (store name, coordinates and the like).
- ProductsCart.HandleConfirm:
  - `JSON.stringify` of the request is not modelled;
  - `Object.values` applied to the already-built array is the identity and is not modelled;
  - the `console.log` of the confirmed address is not modelled;
  - the address is assumed present;
  - `notificationOpen` is assumed present; its optional call `notificationOpen?.(...)` with no notifier is not modelled;
  - there is no "submission in progress" flag, because the code has none.
- CategoryFilter.HandleOnTagClick: how refine merges the handed filters into its own state is not part of this model; the method returns what `setFilters` and `setCurrent` receive.
- Rendering, routing, forms, maps, timers, theming and the remaining pages are not part of this model.
