# nuxt-tauri storefront core, modelled in Dafny

This project models the logic of the nuxt-tauri multi-brand storefront. Each piece below is proved against its own specification:

- **Stores** (`Cart`, `Favorites`, `Auth`). The cart, favorites and auth stores are classes whose fields their methods update in place. A pure function states each mutation on the list, and lemmas prove what the operations promise:
  - appending versus incrementing;
  - removal in order;
  - the update rules;
  - the three totals;
  - no duplicate ids;
  - toggling twice restores the list.
- **Navigation resolver** (`Navigation`). `buildNavItems` maps nav items index by index. The translation function and the locale-path function are parameters.
- **Product query** (`ProductQuery`, `UseProducts`). The mock server handler `GET /api/products` and the mock branch of `useProducts` share this filter: an exact category match, then a case-insensitive search on name or brand. The two filter steps are proved equal to a single reference filter.
  - `useProducts` in live mode builds its request path with a `URLSearchParams` object. This is modelled as a class whose `set` follows the URL Standard.
  - `useProduct` looks a product up by its string-coerced id.
- **API schemas** (`ApiSchema`, `MockCategories`). The zod schemas become predicates over a JSON datatype (`JsonValue`), and the storefront records encode to values these predicates accept. The mock category list is proved valid, numbered 1 to 8 and slug-unique.
- **Splashscreen coordination** (`SplashSetup`, `WecareSetup`). Both Rust crates hold this two-flag state machine: a pure `Step` function, plus one class per crate proved against it. Lemmas cover monotonicity, rejection of unknown tasks, and when the window action fires, over any sequence of calls.
- **Brand scaffolding** (`NewBrand`):
  - `deriveLibName`, as a character-wise rewrite;
  - the Cargo.toml and app.config.ts templates, as lines whose contents are stated as substring facts;
  - tauri.conf.json and package.json, as records;
  - the command-line argument check.

Shared vocabulary lives in `Common`: `Option`, `Result`, the `Id` type, the decimal `String(id)`, filtering, subsequences, ASCII lower-casing, substring search and line joining. The record types live in `Catalog`.

Decisions worth knowing:

- **Identifiers.** `Id` is `IntId(int) | StrId(string)`.
  - The cart compares ids with `===`, which is structural equality here, so `1` and `"1"` differ.
  - Favorites and `useProduct` compare `String(a) === String(b)`, which is `SameId` on the decimal text.
- **Numbers.** Prices, ratings and review counts are `real`; quantities are `int`.
- **Query values.** A query value is `Option<string>` holding `String(value)`. A missing value and the empty string both switch the filter off.
- **Cart record kept on add.** When `addItem` finds an existing entry, that entry keeps its old product record and only its quantity changes. This matches `existing.quantity += quantity`.

## Model

| member | source | states |
|---|---|---|
| Cart.FindItem | packages/core/stores/cart.ts:27 | the index found is the first entry whose product id is `===` the id; there is none exactly when the id is not in the cart |
| Cart.FindItemIsFirstMatch | packages/core/stores/cart.ts:27 | the first strictly-equal entry is the one the lookup returns |
| Cart.AfterAdd | packages/core/stores/cart.ts:26-34 | the list after `addItem`: the id is then in the cart, and the list grows by one exactly when the id was absent |
| Cart.AfterRemove | packages/core/stores/cart.ts:36-41 | the list after `removeItem`: one entry shorter exactly when the id was in the cart, and every remaining entry comes from the old list |
| Cart.AfterUpdate | packages/core/stores/cart.ts:43-53 | the list after `updateQuantity`: one entry shorter exactly when the id was present and the quantity ≤ 0; a positive quantity keeps the id in the cart |
| Cart.TotalItemsOf | packages/core/stores/cart.ts:9-11 | the `totalItems` fold, from the first entry to the last; its properties are the `Totals*` lemmas below |
| Cart.TotalPriceOf | packages/core/stores/cart.ts:13-15 | the `totalPrice` fold of price×quantity; its properties are the `Totals*` lemmas below |
| Cart.TotalSavingsOf | packages/core/stores/cart.ts:17-24 | the `totalSavings` fold, adding saveAmount×quantity only for a truthy saveAmount; its properties are the `Totals*` lemmas and `NoSavingsWithoutSaveAmount` |
| Cart.TotalsNonNegative | packages/core/stores/cart.ts:9-24 | with no negative quantity, price or saveAmount, none of the three totals is negative |
| Cart.TotalsConcat | packages/core/stores/cart.ts:9-24 | each of the three reductions is additive over concatenation, so it is a sum over the entries |
| Cart.TotalsSingle | packages/core/stores/cart.ts:9-24 | one entry contributes its quantity, price×quantity, and saveAmount×quantity when saveAmount is truthy |
| Cart.TotalsSplit | packages/core/stores/cart.ts:9-24 | a total is the part before an entry, plus that entry's share, plus the part after it |
| Cart.TotalsReplace | packages/core/stores/cart.ts:9-24 | replacing one entry changes each total by exactly the difference of the two entries' shares |
| Cart.AddAbsentAppends | packages/core/stores/cart.ts:31-33 | adding an id not in the cart appends `{product, quantity}` and leaves the existing entries unchanged |
| Cart.AddPresentIncrements | packages/core/stores/cart.ts:27-30 | adding a present id keeps the length, adds `quantity` to that entry only, and keeps its old product record |
| Cart.AddKeepsDistinct | packages/core/stores/cart.ts:26-34 | `addItem` keeps product ids pairwise distinct, and afterwards the id is in the cart |
| Cart.TotalsAfterAddAbsent | packages/core/stores/cart.ts:9-15 | appending raises totalItems by quantity and totalPrice by price×quantity |
| Cart.TotalsAfterAddPresent | packages/core/stores/cart.ts:9-15 | incrementing raises totalItems by quantity and totalPrice by the stored price×quantity |
| Cart.TotalsAfterIncrement | packages/core/stores/cart.ts:29 | changing one entry's quantity by `quantity` raises totalItems and totalPrice accordingly |
| Cart.TotalItemsAfterAdd | packages/core/stores/cart.ts:9-11 | whichever branch `addItem` takes, totalItems grows by exactly `quantity` |
| Cart.RemovePresentDeletes | packages/core/stores/cart.ts:36-41 | removing deletes the matching entry and keeps the others in order; with distinct ids the id is then absent |
| Cart.RemoveAbsentUnchanged | packages/core/stores/cart.ts:38 | removing an id that is not in the cart changes nothing |
| Cart.RemoveKeepsDistinct | packages/core/stores/cart.ts:36-41 | `removeItem` keeps product ids pairwise distinct |
| Cart.TotalsAfterRemove | packages/core/stores/cart.ts:9-24 | removing an entry lowers each total by exactly that entry's share |
| Cart.UpdateNonPositiveRemoves | packages/core/stores/cart.ts:49-50 | a quantity ≤ 0 removes the entry, exactly as `removeItem` does |
| Cart.UpdatePositiveSets | packages/core/stores/cart.ts:51-52 | a positive quantity sets only that entry's quantity; the length and other entries are unchanged and totalItems shifts by the difference |
| Cart.UpdateAbsentUnchanged | packages/core/stores/cart.ts:47 | updating an id that is not in the cart changes nothing, whatever the quantity |
| Cart.UpdateKeepsDistinct | packages/core/stores/cart.ts:43-53 | `updateQuantity` keeps product ids pairwise distinct |
| Cart.NoSavingsWithoutSaveAmount | packages/core/stores/cart.ts:19-22 | entries whose saveAmount is missing or zero contribute no savings |
| Cart.InCartIsStrict | packages/core/stores/cart.ts:59-61 | `isInCart` uses `===`: a product with numeric id 1 is found by `1` and not by `"1"` |
| Cart.CartStore.constructor | packages/core/stores/cart.ts:7 | the cart starts empty with all three totals 0 |
| Cart.CartStore.TotalItems | packages/core/stores/cart.ts:9-11 | the `totalItems` getter: `TotalItemsOf` the current entries |
| Cart.CartStore.TotalPrice | packages/core/stores/cart.ts:13-15 | the `totalPrice` getter: `TotalPriceOf` the current entries |
| Cart.CartStore.TotalSavings | packages/core/stores/cart.ts:17-24 | the `totalSavings` getter: `TotalSavingsOf` the current entries |
| Cart.CartStore.IsInCart | packages/core/stores/cart.ts:59-61 | `isInCart`: some entry's product id is `===` the argument (`InCart`) |
| Cart.CartStore.AddItem | packages/core/stores/cart.ts:26-34 | the new list is `AfterAdd` of the old one (append when absent, same length when present); distinct ids are kept and totalItems grows by quantity |
| Cart.CartStore.RemoveItem | packages/core/stores/cart.ts:36-41 | the new list is `AfterRemove` of the old one; an absent id leaves it unchanged; distinct ids are kept and the id is gone |
| Cart.CartStore.UpdateQuantity | packages/core/stores/cart.ts:43-53 | the new list is `AfterUpdate` of the old one; an absent id leaves it unchanged; distinct ids are kept |
| Cart.CartStore.Clear | packages/core/stores/cart.ts:55-57 | the list becomes empty and all three totals become 0 |
| Common.NumericIdsSameIff | packages/core/stores/favorites.ts:7 | two numeric ids are String-equal exactly when they are equal numbers |
| Common.NumberAndStringOne | packages/core/stores/favorites.ts:17 | `String(1) === String("1")` although `1 !== "1"` |
| Favorites.FindFavorite | packages/core/stores/favorites.ts:7 | the index found is the first id String-equal to the argument; there is none exactly when it is not a favorite |
| Favorites.FindFavoriteIsFirstSame | packages/core/stores/favorites.ts:27 | the first String-equal id is the one `findIndex` returns |
| Favorites.IsFavoriteIn | packages/core/stores/favorites.ts:16-18 | `isFavorite`: some stored id is String-equal to the argument |
| Favorites.Toggled | packages/core/stores/favorites.ts:6-14 | the ids after `toggle`: one shorter for a favorite, one longer otherwise, and a non-favorite becomes a favorite |
| Favorites.Added | packages/core/stores/favorites.ts:20-24 | the ids after `add`: the value is then a favorite and the old ids are kept as a prefix |
| Favorites.Removed | packages/core/stores/favorites.ts:26-31 | the ids after `remove`: one shorter exactly when the value was a favorite, and every remaining id was stored before |
| Favorites.ToggleRemovesOrAppends | packages/core/stores/favorites.ts:6-14 | toggle removes (as `remove` does) when the value is a favorite, and otherwise appends it as given |
| Favorites.ToggleTwiceRestores | packages/core/stores/favorites.ts:6-14 | toggling an absent value and then any String-equal value restores the list |
| Favorites.ToggleNumberThenString | packages/core/stores/favorites.ts:6-14 | `toggle(1)` then `toggle('1')` on an empty store leaves `[]` |
| Favorites.AddIsIdempotent | packages/core/stores/favorites.ts:20-24 | after `add` the value is a favorite, a second `add` changes nothing, and adding twice to an empty store gives count 1 |
| Favorites.RemovePresentDeletes | packages/core/stores/favorites.ts:26-31 | remove deletes the first String-equal id, keeps the rest in order, shortens the list by one; with no String-duplicates the value is then absent |
| Favorites.RemoveAbsentUnchanged | packages/core/stores/favorites.ts:28 | removing a value that is not a favorite changes nothing |
| Favorites.RemoveAtKeepsNoDuplicates | packages/core/stores/favorites.ts:9 | splicing out one id keeps the ids pairwise String-distinct |
| Favorites.AppendKeepsNoDuplicates | packages/core/stores/favorites.ts:12 | pushing a value that is not a favorite keeps the ids pairwise String-distinct |
| Favorites.MutatorsKeepNoDuplicates | packages/core/stores/favorites.ts:6-31 | `add`, `toggle` and `remove` preserve "no two stored ids are String-equal" |
| Favorites.MutatorsKeepForms | packages/core/stores/favorites.ts:6-31 | every stored id after a mutator was stored before or is the argument itself, in its original number or string form |
| Favorites.FavoritesStore.constructor | packages/core/stores/favorites.ts:2-4 | the store starts with no ids and count 0 |
| Favorites.FavoritesStore.Count | packages/core/stores/favorites.ts:4 | the `count` getter: the number of stored ids |
| Favorites.FavoritesStore.IsFavorite | packages/core/stores/favorites.ts:16-18 | the `isFavorite` getter: `IsFavoriteIn` the current ids |
| Favorites.FavoritesStore.Toggle | packages/core/stores/favorites.ts:6-14 | the new ids are `Toggled` of the old ones: count drops by one for a favorite, otherwise the argument is appended; no String-duplicates are introduced |
| Favorites.FavoritesStore.Add | packages/core/stores/favorites.ts:20-24 | the new ids are `Added` of the old ones; the value is then a favorite; no String-duplicates are introduced |
| Favorites.FavoritesStore.Remove | packages/core/stores/favorites.ts:26-31 | the new ids are `Removed` of the old ones; an absent value changes nothing; without duplicates the value is then absent |
| Favorites.FavoritesStore.Clear | packages/core/stores/favorites.ts:33-35 | the list is emptied and count becomes 0 |
| Auth.AuthenticationNeedsBoth | packages/core/stores/auth.ts:11 | authenticated iff there is a user and a non-empty token; a token without a user, or a user with no token or an empty one, is not authenticated |
| Auth.Authenticated | packages/core/stores/auth.ts:11 | `!!token && !!user`: a non-null, non-empty token and a non-null user; its consequences are `AuthenticationNeedsBoth` |
| Auth.AuthStore.constructor | packages/core/stores/auth.ts:8-11 | user and token start null, so the store is not authenticated |
| Auth.AuthStore.IsAuthenticated | packages/core/stores/auth.ts:11 | the `isAuthenticated` getter: `Authenticated` of the current fields |
| Auth.AuthStore.SetAuth | packages/core/stores/auth.ts:13-16 | user and token are set to exactly the arguments; the store is then authenticated iff the token is non-empty |
| Auth.AuthStore.Logout | packages/core/stores/auth.ts:18-21 | both fields become null, as in a fresh store, and the store is not authenticated |
| Navigation.BuildNavItems | packages/core/composables/navigation.ts:12-20 | the output has the input's length and output `i` is resolved from input `i` alone |
| Navigation.ResolvedFields | packages/core/composables/navigation.ts:13-18 | each output keeps labelKey, icon and route, has label `t(labelKey)` and resolvedRoute `localePath(route)`, and is active iff the current path equals that resolved route |
| Navigation.EmptyGivesEmpty | packages/core/composables/navigation.ts:12 | no items give no resolved items |
| Navigation.NoMatchAllInactive | packages/core/composables/navigation.ts:18 | when no resolved route equals the current path, every item is inactive |
| Navigation.AtMostOneActive | packages/core/composables/navigation.ts:18 | with pairwise distinct resolved routes, at most one item is active |
| Navigation.PrefixDoesNotActivate | packages/core/composables/navigation.ts:18 | matching is exact: `/shop/item/1` does not activate `/shop` |
| Navigation.ActiveUsesLocalizedRoute | packages/core/composables/navigation.ts:13-18 | `active` compares against the localized route: under an `/el` prefix, `/shop` is inactive and `/el/shop` active |
| ProductQuery.PipelineIsKeeps | packages/core/server/api/products/index.get.ts:7-17 | the category filter followed by the search filter selects exactly what the single reference test `Keeps` selects |
| ProductQuery.Keeps | packages/core/server/api/products/index.get.ts:7-17 | the reference test: a category query, when truthy, must equal the product's category, and a search query, when truthy, must occur in its lower-cased name or brand |
| ProductQuery.ByCategory | packages/core/server/api/products/index.get.ts:7-9 | the first filter: an in-order subsequence of the input holding exactly the products in the queried category, or all products when there is no category query |
| ProductQuery.BySearch | packages/core/server/api/products/index.get.ts:11-17 | the second filter: an in-order subsequence of its input holding exactly the products matching the search, or all of them when there is no search query |
| ProductQuery.FilterProducts | packages/core/server/api/products/index.get.ts:5-17 | the result is the order-preserving subsequence of the input whose members pass every enabled filter, and it contains every input product that passes |
| ProductQuery.HandleProductList | packages/core/server/api/products/index.get.ts:19-22 | `total` equals the length of `products`, which is the reference selection and a subsequence of the mock products |
| ProductQuery.NoQueryReturnsAll | packages/core/server/api/products/index.get.ts:5 | with no category and no search, all mock products are returned in order, with their count |
| ProductQuery.EmptyValueIsAbsent | packages/core/server/api/products/index.get.ts:7 | an empty category or search string filters exactly as a missing one does |
| ProductQuery.CategoryFilterExact | packages/core/server/api/products/index.get.ts:7-9 | a product survives the category filter iff its category equals the query; products without a category are dropped |
| ProductQuery.SearchFilterExact | packages/core/server/api/products/index.get.ts:11-17 | a product survives the search iff its lower-cased name or brand contains the lower-cased query |
| ProductQuery.SearchIgnoresQueryCase | packages/core/server/api/products/index.get.ts:12 | lower-casing the query beforehand does not change the match |
| ProductQuery.ResultWithinInput | packages/core/server/api/products/index.get.ts:5-17 | the result is no longer than the input and holds only input products |
| UseProducts.MockProducts | packages/core/composables/useProducts.ts:21-34 | mock mode returns the same selection as the server handler: the category filter, then the search, in input order |
| UseProducts.MockNoOptionsReturnsAll | packages/core/composables/useProducts.ts:22 | with neither option set, mock mode returns every mock product in order |
| UseProducts.SetEntryDefines | packages/core/composables/useProducts.ts:37-40 | after `params.set(name, value)` there is exactly one `name` entry, holding `value`, and the entries under other names are unchanged |
| UseProducts.SetEntry | packages/core/composables/useProducts.ts:37-40 | URL-Standard `set`: replace the first entry under the name and drop the later ones, or append when there is none; its meaning is `SetEntryDefines` |
| UseProducts.Serialize | packages/core/composables/useProducts.ts:42 | the query string is empty exactly when there are no parameters |
| UseProducts.SearchParams.constructor | packages/core/composables/useProducts.ts:36 | a new parameter list is empty |
| UseProducts.SearchParams.Set | packages/core/composables/useProducts.ts:37-40 | the entries become `SetEntry` of the old ones: one entry under the name, holding the value, and the others unchanged |
| UseProducts.SearchParams.ToString | packages/core/composables/useProducts.ts:42 | `params.toString()`: `Serialize` of the current entries |
| UseProducts.LivePath | packages/core/composables/useProducts.ts:36-43 | the path is exactly `/products` iff neither option is set; otherwise it is `/products?` followed by the encoded `category` pair, then `&` and the encoded `search` pair, each only when set |
| UseProducts.FindProduct | packages/core/composables/useProducts.ts:63-64 | the result is the first product whose `String(id)` equals `String(idVal)`, and null exactly when there is none |
| UseProducts.FindProductIsFirst | packages/core/composables/useProducts.ts:63 | the first String-equal product is the one returned |
| UseProducts.RouteParamFindsNumericId | packages/core/composables/useProducts.ts:63 | the route parameter `"1"` finds the product whose numeric id is 1 |
| ApiSchema.ProductEncodingValid | packages/core/shared/types/api.ts:3-21 | every product record encodes to JSON that the product schema accepts |
| ApiSchema.ValidProduct | packages/core/shared/types/api.ts:3-21 | `ApiProductSchema`: an object with a string-or-number id, string brand and name, number price, and each optional field, when present, of its declared type |
| ApiSchema.ValidCategory | packages/core/shared/types/api.ts:23-29 | `ApiCategorySchema`: an object with a string-or-number id, string name and slug, optional string icon and optional number productCount |
| ApiSchema.ValidProductList | packages/core/shared/types/api.ts:31-34 | `ApiProductListResponseSchema`: an array of valid products under `products` and a number under `total` |
| ApiSchema.ValidCategoryList | packages/core/shared/types/api.ts:36-38 | `ApiCategoryListResponseSchema`: an array of valid categories under `categories` |
| ApiSchema.CategoryEncodingValid | packages/core/shared/types/api.ts:23-29 | every category record encodes to JSON that the category schema accepts |
| ApiSchema.ProductListEncodingValid | packages/core/shared/types/api.ts:31-34 | the handler's `{products, total}` response passes the list schema for every query |
| ApiSchema.CategoryListEncodingValid | packages/core/shared/types/api.ts:36-38 | `{categories}` of any category records passes the category list schema |
| ApiSchema.ProductRequiredFields | packages/core/shared/types/api.ts:3-8 | a valid product has a string-or-number id, string brand and name, and a number price; removing any of the four rejects it |
| ApiSchema.MinimalProductAccepted | packages/core/shared/types/api.ts:3-21 | id, brand, name and price alone make a valid product, with a string or a numeric id; every optional field may be absent |
| ApiSchema.OptionalFieldTyped | packages/core/shared/types/api.ts:6-15 | a present optional field (description, image, category) must be a string; `null` is rejected |
| ApiSchema.UnknownBadgeColorRejected | packages/core/shared/types/api.ts:17-20 | a badge whose colour is any string outside the seven enum names rejects the whole product, whatever its other fields |
| ApiSchema.EveryBadgeColorAccepted | packages/core/shared/types/api.ts:17-20 | each of the seven colour names, with a string label, is a valid badge |
| ApiSchema.ColorNameIsBadgeColor | packages/core/shared/types/api.ts:19 | every badge colour of the record type is one of the seven enum names |
| ApiSchema.CategoryFields | packages/core/shared/types/api.ts:23-29 | id (string or number), name and slug make a valid category without icon or productCount |
| ApiSchema.CategoryRequiredFields | packages/core/shared/types/api.ts:23-29 | a valid category has a string-or-number id and string name and slug; an object lacking any of the three is rejected, whatever other keys it has |
| ApiSchema.EmptyProductListValid | packages/core/shared/types/api.ts:31-34 | an empty products array with a numeric total is a valid list response |
| MockCategories.EightCategoriesNumbered | packages/core/shared/data/mock/categories.ts:3-12 | there are 8 categories with ids 1 to 8 in order, pairwise distinct |
| MockCategories.MockCategoriesValid | packages/core/shared/__tests__/api-schemas.test.ts:158-178 | every mock category passes the category schema, and `{categories: mockCategories}` passes the list schema |
| MockCategories.SlugsDistinct | packages/core/shared/__tests__/api-schemas.test.ts:185-188 | the slugs are pairwise distinct |
| SplashSetup.Step | packages/tauri-core/src/lib.rs:42-62 | one `set_complete` call: the task's match arm, `Err("Invalid task")` for any other name, and the window action of the flags after the call; its properties are the lemmas below |
| SplashSetup.ActionFor | packages/tauri-core/src/lib.rs:50-61 | the desktop window block: destroy the splashscreen and show the main window when both flags are up, otherwise nothing |
| SplashSetup.KnownTaskSetsOnlyItsFlag | packages/tauri-core/src/lib.rs:42-44 | `"frontend"` sets only frontend_task and `"backend"` only backend_task; both return Ok |
| SplashSetup.UnknownTaskRejected | packages/tauri-core/src/lib.rs:45 | any other task returns `Err("Invalid task")` with the flags unchanged and no window change |
| SplashSetup.StepOkIffKnown | packages/tauri-core/src/lib.rs:42-46 | a call succeeds iff the task name is `frontend` or `backend` |
| SplashSetup.StepMonotone | packages/tauri-core/src/lib.rs:42-46 | a flag that is true stays true |
| SplashSetup.ActionIffBothDone | packages/tauri-core/src/lib.rs:50-62 | (desktop build) the splashscreen is destroyed and the main window shown iff the call succeeded and both flags are then true |
| SplashSetup.ActionRepeats | packages/tauri-core/src/lib.rs:50-62 | (desktop build) once both flags are up, every later valid call performs the window action again |
| SplashSetup.RunRaisesCalledFlags | packages/tauri-core/src/lib.rs:42-46 | after any sequence of calls, a flag is up iff it was up before or its task occurred; order, repetition and invalid names do not matter |
| SplashSetup.ActionAtCall | packages/tauri-core/src/lib.rs:50-62 | (desktop build) from a fresh state, call k shows the main window iff it is valid and both task names occurred up to and including it |
| SplashSetup.SetupState.New | packages/tauri-core/src/lib.rs:20-25 | `SetupState::new()` has both flags false |
| SplashSetup.SetupState.SetComplete | packages/tauri-core/src/lib.rs:35-65 | the returned result, the new flags and the window action are those of `Step` on the old flags |
| SplashSetup.SetupState.DefaultBackendSetup | packages/tauri-core/src/lib.rs:69-83 | the backend flag is raised, any error is ignored and the result is Ok; the window action fires iff both flags are up |
| WecareSetup.SetupState.constructor | apps/wecare/src-tauri/src/lib.rs:21-24 | the managed state starts with both flags false |
| WecareSetup.SetupState.SetComplete | apps/wecare/src-tauri/src/lib.rs:69-100 | the same transition `Step` as the shared crate: known tasks set their flag and return Ok, unknown ones return `Err("Invalid task")`, and the action fires iff both flags are up |
| WecareSetup.SetupState.Setup | apps/wecare/src-tauri/src/lib.rs:102-116 | the backend flag is raised and the result is Ok whatever `set_complete` returned |
| NewBrand.ReplaceHyphens | scripts/new-brand.ts:14 | same length; every `-` becomes `_` and every other character is kept |
| NewBrand.DeriveLibName | scripts/new-brand.ts:13-15 | the output is 4 longer than the input, maps `-` to `_` position by position, ends with `_lib` and contains no `-` |
| NewBrand.DeriveLibNameOneHyphen | scripts/new-brand.ts:13-15 | `my-brand` becomes `my_brand_lib` |
| NewBrand.DeriveLibNameNoHyphen | scripts/new-brand.ts:13-15 | `simple` becomes `simple_lib` |
| NewBrand.DeriveLibNameTwoHyphens | scripts/new-brand.ts:13-15 | `my-cool-brand` becomes `my_cool_brand_lib` |
| NewBrand.DeriveLibNameWithoutHyphens | scripts/new-brand.ts:14 | a name without hyphens only gains the `_lib` suffix |
| NewBrand.GenerateCargoToml | scripts/new-brand.ts:17-48 | the Cargo.toml template, as joined lines; its contents are `CargoTomlContents` |
| NewBrand.CargoTomlContents | scripts/new-brand.ts:17-48 | the manifest contains `name = "<brand>-app"`, `name = "<libName>"`, the tauri-core path dependency and every `tauri-plugin-*` crate |
| NewBrand.GenerateTauriConf | scripts/new-brand.ts:50-108 | the tauri.conf.json object, as a record; its fields are `TauriConfFacts` |
| NewBrand.TauriConfFacts | scripts/new-brand.ts:50-108 | productName and identifier are copied, version is 1.0.0, shortDescription is `<productName> App`; exactly two windows, `main` (hidden) then `splashscreen`, the labels `set_complete` acts on |
| NewBrand.Lookup | scripts/new-brand.ts:116-145 | a key is found iff some entry has it, and the value returned is stored under that key |
| NewBrand.LookupFirst | scripts/new-brand.ts:116-145 | the first entry under a key gives its value |
| NewBrand.GeneratePackageJson | scripts/new-brand.ts:110-147 | the package.json object, as a record with key-value lists; its fields are the `PackageJson*` lemmas |
| NewBrand.PackageJsonKeysDistinct | scripts/new-brand.ts:116-142 | script names and dependency names are each written once |
| NewBrand.PackageJsonFacts | scripts/new-brand.ts:110-147 | name is `@apps/<brand>`, the package is private, `@packages/core` is `workspace:*` and the Tauri CLI is a dev dependency |
| NewBrand.PackageJsonScripts | scripts/new-brand.ts:116-130 | dev, build, tauri:dev, tauri:android:build and the three web scripts have their commands |
| NewBrand.PackageJsonPlugins | scripts/new-brand.ts:131-142 | the http, deep-link, stronghold, biometric, barcode-scanner and geolocation plugin packages are dependencies |
| NewBrand.GenerateAppConfig | scripts/new-brand.ts:235-286 | the app.config.ts template, as joined lines; its contents are `AppConfigBrand` and `AppConfigNavKeys` |
| NewBrand.AppConfigBrand | scripts/new-brand.ts:235-286 | the app config contains `name: '<productName>'`, the logo path `/images/<brand>-logo.png` and `primary: 'cyan'` |
| NewBrand.AppConfigNavKeys | scripts/new-brand.ts:251-259 | the app config contains the label key of every default navigation item |
| NewBrand.DefaultNavLabelKeys | scripts/new-brand.ts:253-257 | the default nav keys are home, shop, cart, favorites and account, in that order |
| NewBrand.CheckArgs | scripts/new-brand.ts:333-348 | fewer than 3 arguments print the usage and exit with status 1; otherwise the first three are brand name, identifier and product name |

## Left out

- Pinia stores, `ref`/`computed` reactivity, `useAsyncData`, `watch`, `useNavigation` and `useCategories` are framework glue. The store state is modelled directly as class fields, and the derived values as `reads` functions.
- Live-mode HTTP: `useApiClient`'s `$fetch` is a network call and is not modelled. The `/products/<id>` request of `useProduct` is also not modelled. Only the live request path of `useProducts` is.
- `application/x-www-form-urlencoded` byte encoding: the encoding of names and values is the `encode` parameter of `UseProducts.LivePath`.
- The contents of `mockProducts`: that file is not part of this model, so the list is a parameter of the query functions.
- Tauri platform bridges (biometric, geolocation, barcode scanner, `isTauri`, the tauri-only middleware): foreign asynchronous calls.
- Rust runtime plumbing:
  - the effects of the Mutex (its locking, and the error path when the lock is poisoned);
  - `println!`;
  - the two-second `sleep`;
  - `spawn`, the tray menu, plugin registration and `run`.
  `set_complete`'s window calls are an emitted `WindowAction`. Whether the windows exist (`get_window` returning `None`) is not modelled.
- SplashSetup.ActionFor: the window action models the desktop build. Under a mobile build the `#[cfg(desktop)]` block is compiled out, so no window change happens even when both flags are up; the model always emits `DestroySplashShowMain` then. The same holds for `Step`, `ActionIffBothDone`, `ActionRepeats`, `ActionAtCall` and both `SetComplete` methods.
- The new-brand main block: it copies files, writes files and calls `process.exit`. Only its argument-count check is modelled, as a value (`NewBrand.CheckArgs`).
- `generateNuxtConfig`, `generateIndexPage` and `generateSplashscreenPage`: free-form template text, not modelled. Product names are not escaped in any template, so no claim is made that the output is well-formed TOML or TypeScript.
- Cart quantities are `int`. The store accepts any `number`, so fractional quantities are not modelled. Neither is a `NaN` quantity in `updateQuantity`: `NaN <= 0` is false, so the source stores `NaN` as the quantity.
- Floating point: prices and savings are exact reals, so rounding in the totals is not modelled.
- `toLowerCase` is ASCII-only here; Unicode case mapping is not modelled.
- Numeric ids are integers; `String(n)` for non-integral or exponent-notation numbers is not modelled.
- Array-valued query parameters (`?category=a&category=b`) are not modelled; a query value is a single string.
- Object identity in the cart: `existing.quantity +=` mutates an object that callers may also hold. The model updates the list by value, so this aliasing is not captured.
- JSON key order and serialization are not modelled: objects are maps, and `package.json` entries are key-value lists.
- zod's parsed output (stripping unknown keys) is not modelled; the schemas are modelled only as acceptance predicates.
