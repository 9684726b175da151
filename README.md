# Ayuraa: a verified model of the marketplace client and its server

Ayuraa is a wellness marketplace. Visitors find healers, book sessions, shop for
wellness products, read a resource library and chat with Ayu, a scripted
companion. This project models the logic behind the React client in `src/` and
behind the Hono server in `src/supabase/functions/server/index.tsx`, and proves
properties of that model in Dafny.

Each core source file has its own module:

- `App` (app.dfy) covers the application shell: sign-in, sign-up, profile
  landing, booking and registration gates, and the cart handlers.
- `ViewRouter` (view_router.dfy) covers `handleViewChange` and the view
  resolution in `renderCurrentView` / `renderShopView`.
- `CartReducer` (cart_reducer.dfy) covers the cart reducers `addToCart`,
  `updateCartItem` and `removeFromCart`, and the item count and subtotal.
- `ShopCart` and `CartDrawer` cover the two cart views: their steppers, totals,
  discount and free-shipping progress.
- `ProductStore` covers the store section: its per-product cart controls, its
  category filter and its preview cap. Its wishlist toggle is `Lists.Toggle`.
- `ProductListing` and `ProductDetail` cover the shop's listing page (filters,
  price sort, headings) and product page (size, quantity, subscription, add to
  cart).
- `UserDashboard` covers the user dashboard: wishlist, notifications and goals
  with progress clamped to the goal's total.
- `HealerRegistration` covers the registration wizard: nested form fields,
  choice toggles, step gating and the submitted healer record.
- `ServiceMatching` covers symptom matching. `FeaturedHealers` covers the
  healer carousel. `ResourceLibrary` covers the resource library.
- `ChatBot` covers Ayu: the keyword classifier, the scripted replies and the
  conversation rule.
- `AuthModal` covers the sign-in / sign-up dialog.
- `Server` (server.dfy) covers the server's handlers over its key-value store:
  profiles, bookings, goals and wishlists.

Three shared modules hold the JavaScript behaviour the components rely on:

- `Text`: `trim`, ASCII `toLowerCase`, `includes`, `split` and `parseInt`.
- `Lists`: `filter`, the include/exclude toggle and `slice`.
- `JsonValues`: truthiness, `||` defaults, `String(v)`, `|| []` and object spread.

Pure updaters (`map`/`filter`/`reduce` over a list) are functions with lemmas.
Components whose handlers update several pieces of state are classes: their
methods have `modifies` clauses, and each method's `ensures` ties the new state
to those functions. The server's store is a `Store` class with a map field. Each
handler is a method specified by a function from the old store to a reply and
the new store.

The model follows the code where it differs from what the screens suggest:

- `"shop/"` and an unknown shop segment keep the previous shop route. The
  `pathParts.length === 0` branch never runs (`ViewRouter.ShopPathNeverEmpty`).
- The tips quick action ("Give me some wellness tips for today") gets the shop
  reply, because "wellness" is a shop keyword and the shop topic is tried before
  the tips topic.
- A maximum price of 0 typed into the listing's filter means 5000.
- A goal update may carry a `user_id` that reassigns the goal to someone else.

## Model

| member | source | states |
|---|---|---|
| App.SignInError | src/App.tsx:146-154 | sign-in proceeds exactly when email and password are present and the email has an '@'; missing fields give "Email and password are required", and an email without '@' gives "Please enter a valid email address" |
| App.SignUpError | src/App.tsx:176-188 | sign-up proceeds exactly when email, password and name are present, the email has an '@' and the password has at least 6 characters; the checks run in that order, and each failure gives its own message: "All fields are required", "Please enter a valid email address", "Password must be at least 6 characters long" |
| App.ProfileLanding | src/App.tsx:134-138 | a loaded profile lands on the healer dashboard exactly when its role is "healer", otherwise on the user dashboard |
| App.SignUpLanding | src/App.tsx:222-236 | a new healer goes to healer registration; anyone else goes to the user dashboard |
| App.AppState.constructor | src/App.tsx:35-48 | the app starts on "home" with no route, no user, an empty cart and every modal closed |
| App.AppState.HandleViewChange | src/App.tsx:443-539 | a non-string view changes nothing; otherwise the view state becomes `Navigate` of the old one; a narrow viewport closes the cart drawer; user, cart and modals are untouched |
| App.AppState.AddToCart | src/App.tsx:363-412 | the cart becomes `CartReducer.AddToCart` of the old cart and keeps its lines unique; nothing else changes |
| App.AppState.UpdateCartItem | src/App.tsx:414-430 | the cart becomes `CartReducer.UpdateCartItem` of the old cart; nothing else changes |
| App.AppState.RemoveFromCart | src/App.tsx:432-441 | the cart becomes `CartReducer.RemoveFromCart` of the old cart; nothing else changes |
| App.AppState.HandleSignIn | src/App.tsx:146-174 | a failed check or a rejected sign-in reports its message and keeps user and view; success stores the user, closes the dialog and lands by profile role |
| App.AppState.HandleSignUp | src/App.tsx:176-243 | as sign-in; an accepted sign-up whose profile could not be created reports "Failed to create user profile" |
| App.AppState.LoadUserProfile | src/App.tsx:121-143 | a found profile is stored and the view goes to its role's landing; a missing profile changes nothing |
| App.AppState.HandleSignOut | src/App.tsx:245-255 | a successful sign-out clears the user, the profile and the cart and returns home; a failed one changes nothing |
| App.AppState.HandleBookHealer | src/App.tsx:257-270 | a visitor gets the sign-in dialog; a signed-in user with a healer gets that healer selected and the booking dialog |
| App.AppState.HandleHealerRegistration | src/App.tsx:272-282 | a visitor gets the sign-in dialog; a signed-in user goes to healer registration |
| App.AppState.CurrentPage | src/App.tsx:786-836 | a shop page is shown exactly when the view is "shop", an unknown view shows the home page, and the shop landing is shown exactly when the view is "shop" and the route is not listing, product or cart |
| ViewRouter.Navigate | src/App.tsx:455-535 | "services#..." shows services with no route; "shop/..." shows the shop; any other string shows itself with no route |
| ViewRouter.NavigateShop | src/App.tsx:508-531 | a shop path's route is chosen from the parts after "shop" |
| ViewRouter.ShopPathNeverEmpty | src/App.tsx:510-513 | a "shop/" view always has at least one part after "shop", so the landing branch never runs |
| ViewRouter.NavigateNeverLanding | src/App.tsx:512-513 | no navigation ever sets the "landing" route |
| ViewRouter.NavigateShopAll | src/App.tsx:514-518 | "shop/all" lists every category, with the caller's parameters overriding it |
| ViewRouter.NavigateShopNeed | src/App.tsx:519-523 | "shop/need/x" lists need x, with the caller's parameters overriding it |
| ViewRouter.NavigateShopProduct | src/App.tsx:524-528 | "shop/product/h" shows product h and drops the caller's parameters |
| ViewRouter.NavigateShopCart | src/App.tsx:529-530 | "shop/cart" shows the cart |
| ViewRouter.NavigateShopUnknown | src/App.tsx:508-531 | an unknown first segment keeps the previous shop route |
| ViewRouter.NavigateShopMissingArgument | src/App.tsx:519-528 | "shop/need" and "shop/product", with or without a trailing slash, keep the previous shop route |
| ViewRouter.NavigateIdempotent | src/App.tsx:443-539 | navigating twice to the same view with the same parameters is navigating once |
| ViewRouter.ResolveShop | src/App.tsx:786-836 | the shop landing is shown exactly for a route other than listing, product and cart; a product route shows the handle it carries, or "" |
| ViewRouter.Resolve | src/App.tsx:541-761 | an unknown view shows the home page; the shop page is shown exactly for "shop" |
| ViewRouter.ServicesHashShowsServices | src/App.tsx:456-458 | every "services#category" view shows the services page |
| ViewRouter.ProductRouteShowsProduct | src/App.tsx:524-528 | "shop/product/h" shows the product page for h |
| ViewRouter.NeedRouteShowsListing | src/App.tsx:519-523 | "shop/need/x" shows the listing filtered by need x |
| ViewRouter.UnknownSegmentShowsLanding | src/App.tsx:830-836 | from the start state, an unknown shop segment shows the shop landing |
| CartReducer.ChosenSize | src/App.tsx:371-372 | the size is the requested one, else the product's default, else "standard", and never empty |
| CartReducer.Quantity | src/App.tsx:374-377 | the quantity added is at least 1 |
| CartReducer.QuantityOfNumber | src/App.tsx:374-377 | a requested number k adds k when k is at least 1, and 1 otherwise |
| CartReducer.QuantityDefault | src/App.tsx:374-377 | a missing or unparsable quantity adds 1 |
| CartReducer.Bump | src/App.tsx:386-394 | raising the matching line keeps the cart's length |
| CartReducer.AddToCart | src/App.tsx:363-408 | a non-object product leaves the cart as it was; otherwise the cart keeps its length or grows by one line |
| CartReducer.BumpOne | src/App.tsx:386-394 | in a cart of unique lines, raising the matching line changes that line's quantity only |
| CartReducer.AddMerges | src/App.tsx:379-394 | adding a product, size and subscription already in the cart raises that line's quantity in place |
| CartReducer.AddAppends | src/App.tsx:396-407 | adding a new combination appends one line with the chosen size, quantity and subscription |
| CartReducer.AddPreservesUnique | src/App.tsx:363-412 | adding keeps (id, size, subscription) unique across lines |
| CartReducer.AddKeepsPositive | src/App.tsx:363-412 | adding keeps every quantity positive |
| CartReducer.AddRaisesCount | src/App.tsx:363-412 | adding raises the cart's item count by exactly the quantity added |
| CartReducer.UpdateCartItem | src/App.tsx:414-430 | an empty id or a non-object patch changes nothing; otherwise only the lines with that cart id take the patch |
| CartReducer.RemoveFromCart | src/App.tsx:432-441 | an empty id changes nothing; otherwise no line keeps that cart id and every other line stays, in order |
| CartReducer.RemoveLowersCount | src/App.tsx:432-441 | removing lowers the item count by the removed lines' quantities |
| CartReducer.Shipping | src/components/shop/CartDrawer.tsx:15-16 | shipping is free exactly from 499 up, and 49 otherwise |
| CartReducer.ItemCountAppend | src/components/Navigation.tsx:105 | the item count of two carts together is the sum of their counts |
| CartReducer.SubtotalAppend | src/components/shop/ShopCart.tsx:13 | the subtotal of two carts together is the sum of their subtotals |
| CartReducer.ItemCountUpdate | src/components/Navigation.tsx:105 | replacing a line changes the item count by the difference in quantity |
| CartReducer.ItemCountAtLeastLines | src/components/Navigation.tsx:105 | with positive quantities, the item count is at least the number of lines |
| CartReducer.SubtotalNonNegative | src/components/shop/ShopCart.tsx:13 | non-negative prices and quantities give a non-negative subtotal |
| CartDrawer.Total | src/components/shop/CartDrawer.tsx:14-17 | the total lies between the subtotal and the subtotal plus 49; it equals the subtotal exactly when the subtotal reaches 499, and is the subtotal plus 49 otherwise |
| CartDrawer.DrawerAndPageTotals | src/components/shop/ShopCart.tsx:13-17 | the cart page's total is the drawer's total less the subscription discount; they agree exactly when nothing is subscribed |
| CartDrawer.RemoveLowersHeader | src/components/shop/CartDrawer.tsx:37 | removing a line lowers the header's item count by that line's quantity |
| ShopCart.UpdateQuantity | src/components/shop/ShopCart.tsx:19-25 | a quantity of 0 or less removes the line; a positive one sets that line's quantity and keeps the cart's length |
| ShopCart.MinusStep | src/components/shop/ShopCart.tsx:117 | the minus button lowers that line by one, and removes it when it held one |
| ShopCart.PlusStep | src/components/shop/ShopCart.tsx:124 | the plus button raises that line by one and nothing else |
| ShopCart.OnlyLineWithId | src/components/shop/CartDrawer.tsx:19-25 | with distinct cart ids, one line holds the id, and removing it drops one line |
| ShopCart.DiscountRange | src/components/shop/ShopCart.tsx:14 | the discount, in hundredths, lies between 0 and 15% of the subtotal |
| ShopCart.DiscountZero | src/components/shop/ShopCart.tsx:14 | there is no discount exactly when no line with a positive amount is subscribed |
| ShopCart.PageTotalAtLeast | src/components/shop/ShopCart.tsx:17 | the page total is at least 85% of the subtotal plus shipping, and never negative |
| ShopCart.ToGo | src/components/shop/CartDrawer.tsx:134-138 | the amount still to go appears exactly when shipping is charged, and reaches the threshold exactly |
| ShopCart.ToggleSubscription | src/components/shop/ShopCart.tsx:27-29 | every line holding the cart id takes the opposite of the subscription shown; every other line is unchanged and the length is kept |
| ShopCart.ToggleBreaksUnique | src/components/shop/ShopCart.tsx:27-29 | a cart with unique lines in which toggling makes two lines with the same id, size and subscription |
| ShopCart.IndexOfCartId | src/components/shop/ShopCart.tsx:27-29 | the first line holding a cart id, or none exactly when no line holds it |
| ShopCart.IndexOfKey | src/App.tsx:379-384 | the line with a given (id, size, subscription), or none exactly when there is no such line |
| ShopCart.ToggleMergedKeepsUnique | src/components/shop/ShopCart.tsx:27-29 | the merging toggle keeps lines unique and keeps the item count |
| ShopCart.ToggleLineKeepsUnique | src/components/shop/ShopCart.tsx:27-29 | toggling one line with merging keeps lines unique and keeps the item count |
| ShopCart.FlipInPlace | src/components/shop/ShopCart.tsx:27-29 | a flip that meets no twin line keeps the cart unique |
| ShopCart.MergeInto | src/App.tsx:386-394 | merging a line into its twin keeps lines unique and keeps the item count |
| ShopCart.RemoveAtKeepsUnique | src/App.tsx:432-441 | dropping a line keeps lines unique |
| ShopCart.RemoveAtCount | src/App.tsx:432-441 | dropping a line lowers the item count by its quantity |
| ShopCart.ToggleMergedFlips | src/components/shop/ShopCart.tsx:27-29 | after the merging toggle, the cart holds the flipped combination |
| ShopCart.ToggleLineFlips | src/components/shop/ShopCart.tsx:27-29 | toggling one line leaves the flipped combination in the cart |
| ShopCart.IndexOfFirst | src/components/shop/ShopCart.tsx:27-29 | the first line holding the id is the one found |
| ProductStore.UpdateCartQuantity | src/components/ProductStore.tsx:138-149 | the result is the cart with every line of the product moved by `change`, then with the lines of the product whose new quantity is not positive dropped, in order (the `map` then `filter(Boolean)`); so other products' lines are untouched and in order, and the cart never grows |
| ProductStore.Raised | src/components/ProductStore.tsx:140-145 | only a line of the product moves, by the change; id and price are kept |
| ProductStore.RaiseKeepsLines | src/components/ProductStore.tsx:138-149 | raising keeps every line, each moved by the change when it is the product's |
| ProductStore.RaiseCount | src/components/ProductStore.tsx:138-149 | raising adds the change once per line of the product to the item count |
| ProductStore.RemoveProduct | src/components/ProductStore.tsx:151-153 | no line of the product stays; every other line does, in order |
| ProductStore.RemoveIsLoweringAll | src/components/ProductStore.tsx:138-153 | lowering every line of the product to zero or below is removing the product |
| ProductStore.RemoveProductSubtotal | src/components/ProductStore.tsx:155-157 | the total price splits into the product's lines and the rest |
| ProductStore.FilterByCategory | src/components/ProductStore.tsx:159-161 | "all" keeps every product; otherwise exactly the category's products, in order |
| ProductStore.DisplayProducts | src/components/ProductStore.tsx:163 | the preview shows at most 6 filtered products, a prefix of the filtered list; the full view shows them all |
| Lists.Toggle | src/components/ProductStore.tsx:130-136 | the toggled id is present exactly when it was absent; every other entry keeps its membership |
| Lists.ToggleNoDup | src/components/ProductStore.tsx:130-136 | toggling never creates duplicates |
| Lists.ToggleTwice | src/components/ProductStore.tsx:130-136 | toggling an absent id twice gives the same list back |
| Lists.ToggleTwiceMembership | src/components/ProductStore.tsx:130-136 | toggling any id twice restores the list's membership |
| Lists.Filter | src/components/UserDashboard.tsx:122 | the kept elements are exactly those that pass, and only those |
| Lists.FilterIsSubsequence | src/components/UserDashboard.tsx:122 | filtering keeps the survivors in their original order |
| Lists.FilterAppend | src/components/Navigation.tsx:113 | filtering a list extended by one element extends the filtered list by that element when it passes |
| Lists.FilterAll | src/components/Navigation.tsx:153 | a filter that keeps everything returns the list |
| Lists.FilterNoDup | src/components/Navigation.tsx:113 | filtering keeps a list free of duplicates |
| Lists.Slice | src/components/ResourceLibrary.tsx:168 | `slice` with in-range bounds is the subsequence between them, and never longer than the list |
| Lists.Take | src/components/ProductStore.tsx:163 | `slice(0, n)` keeps at most n elements, as a prefix, and all of them when the list is short |
| ProductListing.MinPriceInput | src/components/shop/ProductListingPage.tsx:549 | an unparsable minimum reads as 0, otherwise as the typed number |
| ProductListing.MaxPriceInput | src/components/shop/ProductListingPage.tsx:557 | an unparsable maximum reads as 5000 |
| ProductListing.MaxPriceZero | src/components/shop/ProductListingPage.tsx:557 | a typed maximum of 0 reads as 5000; any other number reads as itself |
| ProductListing.Step | src/components/shop/ProductListingPage.tsx:132-153 | each filter stage keeps a subsequence of its input |
| ProductListing.StepMember | src/components/shop/ProductListingPage.tsx:132-153 | a product survives a stage exactly when it was there and, when the stage applies, passes it |
| ProductListing.FilteredMatches | src/components/shop/ProductListingPage.tsx:129-158 | the listed products are exactly those matching need, category, selected categories, search text and price range |
| ProductListing.FilteredMember | src/components/shop/ProductListingPage.tsx:129-158 | one product is listed exactly when it matches every active filter |
| ProductListing.FilteredInOrder | src/components/shop/ProductListingPage.tsx:129-158 | filtering keeps the catalogue order |
| ProductListing.SortByPrice | src/components/shop/ProductListingPage.tsx:161-167 | the array ends sorted by price, ascending or descending, and is a permutation of what it held |
| ProductListing.InsertInto | src/components/shop/ProductListingPage.tsx:161-167 | one insertion step extends the sorted prefix by one element and permutes the array |
| ProductListing.SortedCopy | src/components/shop/ProductListingPage.tsx:161-167 | the copy is sorted by price and has the same elements |
| ProductListing.ApplyFilters | src/components/shop/ProductListingPage.tsx:129-180 | the result has the filtered products; price sorts order them by price, and every other sort keeps the catalogue order |
| ProductListing.ToggleCategory | src/components/shop/ProductListingPage.tsx:206-212 | the selection flips the category's membership, keeps every other category and stays free of duplicates |
| ProductListing.PageTitle | src/components/shop/ProductListingPage.tsx:182-192 | a need's label wins over a category's; unknown ids fall back to "WELLNESS PRODUCTS" and "ALL PRODUCTS" |
| ProductListing.BreadcrumbEndsWithTitle | src/components/shop/ProductListingPage.tsx:194-204 | a known need or category ends the breadcrumb with the page title; an unknown one gives "SHOP" |
| ProductDetail.InitialSize | src/components/shop/ProductDetailPage.tsx:36 | the first listed size, else the default size, else "100g", and never empty |
| ProductDetail.ProductPage.constructor | src/components/shop/ProductDetailPage.tsx:13-19 | no product, no size, quantity 1, no subscription, loading |
| ProductDetail.ProductPage.LoadProduct | src/components/shop/ProductDetailPage.tsx:25-43 | a fetched product is shown with its initial size; a failed fetch keeps the page; loading ends either way |
| ProductDetail.ProductPage.Decrement | src/components/shop/ProductDetailPage.tsx:211 | the quantity drops by one but never below 1 |
| ProductDetail.ProductPage.Increment | src/components/shop/ProductDetailPage.tsx:218 | the quantity rises by one |
| ProductDetail.ProductPage.SelectSize | src/components/shop/ProductDetailPage.tsx:190 | the chosen size becomes the selected size |
| ProductDetail.ProductPage.ToggleSubscription | src/components/shop/ProductDetailPage.tsx:237 | the subscription flag flips |
| ProductDetail.ProductPage.HandleAddToCart | src/components/shop/ProductDetailPage.tsx:45-53 | without a product nothing is added; otherwise the product goes to the cart with the selected size, quantity and subscription |
| ProductDetail.AddFromPageToEmptyCart | src/components/shop/ProductDetailPage.tsx:45-53 | adding from the page to an empty cart gives one line with the page's size and quantity |
| UserDashboard.RemoveFromWishlist | src/components/UserDashboard.tsx:121-123 | the product leaves the wishlist; every other item stays, in order |
| UserDashboard.MarkNotificationAsRead | src/components/UserDashboard.tsx:135-141 | that notification becomes read and every other one is unchanged |
| UserDashboard.ClearNotification | src/components/UserDashboard.tsx:143-145 | that notification goes; every other one stays, in order |
| UserDashboard.UnreadCount | src/components/UserDashboard.tsx:322-324 | the badge count is 0 exactly when every notification is read |
| UserDashboard.MarkReadIdempotent | src/components/UserDashboard.tsx:135-141 | marking a notification read twice is marking it once |
| UserDashboard.MarkReadCount | src/components/UserDashboard.tsx:135-141 | marking an id read lowers the unread count by the number of unread notifications carrying that id |
| UserDashboard.MarkReadLowersByOne | src/components/UserDashboard.tsx:135-141 | when notification ids are distinct, marking an id read lowers the unread count by one if that notification was unread, and leaves it otherwise |
| UserDashboard.Clamp | src/components/UserDashboard.tsx:168 | progress is kept when it lies in [0, total]; below 0 it becomes 0, above a non-negative total it becomes the total, and with a negative total it is 0 |
| UserDashboard.UpdateGoalProgress | src/components/UserDashboard.tsx:165-171 | only the goal with that id moves, to the clamped progress |
| UserDashboard.UpdateKeepsInRange | src/components/UserDashboard.tsx:165-171 | progress updates keep every goal's progress within [0, total] |
| UserDashboard.DeleteGoal | src/components/UserDashboard.tsx:173-175 | the goal goes; every other one stays, in order |
| UserDashboard.EditGoal | src/components/UserDashboard.tsx:188-196 | only the edited goal takes the draft's text, total, category, deadline and colour; its progress is kept |
| UserDashboard.EditCanExceedTotal | src/components/UserDashboard.tsx:188-196 | lowering a goal's total by editing can leave its progress above the new total |
| UserDashboard.AddedGoalInRange | src/components/UserDashboard.tsx:148-158 | a new goal starts at progress 0 within its total, with text exactly when the draft's text is not blank |
| UserDashboard.GoalBoard.constructor | src/components/UserDashboard.tsx:88-110 | the board starts with the given goals, an empty draft, the form hidden and nothing being edited |
| UserDashboard.GoalBoard.AddGoal | src/components/UserDashboard.tsx:148-163 | a draft with text and a positive total is appended and the form resets and closes; otherwise nothing changes |
| UserDashboard.GoalBoard.StartEditingGoal | src/components/UserDashboard.tsx:177-186 | the goal's fields are copied into the draft and its id is being edited |
| UserDashboard.GoalBoard.SaveEditedGoal | src/components/UserDashboard.tsx:188-200 | with a goal being edited (a truthy id, so not 0) and a non-blank draft, that goal is edited and the draft reset; otherwise nothing changes |
| UserDashboard.GoalBoard.UpdateProgress | src/components/UserDashboard.tsx:165-171 | the goals become `UpdateGoalProgress` of the old goals |
| UserDashboard.GoalBoard.Delete | src/components/UserDashboard.tsx:173-175 | the goals become `DeleteGoal` of the old goals |
| HealerRegistration.InputChange | src/components/HealerRegistration.tsx:87-100 | a plain field is set; a dotted field sets the child inside its parent group; every other field is kept |
| HealerRegistration.SetNestedField | src/components/HealerRegistration.tsx:88-96 | "parent.child" replaces the parent group by the same group with the child set |
| HealerRegistration.SetIndividualPrice | src/components/HealerRegistration.tsx:88-96 | typing the individual price sets it and keeps the group price and every other field |
| HealerRegistration.ArrayToggle | src/components/HealerRegistration.tsx:102-109 | the value's membership flips, every other value keeps its membership, and every other field is kept |
| HealerRegistration.ArrayToggleNoDup | src/components/HealerRegistration.tsx:102-109 | toggling keeps a choice list free of duplicates |
| HealerRegistration.BuildHealerData | src/components/HealerRegistration.tsx:119-136 | specialties are the non-empty categories and specialties, in order; experience defaults to "3-5 years"; the price reads "₹<individual or 2500>/session" |
| HealerRegistration.DefaultsWhenUntouched | src/components/HealerRegistration.tsx:119-125 | untouched experience, price and choices give the defaults and no specialties |
| HealerRegistration.DefaultsOnEmptyForm | src/components/HealerRegistration.tsx:14-44 | submitting the initial form gives the default experience and price, no specialties and English |
| HealerRegistration.Wizard.constructor | src/components/HealerRegistration.tsx:12-44 | the wizard starts at step 0 with the initial form |
| HealerRegistration.Wizard.Previous | src/components/HealerRegistration.tsx:582 | the step goes back by one but never below 0 |
| HealerRegistration.Wizard.Next | src/components/HealerRegistration.tsx:590-597 | the step becomes `NextStep` of the form and the old step, the transition `StepsAreGated` characterises |
| HealerRegistration.Wizard.ChangeInput | src/components/HealerRegistration.tsx:87-100 | the form becomes `InputChange` of the old form |
| HealerRegistration.Wizard.ToggleChoice | src/components/HealerRegistration.tsx:102-109 | the form becomes `ArrayToggle` of the old form |
| HealerRegistration.Wizard.Submit | src/components/HealerRegistration.tsx:111-146 | the record handed on is `BuildHealerData` of the form, and loading ends |
| HealerRegistration.StepsAreGated | src/components/HealerRegistration.tsx:517-526 | the wizard advances from a step exactly when that step's fields are filled: name, phone, location and bio; a category; a session type and an individual price; some availability. It never advances from the review step and otherwise stays put |
| ServiceMatching.FindHealers | src/components/ServiceMatching.tsx:140-149 | the matching healers in order when any match; otherwise the first two; never empty when there are healers |
| ServiceMatching.NoSymptomsFallBack | src/components/ServiceMatching.tsx:149 | with no symptoms, the first two healers are offered |
| ServiceMatching.AnxietyFindsSpecialist | src/components/ServiceMatching.tsx:140-147 | the anxiety symptom finds the first listed healer |
| ServiceMatching.Matcher.constructor | src/components/ServiceMatching.tsx:10-13 | no symptoms, no matches, not loading, at the symptoms step |
| ServiceMatching.Matcher.SelectSymptom | src/components/ServiceMatching.tsx:120-126 | the symptom's selection flips, without duplicates |
| ServiceMatching.Matcher.FindHealersNow | src/components/ServiceMatching.tsx:128-158 | no symptoms changes nothing; otherwise the matches become `FindHealers` and the results step shows |
| ServiceMatching.Matcher.ResetSelection | src/components/ServiceMatching.tsx:160-164 | symptoms and matches are cleared and the symptoms step shows |
| FeaturedHealers.JsRem | src/components/FeaturedHealers.tsx:144 | JavaScript's `%`: Dafny's remainder for a non-negative dividend, a non-positive one otherwise |
| FeaturedHealers.SlideCount | src/components/FeaturedHealers.tsx:360 | there is at least one slide, and n - 2 slides for more than three healers |
| FeaturedHealers.NextSlide | src/components/FeaturedHealers.tsx:143-145 | the next slide is a valid slide |
| FeaturedHealers.PrevSlide | src/components/FeaturedHealers.tsx:147-149 | the previous slide is a valid slide |
| FeaturedHealers.SlidesWrap | src/components/FeaturedHealers.tsx:143-149 | next from the last slide is the first; previous from the first is the last |
| FeaturedHealers.PrevUndoesNext | src/components/FeaturedHealers.tsx:143-149 | previous undoes next |
| FeaturedHealers.NextUndoesPrev | src/components/FeaturedHealers.tsx:143-149 | next undoes previous |
| FeaturedHealers.VisibleHealers | src/components/FeaturedHealers.tsx:151-154 | three or fewer healers are all shown; otherwise the three from the current slide |
| FeaturedHealers.FallbackHealers | src/components/FeaturedHealers.tsx:134-136 | on a failed fetch, "all" shows every sample healer, otherwise exactly the category's, in order |
| FeaturedHealers.Carousel.constructor | src/components/FeaturedHealers.tsx:11-14 | no healers, slide 0, category "all", loading |
| FeaturedHealers.Carousel.Load | src/components/FeaturedHealers.tsx:111-141 | fetched healers or the fallback are shown from slide 0, and loading ends |
| FeaturedHealers.Carousel.Next | src/components/FeaturedHealers.tsx:143-145 | the slide becomes `NextSlide` of the old slide |
| FeaturedHealers.Carousel.Prev | src/components/FeaturedHealers.tsx:147-149 | the slide becomes `PrevSlide` of the old slide |
| FeaturedHealers.Carousel.GoTo | src/components/FeaturedHealers.tsx:360-363 | an indicator moves to its slide |
| FeaturedHealers.Carousel.Visible | src/components/FeaturedHealers.tsx:151-154 | three healers are shown, or all of them when there are fewer |
| ResourceLibrary.FallbackResources | src/components/ResourceLibrary.tsx:142-145 | on a failed fetch, "all" shows every sample resource, otherwise exactly the type's, in order |
| ResourceLibrary.LoadedResources | src/components/ResourceLibrary.tsx:138-145 | fetched resources are shown as they come; a failed fetch shows the fallback |
| ResourceLibrary.DisplayResources | src/components/ResourceLibrary.tsx:168 | the preview shows at most the first 6 resources; the full view shows them all |
| ResourceLibrary.ExploreWhenHidden | src/components/ResourceLibrary.tsx:305 | the explore button shows exactly when the preview hides some resources |
| ResourceLibrary.ResourceIcon | src/components/ResourceLibrary.tsx:150-157 | podcasts get headphones, videos the play icon, everything else the book |
| ResourceLibrary.ResourceColor | src/components/ResourceLibrary.tsx:159-166 | podcasts are pink, videos orange, everything else cyan |
| ResourceLibrary.UnknownLooksLikeArticle | src/components/ResourceLibrary.tsx:150-166 | an unknown type looks exactly like an article |
| ChatBot.Rank | src/components/ChatBot.tsx:120-172 | each topic has its place in the order the chain tries them |
| ChatBot.FirstMatch | src/components/ChatBot.tsx:120-172 | the first topic mentioned, with none mentioned before it; none when nothing is mentioned |
| ChatBot.Classify | src/components/ChatBot.tsx:118-172 | the chosen topic is mentioned in the lower-cased input and no earlier topic is; no topic when none is mentioned |
| ChatBot.WellnessNeverTips | src/components/ChatBot.tsx:148-164 | an input mentioning "wellness" always gets a scripted reply, never the feeling or tips one |
| ChatBot.LowerStrIdempotent | src/components/ChatBot.tsx:118 | lower-casing twice is lower-casing once |
| ChatBot.ClassifyIgnoresCase | src/components/ChatBot.tsx:118 | an input and its lower-cased form get the same topic |
| ChatBot.Suggestions | src/components/ChatBot.tsx:120-172 | every scripted reply offers four suggestions |
| ChatBot.Recommendations | src/components/ChatBot.tsx:128-131 | only the anxiety reply recommends anything |
| ChatBot.GenerateReply | src/components/ChatBot.tsx:97-196 | a failed request gives the hiccup reply; a recognised topic overrides the service's text; otherwise the service's non-empty message or the default line |
| ChatBot.TipsActionNeverTips | src/components/ChatBot.tsx:45 | the "Wellness Tips" quick action gets a scripted reply, but not the tips reply |
| ChatBot.UserMessageShown | src/components/ChatBot.tsx:76-83 | a non-blank input becomes a user message with non-empty text and no space at either end |
| ChatBot.Chat.constructor | src/components/ChatBot.tsx:20-23 | closed, no messages, empty input, not typing |
| ChatBot.Chat.SetOpen | src/components/ChatBot.tsx:49-53 | opening an empty conversation shows the greeting; otherwise the messages are kept |
| ChatBot.Chat.SendMessage | src/components/ChatBot.tsx:75-95 | blank text changes nothing; otherwise the trimmed text is appended as the user's message, the input cleared and Ayu starts typing |
| ChatBot.Chat.Deliver | src/components/ChatBot.tsx:90-94 | Ayu's reply is appended and typing stops |
| AuthModal.Validate | src/components/AuthModal.tsx:29-39 | the terms are checked first, then a non-blank name on sign-up; no message exactly when both pass |
| AuthModal.ErrorText | src/components/AuthModal.tsx:43 | the shown error is the thrown message when it has one, and is never empty |
| AuthModal.CallFor | src/components/AuthModal.tsx:34-40 | sign-in passes email and password; sign-up also passes the name as typed and the role |
| AuthModal.SetField | src/components/AuthModal.tsx:50 | only the named field takes the value |
| AuthModal.Dialog.constructor | src/components/AuthModal.tsx:11-21 | sign-in mode, an empty form with role "user", no error, terms unticked |
| AuthModal.Dialog.Submit | src/components/AuthModal.tsx:23-47 | a failed check makes no call and shows its message; otherwise the call is made and its error shown; loading ends |
| AuthModal.Dialog.InputChange | src/components/AuthModal.tsx:49-52 | the field takes the value and the error is cleared |
| AuthModal.Dialog.ModeChange | src/components/AuthModal.tsx:54-58 | the mode changes, the error clears and the terms box is unticked |
| AuthModal.Dialog.SetAgreed | src/components/AuthModal.tsx:224-227 | ticking clears the error; unticking keeps it |
| Text.TrimStart | src/components/ChatBot.tsx:76 | leading whitespace is dropped, and only that |
| Text.TrimEnd | src/components/ChatBot.tsx:76 | trailing whitespace is dropped, and only that |
| Text.Trim | src/components/ChatBot.tsx:76 | the result has no space at either end, and is empty exactly when the input is all whitespace |
| Text.TrimNotBlank | src/components/ChatBot.tsx:76-80 | a non-blank text trims to a non-empty text with no space at either end |
| Text.LowerStr | src/components/ChatBot.tsx:118 | each character is lower-cased in place |
| Text.PrefixContainedIgnoringCase | src/components/Navigation.tsx:152-157 | a label starting with the query matches it |
| Text.Split | src/App.tsx:510 | at least one part, and no part contains the separator |
| Text.JoinSplit | src/App.tsx:510 | joining the parts with the separator gives the string back |
| Text.SplitAtSeparator | src/App.tsx:510 | a string containing the separator splits into at least two parts |
| Text.SplitWithoutSeparator | src/App.tsx:510 | a string without the separator is its own single part |
| Text.SplitAfterHead | src/App.tsx:510 | splitting "head/rest" gives head followed by the parts of rest |
| Text.DigitRun | src/App.tsx:376 | the run of leading digits that `parseInt` reads |
| Text.ParseInt | src/App.tsx:376 | no number exactly when no digit follows the sign and prefix |
| Text.ParseIntOr | src/components/shop/ProductListingPage.tsx:549-557 | `parseInt(x) \|\| d`: d for no number or 0, otherwise the number |
| Text.ParseIntOrOfDecimal | src/components/shop/ProductListingPage.tsx:557 | a printed number n reads back as n, or as the fallback when n is 0 |
| Text.NatToDecimal | src/supabase/functions/server/index.tsx:208 | a number prints as at least one decimal digit |
| Text.NatToDecimalValue | src/supabase/functions/server/index.tsx:208 | the printed digits have the number's value |
| Text.ParseIntOfDecimal | src/supabase/functions/server/index.tsx:208 | `parseInt(String(n))` is n |
| Text.ParseNatDecimal | src/supabase/functions/server/index.tsx:208 | `parseInt(String(n))` is n for n at least 0 |
| Text.ParseNegativeDecimal | src/supabase/functions/server/index.tsx:208 | `parseInt(String(n))` is n for negative n |
| Text.ParseDigits | src/supabase/functions/server/index.tsx:208 | a string of decimal digits parses to its value |
| Text.ParseNegativeDigits | src/supabase/functions/server/index.tsx:208 | "-" followed by decimal digits parses to minus their value |
| JsonValues.Or | src/supabase/functions/server/index.tsx:55 | `v \|\| d` is v when v is truthy and d otherwise |
| JsonValues.PushTarget | src/supabase/functions/server/index.tsx:131-132 | a missing or falsy list starts empty, an array gives its items, anything else cannot be pushed to |
| JsonValues.Iterated | src/supabase/functions/server/index.tsx:150-153 | a falsy list walks nothing, an array its items, a string its characters; other values cannot be walked |
| JsonValues.Spread | src/supabase/functions/server/index.tsx:83-87 | spreading an object gives its properties, a string one property per character and an array one per entry, each named by its index in decimal; `null`, numbers and booleans give none |
| JsonValues.Merge | src/supabase/functions/server/index.tsx:83-87 | the body's fields override the spread stored value and the stamp overrides both; no key of any of the three is lost |
| Server.FetchProfile | src/supabase/functions/server/index.tsx:26-40 | 404 exactly when no profile is stored; otherwise the stored profile |
| Server.NewProfile | src/supabase/functions/server/index.tsx:51-63 | id, email and name as sent, role defaulting to "user", no specialties, stamped now |
| Server.CreateProfile | src/supabase/functions/server/index.tsx:42-70 | 400, with nothing stored, exactly when id, email or name is missing; otherwise the new profile is stored under its id and returned |
| Server.UpdateProfile | src/supabase/functions/server/index.tsx:73-95 | a missing profile is 404 with nothing stored; otherwise the body is laid over the stored profile, stamped, stored and returned |
| Server.Append | src/supabase/functions/server/index.tsx:131-133 | `(kv.get(key) \|\| []).push(x)` then `kv.set`: the list grows by x, or the push fails and nothing is written |
| Server.CreateBooking | src/supabase/functions/server/index.tsx:98-145 | 401 exactly when not signed in, 400 exactly when a required field is missing, neither writes; 200 exactly when signed in, complete, and both the caller's and the healer's booking lists can take a push; a created booking is the caller's, pending, priced 2500 by default |
| Server.SaveBooking | src/supabase/functions/server/index.tsx:128-140 | the booking is stored and answered with 200 exactly when both the caller's and the healer's lists can take a push, and then the store gains exactly the booking and both lists with the id appended; otherwise 500 |
| Server.BookingAppendsIds | src/supabase/functions/server/index.tsx:128-138 | a created booking is stored under its id, the id ends both the caller's and the healer's lists, and no other key changes |
| Server.Looked | src/supabase/functions/server/index.tsx:153-154 | one lookup per listed id, in list order |
| Server.Collect | src/supabase/functions/server/index.tsx:152-158 | the found records, in list order, skipping exactly the ids with nothing stored |
| Server.CollectComplete | src/supabase/functions/server/index.tsx:152-158 | when every listed id is stored, every record is returned |
| Server.BookingsOf | src/supabase/functions/server/index.tsx:147-165 | a stored list that cannot be walked answers 500; otherwise the collected bookings |
| Server.GoalsOf | src/supabase/functions/server/index.tsx:230-247 | a stored list that cannot be walked answers 500; otherwise the collected goals |
| Server.ListingIsComplete | src/supabase/functions/server/index.tsx:147-165 | while every listed booking is stored, a user's listing has one booking per listed id |
| Server.BookingKeepsListsStored | src/supabase/functions/server/index.tsx:98-145 | creating a booking keeps every listed booking id stored |
| Server.AppendBookingIdKeepsStored | src/supabase/functions/server/index.tsx:131-133 | listing the id of a stored booking keeps every listed id stored |
| Server.WriteOutsideKeepsStored | src/supabase/functions/server/index.tsx:136-138 | writing a healer's list leaves the user lists' guarantee intact |
| Server.HealerListing | src/supabase/functions/server/index.tsx:168-184 | a null profile answers 500; otherwise exactly the healer profiles, in order |
| Server.NumericTotalKept | src/supabase/functions/server/index.tsx:208 | a numeric total is stored as that number |
| Server.CreateGoal | src/supabase/functions/server/index.tsx:187-228 | 401 exactly when not signed in, 400 exactly when goal or total is missing, neither writes; 200 exactly when signed in, complete, the goal is a string and the caller's goal list can take a push; a created goal is stored under its id and returned, and its id ends the caller's goal list |
| Server.SaveGoal | src/supabase/functions/server/index.tsx:216-223 | the goal is stored under its id whether or not the push onto the owner's list succeeds; 200 exactly when that list can take a push, and then the store gains exactly the goal and the list with the id appended |
| Server.CreatedGoalIsListed | src/supabase/functions/server/index.tsx:216-243 | a goal that POST `/goals` accepts is in the owner's GET `/goals/user/:userId` listing afterwards |
| Server.NewGoalDefaults | src/supabase/functions/server/index.tsx:203-214 | a new goal is the caller's, with trimmed text, no progress, the parsed total and "Personal" / "neo-cyan" defaults |
| Server.UpdateGoal | src/supabase/functions/server/index.tsx:250-279 | 401 when not signed in; 200 exactly for the goal's owner, laying the body over the goal; anything else writes nothing |
| Server.UpdateMayReassignOwner | src/supabase/functions/server/index.tsx:262-273 | an owner's update whose body names another `user_id` hands the goal to that user |
| Server.AddToWishlist | src/supabase/functions/server/index.tsx:282-310 | 401 exactly when not signed in, 400 exactly when signed in without a product id; with a list, an id already included answers 200 with the list and no write, and a new id is appended, stored and answered with 200; a stored string answers 200 exactly when it contains the id, and is never written |
| Server.WishlistAddIdempotent | src/supabase/functions/server/index.tsx:298-303 | adding the same product twice is adding it once |
| Server.WishlistStaysDistinct | src/supabase/functions/server/index.tsx:298-303 | adding keeps a stored wishlist free of duplicates |
| Server.WishlistOf | src/supabase/functions/server/index.tsx:312-321 | the stored wishlist, or an empty list |
| Server.Store.constructor | src/supabase/functions/server/index.tsx:26-321 | the store holds the given entries |
| Server.Store.Push | src/supabase/functions/server/index.tsx:131-133 | the store becomes `Append` of the old store, or is unchanged when the push fails |
| Server.Store.PostProfile | src/supabase/functions/server/index.tsx:42-70 | reply and new store are `CreateProfile` of the old store |
| Server.Store.PutProfile | src/supabase/functions/server/index.tsx:73-95 | reply and new store are `UpdateProfile` of the old store |
| Server.Store.PostBooking | src/supabase/functions/server/index.tsx:98-145 | reply and new store are `CreateBooking` of the old store |
| Server.Store.CollectStored | src/supabase/functions/server/index.tsx:152-158 | the loop collects exactly `Collect` of the listed ids |
| Server.Store.GetUserBookings | src/supabase/functions/server/index.tsx:147-165 | the reply is `BookingsOf` the store |
| Server.Store.GetUserGoals | src/supabase/functions/server/index.tsx:230-247 | the reply is `GoalsOf` the store |
| Server.Store.GetHealers | src/supabase/functions/server/index.tsx:168-184 | the loop's reply is `HealerListing` of the profiles |
| Server.Store.PostGoal | src/supabase/functions/server/index.tsx:187-228 | reply and new store are `CreateGoal` of the old store |
| Server.Store.PutGoal | src/supabase/functions/server/index.tsx:250-279 | reply and new store are `UpdateGoal` of the old store |
| Server.Store.PostWishlist | src/supabase/functions/server/index.tsx:282-310 | reply and new store are `AddToWishlist` of the old store |
| Navigation.GetPageInfo | src/components/Navigation.tsx:129-149 | exactly the seven tracked views have page info, each under its own id |
| Navigation.TrackPageView | src/components/Navigation.tsx:109-123 | a tracked view moves to the front of the recent list, at most five entries are kept, and the rest keep their order |
| Navigation.TrackKeepsDistinct | src/components/Navigation.tsx:112-114 | the recent list never holds a page twice |
| Navigation.FilterDistinct | src/components/Navigation.tsx:113 | filtering keeps page ids distinct |
| Navigation.RecentForCategory | src/components/Navigation.tsx:558-570 | at most three recent pages, all of the menu's category, in recent order |
| Navigation.FilterMenuItems | src/components/Navigation.tsx:152-157 | a blank query shows every item; otherwise exactly the items whose label contains the query ignoring case, in order |
| Navigation.NextIndex | src/components/Navigation.tsx:258-261 | arrow down moves the focus within the list and wraps from the last item to the first |
| Navigation.PrevIndex | src/components/Navigation.tsx:270-273 | arrow up moves the focus within the list and wraps from the first item to the last |
| Navigation.FocusStepsInverse | src/components/Navigation.tsx:252-275 | arrow up undoes arrow down and arrow down undoes arrow up |
| Navigation.KeyEffectOf | src/components/Navigation.tsx:251-300 | only Enter or Space on an open menu picks, and only the focused item; Escape, or Tab on an open menu, closes; a closed menu opens focused on the first or last item |
| Navigation.EnterLikeSpace | src/components/Navigation.tsx:276-289 | Enter and Space do the same thing |
| Navigation.Uniform | src/components/Navigation.tsx:51-76 | every menu starts with the same value |
| Navigation.NavigationMenu.constructor | src/components/Navigation.tsx:51-86 | every menu closed, unfocused and unsearched; no recent pages |
| Navigation.NavigationMenu.TrackView | src/components/Navigation.tsx:108-126 | the recent list becomes `TrackPageView` of the old list; menus are untouched |
| Navigation.NavigationMenu.SetDropdownOpen | src/components/Navigation.tsx:180-193 | the menu opens or closes; closing also clears its focus and search |
| Navigation.NavigationMenu.HandleDropdownToggle | src/components/Navigation.tsx:225-244 | only the toggled menu can be open, and it flips; every focus resets; a closed menu's search is cleared |
| Navigation.NavigationMenu.HandleKeyDown | src/components/Navigation.tsx:247-301 | the menus change as `KeyEffectOf` says for the filtered items; a pick navigates to the item and closes the menu |
| Navigation.NavigationMenu.HandleDropdownItemClick | src/components/Navigation.tsx:304-307 | the item's view is opened and its menu closes and resets |
| Navigation.NavigationMenu.GlobalEscape | src/components/Navigation.tsx:408-423 | Escape closes every menu and clears every search |

## Left out

- `fetch`, the DOM, `localStorage`, timers, scrolling, hover and resize handlers are outside the model. Results arrive as parameters; `Date.now()` and `crypto.randomUUID()` are parameters too.
- `supabase.auth` is outside the model. Its answer appears as the caller's id (`Option<string>`), or as an accepted or rejected sign-in or sign-up.
- The `kv_store` module is not part of this model. The store is a map, and the order `getByPrefix` returns profiles in is the order of the `profiles` parameter.
- Money with fractions is left out: the 0.85 / 0.15 subscription prices and the checkout tax. The cart page's discount is kept in hundredths of a rupee, as integers.
- ProductListing.ApplyFilters: the "rating" and "newest" sorts keep the filtered order in the model. Ratings are fractional numbers, which are outside the model. The "newest" comparator never answers 0 and is not antisymmetric, so its result depends on the engine's sort algorithm.
- ProductListing.ApplyFilters: the price sorts are proved sorted and a permutation of the filtered list. Stability (equal prices keep their order) is not stated.
- CartReducer.UpdateCartItem: a patch holds only the keys a cart line has. Extra keys, which the spread would add to the line, are left out.
- ServiceMatching.Matcher.FindHealersNow: the `catch` branch is not modelled, because the mocked call cannot fail.
- Text.LowerStr: lower-casing covers ASCII letters only. String lengths count code points, not UTF-16 units.
- ChatBot.GenerateReply: Ayu's reply texts are named by their script (`Scripted(topic)`, `Hiccup`, `Greeting`), not spelled out.
- The request that fetches the chat service's reply is outside the model. Its result is the `ServerAnswer` parameter.
- JsonValues.Json: numbers are integers, so JSON floats and `NaN` are left out; a `parseInt` that fails stores `null`. Object keys are unordered.
- Request bodies are modelled as JSON objects. A body that is not an object, and one whose parsing throws, are left out.
- The server's health route, its 404 fallback and its `onError` handler are left out.
- `handleRegistrationComplete`, `handleAskAI` and the presentation components (BookingModal, Checkout, ShopLanding, Hero and the rest) are left out.
- The submit button's disabled state while loading, and the lower-casing of the email that the provider sees, are left out.
- ProductListing.MaxPriceInput: its own contract states only the unparsable case; `ProductListing.MaxPriceZero` states the rest.

## Findings

| source | as written | input that shows it | evidently intended | confidence | as-written member | corrected member |
|---|---|---|---|---|---|---|
| src/components/shop/ShopCart.tsx:27-29 | `toggleSubscription` flips one line's `subscription` through `updateCartItem` without looking for a line that already has the flipped combination | a cart holding product p, size "100g", once without and once with subscription; toggling the first line gives two lines with the same (id, size, subscription) | the cart keeps one line per (id, size, subscription), as `addToCart` maintains by merging | not executed | ShopCart.ToggleBreaksUnique | ShopCart.ToggleMergedKeepsUnique |
