# kolekt-id storefront core, modelled in Dafny

This project models the state logic of the kolekt-id storefront, a React/TypeScript web shop:

- **Cart** (`Cart`): the cart reducer (add, remove, update quantity, toggle selection, clear), its cached total and the `createOrder` factory, with a provider class that holds the reducer state.
- **Cart pages** (`CartPage`, `Checkout`, `Header`): the cart page, the checkout page and the header badge. Each recomputes amounts from the cart, and each is proved consistent with the cart's own functions.
- **Product page** (`ProductDetail`): the add-N-times loop, the quantity selector, related products, the review list and the rating aggregates.
- **Home** (`Home`): the catalog filters on the home page.
- **Auth** (`Auth`): the authentication reducer, the mock user service (a user list that registration appends to) and the login and register flows.
- **Categories** (`Categories`): the quick-access category list and the partition of the catalog it induces.
- **Seller pages** (`SellerOrders`, `SellerProducts`): the seller's order and product lists, their filters, the status labels and colours, and which status changes the page offers.
- **Reviews** (`ReviewForm`, `ReviewCard`): the review form's validation and the helpful vote of a review card.
- **Chat** (`ChatBot`, `ChatWidget`, `Keywords`): the help-centre assistant and the seller chat. Both pick a canned reply with a first-match keyword chain, and the model proves the chain's quirks.

Shared modules:

- `Types`: the record types.
- `Text`: lower-casing, substring search, trimming and decimal rendering.
- `Seqs`: `filter`, `slice(0, n)` and subsequence facts.

Modelling choices:

- Money is exact `real`; a clock reading is a `nat` count of milliseconds passed in as `now`.
- Pure code (reducers, filters, switch mappings) is written as functions with lemmas. Code that updates state in place is written as classes whose methods are specified against those functions:
  - the mock user list;
  - the product page's state and its add-to-cart loop;
  - the helpful vote;
  - the chat sessions.

## Model

| member | source | states |
|---|---|---|
| Cart.CalculateTotalIsSelectedValue | src/context/CartContext.tsx:90-94 | `calculateTotal` equals the independent sum of price×quantity over the selected lines |
| Cart.ReduceConsistent | src/context/CartContext.tsx:28-88 | after every action, from any state, `total` equals the value of the selected lines |
| Cart.ReducePreservesValidItems | src/context/CartContext.tsx:28-88 | every action keeps product ids unique and every quantity positive |
| Cart.RunPreservesValid | src/context/CartContext.tsx:28-88 | any sequence of actions keeps the cart valid (consistent total, unique ids, positive quantities) |
| Cart.ReachableIsValid | src/context/CartContext.tsx:97 | every state reachable from the provider's empty cart is valid |
| Cart.AddExisting | src/context/CartContext.tsx:31-43 | adding a product already present bumps only that line by 1, keeping its position and selection; other lines are untouched |
| Cart.AddNew | src/context/CartContext.tsx:44-49 | adding a new product appends `{quantity 1, selected true}` at the end |
| Cart.AbsentIdIsNoOp | src/context/CartContext.tsx:51-82 | remove, toggle and update-quantity on an absent id leave a valid state unchanged |
| Cart.ClearIsEmpty | src/context/CartContext.tsx:83-84 | clear always yields no lines and total 0 |
| Cart.AddThenRemove | src/context/CartContext.tsx:44-58 | adding a new product and then removing its id restores the original state |
| Cart.UpdateSetsQuantity | src/context/CartContext.tsx:59-64 | a positive update sets exactly that line's quantity |
| Cart.UpdateToZeroRemoves | src/context/CartContext.tsx:59-64 | an update to 0 or below (clamped to 0) leaves no line for that id |
| Cart.UpdateToZeroIsRemove | src/context/CartContext.tsx:59-64 | on a cart with positive quantities, updating to 0 or below is the same as removing the line |
| Cart.ToggleFlips | src/context/CartContext.tsx:71-76 | toggle flips only that line's `selected` flag |
| Cart.AddExistingTotal | src/context/CartContext.tsx:31-43 | adding to an existing line raises the total by the price if the line is selected, otherwise not at all |
| Cart.AddNewTotal | src/context/CartContext.tsx:44-49 | adding a new product raises the total by its price |
| Cart.CreateOrderSpec | src/context/CartContext.tsx:119-140 | the order holds exactly the selected lines in cart order, each as many times as in the cart, and no unselected line; subtotal is their value; tax is 8%; shipping is 0 exactly above 50 and 9.99 otherwise; total is the sum of the three; pending; due 7 days after creation |
| Cart.OrderSubtotalIsCartTotal | src/context/CartContext.tsx:120-121 | on a consistent cart the order's subtotal is the cart's `total` |
| Cart.EmptySelectionOrder | src/context/CartContext.tsx:119-140 | an empty selection is not rejected: the order has no lines and a total of 9.99 |
| Cart.OrderIdsDistinct | src/context/CartContext.tsx:127 | orders created at different instants get different `ORD-` ids |
| Cart.CartStore.constructor | src/context/CartContext.tsx:97 | the provider starts from the empty cart |
| Cart.CartStore.Dispatch | src/context/CartContext.tsx:99-117 | a dispatch replaces the state with the reducer's result and keeps it valid |
| CartPage.TotalItemsIsSelectedUnits | src/pages/Cart.tsx:10-12 | the item count is the sum of quantities over the selected lines only |
| CartPage.TotalAmountIsCartTotal | src/pages/Cart.tsx:10-11 | the page's amount equals the cart's `total` |
| CartPage.DisplayedTotalOmitsShipping | src/pages/Cart.tsx:109-119 | shown tax is 8% of the amount and shown total is amount + tax; the order's total is that plus its shipping |
| CartPage.MinusOnOneRemovesLine | src/pages/Cart.tsx:73 | "−" on a line with quantity 1 removes exactly that line |
| CartPage.QuantityButtons | src/pages/Cart.tsx:73-80 | "+" raises the line by 1; "−" lowers a line above 1 by 1 |
| CartPage.CheckoutGate | src/pages/Cart.tsx:126-136 | "Proceed to Checkout" navigates exactly when some line is selected |
| CartPage.View | src/pages/Cart.tsx:14-30 | the empty-cart view is shown exactly when the cart has no lines |
| Checkout.SummaryShipping | src/pages/Checkout.tsx:15-19 | the summary's subtotal is the selected value; shipping is 0 exactly above 50 and 9.99 otherwise; total is subtotal·1.08 + shipping |
| Checkout.SummaryMatchesOrder | src/pages/Checkout.tsx:15-27 | the summary shown equals the amounts of the order that is placed |
| Checkout.PlaceOrderSpec | src/pages/Checkout.tsx:21-39 | the page redirects to the cart exactly when nothing is selected; a placed order carries the chosen address and payment, is pending and has lines |
| Checkout.DefaultChoiceIsUsed | src/pages/Checkout.tsx:11-12 | with the initial choice the order goes to the first address and the first payment method |
| Checkout.InitialChoice | src/pages/Checkout.tsx:11-12 | the choice starts at the first address and the first payment method |
| Checkout.ChooseAddress | src/pages/Checkout.tsx:11 | choosing an address keeps the chosen payment method |
| Checkout.ChoosePayment | src/pages/Checkout.tsx:12 | choosing a payment method keeps the chosen address |
| ProductDetail.AddTimes | src/pages/ProductDetail.tsx:42-44 | n successive ADD_TO_CART dispatches keep the cart valid and raise the product's line by exactly n, or append one selected line of quantity n when the product had none |
| ProductDetail.AddRepeatedly | src/pages/ProductDetail.tsx:41-45 | the loop's cart is that of q successive adds: valid, holding the product, its line raised by exactly q or appended with quantity q; q ≤ 0 changes nothing |
| ProductDetail.ProductPage.HandleAddToCart | src/pages/ProductDetail.tsx:41-45 | the cart after add-to-cart is valid and holds the product, raised by the selector's quantity |
| ProductDetail.ProductPage.constructor | src/pages/ProductDetail.tsx:18-24 | the page holds the first catalog product with the route id; the selector starts at 1 and the review list is the reviews of this product |
| ProductDetail.ProductPage.DecreaseQuantity | src/pages/ProductDetail.tsx:162 | "−" lowers the quantity by 1 but never below 1 |
| ProductDetail.ProductPage.IncreaseQuantity | src/pages/ProductDetail.tsx:169 | "+" raises the quantity by 1 |
| ProductDetail.ProductPage.SubmitReview | src/pages/ProductDetail.tsx:47-75 | an unauthenticated submission adds nothing; an accepted review is prepended, so the list grows by exactly one |
| ProductDetail.FindProduct | src/pages/ProductDetail.tsx:24 | the product is found exactly when the catalog has one with the route id, and it is the first catalog entry with that id |
| ProductDetail.ReviewsForSpec | src/pages/ProductDetail.tsx:22 | the initial reviews are exactly those for the route id, in order, each as many times as it occurs in all reviews |
| ProductDetail.RelatedProductsSpec | src/pages/ProductDetail.tsx:39 | related products are exactly the first min(4, n) of the n candidates (same category, not the product itself), in catalog order |
| ProductDetail.HistogramCountsEveryReview | src/pages/ProductDetail.tsx:314-316 | for ratings in 1..5 the histogram counts for 5..1 add up to the number of reviews |
| ProductDetail.RatingSumBounds | src/pages/ProductDetail.tsx:296 | for ratings in 1..5 the rating sum lies between n and 5n |
| ProductDetail.AverageRatingBounds | src/pages/ProductDetail.tsx:296-303 | the average rating and its floor (the number of filled stars) lie in 1..5 |
| Header.CountZeroIffEmpty | src/components/Header.tsx:12 | with positive quantities the count is 0 exactly when the cart is empty, so the badge shows exactly for a non-empty cart |
| Header.CountAtLeastLines | src/components/Header.tsx:12 | the badge count is at least the number of lines |
| Header.AddRaisesCountByOne | src/components/Header.tsx:12 | each add-to-cart raises the badge count by exactly 1 |
| Header.BadgeBoundsSelectedCount | src/components/Header.tsx:12 | the badge counts unselected lines too: it is at least the cart page's item count, and equal when every line is selected |
| Header.SelectedUnitsAtMostCount | src/components/Header.tsx:12 | the selected units are at most the badge count, and equal when every line is selected |
| Home.FlashSaleSpec | src/pages/Home.tsx:21 | flash-sale products are exactly those with a discount above 20, in catalog order, each as many times as in the catalog |
| Home.TrendingSpec | src/pages/Home.tsx:22 | trending products are exactly those with more than 5000 sold, in catalog order, each as many times as in the catalog |
| Home.NewArrivalsSpec | src/pages/Home.tsx:23 | new arrivals are the first min(4, n) products of the catalog |
| Auth.AuthReduceSpec | src/context/AuthContext.tsx:24-67 | START sets loading and clears the error; SUCCESS sets user and authentication; FAILURE clears the user and records the error; LOGOUT resets; CLEAR_ERROR changes only the error |
| Auth.AuthReducePreserves | src/context/AuthContext.tsx:24-67 | every action keeps isAuthenticated ⇔ user present |
| Auth.RunAuthPreserves | src/context/AuthContext.tsx:24-67 | any action sequence keeps isAuthenticated ⇔ user present |
| Auth.ReachableAuthInvariant | src/context/AuthContext.tsx:125-130 | every state reachable from the initial state has isAuthenticated ⇔ user present |
| Auth.FindUser | src/context/AuthContext.tsx:93 | `find` by email returns a user exactly when the email is known, and it is the first user with that email |
| Auth.UsersValidIdsUnique | src/context/AuthContext.tsx:110-112 | user ids (position + 1) are pairwise distinct |
| Auth.MockAuthService.constructor | src/context/AuthContext.tsx:70-85 | the service starts with the two mock users |
| Auth.MockAuthService.Find | src/context/AuthContext.tsx:93 | the search loop returns the first user with the email |
| Auth.MockAuthService.Login | src/context/AuthContext.tsx:89-98 | login succeeds exactly for a known email with password "password123" and returns that user |
| Auth.MockAuthService.Register | src/context/AuthContext.tsx:100-121 | a known email fails and changes nothing; otherwise a user with id count + 1 is appended, so emails stay unique |
| Auth.AuthProvider.constructor | src/context/AuthContext.tsx:125-130 | the provider starts logged out, not loading, with no error |
| Auth.AuthProvider.Login | src/context/AuthContext.tsx:145-162 | login succeeds exactly when the service accepts; the state then holds that user, otherwise the "Invalid email or password" failure |
| Auth.AuthProvider.Register | src/context/AuthContext.tsx:164-191 | a mismatched confirmation fails first, then a password under 6 UTF-16 code units (`length`), both without START and without touching the users; then an existing email fails; otherwise the new user is logged in |
| Text.Utf16LengthCountsChars | src/context/AuthContext.tsx:170 | `password.length` equals the number of characters exactly when no character lies beyond U+FFFF |
| Text.ThreeEmojiAreSixUnits | src/context/AuthContext.tsx:170 | three U+1F600 characters have `length` 6, so such a password passes the 6-character rule |
| Auth.AuthProvider.Logout | src/context/AuthContext.tsx:193-196 | logout returns to the logged-out state |
| Auth.AuthProvider.ClearError | src/context/AuthContext.tsx:198-200 | clearError changes only the error |
| Categories.ToggleFlips | src/context/CategoryContext.tsx:21-33 | a toggle flips `isQuickAccess` for that id only; a present id is filtered out, an absent id is appended |
| Categories.ToggleTwiceRestoresMembership | src/context/CategoryContext.tsx:21-29 | toggling the same id twice restores membership |
| Categories.ToggleKeepsNoDuplicates | src/context/CategoryContext.tsx:21-29 | a toggle keeps the id list free of duplicates |
| Categories.RunTogglesKeepsNoDuplicates | src/context/CategoryContext.tsx:21-29 | any sequence of toggles keeps the id list free of duplicates |
| Categories.ReachableHasNoDuplicates | src/context/CategoryContext.tsx:16 | every id list reachable from ["1","2"] is free of duplicates |
| Categories.QuickAccessPartition | src/context/CategoryContext.tsx:18-19 | quick-access and hidden categories split the catalog: membership by id, sizes adding up, together a permutation of it, each in catalog order |
| SellerOrders.FilteredOrdersSpec | src/pages/SellerOrders.tsx:113-119 | an order is listed exactly when the lower-cased query occurs in its customer name, product name or id and the status filter is 'all' or its status; order and multiplicity are kept |
| SellerOrders.EmptySearchListsAll | src/pages/SellerOrders.tsx:113-119 | an empty query with 'all' lists every order |
| SellerOrders.SearchIgnoresQueryCase | src/pages/SellerOrders.tsx:114-116 | lower-casing the query does not change the list |
| SellerOrders.StatusFilterSelectsStatus | src/pages/SellerOrders.tsx:117 | filtering on a status name lists exactly the matching orders of that status |
| SellerOrders.StatusColorNotDefault | src/pages/SellerOrders.tsx:121-136 | none of the five statuses is shown in the default colour |
| SellerOrders.StatusColorsDistinct | src/pages/SellerOrders.tsx:121-136 | two different statuses get two different colours |
| SellerOrders.UnknownStatusColor | src/pages/SellerOrders.tsx:121-136 | a string naming no status gets the default colour |
| SellerOrders.UpdateButtonsSpec | src/pages/SellerOrders.tsx:395-428 | delivered and cancelled offer nothing; otherwise cancel and exactly the next step of pending→confirmed→shipped→delivered; every move goes forward |
| SellerOrders.OfferedChainRises | src/pages/SellerOrders.tsx:395-428 | along any chain of offered updates the stage rises each step, so a chain has at most 5 statuses |
| SellerOrders.UpdateOrderStatus | src/pages/SellerOrders.tsx:165-170 | updating a status closes the detail view; search and filter are kept |
| SellerProducts.FilteredProductsSpec | src/pages/SellerProducts.tsx:96-102 | a product is listed exactly when the query matches name or description, ignoring case, and category and status match or are 'all'; order and multiplicity are kept |
| SellerProducts.EmptySearchListsAll | src/pages/SellerProducts.tsx:96-102 | an empty query with both filters 'all' lists every product, in order |
| SellerProducts.StatusTextSpec | src/pages/SellerProducts.tsx:117-128 | the three statuses get fixed, distinct labels; any other string is returned unchanged |
| SellerProducts.StatusColorSpec | src/pages/SellerProducts.tsx:104-115 | active and out-of-stock get their own colours; inactive shares the default colour of unknown statuses |
| SellerProducts.UpdateProductStatus | src/pages/SellerProducts.tsx:137-141 | updating a status closes the detail view; nothing else on the page changes |
| SellerProducts.DeleteProduct | src/pages/SellerProducts.tsx:130-135 | deleting closes the confirmation and the detail view; nothing else on the page changes |
| SellerProducts.HandlersKeepListing | src/pages/SellerProducts.tsx:130-141 | neither handler changes what the page lists |
| ReviewForm.IsFormValidIffNotBlank | src/components/ReviewForm.tsx:36-38 | the form is valid exactly when it has a rating and neither title nor comment is blank |
| ReviewForm.SubmitForwardsIffValid | src/components/ReviewForm.tsx:21-26 | submit forwards the unchanged data exactly when the form is valid; submit is disabled when invalid or submitting |
| ReviewForm.InitialFormInvalid | src/components/ReviewForm.tsx:12-17 | the initial form is invalid and cannot be submitted |
| ReviewForm.StarClickSetsRating | src/components/ReviewForm.tsx:59-63 | a star click sets a rating in 1..5 |
| ReviewForm.HandlersTouchOwnField | src/components/ReviewForm.tsx:28-34 | each handler changes only its own field |
| ReviewCard.HelpfulVote.constructor | src/components/ReviewCard.tsx:11-12 | the helpful count starts at the review's count, not voted |
| ReviewCard.HelpfulVote.HandleHelpfulClick | src/components/ReviewCard.tsx:23-28 | the first click adds exactly 1 and records the vote; later clicks change nothing; the count stays within initial..initial+1 |
| ReviewCard.StarRowSpec | src/components/ReviewCard.tsx:44-50 | star i is filled exactly when i < rating, so the row fills the rating clamped to 0..5 |
| ReviewCard.PhotoStripSpec | src/components/ReviewCard.tsx:70-92 | at most 3 thumbnails, the first images; above 3 images the tile shows length − 3, accounting for every image |
| Keywords.FirstMatchSpec | src/components/ChatBot.tsx:47-96 | an if-chain of `includes` tests returns the first matching group's reply, or the fallback exactly when none matches |
| ChatBot.BotResponseIsFirstMatch | src/components/ChatBot.tsx:47-96 | the assistant answers with the first group whose keyword occurs in the lower-cased message, else the suggestions |
| ChatBot.BotResponseIgnoresCase | src/components/ChatBot.tsx:48 | a message and its lower-cased form get the same reply |
| ChatBot.ShippingGetsGreeting | src/components/ChatBot.tsx:51-66 | any message containing "shipping" gets the greeting, because "shipping" contains "hi" |
| ChatBot.ShopeePayHitsPaymentFirst | src/components/ChatBot.tsx:61-81 | a message containing "shopeepay" is answered by the greeting, account or payment group, never by the ShopeePay group |
| ChatBot.ShopeePayReplyNeedsWalletOrBalance | src/components/ChatBot.tsx:81 | the ShopeePay reply is given only to messages with "wallet" or "balance" |
| ChatBot.NoKeywordGetsSuggestions | src/components/ChatBot.tsx:96 | a message with none of the keywords gets the suggestions |
| ChatBot.ChatBotSession.constructor | src/components/ChatBot.tsx:26-35 | the conversation starts with exactly one bot message, the welcome |
| ChatBot.ChatBotSession.SetInputText | src/components/ChatBot.tsx:260 | typing or a quick question sets the input text and leaves the conversation and the typing flag unchanged |
| ChatBot.ChatBotSession.SendMessage | src/components/ChatBot.tsx:99-111 | blank input sends nothing; otherwise exactly one user message with the untrimmed text is appended, the input is cleared and the bot is typing; the text joins the texts awaiting a reply |
| ChatBot.ChatBotSession.DeliverReply | src/components/ChatBot.tsx:114-124 | the reply step answers one text still awaiting a reply (in any order, the delay being random), appends exactly one bot message with that reply, removes the text from those awaiting and stops typing |
| ChatWidget.SellerResponseIsFirstMatch | src/components/ChatWidget.tsx:88-113 | the seller answers with the first of the seven groups whose keyword occurs in the lower-cased message, else the thanks |
| ChatWidget.SellerReplyHasItsKeyword | src/components/ChatWidget.tsx:88-113 | the thanks is given exactly when no keyword occurs; any other reply's group has a keyword in the message |
| ChatWidget.ReturnShippingGetsShippingInfo | src/components/ChatWidget.tsx:94-102 | "return shipping" is answered by the shipping group, which comes before the return group |
| ChatWidget.ChatWidgetSession.constructor | src/components/ChatWidget.tsx:29-43 | the conversation starts with exactly one read seller welcome naming the seller |
| ChatWidget.ChatWidgetSession.SetMessage | src/components/ChatWidget.tsx:253 | typing sets the message box and leaves the conversation and the typing flag unchanged |
| ChatWidget.ChatWidgetSession.SendMessage | src/components/ChatWidget.tsx:53-71 | a blank message or no logged-in user sends nothing; otherwise one unread customer message with the trimmed, non-empty text is appended and the box is cleared; the untrimmed text is queued for its reply |
| ChatWidget.ChatWidgetSession.DeliverReply | src/components/ChatWidget.tsx:72-85 | the reply step answers the oldest queued text (the delay is a fixed 2 s), appending one unread seller message with the reply to that text trimmed, dequeuing it and stopping typing |
| Types.StatusNameInjective | src/types/index.ts:68 | the five order statuses have distinct names |

## Left out

- SellerOrders.UpdateOrderStatus, SellerProducts.UpdateProductStatus, SellerProducts.DeleteProduct: the `console.log` that stands in for the missing API call is output only and is not modelled; the order and product lists are not changed by these handlers.
- Timers and delays: `setTimeout` in checkout, login, register and both chats, and the random 1–3 s chat delay, are not modelled. The work after a delay is a separate step, or runs straight after the step before it.
- Persistence: `localStorage` and JSON parsing in the auth provider are I/O and are not modelled. So is the stored-user restore on start.
- Auth.AuthProvider.Login: the `catch` branches ("Login failed", "Registration failed") are not modelled; the mock service never throws. The same holds for Auth.AuthProvider.Register.
- Floating point: money is exact `real`. `toFixed`, `formatIDR` (`src/utils/currency` is not part of this model) and the review percentage widths are not modelled.
- Dates: ISO strings, `toLocaleDateString`/`toLocaleTimeString`, `formatDate`, `formatTime` and `getStatusIcon` are not modelled. Times are `now` parameters.
- Cart.CreateOrder: the two `Date.now()` reads (id and delivery date) are taken as one `now`.
- ChatBot.ChatBotSession.DeliverReply: the reply id is `now + 1` of the reply step's own clock, and both ids are decimal renderings of `now`.
- Mock data: `src/data/mockData` is not part of this model. The catalog, reviews, addresses and payment methods are inputs, as are the seller pages' inline order and product lists.
- Rendering: JSX, routing and navigation, hover stars, `maxLength`, image selection, and the open/minimised/show-images flags are not modelled.
- Header: the search handler only logs the query and is not modelled.
- Text.ToLower: `toLowerCase` is modelled for ASCII letters only, not Unicode case mapping.
- ChatWidget.ChatWidgetSession.constructor: the welcome is placed at construction. The source sets it in a mount effect, so for the first render the list is empty.
- ReviewForm.HandleInputChange: only the title and comment fields are modelled; the source's handler accepts any key of the form record but is only called with those two.
- Product images and the unused ChatBot props (`helpCategories`, `faqs`) are not modelled.
