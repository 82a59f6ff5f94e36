# RoyTopUpBazar storefront core, in Dafny

RoyTopUpBazar is a single-page shop for game top-ups and vouchers. Customers
pick a package and enter their in-game player id. They pay by bKash or Nagad
(a sender phone and a transaction id, checked later by hand) or from a store
wallet. An administrator completes, processes or cancels orders, edits the
catalog, adjusts wallets, bans users and manages promo codes. Customers can
track an order by its id or transaction id.

This project models the parts of the program where those rules live:

- `types.dfy` (`Types`): the records of `types.ts`. Optional fields are
  `Option`s, string unions are enumerations, numbers are integers.
- `seqs.dfy` (`Seqs`): `filter`, `find`, a backwards `find` and the summing
  `reduce`, with their laws.
- `text.dfy` (`Text`): the string built-ins the pages use.
  - `toLowerCase` and `toUpperCase` (ASCII letters only).
  - `trim`, with ECMAScript's white space and line terminators.
  - `includes`, with a proof that it agrees with a positional substring
    definition.
- `store.dfy` (`Store`): the shared store of `store/context.tsx`, as the
  class `Shop`.
  - It has one field per state slice.
  - It has one method per operation. Each method replaces the slices it
    touches by a pure function of their old values.
  - Its invariants cover non-negative balances, the agreement of the
    session copy of the user with the registry, and unique emails.
  - The header's cart badge (`components/Header.tsx`) is the function
    `CartCount`.
- `checkout.dfy` (`Checkout`): the checkout page.
  - Subtotal, promo discount and payable total.
  - The checks made before the confirmation dialog opens.
  - Placing the order (`FinalizeOrder`), a method on a `Shop`.
- `product_details.dfy` (`ProductDetails`): the checks of the product
  page's buy button, and the cart update they lead to.
- `admin_panel.dfy` (`AdminPanel`): parts of the admin dashboard.
  - The sales and pending figures.
  - The order table's search and status filter.
  - Which status buttons an order row shows.
  - The product form's option editor.
  - The customer list's filter.
- `track_order.dfy` (`TrackOrder`): the order-tracking lookup, the status
  step and the progress width. It also holds the page's lookup as written;
  see Findings.

The model keeps these behaviours as the code has them:

- `removeFromCart` drops every line with the product and option, whatever
  its player id (`Store.RemoveLinesMembership`).
- `updateUser` writes the merged record, new email included, over every
  registry entry that had the session user's old email. Session and
  registry stop agreeing only when the patch takes an email that another
  registry entry already has, so the agreement is promised when the email
  is unchanged or not yet registered.
- `addPromoCode` appends without checking for a duplicate code.
  `verifyPromoCode` returns the first active promo with the code.
- Checkout's applied discount is a stored number. It is not recomputed when
  the cart changes afterwards, so `ApplyPromo` computes it from the subtotal
  at the time the code was applied.
- The admin user search matches emails case-sensitively and names
  case-insensitively.
- The tracking lookup compares the query as typed, untrimmed, although the
  blank check trims it.
- `addToCart` merges by (product, option, player id). A merge adds one unit
  at the price of the stored line.

## Model

| member | source | states |
|---|---|---|
| Store.CartAddMerges | store/context.tsx:134-146 | In a cart of distinct lines, adding an item whose (product, option, player id) triple is present raises that line's quantity by one and changes nothing else. |
| Store.CartAddKeepsLinesUnique | store/context.tsx:134-149 | `addToCart` never produces two lines with the same triple. |
| Store.RemoveLinesMembership | store/context.tsx:152-153 | A line survives `removeFromCart` exactly when it lacks the (product, option) pair, whatever its player id. |
| Store.RemoveLinesKeepsLinesUnique | store/context.tsx:152-153 | `removeFromCart` keeps a cart of distinct lines distinct. |
| Store.RemoveLinesSplits | store/context.tsx:152-153 | Removal keeps the surviving lines in their order (removal distributes over concatenation). |
| Store.CartAddCount | components/Header.tsx:14 | The cart badge (sum of quantities) grows by one on a merge and by the item's quantity on an append. |
| Store.AdjustedBalance | store/context.tsx:309 | A credit adds the amount. A debit gives the old balance less the amount, floored at zero: never negative, never below balance − amount, and one of the two. |
| Store.AdjustBalancesEffect | store/context.tsx:306-315 | An admin adjustment changes only the balance, and only of the entries with that email; a debit leaves them non-negative, a credit adds exactly the amount. |
| Store.ToggleBansTwice | store/context.tsx:319-327 | A toggle flips the ban status of exactly the entries with that email (absent counts as not banned); toggling twice restores every ban status. |
| Store.ReplaceProductEffect | store/context.tsx:286-287 | `updateProduct` puts the new record in place of every product with its id and leaves every other product unchanged. |
| Store.RemoveProductMembership | store/context.tsx:296-297 | A product survives `deleteProduct(id)` exactly when its id differs. |
| Store.RemovePromoMembership | store/context.tsx:336-337 | A promo survives `deletePromoCode(code)` exactly when its code differs. |
| Store.FindActivePromo | store/context.tsx:166-169 | `verifyPromoCode` returns the first promo of the list that has exactly that code and is active. It returns none exactly when no such promo exists. |
| Store.Shop.constructor | store/context.tsx:59-69 | A new store holds the given catalog and an empty cart, order list, registry, ledger, promo list and notice, with no session. The invariants hold. |
| Store.Shop.AddToCart | store/context.tsx:134-150 | The cart becomes the merged-or-appended cart; distinct lines stay distinct. |
| Store.Shop.RemoveFromCart | store/context.tsx:152-155 | The cart loses exactly the lines with the (product, option) pair; distinct lines stay distinct. |
| Store.Shop.ClearCart | store/context.tsx:157 | The cart is empty. |
| Store.Shop.AddOrder | store/context.tsx:159-164 | The order, stamped with the session user's email (none for a guest), goes in front of the unchanged older orders. |
| Store.Shop.Login | store/context.tsx:173-197 | A banned registry entry is refused with nothing changed. A known email becomes the session user as stored. An unknown email is appended to the registry with balance 0, the user role and not banned, and becomes the session user. Unique emails and non-negative balances are preserved; after a sign-in with unique emails, the session agrees with the registry. |
| Store.Shop.Logout | store/context.tsx:199-203 | No session user remains. |
| Store.Shop.UpdateUser | store/context.tsx:205-216 | For a guest nothing changes. Otherwise the patch is merged into the session user, and the merged record replaces every registry entry with the old email. Session and registry agree when the email is unchanged or no registry entry had the new one. Balances stay non-negative. |
| Store.Shop.AddMoneyToWallet | store/context.tsx:220-242 | For a guest nothing changes. Otherwise the balance grows by the amount in the session and in the registry entries with that email, the two agree, and a completed "Wallet Top-up" credit goes in front of the ledger. Unique emails stay unique. |
| Store.Shop.ProcessWalletPayment | store/context.tsx:244-267 | The payment succeeds exactly when a session user's balance covers the amount. If it is refused, nothing changes. If it succeeds, the balance drops by the amount in the session and the registry, and a "Payment for Order #id" debit goes in front of the ledger. Balances stay non-negative and unique emails stay unique. |
| Store.Shop.AdminLogin | store/context.tsx:271-284 | It succeeds exactly for the fixed username and password. On success the session is the synthetic admin, who is not added to the registry; on failure the session is untouched. |
| Store.Shop.UpdateProduct | store/context.tsx:286-289 | Every product with the given id is replaced by the new record. |
| Store.Shop.AddProduct | store/context.tsx:291-294 | The product is appended to the catalog. |
| Store.Shop.DeleteProduct | store/context.tsx:296-299 | The catalog loses the products with that id. |
| Store.Shop.UpdateOrderStatus | store/context.tsx:301-304 | The orders with that id get the new status. |
| Store.Shop.UpdateUserBalance | store/context.tsx:306-317 | The registry is adjusted. When the session user has that email, the session becomes the last adjusted entry with it. Session–registry agreement is preserved. Balances stay non-negative for any debit and for a non-negative credit. Unique emails stay unique. |
| Store.Shop.ToggleUserBan | store/context.tsx:319-328 | The ban status of the entries with that email is flipped. Unique emails stay unique. |
| Store.Shop.AddPromoCode | store/context.tsx:331-334 | The promo is appended, duplicates included. |
| Store.Shop.DeletePromoCode | store/context.tsx:336-339 | The promos with that code are removed. |
| Store.Shop.UpdateSiteNotice | store/context.tsx:341-344 | The notice is replaced. |
| Store.CartMergeScenario | store/context.tsx:134-149 | The same triple added twice makes one line of quantity 2; another player id makes a second line. |
| Store.WalletScenario | store/context.tsx:220-267 | A top-up of 500 then a payment of 200 leave 300, with the debit ahead of the credit in the ledger; a larger payment is then refused. |
| Store.LoginUpsertScenario | store/context.tsx:173-197 | Two sign-ins with a new email register it once, with balance 0 and the user role, and the session is that entry. |
| Store.BanScenario | store/context.tsx:173-181 | A banned user's sign-in is refused and leaves no session. |
| Checkout.SubTotalSplits | pages/Checkout.tsx:22 | The subtotal is additive over the cart. |
| Checkout.SubTotalNonNegative | pages/Checkout.tsx:22 | Non-negative prices and quantities give a non-negative subtotal. |
| Checkout.CartAddSubTotal | pages/Checkout.tsx:22 | Adding to a cart of distinct lines raises the subtotal by the stored line's price on a merge, and by price × quantity on an append. |
| Checkout.Total | pages/Checkout.tsx:23 | The payable total is never negative and never below subtotal − discount, and it equals one of 0 and subtotal − discount. |
| Checkout.RoundHundredth | pages/Checkout.tsx:46 | `Math.round(n / 100)` is the integer within half a unit of n / 100. |
| Checkout.Discount | pages/Checkout.tsx:42-47 | A fixed promo discounts its value. A percentage promo discounts value % of the subtotal, rounded to the nearest unit. |
| Checkout.PercentageWithinSubTotal | pages/Checkout.tsx:46 | A percentage promo of 0–100 discounts between 0 and the subtotal, so the total needs no clamping. |
| Checkout.DiscountExamples | pages/Checkout.tsx:42-47 | 20% of 1000 is 200, leaving 800. A fixed 150 on 100 leaves 0. |
| Checkout.ApplyPromo | pages/Checkout.tsx:37-56 | An empty input changes nothing. Otherwise a promo is applied exactly when an active promo has the upper-cased input as its code, with the discount of the first such promo; a miss resets the discount to 0. |
| Checkout.InitiateOrder | pages/Checkout.tsx:58-78 | The confirmation opens exactly when a wallet payment has a session user whose balance covers the total, or a mobile payment has both a sender phone and a transaction id. Login is demanded exactly for a wallet payment without a session. |
| Checkout.BuildOrder | pages/Checkout.tsx:97-107 | The new order carries the cart and the total. It is Processing exactly for a wallet payment and Pending otherwise. It has a phone and a transaction id exactly when not paid from the wallet. It records the discount exactly when one is applied. |
| Checkout.FinalizeOrder | pages/Checkout.tsx:80-115 | The order is placed exactly for a mobile payment, or for a wallet payment whose balance covers the total; when it is not placed, nothing changes. When placed, the built order is stamped and put in front and the cart is emptied. A wallet payment is debited first: the session and exactly the registry entries with the payer's email take the new balance, and the debit goes in front of the ledger. A mobile payment leaves the wallet untouched. Balances stay non-negative and unique emails stay unique. |
| ProductDetails.ChooseCartItem | pages/ProductDetails.tsx:27-49 | Without a package the "select a top-up package" error is raised. A player-id product with a blank id gets the "enter your Player ID" error. An unknown option is ignored. Otherwise, and only then, one unit of the first option with the chosen id, with the product's id, title and image and the player id, is produced; no other error is ever raised. |
| ProductDetails.VoucherSkipsPlayerId | pages/ProductDetails.tsx:32 | A voucher is never refused for its player id. |
| ProductDetails.PlayerIdMustNotBeBlank | pages/ProductDetails.tsx:32-35 | A player-id product is refused exactly when the id is all white space. |
| ProductDetails.HandleAddToCart | pages/ProductDetails.tsx:27-52 | Only an accepted choice changes the cart, by `addToCart` of its line. |
| AdminPanel.TotalSalesByOrder | pages/Admin/AdminPanel.tsx:15-17 | Total sales is the sum over all orders of the total of the completed ones, with 0 for every other order. |
| AdminPanel.PendingOrdersByOrder | pages/Admin/AdminPanel.tsx:19 | The pending figure counts each Pending or Processing order once and no other. |
| AdminPanel.FiguresSplit | pages/Admin/AdminPanel.tsx:15-19 | Both figures are additive over the order list. |
| AdminPanel.NewOrderFigures | pages/Admin/AdminPanel.tsx:15-19 | A newly placed (Pending or Processing) order adds one to the pending figure and nothing to sales. |
| AdminPanel.SetStatusAt | store/context.tsx:301-302 | With distinct ids, a status update rewrites only the order with that id. |
| AdminPanel.StatusUpdateFigures | pages/Admin/AdminPanel.tsx:15-19 | For any order list, a status update moves each figure by the change in share of every order carrying that id. |
| AdminPanel.StatusChangeFigures | pages/Admin/AdminPanel.tsx:15-19 | With distinct order ids, a status change moves each figure by exactly the change in that order's share; completing an open order adds its total to sales and takes one from pending. |
| AdminPanel.FilteredOrdersMembership | pages/Admin/AdminPanel.tsx:76-81 | An order is listed exactly when it passes the status filter and its id or transaction id, lower-cased, contains the lower-cased search. |
| AdminPanel.MatchesSearchAt | pages/Admin/AdminPanel.tsx:78-79 | The search matches exactly when the query occurs at some position of the id or of the present transaction id, ignoring case. |
| AdminPanel.InitialTableListsAll | pages/Admin/AdminPanel.tsx:73-81 | "All" with an empty search lists every order, in order. |
| AdminPanel.OfferedActions | pages/Admin/AdminPanel.tsx:145-153 | "Complete" is offered exactly when the status is not Completed. "Cancel" is offered exactly when it is not Cancelled. "Process" is offered exactly when it is Pending. No button targets the current status, and none repeats. |
| AdminPanel.OfferedActionsPerStatus | pages/Admin/AdminPanel.tsx:145-153 | The buttons per status, left to right. |
| AdminPanel.OfferedActionTakesEffect | pages/Admin/AdminPanel.tsx:145-153 | Pressing an offered button changes that order's status to the button's target, a different status. Every order with the same id gets that status too, and every order with another id is left alone. |
| AdminPanel.Edited | pages/Admin/AdminPanel.tsx:206-208 | An edit sets the name or the price and keeps every other field of the option. |
| AdminPanel.ChangeOption | pages/Admin/AdminPanel.tsx:206-210 | `handleOptionChange` edits only the option at the index. |
| AdminPanel.AddOption | pages/Admin/AdminPanel.tsx:212-217 | `addOption` appends one "New Option" priced 0, with no original price, and keeps the existing options. |
| AdminPanel.RemoveOptionSplits | pages/Admin/AdminPanel.tsx:219-222 | `removeOption` deletes exactly the option at an index inside the list and keeps the others in order. An index outside removes nothing. |
| AdminPanel.RemoveOptionByIndex | pages/Admin/AdminPanel.tsx:219-222 | After removal the list is one shorter; earlier options keep their index and later ones move up by one. |
| AdminPanel.AddThenRemoveOption | pages/Admin/AdminPanel.tsx:212-222 | Removing the row just added gives back the options. |
| AdminPanel.VisibleUsersMembership | pages/Admin/AdminPanel.tsx:405-407 | An entry is listed exactly when it is not an admin and the search is in its email, or, ignoring case, in its name. |
| AdminPanel.NoAdminListed | pages/Admin/AdminPanel.tsx:405-407 | No admin entry is ever listed. |
| AdminPanel.EmptySearchListsCustomers | pages/Admin/AdminPanel.tsx:405-407 | An empty search lists every non-admin entry, in order. |
| TrackOrder.StatusStep | pages/TrackOrder.tsx:31-37 | The step is 0 for "Cancelled", 2 for "Processing", 3 for "Completed", and 1 for "Pending" and any other string. |
| TrackOrder.StatusStepsOfStatuses | pages/TrackOrder.tsx:31-37 | The four statuses get distinct steps, increasing from Pending through Processing to Completed. |
| TrackOrder.ProgressWidth | pages/TrackOrder.tsx:112 | The bar is full exactly for Completed or Cancelled and half for the open statuses. |
| TrackOrder.Lookup | pages/TrackOrder.tsx:24-25 | The result is the first order whose id, or present transaction id, equals the query ignoring case. It is none exactly when no order does. |
| TrackOrder.HandleSearch | pages/TrackOrder.tsx:13-29 | The intended search: an all-white-space query is skipped; otherwise the first answering order is shown, or "not found" when none answers. The page as written differs by throwing, and hanging in its searching state, in the case listed under Findings. |
| TrackOrder.AsWrittenAgreesWithTransactionIds | pages/TrackOrder.tsx:24 | When every order has a transaction id, the lookup as written gives the intended result. |
| TrackOrder.AsWrittenCrashes | pages/TrackOrder.tsx:24 | The lookup as written throws exactly when it reaches an order without a transaction id before any order answers the query. |
| TrackOrder.WalletOrderBreaksLookup | pages/TrackOrder.tsx:24 | A newer wallet order makes the lookup as written throw for a query that the intended lookup answers. |

## Left out

- Persistence in `localStorage`, the reload on `storage` events from other tabs, and `logout` and `adminLogin` writing the stored session: this is browser I/O.
- Notifications (`showNotification`) and their timer: presentation only.
- Ids and dates (`Date.now`, `Math.random`, `toISOString`) are parameters of the operations that create them (`Login`, `AddMoneyToWallet`, `ProcessWalletPayment`, `FinalizeOrder`).
- The delays (`setTimeout`), the loading and confirmation-dialog flags, and navigation: timing and presentation.
- The seed catalog: the store's constructor takes the catalog as a parameter. data/products.ts is not part of this model.
- `estProfit` on the dashboard: floating-point multiplication by 0.10.
- Store.Shop.AddMoneyToWallet: keeps its `trxId` parameter, which the operation never stores, as the source does.
- Numbers are unbounded integers. Prices, balances, promo values and top-up amounts typed by hand could be fractional or `NaN` in the program; this is not modelled.
- `toLowerCase` and `toUpperCase` map only the ASCII letters. Other scripts' case mapping is not modelled.
- Store.Shop.UpdateUser: the patch covers name, email and phone, which the profile form sends, and avatar, which no caller sends; a patch of the id, balance, role or ban flag is not modelled.
- Store.Shop.Login: the sign-in record has the fields a sign-in form can pass (name, email, phone, avatar); the id and ban flag are set by `login` itself.
- React's state updates are applied one after another to the current state. The model does not capture a handler that runs with state captured at an earlier render. One example is the 2-second delay in `handleFinalizeOrder`, where the model assumes that the session and cart did not change in between.
- AdminPanel.ChangeOption: requires an index inside the option list, since the form only calls it for a row it shows; an index outside would make the program grow the list with holes, which is not modelled.
- AdminPanel.StatusChangeFigures: stated for distinct order ids only. Order ids are random five-digit numbers that nothing checks for collisions. The general case, where every order with the id is rewritten, is AdminPanel.StatusUpdateFigures.
- AdminPanel.SetStatusAt: stated for distinct order ids only, for the same reason; AdminPanel.OfferedActionTakesEffect covers shared ids.
- Store.Shop.UpdateUser: does not promise unique emails afterwards. A patch that takes another registry entry's email leaves two entries with it, as the program does.
- AdminPanel.FilteredOrdersMembership: the status drop-down is modelled by its five choices, not as an arbitrary string.
- Store.Shop.AddMoneyToWallet: promises non-negative balances only for a non-negative amount, because the source does not check the sign.
- Store.Shop.UpdateUserBalance: promises non-negative balances for a credit only when the amount is non-negative, for the same reason.
- Store.Shop.Login: promises session–registry agreement only when emails were unique before, because `find` returns the first entry with the email.
- The cart line's `server` field, which no modelled operation sets.

## Findings

| source | as written | input that shows it | evidently intended | confidence | as-written member | corrected member |
|---|---|---|---|---|---|---|
| pages/TrackOrder.tsx:24 | The `find` callback calls `toLowerCase()` on `transactionId`, which wallet orders do not have. Once it reaches such an order whose id does not match, it throws inside the timer, and the page stays in its searching state. | Orders, newest first: a wallet order `ORD-2` with no transaction id, then a bKash order `ORD-1` with transaction id `TX9`. The query is `ord-1`. | Skip the transaction id when it is absent (optional chaining, as pages/Admin/AdminPanel.tsx:79 does), so `ORD-1` is found. | high; not executed | TrackOrder.WalletOrderBreaksLookup | TrackOrder.Lookup |
