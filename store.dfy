/** The shop store: the application state shared by every page (catalog,
    cart, orders, session user, user registry, wallet ledger, promo codes,
    site notice) and the operations that update it. Each slice is a field of
    `Shop`; each operation replaces the slices it touches by a pure function
    of their previous values, stated in its postcondition. */
module Store {
  import opened Types
  import opened Seqs

  /** The fields a sign-in form passes to `login`. The record's id, balance,
      role and ban flag are set by `login` itself. */
  datatype Profile = Profile(name: string, email: string, phone: Option<string>, avatar: Option<string>)

  /** The fields the profile form passes to `updateUser`; a present field
      overwrites the session user's. */
  datatype UserPatch = UserPatch(name: Option<string>, email: Option<string>, phone: Option<string>, avatar: Option<string>)

  const AdminUsername: string := "RoyTopUpadmin"
  const AdminPassword: string := "admin638"

  /** The synthetic session user of a successful admin sign-in. */
  const AdminUser: User := User(None, "Admin", "admin@roytopup.com", None, None, 0, AdminRole, None)

  // ---------------------------------------------------------------- cart

  /** Cart lines are identified by (productId, optionId, playerId). */
  predicate SameLine(a: CartItem, b: CartItem) {
    a.productId == b.productId && a.optionId == b.optionId && a.playerId == b.playerId
  }

  predicate HasLine(cart: seq<CartItem>, item: CartItem) {
    exists i :: 0 <= i < |cart| && SameLine(cart[i], item)
  }

  /** No two lines of the cart share their identifying triple. */
  predicate UniqueLines(cart: seq<CartItem>) {
    forall i, j :: 0 <= i < j < |cart| ==> !SameLine(cart[i], cart[j])
  }

  function Bump(line: CartItem, item: CartItem): CartItem {
    if SameLine(line, item) then line.(quantity := line.quantity + 1) else line
  }

  /** The cart after `addToCart(item)`: a line with the item's triple gains one
      unit of quantity, and an item with a new triple is appended. */
  function CartAdd(cart: seq<CartItem>, item: CartItem): seq<CartItem> {
    if HasLine(cart, item) then seq(|cart|, i requires 0 <= i < |cart| => Bump(cart[i], item))
    else cart + [item]
  }

  /** In a cart of distinct lines, re-adding a triple that is present changes
      that one line by one unit of quantity and keeps the cart's length. */
  lemma CartAddMerges(cart: seq<CartItem>, item: CartItem, k: int)
    requires UniqueLines(cart) && 0 <= k < |cart| && SameLine(cart[k], item)
    ensures CartAdd(cart, item) == cart[k := cart[k].(quantity := cart[k].quantity + 1)]
  {
    forall i | 0 <= i < |cart| && i != k
      ensures !SameLine(cart[i], item)
    {
      if i < k { assert !SameLine(cart[i], cart[k]); } else { assert !SameLine(cart[k], cart[i]); }
    }
  }

  /** `addToCart` keeps the cart free of two lines with the same triple. */
  lemma CartAddKeepsLinesUnique(cart: seq<CartItem>, item: CartItem)
    requires UniqueLines(cart)
    ensures UniqueLines(CartAdd(cart, item))
  {
    var r := CartAdd(cart, item);
    if HasLine(cart, item) {
      forall i, j | 0 <= i < j < |r| ensures !SameLine(r[i], r[j]) {
        assert SameLine(r[i], r[j]) == SameLine(cart[i], cart[j]);
      }
    } else {
      forall i, j | 0 <= i < j < |r| ensures !SameLine(r[i], r[j]) {
        if j == |cart| {
          assert !SameLine(cart[i], item);
        }
      }
    }
  }

  /** Keeps a cart line unless it has the (productId, optionId) pair. */
  function KeepUnlessPair(productId: string, optionId: string): CartItem -> bool {
    (line: CartItem) => !(line.productId == productId && line.optionId == optionId)
  }

  /** The cart after `removeFromCart(productId, optionId)`. */
  function RemoveLines(cart: seq<CartItem>, productId: string, optionId: string): seq<CartItem> {
    Filter(cart, KeepUnlessPair(productId, optionId))
  }

  /** `removeFromCart` drops every line with the pair, whatever its player id,
      and keeps every other line. */
  lemma RemoveLinesMembership(cart: seq<CartItem>, productId: string, optionId: string, line: CartItem)
    ensures line in RemoveLines(cart, productId, optionId) <==>
            line in cart && !(line.productId == productId && line.optionId == optionId)
  {
    FilterMembership(cart, KeepUnlessPair(productId, optionId), line);
  }

  /** `removeFromCart` keeps the cart free of two lines with the same triple. */
  lemma {:induction false} RemoveLinesKeepsLinesUnique(cart: seq<CartItem>, productId: string, optionId: string)
    requires UniqueLines(cart)
    ensures UniqueLines(RemoveLines(cart, productId, optionId))
  {
    if cart != [] {
      var rest := cart[1..];
      assert UniqueLines(rest) by {
        forall i, j | 0 <= i < j < |rest| ensures !SameLine(rest[i], rest[j]) {
          assert rest[i] == cart[i + 1] && rest[j] == cart[j + 1];
        }
      }
      RemoveLinesKeepsLinesUnique(rest, productId, optionId);
      var tail := RemoveLines(rest, productId, optionId);
      forall j | 0 <= j < |tail| ensures !SameLine(cart[0], tail[j]) {
        RemoveLinesMembership(rest, productId, optionId, tail[j]);
        var m :| 0 <= m < |rest| && rest[m] == tail[j];
        assert cart[m + 1] == tail[j];
      }
    }
  }

  /** `removeFromCart` keeps the surviving lines in their order: removing from
      a cart split in two is removing from each part. */
  lemma RemoveLinesSplits(a: seq<CartItem>, b: seq<CartItem>, productId: string, optionId: string)
    ensures RemoveLines(a + b, productId, optionId) ==
            RemoveLines(a, productId, optionId) + RemoveLines(b, productId, optionId)
  {
    FilterConcat(a, b, KeepUnlessPair(productId, optionId));
  }

  function Quantity(line: CartItem): int {
    line.quantity
  }

  /** The cart badge in the header: the sum of the lines' quantities. */
  function CartCount(cart: seq<CartItem>): int {
    SumBy(cart, Quantity)
  }

  /** In a cart of distinct lines, `addToCart` raises the badge by one when it
      merges and by the item's quantity when it appends. */
  lemma CartAddCount(cart: seq<CartItem>, item: CartItem)
    requires UniqueLines(cart)
    ensures CartCount(CartAdd(cart, item)) == CartCount(cart) + (if HasLine(cart, item) then 1 else item.quantity)
  {
    if HasLine(cart, item) {
      var k :| 0 <= k < |cart| && SameLine(cart[k], item);
      CartAddMerges(cart, item, k);
      SumByUpdate(cart, k, cart[k].(quantity := cart[k].quantity + 1), Quantity);
    } else {
      SumByConcat(cart, [item], Quantity);
      SumBySingleton(item, Quantity);
    }
  }

  // -------------------------------------------------------------- orders

  /** `addOrder` stamps the order with the session user's email, or with none for a guest. */
  function StampOrder(order: Order, session: Option<User>): Order {
    order.(userId := if session.Some? then Some(session.value.email) else None)
  }

  /** The orders after `updateOrderStatus(orderId, status)`. */
  function SetStatus(orders: seq<Order>, orderId: string, status: OrderStatus): (r: seq<Order>)
    ensures |r| == |orders|
  {
    seq(|orders|, i requires 0 <= i < |orders| =>
      if orders[i].id == orderId then orders[i].(status := status) else orders[i])
  }

  // --------------------------------------------------------------- users

  function FindByEmail(users: seq<User>, email: string): Option<User> {
    Find(users, (u: User) => u.email == email)
  }

  function FindLastByEmail(users: seq<User>, email: string): Option<User> {
    FindLast(users, (u: User) => u.email == email)
  }

  /** The registry entry `login` creates for an unknown email. */
  function NewUser(profile: Profile, id: string): User {
    User(Some(id), profile.name, profile.email, profile.phone, profile.avatar, 0, UserRole, Some(false))
  }

  /** `{ ...user, ...patch }` */
  function Merge(u: User, patch: UserPatch): User {
    u.(name := if patch.name.Some? then patch.name.value else u.name,
       email := if patch.email.Some? then patch.email.value else u.email,
       phone := if patch.phone.Some? then patch.phone else u.phone,
       avatar := if patch.avatar.Some? then patch.avatar else u.avatar)
  }

  /** Every registry entry with the email becomes `updated`. */
  function ReplaceByEmail(users: seq<User>, email: string, updated: User): (r: seq<User>)
    ensures |r| == |users|
  {
    seq(|users|, i requires 0 <= i < |users| => if users[i].email == email then updated else users[i])
  }

  /** The balance after an admin adjustment: a credit adds, a debit subtracts
      but never goes below zero. */
  function AdjustedBalance(balance: int, amount: int, kind: TransactionType): (r: int)
    ensures kind == Credit ==> r == balance + amount
    ensures kind == Debit ==> r >= 0 && r >= balance - amount && (r == 0 || r == balance - amount)
  {
    match kind
    case Credit => balance + amount
    case Debit => if balance - amount > 0 then balance - amount else 0
  }

  /** The registry after `updateUserBalance(email, amount, kind)`. */
  function AdjustBalances(users: seq<User>, email: string, amount: int, kind: TransactionType): (r: seq<User>)
    ensures |r| == |users|
  {
    seq(|users|, i requires 0 <= i < |users| =>
      if users[i].email == email
      then users[i].(walletBalance := AdjustedBalance(users[i].walletBalance, amount, kind))
      else users[i])
  }

  /** An admin adjustment touches only the balance of the entries with that
      email; a debit leaves them at zero or more whatever the amount. */
  lemma AdjustBalancesEffect(users: seq<User>, email: string, amount: int, kind: TransactionType, i: int)
    requires 0 <= i < |users|
    ensures var r := AdjustBalances(users, email, amount, kind);
            && (users[i].email != email ==> r[i] == users[i])
            && r[i] == users[i].(walletBalance := r[i].walletBalance)
            && (users[i].email == email && kind == Debit ==> r[i].walletBalance >= 0)
            && (users[i].email == email && kind == Credit ==> r[i].walletBalance == users[i].walletBalance + amount)
  {
  }

  /** The registry after `toggleUserBan(email)`. */
  function ToggleBans(users: seq<User>, email: string): (r: seq<User>)
    ensures |r| == |users|
  {
    seq(|users|, i requires 0 <= i < |users| =>
      if users[i].email == email then users[i].(isBanned := Some(!IsBanned(users[i]))) else users[i])
  }

  /** Toggling flips the ban of exactly the entries with that email, so
      toggling twice restores every entry's ban status. */
  lemma ToggleBansTwice(users: seq<User>, email: string)
    ensures var once := ToggleBans(users, email);
            var twice := ToggleBans(once, email);
            && (forall i :: 0 <= i < |users| ==>
                  IsBanned(once[i]) == (if users[i].email == email then !IsBanned(users[i]) else IsBanned(users[i])))
            && (forall i :: 0 <= i < |users| ==> IsBanned(twice[i]) == IsBanned(users[i]))
  {
  }

  /** The ledger entry of a wallet top-up. */
  function CreditEntry(amount: int, via: string, txId: string, date: string): WalletTransaction {
    WalletTransaction(txId, Credit, amount, date, "Wallet Top-up", Some(via), TxCompleted)
  }

  /** The ledger entry of a wallet payment for an order. */
  function DebitEntry(amount: int, orderId: string, txId: string, date: string): WalletTransaction {
    WalletTransaction(txId, Debit, amount, date, "Payment for Order #" + orderId, Some("Wallet"), TxCompleted)
  }

  // ---------------------------------------------------- catalog and promos

  /** The catalog after `updateProduct(product)`: every product with its id is replaced. */
  function ReplaceProduct(products: seq<Product>, product: Product): (r: seq<Product>)
    ensures |r| == |products|
  {
    seq(|products|, i requires 0 <= i < |products| => if products[i].id == product.id then product else products[i])
  }

  /** `updateProduct` puts the new record in place of every product with its
      id and leaves every other product where it was. */
  lemma ReplaceProductEffect(products: seq<Product>, product: Product, i: int)
    requires 0 <= i < |products|
    ensures var r := ReplaceProduct(products, product);
            && (products[i].id == product.id ==> r[i] == product)
            && (products[i].id != product.id ==> r[i] == products[i])
            && r[i].id == products[i].id
  {
  }

  function KeepUnlessProduct(id: string): Product -> bool {
    (p: Product) => p.id != id
  }

  /** The catalog after `deleteProduct(id)`. */
  function RemoveProduct(products: seq<Product>, id: string): seq<Product> {
    Filter(products, KeepUnlessProduct(id))
  }

  lemma RemoveProductMembership(products: seq<Product>, id: string, p: Product)
    ensures p in RemoveProduct(products, id) <==> p in products && p.id != id
  {
    FilterMembership(products, KeepUnlessProduct(id), p);
  }

  function KeepUnlessCode(code: string): PromoCode -> bool {
    (p: PromoCode) => p.code != code
  }

  /** The promo list after `deletePromoCode(code)`. */
  function RemovePromo(promos: seq<PromoCode>, code: string): seq<PromoCode> {
    Filter(promos, KeepUnlessCode(code))
  }

  lemma RemovePromoMembership(promos: seq<PromoCode>, code: string, p: PromoCode)
    ensures p in RemovePromo(promos, code) <==> p in promos && p.code != code
  {
    FilterMembership(promos, KeepUnlessCode(code), p);
  }

  /** `verifyPromoCode(code)`: the first promo whose code is exactly `code` and
      which is active; none if there is no such promo. */
  function FindActivePromo(promos: seq<PromoCode>, code: string): (r: Option<PromoCode>)
    ensures r.Some? ==> exists i :: 0 <= i < |promos| && promos[i] == r.value && r.value.code == code && r.value.isActive &&
                                    forall j :: 0 <= j < i ==> !(promos[j].code == code && promos[j].isActive)
    ensures r.None? <==> forall i :: 0 <= i < |promos| ==> !(promos[i].code == code && promos[i].isActive)
  {
    Find(promos, (p: PromoCode) => p.code == code && p.isActive)
  }

  // ------------------------------------------------------------ the store

  class Shop {
    var products: seq<Product>
    var cart: seq<CartItem>
    var orders: seq<Order>
    var user: Option<User>
    var allUsers: seq<User>
    var walletTransactions: seq<WalletTransaction>
    var promoCodes: seq<PromoCode>
    var siteNotice: string

    /** Every wallet balance the store holds, the session copy included, is non-negative. */
    predicate BalancesNonNegative()
      reads this
    {
      && (user.Some? ==> user.value.walletBalance >= 0)
      && forall i :: 0 <= i < |allUsers| ==> allUsers[i].walletBalance >= 0
    }

    /** Every registry entry with the session user's email equals the session copy. */
    predicate SessionMatchesRegistry()
      reads this
    {
      user.Some? ==>
        forall i :: 0 <= i < |allUsers| && allUsers[i].email == user.value.email ==> allUsers[i] == user.value
    }

    /** No two registry entries share an email. */
    predicate UniqueEmails()
      reads this
    {
      forall i, j :: 0 <= i < j < |allUsers| ==> allUsers[i].email != allUsers[j].email
    }

    /** A fresh store: the given catalog and every other slice empty. */
    constructor (catalog: seq<Product>)
      ensures products == catalog && cart == [] && orders == [] && user == None
      ensures allUsers == [] && walletTransactions == [] && promoCodes == [] && siteNotice == ""
      ensures BalancesNonNegative() && SessionMatchesRegistry() && UniqueEmails()
    {
      products := catalog;
      cart := [];
      orders := [];
      user := None;
      allUsers := [];
      walletTransactions := [];
      promoCodes := [];
      siteNotice := "";
    }

    method AddToCart(item: CartItem)
      modifies this`cart
      ensures cart == CartAdd(old(cart), item)
      ensures UniqueLines(old(cart)) ==> UniqueLines(cart)
    {
      ghost var before := cart;
      cart := CartAdd(cart, item);
      if UniqueLines(before) {
        CartAddKeepsLinesUnique(before, item);
      }
    }

    method RemoveFromCart(productId: string, optionId: string)
      modifies this`cart
      ensures cart == RemoveLines(old(cart), productId, optionId)
      ensures UniqueLines(old(cart)) ==> UniqueLines(cart)
    {
      if UniqueLines(cart) {
        RemoveLinesKeepsLinesUnique(cart, productId, optionId);
      }
      cart := RemoveLines(cart, productId, optionId);
    }

    method ClearCart()
      modifies this`cart
      ensures cart == []
    {
      cart := [];
    }

    /** Puts the order, stamped with the session user's email, in front of the older orders. */
    method AddOrder(order: Order)
      modifies this`orders
      ensures orders == [StampOrder(order, user)] + old(orders)
      ensures orders[1..] == old(orders)
    {
      orders := [StampOrder(order, user)] + orders;
    }

    /** Signs in by email: a banned registry entry is refused, a known email
        becomes the session user as stored, an unknown email is registered
        with an empty wallet and becomes the session user. */
    method Login(profile: Profile, newId: string) returns (admitted: bool)
      modifies this`user, this`allUsers
      ensures var found := FindByEmail(old(allUsers), profile.email);
              && (found.Some? && IsBanned(found.value) ==>
                    !admitted && user == old(user) && allUsers == old(allUsers))
              && (found.Some? && !IsBanned(found.value) ==>
                    admitted && user == found && allUsers == old(allUsers))
              && (found.None? ==>
                    admitted && user == Some(NewUser(profile, newId)) && allUsers == old(allUsers) + [NewUser(profile, newId)])
      ensures old(UniqueEmails()) ==> UniqueEmails()
      ensures admitted && old(UniqueEmails()) ==> SessionMatchesRegistry()
      ensures old(BalancesNonNegative()) ==> BalancesNonNegative()
    {
      var found := FindByEmail(allUsers, profile.email);
      if found.Some? {
        if IsBanned(found.value) {
          return false;
        }
        user := found;
        admitted := true;
      } else {
        var registered := NewUser(profile, newId);
        allUsers := allUsers + [registered];
        user := Some(registered);
        admitted := true;
      }
    }

    method Logout()
      modifies this`user
      ensures user == None
    {
      user := None;
    }

    /** Merges the patch into the session user and writes the merged record
        over every registry entry that had the session user's old email. */
    method UpdateUser(patch: UserPatch)
      modifies this`user, this`allUsers
      ensures old(user).None? ==> user == None && allUsers == old(allUsers)
      ensures old(user).Some? ==>
                && user == Some(Merge(old(user).value, patch))
                && allUsers == ReplaceByEmail(old(allUsers), old(user).value.email, user.value)
      ensures old(user).Some? &&
              (|| patch.email.None?
               || patch.email == Some(old(user).value.email)
               || forall i :: 0 <= i < |old(allUsers)| ==> old(allUsers)[i].email != patch.email.value) ==>
                SessionMatchesRegistry()
      ensures old(BalancesNonNegative()) ==> BalancesNonNegative()
    {
      if user.Some? {
        var updated := Merge(user.value, patch);
        allUsers := ReplaceByEmail(allUsers, user.value.email, updated);
        user := Some(updated);
      }
    }

    /** Credits the session user's wallet (no-op for a guest) and keeps the
        registry entry in step with the session copy. */
    method AddMoneyToWallet(amount: int, via: string, trxId: string, txId: string, date: string)
      modifies this`user, this`allUsers, this`walletTransactions
      ensures old(user).None? ==>
                user == None && allUsers == old(allUsers) && walletTransactions == old(walletTransactions)
      ensures old(user).Some? ==>
                && user == Some(old(user).value.(walletBalance := old(user).value.walletBalance + amount))
                && allUsers == ReplaceByEmail(old(allUsers), old(user).value.email, user.value)
                && walletTransactions == [CreditEntry(amount, via, txId, date)] + old(walletTransactions)
                && SessionMatchesRegistry()
      ensures old(BalancesNonNegative()) && amount >= 0 ==> BalancesNonNegative()
      ensures old(UniqueEmails()) ==> UniqueEmails()
    {
      if user.None? {
        return;
      }
      var updated := user.value.(walletBalance := user.value.walletBalance + amount);
      allUsers := ReplaceByEmail(allUsers, user.value.email, updated);
      user := Some(updated);
      walletTransactions := [CreditEntry(amount, via, txId, date)] + walletTransactions;
    }

    /** Pays an order from the session user's wallet. Refused, with nothing
        changed, for a guest or when the balance is below the amount. */
    method ProcessWalletPayment(amount: int, orderId: string, txId: string, date: string) returns (paid: bool)
      modifies this`user, this`allUsers, this`walletTransactions
      ensures paid <==> old(user).Some? && old(user).value.walletBalance >= amount
      ensures !paid ==>
                user == old(user) && allUsers == old(allUsers) && walletTransactions == old(walletTransactions)
      ensures paid ==>
                && user == Some(old(user).value.(walletBalance := old(user).value.walletBalance - amount))
                && allUsers == ReplaceByEmail(old(allUsers), old(user).value.email, user.value)
                && walletTransactions == [DebitEntry(amount, orderId, txId, date)] + old(walletTransactions)
                && SessionMatchesRegistry()
      ensures old(BalancesNonNegative()) ==> BalancesNonNegative()
      ensures old(UniqueEmails()) ==> UniqueEmails()
    {
      if user.None? {
        return false;
      }
      if user.value.walletBalance < amount {
        return false;
      }
      var updated := user.value.(walletBalance := user.value.walletBalance - amount);
      allUsers := ReplaceByEmail(allUsers, user.value.email, updated);
      user := Some(updated);
      walletTransactions := [DebitEntry(amount, orderId, txId, date)] + walletTransactions;
      paid := true;
    }

    /** The one fixed credential pair signs in the synthetic admin, who is
        never added to the registry. */
    method AdminLogin(username: string, password: string) returns (ok: bool)
      modifies this`user
      ensures ok <==> username == AdminUsername && password == AdminPassword
      ensures user == if ok then Some(AdminUser) else old(user)
    {
      ok := username == AdminUsername && password == AdminPassword;
      if ok {
        user := Some(AdminUser);
      }
    }

    method UpdateProduct(product: Product)
      modifies this`products
      ensures products == ReplaceProduct(old(products), product)
    {
      products := ReplaceProduct(products, product);
    }

    method AddProduct(product: Product)
      modifies this`products
      ensures products == old(products) + [product]
    {
      products := products + [product];
    }

    method DeleteProduct(id: string)
      modifies this`products
      ensures products == RemoveProduct(old(products), id)
    {
      products := RemoveProduct(products, id);
    }

    method UpdateOrderStatus(orderId: string, status: OrderStatus)
      modifies this`orders
      ensures orders == SetStatus(old(orders), orderId, status)
    {
      orders := SetStatus(orders, orderId, status);
    }

    /** Adjusts the balance of the registry entries with that email and, when
        that email is the session user's, mirrors the adjusted entry into the
        session (the last such entry, as the source sets it once per match). */
    method UpdateUserBalance(email: string, amount: int, kind: TransactionType)
      modifies this`user, this`allUsers
      ensures allUsers == AdjustBalances(old(allUsers), email, amount, kind)
      ensures user == if old(user).Some? && old(user).value.email == email && FindLastByEmail(allUsers, email).Some?
                      then FindLastByEmail(allUsers, email) else old(user)
      ensures old(SessionMatchesRegistry()) ==> SessionMatchesRegistry()
      ensures old(BalancesNonNegative()) && (kind == Debit || amount >= 0) ==> BalancesNonNegative()
      ensures old(UniqueEmails()) ==> UniqueEmails()
    {
      var updated := AdjustBalances(allUsers, email, amount, kind);
      if user.Some? && user.value.email == email {
        var mirror := FindLastByEmail(updated, email);
        if mirror.Some? {
          user := mirror;
        }
      }
      allUsers := updated;
    }

    method ToggleUserBan(email: string)
      modifies this`allUsers
      ensures allUsers == ToggleBans(old(allUsers), email)
      ensures old(UniqueEmails()) ==> UniqueEmails()
    {
      allUsers := ToggleBans(allUsers, email);
    }

    method AddPromoCode(promo: PromoCode)
      modifies this`promoCodes
      ensures promoCodes == old(promoCodes) + [promo]
    {
      promoCodes := promoCodes + [promo];
    }

    method DeletePromoCode(code: string)
      modifies this`promoCodes
      ensures promoCodes == RemovePromo(old(promoCodes), code)
    {
      promoCodes := RemovePromo(promoCodes, code);
    }

    method UpdateSiteNotice(notice: string)
      modifies this`siteNotice
      ensures siteNotice == notice
    {
      siteNotice := notice;
    }
  }

  // ------------------------------------------------------------ scenarios

  /** Adding one (product, option, player) triple twice gives one line of
      quantity 2; the same product and option for another player id gives a
      second line. */
  method CartMergeScenario() returns (cart: seq<CartItem>)
    ensures |cart| == 2
    ensures cart[0].playerId == Some("111") && cart[0].quantity == 2
    ensures cart[1].playerId == Some("222") && cart[1].quantity == 1
  {
    var shop := new Shop([]);
    var line := CartItem("ff-diamonds", "Free Fire Diamonds (BD)", "", "ff-25", "25 Diamonds", 23, Some("111"), None, 1);
    shop.AddToCart(line);
    assert SameLine(shop.cart[0], line);
    shop.AddToCart(line);
    shop.AddToCart(line.(playerId := Some("222")));
    cart := shop.cart;
  }

  /** From an empty wallet: a top-up of 500 then a payment of 200 for ORD-1
      leave 300, with the debit in front of the credit in the ledger; a
      payment larger than the balance is then refused. */
  method WalletScenario() returns (balance: int, ledger: seq<WalletTransaction>, overdraft: bool)
    ensures balance == 300
    ensures |ledger| == 2
    ensures ledger[0].kind == Debit && ledger[0].amount == 200 && ledger[0].description == "Payment for Order #ORD-1"
    ensures ledger[1].kind == Credit && ledger[1].amount == 500
    ensures !overdraft
  {
    var shop := new Shop([]);
    var admitted := shop.Login(Profile("Demo User", "new@x.com", None, None), "U-1");
    shop.AddMoneyToWallet(500, "Bkash", "TRX-1", "WTX-1", "2024-01-01");
    var paid := shop.ProcessWalletPayment(200, "ORD-1", "WTX-2", "2024-01-02");
    overdraft := shop.ProcessWalletPayment(301, "ORD-2", "WTX-3", "2024-01-03");
    balance := shop.user.value.walletBalance;
    ledger := shop.walletTransactions;
  }

  /** Signing in twice with a new email registers exactly one user, with an
      empty wallet and the user role, and the second sign-in finds it. */
  method LoginUpsertScenario() returns (registry: seq<User>, session: Option<User>)
    ensures |registry| == 1
    ensures registry[0].email == "new@x.com" && registry[0].walletBalance == 0 && registry[0].role == UserRole
    ensures session == Some(registry[0])
  {
    var shop := new Shop([]);
    var profile := Profile("New User", "new@x.com", None, None);
    var first := shop.Login(profile, "U-1");
    var second := shop.Login(profile, "U-2");
    registry := shop.allUsers;
    session := shop.user;
  }

  /** After an admin bans a signed-out user, that user's next sign-in is
      refused and changes nothing. */
  method BanScenario() returns (admitted: bool, session: Option<User>, registry: seq<User>)
    ensures !admitted && session == None
    ensures |registry| == 1 && IsBanned(registry[0])
  {
    var shop := new Shop([]);
    var profile := Profile("A User", "a@x.com", None, None);
    var first := shop.Login(profile, "U-1");
    shop.Logout();
    shop.ToggleUserBan("a@x.com");
    admitted := shop.Login(profile, "U-2");
    session := shop.user;
    registry := shop.allUsers;
  }
}
