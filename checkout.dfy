/** The checkout page: the cart's subtotal, the promo discount, the payable
    total, the checks made before the confirmation dialog opens, and the
    placing of the order. */
module Checkout {
  import opened Types
  import opened Seqs
  import opened Text
  import opened Store

  function LineAmount(line: CartItem): int {
    line.price * line.quantity
  }

  /** `subTotal`: the cart's lines summed as price × quantity. */
  function SubTotal(cart: seq<CartItem>): int {
    SumBy(cart, LineAmount)
  }

  /** The subtotal of a cart split in two is the sum of the parts' subtotals. */
  lemma SubTotalSplits(a: seq<CartItem>, b: seq<CartItem>)
    ensures SubTotal(a + b) == SubTotal(a) + SubTotal(b)
  {
    SumByConcat(a, b, LineAmount);
  }

  lemma SubTotalNonNegative(cart: seq<CartItem>)
    requires forall i :: 0 <= i < |cart| ==> cart[i].price >= 0 && cart[i].quantity >= 0
    ensures SubTotal(cart) >= 0
  {
    forall i | 0 <= i < |cart| ensures LineAmount(cart[i]) >= 0 {
      assert cart[i].price * cart[i].quantity >= 0;
    }
    SumByNonNegative(cart, LineAmount);
  }

  /** How `addToCart` moves the subtotal in a cart of distinct lines: a merge
      adds the price of the line it increments (which may differ from the
      added item's price), an append adds the item's price × quantity. */
  lemma CartAddSubTotal(cart: seq<CartItem>, item: CartItem)
    requires UniqueLines(cart)
    ensures HasLine(cart, item) ==>
              exists k :: 0 <= k < |cart| && SameLine(cart[k], item) &&
                          SubTotal(CartAdd(cart, item)) == SubTotal(cart) + cart[k].price
    ensures !HasLine(cart, item) ==> SubTotal(CartAdd(cart, item)) == SubTotal(cart) + item.price * item.quantity
  {
    if HasLine(cart, item) {
      var k :| 0 <= k < |cart| && SameLine(cart[k], item);
      var bumped := cart[k].(quantity := cart[k].quantity + 1);
      CartAddMerges(cart, item, k);
      SumByUpdate(cart, k, bumped, LineAmount);
      assert LineAmount(bumped) == LineAmount(cart[k]) + cart[k].price by {
        assert cart[k].price * (cart[k].quantity + 1) == cart[k].price * cart[k].quantity + cart[k].price;
      }
    } else {
      SumByConcat(cart, [item], LineAmount);
      SumBySingleton(item, LineAmount);
    }
  }

  /** `total`: the subtotal less the applied discount, never below zero. */
  function Total(subTotal: int, appliedDiscount: int): (r: int)
    ensures r >= 0 && r >= subTotal - appliedDiscount
    ensures r == 0 || r == subTotal - appliedDiscount
  {
    if subTotal - appliedDiscount > 0 then subTotal - appliedDiscount else 0
  }

  /** `Math.round(n / 100)` for an integer `n`: the nearest integer, a half
      rounding up. */
  function RoundHundredth(n: int): (r: int)
    ensures 100 * r - 50 <= n < 100 * r + 50
  {
    (n + 50) / 100
  }

  /** The discount a promo gives: its value when fixed, the rounded
      percentage of the subtotal otherwise. */
  function Discount(promo: PromoCode, subTotal: int): (r: int)
    ensures promo.kind == Fixed ==> r == promo.value
    ensures promo.kind == Percentage ==> 100 * r - 50 <= subTotal * promo.value < 100 * r + 50
  {
    match promo.kind
    case Fixed => promo.value
    case Percentage => RoundHundredth(subTotal * promo.value)
  }

  /** A percentage promo between 0 and 100 never discounts more than the
      subtotal, so the total is then the subtotal less the discount, unclamped. */
  lemma PercentageWithinSubTotal(promo: PromoCode, subTotal: int)
    requires promo.kind == Percentage && 0 <= promo.value <= 100 && subTotal >= 0
    ensures 0 <= Discount(promo, subTotal) <= subTotal
    ensures Total(subTotal, Discount(promo, subTotal)) == subTotal - Discount(promo, subTotal)
  {
    var d := Discount(promo, subTotal);
    assert 0 <= subTotal * promo.value <= subTotal * 100 by {
      assert subTotal * promo.value <= subTotal * 100 by {
        assert subTotal * (100 - promo.value) >= 0;
      }
    }
  }

  /** The worked examples: 20% of 1000 is 200, leaving 800; a fixed 150 on a
      subtotal of 100 leaves 0, not -50. */
  lemma DiscountExamples()
    ensures Discount(PromoCode("SAVE20", Percentage, 20, true, 0), 1000) == 200
    ensures Total(1000, 200) == 800
    ensures Discount(PromoCode("FLAT150", Fixed, 150, true, 0), 100) == 150
    ensures Total(100, 150) == 0
  {
  }

  /** The promo part of the page's state. */
  datatype PromoState = PromoState(appliedDiscount: int, isPromoApplied: bool)

  /** `handleApplyPromo`: an empty input does nothing; otherwise the
      upper-cased input is looked up among the active promos, and a hit sets
      its discount while a miss resets the discount to 0. */
  function ApplyPromo(input: string, promos: seq<PromoCode>, subTotal: int, current: PromoState): (r: PromoState)
    ensures input == "" ==> r == current
    ensures input != "" ==>
              (r.isPromoApplied <==>
                 exists i :: 0 <= i < |promos| && promos[i].code == ToUpper(input) && promos[i].isActive)
    ensures input != "" && !r.isPromoApplied ==> r.appliedDiscount == 0
    ensures input != "" && r.isPromoApplied ==>
              exists i :: 0 <= i < |promos| && promos[i].code == ToUpper(input) && promos[i].isActive &&
                          r.appliedDiscount == Discount(promos[i], subTotal) &&
                          forall j :: 0 <= j < i ==> !(promos[j].code == ToUpper(input) && promos[j].isActive)
  {
    if input == "" then current
    else
      match FindActivePromo(promos, ToUpper(input))
      case Some(promo) => PromoState(Discount(promo, subTotal), true)
      case None => PromoState(0, false)
  }

  /** What pressing "confirm payment" leads to. */
  datatype Initiation = LoginRequired | InsufficientBalance | MissingDetails | Confirm

  /** `handleInitiateOrder`: a wallet payment needs a signed-in user whose
      balance covers the total; a mobile-wallet payment needs a sender phone
      and a transaction id. Only then does the confirmation dialog open. */
  function InitiateOrder(payment: PaymentMethod, session: Option<User>, total: int,
                         senderPhone: string, trxId: string): (r: Initiation)
    ensures r == Confirm <==>
              if payment == Wallet then session.Some? && session.value.walletBalance >= total
              else senderPhone != "" && trxId != ""
    ensures r == LoginRequired <==> payment == Wallet && session.None?
    ensures r == InsufficientBalance ==> payment == Wallet && session.Some?
    ensures r == MissingDetails ==> payment != Wallet
  {
    if payment == Wallet then
      if session.None? then LoginRequired
      else if session.value.walletBalance < total then InsufficientBalance
      else Confirm
    else if senderPhone == "" || trxId == "" then MissingDetails
    else Confirm
  }

  /** The order `handleFinalizeOrder` builds from the cart. */
  function BuildOrder(orderId: string, date: string, cart: seq<CartItem>, total: int, payment: PaymentMethod,
                      senderPhone: string, trxId: string, appliedDiscount: int): (r: Order)
    ensures r.id == orderId && r.date == date && r.items == cart && r.total == total && r.paymentMethod == payment
    ensures r.status == Processing <==> payment == Wallet
    ensures r.status == Pending <==> payment != Wallet
    ensures r.paymentPhone.None? <==> payment == Wallet
    ensures r.transactionId.None? <==> payment == Wallet
    ensures payment != Wallet ==> r.paymentPhone == Some(senderPhone) && r.transactionId == Some(trxId)
    ensures r.discountApplied.Some? <==> appliedDiscount > 0
    ensures r.discountApplied.Some? ==> r.discountApplied.value == appliedDiscount
    ensures r.userId.None?
  {
    var wallet := payment == Wallet;
    Order(orderId, date, cart, total,
          if wallet then Processing else Pending,
          payment,
          if wallet then None else Some(senderPhone),
          if wallet then None else Some(trxId),
          None,
          if appliedDiscount > 0 then Some(appliedDiscount) else None)
  }

  /** `handleFinalizeOrder`: a wallet payment is debited first and, if the
      debit is refused, nothing else happens; otherwise the order built from
      the cart is added and then the cart is cleared. */
  method FinalizeOrder(shop: Shop, payment: PaymentMethod, senderPhone: string, trxId: string,
                       appliedDiscount: int, orderId: string, date: string, txId: string, txDate: string)
    returns (placed: bool)
    modifies shop`user, shop`allUsers, shop`walletTransactions, shop`orders, shop`cart
    ensures var total := Total(SubTotal(old(shop.cart)), appliedDiscount);
            placed <==> payment != Wallet || (old(shop.user).Some? && old(shop.user).value.walletBalance >= total)
    ensures !placed ==>
              && shop.orders == old(shop.orders) && shop.cart == old(shop.cart)
              && shop.user == old(shop.user) && shop.allUsers == old(shop.allUsers)
              && shop.walletTransactions == old(shop.walletTransactions)
    ensures placed ==>
              var total := Total(SubTotal(old(shop.cart)), appliedDiscount);
              var order := BuildOrder(orderId, date, old(shop.cart), total, payment, senderPhone, trxId, appliedDiscount);
              && shop.orders == [StampOrder(order, old(shop.user))] + old(shop.orders)
              && shop.cart == []
    ensures placed && payment == Wallet ==>
              var total := Total(SubTotal(old(shop.cart)), appliedDiscount);
              && shop.user == Some(old(shop.user).value.(walletBalance := old(shop.user).value.walletBalance - total))
              && shop.allUsers == ReplaceByEmail(old(shop.allUsers), old(shop.user).value.email, shop.user.value)
              && shop.walletTransactions == [DebitEntry(total, orderId, txId, txDate)] + old(shop.walletTransactions)
              && shop.SessionMatchesRegistry()
    ensures payment != Wallet ==>
              shop.user == old(shop.user) && shop.allUsers == old(shop.allUsers) &&
              shop.walletTransactions == old(shop.walletTransactions)
    ensures old(shop.BalancesNonNegative()) ==> shop.BalancesNonNegative()
    ensures old(shop.UniqueEmails()) ==> shop.UniqueEmails()
  {
    var total := Total(SubTotal(shop.cart), appliedDiscount);
    if payment == Wallet {
      var paid := shop.ProcessWalletPayment(total, orderId, txId, txDate);
      if !paid {
        return false;
      }
    }
    var order := BuildOrder(orderId, date, shop.cart, total, payment, senderPhone, trxId, appliedDiscount);
    shop.AddOrder(order);
    shop.ClearCart();
    placed := true;
  }
}
