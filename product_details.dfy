/** The product page's "add to cart" button: a chain of checks on the chosen
    package and the player id that ends either in an error message or in one
    new cart line copied from the chosen option. */
module ProductDetails {
  import opened Types
  import opened Seqs
  import opened Text
  import opened Store

  const SelectPackageError: string := "Please select a top-up package."
  const PlayerIdError: string := "Please enter your Player ID."

  /** The three ways the button press ends. */
  datatype AddOutcome = Rejected(error: string) | Ignored | Added(item: CartItem)

  /** No package chosen: the selection is absent or empty (both falsy). */
  predicate NothingSelected(selected: Option<string>) {
    selected.None? || selected.value == ""
  }

  function OptionById(product: Product, optionId: string): Option<ProductOption> {
    Find(product.options, (o: ProductOption) => o.id == optionId)
  }

  /** The cart line for a product option: title, image and id from the
      product, name, id and price from the option, quantity 1. */
  function LineFor(product: Product, option: ProductOption, playerId: string): CartItem {
    CartItem(product.id, product.title, product.image, option.id, option.name, option.price, Some(playerId), None, 1)
  }

  /** `handleAddToCart`'s checks, in their order. */
  function ChooseCartItem(product: Product, selected: Option<string>, playerId: string): (r: AddOutcome)
    ensures NothingSelected(selected) <==> r == Rejected(SelectPackageError)
    ensures r == Rejected(PlayerIdError) <==>
              !NothingSelected(selected) && product.kind == PlayerIdProduct && IsBlank(playerId)
    ensures r.Rejected? ==> r.error == SelectPackageError || r.error == PlayerIdError
    ensures r.Added? <==>
              && !NothingSelected(selected)
              && !(product.kind == PlayerIdProduct && IsBlank(playerId))
              && exists i :: 0 <= i < |product.options| && product.options[i].id == selected.value
    ensures r.Ignored? <==>
              && !NothingSelected(selected)
              && !(product.kind == PlayerIdProduct && IsBlank(playerId))
              && forall i :: 0 <= i < |product.options| ==> product.options[i].id != selected.value
    ensures r.Added? ==>
              && r.item.quantity == 1
              && r.item.productId == product.id && r.item.productTitle == product.title
              && r.item.productImage == product.image
              && r.item.playerId == Some(playerId) && r.item.server.None?
              && exists i :: 0 <= i < |product.options| && product.options[i].id == selected.value &&
                             r.item.optionId == product.options[i].id &&
                             r.item.optionName == product.options[i].name &&
                             r.item.price == product.options[i].price &&
                             forall j :: 0 <= j < i ==> product.options[j].id != selected.value
  {
    if NothingSelected(selected) then Rejected(SelectPackageError)
    else if product.kind == PlayerIdProduct && IsBlank(playerId) then Rejected(PlayerIdError)
    else
      match OptionById(product, selected.value)
      case None => Ignored
      case Some(option) => Added(LineFor(product, option, playerId))
  }

  /** A voucher is never refused for its player id, however blank. */
  lemma VoucherSkipsPlayerId(product: Product, selected: Option<string>, playerId: string)
    requires product.kind == VoucherProduct
    ensures ChooseCartItem(product, selected, playerId) != Rejected(PlayerIdError)
  {
  }

  /** A player-id product is refused exactly when the id is empty or all white
      space (a package having been chosen). */
  lemma PlayerIdMustNotBeBlank(product: Product, selected: Option<string>, playerId: string)
    requires product.kind == PlayerIdProduct && !NothingSelected(selected)
    ensures ChooseCartItem(product, selected, playerId) == Rejected(PlayerIdError) <==>
            forall i :: 0 <= i < |playerId| ==> IsWhitespace(playerId[i])
  {
    BlankIffAllWhitespace(playerId);
  }

  /** `handleAddToCart` on the store: only an accepted choice touches the
      cart, by adding exactly its one line. */
  method HandleAddToCart(shop: Shop, product: Product, selected: Option<string>, playerId: string)
    returns (outcome: AddOutcome)
    modifies shop`cart
    ensures outcome == ChooseCartItem(product, selected, playerId)
    ensures outcome.Added? ==> shop.cart == CartAdd(old(shop.cart), outcome.item)
    ensures !outcome.Added? ==> shop.cart == old(shop.cart)
  {
    outcome := ChooseCartItem(product, selected, playerId);
    if outcome.Added? {
      shop.AddToCart(outcome.item);
    }
  }
}
