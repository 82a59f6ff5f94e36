/** The records of the storefront. Optional fields are `Option`s; string
    unions become enumerations; every number is an integer (prices and
    balances are whole units of the single currency). */
module Types {

  datatype Option<+T> = None | Some(value: T)

  /** Whether buying the product needs the buyer's in-game account id. */
  datatype ProductType = PlayerIdProduct | VoucherProduct

  datatype ProductOption = ProductOption(
    id: string,
    name: string,
    price: int,
    originalPrice: Option<int>)

  datatype Product = Product(
    id: string,
    title: string,
    category: string,
    image: string,
    description: string,
    kind: ProductType,
    options: seq<ProductOption>)

  /** A cart line: a denormalised copy of a product option plus the buyer's
      account id. Lines are identified by (productId, optionId, playerId). */
  datatype CartItem = CartItem(
    productId: string,
    productTitle: string,
    productImage: string,
    optionId: string,
    optionName: string,
    price: int,
    playerId: Option<string>,
    server: Option<string>,
    quantity: int)

  datatype OrderStatus = Pending | Processing | Completed | Cancelled

  datatype PaymentMethod = Bkash | Nagad | Wallet

  datatype Order = Order(
    id: string,
    date: string,
    items: seq<CartItem>,
    total: int,
    status: OrderStatus,
    paymentMethod: PaymentMethod,
    paymentPhone: Option<string>,
    transactionId: Option<string>,
    userId: Option<string>,
    discountApplied: Option<int>)

  datatype TransactionType = Credit | Debit

  datatype TransactionStatus = TxCompleted | TxPending | TxFailed

  /** An entry of the wallet ledger; `via` is the source's `method` field (a
      keyword here): the top-up channel, or "Wallet" for order payments. */
  datatype WalletTransaction = WalletTransaction(
    id: string,
    kind: TransactionType,
    amount: int,
    date: string,
    description: string,
    via: Option<string>,
    status: TransactionStatus)

  datatype Role = UserRole | AdminRole

  datatype User = User(
    id: Option<string>,
    name: string,
    email: string,
    phone: Option<string>,
    avatar: Option<string>,
    walletBalance: int,
    role: Role,
    isBanned: Option<bool>)

  datatype PromoType = Fixed | Percentage

  datatype PromoCode = PromoCode(
    code: string,
    kind: PromoType,
    value: int,
    isActive: bool,
    usageCount: int)

  /** The mobile-wallet numbers payments are sent to. */
  const BkashNumber: string := "01712627336"
  const NagadNumber: string := "01917243974"

  /** `isBanned` is optional and read for its truthiness: absent means not banned. */
  predicate IsBanned(u: User) {
    u.isBanned == Some(true)
  }
}
