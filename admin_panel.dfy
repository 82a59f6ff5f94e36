/** The administration dashboard: the sales and pending figures, the order
    table's filter and status buttons, the product form's option editor and
    the customer list's filter. All of it is computed from the store's
    slices; nothing here changes state of its own. */
module AdminPanel {
  import opened Types
  import opened Seqs
  import opened Text
  import opened Store

  // ------------------------------------------------------------ overview

  predicate IsCompleted(o: Order) {
    o.status == Completed
  }

  /** An order still waiting for the admin: pending or processing. */
  predicate IsOpen(o: Order) {
    o.status == Pending || o.status == Processing
  }

  function OrderTotal(o: Order): int {
    o.total
  }

  /** `totalSales`: the totals of the completed orders, summed. */
  function TotalSales(orders: seq<Order>): int {
    SumBy(Filter(orders, IsCompleted), OrderTotal)
  }

  /** `pendingOrders`: how many orders are still open. */
  function PendingOrders(orders: seq<Order>): nat {
    |Filter(orders, IsOpen)|
  }

  /** What one order contributes to the sales figure. */
  function SalesShare(o: Order): int {
    if IsCompleted(o) then o.total else 0
  }

  /** What one order contributes to the pending figure. */
  function PendingShare(o: Order): int {
    if IsOpen(o) then 1 else 0
  }

  function One(o: Order): int {
    1
  }

  /** The sales figure is the sum over every order of its share: completed
      orders count with their total, all others with nothing. */
  lemma TotalSalesByOrder(orders: seq<Order>)
    ensures TotalSales(orders) == SumBy(orders, SalesShare)
  {
    SumByFilter(orders, IsCompleted, OrderTotal, SalesShare);
  }

  /** The pending figure counts each open order once and no other order. */
  lemma PendingOrdersByOrder(orders: seq<Order>)
    ensures PendingOrders(orders) == SumBy(orders, PendingShare)
  {
    SumByOnes(Filter(orders, IsOpen), One);
    SumByFilter(orders, IsOpen, One, PendingShare);
  }

  /** Both figures are additive over the order list. */
  lemma FiguresSplit(a: seq<Order>, b: seq<Order>)
    ensures TotalSales(a + b) == TotalSales(a) + TotalSales(b)
    ensures PendingOrders(a + b) == PendingOrders(a) + PendingOrders(b)
  {
    FilterConcat(a, b, IsCompleted);
    SumByConcat(Filter(a, IsCompleted), Filter(b, IsCompleted), OrderTotal);
    FilterConcat(a, b, IsOpen);
  }

  /** A newly placed order (pending, or processing when paid from the
      wallet) adds one to the pending figure and nothing to the sales. */
  lemma NewOrderFigures(o: Order, orders: seq<Order>)
    requires o.status == Pending || o.status == Processing
    ensures TotalSales([o] + orders) == TotalSales(orders)
    ensures PendingOrders([o] + orders) == PendingOrders(orders) + 1
  {
    FiguresSplit([o], orders);
    assert Filter([o], IsCompleted) == [] by {
      assert [o][1..] == [];
    }
    assert Filter([o], IsOpen) == [o] by {
      assert [o][1..] == [];
    }
  }

  /** No two orders share an id. */
  predicate UniqueIds(orders: seq<Order>) {
    forall i, j :: 0 <= i < j < |orders| ==> orders[i].id != orders[j].id
  }

  /** With distinct ids, `updateOrderStatus` rewrites the one order with
      that id and no other. */
  lemma SetStatusAt(orders: seq<Order>, k: int, status: OrderStatus)
    requires UniqueIds(orders) && 0 <= k < |orders|
    ensures SetStatus(orders, orders[k].id, status) == orders[k := orders[k].(status := status)]
  {
    var r := SetStatus(orders, orders[k].id, status);
    forall i | 0 <= i < |orders|
      ensures r[i] == orders[k := orders[k].(status := status)][i]
    {
      if i < k {
        assert orders[i].id != orders[k].id;
      } else if i > k {
        assert orders[k].id != orders[i].id;
      }
    }
  }

  /** How a share changes for one order when orders with `orderId` get
      `status`: by the difference for those orders, not at all for others. */
  function ShareGain(orderId: string, status: OrderStatus, share: Order -> int): Order -> int {
    (o: Order) => if o.id == orderId then share(o.(status := status)) - share(o) else 0
  }

  lemma {:induction false} SetStatusShares(orders: seq<Order>, orderId: string, status: OrderStatus, share: Order -> int)
    ensures SumBy(SetStatus(orders, orderId, status), share) ==
            SumBy(orders, share) + SumBy(orders, ShareGain(orderId, status, share))
  {
    if orders != [] {
      var n := |orders|;
      var front := orders[..n - 1];
      assert SetStatus(orders, orderId, status)[..n - 1] == SetStatus(front, orderId, status);
      SetStatusShares(front, orderId, status, share);
    }
  }

  /** `updateOrderStatus` moves each figure by the change in share of every
      order carrying that id, however many there are. */
  lemma StatusUpdateFigures(orders: seq<Order>, orderId: string, status: OrderStatus)
    ensures var after := SetStatus(orders, orderId, status);
            && TotalSales(after) == TotalSales(orders) + SumBy(orders, ShareGain(orderId, status, SalesShare))
            && PendingOrders(after) == PendingOrders(orders) + SumBy(orders, ShareGain(orderId, status, PendingShare))
  {
    var after := SetStatus(orders, orderId, status);
    TotalSalesByOrder(orders);
    TotalSalesByOrder(after);
    SetStatusShares(orders, orderId, status, SalesShare);
    PendingOrdersByOrder(orders);
    PendingOrdersByOrder(after);
    SetStatusShares(orders, orderId, status, PendingShare);
  }

  /** Moving one order to a new status changes the figures by exactly the
      difference in that order's shares: completing an open order adds its
      total to the sales and takes one from the pending figure, cancelling
      a completed one takes its total back out. */
  lemma StatusChangeFigures(orders: seq<Order>, k: int, status: OrderStatus)
    requires UniqueIds(orders) && 0 <= k < |orders|
    ensures var after := SetStatus(orders, orders[k].id, status);
            var changed := orders[k].(status := status);
            && TotalSales(after) == TotalSales(orders) - SalesShare(orders[k]) + SalesShare(changed)
            && PendingOrders(after) == PendingOrders(orders) - PendingShare(orders[k]) + PendingShare(changed)
  {
    var after := SetStatus(orders, orders[k].id, status);
    var changed := orders[k].(status := status);
    SetStatusAt(orders, k, status);
    TotalSalesByOrder(orders);
    TotalSalesByOrder(after);
    SumByUpdate(orders, k, changed, SalesShare);
    PendingOrdersByOrder(orders);
    PendingOrdersByOrder(after);
    SumByUpdate(orders, k, changed, PendingShare);
  }

  // --------------------------------------------------------- order table

  /** The status drop-down: every order, or those with one status. */
  datatype StatusFilter = All | Only(status: OrderStatus)

  predicate MatchesStatus(filter: StatusFilter, o: Order) {
    filter.All? || o.status == filter.status
  }

  /** The search box matches the id or the transaction id, ignoring case;
      an order without a transaction id is matched by its id alone. */
  predicate MatchesSearch(o: Order, search: string) {
    || Includes(ToLower(o.id), ToLower(search))
    || (o.transactionId.Some? && Includes(ToLower(o.transactionId.value), ToLower(search)))
  }

  function OrderRow(filter: StatusFilter, search: string): Order -> bool {
    (o: Order) => MatchesStatus(filter, o) && MatchesSearch(o, search)
  }

  /** `filteredOrders`. */
  function FilteredOrders(orders: seq<Order>, filter: StatusFilter, search: string): seq<Order> {
    Filter(orders, OrderRow(filter, search))
  }

  /** An order is listed exactly when it passes both the status filter and
      the search. */
  lemma FilteredOrdersMembership(orders: seq<Order>, filter: StatusFilter, search: string, o: Order)
    ensures o in FilteredOrders(orders, filter, search) <==>
            o in orders && MatchesStatus(filter, o) && MatchesSearch(o, search)
  {
    FilterMembership(orders, OrderRow(filter, search), o);
  }

  /** The search in positional terms: the lower-cased query stands somewhere
      in the lower-cased id or transaction id. */
  lemma MatchesSearchAt(o: Order, search: string)
    ensures MatchesSearch(o, search) <==>
            || (exists i :: OccursAt(ToLower(o.id), ToLower(search), i))
            || (o.transactionId.Some? && exists i :: OccursAt(ToLower(o.transactionId.value), ToLower(search), i))
  {
    IncludesAt(ToLower(o.id), ToLower(search));
    if o.transactionId.Some? {
      IncludesAt(ToLower(o.transactionId.value), ToLower(search));
    }
  }

  /** The page's initial state, "All" and an empty search, lists every order
      in its stored order. */
  lemma InitialTableListsAll(orders: seq<Order>)
    ensures FilteredOrders(orders, All, "") == orders
  {
    forall i | 0 <= i < |orders| ensures OrderRow(All, "")(orders[i]) {
      IncludesEmpty(ToLower(orders[i].id));
    }
    FilterKeepsAll(orders, OrderRow(All, ""));
  }

  /** The status buttons of an order row. */
  datatype Action = MarkCompleted | CancelOrder | Process

  /** The status a button sets. */
  function Target(a: Action): OrderStatus {
    match a
    case MarkCompleted => Completed
    case CancelOrder => Cancelled
    case Process => Processing
  }

  /** The buttons shown for an order, left to right. */
  function OfferedActions(status: OrderStatus): (r: seq<Action>)
    ensures MarkCompleted in r <==> status != Completed
    ensures CancelOrder in r <==> status != Cancelled
    ensures Process in r <==> status == Pending
    ensures forall i :: 0 <= i < |r| ==> Target(r[i]) != status
    ensures forall i, j :: 0 <= i < j < |r| ==> r[i] != r[j]
  {
    (if status != Completed then [MarkCompleted] else [])
    + (if status != Cancelled then [CancelOrder] else [])
    + (if status == Pending then [Process] else [])
  }

  /** Every order offers a way out of its status, and a finished order
      (completed or cancelled) offers exactly one: the other finish. */
  lemma OfferedActionsPerStatus()
    ensures OfferedActions(Pending) == [MarkCompleted, CancelOrder, Process]
    ensures OfferedActions(Processing) == [MarkCompleted, CancelOrder]
    ensures OfferedActions(Completed) == [CancelOrder]
    ensures OfferedActions(Cancelled) == [MarkCompleted]
  {
  }

  /** Pressing an offered button really changes that order's status; any
      other order sharing its id gets the same status, and every order with
      another id is left alone. */
  lemma OfferedActionTakesEffect(orders: seq<Order>, k: int, a: Action)
    requires 0 <= k < |orders| && a in OfferedActions(orders[k].status)
    ensures var after := SetStatus(orders, orders[k].id, Target(a));
            && |after| == |orders|
            && after[k].status == Target(a) && after[k].status != orders[k].status
            && (forall i :: 0 <= i < |orders| && orders[i].id != orders[k].id ==> after[i] == orders[i])
            && (forall i :: 0 <= i < |orders| && orders[i].id == orders[k].id ==>
                  after[i] == orders[i].(status := Target(a)))
  {
  }

  // ------------------------------------------------------- option editor

  /** An edit made in one option's row: its name or its price. */
  datatype OptionEdit = NameEdit(name: string) | PriceEdit(price: int)

  function Edited(option: ProductOption, edit: OptionEdit): (r: ProductOption)
    ensures r.id == option.id && r.originalPrice == option.originalPrice
    ensures edit.NameEdit? ==> r.name == edit.name && r.price == option.price
    ensures edit.PriceEdit? ==> r.price == edit.price && r.name == option.name
  {
    match edit
    case NameEdit(name) => option.(name := name)
    case PriceEdit(price) => option.(price := price)
  }

  /** `handleOptionChange(idx, field, value)`: the option at `idx` gets the
      edit, every other option stays as it was. */
  function ChangeOption(options: seq<ProductOption>, idx: int, edit: OptionEdit): (r: seq<ProductOption>)
    requires 0 <= idx < |options|
    ensures |r| == |options|
    ensures r[idx] == Edited(options[idx], edit)
    ensures forall i :: 0 <= i < |r| && i != idx ==> r[i] == options[i]
  {
    options[idx := Edited(options[idx], edit)]
  }

  /** `addOption`: a "New Option" priced 0 goes after the existing options,
      which are unchanged. */
  function AddOption(options: seq<ProductOption>, newId: string): (r: seq<ProductOption>)
    ensures |r| == |options| + 1
    ensures r[..|options|] == options
    ensures r[|options|] == ProductOption(newId, "New Option", 0, None)
  {
    options + [ProductOption(newId, "New Option", 0, None)]
  }

  /** `removeOption(idx)`: keeps the options whose index differs from `idx`,
      walking the list as `filter((_, i) => i !== idx)` does. */
  function RemoveOption(options: seq<ProductOption>, idx: int): (r: seq<ProductOption>)
    ensures |r| <= |options|
  {
    if options == [] then []
    else (if idx == 0 then [] else [options[0]]) + RemoveOption(options[1..], idx - 1)
  }

  /** Removing drops exactly the option at `idx` and keeps the rest in
      order; an index outside the list removes nothing. */
  lemma {:induction false} RemoveOptionSplits(options: seq<ProductOption>, idx: int)
    ensures 0 <= idx < |options| ==> RemoveOption(options, idx) == options[..idx] + options[idx + 1..]
    ensures !(0 <= idx < |options|) ==> RemoveOption(options, idx) == options
  {
    if options != [] {
      RemoveOptionSplits(options[1..], idx - 1);
      if idx == 0 {
        assert options[..0] + options[1..] == options[1..];
      } else if 0 < idx < |options| {
        assert [options[0]] + (options[1..][..idx - 1] + options[1..][idx..]) == options[..idx] + options[idx + 1..];
      } else {
        assert [options[0]] + options[1..] == options;
      }
    }
  }

  /** The same by index: one fewer option, earlier ones in place, later ones
      moved up by one. */
  lemma RemoveOptionByIndex(options: seq<ProductOption>, idx: int)
    requires 0 <= idx < |options|
    ensures var r := RemoveOption(options, idx);
            && |r| == |options| - 1
            && (forall i :: 0 <= i < idx ==> r[i] == options[i])
            && (forall i :: idx <= i < |r| ==> r[i] == options[i + 1])
  {
    RemoveOptionSplits(options, idx);
  }

  /** Appending and then removing the new row gives back the options. */
  lemma AddThenRemoveOption(options: seq<ProductOption>, newId: string)
    ensures RemoveOption(AddOption(options, newId), |options|) == options
  {
    RemoveOptionSplits(AddOption(options, newId), |options|);
  }

  // ---------------------------------------------------------- user list

  /** A registry entry is listed when it is not an admin and the search
      stands in its email (case kept) or in its name (case ignored). */
  predicate Listed(u: User, search: string) {
    u.role != AdminRole && (Includes(u.email, search) || Includes(ToLower(u.name), ToLower(search)))
  }

  function UserRow(search: string): User -> bool {
    (u: User) => Listed(u, search)
  }

  /** `filteredUsers`. */
  function VisibleUsers(users: seq<User>, search: string): seq<User> {
    Filter(users, UserRow(search))
  }

  /** A registry entry is listed exactly when it is not an admin and
      matches the search. */
  lemma VisibleUsersMembership(users: seq<User>, search: string, u: User)
    ensures u in VisibleUsers(users, search) <==> u in users && Listed(u, search)
  {
    FilterMembership(users, UserRow(search), u);
  }

  /** No admin is ever listed, whatever the search. */
  lemma NoAdminListed(users: seq<User>, search: string)
    ensures forall i :: 0 <= i < |VisibleUsers(users, search)| ==> VisibleUsers(users, search)[i].role != AdminRole
  {
    forall i | 0 <= i < |VisibleUsers(users, search)|
      ensures VisibleUsers(users, search)[i].role != AdminRole
    {
      VisibleUsersMembership(users, search, VisibleUsers(users, search)[i]);
    }
  }

  /** With an empty search every non-admin entry is listed, in registry order. */
  lemma EmptySearchListsCustomers(users: seq<User>)
    ensures VisibleUsers(users, "") == Filter(users, (u: User) => u.role != AdminRole)
  {
    forall i | 0 <= i < |users| ensures UserRow("")(users[i]) == (users[i].role != AdminRole) {
      IncludesEmpty(users[i].email);
    }
    FilterAgrees(users, UserRow(""), (u: User) => u.role != AdminRole);
  }
}
