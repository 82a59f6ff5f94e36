/** The order-tracking page: a customer types an order id or a mobile-wallet
    transaction id and sees the matching order's progress. */
module TrackOrder {
  import opened Types
  import opened Seqs
  import opened Text
  import opened Store

  // ------------------------------------------------------------ progress

  /** The status as the page compares it: the string the order carries. */
  function StatusName(status: OrderStatus): string {
    match status
    case Pending => "Pending"
    case Processing => "Processing"
    case Completed => "Completed"
    case Cancelled => "Cancelled"
  }

  /** `getStatusStep`: how far along the progress track a status is;
      any other string counts as the first step. */
  function StatusStep(status: string): (r: int)
    ensures 0 <= r <= 3
    ensures r == 0 <==> status == "Cancelled"
    ensures r == 2 <==> status == "Processing"
    ensures r == 3 <==> status == "Completed"
    ensures r == 1 <==> status !in {"Cancelled", "Processing", "Completed"}
  {
    if status == "Cancelled" then 0
    else if status == "Pending" then 1
    else if status == "Processing" then 2
    else if status == "Completed" then 3
    else 1
  }

  /** The four statuses land on four distinct steps, and the steps follow
      the normal course of an order from pending to completed. */
  lemma StatusStepsOfStatuses(a: OrderStatus, b: OrderStatus)
    ensures a != b ==> StatusStep(StatusName(a)) != StatusStep(StatusName(b))
    ensures StatusStep(StatusName(Pending)) < StatusStep(StatusName(Processing)) < StatusStep(StatusName(Completed))
  {
  }

  /** The progress bar's width in percent: full once the order is finished
      either way, half while it is open. */
  function ProgressWidth(status: OrderStatus): (r: int)
    ensures r == 100 <==> status == Completed || status == Cancelled
    ensures r == 50 <==> status == Pending || status == Processing
  {
    match status
    case Completed => 100
    case Cancelled => 100
    case _ => 50
  }

  // -------------------------------------------------------------- lookup

  predicate SameIgnoringCase(a: string, b: string) {
    ToLower(a) == ToLower(b)
  }

  /** An order answers a query when its id, or its transaction id if it has
      one, equals the query up to case. */
  predicate Answers(o: Order, query: string) {
    SameIgnoringCase(o.id, query) ||
    (o.transactionId.Some? && SameIgnoringCase(o.transactionId.value, query))
  }

  function AnswersQuery(query: string): Order -> bool {
    (o: Order) => Answers(o, query)
  }

  /** The lookup: the first order, newest first, that answers the query. */
  function Lookup(orders: seq<Order>, query: string): (r: Option<Order>)
    ensures r.None? <==> forall i :: 0 <= i < |orders| ==> !Answers(orders[i], query)
    ensures r.Some? ==> exists i :: 0 <= i < |orders| && orders[i] == r.value && Answers(orders[i], query) &&
                                    forall j :: 0 <= j < i ==> !Answers(orders[j], query)
  {
    Find(orders, AnswersQuery(query))
  }

  /** What a search leaves on the page. */
  datatype SearchOutcome = Skipped | Found(order: Order) | NotFound

  /** `handleSearch`: a blank query does nothing; otherwise the query, as
      typed, is looked up and either shown or reported as not found. */
  function HandleSearch(orders: seq<Order>, query: string): (r: SearchOutcome)
    ensures r == Skipped <==> forall i :: 0 <= i < |query| ==> IsWhitespace(query[i])
    ensures r == NotFound <==> !IsBlank(query) && forall i :: 0 <= i < |orders| ==> !Answers(orders[i], query)
    ensures r.Found? ==> exists i :: 0 <= i < |orders| && orders[i] == r.order && Answers(orders[i], query) &&
                                    forall j :: 0 <= j < i ==> !Answers(orders[j], query)
  {
    BlankIffAllWhitespace(query);
    if IsBlank(query) then Skipped
    else
      match Lookup(orders, query)
      case Some(o) => Found(o)
      case None => NotFound
  }

  // ------------------------------------------------ the lookup as written

  /** How evaluating the page's `find` callback over the orders ends. */
  datatype Evaluation = Hit(order: Order) | Miss | Crashed

  /** The lookup as the page writes it: the transaction id is lower-cased
      without checking that it exists, so reaching an order that has none
      and whose id does not match throws. */
  function LookupAsWritten(orders: seq<Order>, query: string): Evaluation {
    if orders == [] then Miss
    else
      var o := orders[0];
      if SameIgnoringCase(o.id, query) then Hit(o)
      else if o.transactionId.None? then Crashed
      else if SameIgnoringCase(o.transactionId.value, query) then Hit(o)
      else LookupAsWritten(orders[1..], query)
  }

  /** Where every order has a transaction id, the page's lookup agrees with
      the intended one. */
  lemma {:induction false} AsWrittenAgreesWithTransactionIds(orders: seq<Order>, query: string)
    requires forall i :: 0 <= i < |orders| ==> orders[i].transactionId.Some?
    ensures LookupAsWritten(orders, query) ==
            match Lookup(orders, query)
            case Some(o) => Hit(o)
            case None => Miss
  {
    if orders != [] && !Answers(orders[0], query) {
      AsWrittenAgreesWithTransactionIds(orders[1..], query);
      assert Find(orders, AnswersQuery(query)) == Find(orders[1..], AnswersQuery(query));
    }
  }

  /** The page's lookup ends in a throw exactly when some order without a
      transaction id is reached before any order answers the query. */
  lemma {:induction false} AsWrittenCrashes(orders: seq<Order>, query: string)
    ensures LookupAsWritten(orders, query) == Crashed <==>
            exists i :: 0 <= i < |orders| && orders[i].transactionId.None? && !Answers(orders[i], query) &&
                        forall j :: 0 <= j < i ==> !Answers(orders[j], query)
  {
    if orders != [] {
      AsWrittenCrashes(orders[1..], query);
      var tail := orders[1..];
      if LookupAsWritten(orders, query) == Crashed && !(orders[0].transactionId.None? && !Answers(orders[0], query)) {
        var i :| 0 <= i < |tail| && tail[i].transactionId.None? && !Answers(tail[i], query) &&
                 forall j :: 0 <= j < i ==> !Answers(tail[j], query);
        assert orders[i + 1] == tail[i];
        assert forall j :: 0 <= j < i + 1 ==> !Answers(orders[j], query) by {
          forall j | 0 <= j < i + 1 ensures !Answers(orders[j], query) {
            if j > 0 { assert orders[j] == tail[j - 1]; }
          }
        }
      }
      if exists i :: 0 <= i < |orders| && orders[i].transactionId.None? && !Answers(orders[i], query) &&
                     forall j :: 0 <= j < i ==> !Answers(orders[j], query) {
        var i :| 0 <= i < |orders| && orders[i].transactionId.None? && !Answers(orders[i], query) &&
                 forall j :: 0 <= j < i ==> !Answers(orders[j], query);
        if i > 0 {
          assert tail[i - 1] == orders[i];
          assert forall j :: 0 <= j < i - 1 ==> !Answers(tail[j], query) by {
            forall j | 0 <= j < i - 1 ensures !Answers(tail[j], query) {
              assert tail[j] == orders[j + 1];
            }
          }
        }
      }
    }
  }

  function SampleOrder(id: string, payment: PaymentMethod, transactionId: Option<string>): Order {
    Order(id, "2025-01-01", [], 500, Pending, payment, None, transactionId, None, None)
  }

  /** A customer who paid by bKash looks up their order after someone else
      paid from the wallet: the intended lookup finds the bKash order, the
      page's lookup throws on the newer wallet order first. */
  lemma WalletOrderBreaksLookup()
    ensures var wallet := SampleOrder("ORD-2", Wallet, None);
            var bkash := SampleOrder("ORD-1", Bkash, Some("TX9"));
            && HandleSearch([wallet, bkash], "ord-1") == Found(bkash)
            && LookupAsWritten([wallet, bkash], "ord-1") == Crashed
  {
    var wallet := SampleOrder("ORD-2", Wallet, None);
    var bkash := SampleOrder("ORD-1", Bkash, Some("TX9"));
    var q := "ord-1";
    assert ToLower(wallet.id)[4] == '2';
    assert ToLower(q)[4] == '1';
    assert !Answers(wallet, q);
    assert ToLower("ORD-1") == "ord-1" by {
      assert forall i :: 0 <= i < 5 ==> ToLower("ORD-1")[i] == LowerChar("ORD-1"[i]);
    }
    assert ToLower(q) == q;
    assert Answers(bkash, q);
    assert !IsWhitespace(q[0]);
    assert [wallet, bkash][1..] == [bkash];
  }
}
