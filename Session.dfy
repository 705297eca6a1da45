/**
 * The checkout session as a value: the state a self-checkout machine holds,
 * one transition function per operation, and the properties those
 * transitions keep.  The class `SelfCheckout.SelfCheckoutMachine` is
 * specified by these functions.
 */
module Session {
  import opened Wrappers
  import opened Store

  /** Why a payment was refused. */
  datatype CheckoutError = CheckoutCompleted

  /** Everything one checkout session holds. */
  datatype State = State(
    shoppingCart: seq<Product>,
    currentTotal: int,
    cashTotal: int,
    change: int,
    checkoutCompleted: bool,
    availableGiftCards: map<string, GiftCard>)

  /** A fresh session: empty cart, every amount zero, open. */
  function Initial(giftCards: map<string, GiftCard>): (s: State)
    ensures s.shoppingCart == [] && s.currentTotal == s.cashTotal == s.change == 0
    ensures !s.checkoutCompleted && s.availableGiftCards == giftCards
  {
    State([], 0, 0, 0, false, giftCards)
  }

  /** The sum of the prices of the products in a cart. */
  function SumPrices(cart: seq<Product>): (sum: int)
  {
    if cart == [] then 0 else cart[0].price + SumPrices(cart[1..])
  }

  /** Every product in the cart comes from the catalog. */
  ghost predicate FromCatalog(cart: seq<Product>, catalog: map<string, Product>) {
    forall i | 0 <= i < |cart| :: cart[i] in catalog.Values
  }

  /** Every card still available was issued, unchanged, by the store. */
  ghost predicate IssuedBy(available: map<string, GiftCard>, issued: map<string, GiftCard>) {
    forall code | code in available :: code in issued && issued[code] == available[code]
  }

  /**
   * The session invariant: the total is the sum of the cart, change is never
   * negative and is only owed once the session is complete, the cart holds
   * catalog products and the gift cards are a part of those issued.
   */
  ghost predicate Valid(s: State, catalog: map<string, Product>, issued: map<string, GiftCard>) {
    && s.currentTotal == SumPrices(s.shoppingCart)
    && s.change >= 0
    && (!s.checkoutCompleted ==> s.change == 0)
    && FromCatalog(s.shoppingCart, catalog)
    && IssuedBy(s.availableGiftCards, issued)
  }

  // ---------------------------------------------------------------------
  // The four operations
  // ---------------------------------------------------------------------

  /** Scan a product id: append the product and add its price, or report it unknown. */
  function ScanProduct(s: State, catalog: map<string, Product>, id: string): (State, Option<int>)
  {
    if id in catalog then
      var product := catalog[id];
      (s.(shoppingCart := s.shoppingCart + [product],
          currentTotal := s.currentTotal + product.price),
       Some(product.price))
    else
      (s, None)
  }

  /** Present a gift card on the day `today`. */
  function AddGiftCard(s: State, code: string, today: int): (State, Result<GiftCardState, CheckoutError>)
  {
    if s.checkoutCompleted then
      (s, Failure(CheckoutCompleted))
    else if code !in s.availableGiftCards then
      (s, Success(Invalid))
    else
      var giftCard := s.availableGiftCards[code];
      if giftCard.IsExpired(today) then
        (s, Success(Expired))
      else
        var cash := s.cashTotal + giftCard.value;
        (s.(cashTotal := cash,
            checkoutCompleted := cash >= s.currentTotal,
            availableGiftCards := s.availableGiftCards - {code}),
         Success(Acceptable))
  }

  /** Tender `value` in cash. */
  function PayWithCash(s: State, value: int): (State, Outcome<CheckoutError>)
  {
    if s.checkoutCompleted then
      (s, Fail(CheckoutCompleted))
    else
      var cash := s.cashTotal + value;
      if cash >= s.currentTotal then
        (s.(cashTotal := cash, checkoutCompleted := true, change := cash - s.currentTotal), Pass)
      else
        (s.(cashTotal := cash), Pass)
  }

  /** Pay by credit card; `approved` is the card validator's answer. */
  function PayWithCreditCard(s: State, approved: bool): State
  {
    if approved then s.(checkoutCompleted := true) else s
  }

  // ---------------------------------------------------------------------
  // What each operation does
  // ---------------------------------------------------------------------

  /**
   * A known id yields its price and appends exactly that product at the end
   * of the cart, whether or not the session is complete; an unknown id
   * yields nothing and changes nothing.  Payments are never touched.
   */
  lemma ScanProductEffect(s: State, catalog: map<string, Product>, id: string)
    ensures var (s', price) := ScanProduct(s, catalog, id);
      && (price.Some? <==> id in catalog)
      && (id in catalog ==>
            && price == Some(catalog[id].price)
            && s'.shoppingCart == s.shoppingCart + [catalog[id]]
            && s'.currentTotal == s.currentTotal + catalog[id].price
            && s'.cashTotal == s.cashTotal && s'.change == s.change
            && s'.checkoutCompleted == s.checkoutCompleted
            && s'.availableGiftCards == s.availableGiftCards)
      && (id !in catalog ==> s' == s)
  {
  }

  /**
   * A completed session refuses the card; an unknown code is INVALID and an
   * expired one EXPIRED, and neither changes anything (the expired card stays
   * available).  Otherwise the card is ACCEPTABLE: its value is credited once,
   * it is withdrawn, and the session completes exactly when the cash total
   * covers the purchase total.  Change is never touched.
   */
  lemma AddGiftCardEffect(s: State, code: string, today: int)
    ensures var (s', r) := AddGiftCard(s, code, today);
      && (s.checkoutCompleted ==> r == Failure(CheckoutCompleted) && s' == s)
      && (!s.checkoutCompleted && code !in s.availableGiftCards ==> r == Success(Invalid) && s' == s)
      && (!s.checkoutCompleted && code in s.availableGiftCards && s.availableGiftCards[code].IsExpired(today) ==>
            r == Success(Expired) && s' == s && code in s'.availableGiftCards)
      && (r == Success(Acceptable) <==>
            !s.checkoutCompleted && code in s.availableGiftCards && !s.availableGiftCards[code].IsExpired(today))
      && (r == Success(Acceptable) ==>
            && s'.cashTotal == s.cashTotal + s.availableGiftCards[code].value
            && s'.availableGiftCards == s.availableGiftCards - {code}
            && code !in s'.availableGiftCards
            && (s'.checkoutCompleted <==> s'.cashTotal >= s'.currentTotal)
            && s'.change == s.change
            && s'.shoppingCart == s.shoppingCart && s'.currentTotal == s.currentTotal)
  {
  }

  /**
   * A completed session refuses cash and changes nothing.  Otherwise the
   * amount is credited; if the cash total then covers the purchase total the
   * session completes and the change is the (non-negative) excess, else the
   * change keeps its value and the session stays open.
   */
  lemma PayWithCashEffect(s: State, value: int)
    ensures var (s', r) := PayWithCash(s, value);
      && (r.Fail? <==> s.checkoutCompleted)
      && (s.checkoutCompleted ==> r == Fail(CheckoutCompleted) && s' == s)
      && (!s.checkoutCompleted ==>
            && s'.cashTotal == s.cashTotal + value
            && (s'.checkoutCompleted <==> s'.cashTotal >= s'.currentTotal)
            && (s'.checkoutCompleted ==> s'.change == s'.cashTotal - s'.currentTotal >= 0)
            && (!s'.checkoutCompleted ==> s'.change == s.change)
            && s'.shoppingCart == s.shoppingCart && s'.currentTotal == s.currentTotal
            && s'.availableGiftCards == s.availableGiftCards)
  {
  }

  /**
   * An approved card completes the session and changes nothing else, even
   * when the cash total is short of the purchase total; a declined card
   * changes nothing at all.
   */
  lemma PayWithCreditCardEffect(s: State, approved: bool)
    ensures var s' := PayWithCreditCard(s, approved);
      && (approved ==> s' == s.(checkoutCompleted := true))
      && (!approved ==> s' == s)
  {
  }

  // ---------------------------------------------------------------------
  // Sessions as sequences of operations
  // ---------------------------------------------------------------------

  /** One call on the machine. */
  datatype Op =
    | Scan(id: string)
    | RedeemGiftCard(code: string, today: int)
    | Cash(amount: int)
    | CreditCard(cardNumber: string)

  /** The state after one call; `validate` is the credit-card validator. */
  function Step(s: State, catalog: map<string, Product>, validate: string -> bool, op: Op): (s': State)
  {
    match op
    case Scan(id) => ScanProduct(s, catalog, id).0
    case RedeemGiftCard(code, today) => AddGiftCard(s, code, today).0
    case Cash(amount) => PayWithCash(s, amount).0
    case CreditCard(cardNumber) => PayWithCreditCard(s, validate(cardNumber))
  }

  /** The state after a sequence of calls. */
  function Run(s: State, catalog: map<string, Product>, validate: string -> bool, ops: seq<Op>): (s': State)
    decreases |ops|
  {
    if ops == [] then s else Run(Step(s, catalog, validate, ops[0]), catalog, validate, ops[1..])
  }

  /** The products a sequence of scans finds in the catalog, in scan order. */
  function Found(catalog: map<string, Product>, ids: seq<string>): (found: seq<Product>)
  {
    if ids == [] then []
    else (if ids[0] in catalog then [catalog[ids[0]]] else []) + Found(catalog, ids[1..])
  }

  /** A sequence of scans. */
  function Scans(ids: seq<string>): (ops: seq<Op>)
  {
    if ids == [] then [] else [Scan(ids[0])] + Scans(ids[1..])
  }

  /** Every cash amount in `ops` is at least zero. */
  ghost predicate NoNegativeCash(ops: seq<Op>) {
    forall i | 0 <= i < |ops| :: ops[i].Cash? ==> ops[i].amount >= 0
  }

  /** Every catalog price is at least zero. */
  ghost predicate PricesNonNegative(catalog: map<string, Product>) {
    forall id | id in catalog :: catalog[id].price >= 0
  }

  /** Every gift card is worth at least zero. */
  ghost predicate CardValuesNonNegative(cards: map<string, GiftCard>) {
    forall code | code in cards :: cards[code].value >= 0
  }

  // ---------------------------------------------------------------------
  // Properties
  // ---------------------------------------------------------------------

  /** Appending a product adds exactly its price to the sum of the cart. */
  lemma {:induction false} SumPricesAppend(cart: seq<Product>, p: Product)
    ensures SumPrices(cart + [p]) == SumPrices(cart) + p.price
  {
    if cart == [] {
      assert cart + [p] == [p];
      assert [p][1..] == [];
    } else {
      assert (cart + [p])[1..] == cart[1..] + [p];
      SumPricesAppend(cart[1..], p);
    }
  }

  /** The sum of two carts is the sum of their sums. */
  lemma {:induction false} SumPricesConcat(a: seq<Product>, b: seq<Product>)
    ensures SumPrices(a + b) == SumPrices(a) + SumPrices(b)
  {
    if a == [] {
      assert a + b == b;
    } else {
      assert (a + b)[1..] == a[1..] + b;
      SumPricesConcat(a[1..], b);
    }
  }

  /** A cart of catalog products costs at least zero when no catalog price is negative. */
  lemma {:induction false} SumPricesNonNegative(cart: seq<Product>, catalog: map<string, Product>)
    requires PricesNonNegative(catalog)
    requires FromCatalog(cart, catalog)
    ensures SumPrices(cart) >= 0
  {
    if cart != [] {
      assert cart[0] in catalog.Values;
      var id :| id in catalog && catalog[id] == cart[0];
      assert FromCatalog(cart[1..], catalog) by {
        forall i | 0 <= i < |cart[1..]| ensures cart[1..][i] in catalog.Values {
          assert cart[1..][i] == cart[i + 1];
        }
      }
      SumPricesNonNegative(cart[1..], catalog);
    }
  }

  /** A fresh session satisfies the invariant. */
  lemma InitialValid(catalog: map<string, Product>, giftCards: map<string, GiftCard>)
    ensures Valid(Initial(giftCards), catalog, giftCards)
  {
  }

  /** Every operation keeps the session invariant. */
  lemma StepValid(s: State, catalog: map<string, Product>, issued: map<string, GiftCard>,
                  validate: string -> bool, op: Op)
    requires Valid(s, catalog, issued)
    ensures Valid(Step(s, catalog, validate, op), catalog, issued)
  {
    if op.Scan? && op.id in catalog {
      var p := catalog[op.id];
      SumPricesAppend(s.shoppingCart, p);
      var cart := s.shoppingCart + [p];
      assert FromCatalog(cart, catalog) by {
        forall i | 0 <= i < |cart| ensures cart[i] in catalog.Values {
          if i < |s.shoppingCart| {
            assert cart[i] == s.shoppingCart[i];
          } else {
            assert cart[i] == p;
          }
        }
      }
    }
  }

  /** Any sequence of operations keeps the session invariant. */
  lemma {:induction false} RunValid(s: State, catalog: map<string, Product>, issued: map<string, GiftCard>,
                                    validate: string -> bool, ops: seq<Op>)
    requires Valid(s, catalog, issued)
    ensures Valid(Run(s, catalog, validate, ops), catalog, issued)
    decreases |ops|
  {
    if ops != [] {
      StepValid(s, catalog, issued, validate, ops[0]);
      RunValid(Step(s, catalog, validate, ops[0]), catalog, issued, validate, ops[1..]);
    }
  }

  /**
   * Once complete, a session stays complete whatever is called, and its
   * payments are frozen: the cash total, the change and the available gift
   * cards no longer move.
   */
  lemma {:induction false} CompletedIsFinal(s: State, catalog: map<string, Product>,
                                            validate: string -> bool, ops: seq<Op>)
    requires s.checkoutCompleted
    ensures var s' := Run(s, catalog, validate, ops);
      && s'.checkoutCompleted
      && s'.cashTotal == s.cashTotal && s'.change == s.change
      && s'.availableGiftCards == s.availableGiftCards
    decreases |ops|
  {
    if ops != [] {
      CompletedIsFinal(Step(s, catalog, validate, ops[0]), catalog, validate, ops[1..]);
    }
  }

  /** No operation makes a gift card available again or alters one that is. */
  lemma {:induction false} RunOnlyWithdrawsGiftCards(s: State, catalog: map<string, Product>,
                                                     validate: string -> bool, ops: seq<Op>)
    ensures var s' := Run(s, catalog, validate, ops);
      forall code | code in s'.availableGiftCards ::
        code in s.availableGiftCards && s'.availableGiftCards[code] == s.availableGiftCards[code]
    decreases |ops|
  {
    if ops != [] {
      RunOnlyWithdrawsGiftCards(Step(s, catalog, validate, ops[0]), catalog, validate, ops[1..]);
    }
  }

  /**
   * A gift card that has been accepted is never accepted again, whatever
   * happens in between and on whatever day it is presented again; an open
   * session reports it INVALID.
   */
  lemma RedeemedCardIsNeverAcceptedAgain(s: State, catalog: map<string, Product>, validate: string -> bool,
                                         code: string, today: int, ops: seq<Op>, later: int)
    requires AddGiftCard(s, code, today).1 == Success(Acceptable)
    ensures var s' := Run(AddGiftCard(s, code, today).0, catalog, validate, ops);
      && AddGiftCard(s', code, later).1 != Success(Acceptable)
      && (!s'.checkoutCompleted ==> AddGiftCard(s', code, later).1 == Success(Invalid))
  {
    var s1 := AddGiftCard(s, code, today).0;
    assert code !in s1.availableGiftCards;
    RunOnlyWithdrawsGiftCards(s1, catalog, validate, ops);
  }

  /** With no negative catalog prices, the purchase total never decreases. */
  lemma {:induction false} CurrentTotalNeverDecreases(s: State, catalog: map<string, Product>,
                                                      validate: string -> bool, ops: seq<Op>)
    requires PricesNonNegative(catalog)
    ensures Run(s, catalog, validate, ops).currentTotal >= s.currentTotal
    decreases |ops|
  {
    if ops != [] {
      var s1 := Step(s, catalog, validate, ops[0]);
      assert s1.currentTotal >= s.currentTotal;
      CurrentTotalNeverDecreases(s1, catalog, validate, ops[1..]);
    }
  }

  /** In a valid session over a catalog with no negative prices, the purchase total is at least zero. */
  lemma CurrentTotalNonNegative(s: State, catalog: map<string, Product>, issued: map<string, GiftCard>)
    requires Valid(s, catalog, issued)
    requires PricesNonNegative(catalog)
    ensures s.currentTotal >= 0
  {
    SumPricesNonNegative(s.shoppingCart, catalog);
  }

  /**
   * With no negative gift-card values and no negative cash amounts, the cash
   * total never decreases.
   */
  lemma {:induction false} CashTotalNeverDecreases(s: State, catalog: map<string, Product>,
                                                   validate: string -> bool, ops: seq<Op>)
    requires CardValuesNonNegative(s.availableGiftCards)
    requires NoNegativeCash(ops)
    ensures Run(s, catalog, validate, ops).cashTotal >= s.cashTotal
    decreases |ops|
  {
    if ops != [] {
      var s1 := Step(s, catalog, validate, ops[0]);
      assert s1.cashTotal >= s.cashTotal by {
        assert ops[0].Cash? ==> ops[0].amount >= 0;
      }
      assert CardValuesNonNegative(s1.availableGiftCards) by {
        RunOnlyWithdrawsGiftCards(s, catalog, validate, [ops[0]]);
        assert Run(s, catalog, validate, [ops[0]]) == s1 by {
          assert [ops[0]][1..] == [];
        }
      }
      assert NoNegativeCash(ops[1..]) by {
        forall i | 0 <= i < |ops[1..]| ensures ops[1..][i].Cash? ==> ops[1..][i].amount >= 0 {
          assert ops[1..][i] == ops[i + 1];
        }
      }
      CashTotalNeverDecreases(s1, catalog, validate, ops[1..]);
    }
  }

  /**
   * Only a cash payment that completes an open session sets the change, and
   * it sets it to the cash total's excess over the purchase total.
   */
  lemma ChangeIsSetOnlyByCompletingCash(s: State, catalog: map<string, Product>,
                                        validate: string -> bool, op: Op)
    ensures var s' := Step(s, catalog, validate, op);
      s'.change != s.change ==>
        && op.Cash? && !s.checkoutCompleted && s'.checkoutCompleted
        && s'.change == s'.cashTotal - s'.currentTotal
  {
  }

  /**
   * A sequence of scans appends the products found in the catalog, in order,
   * and adds exactly their prices to the total; nothing else changes.
   */
  lemma {:induction false} ScansAddFoundProducts(s: State, catalog: map<string, Product>,
                                                 validate: string -> bool, ids: seq<string>)
    ensures var s' := Run(s, catalog, validate, Scans(ids));
      && s'.shoppingCart == s.shoppingCart + Found(catalog, ids)
      && s'.currentTotal == s.currentTotal + SumPrices(Found(catalog, ids))
      && s'.cashTotal == s.cashTotal && s'.change == s.change
      && s'.checkoutCompleted == s.checkoutCompleted
      && s'.availableGiftCards == s.availableGiftCards
    decreases |ids|
  {
    if ids != [] {
      var ops := Scans(ids);
      assert ops[0] == Scan(ids[0]) && ops[1..] == Scans(ids[1..]);
      var s1 := Step(s, catalog, validate, ops[0]);
      ScansAddFoundProducts(s1, catalog, validate, ids[1..]);
      var head := if ids[0] in catalog then [catalog[ids[0]]] else [];
      SumPricesConcat(head, Found(catalog, ids[1..]));
      assert s1.shoppingCart == s.shoppingCart + head;
      assert s1.currentTotal == s.currentTotal + SumPrices(head);
    }
  }

  /** From a fresh session, scanning leaves exactly the products found in the cart, the total at their sum and the session open. */
  lemma ScansFromFreshSession(catalog: map<string, Product>, giftCards: map<string, GiftCard>,
                              validate: string -> bool, ids: seq<string>)
    ensures var s' := Run(Initial(giftCards), catalog, validate, Scans(ids));
      && s'.shoppingCart == Found(catalog, ids)
      && s'.currentTotal == SumPrices(Found(catalog, ids))
      && !s'.checkoutCompleted
  {
    ScansAddFoundProducts(Initial(giftCards), catalog, validate, ids);
  }
}
