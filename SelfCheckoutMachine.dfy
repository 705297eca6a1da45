/**
 * The self-checkout machine: one customer's checkout session, held in
 * mutable fields and changed in place by its four operations.  Each
 * operation is specified by the matching transition of module `Session`,
 * applied to the state the machine held before the call.
 */
module SelfCheckout {
  import opened Wrappers
  import opened Store
  import Session

  class SelfCheckoutMachine {
    var shoppingCart: seq<Product>
    var currentTotal: int
    var cashTotal: int
    var change: int
    var checkoutCompleted: bool
    var availableGiftCardMap: map<string, GiftCard>

    /** The store's product catalog, by product id. */
    const productMap: map<string, Product>
    /** The credit-card validator. */
    const ccValidator: string -> bool
    /** The gift cards the store had issued when the session began. */
    ghost const issuedGiftCards: map<string, GiftCard>

    /** The machine's fields as a session state. */
    function AsSession(): Session.State
      reads this
    {
      Session.State(shoppingCart, currentTotal, cashTotal, change, checkoutCompleted, availableGiftCardMap)
    }

    /** The object invariant: the session invariant over this machine's catalog and cards. */
    ghost predicate Valid()
      reads this
    {
      Session.Valid(AsSession(), productMap, issuedGiftCards)
    }

    /** A fresh session over the given catalog, gift cards and validator. */
    constructor (productMap: map<string, Product>, giftCardMap: map<string, GiftCard>,
                 ccValidator: string -> bool)
      ensures Valid()
      ensures AsSession() == Session.Initial(giftCardMap)
      ensures this.productMap == productMap && this.ccValidator == ccValidator
      ensures issuedGiftCards == giftCardMap
    {
      shoppingCart := [];
      currentTotal := 0;
      cashTotal := 0;
      change := 0;
      checkoutCompleted := false;
      availableGiftCardMap := giftCardMap;
      this.productMap := productMap;
      this.ccValidator := ccValidator;
      issuedGiftCards := giftCardMap;
    }

    /** Scan a product id; returns its price, or `None` for an id the catalog does not know. */
    method ScanProduct(id: string) returns (price: Option<int>)
      requires Valid()
      modifies this
      ensures Valid()
      ensures (AsSession(), price) == Session.ScanProduct(old(AsSession()), productMap, id)
    {
      ghost var before := AsSession();
      if id in productMap {
        var product := productMap[id];
        shoppingCart := shoppingCart + [product];
        var p := product.price;
        currentTotal := currentTotal + p;
        price := Some(p);
      } else {
        price := None;
      }
      Session.StepValid(before, productMap, issuedGiftCards, ccValidator, Session.Scan(id));
    }

    /** Present a gift card on the day `today`; fails once the checkout is completed. */
    method AddGiftCard(code: string, today: int) returns (r: Result<GiftCardState, Session.CheckoutError>)
      requires Valid()
      modifies this
      ensures Valid()
      ensures (AsSession(), r) == Session.AddGiftCard(old(AsSession()), code, today)
    {
      if checkoutCompleted {
        return Failure(Session.CheckoutCompleted);
      }
      if code !in availableGiftCardMap {
        return Success(Invalid);
      }
      var giftCard := availableGiftCardMap[code];
      if giftCard.IsExpired(today) {
        return Success(Expired);
      }
      cashTotal := cashTotal + giftCard.value;
      if cashTotal >= currentTotal {
        checkoutCompleted := true;
      }
      availableGiftCardMap := availableGiftCardMap - {code};
      return Success(Acceptable);
    }

    /** Tender `value` in cash; fails once the checkout is completed. */
    method PayWithCash(value: int) returns (r: Outcome<Session.CheckoutError>)
      requires Valid()
      modifies this
      ensures Valid()
      ensures (AsSession(), r) == Session.PayWithCash(old(AsSession()), value)
    {
      if checkoutCompleted {
        return Fail(Session.CheckoutCompleted);
      }
      cashTotal := cashTotal + value;
      if cashTotal >= currentTotal {
        checkoutCompleted := true;
        change := cashTotal - currentTotal;
      }
      return Pass;
    }

    /** Pay by credit card: the checkout completes when the validator approves the number. */
    method PayWithCreditCard(cardNumber: string)
      requires Valid()
      modifies this
      ensures Valid()
      ensures AsSession() == Session.PayWithCreditCard(old(AsSession()), ccValidator(cardNumber))
    {
      if ccValidator(cardNumber) {
        checkoutCompleted := true;
      }
    }

    /** The products scanned so far, in scan order; each is a catalog product and together they cost the total. */
    function GetShoppingCart(): (cart: seq<Product>)
      reads this
      requires Valid()
      ensures Session.SumPrices(cart) == currentTotal
      ensures forall i | 0 <= i < |cart| :: cart[i] in productMap.Values
    {
      shoppingCart
    }

    /** The purchase total: the sum of the prices in the cart. */
    function GetCurrentTotal(): (total: int)
      reads this
      requires Valid()
      ensures total == Session.SumPrices(shoppingCart)
    {
      currentTotal
    }

    /** The sum of the payments taken in gift cards and cash. */
    function GetCashTotal(): int
      reads this
    {
      cashTotal
    }

    /** The change owed: never negative, and zero while the checkout is still open. */
    function GetChange(): (c: int)
      reads this
      requires Valid()
      ensures c >= 0
      ensures !checkoutCompleted ==> c == 0
    {
      change
    }

    /** Whether the checkout is completed; an open checkout owes no change. */
    function IsCheckoutCompleted(): (done: bool)
      reads this
      requires Valid()
      ensures !done ==> change == 0
    {
      checkoutCompleted
    }
  }
}
