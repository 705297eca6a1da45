/**
 * The machine's unit-test scenarios, written as client code that relies only
 * on the contracts of `SelfCheckout.SelfCheckoutMachine`.
 *
 * The store's catalog and gift cards are inputs to the model, so the
 * fixture below is an assumption about them, chosen to agree with every
 * scenario: product ABC0001 costs 5000 and ABC0002 costs 6000; gift card
 * 987ZYX is worth 10000 and is still good; 987PIS and 987BKD are expired.
 */
module Scenarios {
  import opened Wrappers
  import opened Store
  import opened SelfCheckout
  import Session

  /** The day every scenario runs on. */
  const Today := 20000

  function Catalog(): map<string, Product> {
    map[
      "ABC0001" := Product("ABC0001", "Product 1", 5000),
      "ABC0002" := Product("ABC0002", "Product 2", 6000)
    ]
  }

  function GiftCards(): map<string, GiftCard> {
    map[
      "987ZYX" := GiftCard("987ZYX", 10000, Today + 365),
      "987PIS" := GiftCard("987PIS", 10000, Today - 30),
      "987BKD" := GiftCard("987BKD", 10000, Today - 1)
    ]
  }

  /** A validator that declines every card. */
  function Declines(cardNumber: string): bool { false }

  /** A validator that approves card number 123 only. */
  function Approves123(cardNumber: string): bool { cardNumber == "123" }

  method NewMachine(validator: string -> bool) returns (m: SelfCheckoutMachine)
    ensures fresh(m) && m.Valid()
    ensures m.AsSession() == Session.Initial(GiftCards())
    ensures m.productMap == Catalog() && m.ccValidator == validator
  {
    m := new SelfCheckoutMachine(Catalog(), GiftCards(), validator);
  }

  method ScanValidProductReturnsPrice() {
    var m := NewMachine(Declines);
    var price := m.ScanProduct("ABC0001");
    assert price == Some(5000);
  }

  method ScanInvalidProductReturnsNothing() {
    var m := NewMachine(Declines);
    var price := m.ScanProduct("XYZ");
    assert price == None;
  }

  method ScanValidProductsUpdatesCartAndTotal() {
    var m := NewMachine(Declines);
    var _ := m.ScanProduct("ABC0001");
    var _ := m.ScanProduct("ABC0002");
    assert |m.GetShoppingCart()| == 2;
    assert m.GetCurrentTotal() == 11000;
  }

  method ScanInvalidProductLeavesCartAndTotal() {
    var m := NewMachine(Declines);
    var _ := m.ScanProduct("ABC0001");
    var _ := m.ScanProduct("XYZ");
    assert |m.GetShoppingCart()| == 1;
    assert m.GetCurrentTotal() == 5000;
  }

  method AddValidGiftCard() {
    var m := NewMachine(Declines);
    var state := m.AddGiftCard("987ZYX", Today);
    assert state == Success(Acceptable);
    assert m.GetCashTotal() == 10000;
  }

  method AddInvalidGiftCard() {
    var m := NewMachine(Declines);
    var state := m.AddGiftCard("XYZ", Today);
    assert state == Success(Invalid);
    assert m.GetCashTotal() == 0;
  }

  method AddExpiredGiftCard() {
    var m := NewMachine(Declines);
    var state := m.AddGiftCard("987BKD", Today);
    assert state == Success(Expired);
    assert m.GetCashTotal() == 0;
  }

  method AddGiftCardExceedingTotal() {
    var m := NewMachine(Declines);
    var _ := m.ScanProduct("ABC0001");
    var state := m.AddGiftCard("987ZYX", Today);
    assert state == Success(Acceptable);
    assert m.GetCurrentTotal() == 5000 && m.GetCashTotal() == 10000;
    assert m.GetChange() == 0 && m.IsCheckoutCompleted();
  }

  method AddGiftCardAfterCompletionFails() {
    var m := NewMachine(Declines);
    var _ := m.ScanProduct("ABC0001");
    var state := m.AddGiftCard("987ZYX", Today);
    assert state == Success(Acceptable);
    var second := m.AddGiftCard("987PIS", Today);
    assert second == Failure(Session.CheckoutCompleted);
  }

  method AddGiftCardBelowTotal() {
    var m := NewMachine(Declines);
    var _ := m.ScanProduct("ABC0001");
    var _ := m.ScanProduct("ABC0001");
    var _ := m.ScanProduct("ABC0001");
    var state := m.AddGiftCard("987ZYX", Today);
    assert state == Success(Acceptable);
    assert m.GetCurrentTotal() == 15000 && m.GetCashTotal() == 10000;
    assert m.GetChange() == 0 && !m.IsCheckoutCompleted();
  }

  method AddSeveralGiftCards() {
    var m := NewMachine(Declines);
    var _ := m.ScanProduct("ABC0001");
    var _ := m.ScanProduct("ABC0001");
    var _ := m.ScanProduct("ABC0001");
    var _ := m.ScanProduct("ABC0001");
    var _ := m.AddGiftCard("987ZYX", Today);
    var _ := m.AddGiftCard("987PIS", Today);
    assert m.GetCurrentTotal() == 20000 && m.GetCashTotal() == 10000;
    assert m.GetChange() == 0 && !m.IsCheckoutCompleted();
  }

  method AddSameGiftCardTwice() {
    var m := NewMachine(Declines);
    var _ := m.ScanProduct("ABC0001");
    var _ := m.ScanProduct("ABC0001");
    var _ := m.ScanProduct("ABC0001");
    var _ := m.ScanProduct("ABC0001");
    var _ := m.AddGiftCard("987ZYX", Today);
    var state := m.AddGiftCard("987ZYX", Today);
    assert state == Success(Invalid);
    assert m.GetCurrentTotal() == 20000 && m.GetCashTotal() == 10000;
    assert m.GetChange() == 0 && !m.IsCheckoutCompleted();
  }

  method PayWithExactSingleCash() {
    var m := NewMachine(Declines);
    var _ := m.ScanProduct("ABC0001");
    var _ := m.ScanProduct("ABC0002");
    var r := m.PayWithCash(11000);
    assert r == Pass;
    assert m.GetCurrentTotal() == 11000 && m.GetCashTotal() == 11000;
    assert m.GetChange() == 0 && m.IsCheckoutCompleted();
  }

  method PayWithExactMultipleCash() {
    var m := NewMachine(Declines);
    var _ := m.ScanProduct("ABC0001");
    var _ := m.ScanProduct("ABC0002");
    var _ := m.PayWithCash(1000);
    var _ := m.PayWithCash(10000);
    assert m.GetCurrentTotal() == 11000 && m.GetCashTotal() == 11000;
    assert m.GetChange() == 0 && m.IsCheckoutCompleted();
  }

  method PayWithCashAfterCompletionFails() {
    var m := NewMachine(Declines);
    var _ := m.ScanProduct("ABC0001");
    var _ := m.ScanProduct("ABC0002");
    var _ := m.PayWithCash(1000);
    var _ := m.PayWithCash(10000);
    var r := m.PayWithCash(10000);
    assert r == Fail(Session.CheckoutCompleted);
    assert m.GetCashTotal() == 11000;
  }

  method PayWithCashAndReturnChange() {
    var m := NewMachine(Declines);
    var _ := m.ScanProduct("ABC0001");
    var _ := m.ScanProduct("ABC0002");
    var _ := m.PayWithCash(5000);
    var _ := m.PayWithCash(10000);
    assert m.GetCurrentTotal() == 11000 && m.GetCashTotal() == 15000;
    assert m.GetChange() == 4000 && m.IsCheckoutCompleted();
  }

  method PayWithCashNotCompleted() {
    var m := NewMachine(Declines);
    var _ := m.ScanProduct("ABC0001");
    var _ := m.ScanProduct("ABC0002");
    var _ := m.PayWithCash(5000);
    assert m.GetCurrentTotal() == 11000 && m.GetCashTotal() == 5000;
    assert m.GetChange() == 0 && !m.IsCheckoutCompleted();
  }

  method GiftCardAndCash() {
    var m := NewMachine(Declines);
    var _ := m.ScanProduct("ABC0001");
    var _ := m.ScanProduct("ABC0001");
    var _ := m.ScanProduct("ABC0001");
    var _ := m.AddGiftCard("987ZYX", Today);
    var _ := m.PayWithCash(10000);
    assert m.GetCurrentTotal() == 15000 && m.GetCashTotal() == 20000;
    assert m.GetChange() == 5000 && m.IsCheckoutCompleted();
  }

  method GiftCardAndCashNotCompleted() {
    var m := NewMachine(Declines);
    var _ := m.ScanProduct("ABC0001");
    var _ := m.ScanProduct("ABC0001");
    var _ := m.ScanProduct("ABC0001");
    var _ := m.ScanProduct("ABC0001");
    var _ := m.ScanProduct("ABC0001");
    var _ := m.AddGiftCard("987ZYX", Today);
    var _ := m.PayWithCash(10000);
    assert m.GetCurrentTotal() == 25000 && m.GetCashTotal() == 20000;
    assert m.GetChange() == 0 && !m.IsCheckoutCompleted();
  }

  method PayWithCreditCardAccepted() {
    var m := NewMachine(Approves123);
    var _ := m.ScanProduct("ABC0001");
    m.PayWithCreditCard("123");
    assert m.IsCheckoutCompleted();
    assert m.GetCurrentTotal() == 5000 && m.GetCashTotal() == 0 && m.GetChange() == 0;
  }

  method PayWithCreditCardDeclinedThenGiftCard() {
    var m := NewMachine(Declines);
    var _ := m.ScanProduct("ABC0001");
    m.PayWithCreditCard("123");
    assert !m.IsCheckoutCompleted();
    var _ := m.AddGiftCard("987ZYX", Today);
    assert m.GetCurrentTotal() == 5000 && m.GetCashTotal() == 10000;
    assert m.GetChange() == 0 && m.IsCheckoutCompleted();
  }

  /** The card dated yesterday is expired; one dated today is not. */
  method GiftCardExpiry() {
    assert GiftCard("", 0, Today - 1).IsExpired(Today);
    assert !GiftCard("", 0, Today).IsExpired(Today);
  }
}
