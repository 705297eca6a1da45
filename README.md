# Self-checkout machine: a verified model

This project models the checkout session of the `SelfCheckoutMachine` kata.
One machine serves one customer. The customer scans products, then pays with
any mix of gift cards, cash and a credit card. The session holds:

- the cart of scanned products;
- the purchase total, the payments taken in gift cards and cash (the cash
  total) and the change owed;
- a completed flag;
- the gift cards that can still be redeemed.

The model has five modules, one file each:

- `Wrappers` (Wrappers.dfy): `Option`, `Result` and `Outcome`. These replace
  Java's `null` return and the "Checkout Completed" exception.
- `Store` (Store.dfy): the immutable records `Product` and `GiftCard`, and the
  gift-card outcome `GiftCardState` (`Acceptable`, `Invalid`, `Expired`).
- `Session` (Session.dfy): the session state as a value. It has one
  transition function per operation (`ScanProduct`, `AddGiftCard`,
  `PayWithCash`, `PayWithCreditCard`), the session invariant `Valid`, and
  `Step`/`Run`, which apply a call or a sequence of calls. The lemmas state
  what each transition does and what every sequence of calls keeps.
- `SelfCheckout` (SelfCheckoutMachine.dfy): the class `SelfCheckoutMachine`.
  Its mutable fields match the Java fields. Each method changes them in place
  and promises two things: the object invariant `Valid()` still holds, and
  the new fields and the result are what the matching `Session` transition
  gives for the old fields. The accessors are functions that only read.
- `Scenarios` (Scenarios.dfy): each JUnit scenario of
  `SelfCheckoutMachineTest.java` as a client method. Its assertions follow
  from the class contracts alone. The store's catalog and gift cards are
  inputs, so the fixture in that file is an assumption, chosen to agree with
  every scenario: ABC0001 costs 5000, ABC0002 costs 6000, 987ZYX is a good
  card worth 10000, and 987PIS and 987BKD are expired. 987PIS has to count
  for nothing because the scenario `AddSeveralGiftCards` requires it.

Modelling decisions:

- Money is an unbounded `int`.
- A gift card's expiration date is a day number. `IsExpired(today)` holds
  when that day is before `today`: a card dated yesterday is expired and one
  dated today is not.
- The store's catalog and its gift-card map are constructor inputs. The
  credit-card validator is a constructor input too, of type `string -> bool`.
- `GetCashTotal` has no contract and so no row below. It returns the cash
  total, which the operations' contracts describe.

## Model

| member | source | states |
|---|---|---|
| `SelfCheckout.SelfCheckoutMachine.constructor` | self-checkout/src/main/java/com/verint/kata/mutation/SelfCheckoutMachine.java:16-29 | A new machine has an empty cart, zero totals and zero change, and is not completed. Its available gift cards are the store's issued cards. It keeps the given catalog and validator, and satisfies the invariant. |
| `SelfCheckout.SelfCheckoutMachine.ScanProduct` | self-checkout/src/main/java/com/verint/kata/mutation/SelfCheckoutMachine.java:31-40 | The new fields and the returned price are those of `Session.ScanProduct` applied to the old fields and the catalog. The invariant is kept, so the total is still the sum of the cart. |
| `SelfCheckout.SelfCheckoutMachine.AddGiftCard` | self-checkout/src/main/java/com/verint/kata/mutation/SelfCheckoutMachine.java:42-61 | The new fields and the returned outcome or error are those of `Session.AddGiftCard` on the old fields. The invariant is kept. |
| `SelfCheckout.SelfCheckoutMachine.PayWithCash` | self-checkout/src/main/java/com/verint/kata/mutation/SelfCheckoutMachine.java:63-73 | The new fields and the pass or error are those of `Session.PayWithCash` on the old fields. The invariant is kept. |
| `SelfCheckout.SelfCheckoutMachine.PayWithCreditCard` | self-checkout/src/main/java/com/verint/kata/mutation/SelfCheckoutMachine.java:75-79 | The new fields are those of `Session.PayWithCreditCard` on the old fields, given the validator's verdict on the card number. The invariant is kept. |
| `SelfCheckout.SelfCheckoutMachine.GetShoppingCart` | self-checkout/src/main/java/com/verint/kata/mutation/SelfCheckoutMachine.java:81-83 | The returned cart holds only catalog products, and their prices add up to the current total. |
| `SelfCheckout.SelfCheckoutMachine.GetCurrentTotal` | self-checkout/src/main/java/com/verint/kata/mutation/SelfCheckoutMachine.java:85-87 | The total returned is the sum of the prices of the products in the cart. |
| `SelfCheckout.SelfCheckoutMachine.GetChange` | self-checkout/src/main/java/com/verint/kata/mutation/SelfCheckoutMachine.java:93-95 | The change is never negative, and it is zero while the checkout is open. |
| `SelfCheckout.SelfCheckoutMachine.IsCheckoutCompleted` | self-checkout/src/main/java/com/verint/kata/mutation/SelfCheckoutMachine.java:97-99 | An open checkout owes no change. |
| `Session.ScanProductEffect` | self-checkout/src/main/java/com/verint/kata/mutation/SelfCheckoutMachine.java:31-40 | A price comes back exactly when the id is in the catalog. A known id returns that product's price and appends the product once, at the end of the cart. Its price is added to the total. It is not guarded by completion, and payments, change, the completed flag and the gift cards stay as they were. An unknown id changes nothing. |
| `Session.AddGiftCardEffect` | self-checkout/src/main/java/com/verint/kata/mutation/SelfCheckoutMachine.java:42-61 | On a completed session the result is the CheckoutCompleted error and nothing changes. An unknown code is INVALID. An expired card is EXPIRED and stays available. Neither of those two changes anything. ACCEPTABLE comes back exactly when the session is open and the card is available and not expired. Then the card's value is added to the cash total once and the card is withdrawn. The session completes exactly when the cash total covers the total. Change, the cart and the total do not change. |
| `Session.PayWithCashEffect` | self-checkout/src/main/java/com/verint/kata/mutation/SelfCheckoutMachine.java:63-73 | The result is an error exactly when the session is completed, and then nothing changes. Otherwise the amount is added to the cash total, and the session completes exactly when the cash total covers the total. On completion the change is the excess, which is at least 0. If the session stays open, change keeps its value. Cart, total and gift cards do not change. |
| `Session.PayWithCreditCardEffect` | self-checkout/src/main/java/com/verint/kata/mutation/SelfCheckoutMachine.java:75-79 | An approval sets only the completed flag, even when the cash total is short. A decline changes nothing. |
| `Session.SumPricesAppend` | self-checkout/src/main/java/com/verint/kata/mutation/SelfCheckoutMachine.java:34-36 | Appending a product to the cart adds exactly its price to the sum of the cart's prices, so the total stays that sum. |
| `Session.InitialValid` | self-checkout/src/main/java/com/verint/kata/mutation/SelfCheckoutMachine.java:16-29 | A fresh session satisfies the invariant: total equals the cart's sum (both zero), change is 0, and the gift cards are the issued ones. |
| `Session.StepValid` | self-checkout/src/main/java/com/verint/kata/mutation/SelfCheckoutMachine.java:31-79 | Every operation keeps four facts: the total is the sum of the cart, change is not negative, change is zero while the session is open, and the cart holds catalog products. The available cards also remain unchanged issued cards. |
| `Session.RunValid` | self-checkout/src/main/java/com/verint/kata/mutation/SelfCheckoutMachine.java:31-79 | Any sequence of calls keeps the invariant; in particular the total always equals the sum of the cart and change is never negative. |
| `Session.CompletedIsFinal` | self-checkout/src/main/java/com/verint/kata/mutation/SelfCheckoutMachine.java:42-79 | Once the session is completed, it stays completed after any sequence of calls. The cash total, the change and the available gift cards do not move again. |
| `Session.RunOnlyWithdrawsGiftCards` | self-checkout/src/main/java/com/verint/kata/mutation/SelfCheckoutMachine.java:47-60 | After any sequence of calls, every available card was available before, with the same data. Cards are only ever withdrawn. |
| `Session.RedeemedCardIsNeverAcceptedAgain` | self-checkout/src/main/java/com/verint/kata/mutation/SelfCheckoutMachine.java:47-60 | Once a card has been accepted, it is never accepted again, whatever calls come between and whatever day it is presented. An open session reports it INVALID. |
| `Session.CurrentTotalNeverDecreases` | self-checkout/src/main/java/com/verint/kata/mutation/SelfCheckoutMachine.java:31-40 | With no negative catalog prices, no sequence of calls lowers the total. |
| `Session.CurrentTotalNonNegative` | self-checkout/src/main/java/com/verint/kata/mutation/SelfCheckoutMachine.java:31-40 | In a valid session whose catalog has no negative prices, the total is at least 0. |
| `Session.SumPricesNonNegative` | self-checkout/src/main/java/com/verint/kata/mutation/SelfCheckoutMachine.java:34-36 | A cart of products from a catalog with no negative prices costs at least 0. |
| `Session.CashTotalNeverDecreases` | self-checkout/src/main/java/com/verint/kata/mutation/SelfCheckoutMachine.java:55-72 | With no negative gift-card values and no negative cash amounts, no sequence of calls lowers the cash total. |
| `Session.ChangeIsSetOnlyByCompletingCash` | self-checkout/src/main/java/com/verint/kata/mutation/SelfCheckoutMachine.java:68-72 | Only a cash payment that completes an open session changes the change. It sets it to the cash total minus the total. |
| `Session.ScansAddFoundProducts` | self-checkout/src/main/java/com/verint/kata/mutation/SelfCheckoutMachine.java:31-40 | Any sequence of scans appends the products found in the catalog, in scan order, and adds exactly their prices to the total. Nothing else changes. |
| `Session.ScansFromFreshSession` | self-checkout/src/test/java/com/verint/kata/mutation/SelfCheckoutMachineTest.java:43-58 | From a fresh session, scanning leaves the cart equal to the products found: one entry per valid scan. The total is their sum, and the session stays open. |

## Left out

- Floating point: the source keeps money in `Double`. The model uses whole numbers, so it does not model rounding.
- The store's builder, and the `Product` and `GiftCard` classes, are not part of this model. The catalog and the initial gift-card map are inputs, and the two classes are immutable records. The scenario fixture is an assumption about that input.
- The wall clock: `GiftCard.isExpired()` reads the current date, as its tests show (GiftCardTest.java:37-54). The model passes the day in (`today`) and assumes day granularity.
- The credit-card validator is a fixed function given at construction. A validator whose answers change between calls, such as a mock re-stubbed mid-session, is not modelled.
- Sharing the gift-card map between machines or threads is not modelled. Each machine owns its map, so a card redeemed on one machine is still available on another built with the same map.
- `getShoppingCart` in the source returns the live list, so a caller could change the cart behind the machine's back and break the total invariant. The model returns the cart as a value.
- Java exceptions: the "Checkout Completed" exception is the `Failure`/`Fail` value `CheckoutCompleted`.
- Receipt printing is not modelled. It appears only in a commented-out test and has no implementation.
- Session.CashTotalNeverDecreases: assumes no negative cash amounts and no negative gift-card values. The source accepts any amount, and a negative one lowers the cash total.
- Session.CurrentTotalNeverDecreases: assumes no negative catalog prices. The source does not check prices, and a negative one lowers the total.
