/** The store's immutable records: catalog products and gift cards. */
module Store {

  /** A catalog product; `price` is a whole number of currency units. */
  datatype Product = Product(id: string, name: string, price: int)

  /**
   * A gift card. `expirationDate` is a day number: a card expires once the
   * day it is dated has passed, so a card dated today is still good.
   */
  datatype GiftCard = GiftCard(code: string, value: int, expirationDate: int) {
    predicate IsExpired(today: int) {
      expirationDate < today
    }
  }

  /** The outcome of presenting a gift card at the till. */
  datatype GiftCardState = Acceptable | Invalid | Expired
}
