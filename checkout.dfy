/**
 * The order and cart state that `process_payment` changes. WooCommerce owns
 * these objects; the model keeps only the parts the gateway reads or writes.
 */
module Checkout {

  const OnHold := "on-hold"

  /** The post-meta keys under which the payment record is stored on the order. */
  const AddressMetaKey := "_accept_bitcoin_btc_address"
  const AmountMetaKey := "_accept_bitcoin_btc_amount"
  const RateMetaKey := "_accept_bitcoin_exchange_rate"

  /** A post-meta value: the address is text, the two amounts are numbers. */
  datatype MetaValue = Text(text: string) | Number(number: real)

  /** The notes the gateway adds to an order. */
  datatype Note =
    | AwaitingPayment
      // the note passed with the change to on-hold
    | ConversionNote(amount: real, currency: string, btcAmount: real, exchangeRate: real, address: string)
      // the customer note recording the conversion

  datatype CartItem = CartItem(productId: nat, quantity: nat)

  /** The outcome of `process_payment`: the redirect array, or the error the unguarded division raises. */
  datatype PaymentOutcome = Success(redirect: string) | DivisionByZero

  class Order {
    const total: real
    const currency: string
    const paymentMethod: string
    var status: string
    /** Whether `payment_complete()` was called on the order. */
    var paymentCompleted: bool
    var meta: map<string, MetaValue>
    var notes: seq<Note>

    constructor (total: real, currency: string, paymentMethod: string, status: string)
      ensures this.total == total && this.currency == currency && this.paymentMethod == paymentMethod
      ensures this.status == status && !paymentCompleted && meta == map[] && notes == []
    {
      this.total := total;
      this.currency := currency;
      this.paymentMethod := paymentMethod;
      this.status := status;
      paymentCompleted := false;
      meta := map[];
      notes := [];
    }
  }

  class Cart {
    var items: seq<CartItem>

    constructor (items: seq<CartItem>)
      ensures this.items == items
    {
      this.items := items;
    }
  }

  /**
   * The three meta entries written for an order awaiting payment: the
   * address, the BTC amount and the exchange rate `amount / btc_amount`.
   */
  function PaymentMeta(address: string, amount: real, btcAmount: real): (m: map<string, MetaValue>)
    requires btcAmount != 0.0
    ensures m.Keys == {AddressMetaKey, AmountMetaKey, RateMetaKey}
    ensures m[AddressMetaKey] == Text(address) && m[AmountMetaKey] == Number(btcAmount)
    ensures m[RateMetaKey] == Number(amount / btcAmount)
  {
    map[AddressMetaKey := Text(address), AmountMetaKey := Number(btcAmount), RateMetaKey := Number(amount / btcAmount)]
  }

  /**
   * In exact (real) arithmetic, the recorded exchange rate converts the BTC
   * amount back to the order total, and a positive total converted to a
   * positive BTC amount gives a positive rate.
   */
  lemma ExchangeRateRecoversTotal(address: string, amount: real, btcAmount: real)
    requires btcAmount != 0.0
    ensures PaymentMeta(address, amount, btcAmount)[RateMetaKey].number * btcAmount == amount
    ensures amount > 0.0 && btcAmount > 0.0 ==> PaymentMeta(address, amount, btcAmount)[RateMetaKey].number > 0.0
  {
  }

  /** Writing the three entries one at a time overwrites exactly the keys of PaymentMeta. */
  lemma PaymentMetaUpdates(meta: map<string, MetaValue>, address: string, amount: real, btcAmount: real)
    requires btcAmount != 0.0
    ensures meta[AddressMetaKey := Text(address)][AmountMetaKey := Number(btcAmount)][RateMetaKey := Number(amount / btcAmount)]
         == meta + PaymentMeta(address, amount, btcAmount)
  {
  }

  /** An order of 100 converted to 0.0025 BTC records an exchange rate of 40000. */
  lemma PaymentMetaExample(address: string)
    ensures PaymentMeta(address, 100.0, 0.0025)[RateMetaKey] == Number(40000.0)
  {
  }
}
