/**
 * The `WC_Gateway_Accept_Bitcoin` payment gateway and the filter that
 * registers it. The gateway object holds the stored settings option; the
 * request data (`$_POST`, the admin flag, the BTC conversion result, the
 * return URL) are parameters.
 */
module Gateway {
  import opened Options
  import opened Settings
  import opened Checkout

  const GatewayId := "accept_bitcoin"
  const GatewayClass := "WC_Gateway_Accept_Bitcoin"

  const InstructionsText := "Your order has been received. See payment instructions below to complete your purchase."
  const ThankYouText := "Thank you. Your order has been received."

  /** The address written to the order: a missing `btc_address` reads as `null`, stored as the empty string. */
  function StoredAddress(stored: Option<SettingsMap>): string
  {
    match Get(stored, AddressKey)
    case Some(a) => a
    case None => ""
  }

  class AcceptBitcoinGateway {
    const id: string
    /** The stored `woocommerce_accept_bitcoin_settings` option. */
    var option: Option<SettingsMap>
    var title: string
    var description: string

    /** Writes the defaults if no settings are stored, then reads the title and description. */
    constructor (stored: Option<SettingsMap>)
      ensures id == GatewayId
      ensures option == InitialOption(stored)
      ensures title == DisplayValue(option, TitleKey, DefaultTitle)
      ensures description == DisplayValue(option, DescriptionKey, DefaultDescription)
    {
      id := GatewayId;
      var settings := stored;
      if IsFalsy(settings) {
        settings := Some(Defaults);
      }
      option := settings;
      title := DisplayValue(settings, TitleKey, DefaultTitle);
      description := DisplayValue(settings, DescriptionKey, DefaultDescription);
    }

    /**
     * Saves the settings form: copies the stored settings, overwrites
     * `enabled` and each posted text setting, and stores the copy.
     */
    method ProcessAdminOptions(posted: map<string, string>, sanitize: string -> string)
      modifies this`option
      ensures option == Some(AdminUpdate(OrEmpty(old(option)), posted, sanitize))
    {
      var settings := OrEmpty(option);
      AdminUpdateByAssignment(settings, posted, sanitize);
      if FieldFor(EnabledKey) in posted {
        settings := settings[EnabledKey := "yes"];
      } else {
        settings := settings[EnabledKey := "no"];
      }
      settings := PostText(settings, posted, sanitize, TitleKey);
      settings := PostText(settings, posted, sanitize, DescriptionKey);
      settings := PostText(settings, posted, sanitize, AddressKey);
      option := Some(settings);
    }

    /**
     * Places an order with this gateway. An order total of zero or less is
     * marked paid. Otherwise the order goes on hold, the total is divided by
     * the BTC amount `btcAmount` (the conversion result), and the address,
     * BTC amount and rate are written as meta with a customer note. The
     * division is unguarded: a BTC amount of zero raises an error after the
     * status change, before any meta is written and before the cart is emptied.
     */
    method ProcessPayment(order: Order, cart: Cart, btcAmount: real, returnUrl: string) returns (r: PaymentOutcome)
      modifies order, cart
      ensures order.total <= 0.0 ==>
        && r == Success(returnUrl)
        && order.paymentCompleted && order.status == old(order.status)
        && order.meta == old(order.meta) && order.notes == old(order.notes)
        && cart.items == []
      ensures order.total > 0.0 && btcAmount == 0.0 ==>
        && r == DivisionByZero
        && order.status == OnHold && order.paymentCompleted == old(order.paymentCompleted)
        && order.meta == old(order.meta) && order.notes == old(order.notes) + [AwaitingPayment]
        && cart.items == old(cart.items)
      ensures order.total > 0.0 && btcAmount != 0.0 ==>
        && r == Success(returnUrl)
        && order.status == OnHold && order.paymentCompleted == old(order.paymentCompleted)
        && order.meta == old(order.meta) + PaymentMeta(StoredAddress(option), order.total, btcAmount)
        && order.notes == old(order.notes) + [AwaitingPayment,
             ConversionNote(order.total, order.currency, btcAmount, order.total / btcAmount, StoredAddress(option))]
        && cart.items == []
    {
      if order.total <= 0.0 {
        order.paymentCompleted := true;
      } else {
        order.status := OnHold;
        order.notes := order.notes + [AwaitingPayment];
        var currency := order.currency;
        var amount := order.total;
        if btcAmount == 0.0 {
          return DivisionByZero;
        }
        var exchangeRate := amount / btcAmount;
        var address := StoredAddress(option);
        order.meta := order.meta[AddressMetaKey := Text(address)];
        order.meta := order.meta[AmountMetaKey := Number(btcAmount)];
        order.meta := order.meta[RateMetaKey := Number(exchangeRate)];
        PaymentMetaUpdates(old(order.meta), address, amount, btcAmount);
        order.notes := order.notes + [ConversionNote(amount, currency, btcAmount, exchangeRate, address)];
      }
      cart.items := [];
      r := Success(returnUrl);
    }
  }

  /**
   * The `woocommerce_payment_gateways` filter: appends the gateway class to
   * the list once, at the end, when in the admin area or when the required
   * settings are stored; otherwise the list is returned unchanged.
   */
  function AddAcceptBitcoinClass(methods: seq<string>, isAdmin: bool, stored: Option<SettingsMap>): (r: seq<string>)
    ensures |methods| <= |r| <= |methods| + 1 && r[..|methods|] == methods
    ensures |r| > |methods| <==> isAdmin || HasRequiredSettings(stored)
    ensures |r| > |methods| ==> r[|methods|] == GatewayClass
  {
    if isAdmin || HasRequiredSettings(stored) then methods + [GatewayClass] else methods
  }

  /**
   * The text shown on the order-received page: the payment-instructions
   * message for an on-hold order paid with this gateway, the generic thank
   * you otherwise. The text passed in by the filter chain is ignored.
   */
  function OrderReceivedText(received: string, status: string, paymentMethod: string): (r: string)
    ensures r == InstructionsText <==> status == OnHold && paymentMethod == GatewayId
    ensures r != InstructionsText ==> r == ThankYouText
  {
    if status == OnHold && paymentMethod == GatewayId then InstructionsText else ThankYouText
  }

  /**
   * Outside the admin area, once the gateway has been constructed on a site
   * with no stored option, it is not offered at checkout; after a save that posts an address which sanitizes to a
   * non-empty string, it does.
   */
  lemma OfferedOnceConfigured(methods: seq<string>, posted: map<string, string>, sanitize: string -> string)
    requires FieldFor(AddressKey) in posted && sanitize(posted[FieldFor(AddressKey)]) != ""
    ensures AddAcceptBitcoinClass(methods, false, InitialOption(None)) == methods
    ensures AddAcceptBitcoinClass(methods, false, Some(AdminUpdate(OrEmpty(InitialOption(None)), posted, sanitize)))
         == methods + [GatewayClass]
  {
    FreshInstall();
    AdminUpdateConfigures(OrEmpty(InitialOption(None)), posted, sanitize);
  }

  /**
   * Because the address check is strict, a site with no stored settings at
   * all (before the gateway was ever constructed) offers the gateway.
   */
  lemma OfferedWithoutStoredSettings(methods: seq<string>)
    ensures AddAcceptBitcoinClass(methods, false, None) == methods + [GatewayClass]
  {
  }

  /**
   * Connects `ProcessPayment` to `OrderReceivedText`: after a checkout of a
   * positive total with this gateway and a non-zero BTC amount, the
   * order-received page shows the payment-instructions text.
   */
  method CheckoutShowsInstructions(gateway: AcceptBitcoinGateway, total: real, currency: string, btcAmount: real)
    returns (text: string)
    requires total > 0.0 && btcAmount != 0.0
    ensures text == InstructionsText
  {
    var order := new Order(total, currency, GatewayId, "pending");
    var cart := new Cart([CartItem(1, 1)]);
    var r := gateway.ProcessPayment(order, cart, btcAmount, "https://shop.example/checkout/order-received/");
    text := OrderReceivedText("", order.status, order.paymentMethod);
  }
}
