# Accept Bitcoin gateway: a Dafny model

Accept Bitcoin is a WooCommerce payment gateway. At checkout it converts the
order total to BTC and puts the order on hold. It records the store's wallet
address, the BTC amount and the exchange rate on the order. The customer is
then shown payment instructions with a QR code. This project models the
gateway's own decisions in `accept-bitcoin.php`. Each WordPress or
WooCommerce call is replaced by explicit state or a parameter.

- `Settings` (settings.dfy): the `woocommerce_accept_bitcoin_settings` option,
  as a map from keys to strings (`None` when no option is stored). It covers
  the defaults the constructor writes, the title and description fallback,
  the settings-form save, and the `has_required_settings` validator.
- `QrCode` (qrcode.dfy): the QR code URL builder, with a parser for the URLs
  it builds that serves as its inverse.
- `Checkout` (checkout.dfy): the order (status, post meta, notes, whether
  `payment_complete()` ran) and the cart, as classes. It also holds the three
  meta entries written for an order that awaits payment.
- `Gateway` (gateway.dfy): the gateway class. It holds the stored option and
  has the constructor, `process_admin_options` and `process_payment` as
  methods. The module also holds the `woocommerce_payment_gateways` filter and
  the order-received text.

What the model makes explicit about the PHP code:

- `! get_option(...)` is true both for an absent option and for an empty
  array. The defaults are written in both cases.
- Reading a missing key gives `null`. Both fallbacks use strict comparison
  with `''`. So a stored option without `title` shows an empty title, not the
  default.
- For the same reason, `has_required_settings` is true when `btc_address` is
  missing or no option is stored at all. A site where the gateway was never
  constructed therefore offers it at checkout (`OfferedWithoutStoredSettings`).
- `process_admin_options` on an absent option starts from an empty array.
- The division `amount / btc_amount` is not guarded. A conversion result of
  zero raises PHP 8's `DivisionByZeroError`. By then the order is already on
  hold with its note added. No meta has been written and the cart is not
  emptied. The model returns `DivisionByZero` in that state.

Parameters stand for what comes from outside: the posted form (`$_POST`),
`sanitize_text_field` (any function from strings to strings), the
`is_admin()` flag, the result of the BTC conversion, and the return URL.

## Model

| member | source | states |
|---|---|---|
| `Settings.InitialOption` | accept-bitcoin.php:24-33 | exactly the defaults (enabled `no`, empty address, default title and description) and nothing else are written, exactly when the stored option is absent or empty; a stored option is left as it is; afterwards an option is always stored |
| `Settings.InitialOptionIdempotent` | accept-bitcoin.php:31-33 | constructing the gateway again writes nothing |
| `Settings.DisplayValue` | accept-bitcoin.php:43-44 | the shown title or description is the stored value unless it is `''`, then the default; a missing key shows as empty; with a non-empty default, a stored key never shows as empty |
| `Settings.FreshInstall` | accept-bitcoin.php:24-44 | once the gateway has been constructed on a site with no stored option, it shows the default title and description and the required settings are not met |
| `Settings.AdminUpdate` | accept-bitcoin.php:119-139 | `enabled` becomes `yes` exactly when the enable field was posted, and `no` otherwise; each posted text setting becomes the sanitized posted value; unposted text settings and every other key keep their entry (present or absent) |
| `Settings.AdminUpdateIdempotent` | accept-bitcoin.php:119-139 | saving the same form twice stores the same settings as saving it once |
| `Settings.AdminUpdateConfigures` | accept-bitcoin.php:135-139 | after a save, the required settings are met exactly when the posted address sanitizes to a non-empty string, or, when no address was posted, exactly when they were met before |
| `Settings.HasRequiredSettings` | accept-bitcoin.php:280-290 | false exactly when an option is stored whose `btc_address` is the empty string |
| `Gateway.AcceptBitcoinGateway.constructor` | accept-bitcoin.php:21-44 | the stored option becomes `InitialOption` of what was stored; title and description are read from it with the fallback |
| `Gateway.AcceptBitcoinGateway.ProcessAdminOptions` | accept-bitcoin.php:117-141 | the stored option becomes `AdminUpdate` of the previous settings (an empty array if none); nothing else changes |
| `Gateway.AcceptBitcoinGateway.ProcessPayment` | accept-bitcoin.php:150-200 | a total of zero or less marks the order paid, writes no meta and no note, and empties the cart; a positive total sets the order on hold with the awaiting note, then on a zero BTC amount stops with `DivisionByZero` with meta and cart untouched, and otherwise adds exactly the three payment meta entries and the conversion note and empties the cart; both success paths return the redirect |
| `Checkout.PaymentMeta` | accept-bitcoin.php:166-177 | exactly three meta keys are written: the address, the BTC amount, and the rate `amount / btc_amount` |
| `Checkout.ExchangeRateRecoversTotal` | accept-bitcoin.php:169-177 | in exact (real) arithmetic, the recorded rate multiplied by the recorded BTC amount gives back the order total, and a positive total and positive BTC amount give a positive rate; PHP's float division is not modelled |
| `Checkout.PaymentMetaExample` | accept-bitcoin.php:169 | a total of 100 converted to 0.0025 BTC records a rate of 40000 |
| `QrCode.QrCodeUrl` | accept-bitcoin.php:232-240 | the URL is the Google chart prefix with size 300x300 and `chl=bitcoin:`, then the address verbatim, `?amount=`, and the amount verbatim |
| `QrCode.ParseQrCodeUrlRoundTrip` | accept-bitcoin.php:232-240 | a URL built from an address without `?` reads back as exactly that address and amount |
| `QrCode.ParseQrCodeUrlSound` | accept-bitcoin.php:232-240 | every URL that reads back was built from what it reads back as, with an address without `?` |
| `QrCode.QrCodeUrlNotInjective` | accept-bitcoin.php:234 | nothing is escaped, so an address containing `?amount=` makes two different inputs give one URL |
| `Gateway.AddAcceptBitcoinClass` | accept-bitcoin.php:322-327 | the input list is kept in order as a prefix; the gateway class is appended once, at the end, exactly when in admin or the required settings are met; otherwise the list is unchanged |
| `Gateway.OfferedOnceConfigured` | accept-bitcoin.php:322-327 | outside the admin area, once the gateway has been constructed on a site with no stored option, it is not offered, and it is after a save that posts a non-empty sanitized address |
| `Gateway.OfferedWithoutStoredSettings` | accept-bitcoin.php:322-327 | outside the admin area, with no option stored (before the gateway has ever been constructed), the gateway is offered, because the strict address check sees `null` |
| `Gateway.CheckoutShowsInstructions` | accept-bitcoin.php:300-307 | after `ProcessPayment` of a positive total with this gateway and a non-zero BTC amount, the order-received text is the payment-instructions message |
| `Gateway.OrderReceivedText` | accept-bitcoin.php:300-307 | the payment-instructions text is returned exactly when the status is `on-hold` and the payment method is `accept_bitcoin`; otherwise the generic thank-you text |

## Left out

- `convert_to_btc` (accept-bitcoin.php:210-222): an outbound HTTP call to blockchain.info whose body is parsed with `floatval`. Its result is the `btcAmount` parameter of `ProcessPayment`.
- Floating point: amounts are reals. The model does not cover float rounding, PHP's float-to-string conversion in the order note and QR URL, or `floatval` parsing. The QR URL takes the amount as the text the template passes in. The conversion note records the numbers, not their formatted text.
- Gateway.AcceptBitcoinGateway.ProcessPayment: models PHP 8, where dividing by zero throws. Under PHP 7 the division only warns and yields INF, and the meta would be written with that value. The model does not represent that case.
- Gateway.AcceptBitcoinGateway.ProcessPayment: `payment_complete()` is recorded as a flag. The status WooCommerce then picks (processing or completed) and the paid date are WooCommerce's own logic. The wording WooCommerce adds around the status-change note is left out for the same reason.
- `render_thank_you_page_content` (accept-bitcoin.php:251-272) and templates/thankyou-content.php: output buffering, a theme template lookup and HTML rendering.
- `init_form_fields` (accept-bitcoin.php:66-109): it only builds the admin form descriptor of translated strings.
- `accept_bitcoin_add_settings_link`, `accept_bitcoin_add_donate_link` and `accept_bitcoin_check_for_woocommerce` (accept-bitcoin.php:336-386): plugin-list links that depend on PHP `array_merge` key semantics, and an activation check that calls `wp_die`.
- The hook wiring (`add_action`, `add_filter`, `register_activation_hook`), the gateway's icon, method title and method description, and translation with `__()`. Texts are the untranslated English strings.
- `sanitize_text_field`, `get_option`/`update_option`, `update_post_meta`, the `WC_Order` methods, `$_POST` and `is_admin()` are WordPress and WooCommerce functions. They appear only as state fields or parameters.
