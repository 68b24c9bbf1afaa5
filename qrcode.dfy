/**
 * `get_qr_code_url`: the image URL for a `bitcoin:` payment URI, rendered
 * 300x300 by Google's chart API. Neither input is escaped. A parser for the
 * URLs it builds serves as its inverse.
 */
module QrCode {
  import opened Options

  const ChartEndpoint := "https://chart.googleapis.com/chart?cht=qr&chs="
  const Size := "300x300"
  const DataParam := "&chl="
  const Scheme := "bitcoin:"
  const AmountParam := "?amount="

  /** Everything in a QR code URL before the wallet address. */
  const UrlPrefix := ChartEndpoint + Size + DataParam + Scheme

  /** What a QR code URL carries: the wallet address and the amount, as the text it was given. */
  datatype QrPayload = QrPayload(address: string, amount: string)

  /**
   * The QR code URL: the fixed prefix, the address verbatim, `?amount=` and
   * the amount verbatim.
   */
  function QrCodeUrl(address: string, amount: string): (r: string)
    ensures |r| == |UrlPrefix| + |address| + |AmountParam| + |amount|
    ensures r[..|UrlPrefix|] == UrlPrefix
    ensures r[|UrlPrefix|..|UrlPrefix| + |address|] == address
    ensures r[|UrlPrefix| + |address|..|r| - |amount|] == AmountParam
    ensures r[|r| - |amount|..] == amount
  {
    var data := Scheme + address + AmountParam + amount;
    ChartEndpoint + Size + DataParam + data
  }

  /** The position of the first `c` in `s`, if any. */
  function IndexOf(s: string, c: char): (r: Option<nat>)
    ensures r.Some? ==> r.value < |s| && s[r.value] == c && c !in s[..r.value]
    ensures r.None? <==> c !in s
  {
    if s == [] then None
    else if s[0] == c then Some(0)
    else match IndexOf(s[1..], c)
      case None => None
      case Some(i) => Some(i + 1)
  }

  /**
   * Reads a QR code URL back: the fixed prefix, then the address up to the
   * first `?`, which must open `?amount=`, then the amount.
   */
  function ParseQrCodeUrl(url: string): Option<QrPayload>
  {
    if |url| < |UrlPrefix| || url[..|UrlPrefix|] != UrlPrefix then None
    else
      var rest := url[|UrlPrefix|..];
      match IndexOf(rest, '?')
      case None => None
      case Some(i) =>
        if |rest| - i >= |AmountParam| && rest[i..i + |AmountParam|] == AmountParam
        then Some(QrPayload(rest[..i], rest[i + |AmountParam|..]))
        else None
  }

  /** Every URL built from an address without `?` reads back as that address and amount. */
  lemma ParseQrCodeUrlRoundTrip(address: string, amount: string)
    requires '?' !in address
    ensures ParseQrCodeUrl(QrCodeUrl(address, amount)) == Some(QrPayload(address, amount))
  {
    var url := QrCodeUrl(address, amount);
    var rest := url[|UrlPrefix|..];
    assert rest == address + AmountParam + amount;
    assert rest[|address|] == '?';
    var found := IndexOf(rest, '?');
    assert found.Some?;
    var i := found.value;
    assert i == |address|;
    assert rest[i..i + |AmountParam|] == AmountParam;
    assert rest[..i] == address;
    assert rest[i + |AmountParam|..] == amount;
  }

  /** Every URL that reads back was built by QrCodeUrl from what it reads back as. */
  lemma ParseQrCodeUrlSound(url: string)
    requires ParseQrCodeUrl(url).Some?
    ensures '?' !in ParseQrCodeUrl(url).value.address
    ensures QrCodeUrl(ParseQrCodeUrl(url).value.address, ParseQrCodeUrl(url).value.amount) == url
  {
    var rest := url[|UrlPrefix|..];
    var i := IndexOf(rest, '?').value;
    var n := |AmountParam|;
    var address, amount := rest[..i], rest[i + n..];
    assert ParseQrCodeUrl(url) == Some(QrPayload(address, amount));
    assert rest == address + AmountParam + amount by {
      assert rest == rest[..i] + rest[i..i + n] + rest[i + n..];
    }
    QrCodeUrlSplit(address, amount);
    assert url == url[..|UrlPrefix|] + rest;
  }

  /** The QR code URL is the prefix followed by the address, `?amount=` and the amount. */
  lemma QrCodeUrlSplit(address: string, amount: string)
    ensures QrCodeUrl(address, amount) == UrlPrefix + (address + AmountParam + amount)
  {
    var built := QrCodeUrl(address, amount);
    var n := |UrlPrefix|;
    assert built[n..] == address + AmountParam + amount by {
      assert built[n..] == built[n..n + |address|] + built[n + |address|..|built| - |amount|] + built[|built| - |amount|..];
    }
    assert built == built[..n] + built[n..];
  }

  /**
   * Since nothing is escaped, an address that contains `?amount=` makes two
   * different address and amount pairs give one URL.
   */
  lemma QrCodeUrlNotInjective()
    ensures QrCodeUrl("1A?amount=1", "2") == QrCodeUrl("1A", "1?amount=2")
  {
  }
}
