/**
 * Field extraction for one listing detail page: the WhatsApp and `tel:`
 * phone extractors, the ad-id regex, the title, phone and price fallbacks,
 * and the record they fill. What the HTML parser finds on the page is taken as
 * given (a `DetailPage`); only the decisions made on it are modelled.
 */
module Fields {
  import opened Wrappers
  import opened Strings
  import opened Patterns

  /** Python truthiness of an optional string: present and not empty. */
  predicate Truthy(o: Option<string>)
  {
    o.Some? && o.value != ""
  }

  const PhoneKey: string := "phone="

  /**
   * `re.search(r'phone=([+\d]+)', url).group(1)`: the run of '+' and digits
   * after the leftmost "phone=" that is followed by at least one of them.
   */
  function ExtractPhoneFromWhatsapp(url: string): (r: Option<string>)
    ensures r.None? <==> forall i :: 0 <= i <= |url| ==> !MatchAt(url, i, PhoneKey, PhoneChars, "")
    ensures r.Some? ==> |r.value| > 0 && forall k :: 0 <= k < |r.value| ==> InClass(r.value[k], PhoneChars)
    ensures r.Some? ==> var i := Find(url, PhoneKey, PhoneChars, "").value;
                        && LeftmostMatch(url, 0, i, PhoneKey, PhoneChars, "")
                        && OccursAt(url, PhoneKey + r.value, i)
                        && EndsRun(url, i + |PhoneKey| + |r.value|, PhoneChars)
  {
    var r := Search(url, PhoneKey, PhoneChars, "");
    if r.Some? then
      WhatsappGroup(url, Find(url, PhoneKey, PhoneChars, "").value);
      r
    else r
  }

  /** The group of a "phone=" match: '+' and digits, directly after the key, up to the end of their run. */
  lemma WhatsappGroup(url: string, i: nat)
    requires MatchAt(url, i, PhoneKey, PhoneChars, "")
    ensures var g := Group(url, i, PhoneKey, PhoneChars);
            && |g| > 0 && (forall k :: 0 <= k < |g| ==> InClass(g[k], PhoneChars))
            && OccursAt(url, PhoneKey + g, i)
            && EndsRun(url, i + |PhoneKey| + |g|, PhoneChars)
  {
    var g := Group(url, i, PhoneKey, PhoneChars);
    GroupInClass(url, i, PhoneKey, PhoneChars, "");
    assert PhoneKey + g + "" == PhoneKey + g;
  }

  const TelScheme: string := "tel:"

  /** `tel_url.replace('tel:', '').strip()`. */
  function ExtractPhoneFromTel(telUrl: string): (r: string)
    ensures Stripped(r) && |r| <= |telUrl|
  {
    Strip(RemoveAll(telUrl, TelScheme))
  }

  /** For a link "tel:" + number, where the number does not itself contain "tel:", the phone is the number stripped. */
  lemma TelOfNumber(number: string)
    requires forall i :: 0 <= i <= |number| ==> !OccursAt(number, TelScheme, i)
    ensures ExtractPhoneFromTel(TelScheme + number) == Strip(number)
  {
    RemoveAllLeading(TelScheme, number);
    RemoveAllAbsent(number, TelScheme);
  }

  /**
   * For a link "tel:" + number whose number contains "tel:" again, first at
   * index `i`: the number is kept up to `i`, that copy is dropped, and the rest
   * has every further copy removed before the whole is stripped.
   */
  lemma TelOfLink(number: string, i: nat)
    requires OccursAt(number, TelScheme, i)
    requires forall j :: 0 <= j < i ==> !OccursAt(number, TelScheme, j)
    ensures ExtractPhoneFromTel(TelScheme + number)
            == Strip(number[..i] + RemoveAll(number[i + |TelScheme|..], TelScheme))
  {
    RemoveAllLeading(TelScheme, number);
    RemoveAllFirst(number, TelScheme, i);
  }

  /** "tel:(070) tel:704" gives "(070) 704": the repeated scheme is dropped too. */
  lemma TelRepeatedScheme()
    ensures ExtractPhoneFromTel("tel:(070) tel:704") == "(070) 704"
  {
    SchemesRemoved();
    StrippedIsFixed("(070) 704");
  }

  lemma SchemesRemoved()
    ensures RemoveAll("tel:(070) tel:704", TelScheme) == "(070) 704"
  {
    var number := "(070) tel:704";
    assert TelScheme + number == "tel:(070) tel:704";
    RemoveAllLeading(TelScheme, number);
    SchemeFirstAt(number);
    RemoveAllFirst(number, TelScheme, 6);
    SchemeRest(number);
  }

  lemma SchemeRest(number: string)
    requires number == "(070) tel:704"
    ensures number[..6] + RemoveAll(number[10..], TelScheme) == "(070) 704"
  {
    assert number[10..] == "704";
    assert RemoveAll("704", TelScheme) == "704";
  }

  lemma SchemeFirstAt(number: string)
    requires number == "(070) tel:704"
    ensures OccursAt(number, TelScheme, 6)
    ensures forall j :: 0 <= j < 6 ==> !OccursAt(number, TelScheme, j)
  {
    forall j | 0 <= j < 6 ensures !OccursAt(number, TelScheme, j) {
      assert number[j..j + 4][3] != ':' || number[j..j + 4][0] != 't';
    }
    assert number[6..10] == TelScheme;
  }


  const AdPrefix: string := "/ads/"
  const AdSuffix: string := ".html"

  /** `re.search(r'/ads/(\d+)\.html', url).group(1)`: the digits of the leftmost "/ads/<digits>.html". */
  function ExtractAdId(url: string): (r: Option<string>)
    ensures r.None? <==> forall i :: 0 <= i <= |url| ==> !MatchAt(url, i, AdPrefix, Digits, AdSuffix)
    ensures r.Some? ==> IsDigitText(r.value)
    ensures r.Some? ==> var i := Find(url, AdPrefix, Digits, AdSuffix).value;
                        && LeftmostMatch(url, 0, i, AdPrefix, Digits, AdSuffix)
                        && OccursAt(url, AdPrefix + r.value + AdSuffix, i)
  {
    var r := Search(url, AdPrefix, Digits, AdSuffix);
    if r.Some? then
      GroupInClass(url, Find(url, AdPrefix, Digits, AdSuffix).value, AdPrefix, Digits, AdSuffix);
      r
    else r
  }

  /**
   * The title: the og:title content when it is a non-empty string, otherwise
   * the stripped h1 text when there is an h1, otherwise the og:title content
   * as it was (None or the empty string).
   */
  function SelectTitle(ogTitle: Option<string>, h1Text: Option<string>): (r: Option<string>)
    ensures Truthy(ogTitle) ==> r == ogTitle
    ensures !Truthy(ogTitle) && h1Text.Some? ==> r == Some(Strip(h1Text.value))
    ensures r.None? <==> ogTitle.None? && h1Text.None?
    ensures !Truthy(ogTitle) && h1Text.None? ==> r == ogTitle
    ensures r == Some("") ==> ogTitle == Some("") || (h1Text.Some? && Strip(h1Text.value) == "")
  {
    if Truthy(ogTitle) then ogTitle
    else if h1Text.Some? then Some(Strip(h1Text.value))
    else ogTitle
  }

  /** The phone found in the WhatsApp link, if there is a link and it matches. */
  function WhatsappPhone(whatsappHref: Option<string>): Option<string>
  {
    if whatsappHref.Some? then ExtractPhoneFromWhatsapp(whatsappHref.value) else None
  }

  /**
   * The phone: from the WhatsApp link when its regex matches, otherwise from the
   * `tel:` link when there is one. A phone never carries surrounding whitespace.
   */
  function SelectPhone(whatsappHref: Option<string>, telHref: Option<string>): (r: Option<string>)
    ensures WhatsappPhone(whatsappHref).Some? ==> r == WhatsappPhone(whatsappHref)
    ensures WhatsappPhone(whatsappHref).None? && telHref.Some? ==> r == Some(ExtractPhoneFromTel(telHref.value))
    ensures r.None? <==> WhatsappPhone(whatsappHref).None? && telHref.None?
    ensures r.Some? ==> Stripped(r.value)
  {
    var phone := WhatsappPhone(whatsappHref);
    if Truthy(phone) then phone
    else if telHref.Some? then Some(ExtractPhoneFromTel(telHref.value))
    else phone
  }

  /** The two spans of a `div.gallery-price`, each present or not. */
  datatype PriceSpans = PriceSpans(amount: Option<string>, currency: Option<string>)

  /** The price "<amount> <currency>", both stripped; there is one only when the block and both spans are present. */
  function SelectPrice(block: Option<PriceSpans>): (r: Option<string>)
    ensures r.Some? <==> block.Some? && block.value.amount.Some? && block.value.currency.Some?
    ensures r.Some? ==> var a, c := Strip(block.value.amount.value), Strip(block.value.currency.value);
                        |r.value| == |a| + 1 + |c| && r.value[..|a|] == a && r.value[|a|] == ' ' && r.value[|a| + 1..] == c
  {
    if block.Some? && block.value.amount.Some? && block.value.currency.Some? then
      Some(Strip(block.value.amount.value) + " " + Strip(block.value.currency.value))
    else None
  }

  function StripOpt(o: Option<string>): (r: Option<string>)
  {
    if o.Some? then Some(Strip(o.value)) else None
  }

  /** What the HTML parser finds on a listing detail page. */
  datatype DetailPage = DetailPage(
    ogTitle: Option<string>,       // content of <meta property="og:title">
    h1Text: Option<string>,        // text of the first <h1>
    whatsappHref: Option<string>,  // href of the first link to whatsapp.com
    telHref: Option<string>,       // href of the first "tel:" link
    cityText: Option<string>,      // text of the <b> inside div.city
    description: Option<string>,   // text of div.text, lines joined by "\n"
    price: Option<PriceSpans>,     // div.gallery-price, with its two spans
    viewsText: Option<string>,     // text of the <b> inside div.info p.views
    dateText: Option<string>,      // text of the <b> inside div.info p.date
    ogImage: Option<string>        // content of <meta property="og:image">
  )

  /** One scraped listing; absent fields are None. */
  datatype Listing = Listing(
    adId: Option<string>,
    category: string,
    title: Option<string>,
    phone: Option<string>,
    city: Option<string>,
    price: Option<string>,
    description: Option<string>,
    views: Option<string>,
    datePosted: Option<string>,
    imageUrl: Option<string>,
    listingUrl: string,
    scrapedAt: string
  )

  /** The record `scrape_listing_detail` builds from a parsed page. */
  function BuildListing(listingUrl: string, category: string, page: DetailPage, scrapedAt: string): Listing
  {
    Listing(
      adId := ExtractAdId(listingUrl),
      category := category,
      title := SelectTitle(page.ogTitle, page.h1Text),
      phone := SelectPhone(page.whatsappHref, page.telHref),
      city := StripOpt(page.cityText),
      price := SelectPrice(page.price),
      description := page.description,
      views := StripOpt(page.viewsText),
      datePosted := StripOpt(page.dateText),
      imageUrl := page.ogImage,
      listingUrl := listingUrl,
      scrapedAt := scrapedAt
    )
  }
}
