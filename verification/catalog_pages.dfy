/** The public catalog pages: how each one chooses between the live list and the
    fallback catalog, what a catalog card shows, and the contact links of the
    table-backed listing. */
module CatalogPages {
  import opened Wrappers
  import opened Strings
  import opened Products
  import opened MockCatalog

  /** What `fetch('/api/models')` followed by `response.json()` leaves the page with. */
  datatype RestOutcome =
    | RestFailed                                // network error, non-2xx status, or a body that is not JSON
    | RestLoaded(models: Option<seq<Product>>)  // the parsed body; `models` is None when the key is missing

  /** The response carries at least one product. */
  predicate HasLiveProducts(o: RestOutcome) {
    o.RestLoaded? && o.models.Some? && |o.models.value| > 0
  }

  /** `loadProducts` of the REST catalog and compare pages:
      `data.models && data.models.length > 0 ? data.models : mockProducts`, and
      `mockProducts` in the `catch`. */
  function LoadWithFallback(o: RestOutcome): (r: seq<Product>)
    ensures HasLiveProducts(o) ==> r == o.models.value
    ensures !HasLiveProducts(o) ==> r == MockProducts()
    ensures |r| > 0
  {
    match o
    case RestFailed => MockProducts()
    case RestLoaded(models) =>
      if models.Some? && |models.value| > 0 then models.value else MockProducts()
  }

  /** One card of the REST catalog grid. */
  datatype Card = Card(title: Option<string>, image: Option<string>, technology: string,
                       capacity: string, link: string)

  /** What the REST catalog page renders once loading is over. */
  datatype CatalogView =
    | UpdatingNotice        // "We're updating our latest models." with a WhatsApp button
    | Cards(cards: seq<Card>)

  /** A product's card: resolved image or "No Image", `technologyType || 'RO'`,
      `capacity || '7L'`, and the link to `/models/<id>`. */
  function CatalogCard(p: Product): (c: Card)
    ensures c.technology != "" && c.capacity != ""
    ensures Present(p.technologyType) ==> c.technology == p.technologyType.value
    ensures !Present(p.technologyType) ==> c.technology == "RO"
    ensures Present(p.capacity) ==> c.capacity == p.capacity.value
    ensures !Present(p.capacity) ==> c.capacity == "7L"
    ensures c.image.Some? <==> Present(p.imageUrl)
    ensures c.image.Some? ==> IsPrefix("http", c.image.value)
    ensures c.image.Some? ==> c.image.value == ResolveImage(p.imageUrl.value)
    ensures c.title == p.name
    ensures IdOfDetailLink(c.link) == Some(p.id)
  {
    DetailLinkRoundTrip(p.id, p.id);
    Card(p.name, ImageSource(p), Display(p.technologyType, "RO"), Display(p.capacity, "7L"),
         DetailLink(p.id))
  }

  function RenderCatalog(products: seq<Product>): (v: CatalogView)
    ensures v.UpdatingNotice? <==> |products| == 0
    ensures v.Cards? ==> |v.cards| == |products|
                         && forall i :: 0 <= i < |products| ==> v.cards[i] == CatalogCard(products[i])
  {
    if |products| == 0 then UpdatingNotice
    else Cards(seq(|products|, i requires 0 <= i < |products| => CatalogCard(products[i])))
  }

  /** The fallback makes the loaded list non-empty, so the catalog page's
      "updating our latest models" branch can never be shown after a load. */
  lemma LoadedCatalogNeverShowsNotice(o: RestOutcome)
    ensures |LoadWithFallback(o)| > 0
    ensures RenderCatalog(LoadWithFallback(o)).Cards?
  {
  }

  /** Whenever the fallback is used, every card shows the `'RO'` technology
      default (the mocks carry only `technology_type`) and no image. */
  lemma FallbackCardsUseDefaults(o: RestOutcome)
    requires !HasLiveProducts(o)
    ensures forall c :: c in RenderCatalog(LoadWithFallback(o)).cards ==>
              c.technology == "RO" && c.image.None? && c.title.None?
  {
    CardsOfRestlessRecords(MockProducts());
  }

  /** Records without REST fields get default-only cards. */
  lemma CardsOfRestlessRecords(s: seq<Product>)
    requires forall k :: 0 <= k < |s| ==> s[k].imageUrl.None? && s[k].name.None? && s[k].technologyType.None?
    ensures RenderCatalog(s).Cards? ==>
              forall c :: c in RenderCatalog(s).cards ==> c.technology == "RO" && c.image.None? && c.title.None?
  {
  }

  /** The `{ data, error }` answer of the hosted-table query. */
  datatype TableOutcome =
    | TableError
    | TableRows(rows: Option<seq<Product>>)

  /** `loadProducts` of the table-backed listing: non-empty rows are used, empty
      or missing rows fall back to `mockProducts`, and an error leaves the list at
      its initial `[]`. */
  function TableLoad(o: TableOutcome): (r: seq<Product>)
    ensures o.TableError? ==> r == []
    ensures o.TableRows? && o.rows.Some? && |o.rows.value| > 0 ==> r == o.rows.value
    ensures o.TableRows? && (o.rows.None? || |o.rows.value| == 0) ==> r == MockProducts()
  {
    match o
    case TableError => []
    case TableRows(rows) => if rows.Some? && |rows.value| > 0 then rows.value else MockProducts()
  }

  /** What the table-backed listing renders once loading is over. */
  datatype ListingView =
    | NoProducts(message: string)
    | Listing(products: seq<Product>)

  function RenderListing(products: seq<Product>): (v: ListingView)
    ensures v.NoProducts? <==> |products| == 0
    ensures v.NoProducts? ==> v.message == "No products available at the moment."
    ensures v.Listing? ==> v.products == products
  {
    if |products| == 0 then NoProducts("No products available at the moment.") else Listing(products)
  }

  /** On the table-backed listing the "no products" message appears exactly when
      the query failed: an empty table is covered by the fallback. */
  lemma NoProductsIffQueryFailed(o: TableOutcome)
    ensures RenderListing(TableLoad(o)).NoProducts? <==> o.TableError?
  {
  }

  /** `handlePhone`: `tel:${phone}`. */
  function PhoneLink(phone: string): string {
    "tel:" + phone
  }

  /** `handleEmail(model_name)`: `mailto:${email}?subject=Inquiry about ${model_name}`. */
  function EmailLink(email: string, modelName: string): string {
    "mailto:" + email + SubjectPrefix + modelName
  }

  const SubjectPrefix: string := "?subject=Inquiry about "

  lemma AppendAssoc(a: string, b: string, c: string, d: string)
    ensures a + b + c + d == a + (b + (c + d))
  {
  }

  /** The position of the first `c` in `s`. */
  function IndexOf(s: string, c: char): (r: Option<nat>)
    ensures r.None? <==> c !in s
    ensures r.Some? ==> r.value < |s| && s[r.value] == c && c !in s[..r.value]
  {
    if |s| == 0 then None
    else if s[0] == c then Some(0)
    else
      var r := IndexOf(s[1..], c);
      if r.Some? then
        assert s[..r.value + 1] == [s[0]] + s[1..][..r.value];
        Some(r.value + 1)
      else
        assert s == [s[0]] + s[1..];
        None
  }

  /** Reads the phone number back from a `tel:` link. */
  function PhoneOfLink(link: string): (r: Option<string>)
    ensures r.Some? ==> PhoneLink(r.value) == link
  {
    if IsPrefix("tel:", link) then Some(link[4..]) else None
  }

  /** Splits `scheme + a + sep + b` where `a` runs up to the first character of `sep`. */
  function SplitLink(link: string, scheme: string, sep: string): (r: Option<(string, string)>)
    requires |sep| > 0
    ensures r.Some? ==> scheme + r.value.0 + sep + r.value.1 == link
  {
    if !IsPrefix(scheme, link) then None
    else
      var rest := link[|scheme|..];
      match IndexOf(rest, sep[0])
      case None => None
      case Some(q) =>
        if IsPrefix(sep, rest[q..]) then
          SplitParts(link, scheme, sep, q);
          Some((rest[..q], rest[q + |sep|..]))
        else None
  }

  /** Cutting `link` after `scheme`, at `q` and after `sep` gives back `link`. */
  lemma SplitParts(link: string, scheme: string, sep: string, q: nat)
    requires IsPrefix(scheme, link)
    requires q <= |link| - |scheme| && IsPrefix(sep, link[|scheme|..][q..])
    ensures var rest := link[|scheme|..];
      scheme + rest[..q] + sep + rest[q + |sep|..] == link
  {
    var rest := link[|scheme|..];
    var a, b := rest[..q], rest[q + |sep|..];
    assert rest[q..] == sep + b;
    assert rest == a + rest[q..];
    assert link == scheme + rest;
    AppendAssoc(scheme, a, sep, b);
  }

  /** Reads the address and the model name back from an inquiry `mailto:` link:
      the address runs up to the first `?`. */
  function ParseEmailLink(link: string): (r: Option<(string, string)>)
    ensures r.Some? ==> EmailLink(r.value.0, r.value.1) == link
  {
    SplitLink(link, "mailto:", SubjectPrefix)
  }

  /** `IndexOf` finds the first occurrence. */
  lemma IndexOfFirst(s: string, c: char, q: nat)
    requires q < |s| && s[q] == c && c !in s[..q]
    ensures IndexOf(s, c) == Some(q)
  {
  }

  /** The contact links carry their inputs unchanged: the phone number and, for
      an address without `?`, the address and the model name can be read back. */
  lemma ContactLinksRoundTrip(phone: string, email: string, modelName: string)
    ensures PhoneOfLink(PhoneLink(phone)) == Some(phone)
    ensures '?' !in email ==> ParseEmailLink(EmailLink(email, modelName)) == Some((email, modelName))
  {
    assert PhoneLink(phone)[4..] == phone;
    if '?' !in email {
      SplitLinkRoundTrip("mailto:", email, SubjectPrefix, modelName);
    }
  }

  lemma SplitLinkRoundTrip(scheme: string, a: string, sep: string, b: string)
    requires |sep| > 0 && sep[0] !in a
    ensures SplitLink(scheme + a + sep + b, scheme, sep) == Some((a, b))
  {
    var link := scheme + a + sep + b;
    AppendAssoc(scheme, a, sep, b);
    assert link[..|scheme|] == scheme;
    var rest := link[|scheme|..];
    assert rest == a + (sep + b);
    var q := |a|;
    assert rest[..q] == a;
    IndexOfFirst(rest, sep[0], q);
    assert rest[q..] == sep + b;
    assert rest[q + |sep|..] == b;
  }
}
