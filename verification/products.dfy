/** The catalog entity and the small display rules every page shares:
    image-reference resolution against the back-end origin, the `|| 'N/A'`
    placeholders, lookup by id and the detail-page link. */
module Products {
  import opened Wrappers
  import opened Strings

  /** One product record. The repository reads two shapes of it: the REST shape
      (`name`, `imageUrl`, `technologyType`, ...) served by the Flask back end,
      and the table shape (`model_name`, `image_url`, `technology_type`, ...)
      of the hosted-table variant and of the fallback catalog. Every field but
      the id is optional, so one record can carry either shape (or both). */
  datatype Product = Product(
    id: string,
    // REST shape
    name: Option<string>,
    brand: Option<string>,
    price: Option<real>,
    technologyType: Option<string>,
    capacity: Option<string>,
    warranty: Option<string>,
    purificationStages: Option<string>,
    energyConsumption: Option<string>,
    colorVariant: Option<string>,
    dimensions: Option<string>,
    weight: Option<string>,
    imageUrl: Option<string>,
    // table shape
    modelName: Option<string>,
    tableTechnologyType: Option<string>,
    specifications: Option<map<string, string>>,
    tableImageUrl: Option<string>,
    galleryImages: Option<seq<string>>,
    isActive: Option<bool>)

  /** A record with only its id set. */
  function Blank(id: string): (p: Product)
    ensures p.id == id && p.name.None? && p.imageUrl.None? && p.modelName.None?
  {
    Product(id, None, None, None, None, None, None, None, None, None, None, None, None,
            None, None, None, None, None, None)
  }

  /** The hard-wired back-end origin that relative image paths are resolved against. */
  const Origin: string := "http://127.0.0.1:5000"

  /** `ref.startsWith('http') ? ref : `${Origin}${ref}`` */
  function ResolveImage(ref: string): (r: string)
    ensures IsPrefix("http", r)
    ensures IsPrefix("http", ref) ==> r == ref
    ensures !IsPrefix("http", ref) ==> r == Origin + ref
  {
    if IsPrefix("http", ref) then ref else Origin + ref
  }

  /** Resolution keeps the reference itself as the tail of the result, and
      resolving a resolved reference changes nothing. */
  lemma ResolveImageKeepsPathAndIsIdempotent(ref: string)
    ensures ResolveImage(ResolveImage(ref)) == ResolveImage(ref)
    ensures exists k :: 0 <= k <= |ResolveImage(ref)| && ResolveImage(ref)[k..] == ref
  {
    var r := ResolveImage(ref);
    if IsPrefix("http", ref) {
      assert r[0..] == ref;
    } else {
      assert r[|Origin|..] == ref;
    }
  }

  /** The image a card or comparison cell shows: `product.imageUrl ? <img src=resolved> : 'No Image'`. */
  function ImageSource(p: Product): (r: Option<string>)
    ensures r.Some? <==> Present(p.imageUrl)
    ensures r.Some? ==> r.value == ResolveImage(p.imageUrl.value)
    ensures r.Some? ==> IsPrefix("http", r.value)
  {
    if Present(p.imageUrl) then Some(ResolveImage(p.imageUrl.value)) else None
  }

  /** `value || fallback` for an optional string attribute. */
  function Display(value: Option<string>, fallback: string): (r: string)
    ensures fallback != "" ==> r != ""
    ensures Present(value) ==> r == value.value
    ensures !Present(value) ==> r == fallback
  {
    if Present(value) then value.value else fallback
  }

  /** The placeholder for an absent attribute on the compare and detail pages. */
  const NotAvailable: string := "N/A"

  /** `models.find(p => p.id === id)`: the first record carrying `id`. */
  function FindById(s: seq<Product>, id: string): (r: Option<Product>)
    ensures r.None? <==> forall p :: p in s ==> p.id != id
    ensures r.Some? ==> exists k :: 0 <= k < |s| && s[k] == r.value && r.value.id == id
                                    && forall j :: 0 <= j < k ==> s[j].id != id
  {
    if |s| == 0 then None
    else if s[0].id == id then Some(s[0])
    else
      var r := FindById(s[1..], id);
      assert forall p :: p in s[1..] ==> p in s;
      if r.Some? then
        var k :| 0 <= k < |s[1..]| && s[1..][k] == r.value && r.value.id == id
                 && forall j :: 0 <= j < k ==> s[1..][j].id != id;
        assert s[k + 1] == r.value;
        assert forall j :: 0 <= j < k + 1 ==> s[j].id != id by {
          forall j | 0 <= j < k + 1 ensures s[j].id != id {
            if j > 0 { assert s[j] == s[1..][j - 1]; }
          }
        }
        r
      else
        assert forall p :: p in s ==> p == s[0] || p in s[1..];
        r
  }

  /** `FindById` finds something whenever some position holds the id. */
  lemma FindByIdPresent(s: seq<Product>, id: string, k: int)
    requires 0 <= k < |s| && s[k].id == id
    ensures FindById(s, id).Some?
  {
    assert s[k] in s;
  }

  /** `FindById` finds nothing when no position holds the id. */
  lemma FindByIdAbsent(s: seq<Product>, id: string)
    requires forall k :: 0 <= k < |s| ==> s[k].id != id
    ensures FindById(s, id).None?
  {
  }

  /** A record found by `FindById` has every property all records of the list share. */
  lemma FindByIdWithout(s: seq<Product>, id: string)
    requires forall k :: 0 <= k < |s| ==> s[k].imageUrl.None?
    ensures FindById(s, id).Some? ==> FindById(s, id).value.imageUrl.None?
  {
  }

  /** The route of a product's detail page: `/models/${product.id}`. */
  function DetailLink(id: string): string {
    "/models/" + id
  }

  /** The id the detail route `/models/:id` extracts from a path. */
  function IdOfDetailLink(path: string): (r: Option<string>)
    ensures r.Some? ==> DetailLink(r.value) == path
  {
    if IsPrefix("/models/", path) then Some(path[|"/models/"|..]) else None
  }

  /** The detail route recovers the id the link was built from, so distinct
      products link to distinct pages. */
  lemma DetailLinkRoundTrip(id: string, other: string)
    ensures IdOfDetailLink(DetailLink(id)) == Some(id)
    ensures id != other ==> DetailLink(id) != DetailLink(other)
  {
    assert DetailLink(id)[|"/models/"|..] == id;
    assert DetailLink(other)[|"/models/"|..] == other;
  }
}
