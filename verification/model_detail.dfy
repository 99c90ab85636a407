/** The product detail page: which record it shows for the `:id` route
    parameter, which image it selects, and the placeholders of its attribute grid. */
module ModelDetail {
  import opened Wrappers
  import opened Strings
  import opened Products
  import opened MockCatalog
  import opened CatalogPages
  import Compare

  /** The page's state: the product shown (`null` when none), the selected image
      (`''` when none) and the loading flag. */
  datatype DetailState = DetailState(product: Option<Product>, selectedImage: string, loading: bool)

  /** The state before any load. */
  const Initial: DetailState := DetailState(None, "", true)

  /** `loadProduct` for route id `id`. On a parsed response the live record with
      that id is shown, else the mock with that id, else nothing; only a live
      record sets the image, resolved against the back-end origin. On failure
      the mock with that id is shown and its `imageUrl`, if any, is used as is. */
  function LoadProduct(id: string, o: RestOutcome): (r: DetailState)
    ensures !r.loading
    ensures o.RestLoaded? && o.models.Some? && FindById(o.models.value, id).Some? ==>
              r.product == FindById(o.models.value, id)
    ensures o.RestLoaded? && (o.models.None? || FindById(o.models.value, id).None?) ==>
              r.product == FindById(MockProducts(), id) && r.selectedImage == ""
    ensures o.RestLoaded? && r.selectedImage != "" ==> IsPrefix("http", r.selectedImage)
    ensures o.RestLoaded? && o.models.Some? && FindById(o.models.value, id).Some? ==>
              var live := FindById(o.models.value, id).value;
              r.selectedImage == (if Present(live.imageUrl) then ResolveImage(live.imageUrl.value) else "")
    ensures o.RestFailed? ==> r.product == FindById(MockProducts(), id)
    ensures o.RestFailed? && r.product.Some? && Present(r.product.value.imageUrl) ==>
              r.selectedImage == r.product.value.imageUrl.value
    ensures r.product.Some? ==> r.product.value.id == id
  {
    match o
    case RestLoaded(models) =>
      var live := if models.Some? then FindById(models.value, id) else None;
      var product := if live.Some? then live else FindById(MockProducts(), id);
      var image := if live.Some? && Present(live.value.imageUrl)
                   then ResolveImage(live.value.imageUrl.value) else "";
      DetailState(product, image, false)
    case RestFailed =>
      var fallback := FindById(MockProducts(), id);
      var image := if fallback.Some? && Present(fallback.value.imageUrl)
                   then fallback.value.imageUrl.value else "";
      DetailState(fallback, image, false)
  }

  /** The effect on `[id]`: loading runs only when the route carries a non-empty id. */
  function Mount(idParam: Option<string>, o: RestOutcome): (r: DetailState)
    ensures !Present(idParam) ==> r == Initial
    ensures Present(idParam) ==> !r.loading
    ensures Present(idParam) && o.RestLoaded? && o.models.Some? && FindById(o.models.value, idParam.value).Some? ==>
              r.product == FindById(o.models.value, idParam.value)
    ensures Present(idParam) && !(o.RestLoaded? && o.models.Some? && FindById(o.models.value, idParam.value).Some?) ==>
              r.product == FindById(MockProducts(), idParam.value)
  {
    if Present(idParam) then LoadProduct(idParam.value, o) else Initial
  }

  /** What the page renders. */
  datatype DetailView =
    | LoadingDetails
    | NotFound        // "Model not found" with a link back to the catalog
    | Showing(product: Product, image: Option<string>)

  function Render(s: DetailState): (v: DetailView)
    ensures v.LoadingDetails? <==> s.loading
    ensures v.NotFound? <==> !s.loading && s.product.None?
    ensures v.Showing? ==> s.product == Some(v.product)
    ensures v.Showing? ==> (v.image.Some? <==> s.selectedImage != "")
    ensures v.Showing? && v.image.Some? ==> v.image.value == s.selectedImage
  {
    if s.loading then LoadingDetails
    else if s.product.None? then NotFound
    else Showing(s.product.value, if s.selectedImage != "" then Some(s.selectedImage) else None)
  }

  /** Without an id the page never leaves its loading screen. */
  lemma NoIdStaysLoading(idParam: Option<string>, o: RestOutcome)
    requires !Present(idParam)
    ensures Render(Mount(idParam, o)) == LoadingDetails
  {
  }

  /** The mock records carry no REST `imageUrl`, so when the page falls back to a
      mock (on either path) no image is selected. */
  lemma FallbackSelectsNoImage(id: string, o: RestOutcome)
    requires o.RestFailed? || o.models.None? || FindById(o.models.value, id).None?
    ensures LoadProduct(id, o).selectedImage == ""
  {
    FindByIdWithout(MockProducts(), id);
  }

  /** On a parsed response, "Model not found" appears exactly when neither the
      live list nor the fallback catalog holds the id. */
  lemma NotFoundIffUnknownId(id: string, models: seq<Product>)
    ensures Render(LoadProduct(id, RestLoaded(Some(models)))).NotFound?
            <==> (forall p :: p in models ==> p.id != id) && FindById(MockProducts(), id).None?
  {
  }

  /** The labels of the detail attribute grid, in page order. */
  const DetailLabels: seq<string> :=
    ["Technology", "Capacity", "Warranty", "Stages", "Energy Consumption", "Color", "Dimensions", "Weight"]

  /** The attribute shown under `DetailLabels[i]`. */
  function DetailAttribute(p: Product, i: nat): Option<string>
    requires i < |DetailLabels|
  {
    [p.technologyType, p.capacity, p.warranty, p.purificationStages, p.energyConsumption,
     p.colorVariant, p.dimensions, p.weight][i]
  }

  /** The detail attribute grid: each label with its attribute, or `'N/A'`
      when the attribute is absent or empty. */
  function DetailAttributes(p: Product): (cells: seq<(string, string)>)
    ensures |cells| == |DetailLabels|
    ensures forall i :: 0 <= i < |cells| ==> cells[i].0 == DetailLabels[i] && cells[i].1 != ""
    ensures forall i :: 0 <= i < |cells| && Present(DetailAttribute(p, i)) ==>
              cells[i].1 == DetailAttribute(p, i).value
    ensures forall i :: 0 <= i < |cells| && !Present(DetailAttribute(p, i)) ==>
              cells[i].1 == NotAvailable
  {
    seq(|DetailLabels|, i requires 0 <= i < |DetailLabels| =>
      (DetailLabels[i], Display(DetailAttribute(p, i), NotAvailable)))
  }

  /** The detail page and the comparison table agree: the seven attributes the
      comparison shows appear on the detail page, in the same order and with the
      same text; the detail page adds the colour between energy consumption and
      dimensions. */
  lemma DetailAgreesWithComparison(p: Product)
    ensures var column, cells := Compare.ComparisonColumn(p), DetailAttributes(p);
            |column| + 1 == |cells|
            && (forall i :: 0 <= i < 5 ==> column[i] == cells[i].1)
            && (forall i :: 5 <= i < |column| ==> column[i] == cells[i + 1].1)
  {
    var column, cells := Compare.ComparisonColumn(p), DetailAttributes(p);
    var attrs := Compare.ComparedAttributes(p);
    forall i | 0 <= i < 5 ensures column[i] == cells[i].1 {
      assert attrs[i] == DetailAttribute(p, i);
    }
    forall i | 5 <= i < |column| ensures column[i] == cells[i + 1].1 {
      assert attrs[i] == DetailAttribute(p, i + 1);
    }
  }

  /** The brand line: `product.brand || 'Premium Brand'`. */
  function BrandLabel(p: Product): (r: string)
    ensures r != ""
    ensures Present(p.brand) ==> r == p.brand.value
    ensures !Present(p.brand) ==> r == "Premium Brand"
  {
    Display(p.brand, "Premium Brand")
  }
}
