/** How the admin form's multipart body reaches the backend: the wire spelling
    of document keys, and the request a payload becomes. */
module Wire {
  import opened Wrappers
  import opened Backend
  import ProductForm

  /** The key as written on the wire and in the database. */
  function Spelling(k: Key): string {
    match k
    case Id => "id"
    case MongoId => "_id"
    case Name => "name"
    case Brand => "brand"
    case Price => "price"
    case ImageUrl => "imageUrl"
    case CloudinaryId => "cloudinaryId"
    case TechnologyType => "technologyType"
    case Capacity => "capacity"
    case Warranty => "warranty"
    case PurificationStages => "purificationStages"
    case EnergyConsumption => "energyConsumption"
    case ColorVariant => "colorVariant"
    case Weight => "weight"
    case CreatedAt => "createdAt"
    case Dimensions => "dimensions"
    case Tags => "tags"
    case Username => "username"
    case Password => "password"
    case Image => "image"
    case Other(name) => name
  }

  /** The key a wire name denotes. */
  function KeyOf(name: string): (k: Key)
    ensures Spelling(k) == name
  {
    if name == "id" then Id
    else if name == "_id" then MongoId
    else if name == "name" then Name
    else if name == "brand" then Brand
    else if name == "price" then Price
    else if name == "imageUrl" then ImageUrl
    else if name == "cloudinaryId" then CloudinaryId
    else if name == "technologyType" then TechnologyType
    else if name == "capacity" then Capacity
    else if name == "warranty" then Warranty
    else if name == "purificationStages" then PurificationStages
    else if name == "energyConsumption" then EnergyConsumption
    else if name == "colorVariant" then ColorVariant
    else if name == "weight" then Weight
    else if name == "createdAt" then CreatedAt
    else if name == "dimensions" then Dimensions
    else if name == "tags" then Tags
    else if name == "username" then Username
    else if name == "password" then Password
    else if name == "image" then Image
    else Other(name)
  }

  /** Every named key is read back from its spelling. */
  lemma KeyOfSpelling(k: Key)
    requires !k.Other?
    ensures KeyOf(Spelling(k)) == k
  {
  }

  /** The request Flask parses from a payload: text parts by key (the first
      part with a key wins) and the "image" file part. */
  function RequestOf(p: ProductForm.Payload): FormRequest {
    var fields := ProductForm.TextFieldsOf(p);
    var files := match ProductForm.FileOf(p, "image")
                 case Some(file) => map[Image := Upload(file.filename)]
                 case None => map[];
    FormRequest(files, map name | name in fields :: KeyOf(name) := fields[name])
  }

  /** A text part reaches the request under the key its name spells. */
  lemma RequestField(p: ProductForm.Payload, name: string)
    requires name in ProductForm.TextFieldsOf(p)
    ensures KeyOf(name) in RequestOf(p).form
    ensures RequestOf(p).form[KeyOf(name)] == ProductForm.TextFieldsOf(p)[name]
  {
    var fields := ProductForm.TextFieldsOf(p);
    var form := RequestOf(p).form;
    assert KeyOf(name) in form;
    forall other | other in fields && KeyOf(other) == KeyOf(name) ensures other == name {
      assert Spelling(KeyOf(other)) == other;
    }
  }

  /** The document key of a form input. */
  function FieldKey(k: ProductForm.Field): (key: Key)
    ensures !key.Other?
    ensures Spelling(key) == ProductForm.Key(k)
  {
    match k
    case Name => Backend.Name
    case Brand => Backend.Brand
    case Price => Backend.Price
    case TechnologyType => Backend.TechnologyType
    case Capacity => Backend.Capacity
    case Warranty => Backend.Warranty
    case PurificationStages => Backend.PurificationStages
    case EnergyConsumption => Backend.EnergyConsumption
    case ColorVariant => Backend.ColorVariant
    case Dimensions => Backend.Dimensions
    case Weight => Backend.Weight
    case Tags => Backend.Tags
  }

  /** The request built from a submitted form carries every input under its
      document key, and the image under "image". */
  lemma RequestOfForm(f: ProductForm.FormData, image: ProductForm.ImageFile, k: ProductForm.Field)
    ensures var req := RequestOf(ProductForm.BuildPayload(f, image));
            Field(req, FieldKey(k)) == Some(ProductForm.Get(f, k))
            && FieldOr(req, FieldKey(k)) == ProductForm.Get(f, k)
            && Image in req.files && req.files[Image] == Upload(image.filename)
  {
    var p := ProductForm.BuildPayload(f, image);
    ProductForm.PayloadFields(f, image);
    RequestField(p, ProductForm.Key(k));
    KeyOfSpelling(FieldKey(k));
  }

  /** A request carries a form when it holds every input under its document
      key and the image under "image". */
  predicate CarriesForm(req: FormRequest, f: ProductForm.FormData, image: ProductForm.ImageFile) {
    Image in req.files && req.files[Image] == Upload(image.filename)
    && forall k :: Field(req, FieldKey(k)) == Some(ProductForm.Get(f, k))
  }

  /** The request Flask parses from the form's payload carries the form. */
  lemma RequestCarriesForm(f: ProductForm.FormData, image: ProductForm.ImageFile)
    ensures CarriesForm(RequestOf(ProductForm.BuildPayload(f, image)), f, image)
  {
    forall k ensures Field(RequestOf(ProductForm.BuildPayload(f, image)), FieldKey(k)) == Some(ProductForm.Get(f, k)) {
      RequestOfForm(f, image, k);
    }
    RequestOfForm(f, image, ProductForm.Name);
  }

  /** The inputs a carried form shows under the create route's keys. */
  lemma CarriedFields(req: FormRequest, f: ProductForm.FormData, image: ProductForm.ImageFile)
    requires CarriesForm(req, f, image)
    ensures Field(req, Name) == Some(f.name) && Field(req, Price) == Some(f.price)
    ensures Field(req, Brand) == Some(f.brand) && Field(req, TechnologyType) == Some(f.technologyType)
    ensures Field(req, Capacity) == Some(f.capacity) && Field(req, Warranty) == Some(f.warranty)
    ensures Field(req, PurificationStages) == Some(f.purificationStages)
    ensures Field(req, EnergyConsumption) == Some(f.energyConsumption)
    ensures Field(req, ColorVariant) == Some(f.colorVariant) && Field(req, Weight) == Some(f.weight)
    ensures Field(req, Dimensions) == Some(f.dimensions) && Field(req, Tags) == Some(f.tags)
  {
    assert Field(req, FieldKey(ProductForm.Name)) == Some(ProductForm.Get(f, ProductForm.Name));
    assert Field(req, FieldKey(ProductForm.Price)) == Some(ProductForm.Get(f, ProductForm.Price));
    assert Field(req, FieldKey(ProductForm.Brand)) == Some(ProductForm.Get(f, ProductForm.Brand));
    assert Field(req, FieldKey(ProductForm.TechnologyType)) == Some(ProductForm.Get(f, ProductForm.TechnologyType));
    assert Field(req, FieldKey(ProductForm.Capacity)) == Some(ProductForm.Get(f, ProductForm.Capacity));
    assert Field(req, FieldKey(ProductForm.Warranty)) == Some(ProductForm.Get(f, ProductForm.Warranty));
    assert Field(req, FieldKey(ProductForm.PurificationStages)) == Some(ProductForm.Get(f, ProductForm.PurificationStages));
    assert Field(req, FieldKey(ProductForm.EnergyConsumption)) == Some(ProductForm.Get(f, ProductForm.EnergyConsumption));
    assert Field(req, FieldKey(ProductForm.ColorVariant)) == Some(ProductForm.Get(f, ProductForm.ColorVariant));
    assert Field(req, FieldKey(ProductForm.Weight)) == Some(ProductForm.Get(f, ProductForm.Weight));
    assert Field(req, FieldKey(ProductForm.Dimensions)) == Some(ProductForm.Get(f, ProductForm.Dimensions));
    assert Field(req, FieldKey(ProductForm.Tags)) == Some(ProductForm.Get(f, ProductForm.Tags));
  }

  /** A request that carries a form with a name, a numeric price and an image
      of an allowed type is stored field for field once the upload succeeds;
      the form's dimensions and tags, though sent, are not stored. */
  lemma CarriedFormIsStored(req: FormRequest, f: ProductForm.FormData, image: ProductForm.ImageFile,
                            parse: string -> Option<real>, url: string, publicId: string,
                            now: int, newId: string)
    requires CarriesForm(req, f, image)
    requires f.name != "" && f.price != "" && parse(f.price).Some? && AllowedFile(image.filename)
    ensures var r := AddModel(req, parse, Uploaded(url, publicId), now, newId);
            r.AddStored?
            && r.record == Record(f.name, f.brand, parse(f.price).value, url, publicId, f.technologyType,
                                  f.capacity, f.warranty, f.purificationStages, f.energyConsumption,
                                  f.colorVariant, f.weight, now)
            && Field(req, Dimensions) == Some(f.dimensions) && Field(req, Tags) == Some(f.tags)
            && Dimensions !in ToDoc(newId, r.record) && Tags !in ToDoc(newId, r.record)
  {
    CarriedFields(req, f, image);
    assert image.filename != "" by { assert LastDot(image.filename).Some?; }
    AddModelRecord(req, parse, url, publicId, now, newId);
    ToDocKeys(newId, AddModel(req, parse, Uploaded(url, publicId), now, newId).record);
  }
}
