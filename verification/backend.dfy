/** The Flask backend's route logic: the upload filename check, the document
    serialiser, the fixed-credential login and the create, edit, delete and list
    routes. The `models` collection is a map from ObjectId text to the record
    the routes store; the Cloudinary upload, the clock, `float()` and `str()`
    are inputs. */
module Backend {
  import opened Wrappers
  import opened Strings

  /** A stored value: text, a number, a UTC timestamp, an ObjectId (by its hex
      text) or null. */
  datatype Value = Str(s: string) | Num(n: real) | Time(t: int) | Oid(hex: string) | Null

  /** The keys the routes read or write; any other key is `Other(name)`. */
  datatype Key =
    | Id | MongoId | Name | Brand | Price | ImageUrl | CloudinaryId | TechnologyType | Capacity
    | Warranty | PurificationStages | EnergyConsumption | ColorVariant | Weight | CreatedAt
    | Dimensions | Tags | Username | Password | Image | Other(name: string)

  type Doc = map<Key, Value>

  // ---- allowed_file ----

  const AllowedExtensions: set<string> := {"png", "jpg", "jpeg", "webp"}

  /** The index of the last '.' in `s`. */
  function LastDot(s: string): (r: Option<nat>)
    ensures r.Some? ==> r.value < |s| && s[r.value] == '.'
                        && forall j :: r.value < j < |s| ==> s[j] != '.'
    ensures r.None? ==> forall j :: 0 <= j < |s| ==> s[j] != '.'
  {
    if |s| == 0 then None
    else if s[|s| - 1] == '.' then Some(|s| - 1)
    else LastDot(s[..|s| - 1])
  }

  /** `allowed_file`: the name has a '.' and the text after the last one,
      lower-cased, is an allowed extension. */
  predicate AllowedFile(filename: string) {
    match LastDot(filename)
    case None => false
    case Some(i) => Lower(filename[i + 1..]) in AllowedExtensions
  }

  /** A name without a dot is refused. */
  lemma NoDotRefused(filename: string)
    requires '.' !in filename
    ensures !AllowedFile(filename)
  {
  }

  /** A name with a dot is judged by the dot-free text after its last dot alone:
      together with `NoDotRefused` this decides every name. */
  lemma AllowedFileSplit(base: string, ext: string)
    requires '.' !in ext
    ensures AllowedFile(base + "." + ext) <==> Lower(ext) in AllowedExtensions
  {
    var s := base + "." + ext;
    var r := LastDot(s);
    assert s[|base|] == '.';
    assert r.Some?;
    assert r.value == |base|;
    assert s[|base| + 1..] == ext;
  }

  /** The upper-case extension is accepted; a double extension, a trailing dot
      and a missing dot are refused. */
  lemma AllowedFileExamples()
    ensures AllowedFile("a.PNG")
    ensures !AllowedFile("a.png.exe")
    ensures !AllowedFile("a.")
    ensures !AllowedFile("noext")
  {
    UpperCaseExtensionAllowed();
    LastExtensionDecides();
    EmptyExtensionRefused();
    NoDotRefused("noext");
  }

  /** The extension is lower-cased before the test. */
  lemma UpperCaseExtensionAllowed()
    ensures AllowedFile("a.PNG")
  {
    AllowedFileSplit("a", "PNG");
    assert "a" + "." + "PNG" == "a.PNG";
    assert Lower("PNG") == "png";
  }

  /** Only the text after the last dot counts. */
  lemma LastExtensionDecides()
    ensures !AllowedFile("a.png.exe")
  {
    AllowedFileSplit("a.png", "exe");
    assert "a.png" + "." + "exe" == "a.png.exe";
    assert Lower("exe") == "exe";
  }

  /** A trailing dot leaves an empty extension, which is refused. */
  lemma EmptyExtensionRefused()
    ensures !AllowedFile("a.")
  {
    AllowedFileSplit("a", "");
    assert "a" + "." + "" == "a.";
  }

  // ---- dump_model ----

  /** Python's `str()` of a stored value: an ObjectId prints as its hex text,
      text as itself; other values through `render`. */
  function Text(v: Value, render: Value -> string): (r: string)
    ensures v.Oid? ==> r == v.hex
    ensures v.Str? ==> r == v.s
  {
    match v
    case Oid(h) => h
    case Str(s) => s
    case _ => render(v)
  }

  /** `dump_model`: `_id` is replaced by its text under `id` (`""` when there
      was none), a timestamp `createdAt` becomes ISO text, and every other key
      is kept. */
  function DumpModel(doc: Doc, render: Value -> string, iso: int -> string): (r: Doc)
    ensures forall k :: k in r <==> k == Id || (k in doc && k != MongoId)
    ensures r[Id] == Str(if MongoId in doc then Text(doc[MongoId], render) else "")
    ensures CreatedAt in doc && doc[CreatedAt].Time? ==> r[CreatedAt] == Str(iso(doc[CreatedAt].t))
    ensures CreatedAt in doc && !doc[CreatedAt].Time? ==> r[CreatedAt] == doc[CreatedAt]
    ensures forall k :: k in doc && k !in {MongoId, Id, CreatedAt} ==> r[k] == doc[k]
  {
    var id := if MongoId in doc then Text(doc[MongoId], render) else "";
    var m := (doc - {MongoId})[Id := Str(id)];
    if CreatedAt in m && m[CreatedAt].Time? then m[CreatedAt := Str(iso(m[CreatedAt].t))] else m
  }

  /** Reverses `DumpModel` for a document the database produced (an ObjectId
      `_id` and no `id` key), except that an ISO `createdAt` stays text. */
  function Undump(r: Doc): (doc: Doc) {
    if Id in r && r[Id].Str? then (r - {Id})[MongoId := Oid(r[Id].s)] else r
  }

  lemma DumpRoundTrip(doc: Doc, render: Value -> string, iso: int -> string)
    requires MongoId in doc && doc[MongoId].Oid?
    requires Id !in doc
    ensures Undump(DumpModel(doc, render, iso)) - {CreatedAt} == doc - {CreatedAt}
    ensures CreatedAt in doc <==> CreatedAt in Undump(DumpModel(doc, render, iso))
    ensures CreatedAt in doc && doc[CreatedAt].Time? ==>
              Undump(DumpModel(doc, render, iso))[CreatedAt] == Str(iso(doc[CreatedAt].t))
    ensures (CreatedAt in doc ==> !doc[CreatedAt].Time?) ==> Undump(DumpModel(doc, render, iso)) == doc
  {
    var r := DumpModel(doc, render, iso);
    assert (Undump(r) - {CreatedAt}).Keys == (doc - {CreatedAt}).Keys;
    assert Undump(r).Keys == doc.Keys;
  }

  /** Serialising twice loses the id: the second pass finds no `_id`. */
  lemma DumpTwiceLosesId(doc: Doc, render: Value -> string, iso: int -> string)
    ensures DumpModel(DumpModel(doc, render, iso), render, iso)[Id] == Str("")
  {
  }

  /** An error reply: the status code and the `error` text. */
  datatype Failure = Failure(status: int, error: string)

  // ---- login ----

  /** The body of a login request as `request.json` sees it: not readable as
      JSON (the framework refuses it with a status of its own choosing), JSON
      that is not an object (`null`, a list, a string or a number), or an object. */
  datatype LoginBody = Unreadable(status: int) | NonObject | Object(fields: Doc)

  /** What `login` answers: a token with 200, a 401, or an error status the
      framework produces before or instead of the route's own answer. */
  datatype LoginReply = Granted(token: string) | Denied(failure: Failure) | Aborted(status: int)

  /** The fixed credentials, compared as `==` on the JSON values (absent keys are `None`). */
  predicate HasAdminCredentials(fields: Doc) {
    Username in fields && fields[Username] == Str("admin") &&
    Password in fields && fields[Password] == Str("secure123")
  }

  /** `login`: the fixed credentials get a token (created by the JWT library,
      an input here); any other object is refused with 401. A body that is not
      JSON is refused by the framework, and `data.get` on JSON that is not an
      object raises, which the framework turns into a 500. */
  function Login(body: LoginBody, token: string): (r: LoginReply)
    ensures r.Granted? <==> body.Object? && HasAdminCredentials(body.fields)
    ensures r.Granted? ==> r.token == token
    ensures body.Object? && !HasAdminCredentials(body.fields) ==> r == Denied(Failure(401, "Invalid credentials"))
    ensures body.Unreadable? ==> r == Aborted(body.status)
    ensures body.NonObject? ==> r == Aborted(500)
  {
    match body
    case Unreadable(status) => Aborted(status)
    case NonObject => Aborted(500)
    case Object(fields) =>
      var username := if Username in fields then fields[Username] else Null;
      var password := if Password in fields then fields[Password] else Null;
      if username == Str("admin") && password == Str("secure123") then Granted(token)
      else Denied(Failure(401, "Invalid credentials"))
  }

  // ---- requests ----

  /** An uploaded file part; its bytes are not modelled. */
  datatype Upload = Upload(filename: string)

  /** A multipart request: file parts and text fields by name. */
  datatype FormRequest = FormRequest(files: map<Key, Upload>, form: map<Key, string>)

  /** `request.form.get(key)` */
  function Field(req: FormRequest, key: Key): (r: Option<string>)
    ensures r.Some? <==> key in req.form
    ensures r.Some? ==> r.value == req.form[key]
  {
    if key in req.form then Some(req.form[key]) else None
  }

  /** `request.form.get(key, "")` */
  function FieldOr(req: FormRequest, key: Key): (r: string)
    ensures key in req.form ==> r == req.form[key]
    ensures key !in req.form ==> r == ""
  {
    Field(req, key).GetOr("")
  }

  /** What the image host answers. */
  datatype UploadOutcome = UploadFailed(message: string) | Uploaded(secureUrl: string, publicId: string)

  /** The outcome of the name and price checks. */
  datatype Checked = Refused(failure: Failure) | Fine(name: string, price: real)

  /** The name/price checks both routes share: both present and non-empty, then
      the price parses as a number. */
  function CheckNameAndPrice(req: FormRequest, parse: string -> Option<real>): (r: Checked)
    ensures r.Fine? <==> Present(Field(req, Name)) && Present(Field(req, Price))
                         && parse(req.form[Price]).Some?
    ensures r.Fine? ==> r.name == req.form[Name] && r.price == parse(req.form[Price]).value
    ensures r.Refused? && !(Present(Field(req, Name)) && Present(Field(req, Price))) ==>
            r.failure == Failure(400, "Name and price are required")
    ensures r.Refused? && Present(Field(req, Name)) && Present(Field(req, Price)) ==>
            r.failure == Failure(400, "Price must be a valid number")
  {
    var name := Field(req, Name);
    var price := Field(req, Price);
    if !Present(name) || !Present(price) then Refused(Failure(400, "Name and price are required"))
    else
      match parse(price.value)
      case None => Refused(Failure(400, "Price must be a valid number"))
      case Some(p) => Fine(name.value, p)
  }

  const BadFileType := "Invalid file type. Allowed: jpg, png, webp"

  /** `f"Image upload failed: {str(e)}"` with status 500. */
  function UploadFailure(message: string): (f: Failure)
    ensures f.status == 500 && IsPrefix("Image upload failed: ", f.error)
    ensures f.error[|"Image upload failed: "|..] == message
  {
    Failure(500, "Image upload failed: " + message)
  }

  // ---- stored records ----

  /** A record of the `models` collection as the routes write it. */
  datatype Record = Record(
    name: string, brand: string, price: real, imageUrl: string, cloudinaryId: string,
    technologyType: string, capacity: string, warranty: string, purificationStages: string,
    energyConsumption: string, colorVariant: string, weight: string, createdAt: int)

  /** The keys of a stored document: `_id` and the thirteen fields `add_model` writes. */
  predicate IsStoredKey(k: Key) {
    match k
    case MongoId | Name | Brand | Price | ImageUrl | CloudinaryId | TechnologyType | Capacity | Warranty
       | PurificationStages | EnergyConsumption | ColorVariant | Weight | CreatedAt => true
    case _ => false
  }

  /** The value a stored document holds under `k`. */
  function StoredValue(id: string, m: Record, k: Key): Value {
    match k
    case MongoId => Oid(id)
    case Name => Str(m.name)
    case Brand => Str(m.brand)
    case Price => Num(m.price)
    case ImageUrl => Str(m.imageUrl)
    case CloudinaryId => Str(m.cloudinaryId)
    case TechnologyType => Str(m.technologyType)
    case Capacity => Str(m.capacity)
    case Warranty => Str(m.warranty)
    case PurificationStages => Str(m.purificationStages)
    case EnergyConsumption => Str(m.energyConsumption)
    case ColorVariant => Str(m.colorVariant)
    case Weight => Str(m.weight)
    case CreatedAt => Time(m.createdAt)
    case _ => Null
  }

  /** The record as the database document with ObjectId `id`. */
  function ToDoc(id: string, m: Record): Doc {
    map[MongoId := Oid(id), Name := Str(m.name), Brand := Str(m.brand), Price := Num(m.price),
        ImageUrl := Str(m.imageUrl), CloudinaryId := Str(m.cloudinaryId),
        TechnologyType := Str(m.technologyType), Capacity := Str(m.capacity),
        Warranty := Str(m.warranty), PurificationStages := Str(m.purificationStages),
        EnergyConsumption := Str(m.energyConsumption), ColorVariant := Str(m.colorVariant),
        Weight := Str(m.weight), CreatedAt := Time(m.createdAt)]
  }

  /** A stored document holds exactly `_id` and the thirteen stored fields; in
      particular neither `dimensions` nor `tags`. */
  lemma ToDocKeys(id: string, m: Record)
    ensures forall k :: k in ToDoc(id, m) <==> IsStoredKey(k)
    ensures forall k :: k in ToDoc(id, m) ==> ToDoc(id, m)[k] == StoredValue(id, m, k)
  {
    forall k ensures k in ToDoc(id, m) <==> IsStoredKey(k) {
      match k
      case Id =>
      case Dimensions =>
      case Tags =>
      case Username =>
      case Password =>
      case Image =>
      case Other(_) =>
      case _ =>
    }
  }

  /** What a client receives for a stored record: `dump_model` of its
      document, so `id` in place of `_id`, the ISO creation time, and every
      other field as stored. */
  function Serve(id: string, m: Record, render: Value -> string, iso: int -> string): (d: Doc)
    ensures forall k :: k in d <==> k == Id || (IsStoredKey(k) && k != MongoId)
    ensures d[Id] == Str(id) && CreatedAt in d && d[CreatedAt] == Str(iso(m.createdAt))
    ensures forall k :: k in d && k != Id && k != CreatedAt ==> d[k] == StoredValue(id, m, k)
  {
    ToDocKeys(id, m);
    DumpModel(ToDoc(id, m), render, iso)
  }

  /** The form part of a record: name, price and the optional fields, each
      `request.form.get(key, "")`. */
  function WithForm(m: Record, req: FormRequest, name: string, price: real): (r: Record)
    ensures r.name == name && r.price == price
    ensures r.brand == FieldOr(req, Brand) && r.technologyType == FieldOr(req, TechnologyType)
    ensures r.capacity == FieldOr(req, Capacity) && r.warranty == FieldOr(req, Warranty)
    ensures r.purificationStages == FieldOr(req, PurificationStages)
    ensures r.energyConsumption == FieldOr(req, EnergyConsumption)
    ensures r.colorVariant == FieldOr(req, ColorVariant) && r.weight == FieldOr(req, Weight)
    ensures r.imageUrl == m.imageUrl && r.cloudinaryId == m.cloudinaryId && r.createdAt == m.createdAt
  {
    m.(name := name, brand := FieldOr(req, Brand), price := price,
       technologyType := FieldOr(req, TechnologyType), capacity := FieldOr(req, Capacity),
       warranty := FieldOr(req, Warranty), purificationStages := FieldOr(req, PurificationStages),
       energyConsumption := FieldOr(req, EnergyConsumption), colorVariant := FieldOr(req, ColorVariant),
       weight := FieldOr(req, Weight))
  }

  // ---- add_model ----

  /** The upload checks of `add_model`, in order: the part, its filename, its extension. */
  function CheckImage(req: FormRequest): (r: Option<Failure>)
    ensures Image !in req.files ==> r == Some(Failure(400, "No image part"))
    ensures Image in req.files && req.files[Image].filename == "" ==>
            r == Some(Failure(400, "No selected image"))
    ensures Image in req.files && req.files[Image].filename != "" ==>
            (r.None? <==> AllowedFile(req.files[Image].filename))
    ensures Image in req.files && req.files[Image].filename != "" && !AllowedFile(req.files[Image].filename) ==>
            r == Some(Failure(400, BadFileType))
    ensures r.Some? ==> r.value.status == 400
  {
    if Image !in req.files then Some(Failure(400, "No image part"))
    else if req.files[Image].filename == "" then Some(Failure(400, "No selected image"))
    else if !AllowedFile(req.files[Image].filename) then Some(Failure(400, BadFileType))
    else None
  }

  /** A create request the route accepts, stated without its order of checks. */
  predicate Acceptable(req: FormRequest, parse: string -> Option<real>) {
    Image in req.files && req.files[Image].filename != "" && AllowedFile(req.files[Image].filename)
    && Present(Field(req, Name)) && Present(Field(req, Price)) && parse(req.form[Price]).Some?
  }

  /** What `add_model` does: refuse, or insert a record under the id the
      database assigns and answer 201 with it serialised. */
  datatype AddResult = AddRefused(failure: Failure) | AddStored(id: string, record: Record)

  /** `add_model`: the image checks, then name and price, then the number, then
      the upload. The clock reads `now` and the database assigns `newId`. */
  function AddModel(req: FormRequest, parse: string -> Option<real>, upload: UploadOutcome,
                    now: int, newId: string): (r: AddResult)
    ensures CheckImage(req).Some? ==> r == AddRefused(CheckImage(req).value)
    ensures CheckImage(req).None? && CheckNameAndPrice(req, parse).Refused? ==>
            r == AddRefused(CheckNameAndPrice(req, parse).failure)
    ensures Acceptable(req, parse) && upload.UploadFailed? ==> r == AddRefused(UploadFailure(upload.message))
    ensures r.AddStored? <==> Acceptable(req, parse) && upload.Uploaded?
    ensures r.AddStored? ==>
              r.id == newId && r.record.createdAt == now
              && r.record.name == req.form[Name] && r.record.price == parse(req.form[Price]).value
              && r.record.imageUrl == upload.secureUrl && r.record.cloudinaryId == upload.publicId
              && r.record.brand == FieldOr(req, Brand) && r.record.weight == FieldOr(req, Weight)
  {
    match CheckImage(req)
    case Some(failure) => AddRefused(failure)
    case None =>
      match CheckNameAndPrice(req, parse)
      case Refused(failure) => AddRefused(failure)
      case Fine(name, price) =>
        match upload
        case UploadFailed(message) => AddRefused(UploadFailure(message))
        case Uploaded(url, publicId) =>
          var blank := Record("", "", 0.0, url, publicId, "", "", "", "", "", "", "", now);
          var record := WithForm(blank, req, name, price);
          AddStored(newId, record)
  }

  /** An accepted create with a successful upload stores the form's name,
      price and optional fields, the upload's URL and id, and the clock. */
  lemma AddModelRecord(req: FormRequest, parse: string -> Option<real>, url: string, publicId: string,
                       now: int, newId: string)
    requires Acceptable(req, parse)
    ensures AddModel(req, parse, Uploaded(url, publicId), now, newId)
            == var record := Record(req.form[Name], FieldOr(req, Brand), parse(req.form[Price]).value, url, publicId,
                                    FieldOr(req, TechnologyType), FieldOr(req, Capacity), FieldOr(req, Warranty),
                                    FieldOr(req, PurificationStages), FieldOr(req, EnergyConsumption),
                                    FieldOr(req, ColorVariant), FieldOr(req, Weight), now);
               AddStored(newId, record)
  {
  }

  // ---- edit_model, delete_model, the list routes ----

  predicate IsHexDigit(c: char) {
    ('0' <= c <= '9') || ('a' <= c <= 'f') || ('A' <= c <= 'F')
  }

  /** `ObjectId(id)` accepts a text id of exactly 24 hexadecimal digits. */
  predicate ValidObjectId(id: string) {
    |id| == 24 && forall i :: 0 <= i < |id| ==> IsHexDigit(id[i])
  }

  /** The `models` collection: records by the lower-case hex text of their ObjectId. */
  type Store = map<string, Record>

  /** A new image was sent: an "image" part with a non-empty filename. */
  predicate ImageGiven(req: FormRequest) {
    Image in req.files && req.files[Image].filename != ""
  }

  /** The record after an edit, and the old image to destroy, if any. */
  datatype Revision = RevisionRefused(failure: Failure) | Revised(record: Record, destroyed: Option<string>)

  /** The second half of `edit_model`, once the id and the form have passed:
      write the form fields; when a new image is sent, check its extension,
      upload it, point the record at it and destroy the old image if there was
      one. */
  function Revise(model: Record, req: FormRequest, name: string, price: real, upload: UploadOutcome): (r: Revision)
    ensures !ImageGiven(req) ==> r == Revised(WithForm(model, req, name, price), None)
    ensures ImageGiven(req) && !AllowedFile(req.files[Image].filename) ==> r == RevisionRefused(Failure(400, BadFileType))
    ensures ImageGiven(req) && AllowedFile(req.files[Image].filename) ==>
              (upload.UploadFailed? ==> r == RevisionRefused(UploadFailure(upload.message)))
              && (upload.Uploaded? ==> r.Revised? && r.record.imageUrl == upload.secureUrl
                                       && r.record.cloudinaryId == upload.publicId)
    ensures r.Revised? ==> r.record.name == name && r.record.price == price && r.record.createdAt == model.createdAt
    ensures r.Revised? ==> (r.destroyed.Some? <==> ImageGiven(req) && model.cloudinaryId != "")
    ensures r.Revised? && r.destroyed.Some? ==> r.destroyed.value == model.cloudinaryId
  {
    var updated := WithForm(model, req, name, price);
    if !ImageGiven(req) then Revised(updated, None)
    else if !AllowedFile(req.files[Image].filename) then RevisionRefused(Failure(400, BadFileType))
    else
      match upload
      case UploadFailed(message) => RevisionRefused(UploadFailure(message))
      case Uploaded(url, publicId) =>
        Revised(updated.(imageUrl := url, cloudinaryId := publicId),
                if model.cloudinaryId != "" then Some(model.cloudinaryId) else None)
  }

  /** What `edit_model` does: refuse, or update one record, possibly asking the
      image host to destroy the old image, and answer with the record
      serialised. */
  datatype EditResult = EditRefused(failure: Failure) | EditStored(store: Store, destroyed: Option<string>)

  /** `edit_model`: the id format, then existence, then name and price, then
      the revision. A failed destroy is ignored. */
  function EditModel(id: string, store: Store, req: FormRequest, parse: string -> Option<real>,
                     upload: UploadOutcome): (r: EditResult)
    ensures !ValidObjectId(id) ==> r == EditRefused(Failure(400, "Invalid ID format"))
    ensures ValidObjectId(id) && Lower(id) !in store ==> r == EditRefused(Failure(404, "Model not found"))
    ensures ValidObjectId(id) && Lower(id) in store && CheckNameAndPrice(req, parse).Refused? ==>
            r == EditRefused(CheckNameAndPrice(req, parse).failure)
    ensures ValidObjectId(id) && Lower(id) in store && CheckNameAndPrice(req, parse).Fine? ==>
              var c := CheckNameAndPrice(req, parse);
              var v := Revise(store[Lower(id)], req, c.name, c.price, upload);
              (v.RevisionRefused? ==> r == EditRefused(v.failure))
              && (v.Revised? ==> r == EditStored(store[Lower(id) := v.record], v.destroyed))
  {
    if !ValidObjectId(id) then EditRefused(Failure(400, "Invalid ID format"))
    else if Lower(id) !in store then EditRefused(Failure(404, "Model not found"))
    else
      var key := Lower(id);
      match CheckNameAndPrice(req, parse)
      case Refused(failure) => EditRefused(failure)
      case Fine(name, price) =>
        match Revise(store[key], req, name, price, upload)
        case RevisionRefused(failure) => EditRefused(failure)
        case Revised(record, destroyed) =>
          EditStored(store[key := record], destroyed)
  }

  /** An edit succeeds exactly when the id is well formed and known, name and
      price pass, and any new image has an allowed extension and uploads. */
  lemma EditStoresIff(id: string, store: Store, req: FormRequest, parse: string -> Option<real>,
                      upload: UploadOutcome)
    ensures EditModel(id, store, req, parse, upload).EditStored? <==>
              ValidObjectId(id) && Lower(id) in store && CheckNameAndPrice(req, parse).Fine?
              && (ImageGiven(req) ==> AllowedFile(req.files[Image].filename) && upload.Uploaded?)
  {
  }

  /** An edit changes only the edited record, which keeps its creation time. */
  lemma EditTouchesOneRecord(id: string, store: Store, req: FormRequest, parse: string -> Option<real>,
                             upload: UploadOutcome)
    requires EditModel(id, store, req, parse, upload).EditStored?
    ensures var r := EditModel(id, store, req, parse, upload);
            Lower(id) in store && r.store.Keys == store.Keys
            && (forall k :: k in store && k != Lower(id) ==> r.store[k] == store[k])
            && r.store[Lower(id)].createdAt == store[Lower(id)].createdAt
  {
    var key := Lower(id);
    assert ValidObjectId(id) && key in store && CheckNameAndPrice(req, parse).Fine?;
    var c := CheckNameAndPrice(req, parse);
    var v := Revise(store[key], req, c.name, c.price, upload);
    assert v.Revised?;
    assert EditModel(id, store, req, parse, upload).store == store[key := v.record];
  }

  /** Without a new image the record keeps its image URL and image id, nothing
      is destroyed, and the form fields are written. */
  lemma EditWithoutImageKeepsImage(id: string, store: Store, req: FormRequest, parse: string -> Option<real>,
                                   upload: UploadOutcome)
    requires ValidObjectId(id) && Lower(id) in store && CheckNameAndPrice(req, parse).Fine?
    requires !ImageGiven(req)
    ensures var r := EditModel(id, store, req, parse, upload);
            var before := store[Lower(id)];
            r.EditStored? && r.destroyed.None?
            && r.store[Lower(id)] == WithForm(before, req, req.form[Name], parse(req.form[Price]).value)
            && r.store[Lower(id)].imageUrl == before.imageUrl
            && r.store[Lower(id)].cloudinaryId == before.cloudinaryId
  {
  }

  /** With a new image the record points at the upload, and the old image is
      destroyed exactly when the record had an image id. */
  lemma EditWithImageReplacesImage(id: string, store: Store, req: FormRequest, parse: string -> Option<real>,
                                   url: string, publicId: string)
    requires ValidObjectId(id) && Lower(id) in store && CheckNameAndPrice(req, parse).Fine?
    requires ImageGiven(req) && AllowedFile(req.files[Image].filename)
    ensures var r := EditModel(id, store, req, parse, Uploaded(url, publicId));
            var before := store[Lower(id)];
            r.EditStored?
            && r.store[Lower(id)].imageUrl == url && r.store[Lower(id)].cloudinaryId == publicId
            && r.store[Lower(id)].name == req.form[Name]
            && (r.destroyed.Some? <==> before.cloudinaryId != "")
            && (r.destroyed.Some? ==> r.destroyed.value == before.cloudinaryId)
  {
  }

  /** What `delete_model` does: refuse, or remove the record, asking the image
      host to destroy its image when it had one. */
  datatype DeleteResult = DeleteRefused(failure: Failure) | Deleted(store: Store, destroyed: Option<string>)

  /** `delete_model`: the id format, then existence; the destroy request's
      failure (`destroyFails`) is caught and the record is removed anyway. */
  function DeleteModel(id: string, store: Store, destroyFails: bool): (r: DeleteResult)
    ensures !ValidObjectId(id) ==> r == DeleteRefused(Failure(400, "Invalid ID format"))
    ensures ValidObjectId(id) && Lower(id) !in store ==> r == DeleteRefused(Failure(404, "Model not found"))
    ensures r.Deleted? <==> ValidObjectId(id) && Lower(id) in store
    ensures r.Deleted? ==> r.store == store - {Lower(id)}
    ensures r.Deleted? ==> (r.destroyed.Some? <==> store[Lower(id)].cloudinaryId != "")
    ensures r.Deleted? && store[Lower(id)].cloudinaryId != "" ==> r.destroyed == Some(store[Lower(id)].cloudinaryId)
  {
    if !ValidObjectId(id) then DeleteRefused(Failure(400, "Invalid ID format"))
    else if Lower(id) !in store then DeleteRefused(Failure(404, "Model not found"))
    else
      var image := store[Lower(id)].cloudinaryId;
      Deleted(store - {Lower(id)}, if image != "" then Some(image) else None)
  }

  /** `get_admin_models` and `get_public_models`: every record the query
      returns, serialised, in the query's order (the query's sort is not
      modelled). */
  function ListModels(records: seq<(string, Record)>, render: Value -> string, iso: int -> string): (r: seq<Doc>)
    ensures |r| == |records|
    ensures forall i :: 0 <= i < |r| ==> Id in r[i] && r[i][Id] == Str(records[i].0) && MongoId !in r[i]
    ensures forall i :: 0 <= i < |r| ==> r[i] == Serve(records[i].0, records[i].1, render, iso)
  {
    seq(|records|, i requires 0 <= i < |records| => Serve(records[i].0, records[i].1, render, iso))
  }
}
