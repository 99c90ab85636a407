/** The admin product form: its initial state, single-field edits, the image
    requirement, the 13-part multipart payload and the status messages of a
    submission. The request's answer is an input. */
module ProductForm {
  import opened Wrappers
  import opened Strings

  /** The file picked in the image input; its bytes are not modelled. */
  datatype ImageFile = ImageFile(filename: string)

  /** The controlled inputs of the form (all text, the price included) and the image. */
  datatype FormData = FormData(
    name: string, brand: string, price: string, technologyType: string, capacity: string,
    warranty: string, purificationStages: string, energyConsumption: string,
    colorVariant: string, dimensions: string, weight: string, tags: string,
    image: Option<ImageFile>)

  /** The text inputs, in payload order. */
  datatype Field =
    | Name | Brand | Price | TechnologyType | Capacity | Warranty | PurificationStages
    | EnergyConsumption | ColorVariant | Dimensions | Weight | Tags

  const TextFields: seq<Field> :=
    [Name, Brand, Price, TechnologyType, Capacity, Warranty, PurificationStages,
     EnergyConsumption, ColorVariant, Dimensions, Weight, Tags]

  /** The key of an input, both in the form state and in the payload. */
  function Key(k: Field): string {
    match k
    case Name => "name"
    case Brand => "brand"
    case Price => "price"
    case TechnologyType => "technologyType"
    case Capacity => "capacity"
    case Warranty => "warranty"
    case PurificationStages => "purificationStages"
    case EnergyConsumption => "energyConsumption"
    case ColorVariant => "colorVariant"
    case Dimensions => "dimensions"
    case Weight => "weight"
    case Tags => "tags"
  }

  /** The input a payload key belongs to. */
  function FieldOfKey(key: string): (r: Option<Field>)
    ensures r.Some? ==> Key(r.value) == key
  {
    if key == "name" then Some(Name)
    else if key == "brand" then Some(Brand)
    else if key == "price" then Some(Price)
    else if key == "technologyType" then Some(TechnologyType)
    else if key == "capacity" then Some(Capacity)
    else if key == "warranty" then Some(Warranty)
    else if key == "purificationStages" then Some(PurificationStages)
    else if key == "energyConsumption" then Some(EnergyConsumption)
    else if key == "colorVariant" then Some(ColorVariant)
    else if key == "dimensions" then Some(Dimensions)
    else if key == "weight" then Some(Weight)
    else if key == "tags" then Some(Tags)
    else None
  }

  /** Every input has its own key. */
  lemma KeyRoundTrip(k: Field)
    ensures FieldOfKey(Key(k)) == Some(k)
  {
  }

  function Get(f: FormData, k: Field): string {
    match k
    case Name => f.name
    case Brand => f.brand
    case Price => f.price
    case TechnologyType => f.technologyType
    case Capacity => f.capacity
    case Warranty => f.warranty
    case PurificationStages => f.purificationStages
    case EnergyConsumption => f.energyConsumption
    case ColorVariant => f.colorVariant
    case Dimensions => f.dimensions
    case Weight => f.weight
    case Tags => f.tags
  }

  /** `handleInputChange(field, value)`: `{ ...prev, [field]: value }`. */
  function Set(f: FormData, k: Field, v: string): (r: FormData)
    ensures Get(r, k) == v
    ensures forall other :: other != k ==> Get(r, other) == Get(f, other)
    ensures r.image == f.image
  {
    match k
    case Name => f.(name := v)
    case Brand => f.(brand := v)
    case Price => f.(price := v)
    case TechnologyType => f.(technologyType := v)
    case Capacity => f.(capacity := v)
    case Warranty => f.(warranty := v)
    case PurificationStages => f.(purificationStages := v)
    case EnergyConsumption => f.(energyConsumption := v)
    case ColorVariant => f.(colorVariant := v)
    case Dimensions => f.(dimensions := v)
    case Weight => f.(weight := v)
    case Tags => f.(tags := v)
  }

  /** The form as first rendered. */
  function Initial(): (f: FormData)
    ensures forall k :: k != TechnologyType ==> Get(f, k) == ""
    ensures Get(f, TechnologyType) == "RO"
    ensures f.image.None?
  {
    FormData("", "", "", "RO", "", "", "", "", "", "", "", "", None)
  }

  /** `handleImageChange`: the first picked file becomes the image; an empty
      pick changes nothing. */
  function PickImage(f: FormData, files: seq<ImageFile>): (r: FormData)
    ensures |files| > 0 ==> r.image == Some(files[0])
    ensures |files| == 0 ==> r == f
    ensures forall k :: Get(r, k) == Get(f, k)
  {
    if |files| > 0 then f.(image := Some(files[0])) else f
  }

  /** One part of a multipart body. */
  datatype PartValue = TextPart(text: string) | FilePart(file: ImageFile)

  type Payload = seq<(string, PartValue)>

  /** The text parts for `fields`, in order. */
  function TextParts(f: FormData, fields: seq<Field>): (p: Payload)
    ensures |p| == |fields|
    ensures forall i :: 0 <= i < |fields| ==> p[i] == (Key(fields[i]), TextPart(Get(f, fields[i])))
  {
    if |fields| == 0 then [] else [(Key(fields[0]), TextPart(Get(f, fields[0])))] + TextParts(f, fields[1..])
  }

  /** The body `handleSubmit` posts: twelve text parts in input order, then the image. */
  function BuildPayload(f: FormData, image: ImageFile): Payload {
    TextParts(f, TextFields) + [("image", FilePart(image))]
  }

  function Keys(p: Payload): (ks: seq<string>)
    ensures |ks| == |p|
    ensures forall i :: 0 <= i < |p| ==> ks[i] == p[i].0
  {
    seq(|p|, i requires 0 <= i < |p| => p[i].0)
  }

  /** The payload has exactly these thirteen keys, in this order. */
  lemma PayloadKeys(f: FormData, image: ImageFile)
    ensures Keys(BuildPayload(f, image)) ==
            ["name", "brand", "price", "technologyType", "capacity", "warranty",
             "purificationStages", "energyConsumption", "colorVariant", "dimensions",
             "weight", "tags", "image"]
  {
  }

  /** How a form parser reads text fields: the first part with a key wins. */
  function TextFieldsOf(p: Payload): map<string, string> {
    if |p| == 0 then map[]
    else
      var rest := TextFieldsOf(p[1..]);
      match p[0].1
      case TextPart(t) => rest[p[0].0 := t]
      case FilePart(_) => rest
  }

  /** The first file part with a key. */
  function FileOf(p: Payload, key: string): Option<ImageFile> {
    if |p| == 0 then None
    else if p[0].0 == key && p[0].1.FilePart? then Some(p[0].1.file)
    else FileOf(p[1..], key)
  }

  /** Reads a form back from a payload; fails unless every input and the image are there. */
  function DecodePayload(p: Payload): Option<FormData> {
    var fields := TextFieldsOf(p);
    if forall k :: Key(k) in fields then
      Some(FormData(fields[Key(Name)], fields[Key(Brand)], fields[Key(Price)],
                    fields[Key(TechnologyType)], fields[Key(Capacity)], fields[Key(Warranty)],
                    fields[Key(PurificationStages)], fields[Key(EnergyConsumption)],
                    fields[Key(ColorVariant)], fields[Key(Dimensions)], fields[Key(Weight)],
                    fields[Key(Tags)], FileOf(p, "image")))
    else None
  }

  /** The text parts of `fields` carry each input's value under its key. */
  lemma {:induction false} TextPartsFields(f: FormData, fields: seq<Field>, tail: Payload)
    requires forall i :: 0 <= i < |tail| ==> tail[i].1.FilePart?
    ensures forall k :: k in fields ==> Key(k) in TextFieldsOf(TextParts(f, fields) + tail)
                                        && TextFieldsOf(TextParts(f, fields) + tail)[Key(k)] == Get(f, k)
  {
    if |fields| == 0 {
    } else {
      TextPartsFields(f, fields[1..], tail);
      var p := TextParts(f, fields) + tail;
      assert p[1..] == TextParts(f, fields[1..]) + tail;
      forall k | k in fields
        ensures Key(k) in TextFieldsOf(p) && TextFieldsOf(p)[Key(k)] == Get(f, k)
      {
        if k != fields[0] {
          assert k in fields[1..];
          KeyRoundTrip(k);
          KeyRoundTrip(fields[0]);
        }
      }
    }
  }

  /** Every input is listed in `TextFields`. */
  lemma TextFieldsComplete(k: Field)
    ensures k in TextFields
  {
    match k
    case Name => assert TextFields[0] == k;
    case Brand => assert TextFields[1] == k;
    case Price => assert TextFields[2] == k;
    case TechnologyType => assert TextFields[3] == k;
    case Capacity => assert TextFields[4] == k;
    case Warranty => assert TextFields[5] == k;
    case PurificationStages => assert TextFields[6] == k;
    case EnergyConsumption => assert TextFields[7] == k;
    case ColorVariant => assert TextFields[8] == k;
    case Dimensions => assert TextFields[9] == k;
    case Weight => assert TextFields[10] == k;
    case Tags => assert TextFields[11] == k;
  }

  /** A payload whose text fields hold the inputs of `f` decodes to `f`. */
  lemma DecodeFields(p: Payload, f: FormData)
    requires forall k :: Key(k) in TextFieldsOf(p) && TextFieldsOf(p)[Key(k)] == Get(f, k)
    ensures DecodePayload(p) == Some(f.(image := FileOf(p, "image")))
  {
    var fields := TextFieldsOf(p);
    assert fields[Key(Name)] == f.name && fields[Key(Brand)] == f.brand && fields[Key(Price)] == f.price;
    assert fields[Key(TechnologyType)] == f.technologyType && fields[Key(Capacity)] == f.capacity;
    assert fields[Key(Warranty)] == f.warranty && fields[Key(PurificationStages)] == f.purificationStages;
    assert fields[Key(EnergyConsumption)] == f.energyConsumption && fields[Key(ColorVariant)] == f.colorVariant;
    assert fields[Key(Dimensions)] == f.dimensions && fields[Key(Weight)] == f.weight && fields[Key(Tags)] == f.tags;
  }

  /** What a form parser reads from the payload: every input under its key,
      and the image under "image". */
  lemma PayloadFields(f: FormData, image: ImageFile)
    ensures forall k :: Key(k) in TextFieldsOf(BuildPayload(f, image))
                        && TextFieldsOf(BuildPayload(f, image))[Key(k)] == Get(f, k)
    ensures FileOf(BuildPayload(f, image), "image") == Some(image)
  {
    var texts := TextParts(f, TextFields);
    TextPartsFields(f, TextFields, [("image", FilePart(image))]);
    forall k { TextFieldsComplete(k); }
    FileOfTail(texts, image);
  }

  /** The payload carries the whole form: reading it back gives the form with
      its image. */
  lemma PayloadRoundTrip(f: FormData, image: ImageFile)
    ensures DecodePayload(BuildPayload(f, image)) == Some(f.(image := Some(image)))
  {
    PayloadFields(f, image);
    DecodeFields(BuildPayload(f, image), f);
  }

  /** The image part is found behind the text parts. */
  lemma {:induction false} FileOfTail(texts: Payload, image: ImageFile)
    requires forall i :: 0 <= i < |texts| ==> texts[i].1.TextPart?
    ensures FileOf(texts + [("image", FilePart(image))], "image") == Some(image)
  {
    if |texts| > 0 {
      assert (texts + [("image", FilePart(image))])[1..] == texts[1..] + [("image", FilePart(image))];
      FileOfTail(texts[1..], image);
    }
  }

  /** The error and success banners and the submit button's busy flag. */
  datatype Status = Status(error: string, success: string, loading: bool)

  /** The parsed body of the create response. */
  datatype ResultBody =
    | ResultNotJson(parseMessage: string)    // `response.json()` throws with this message
    | ResultJson(error: Option<string>)

  /** What the POST yields. */
  datatype SubmitOutcome =
    | SubmitThrew(message: string)
    | SubmitAnswered(ok: bool, body: ResultBody)   // the body is read before `ok` is looked at

  /** A submission: the request sent (if any), the status while it is in flight,
      the final status, and whether `onSuccess` is scheduled. */
  datatype Submission = Submission(request: Option<Payload>, pending: Status, final: Status,
                                   notifySuccess: bool)

  /** `setError(err.message || 'An error occurred')` */
  function ErrorText(message: string): (r: string)
    ensures r != ""
    ensures message != "" ==> r == message
    ensures message == "" ==> r == "An error occurred"
  {
    if message != "" then message else "An error occurred"
  }

  /** `handleSubmit`: clear both banners and set the busy flag; refuse without an
      image; otherwise post the payload; a non-ok answer reports `result.error`,
      else `'Failed to save product'`; the busy flag drops in every case. */
  function HandleSubmit(prior: Status, f: FormData, o: SubmitOutcome): (r: Submission)
    ensures r.pending == Status("", "", true)
    ensures !r.final.loading
    ensures f.image.None? ==> r.request.None? && r.final.error == "Please select an image" && !r.notifySuccess
    ensures f.image.Some? ==> r.request == Some(BuildPayload(f, f.image.value))
    ensures r.notifySuccess <==> f.image.Some? && o.SubmitAnswered? && o.ok && o.body.ResultJson?
    ensures r.notifySuccess <==> r.final.error == ""
    ensures r.notifySuccess ==> r.final.success == "Product added successfully!"
    ensures !r.notifySuccess ==> r.final.success == ""
    ensures f.image.Some? && o.SubmitAnswered? && !o.ok && o.body.ResultJson? ==>
              r.final.error == (if Present(o.body.error) then o.body.error.value else "Failed to save product")
    ensures f.image.Some? && o.SubmitAnswered? && o.body.ResultNotJson? ==>
              r.final.error == ErrorText(o.body.parseMessage)
    ensures f.image.Some? && o.SubmitThrew? && o.message != "" ==> r.final.error == o.message
    ensures f.image.Some? && o.SubmitThrew? && o.message == "" ==> r.final.error == "An error occurred"
  {
    var pending := Status("", "", true);
    if f.image.None? then
      Submission(None, pending, Status("Please select an image", "", false), false)
    else
      var request := Some(BuildPayload(f, f.image.value));
      match o
      case SubmitThrew(message) => Submission(request, pending, Status(ErrorText(message), "", false), false)
      case SubmitAnswered(ok, body) =>
        match body
        case ResultNotJson(message) => Submission(request, pending, Status(ErrorText(message), "", false), false)
        case ResultJson(error) =>
          if !ok then
            var message := if Present(error) then error.value else "Failed to save product";
            Submission(request, pending, Status(ErrorText(message), "", false), false)
          else Submission(request, pending, Status("", "Product added successfully!", false), true)
  }
}
