# RO catalog: a Dafny model of the catalog pages, the admin console and the Flask routes

The RO catalog is a small marketing site for a water-purifier retailer. The site has four parts:

- public pages that list products, show one product in detail, and compare up to three products side by side;
- an admin console that lists, searches, adds and deletes products;
- a product form that sends a new product as a multipart request;
- a Flask backend that validates these requests, uploads images and stores product documents.

This project models the decision logic of those parts as pure Dafny functions and proves what each one promises.

The model replaces every effect with an input value:

- network answers become outcome datatypes, such as `RestOutcome`, `ListOutcome`, `DeleteOutcome` and `SubmitOutcome`;
- the image host's upload becomes `UploadOutcome`;
- the clock becomes a `now` parameter;
- the database's new id becomes a `newId` parameter;
- `float()` becomes `parse: string -> Option<real>`;
- `str()` becomes `render` and `isoformat()` becomes `iso`;
- the signed login token becomes a `token` parameter.

Modules, leaf first:

- `Wrappers`: `Option`.
- `Strings`:
  - prefix and substring tests (`startsWith`, `includes`);
  - ASCII lower-casing;
  - JavaScript truthiness of an optional string (`Present`).
- `Products`: one `Product` record with optional fields. It covers both shapes the pages read: the REST shape (`name`, `imageUrl`, `technologyType`) and the table shape (`model_name`, `image_url`, `technology_type`). The module also holds image-reference resolution, the `value || fallback` display rule, lookup by id and the detail route.
- `MockCatalog`: the three-entry fallback catalog.
- `Compare`: the comparison selection. It is at most three products with distinct ids, with toggle, membership, clear and the disabled-button rule, and the comparison column.
- `CatalogPages`:
  - the REST catalog page's load-with-fallback rule and its card rendering;
  - the table-backed listing's load rule and its empty branch;
  - the `tel:` and `mailto:` contact links.
- `ModelDetail`: the detail page's lookup with mock fallback, the selected image, the mount effect and the attribute grid.
- `Dashboard`: the admin console. It covers the credential guard, the list load (including the 401 redirect), name search, delete, opening the form, and form success.
- `ProductForm`:
  - the form state and single-field input changes;
  - image selection;
  - the 13-part multipart payload and reading it back;
  - the submit handler with its status messages.
- `Backend`: the Flask routes `allowed_file`, `dump_model`, `login`, `add_model`, `edit_model`, `delete_model` and the two list routes. A request is a `FormRequest` with files and form fields. The collection is a `Store` from lower-cased ObjectId text to stored `Record`s.
- `Wire`: connects the form to the backend. It reads a `ProductForm` payload as the backend's `FormRequest`, and proves that a form with a valid name, price and image is stored with exactly the backend's field set.

## Model

| member | source | states |
|---|---|---|
| Strings.ContainsIffOccurs | src/pages/admin/Dashboard.tsx:55 | `includes` holds exactly when some position of the name starts a copy of the term |
| Strings.ContainsEmpty | src/pages/admin/Dashboard.tsx:55 | every string includes the empty term |
| Strings.ContainsPrefix | src/pages/admin/Dashboard.tsx:55 | a string includes any term it starts with |
| Strings.Contains | src/pages/admin/Dashboard.tsx:55 | `includes`, characterised by `Strings.ContainsIffOccurs` |
| Strings.Lower | backend/app.py:53 | lower-casing keeps the length and maps each character on its own |
| Strings.LowerIdempotent | src/pages/admin/Dashboard.tsx:55 | lower-casing a lower-cased string changes nothing |
| Strings.Present | src/pages/Compare.tsx:80 | JavaScript truthiness of an optional string: present and non-empty; `Products.Display` and `Dashboard.MustLogIn` state its use |
| Products.ResolveImage | src/pages/Compare.tsx:82 | the resolved source always starts with `http`; a reference already starting with `http` is used unchanged; any other reference is prefixed with `http://127.0.0.1:5000` |
| Products.ResolveImageKeepsPathAndIsIdempotent | src/pages/Compare.tsx:151 | resolving twice equals resolving once, and the original reference is a suffix of the resolved one |
| Products.ImageSource | frontend/src/pages/Models.tsx:75-83 | an image is shown exactly when `imageUrl` is truthy, and its source is then the resolved `imageUrl`, which starts with `http`; otherwise "No Image" |
| Products.Display | src/pages/Compare.tsx:177-231 | `value \|\| fallback`: a truthy value is shown as is, an absent or empty one shows the fallback, and a non-empty fallback never yields an empty cell |
| Products.FindById | src/pages/ModelDetail.tsx:24 | `find` by id yields nothing exactly when no record has the id; otherwise it yields a record of the list that has the id |
| Products.FindByIdPresent | src/pages/ModelDetail.tsx:24 | if some position holds the id, the lookup finds a record |
| Products.FindByIdAbsent | src/pages/ModelDetail.tsx:32 | if no position holds the id, the lookup finds nothing |
| Products.FindByIdWithout | src/pages/ModelDetail.tsx:26 | a record found in a list where no record has `imageUrl` has no `imageUrl` either |
| Products.DetailLink | frontend/src/pages/Models.tsx:105 | the link `/models/${id}`, characterised by `Products.DetailLinkRoundTrip` |
| Products.IdOfDetailLink | frontend/src/pages/Models.tsx:105 | an id read off a path rebuilds that path as `/models/<id>` |
| Products.DetailLinkRoundTrip | frontend/src/pages/Models.tsx:105 | the detail route recovers the id its link was built from, so distinct ids get distinct links |
| MockCatalog.MockEntry | src/data/mockProducts.ts:3-64 | a fallback entry carries its id, price, `is_active = true`, empty gallery, `model_name` and `image_url`, and no `name`, `imageUrl` or `technologyType` |
| MockCatalog.Mock1 | src/data/mockProducts.ts:4-23 | entry `mock-1`, price 12500, active, empty gallery, no REST name, image or technology |
| MockCatalog.Mock2 | src/data/mockProducts.ts:24-43 | entry `mock-2`, price 9800, active, empty gallery, no REST name, image or technology |
| MockCatalog.Mock3 | src/data/mockProducts.ts:44-63 | entry `mock-3`, price 14500, active, empty gallery, no REST name, image or technology |
| MockCatalog.MockProducts | src/data/mockProducts.ts:3-64 | exactly three entries with ids `mock-1`, `mock-2`, `mock-3`, pairwise distinct; all active with empty galleries; positive prices 12500, 9800, 14500; none carries `name`, `imageUrl` or `technologyType` |
| MockCatalog.MockProductsLackRestFields | src/data/mockProducts.ts:6-18 | every fallback record has no `name` and shows no image on the REST pages, since it uses the table-shape keys |
| MockCatalog.FindKnownMock | src/data/mockProducts.ts:5 | looking up any of the three mock ids finds a record |
| MockCatalog.FindUnknownMock | src/pages/ModelDetail.tsx:32 | looking up any other id in the fallback catalog finds nothing |
| MockCatalog.FindMockById | src/pages/ModelDetail.tsx:32-33 | the fallback lookup succeeds exactly for `mock-1`, `mock-2` and `mock-3` |
| Compare.IsSelected | src/pages/Compare.tsx:38-40 | `isSelected(id)` holds exactly when some selected product has that id |
| Compare.RemoveId | src/pages/Compare.tsx:32 | the filter keeps exactly the selected products with another id, and never grows the selection |
| Compare.Toggle | src/pages/Compare.tsx:30-36 | a selected product is deselected; an unselected one is appended at the end when fewer than 3 are selected; otherwise the selection is unchanged; products with other ids stay |
| Compare.Clear | src/pages/Compare.tsx:105 | after "Clear Selection" no id is selected and the selection is valid |
| Compare.ComparedAttributes | src/pages/Compare.tsx:173-234 | the table compares seven attributes per product |
| Compare.ComparisonColumn | src/pages/Compare.tsx:173-234 | each cell is never empty; a truthy attribute is shown as is and a missing one as `N/A` |
| Compare.RemoveAbsent | src/pages/Compare.tsx:32 | removing an id that no selected product has changes nothing |
| Compare.RemoveFirst | src/pages/Compare.tsx:32 | removing the id held only by the first product drops exactly that product |
| Compare.RemoveAt | src/pages/Compare.tsx:32 | removing the id held only at position k drops exactly position k and keeps the rest in order |
| Compare.RemoveKeepsUnique | src/pages/Compare.tsx:32 | filtering keeps the ids distinct |
| Compare.ToggleRemovesExactly | src/pages/Compare.tsx:31-32 | toggling the product at position k of a duplicate-free selection removes exactly that product and keeps the others in their original order |
| Compare.ToggleKeepsValid | src/pages/Compare.tsx:30-36 | every toggle keeps the selection at most 3 long with distinct ids |
| Compare.ToggleTwiceRestores | src/pages/Compare.tsx:30-36 | toggling an unselected product twice while there is room gives back the original selection |
| Compare.DisabledIffToggleIsNoop | src/pages/Compare.tsx:117 | a button is disabled (not selected and 3 selected) exactly when pressing it would leave the selection unchanged |
| Compare.IsDisabled | src/pages/Compare.tsx:117 | the button's disabled rule, characterised by `Compare.DisabledIffToggleIsNoop` |
| CatalogPages.LoadWithFallback | frontend/src/pages/Models.tsx:15-28 | a non-empty live list is used; an empty or missing list, a non-ok answer and an error all give the mock catalog; so the result is never empty (the compare page, src/pages/Compare.tsx:16-28, does the same) |
| CatalogPages.CatalogCard | frontend/src/pages/Models.tsx:75-109 | the card's title is the product's `name`; it shows `technologyType \|\| 'RO'` and `capacity \|\| '7L'`; it shows an image exactly when `imageUrl` is truthy, and that image is the resolved `imageUrl`; its link leads back to the product's id |
| CatalogPages.RenderCatalog | frontend/src/pages/Models.tsx:51-113 | the "updating our latest models" notice appears exactly for an empty list; otherwise there is one card per product, in order |
| CatalogPages.LoadedCatalogNeverShowsNotice | frontend/src/pages/Models.tsx:20-51 | after any load the list is non-empty, so the empty-list branch is unreachable |
| CatalogPages.FallbackCardsUseDefaults | frontend/src/pages/Models.tsx:87-100 | whenever the fallback is used, every card has no title, no image and the technology `RO` |
| CatalogPages.CardsOfRestlessRecords | frontend/src/pages/Models.tsx:87-100 | records without REST fields get cards with no title, no image and the default technology |
| CatalogPages.TableLoad | src/pages/Models.tsx:16-31 | on a query error the list stays empty (no fallback); non-empty rows are used; empty or null rows give the mock catalog |
| CatalogPages.RenderListing | src/pages/Models.tsx:62-65 | "No products available at the moment." appears exactly for an empty list; otherwise the products are listed unchanged |
| CatalogPages.NoProductsIffQueryFailed | src/pages/Models.tsx:24-65 | on the table-backed listing the "no products" message appears exactly when the query failed |
| CatalogPages.PhoneLink | src/pages/Models.tsx:38-40 | the `tel:` link, characterised by `CatalogPages.PhoneOfLink` and `CatalogPages.ContactLinksRoundTrip` |
| CatalogPages.EmailLink | src/pages/Models.tsx:42-44 | the `mailto:` link, characterised by `CatalogPages.ParseEmailLink` and `CatalogPages.ContactLinksRoundTrip` |
| CatalogPages.PhoneOfLink | src/pages/Models.tsx:38-40 | a number read off a link rebuilds the link as `tel:<phone>` |
| CatalogPages.ParseEmailLink | src/pages/Models.tsx:42-44 | an address and model name read off a link rebuild it as `mailto:<email>?subject=Inquiry about <model>` |
| CatalogPages.ContactLinksRoundTrip | src/pages/Models.tsx:38-44 | the phone link gives back its number; the email link gives back its address and model name whenever the address has no `?` |
| ModelDetail.LoadProduct | src/pages/ModelDetail.tsx:19-40 | see below the table |
| ModelDetail.Mount | src/pages/ModelDetail.tsx:13-33 | without a truthy id the state stays initial (still loading); with one, loading ends and the page shows the live record with that id, else the mock record with that id, else nothing |
| ModelDetail.Render | src/pages/ModelDetail.tsx:48-86 | the loading screen appears exactly while loading; "Model not found" appears exactly when loading ended without a product; otherwise the product is shown, with the selected image when one is selected and the placeholder otherwise |
| ModelDetail.NoIdStaysLoading | src/pages/ModelDetail.tsx:13-17 | the component, mounted without an id, never leaves "Loading details..."; the app's only route to it, `models/:id`, always supplies one |
| ModelDetail.FallbackSelectsNoImage | src/pages/ModelDetail.tsx:26-36 | when the product comes from the mocks (error path, missing list, or id not live), no image is selected |
| ModelDetail.NotFoundIffUnknownId | src/pages/ModelDetail.tsx:24-67 | on a parsed answer "Model not found" appears exactly when neither the live list nor the mock catalog has the id |
| ModelDetail.DetailAttributes | src/pages/ModelDetail.tsx:110-139 | the grid has eight cells labelled Technology, Capacity, Warranty, Stages, Energy Consumption, Color, Dimensions, Weight; each cell shows its attribute when truthy and `N/A` otherwise, so none is empty |
| ModelDetail.DetailAgreesWithComparison | src/pages/ModelDetail.tsx:110-139 | the detail grid shows the seven compared attributes with the same text as the comparison table (src/pages/Compare.tsx:173-234), in the same order, plus the colour |
| ModelDetail.BrandLabel | src/pages/ModelDetail.tsx:101 | the brand line is the brand when truthy, else `Premium Brand` |
| Dashboard.MustLogIn | src/pages/admin/Dashboard.tsx:20-25 | the console redirects to login exactly when the stored credential is missing or empty |
| Dashboard.LoadProducts | src/pages/admin/Dashboard.tsx:33-50 | see below the table |
| Dashboard.Mount | src/pages/admin/Dashboard.tsx:15-18 | the console goes to login exactly when there is no credential or the list answers 401; loading ends in every case; a parsed non-401 answer fills both lists with `models` (or `[]`), any other outcome leaves them empty |
| Dashboard.MountLoadsWithoutCredential | src/pages/admin/Dashboard.tsx:15-25 | without a credential the console still loads the list exactly as with one, and it also navigates to login |
| Dashboard.NameMatches | src/pages/admin/Dashboard.tsx:55 | the name test of the search, characterised by `Dashboard.SearchIgnoresTermCase`, `Dashboard.EmptyTermKeepsNamed` and the examples below |
| Dashboard.Filter | src/pages/admin/Dashboard.tsx:54-56 | a product is kept exactly when it is in the list and its name includes the term, case-insensitively |
| Dashboard.HandleSearch | src/pages/admin/Dashboard.tsx:52-58 | the term is recorded, the full list is kept, the table holds exactly the matching products, and nothing else changes |
| Dashboard.FilterAppend | src/pages/admin/Dashboard.tsx:54-56 | filtering distributes over concatenation, so matches keep their original order |
| Dashboard.SearchNotCumulative | src/pages/admin/Dashboard.tsx:54 | a second search gives the same console as searching the full list directly |
| Dashboard.EmptyTermKeepsNamed | src/pages/admin/Dashboard.tsx:55 | the empty term matches exactly the named products; if all products are named, it gives the whole list |
| Dashboard.SearchIgnoresTermCase | src/pages/admin/Dashboard.tsx:55 | the case of the term does not matter |
| Dashboard.AquaPureMatchesPure | src/pages/admin/Dashboard.tsx:55 | "PURE" matches "AquaPure Pro" |
| Dashboard.PearlPurifierMissesPure | src/pages/admin/Dashboard.tsx:55 | "pure" does not match "Pearl Purifier" |
| Dashboard.PureSearchExample | src/pages/admin/Dashboard.tsx:54-56 | of "AquaPure Pro" and "Pearl Purifier", "pure" keeps only the first |
| Dashboard.DeleteAlert | src/pages/admin/Dashboard.tsx:90 | the alert text is never empty: the error message, else `Failed to delete product` |
| Dashboard.HandleDelete | src/pages/admin/Dashboard.tsx:75-92 | see below the table |
| Dashboard.OpenForm | src/pages/admin/Dashboard.tsx:65-73 | adding or editing opens the form on the given product (none for add) and keeps the lists and the search term |
| Dashboard.HandleFormSuccess | src/pages/admin/Dashboard.tsx:94-97 | form success closes the form and requests a reload, and changes nothing else |
| Dashboard.FormSuccessShowsFreshList | src/pages/admin/Dashboard.tsx:94-97 | after form success and a successful reload the form is closed and the table shows the fresh list, even with a search term typed |
| Dashboard.Logout | src/pages/admin/Dashboard.tsx:60-63 | logout removes the credential and navigates to the login page |
| Dashboard.MountAfterLogoutRedirects | src/pages/admin/Dashboard.tsx:15-25 | mounting the console again after logout sends the browser to the login page, whatever the list request answers |
| ProductForm.FieldOfKey | src/components/admin/ProductForm.tsx:51-62 | a recognised part name is the spelling of its form field |
| ProductForm.KeyRoundTrip | src/components/admin/ProductForm.tsx:51-62 | each form field is recognised from its own part name |
| ProductForm.Set | src/components/admin/ProductForm.tsx:89-91 | an input change sets exactly the named field and leaves every other field and the image unchanged |
| ProductForm.Initial | src/components/admin/ProductForm.tsx:10-24 | every text field starts empty except `technologyType = 'RO'`, and there is no image |
| ProductForm.PickImage | src/components/admin/ProductForm.tsx:31-37 | choosing files stores the first one as the image; choosing none changes nothing; text fields are never touched |
| ProductForm.TextParts | src/components/admin/ProductForm.tsx:51-62 | one text part per listed field, in order, named by the field and carrying its value |
| ProductForm.BuildPayload | src/components/admin/ProductForm.tsx:50-63 | the multipart payload, characterised by `ProductForm.PayloadKeys`, `ProductForm.PayloadFields` and `ProductForm.PayloadRoundTrip` |
| ProductForm.PayloadKeys | src/components/admin/ProductForm.tsx:50-63 | the payload's part names are exactly name, brand, price, technologyType, capacity, warranty, purificationStages, energyConsumption, colorVariant, dimensions, weight, tags, image, in that order |
| ProductForm.PayloadFields | src/components/admin/ProductForm.tsx:50-63 | reading the payload back gives every field's value under its part name, and the file under `image` |
| ProductForm.PayloadRoundTrip | src/components/admin/ProductForm.tsx:50-63 | decoding the payload gives back the form with the submitted image |
| ProductForm.ErrorText | src/components/admin/ProductForm.tsx:83 | the error shown is never empty: the message when it has one, else `An error occurred` |
| ProductForm.HandleSubmit | src/components/admin/ProductForm.tsx:39-87 | see below the table |
| Backend.LastDot | backend/app.py:53 | the last dot, if any: a `.` at that position and none after it; no result exactly when there is no `.` |
| Backend.NoDotRefused | backend/app.py:52 | a filename without `.` is refused |
| Backend.AllowedFileSplit | backend/app.py:51-53 | for `base.ext` with no dot in `ext`, the file is allowed exactly when lower-cased `ext` is png, jpg, jpeg or webp |
| Backend.AllowedFileExamples | backend/app.py:49-53 | `a.PNG` is accepted; `a.png.exe`, `a.` and `noext` are refused |
| Backend.AllowedFile | backend/app.py:51-53 | `allowed_file`, characterised by `Backend.NoDotRefused` and `Backend.AllowedFileSplit` |
| Backend.Text | backend/app.py:57 | `str()` of an ObjectId is its hex text and of a string is the string itself |
| Backend.DumpModel | backend/app.py:55-60 | `_id` is dropped and `id` is added with the text of `_id` (or `""`); a datetime `createdAt` becomes ISO text; every other key is kept with its value |
| Backend.DumpRoundTrip | backend/app.py:55-60 | for a document with an ObjectId `_id` and no `id`, such as every stored one, renaming `id` back to `_id` gives the original document on every key but `createdAt`; `createdAt` is kept when present, as its ISO text if it was a datetime and unchanged otherwise |
| Backend.DumpTwiceLosesId | backend/app.py:57 | dumping an already dumped document sets `id` to `""` |
| Backend.Login | backend/app.py:62-71 | a token is granted exactly for a JSON object with username `admin` and password `secure123`; any other object gets 401 `Invalid credentials`; JSON that is not an object makes `data.get` raise, giving 500; a body that is not JSON gets the framework's refusal |
| Backend.HasAdminCredentials | backend/app.py:65-68 | the credential test, used by `Backend.Login`'s contract |
| Backend.Field | backend/app.py:87-88 | `form.get(key)` is present exactly when the key was sent, and is its value |
| Backend.FieldOr | backend/app.py:108 | `form.get(key, "")` is the sent value, else `""` |
| Backend.CheckNameAndPrice | backend/app.py:86-96 | name and price pass exactly when both are non-empty and the price parses; a missing one gives 400 `Name and price are required`, an unparsable price 400 `Price must be a valid number` |
| Backend.UploadFailure | backend/app.py:102-103 | an upload failure is a 500 whose error is `Image upload failed: ` followed by the message |
| Backend.ToDocKeys | backend/app.py:105-123 | a stored document has exactly `_id` and name, brand, price, imageUrl, cloudinaryId, technologyType, capacity, warranty, purificationStages, energyConsumption, colorVariant, weight, createdAt; no dimensions or tags |
| Backend.ToDoc | backend/app.py:105-120 | the stored document, characterised by `Backend.ToDocKeys` |
| Backend.Serve | backend/app.py:122-128 | a stored record is served with `id` instead of `_id`, ISO `createdAt`, and every other stored field unchanged |
| Backend.WithForm | backend/app.py:182-193 | an edit writes name, price and the eight form fields (missing ones as `""`) and keeps image fields and `createdAt` |
| Backend.CheckImage | backend/app.py:76-84 | a missing image part, an empty filename and a refused extension give their own 400 messages, checked in that order |
| Backend.ImageGiven | backend/app.py:195 | a new image is given exactly when the `image` part is sent with a non-empty filename; `Backend.Revise` and `Backend.EditWithoutImageKeepsImage` state its use |
| Backend.AddModel | backend/app.py:73-128 | see below the table |
| Backend.AddModelRecord | backend/app.py:105-120 | an accepted request with a successful upload stores exactly the record built from the form (missing optional fields as `""`), the upload's URL and id, and the current time |
| Backend.Revise | backend/app.py:195-211 | see below the table |
| Backend.EditModel | backend/app.py:158-218 | see below the table |
| Backend.ValidObjectId | backend/app.py:161-164 | `ObjectId(id)` succeeds exactly for 24 hex digits; `Backend.EditModel` and `Backend.DeleteModel` state its use |
| Backend.EditStoresIff | backend/app.py:161-211 | an edit is stored exactly when the id is a valid ObjectId of a stored model, name and price pass, and any new image is allowed and uploaded |
| Backend.EditTouchesOneRecord | backend/app.py:213 | a stored edit changes only the record under that id: same keys, every other record unchanged |
| Backend.EditWithoutImageKeepsImage | backend/app.py:182-213 | without a new image the stored image URL and image id are kept, and nothing is destroyed |
| Backend.EditWithImageReplacesImage | backend/app.py:195-209 | with an allowed new image the record takes the upload's URL and id, and the old image is destroyed exactly when it had an id |
| Backend.DeleteModel | backend/app.py:136-156 | a malformed id gives 400 and an unknown id 404; otherwise exactly that record is removed, and that record's own image id is destroyed exactly when it has one |
| Backend.ListModels | backend/app.py:220-223 | one served document per stored record, each with its `id` and without `_id` |
| Wire.KeyOf | backend/app.py:87-88 | a part name is read as the key whose spelling it is |
| Wire.KeyOfSpelling | backend/app.py:106-120 | each named key is read back from its own spelling |
| Wire.RequestOf | backend/app.py:76-88 | the request the backend reads from a payload, characterised by `Wire.RequestField` and `Wire.RequestOfForm` |
| Wire.RequestField | src/components/admin/ProductForm.tsx:50-71 | every text part of the payload reaches the backend's form under its key with its value |
| Wire.FieldKey | src/components/admin/ProductForm.tsx:51-62 | each form field is sent under the backend key with the same spelling |
| Wire.RequestOfForm | src/components/admin/ProductForm.tsx:50-71 | the backend reads each form field's value from the payload, and finds the image file under `image` |
| Wire.RequestCarriesForm | src/components/admin/ProductForm.tsx:50-71 | the request the backend receives carries every field of the form and its image |
| Wire.CarriedFields | src/components/admin/ProductForm.tsx:51-62 | a request carrying the form has each of the twelve fields under its key |
| Wire.CarriedFormIsStored | backend/app.py:105-120 | a sent form with a name, a parsable price and an allowed image is stored as exactly the backend's record; dimensions and tags are sent but not stored |

Rows marked "see below" state:

- `ModelDetail.LoadProduct`:
  - Loading ends.
  - A live match is shown.
  - With no live match, the mock with that id, or nothing.
  - On the success path a selected image starts with `http`.
  - On the error path the product is the mock with that id, and its `imageUrl` is used unresolved.
  - A shown product always has the route's id.
- `Dashboard.LoadProducts`:
  - Loading ends.
  - The console goes to login exactly on a 401.
  - A parsed non-401 answer sets both lists to `models`, or `[]` when absent.
  - A 401, an unparsable body or a thrown error keeps both lists.
  - The search term, the form and the edited product are kept.
- `Dashboard.HandleDelete`:
  - Without confirmation nothing is sent and nothing happens.
  - With confirmation one request is sent for the product's id.
  - The list reloads exactly on an ok answer.
  - Otherwise a non-empty alert is shown. For a JSON error body it is the body's `error`, else `Failed to delete`. For a thrown request or an unreadable body it is the thrown message, else `Failed to delete product`.
- `ProductForm.HandleSubmit`:
  - While pending, the messages are cleared and loading is on.
  - Loading is off afterwards.
  - With no image, nothing is sent and the error is `Please select an image`.
  - With an image, the 13-part payload is sent.
  - Success is reported exactly for an ok answer with a JSON body, exactly when the error is empty, with the text `Product added successfully!`.
  - A non-ok answer shows `result.error`, else `Failed to save product`.
  - A thrown error shows its message, else `An error occurred`. This includes an answer whose body is not JSON, since `response.json()` throws.
- `Backend.AddModel`:
  - The image checks come first, then name and price, then the upload. Each failure is returned as is.
  - A record is stored exactly when the request is acceptable and the upload succeeds.
  - The stored record has the new id, the current time, the form's name, price, brand and weight, and the upload's URL and id.
- `Backend.Revise`:
  - Without a new image the form fields are written and nothing is destroyed.
  - A refused extension gives 400.
  - With an allowed image the upload's URL and id replace the old ones, and an upload failure gives 500.
  - The old image is destroyed exactly when a new one was given and the old one has an id.
- `Backend.EditModel`:
  - A malformed id gives 400 `Invalid ID format`.
  - An unknown id gives 404 `Model not found`, before the fields are checked.
  - Then the name and price refusal applies.
  - Otherwise the revision is written under that id only.

## Left out

- I/O is not modelled: the HTTP requests and responses, MongoDB, the image host, `localStorage`, `window.location`, `window.open` and `alert`. Each outcome is an input value instead.
- The `@jwt_required()` guard on the admin routes is not modelled. It runs before the route body and answers 401 itself.
- Token signing is left out. `Backend.Login` takes the token it would return as a parameter.
- `Backend.Login`: for a body that is not JSON, the framework picks the status (415 for a wrong content type and 400 for malformed JSON in recent Flask versions). The model takes that status as part of the input.
- Floating point is not modelled. `float()` is the `parse` parameter. `toLocaleString` price formatting is left out.
- Timestamps are not modelled as dates: `createdAt` is an `int`, and `iso` is a parameter.
- The server's `sort("createdAt", -1)` and the table query's `is_active` filter and order are left out. They run in the database.
- `Backend.ListModels`: the list is given in the order the database returns it. The descending `createdAt` sort is not modelled, for the reason above.
- `Backend.ListModels`, `Backend.Serve`: the collection holds only documents of the shape `add_model` writes. Documents of any other shape are not modelled.
- `Backend.AddModel`: the reply's message text and its 201 status are not modelled. The result is the stored id and record, and the reply is `Backend.Serve` of that record.
- `Backend.EditModel`: likewise, the reply's message and 200 status are not modelled. The reply is `Backend.Serve` of the updated record.
- `Backend.DeleteModel`: the destroy call's failure is only logged by the route. The model takes it as a flag `destroyFails`, and the contract holds for either value.
- The `MAX_CONTENT_LENGTH` limit of 16 MB is left out, because it is enforced by the framework.
- `Strings.Lower`: only ASCII letters are lower-cased. JavaScript `toLowerCase` and Python `lower` also fold other Unicode letters.
- The WhatsApp handlers are not modelled. The `CONTACT_INFO` values are not part of this model. The `encodeURIComponent` message text is presentation.
- `setTimeout(onSuccess, 1000)` is modelled as `notifySuccess`, without the delay.
- The `URL.createObjectURL` image preview is left out.
- Ordering of concurrent fetches and state updates after unmount are not modelled.
- `ModelDetail.LoadProduct`: only the first load after mounting is modelled, from the initial state. When the `[id]` effect runs again for another id, the page keeps the previous `selectedImage` whenever the new record has no image. That case is not modelled.
- `Products.IdOfDetailLink`: the router's own matching is not modelled. `models/:id` matches only a single non-empty segment and decodes `%`-escapes. The model reads every suffix after `/models/` as the id, including `""` and ones containing `/`.
- Markup, styling, Header, Footer, Home and App routing, and the Contact page's constant links are left out.
- `extract-favicon.js` is left out. It only wraps an image library.
- `src/types/index.ts` is used only as the reference for the `Product` fields.

## Behaviour worth noting

- **Search for "pure".** The search is a case-insensitive substring test on `name`. So "pure" matches "AquaPure Pro" and not "Pearl Purifier", because "pearl purifier" contains no "pure". `Dashboard.PearlPurifierMissesPure` and `Dashboard.PureSearchExample` prove this.
- **The form never edits.** The dashboard passes `initialData`, but `ProductForm` declares no such property. An edit therefore opens the empty initial form, which requires an image and POSTs a new product. `ProductForm.HandleSubmit` models that.
- **The fallback catalog on the REST pages.**
  - The mock records use the table-shape keys (`model_name`, `image_url`, `technology_type`).
  - The REST pages read `name`, `imageUrl` and `technologyType`.
  - So the fallback shows cards with no title, no image and the defaults. `MockCatalog.MockProductsLackRestFields` and `CatalogPages.FallbackCardsUseDefaults` prove this, and so does `ModelDetail.FallbackSelectsNoImage`.
- **The detail component without an id.**
  - The component would stay on "Loading details..." forever, because the effect does not load and never clears the flag. `ModelDetail.NoIdStaysLoading` proves this.
  - The app's routes cannot reach this case: `ModelDetail` is mounted only on `models/:id`.
- **The console without a credential.** It still sends the list request on mount, because `checkAuth` only navigates. `Dashboard.MountLoadsWithoutCredential` proves this.
- **Stored fields.** The form sends `dimensions` and `tags`, but `add_model` and `edit_model` do not store them. `Wire.CarriedFormIsStored` proves it.
