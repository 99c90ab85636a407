/** The admin console: the session guard, loading the full product list, the
    name search, the delete flow and the form hand-off. The stored credential
    and the HTTP answers are inputs. */
module Dashboard {
  import opened Wrappers
  import opened Strings
  import opened Products

  /** `checkAuth`: `!localStorage.getItem('adminToken')` sends the browser to the
      login page; a missing and an empty credential are treated alike. */
  function MustLogIn(token: Option<string>): (redirect: bool)
    ensures redirect <==> token.None? || token == Some("")
  {
    !Present(token)
  }

  /** The console's view state. */
  datatype Console = Console(
    products: seq<Product>,     // the full list from the last load
    filtered: seq<Product>,     // the rows of the table
    searchTerm: string,
    loading: bool,
    showForm: bool,
    editing: Option<Product>)

  /** The state right after mounting, before the list arrives. */
  const Mounted: Console := Console([], [], "", true, false, None)

  /** The parsed body of the list response. */
  datatype ListBody =
    | ListBodyNotJson                       // `res.json()` throws
    | ListJson(models: Option<seq<Product>>)

  /** What `fetch('/api/admin/models')` yields. */
  datatype ListOutcome =
    | ListNetworkError
    | ListResponse(status: int, body: ListBody)

  /** The new state and whether the console navigated to the login page. */
  datatype ListResult = ListResult(console: Console, toLogin: bool)

  /** `loadProducts`: a 401 sends the user to the login page before the body is
      read; any other parsed answer replaces both lists with `data.models || []`;
      a thrown error keeps both lists. The loading flag is cleared in every case. */
  function LoadProducts(c: Console, o: ListOutcome): (r: ListResult)
    ensures !r.console.loading
    ensures r.toLogin <==> o.ListResponse? && o.status == 401
    ensures r.console.searchTerm == c.searchTerm && r.console.showForm == c.showForm
            && r.console.editing == c.editing
    ensures o.ListResponse? && o.status != 401 && o.body.ListJson? ==>
              r.console.products == o.body.models.GetOr([]) && r.console.filtered == r.console.products
    ensures !(o.ListResponse? && o.status != 401 && o.body.ListJson?) ==>
              r.console.products == c.products && r.console.filtered == c.filtered
  {
    match o
    case ListNetworkError => ListResult(c.(loading := false), false)
    case ListResponse(status, body) =>
      if status == 401 then ListResult(c.(loading := false), true)
      else
        match body
        case ListBodyNotJson => ListResult(c.(loading := false), false)
        case ListJson(models) =>
          var all := models.GetOr([]);
          ListResult(c.(products := all, filtered := all, loading := false), false)
  }

  /** The mount effect runs `checkAuth` and then `loadProducts`; the list request
      is sent even without a credential. */
  function Mount(token: Option<string>, o: ListOutcome): (r: ListResult)
    ensures MustLogIn(token) ==> r.toLogin
    ensures r.toLogin <==> MustLogIn(token) || (o.ListResponse? && o.status == 401)
    ensures !r.console.loading && r.console.searchTerm == "" && !r.console.showForm
    ensures o.ListResponse? && o.status != 401 && o.body.ListJson? ==>
              r.console.products == o.body.models.GetOr([]) && r.console.filtered == r.console.products
    ensures !(o.ListResponse? && o.status != 401 && o.body.ListJson?) ==>
              r.console.products == [] && r.console.filtered == []
  {
    var loaded := LoadProducts(Mounted, o);
    ListResult(loaded.console, MustLogIn(token) || loaded.toLogin)
  }

  /** `product.name?.toLowerCase().includes(term.toLowerCase())`: a product
      without a name never matches. */
  predicate NameMatches(p: Product, term: string) {
    p.name.Some? && Contains(Lower(p.name.value), Lower(term))
  }

  /** `products.filter(...)` with the name test. */
  function Filter(products: seq<Product>, term: string): (r: seq<Product>)
    ensures |r| <= |products|
    ensures forall p :: p in r <==> p in products && NameMatches(p, term)
  {
    if |products| == 0 then []
    else
      var rest := Filter(products[1..], term);
      assert forall p :: p in products <==> p == products[0] || p in products[1..];
      if NameMatches(products[0], term) then [products[0]] + rest else rest
  }

  /** `handleSearch`: the table shows the matches among the full list. */
  function HandleSearch(c: Console, term: string): (r: Console)
    ensures r.searchTerm == term && r.products == c.products
    ensures forall p :: p in r.filtered <==> p in c.products && NameMatches(p, term)
    ensures r == c.(searchTerm := term, filtered := r.filtered)
  {
    c.(searchTerm := term, filtered := Filter(c.products, term))
  }

  /** The filter keeps matches in their original order: it distributes over
      concatenation. */
  lemma {:induction false} FilterAppend(a: seq<Product>, b: seq<Product>, term: string)
    ensures Filter(a + b, term) == Filter(a, term) + Filter(b, term)
  {
    if |a| > 0 {
      FilterAppend(a[1..], b, term);
      assert (a + b)[1..] == a[1..] + b;
    } else {
      assert a + b == b;
    }
  }

  /** Search filters the full list, never the previous result, so searches do
      not accumulate. */
  lemma SearchNotCumulative(c: Console, first: string, second: string)
    ensures HandleSearch(HandleSearch(c, first), second) == HandleSearch(c, second)
  {
  }

  /** The empty term keeps every named product, in order, and drops the unnamed. */
  lemma {:induction false} EmptyTermKeepsNamed(products: seq<Product>)
    ensures forall p :: p in Filter(products, "") <==> p in products && p.name.Some?
    ensures (forall i :: 0 <= i < |products| ==> products[i].name.Some?) ==>
              Filter(products, "") == products
  {
    forall p | p in products && p.name.Some? ensures NameMatches(p, "") {
      ContainsEmpty(Lower(p.name.value));
    }
    if |products| > 0 {
      EmptyTermKeepsNamed(products[1..]);
      if forall i :: 0 <= i < |products| ==> products[i].name.Some? {
        assert forall i :: 0 <= i < |products[1..]| ==> products[1..][i].name.Some? by {
          forall i | 0 <= i < |products[1..]| ensures products[1..][i].name.Some? {
            assert products[1..][i] == products[i + 1];
          }
        }
        assert products[0].name.Some?;
        assert [products[0]] + products[1..] == products;
      }
    }
  }

  /** The search ignores the case of the term. */
  lemma {:induction false} SearchIgnoresTermCase(products: seq<Product>, term: string)
    ensures Filter(products, term) == Filter(products, Lower(term))
  {
    LowerIdempotent(term);
    if |products| > 0 {
      SearchIgnoresTermCase(products[1..], term);
    }
  }

  /** Searching "PURE" finds "AquaPure Pro", in any case. */
  lemma AquaPureMatchesPure()
    ensures NameMatches(Blank("a").(name := Some("AquaPure Pro")), "PURE")
  {
    var lowered := Lower("AquaPure Pro");
    assert Lower("PURE") == "pure";
    assert lowered[4..8] == "pure";
    OccurrenceIsContained(lowered, "pure", 4);
  }

  /** ... but not "Pearl Purifier": "purifier" does not contain "pure". */
  lemma PearlPurifierMissesPure()
    ensures !NameMatches(Blank("b").(name := Some("Pearl Purifier")), "pure")
  {
    var lowered := Lower("Pearl Purifier");
    assert Lower("pure") == "pure";
    assert lowered == "pearl purifier";
    forall i | 0 <= i && i + 4 <= |lowered| ensures !OccursAt(lowered, "pure", i) {
      assert lowered[i..i + 4][0] != 'p' || lowered[i..i + 4][3] != 'e';
    }
    ContainsIffOccurs(lowered, "pure");
  }

  /** Of the two, a search for "pure" keeps only "AquaPure Pro". */
  lemma PureSearchExample()
    ensures var a := Blank("a").(name := Some("AquaPure Pro"));
            var b := Blank("b").(name := Some("Pearl Purifier"));
            Filter([a, b], "pure") == [a]
  {
    var a := Blank("a").(name := Some("AquaPure Pro"));
    var b := Blank("b").(name := Some("Pearl Purifier"));
    AquaPureMatchesPure();
    assert Lower("PURE") == "pure" == Lower("pure");
    assert NameMatches(a, "pure");
    PearlPurifierMissesPure();
    assert !NameMatches(b, "pure");
    assert [a, b][1..] == [b];
    assert Filter([b], "pure") == [];
    assert Filter([a, b], "pure") == [a] + Filter([b], "pure");
  }

  /** What a handler leaves the console to do next. */
  datatype Effect = NoEffect | ReloadList | ShowAlert(message: string)

  /** The parsed body of a failed delete. */
  datatype ErrorBody =
    | ErrorBodyNotJson(parseMessage: string)   // `res.json()` throws with this message
    | ErrorJson(error: Option<string>)

  /** What the DELETE request yields. */
  datatype DeleteOutcome =
    | DeleteThrew(message: string)               // the request itself throws
    | DeleteAnswered(ok: bool, body: ErrorBody)  // the body is read only when not ok

  /** The delete request sent (by product id) and what follows it. */
  datatype DeleteResult = DeleteResult(request: Option<string>, effect: Effect)

  /** `alert(error.message || 'Failed to delete product')` */
  function DeleteAlert(message: string): (r: string)
    ensures r != ""
    ensures message != "" ==> r == message
    ensures message == "" ==> r == "Failed to delete product"
  {
    if message != "" then message else "Failed to delete product"
  }

  /** `handleDeleteProduct`: nothing happens unless the user confirms; then one
      DELETE is sent, a 2xx answer reloads the list, and anything else alerts
      `error.error`, else `'Failed to delete'`, or the thrown message. */
  function HandleDelete(id: string, confirmed: bool, o: DeleteOutcome): (r: DeleteResult)
    ensures !confirmed ==> r == DeleteResult(None, NoEffect)
    ensures confirmed ==> r.request == Some(id) && !r.effect.NoEffect?
    ensures r.effect == ReloadList <==> confirmed && o.DeleteAnswered? && o.ok
    ensures r.effect.ShowAlert? ==> r.effect.message != ""
    ensures confirmed && o.DeleteAnswered? && !o.ok && o.body.ErrorJson? ==>
              r.effect == ShowAlert(if Present(o.body.error) then o.body.error.value else "Failed to delete")
    ensures confirmed && o.DeleteThrew? ==> r.effect == ShowAlert(DeleteAlert(o.message))
    ensures confirmed && o.DeleteAnswered? && !o.ok && o.body.ErrorBodyNotJson? ==>
              r.effect == ShowAlert(DeleteAlert(o.body.parseMessage))
  {
    if !confirmed then DeleteResult(None, NoEffect)
    else
      match o
      case DeleteThrew(message) => DeleteResult(Some(id), ShowAlert(DeleteAlert(message)))
      case DeleteAnswered(ok, body) =>
        if ok then DeleteResult(Some(id), ReloadList)
        else
          match body
          case ErrorBodyNotJson(message) => DeleteResult(Some(id), ShowAlert(DeleteAlert(message)))
          case ErrorJson(error) =>
            DeleteResult(Some(id), ShowAlert(DeleteAlert(if Present(error) then error.value else "Failed to delete")))
  }

  /** `handleAddProduct` and `handleEditProduct`: open the form, empty or on a product. */
  function OpenForm(c: Console, product: Option<Product>): (r: Console)
    ensures r.showForm && r.editing == product
    ensures r.products == c.products && r.filtered == c.filtered && r.searchTerm == c.searchTerm
  {
    c.(showForm := true, editing := product)
  }

  /** `handleFormSuccess`: close the form and reload the list. */
  function HandleFormSuccess(c: Console): (r: (Console, Effect))
    ensures !r.0.showForm && r.1 == ReloadList
    ensures r.0 == c.(showForm := false)
  {
    (c.(showForm := false), ReloadList)
  }

  /** A successful form followed by a successful reload closes the form and shows
      the freshly loaded list, whatever was typed in the search box. */
  lemma FormSuccessShowsFreshList(c: Console, models: seq<Product>)
    ensures var (closed, effect) := HandleFormSuccess(c);
            var r := LoadProducts(closed, ListResponse(200, ListJson(Some(models))));
            effect == ReloadList && !r.console.showForm && !r.toLogin
            && r.console.filtered == models && r.console.searchTerm == c.searchTerm
  {
  }

  /** The credential left behind and whether the console navigated to the login page. */
  datatype LogoutResult = LogoutResult(token: Option<string>, toLogin: bool)

  /** `handleLogout` removes the credential and navigates to the login page itself. */
  function Logout(token: Option<string>): (r: LogoutResult)
    ensures r.token.None? && MustLogIn(r.token)
    ensures r.toLogin
  {
    LogoutResult(None, true)
  }

  /** The list request does not depend on the credential being present: the
      console loaded on mount is the same with or without one. */
  lemma MountLoadsWithoutCredential(token: Option<string>, o: ListOutcome)
    ensures Mount(None, o).console == Mount(token, o).console
    ensures Mount(None, o).toLogin
  {
  }

  /** After logging out, mounting the console again sends the browser back to
      the login page, whatever the list request answers. */
  lemma MountAfterLogoutRedirects(token: Option<string>, o: ListOutcome)
    ensures Mount(Logout(token).token, o).toLogin
  {
  }
}
