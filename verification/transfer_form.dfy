/** The transfer registration form: its field state, its two derived views and
    the submit handler, which checks the route and the stock and then issues at
    most one create-movement request. */
module TransferForm {
  import opened JsNumber
  import opened Catalog

  /** Screen state. The selections and the quantity are the strings the
      pickers and text inputs hold; the lists are the loaded catalog. */
  datatype Form = Form(
    origem: string,
    destino: string,
    produto: string,
    quantidade: string,
    observacoes: string,
    branches: seq<Branch>,
    products: seq<Product>)

  /** The product picker's list, recomputed whenever origin or catalog change. */
  function Filtered(f: Form): seq<Product> {
    ProductsAtBranch(f.products, f.origem)
  }

  /** The stock shown for the selected product (null when not found). */
  function SelectedQuantity(f: Form): Option<int> {
    AvailableQuantity(Filtered(f), f.produto)
  }

  /** Body of the create request; a NaN field is sent as `None`. */
  datatype Payload = Payload(
    originBranchId: Option<int>,
    destinationBranchId: Option<int>,
    productId: Option<int>,
    quantity: Option<int>,
    observations: string)

  /** What the POST did: resolved, or threw (transport error or non-2xx). */
  datatype PostOutcome = PostResolved | PostThrew

  /** `FieldsAlert` is shown only by the corrected handler below. */
  datatype Alert = RouteAlert | StockAlert | FieldsAlert | CreatedAlert | CreateFailedAlert

  /** Result of one press of the submit button. */
  datatype Submission = Submission(form: Form, posts: seq<Payload>, alert: Alert)

  /** `q > avail` when `avail` is not null; a NaN quantity compares false. */
  predicate Exceeds(q: Option<int>, avail: Option<int>) {
    q.Some? && avail.Some? && q.value > avail.value
  }

  /** Rejected before any request: same route, or more than the stock shown. */
  predicate Rejected(f: Form) {
    f.origem == f.destino || Exceeds(Number(f.quantidade), SelectedQuantity(f))
  }

  function PayloadOf(f: Form): (p: Payload)
    ensures p.observations == f.observacoes
    ensures p.originBranchId == Number(f.origem) && p.destinationBranchId == Number(f.destino)
    ensures p.productId == Number(f.produto) && p.quantity == Number(f.quantidade)
  {
    Payload(Number(f.origem), Number(f.destino), Number(f.produto), Number(f.quantidade), f.observacoes)
  }

  /** The submit handler. `post` is consulted only when the request is issued. */
  function HandleCadastro(f: Form, post: PostOutcome): (r: Submission)
    ensures r.form == f
    ensures r.alert == RouteAlert <==> f.origem == f.destino
    ensures r.alert == StockAlert <==> f.origem != f.destino && Exceeds(Number(f.quantidade), SelectedQuantity(f))
    ensures r.posts == [] <==> Rejected(f)
    ensures |r.posts| <= 1
    ensures r.posts != [] ==> r.posts[0] == PayloadOf(f)
    ensures !Rejected(f) ==> r.alert == if post == PostResolved then CreatedAlert else CreateFailedAlert
  {
    if f.origem == f.destino then
      Submission(f, [], RouteAlert)
    else if Exceeds(Number(f.quantidade), SelectedQuantity(f)) then
      Submission(f, [], StockAlert)
    else
      Submission(f, [PayloadOf(f)], if post == PostResolved then CreatedAlert else CreateFailedAlert)
  }

  /** The route check runs first: equal selections (two empty pickers included)
      are a route error whatever the quantity, the stock or the server. */
  lemma RouteCheckFirst(f: Form, post: PostOutcome, quantidade: string, products: seq<Product>)
    requires f.origem == f.destino
    ensures var g := f.(quantidade := quantidade, products := products);
            HandleCadastro(g, post) == Submission(g, [], RouteAlert)
  {
  }

  /** Requesting exactly the available stock is allowed. */
  lemma EqualQuantityPasses(f: Form, post: PostOutcome)
    requires f.origem != f.destino
    requires SelectedQuantity(f).Some? && Number(f.quantidade) == SelectedQuantity(f)
    ensures HandleCadastro(f, post).posts == [PayloadOf(f)]
  {
  }

  /** With no stock shown (product not found) the stock check is skipped, and
      so it is for a quantity that is NaN. */
  lemma StockCheckSkipped(f: Form, post: PostOutcome)
    requires f.origem != f.destino
    requires SelectedQuantity(f).None? || Number(f.quantidade).None?
    ensures |HandleCadastro(f, post).posts| == 1
  {
  }

  /** One less than the stock passes; one more fails: the boundary is `>`. */
  lemma StockBoundary(f: Form, post: PostOutcome)
    requires f.origem != f.destino && SelectedQuantity(f).Some? && Number(f.quantidade).Some?
    ensures HandleCadastro(f, post).alert == StockAlert
        <==> Number(f.quantidade).value >= SelectedQuantity(f).value + 1
  {
  }

  /** Worked scenarios: 10 units of a product with 5 in stock at branch 1
      are refused; a same-branch route is refused even for 1 unit. */
  lemma SubmitScenarios(post: PostOutcome)
    ensures var catalog := [Product(1, 42, "Item", 5, "Filial 1")];
            var f := Form("1", "2", "42", "10", "", [Branch(1, "Filial 1"), Branch(2, "Filial 2")], catalog);
            HandleCadastro(f, post) == Submission(f, [], StockAlert)
            && HandleCadastro(f.(destino := "1", quantidade := "1"), post).alert == RouteAlert
            && HandleCadastro(f.(quantidade := "5"), post).posts
               == [Payload(Some(1), Some(2), Some(42), Some(5), "")]
  {
    assert Number("1") == Some(1) by { NumberOfIntToString(1); }
    assert Number("2") == Some(2) by { NumberOfIntToString(2); }
    assert Number("5") == Some(5) by { NumberOfIntToString(5); }
    assert Number("10") == Some(10) by { NumberOfIntToString(10); }
    assert Number("42") == Some(42) by { NumberOfIntToString(42); }
    var catalog := [Product(1, 42, "Item", 5, "Filial 1")];
    var f := Form("1", "2", "42", "10", "", [Branch(1, "Filial 1"), Branch(2, "Filial 2")], catalog);
    assert Filtered(f) == catalog;
    assert SelectedQuantity(f) == Some(5);
    assert SelectedQuantity(f.(quantidade := "5")) == Some(5);
  }

  /** Picker selections are `id.toString()`, so a submitted payload carries the
      chosen ids themselves, and picking the same branch twice is a route error. */
  lemma PickerIdsRoundTrip(f: Form, post: PostOutcome, o: int, d: int, p: int)
    requires f.origem == IntToString(o) && f.destino == IntToString(d) && f.produto == IntToString(p)
    ensures HandleCadastro(f, post).alert == RouteAlert <==> o == d
    ensures HandleCadastro(f, post).posts != [] ==>
      var pl := HandleCadastro(f, post).posts[0];
      pl.originBranchId == Some(o) && pl.destinationBranchId == Some(d) && pl.productId == Some(p)
  {
    IntToStringInjective(o, d);
    NumberOfIntToString(o);
    NumberOfIntToString(d);
    NumberOfIntToString(p);
  }

  /** As written, nothing checks that a product was chosen or that the quantity
      is a positive number: with both fields empty the request goes out with
      product 0 and quantity 0 (an empty string coerces to 0), and a negative
      quantity is sent as it is. */
  lemma EmptyFieldsPosted(post: PostOutcome)
    ensures var f := Form("1", "2", "", "", "", [], [Product(1, 42, "Item", 5, "Filial 1")]);
            HandleCadastro(f, post).posts == [Payload(Some(1), Some(2), Some(0), Some(0), "")]
    ensures var f := Form("1", "2", "42", "-3", "", [], [Product(1, 42, "Item", 5, "Filial 1")]);
            HandleCadastro(f, post).posts == [Payload(Some(1), Some(2), Some(42), Some(-3), "")]
  {
    assert Number("1") == Some(1) by { NumberOfIntToString(1); }
    assert Number("2") == Some(2) by { NumberOfIntToString(2); }
    assert Number("42") == Some(42) by { NumberOfIntToString(42); }
    assert Number("-3") == Some(-3) by { NumberOfIntToString(-3); }
  }

  /** A quantity a movement can carry: a number greater than zero. */
  predicate PositiveQuantity(q: Option<int>) {
    q.Some? && q.value > 0
  }

  /** The fields a transfer needs: a chosen product that the origin stocks
      (its stock is shown) and a positive quantity. */
  predicate FieldsComplete(f: Form) {
    f.produto != "" && SelectedQuantity(f).Some? && PositiveQuantity(Number(f.quantidade))
  }

  /** The submit handler with the required-field check the form lacks: after
      the route check, a missing product, a product without a stock line at the
      origin, or a quantity that is not a positive number is refused before the
      stock check and before any request. */
  function HandleCadastroIntended(f: Form, post: PostOutcome): (r: Submission)
    ensures r.form == f
    ensures r.alert == RouteAlert <==> f.origem == f.destino
    ensures r.alert == FieldsAlert <==> f.origem != f.destino && !FieldsComplete(f)
    ensures r.posts == [] <==> Rejected(f) || !FieldsComplete(f)
    ensures |r.posts| <= 1
    ensures r.posts != [] ==>
      r.posts[0] == PayloadOf(f) && r.posts[0].quantity.Some? && r.posts[0].quantity.value > 0
    ensures r.posts != [] ==> SelectedQuantity(f).Some? && r.posts[0].quantity.value <= SelectedQuantity(f).value
  {
    if f.origem == f.destino then Submission(f, [], RouteAlert)
    else if !FieldsComplete(f) then Submission(f, [], FieldsAlert)
    else HandleCadastro(f, post)
  }

  /** On complete fields the corrected handler does exactly what the form does,
      and it refuses the inputs the form lets through with empty fields. */
  lemma IntendedAgreesOnCompleteFields(f: Form, post: PostOutcome)
    ensures FieldsComplete(f) ==> HandleCadastroIntended(f, post) == HandleCadastro(f, post)
    ensures !FieldsComplete(f) ==> HandleCadastroIntended(f, post).posts == []
    ensures HandleCadastroIntended(Form("1", "2", "", "", "", [], []), post).alert == FieldsAlert
  {
    assert Number("1") == Some(1) by { NumberOfIntToString(1); }
    assert Number("2") == Some(2) by { NumberOfIntToString(2); }
  }
}
