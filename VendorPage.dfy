/**
 * The vendor dashboard: the role gate, the summary figures over the vendor's own
 * products, and the page's state (product list, loading flag, add-product form and its
 * visibility) as the dashboard's handlers update it.
 */
module VendorPage {
  import opened Common
  import opened Http

  /** A product as the my-products endpoint returns it. */
  datatype OwnProduct = OwnProduct(
    id: string, name: string, description: string, price: real,
    category: string, status: Status, createdAt: string)

  /** The add-product form; every field holds the text typed into it. */
  datatype ProductForm = ProductForm(name: string, description: string, price: string, category: string)

  datatype FormField = NameField | DescriptionField | PriceField | CategoryField

  /** The JSON body of the submission; a price that parses to NaN is sent as null (None). */
  datatype ProductPayload = ProductPayload(name: string, description: string, price: Option<real>, category: string)

  const EmptyForm: ProductForm := ProductForm("", "", "", "")

  // ---- summary figures ----

  /** `products.filter(p => p.status === st)`: keeps every product with the status, and nothing else. */
  function WithStatus(ps: seq<OwnProduct>, st: Status): (r: seq<OwnProduct>)
    ensures |r| <= |ps|
    ensures forall p :: multiset(r)[p] == if p.status == st then multiset(ps)[p] else 0
  {
    if ps == [] then []
    else
      assert ps == [ps[0]] + ps[1..];
      (if ps[0].status == st then [ps[0]] else []) + WithStatus(ps[1..], st)
  }

  /** Reference definition of a status figure: one per product with the status. */
  function CountOf(ps: seq<OwnProduct>, st: Status): (n: nat)
    ensures n <= |ps|
  {
    if ps == [] then 0 else (if ps[0].status == st then 1 else 0) + CountOf(ps[1..], st)
  }

  lemma {:induction false} FilterLengthIsCount(ps: seq<OwnProduct>, st: Status)
    ensures |WithStatus(ps, st)| == CountOf(ps, st)
  {
    if ps != [] {
      FilterLengthIsCount(ps[1..], st);
    }
  }

  /** `reduce((sum, p) => sum + p.price, 0)`. */
  function SumPrices(ps: seq<OwnProduct>): (total: real)
    ensures (forall i :: 0 <= i < |ps| ==> ps[i].price >= 0.0) ==> total >= 0.0
  {
    if ps == [] then 0.0
    else
      assert forall i :: 0 <= i < |ps| - 1 ==> ps[1..][i] == ps[i + 1];
      ps[0].price + SumPrices(ps[1..])
  }

  datatype Stats = Stats(total: nat, approvedCount: nat, pendingCount: nat, revenue: real)

  /** The four cards at the top of the page. */
  function StatsOf(ps: seq<OwnProduct>): (s: Stats)
    ensures s.total == |ps|
    ensures s.approvedCount == CountOf(ps, approved) && s.pendingCount == CountOf(ps, pending)
    ensures s.approvedCount + s.pendingCount <= s.total
  {
    StatusCountsPartition(ps);
    FilterLengthIsCount(ps, approved);
    FilterLengthIsCount(ps, pending);
    Stats(|ps|, |WithStatus(ps, approved)|, |WithStatus(ps, pending)|, SumPrices(WithStatus(ps, approved)))
  }

  /** Every product has exactly one of the three statuses, so the three counts add up to the total. */
  lemma {:induction false} StatusCountsPartition(ps: seq<OwnProduct>)
    ensures |WithStatus(ps, approved)| + |WithStatus(ps, pending)| + |WithStatus(ps, rejected)| == |ps|
  {
    if ps != [] {
      StatusCountsPartition(ps[1..]);
    }
  }

  /** Reference definition of revenue: each product contributes its price if approved, nothing otherwise. */
  function ApprovedValue(ps: seq<OwnProduct>): real
  {
    if ps == [] then 0.0
    else (if ps[0].status == approved then ps[0].price else 0.0) + ApprovedValue(ps[1..])
  }

  lemma {:induction false} RevenueIsApprovedValue(ps: seq<OwnProduct>)
    ensures StatsOf(ps).revenue == ApprovedValue(ps)
  {
    ApprovedSumIsApprovedValue(ps);
  }

  lemma {:induction false} ApprovedSumIsApprovedValue(ps: seq<OwnProduct>)
    ensures SumPrices(WithStatus(ps, approved)) == ApprovedValue(ps)
  {
    if ps != [] {
      ApprovedSumIsApprovedValue(ps[1..]);
      var rest := WithStatus(ps[1..], approved);
      if ps[0].status == approved {
        assert WithStatus(ps, approved) == [ps[0]] + rest;
        assert ([ps[0]] + rest)[1..] == rest;
      } else {
        assert WithStatus(ps, approved) == rest;
      }
    }
  }

  lemma {:induction false} ApprovedValueAppend(ps: seq<OwnProduct>, qs: seq<OwnProduct>)
    ensures ApprovedValue(ps + qs) == ApprovedValue(ps) + ApprovedValue(qs)
  {
    if ps == [] {
      assert ps + qs == qs;
    } else {
      assert (ps + qs)[1..] == ps[1..] + qs;
      ApprovedValueAppend(ps[1..], qs);
    }
  }

  /** A pending or rejected product, wherever it sits in the list, leaves the revenue unchanged. */
  lemma UnapprovedAddsNoRevenue(ps: seq<OwnProduct>, p: OwnProduct, qs: seq<OwnProduct>)
    requires p.status != approved
    ensures StatsOf(ps + [p] + qs).revenue == StatsOf(ps + qs).revenue
  {
    RevenueIsApprovedValue(ps + [p] + qs);
    RevenueIsApprovedValue(ps + qs);
    ApprovedValueAppend(ps + [p], qs);
    ApprovedValueAppend(ps, [p]);
    ApprovedValueAppend(ps, qs);
    assert [p][1..] == [];
  }

  // ---- the page ----

  datatype Listing = LoadingProducts | NoProducts | ProductList(products: seq<OwnProduct>)

  datatype VendorView =
    | VendorAccessDenied
    | VendorHome(stats: Stats, addForm: Option<ProductForm>, listing: Listing)

  /** The role gate, then the page built from the dashboard's state. */
  function Render(session: Option<User>, products: seq<OwnProduct>, loading: bool,
                  showAddForm: bool, form: ProductForm): (v: VendorView)
    ensures v.VendorAccessDenied? <==> !HasRole(session, vendor)
    ensures v.VendorHome? ==> v.stats == StatsOf(products)
    ensures v.VendorHome? ==> (v.addForm.Some? <==> showAddForm)
    ensures v.VendorHome? && loading ==> v.listing.LoadingProducts?
    ensures v.VendorHome? && !loading ==>
      if products == [] then v.listing.NoProducts? else v.listing == ProductList(products)
  {
    if !HasRole(session, vendor) then VendorAccessDenied
    else VendorHome(
      StatsOf(products),
      if showAddForm then Some(form) else None,
      if loading then LoadingProducts else if products == [] then NoProducts else ProductList(products))
  }

  /** `setNewProduct({...newProduct, field: value})`. */
  function WithField(f: ProductForm, field: FormField, value: string): (g: ProductForm)
    ensures field == NameField ==> g == ProductForm(value, f.description, f.price, f.category)
    ensures field == DescriptionField ==> g == ProductForm(f.name, value, f.price, f.category)
    ensures field == PriceField ==> g == ProductForm(f.name, f.description, value, f.category)
    ensures field == CategoryField ==> g == ProductForm(f.name, f.description, f.price, value)
  {
    match field
    case NameField => f.(name := value)
    case DescriptionField => f.(description := value)
    case PriceField => f.(price := value)
    case CategoryField => f.(category := value)
  }

  /** `{...newProduct, price: parseFloat(newProduct.price)}`; parseFloat is a parameter. */
  function Payload(f: ProductForm, parsePrice: string -> Option<real>): (p: ProductPayload)
    ensures p.name == f.name && p.description == f.description && p.category == f.category
    ensures p.price == parsePrice(f.price)
  {
    ProductPayload(f.name, f.description, parsePrice(f.price), f.category)
  }

  /** The form's text fields other than price survive into the payload unchanged. */
  lemma PayloadKeepsText(f: ProductForm, g: ProductForm, parsePrice: string -> Option<real>)
    requires Payload(f, parsePrice) == Payload(g, parsePrice)
    ensures f.name == g.name && f.description == g.description && f.category == g.category
  {
  }

  const ProductsPath: string := "/api/products"
  const MyProductsPath: string := "/api/products/my-products"

  function MyProductsRequest(base: string, storedToken: Option<string>): (r: Request<ProductPayload>)
    ensures r.verb == GET && r.url == base + MyProductsPath && r.body.None?
    ensures r.headers == [AuthHeader(storedToken)]
  {
    Request(GET, base + MyProductsPath, [AuthHeader(storedToken)], None)
  }

  function AddProductRequest(base: string, storedToken: Option<string>, f: ProductForm,
                             parsePrice: string -> Option<real>): (r: Request<ProductPayload>)
    ensures r.verb == POST && r.url == base + ProductsPath
    ensures r.headers == [AuthHeader(storedToken), Header("Content-Type", "application/json")]
    ensures r.body == Some(Payload(f, parsePrice))
  {
    Request(POST, base + ProductsPath,
            [AuthHeader(storedToken), Header("Content-Type", "application/json")],
            Some(Payload(f, parsePrice)))
  }

  /** The dashboard's state, as the component's `useState` hooks hold it. */
  class VendorDashboard {
    var products: seq<OwnProduct>
    var loading: bool
    var showAddForm: bool
    var newProduct: ProductForm

    constructor ()
      ensures products == [] && loading && !showAddForm && newProduct == EmptyForm
    {
      products := [];
      loading := true;
      showAddForm := false;
      newProduct := EmptyForm;
    }

    /**
     * `fetchMyProducts`: the list is replaced only by a successful response, and loading
     * ends whatever happens.
     */
    method FetchMyProducts(base: string, storedToken: Option<string>, reply: Reply<seq<OwnProduct>>)
      returns (request: Request<ProductPayload>)
      modifies this
      ensures request == MyProductsRequest(base, storedToken)
      ensures products == (if reply.Ok? then reply.data else old(products))
      ensures !loading
      ensures showAddForm == old(showAddForm) && newProduct == old(newProduct)
    {
      request := MyProductsRequest(base, storedToken);
      if reply.Ok? {
        products := reply.data;
      }
      loading := false;
    }

    /**
     * `handleAddProduct`: a successful response clears and hides the form and asks for a
     * refetch; anything else leaves the page as it was.
     */
    method HandleAddProduct(base: string, storedToken: Option<string>,
                            parsePrice: string -> Option<real>, reply: Reply<()>)
      returns (request: Request<ProductPayload>, refetch: bool)
      modifies this
      ensures request == AddProductRequest(base, storedToken, old(newProduct), parsePrice)
      ensures refetch <==> reply.Ok?
      ensures reply.Ok? ==> newProduct == EmptyForm && !showAddForm
      ensures !reply.Ok? ==> newProduct == old(newProduct) && showAddForm == old(showAddForm)
      ensures products == old(products) && loading == old(loading)
    {
      request := AddProductRequest(base, storedToken, newProduct, parsePrice);
      refetch := false;
      if reply.Ok? {
        newProduct := EmptyForm;
        showAddForm := false;
        refetch := true;
      }
    }

    /** The form inputs' `onChange`. */
    method EditField(field: FormField, value: string)
      modifies this
      ensures newProduct == WithField(old(newProduct), field, value)
      ensures products == old(products) && loading == old(loading) && showAddForm == old(showAddForm)
    {
      newProduct := WithField(newProduct, field, value);
    }

    /** "Add New Product": `setShowAddForm(!showAddForm)`. */
    method ToggleAddForm()
      modifies this
      ensures showAddForm == !old(showAddForm)
      ensures products == old(products) && loading == old(loading) && newProduct == old(newProduct)
    {
      showAddForm := !showAddForm;
    }

    /** "Cancel": hides the form and keeps what was typed. */
    method CancelAddForm()
      modifies this
      ensures !showAddForm
      ensures products == old(products) && loading == old(loading) && newProduct == old(newProduct)
    {
      showAddForm := false;
    }
  }

  /** Pressing "Add New Product" twice leaves the form as it was. */
  method ToggleTwice(d: VendorDashboard)
    modifies d
    ensures d.showAddForm == old(d.showAddForm) && d.newProduct == old(d.newProduct)
    ensures d.products == old(d.products) && d.loading == old(d.loading)
  {
    d.ToggleAddForm();
    d.ToggleAddForm();
  }
}
