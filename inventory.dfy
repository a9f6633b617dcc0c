/** The inventory page: stock labels, the product search, the counters above
    the table, and the create/edit modal and delete button that issue
    mutations against the `products` table. */
module Inventory {
  import opened Common
  import Store

  /** A product row; description and image may be null. */
  datatype Product = Product(
    id: string,
    name: string,
    description: Option<string>,
    price: real,
    stock: int,
    imageUrl: Option<string>,
    sellerId: string)

  // ---------------------------------------------------------------------
  // Stock status
  // ---------------------------------------------------------------------

  datatype StockStatus = OutOfStock | Critical | Low | InStock
  {
    function Label(): string
    {
      match this
      case OutOfStock => "Rupture"
      case Critical => "Critique"
      case Low => "Faible"
      case InStock => "En stock"
    }

    function Color(): string
    {
      match this
      case OutOfStock => "bg-red-500/15 text-red-500 border-red-500/20"
      case Critical => "bg-orange-500/15 text-orange-500 border-orange-500/20"
      case Low => "bg-yellow-500/15 text-yellow-500 border-yellow-500/20"
      case InStock => "bg-green-500/15 text-green-500 border-green-500/20"
    }

    /** How well stocked the status says the product is. */
    function Level(): nat
    {
      match this
      case OutOfStock => 0
      case Critical => 1
      case Low => 2
      case InStock => 3
    }
  }

  /** `getStockStatus(stock)`: every integer gets exactly one status;
      negative stock counts as critical, not as out of stock. */
  function GetStockStatus(stock: int): (s: StockStatus)
    ensures s == OutOfStock <==> stock == 0
    ensures s == Critical <==> stock != 0 && stock < 10
    ensures s == Low <==> 10 <= stock < 50
    ensures s == InStock <==> 50 <= stock
  {
    if stock == 0 then OutOfStock
    else if stock < 10 then Critical
    else if stock < 50 then Low
    else InStock
  }

  /** The colour of the stock figure in the table: red exactly for the
      "Rupture" rows, orange exactly for the "Critique" rows. */
  function StockTextColor(stock: int): (c: string)
    ensures c == "text-red-500" <==> GetStockStatus(stock) == OutOfStock
    ensures c == "text-orange-500" <==> GetStockStatus(stock) == Critical
    ensures c == "text-foreground" <==> GetStockStatus(stock).Level() >= 2
  {
    if stock == 0 then "text-red-500"
    else if stock < 10 then "text-orange-500"
    else "text-foreground"
  }

  /** More stock never gives a worse status (for stock that is not negative). */
  lemma StockStatusMonotone(a: int, b: int)
    requires 0 <= a <= b
    ensures GetStockStatus(a).Level() <= GetStockStatus(b).Level()
  {
  }

  /** The four statuses carry four different labels. */
  lemma StockLabelsDistinct(s: StockStatus, t: StockStatus)
    requires s != t
    ensures s.Label() != t.Label() && s.Color() != t.Color()
  {
  }

  // ---------------------------------------------------------------------
  // Search and counters
  // ---------------------------------------------------------------------

  function NameMatches(term: string): Product -> bool
  {
    (p: Product) => SearchMatch(p.name, term)
  }

  /** `filteredProducts`: the products whose name contains the term, ignoring
      case, in their original order. */
  function FilteredProducts(products: seq<Product>, term: string): (r: seq<Product>)
    ensures forall p :: p in r <==> p in products && SearchMatch(p.name, term)
    ensures SubsequenceOf(r, products)
  {
    Filter(products, NameMatches(term))
  }

  /** The empty search keeps every product. */
  lemma EmptySearchKeepsAll(products: seq<Product>)
    ensures FilteredProducts(products, "") == products
  {
    forall p | p in products ensures NameMatches("")(p) {
      EmptyTermMatches(p.name);
    }
    FilterKeepsAll(products, NameMatches(""));
  }

  /** The term's letter case does not change the result. */
  lemma SearchCaseInsensitive(products: seq<Product>, term: string)
    ensures FilteredProducts(products, Lower(term)) == FilteredProducts(products, term)
  {
    forall p | p in products ensures NameMatches(Lower(term))(p) == NameMatches(term)(p) {
      SearchIgnoresTermCase(p.name, term);
    }
    FilterCongruent(products, NameMatches(Lower(term)), NameMatches(term));
  }

  /** `price * stock_quantity`. */
  function StockValue(p: Product): real
  {
    p.price * p.stock as real
  }

  /** `totalValue`. */
  function TotalValue(products: seq<Product>): real
  {
    Sum(products, StockValue)
  }

  lemma TotalValueNonNegative(products: seq<Product>)
    requires forall p :: p in products ==> p.price >= 0.0 && p.stock >= 0
    ensures TotalValue(products) >= 0.0
  {
    SumNonNegative(products, StockValue);
  }

  function IsOut(p: Product): bool { p.stock == 0 }
  function IsLow(p: Product): bool { p.stock < 10 }

  /** `outOfStock`. */
  function OutOfStockCount(products: seq<Product>): (n: nat)
    ensures n <= |products|
    ensures n == 0 <==> forall p :: p in products ==> p.stock != 0
  {
    Count(products, IsOut)
  }

  /** `lowStock`: note that it counts the out-of-stock products too. */
  function LowStockCount(products: seq<Product>): (n: nat)
    ensures n <= |products|
    ensures n == 0 <==> forall p :: p in products ==> p.stock >= 10
  {
    Count(products, IsLow)
  }

  /** `outOfStock <= lowStock <= totalProducts`. */
  lemma CountersOrdered(products: seq<Product>)
    ensures OutOfStockCount(products) <= LowStockCount(products) <= |products|
  {
    CountMonotone(products, IsOut, IsLow);
  }

  /** The row shows the "Rupture" label, or one of "Rupture" and "Critique". */
  function ShowsRupture(p: Product): bool { GetStockStatus(p.stock) == OutOfStock }
  function ShowsRuptureOrCritique(p: Product): bool { GetStockStatus(p.stock).Level() <= 1 }

  /** The out-of-stock counter counts the rows labelled "Rupture", and the
      low-stock counter the rows labelled "Rupture" or "Critique". */
  lemma CountersMatchLabels(products: seq<Product>)
    ensures OutOfStockCount(products) == Count(products, ShowsRupture)
    ensures LowStockCount(products) == Count(products, ShowsRuptureOrCritique)
  {
    FilterCongruent(products, IsOut, ShowsRupture);
    FilterCongruent(products, IsLow, ShowsRuptureOrCritique);
  }

  // ---------------------------------------------------------------------
  // The modal form and the mutations
  // ---------------------------------------------------------------------

  datatype ProductForm = ProductForm(name: string, description: string, price: string, stock: string, imageUrl: string)

  const EmptyForm: ProductForm := ProductForm("", "", "", "", "")

  /** The form pre-filled from a product; `showPrice` and `showStock` are
      `toString`. */
  function PrefillForm(p: Product, showPrice: real -> string, showStock: int -> string): ProductForm
  {
    ProductForm(p.name, OrEmpty(p.description), showPrice(p.price), showStock(p.stock), OrEmpty(p.imageUrl))
  }

  /** The columns a product mutation writes. `price` and `stock` are None
      where `parseFloat`/`parseInt` give NaN. */
  datatype ProductPayload = ProductPayload(
    name: string,
    description: Option<string>,
    price: Option<real>,
    stock: Option<int>,
    imageUrl: Option<string>,
    sellerId: Option<string>)

  /** The payload `handleSubmit` builds, stamped with the session's user id. */
  function BuildPayload(form: ProductForm, sellerId: Option<string>,
                        parseFloat: string -> Option<real>, parseInt: string -> Option<int>): (p: ProductPayload)
    ensures p.name == form.name && p.sellerId == sellerId
    ensures p.description == NullIfEmpty(form.description) && p.imageUrl == NullIfEmpty(form.imageUrl)
    ensures p.price == parseFloat(form.price) && p.stock == parseInt(form.stock)
  {
    ProductPayload(form.name, NullIfEmpty(form.description), parseFloat(form.price), parseInt(form.stock),
      NullIfEmpty(form.imageUrl), sellerId)
  }

  datatype ProductMutation =
    | UpdateProduct(id: string, payload: ProductPayload)
    | InsertProduct(payload: ProductPayload)
    | DeleteProduct(id: string)

  /** What `handleSubmit` issues: an update by the edited product's id, else
      an insert; both carry the seller id. */
  function SubmitMutation(editing: Option<Product>, form: ProductForm, sellerId: Option<string>,
                          parseFloat: string -> Option<real>, parseInt: string -> Option<int>): (m: ProductMutation)
    ensures !m.DeleteProduct? && m.payload == BuildPayload(form, sellerId, parseFloat, parseInt)
    ensures m.payload.sellerId == sellerId
    ensures m.UpdateProduct? <==> editing.Some?
    ensures m.UpdateProduct? ==> m.id == editing.value.id
  {
    var payload := BuildPayload(form, sellerId, parseFloat, parseInt);
    if editing.Some? then UpdateProduct(editing.value.id, payload) else InsertProduct(payload)
  }

  /** What `handleDelete(id)` issues: nothing unless the user confirmed. */
  function DeleteMutation(id: string, confirmed: bool): (m: Option<ProductMutation>)
    ensures m.Some? <==> confirmed
    ensures m.Some? ==> m.value == DeleteProduct(id)
  {
    if confirmed then Some(DeleteProduct(id)) else None
  }

  /** The effect of a mutation on the `products` table (rows are the written
      columns); `newId` is the id generated for an insert. */
  function Apply(t: Store.Table<ProductPayload>, m: ProductMutation, newId: string): (t': Store.Table<ProductPayload>)
    ensures m.InsertProduct? ==> t'.Keys == t.Keys + {newId} && (newId !in t ==> t'[newId] == m.payload)
    ensures m.UpdateProduct? ==> t'.Keys == t.Keys && (m.id in t ==> t'[m.id] == m.payload)
    ensures m.DeleteProduct? ==> t'.Keys == t.Keys - {m.id}
    ensures forall k :: k in t && k in t' && k != (if m.InsertProduct? then newId else m.id) ==> t'[k] == t[k]
  {
    match m
    case InsertProduct(p) => Store.Insert(t, newId, p)
    case UpdateProduct(id, p) => Store.Update(t, id, (_: ProductPayload) => p)
    case DeleteProduct(id) => Store.Delete(t, id)
  }

  /** The stored columns a fetched product shows. */
  predicate Shows(p: Product, row: ProductPayload)
  {
    && row.name == p.name && row.description == p.description && row.price == Some(p.price)
    && row.stock == Some(p.stock) && row.imageUrl == p.imageUrl && row.sellerId == Some(p.sellerId)
  }

  /** Opening a product and saving the form unchanged leaves its row as it
      was, provided price and stock print and parse back to themselves, no
      text column holds "", and the session user owns the product. */
  lemma {:induction false} UnchangedEditIsIdempotent(t: Store.Table<ProductPayload>, p: Product,
      showPrice: real -> string, showStock: int -> string,
      parseFloat: string -> Option<real>, parseInt: string -> Option<int>, newId: string)
    requires p.id in t && Shows(p, t[p.id])
    requires parseFloat(showPrice(p.price)) == Some(p.price) && parseInt(showStock(p.stock)) == Some(p.stock)
    requires p.description != Some("") && p.imageUrl != Some("")
    ensures Apply(t, SubmitMutation(Some(p), PrefillForm(p, showPrice, showStock), Some(p.sellerId), parseFloat, parseInt), newId) == t
  {
    NullableRoundTrip(p.description);
    NullableRoundTrip(p.imageUrl);
    var row := BuildPayload(PrefillForm(p, showPrice, showStock), Some(p.sellerId), parseFloat, parseInt);
    assert row == t[p.id];
    assert t[p.id := row] == t;
  }

  /** A confirmed delete removes the row and nothing else; a declined one
      issues nothing. */
  lemma DeleteOnlyWhenConfirmed(t: Store.Table<ProductPayload>, id: string, confirmed: bool, newId: string)
    ensures DeleteMutation(id, confirmed).None? <==> !confirmed
    ensures confirmed ==>
      var t' := Apply(t, DeleteMutation(id, confirmed).value, newId);
      id !in t' && t'.Keys == t.Keys - {id} && (forall k :: k in t' ==> t'[k] == t[k])
  {
  }

  // ---------------------------------------------------------------------
  // The page
  // ---------------------------------------------------------------------

  class InventoryPage {
    var products: seq<Product>
    var isLoading: bool
    var isModalOpen: bool
    var editingProduct: Option<Product>
    var form: ProductForm
    var searchTerm: string
    /** The mutations sent to the `products` table, oldest first. */
    var issued: seq<ProductMutation>

    constructor ()
      ensures products == [] && isLoading && !isModalOpen && editingProduct == None
      ensures form == EmptyForm && searchTerm == "" && issued == []
    {
      products, isLoading, isModalOpen, editingProduct := [], true, false, None;
      form, searchTerm, issued := EmptyForm, "", [];
    }

    /** `fetchProducts`: the list is replaced by the query's rows, or kept
        when it returned no data. */
    method FetchProducts(fetched: Option<seq<Product>>)
      modifies this
      ensures products == (if fetched.Some? then fetched.value else old(products)) && !isLoading
      ensures isModalOpen == old(isModalOpen) && editingProduct == old(editingProduct)
      ensures form == old(form) && searchTerm == old(searchTerm) && issued == old(issued)
    {
      isLoading := true;
      if fetched.Some? { products := fetched.value; }
      isLoading := false;
    }

    /** `handleOpenModal(product?)`. */
    method OpenModal(product: Option<Product>, showPrice: real -> string, showStock: int -> string)
      modifies this
      ensures editingProduct == product && isModalOpen
      ensures form == if product.Some? then PrefillForm(product.value, showPrice, showStock) else EmptyForm
      ensures products == old(products) && isLoading == old(isLoading)
      ensures searchTerm == old(searchTerm) && issued == old(issued)
    {
      if product.Some? {
        editingProduct := product;
        form := PrefillForm(product.value, showPrice, showStock);
      } else {
        editingProduct := None;
        form := EmptyForm;
      }
      isModalOpen := true;
    }

    /** `handleSubmit`: issue the mutation, close the modal, fetch again. */
    method Submit(sellerId: Option<string>, parseFloat: string -> Option<real>, parseInt: string -> Option<int>,
                  fetched: Option<seq<Product>>)
      modifies this
      ensures issued == old(issued) + [SubmitMutation(old(editingProduct), old(form), sellerId, parseFloat, parseInt)]
      ensures !isModalOpen && !isLoading
      ensures products == (if fetched.Some? then fetched.value else old(products))
      ensures editingProduct == old(editingProduct) && form == old(form) && searchTerm == old(searchTerm)
    {
      issued := issued + [SubmitMutation(editingProduct, form, sellerId, parseFloat, parseInt)];
      isModalOpen := false;
      FetchProducts(fetched);
    }

    /** `handleDelete(id)`: unless confirmed nothing happens; otherwise the
        delete is issued and the list fetched again. */
    method Delete(id: string, confirmed: bool, fetched: Option<seq<Product>>)
      modifies this
      ensures var m := DeleteMutation(id, confirmed);
        issued == old(issued) + (if m.Some? then [m.value] else [])
      ensures products == (if confirmed && fetched.Some? then fetched.value else old(products))
      ensures isLoading == (if confirmed then false else old(isLoading))
      ensures isModalOpen == old(isModalOpen) && editingProduct == old(editingProduct)
      ensures form == old(form) && searchTerm == old(searchTerm)
    {
      var m := DeleteMutation(id, confirmed);
      if m.None? {
        return;
      }
      issued := issued + [m.value];
      FetchProducts(fetched);
    }

    /** Typing in the search box: the table then lists the search's
        result over the current rows. */
    method SetSearchTerm(term: string)
      modifies this
      ensures searchTerm == term
      ensures products == old(products) && isLoading == old(isLoading) && isModalOpen == old(isModalOpen)
      ensures editingProduct == old(editingProduct) && form == old(form) && issued == old(issued)
    {
      searchTerm := term;
    }

    method CloseModal()
      modifies this
      ensures !isModalOpen
      ensures products == old(products) && isLoading == old(isLoading) && editingProduct == old(editingProduct)
      ensures form == old(form) && searchTerm == old(searchTerm) && issued == old(issued)
    {
      isModalOpen := false;
    }
  }
}
