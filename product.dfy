/** Product management: the product list loaded from the store, its search and
    category filter, the add / update / delete handlers that edit the local
    list only after the store call succeeds, and the stock badge. Prices are
    in cents. */
module Products {
  import opened Seqs
  import opened Text
  import opened Wrappers

  datatype Product = Product(id: string, name: string, price: int, category: string,
                             stock: int, description: Option<string>)

  /** The add form: a product without id and timestamps. */
  datatype ProductForm = ProductForm(name: string, price: int, category: string,
                                     stock: int, description: string)

  const EmptyForm: ProductForm := ProductForm("", 0, "", 0, "")

  /** What the store's create call answers: the new document's id, or an error. */
  datatype CreateOutcome = Created(id: string) | CreateFailed

  // ---------------------------------------------------------------------------
  // Search and category filter

  /** The search test: the lower-cased name, or the lower-cased description when
      there is one, contains the lower-cased term. */
  predicate MatchesSearch(p: Product, term: string)
  {
    var t := ToLower(term);
    Contains(ToLower(p.name), t) || (p.description.Some? && Contains(ToLower(p.description.value), t))
  }

  function SearchTest(term: string): Product -> bool
  {
    (p: Product) => MatchesSearch(p, term)
  }

  function CategoryTest(category: string): Product -> bool
  {
    (p: Product) => p.category == category
  }

  /** The filter effect: the search applies only to a non-empty term, the
      category test only when the category is not "All". */
  function FilteredProducts(products: seq<Product>, term: string, category: string): seq<Product>
  {
    FilterWhen(FilterWhen(products, term != "", SearchTest(term)),
               category != "All", CategoryTest(category))
  }

  /** The grid shows the product list with some entries left out, in order; a
      product is shown iff it passes every active test. */
  lemma FilteredProductsSpec(products: seq<Product>, term: string, category: string)
    ensures IsSubsequence(FilteredProducts(products, term, category), products)
    ensures forall p :: p in FilteredProducts(products, term, category) <==>
      p in products && (term != "" ==> MatchesSearch(p, term)) &&
      (category != "All" ==> p.category == category)
    ensures forall p :: multiset(FilteredProducts(products, term, category))[p] ==
              (if (term != "" ==> MatchesSearch(p, term)) && (category != "All" ==> p.category == category)
               then multiset(products)[p] else 0)
  {
    var bySearch := FilterWhen(products, term != "", SearchTest(term));
    FilterWhenSpec(products, term != "", SearchTest(term));
    FilterWhenSpec(bySearch, category != "All", CategoryTest(category));
    SubsequenceTrans(FilteredProducts(products, term, category), bySearch, products);
  }

  /** The search ignores letter case in the term. */
  lemma SearchIgnoresTermCase(p: Product, term: string)
    ensures MatchesSearch(p, ToLower(term)) == MatchesSearch(p, term)
  {
    ToLowerIdempotent(term);
  }

  // ---------------------------------------------------------------------------
  // List edits

  /** The add form's validation: a name, a category and a positive price. */
  predicate FormValid(form: ProductForm)
  {
    form.name != "" && form.category != "" && form.price > 0
  }

  function FromForm(form: ProductForm, id: string): Product
  {
    Product(id, form.name, form.price, form.category, form.stock, Some(form.description))
  }

  function ProductId(p: Product): string
  {
    p.id
  }

  /** `handleUpdateProduct`'s map: the entry with the edited product's id is replaced. */
  function Replaced(products: seq<Product>, edited: Product): seq<Product>
  {
    ReplacedBy(products, ProductId, edited)
  }

  /** Update keeps the length and every id in place; when the ids are distinct
      it replaces exactly the one entry with the edited id, and with no such
      entry it changes nothing. */
  lemma ReplacedSpec(products: seq<Product>, edited: Product)
    ensures |Replaced(products, edited)| == |products|
    ensures forall i :: 0 <= i < |products| ==> Replaced(products, edited)[i].id == products[i].id
    ensures UniqueBy(products, ProductId) ==> forall k :: 0 <= k < |products| && products[k].id == edited.id ==>
      Replaced(products, edited) == products[k := edited]
    ensures (forall i :: 0 <= i < |products| ==> products[i].id != edited.id) ==>
      Replaced(products, edited) == products
  {
    ReplacedBySpec(products, ProductId, edited);
  }

  /** `handleDeleteProduct`'s filter. */
  function Deleted(products: seq<Product>, id: string): seq<Product>
  {
    Filter(products, KeyIsNot(ProductId, id))
  }

  /** Deletion drops every copy of the products with that id, keeps every copy
      of the others, in order, and does nothing when no product has that id. */
  lemma DeletedSpec(products: seq<Product>, id: string)
    ensures IsSubsequence(Deleted(products, id), products)
    ensures forall p :: p in Deleted(products, id) <==> p in products && p.id != id
    ensures forall p :: multiset(Deleted(products, id))[p] ==
              (if p.id != id then multiset(products)[p] else 0)
    ensures (forall p :: p in products ==> p.id != id) ==> Deleted(products, id) == products
  {
    var keep := KeyIsNot(ProductId, id);
    assert forall p :: keep(p) == (p.id != id);
    FilterIsSubsequence(products, keep);
    FilterMultiset(products, keep);
    if forall p :: p in products ==> p.id != id {
      FilterKeepsAll(products, keep);
    }
  }

  // ---------------------------------------------------------------------------
  // Stock badge

  datatype Tone = Green | Yellow | Red

  /** The badge text: "<n> in stock" or "Out of stock". */
  datatype BadgeLabel = InStock(count: int) | OutOfStock

  datatype Badge = Badge(text: BadgeLabel, tone: Tone)

  function StockBadge(stock: int): (b: Badge)
    ensures b.tone == Green <==> stock > 10
    ensures b.tone == Yellow <==> 0 < stock <= 10
    ensures b.tone == Red <==> stock <= 0
    ensures b.text == (if stock > 0 then InStock(stock) else OutOfStock)
  {
    Badge(if stock > 0 then InStock(stock) else OutOfStock,
          if stock > 10 then Green else if stock > 0 then Yellow else Red)
  }

  /** The tone and the text agree: red exactly when the text says out of stock,
      and more stock never gives a worse tone. */
  lemma BadgeConsistent(stock: int, more: int)
    requires stock <= more
    ensures StockBadge(stock).tone == Red <==> StockBadge(stock).text == OutOfStock
    ensures StockBadge(stock).tone == Green ==> StockBadge(more).tone == Green
    ensures StockBadge(more).tone == Red ==> StockBadge(stock).tone == Red
  {
  }

  /** The products screen. */
  class ProductCatalog {
    var products: seq<Product>
    var searchTerm: string
    var selectedCategory: string
    var isAdding: bool
    var isEditing: bool
    var currentProduct: Option<Product>
    var newProduct: ProductForm

    /** The screen once the store's product list has been loaded. */
    constructor (loaded: seq<Product>)
      ensures products == loaded && searchTerm == "" && selectedCategory == "All"
      ensures !isAdding && !isEditing && currentProduct == None && newProduct == EmptyForm
    {
      products := loaded;
      searchTerm := "";
      selectedCategory := "All";
      isAdding := false;
      isEditing := false;
      currentProduct := None;
      newProduct := EmptyForm;
    }

    /** The list the grid shows. */
    function Visible(): seq<Product>
      reads this
    {
      FilteredProducts(products, searchTerm, selectedCategory)
    }

    /** `handleAddProduct`. An invalid form is refused before the store is
        called; `outcome` is the store's answer to the create call. */
    method AddProduct(outcome: CreateOutcome) returns (added: bool)
      modifies this
      ensures added <==> FormValid(old(newProduct)) && outcome.Created?
      ensures added ==>
        && products == old(products) + [FromForm(old(newProduct), outcome.id)]
        && newProduct == EmptyForm && !isAdding
      ensures !added ==>
        products == old(products) && newProduct == old(newProduct) && isAdding == old(isAdding)
      ensures isEditing == old(isEditing) && currentProduct == old(currentProduct)
      ensures searchTerm == old(searchTerm) && selectedCategory == old(selectedCategory)
    {
      if !FormValid(newProduct) {
        return false;
      }
      if outcome.CreateFailed? {
        return false;
      }
      products := products + [FromForm(newProduct, outcome.id)];
      newProduct := EmptyForm;
      isAdding := false;
      added := true;
    }

    /** `handleEditProduct`: open the edit form on a product. */
    method EditProduct(p: Product)
      modifies this
      ensures currentProduct == Some(p) && isEditing
      ensures products == old(products) && isAdding == old(isAdding)
      ensures newProduct == old(newProduct)
      ensures searchTerm == old(searchTerm) && selectedCategory == old(selectedCategory)
    {
      currentProduct := Some(p);
      isEditing := true;
    }

    /** `handleUpdateProduct`; `succeeded` is whether the store's update call
        went through. Nothing changes without a product being edited or on failure. */
    method UpdateProduct(succeeded: bool) returns (updated: bool)
      modifies this
      ensures updated <==> old(currentProduct).Some? && succeeded
      ensures updated ==>
        products == Replaced(old(products), old(currentProduct).value) &&
        !isEditing && currentProduct == None
      ensures !updated ==>
        products == old(products) && isEditing == old(isEditing) &&
        currentProduct == old(currentProduct)
      ensures isAdding == old(isAdding) && newProduct == old(newProduct)
      ensures searchTerm == old(searchTerm) && selectedCategory == old(selectedCategory)
    {
      if currentProduct == None || !succeeded {
        return false;
      }
      products := Replaced(products, currentProduct.value);
      isEditing := false;
      currentProduct := None;
      updated := true;
    }

    /** `handleDeleteProduct`, with the confirmation answer as `confirmed` and
        the store's delete call outcome as `succeeded`. */
    method DeleteProduct(id: string, confirmed: bool, succeeded: bool)
      modifies this
      ensures products == if confirmed && succeeded then Deleted(old(products), id) else old(products)
      ensures isAdding == old(isAdding) && isEditing == old(isEditing)
      ensures currentProduct == old(currentProduct) && newProduct == old(newProduct)
      ensures searchTerm == old(searchTerm) && selectedCategory == old(selectedCategory)
    {
      if !confirmed || !succeeded {
        return;
      }
      products := Deleted(products, id);
    }

    /** `resetForm`: close both forms and clear them. */
    method ResetForm()
      modifies this
      ensures !isAdding && !isEditing && currentProduct == None && newProduct == EmptyForm
      ensures products == old(products)
      ensures searchTerm == old(searchTerm) && selectedCategory == old(selectedCategory)
    {
      isAdding := false;
      isEditing := false;
      currentProduct := None;
      newProduct := EmptyForm;
    }
  }
}
