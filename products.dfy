/** The product list page: the search filter over the loaded products, the
    publish/unpublish toggle, and the state of its three modals (add, edit,
    delete). */
module Products {
  import opened Base
  import opened Catalog

  const FETCH_FAILED := "Failed to fetch products"
  const DELETE_FAILED := "Failed to delete product"
  const STATUS_FAILED := "Failed to update product status"
  const ADDED := "Product added Successfully"
  const UPDATED := "Product updated Successfully"
  const DELETED := "Product Deleted Successfully"

  datatype ToastKind = Success | Failure
  datatype Toast = Toast(text: string, kind: ToastKind)

  // ------------------------------------------------------------- search

  /** `search` (already lower-cased) occurs in the lower-cased name, brand
      or type. A missing field is "" and holds no non-empty search. */
  predicate MatchesSearch(p: Product, search: string) {
    Contains(Lower(p.productName), search)
    || Contains(Lower(p.brandName), search)
    || Contains(Lower(p.productType), search)
  }

  function SearchFor(search: string): Product -> bool {
    p => MatchesSearch(p, search)
  }

  /** `filteredProducts`: everything for an empty term, otherwise the
      products the lower-cased term matches, in their order. */
  function FilteredProducts(products: seq<Product>, term: string): seq<Product> {
    if term == "" then products else Filter(products, SearchFor(Lower(term)))
  }

  /** A product is listed iff it is loaded and the term is empty or matches
      it; an empty term lists the products exactly as loaded. */
  lemma SearchExactly(products: seq<Product>, term: string)
    ensures var r := FilteredProducts(products, term);
      && |r| <= |products|
      && (term == "" ==> r == products)
      && forall p :: p in r <==> p in products && (term == "" || MatchesSearch(p, Lower(term)))
  {
    FilterMembers(products, SearchFor(Lower(term)));
  }

  /** The search keeps the products' order: filtering two runs of products
      one after the other gives the two results one after the other. */
  lemma SearchKeepsOrder(a: seq<Product>, b: seq<Product>, term: string)
    ensures FilteredProducts(a + b, term) == FilteredProducts(a, term) + FilteredProducts(b, term)
  {
    if term != "" {
      FilterConcat(a, b, SearchFor(Lower(term)));
    }
  }

  /** The search ignores the case of the term. */
  lemma SearchIgnoresCase(products: seq<Product>, term: string)
    ensures FilteredProducts(products, Lower(term)) == FilteredProducts(products, term)
  {
    LowerTwice(term);
  }

  /** A product whose name, brand and type are all missing is listed only
      while the term is empty. */
  lemma MissingFieldsNeverMatch(p: Product, term: string)
    requires p.productName == "" && p.brandName == "" && p.productType == ""
    ensures p in FilteredProducts([p], term) <==> term == ""
  {
    SearchExactly([p], term);
    var search := Lower(term);
    if term != "" {
      assert forall i: nat :: !OccursAt("", search, i);
    }
  }

  // --------------------------------------------------------------- page

  class ProductsPage {
    var products: seq<Product>
    var loading: bool
    var error: Option<string>
    var showAddModal: bool
    var editingProduct: Option<Product>
    var deletingProduct: Option<Product>
    /** `searchTerm`: no handler ever changes it. */
    const searchTerm: string

    constructor ()
      ensures products == [] && loading && error.None? && !showAddModal
      ensures editingProduct.None? && deletingProduct.None? && searchTerm == ""
    {
      products := [];
      loading := true;
      error := None;
      showAddModal := false;
      editingProduct := None;
      deletingProduct := None;
      searchTerm := "";
    }

    /** The cards the page shows. */
    function Shown(): seq<Product>
      reads this
    {
      FilteredProducts(products, searchTerm)
    }

    /** `fetchProducts`: the loaded list replaces the old one; a failure
        keeps it and sets the error. Loading is over afterwards. */
    method FetchProducts(reply: Reply<seq<Product>>)
      modifies this`products, this`loading, this`error
      ensures !loading
      ensures reply.Resolved? ==> products == reply.value && error.None?
      ensures reply.Rejected? ==> products == old(products) && error == Some(Or(reply.error.message, FETCH_FAILED))
    {
      loading := true;
      error := None;
      match reply {
        case Resolved(all) => products := all;
        case Rejected(err) => error := Some(Or(err.message, FETCH_FAILED));
      }
      loading := false;
    }

    method HandleAddProduct()
      modifies this`showAddModal
      ensures showAddModal
    {
      showAddModal := true;
    }

    method HandleCloseAddModal()
      modifies this`showAddModal
      ensures !showAddModal
    {
      showAddModal := false;
    }

    /** A successful add closes its modal, toasts, and reloads the list. */
    method HandleProductAdded() returns (toast: Toast, refetch: bool)
      modifies this`showAddModal
      ensures !showAddModal && toast == Toast(ADDED, Success) && refetch
    {
      showAddModal := false;
      toast, refetch := Toast(ADDED, Success), true;
    }

    method HandleEditProduct(p: Product)
      modifies this`editingProduct
      ensures editingProduct == Some(p)
    {
      editingProduct := Some(p);
    }

    method HandleCloseEditModal()
      modifies this`editingProduct
      ensures editingProduct.None?
    {
      editingProduct := None;
    }

    /** A successful update closes its modal, toasts, and reloads the list. */
    method HandleProductUpdated() returns (toast: Toast, refetch: bool)
      modifies this`editingProduct
      ensures editingProduct.None? && toast == Toast(UPDATED, Success) && refetch
    {
      editingProduct := None;
      toast, refetch := Toast(UPDATED, Success), true;
    }

    method HandleDeleteClick(p: Product)
      modifies this`deletingProduct
      ensures deletingProduct == Some(p)
    {
      deletingProduct := Some(p);
    }

    /** `handleDeleteConfirm`: nothing happens without a pending product;
        otherwise its id is deleted once and, whether that succeeds or
        fails, no product is pending afterwards. A failure shows its
        message both as the page error and as a toast. */
    method HandleDeleteConfirm(reply: Reply<()>) returns (deleted: Option<string>, toast: Option<Toast>, refetch: bool)
      modifies this`deletingProduct, this`error
      ensures old(deletingProduct).None? ==>
        deleted.None? && toast.None? && !refetch && deletingProduct.None? && error == old(error)
      ensures old(deletingProduct).Some? ==>
        deleted == Some(old(deletingProduct).value.mongoId) && deletingProduct.None?
      ensures deleted.Some? && reply.Resolved? ==>
        toast == Some(Toast(DELETED, Success)) && refetch && error == old(error)
      ensures deleted.Some? && reply.Rejected? ==>
        var text := Or(reply.error.message, DELETE_FAILED);
        error == Some(text) && toast == Some(Toast(text, Failure)) && !refetch
    {
      deleted, toast, refetch := None, None, false;
      if deletingProduct.None? {
        return;
      }
      deleted := Some(deletingProduct.value.mongoId);
      match reply {
        case Resolved(_) =>
          deletingProduct := None;
          toast, refetch := Some(Toast(DELETED, Success)), true;
        case Rejected(err) =>
          var text := Or(err.message, DELETE_FAILED);
          error := Some(text);
          toast := Some(Toast(text, Failure));
          deletingProduct := None;
      }
    }

    method HandleDeleteCancel()
      modifies this`deletingProduct
      ensures deletingProduct.None?
    {
      deletingProduct := None;
    }

    /** `handleToggleStatus`: asks for the toggled status of the product and
        names the new status in the toast; a failure sets the error and
        toasts it instead. */
    method HandleToggleStatus(p: Product, reply: Reply<()>)
      returns (request: (string, string), toast: Toast, refetch: bool)
      modifies this`error
      ensures request == (p.mongoId, Toggled(p.status))
      ensures reply.Resolved? ==>
        toast == Toast(ToggleToast(request.1), Success) && refetch && error == old(error)
      ensures reply.Rejected? ==>
        var text := Or(reply.error.message, STATUS_FAILED);
        error == Some(text) && toast == Toast(text, Failure) && !refetch
    {
      var newStatus := if p.status == PUBLISHED then UNPUBLISHED else PUBLISHED;
      request := (p.mongoId, newStatus);
      match reply {
        case Resolved(_) =>
          toast, refetch := Toast(ToggleToast(newStatus), Success), true;
        case Rejected(err) =>
          var text := Or(err.message, STATUS_FAILED);
          error := Some(text);
          toast, refetch := Toast(text, Failure), false;
      }
    }
  }
}
