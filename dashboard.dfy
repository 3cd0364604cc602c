/** The dashboard: the loaded products split into a "published" and an
    "unpublished" tab, the publish toggle that moves a product from one tab
    to the other, and the delete button of its cards. */
module Dashboard {
  import opened Base
  import opened Catalog
  import Routing

  datatype Tab = PublishedTab | UnpublishedTab

  function Other(tab: Tab): Tab {
    if tab == PublishedTab then UnpublishedTab else PublishedTab
  }

  /** The tab filter of `fetchProducts`: the published tab wants status
      "published"; the other wants "unpublished" or a missing status. */
  predicate OnTab(p: Product, tab: Tab) {
    match tab
    case PublishedTab => p.status == PUBLISHED
    case UnpublishedTab => p.status == UNPUBLISHED || p.status == ""
  }

  function TabFor(tab: Tab): Product -> bool {
    p => OnTab(p, tab)
  }

  /** The products a tab lists, in the order loaded. */
  function TabProducts(all: seq<Product>, tab: Tab): seq<Product> {
    Filter(all, TabFor(tab))
  }

  /** A product is listed on a tab iff it was loaded and its status belongs
      to that tab. */
  lemma TabExactly(all: seq<Product>, tab: Tab)
    ensures |TabProducts(all, tab)| <= |all|
    ensures forall p :: p in TabProducts(all, tab) <==> p in all && OnTab(p, tab)
  {
    FilterMembers(all, TabFor(tab));
  }

  /** No product is on both tabs, and one whose status is neither
      "published", "unpublished" nor missing is on neither. */
  lemma TabsDisjoint(all: seq<Product>)
    ensures forall p :: !(p in TabProducts(all, PublishedTab) && p in TabProducts(all, UnpublishedTab))
    ensures forall p: Product :: p.status != PUBLISHED && p.status != UNPUBLISHED && p.status != "" ==>
              p !in TabProducts(all, PublishedTab) && p !in TabProducts(all, UnpublishedTab)
  {
    TabExactly(all, PublishedTab);
    TabExactly(all, UnpublishedTab);
  }

  /** Each tab keeps the loaded order. */
  lemma TabKeepsOrder(a: seq<Product>, b: seq<Product>, tab: Tab)
    ensures TabProducts(a + b, tab) == TabProducts(a, tab) + TabProducts(b, tab)
  {
    FilterConcat(a, b, TabFor(tab));
  }

  /** Together the tabs list at most every loaded product once, and exactly
      every one when all statuses are known or missing. */
  lemma {:induction false} TabsCount(all: seq<Product>)
    ensures |TabProducts(all, PublishedTab)| + |TabProducts(all, UnpublishedTab)| <= |all|
    ensures (forall i :: 0 <= i < |all| ==> OnTab(all[i], PublishedTab) || OnTab(all[i], UnpublishedTab))
            ==> |TabProducts(all, PublishedTab)| + |TabProducts(all, UnpublishedTab)| == |all|
  {
    if all != [] {
      TabsCount(all[1..]);
      assert forall i :: 1 <= i < |all| ==> all[1..][i - 1] == all[i];
    }
  }

  /** Toggling a product listed on one tab moves it to the other tab. */
  lemma ToggleMovesTab(p: Product, tab: Tab)
    requires OnTab(p, tab)
    ensures OnTab(p.(status := Toggled(p.status)), Other(tab))
    ensures !OnTab(p.(status := Toggled(p.status)), tab)
  {
  }

  // ----------------------------------------------------------- finding

  /** The card calls `onDelete(product)`, but `handleDelete(id)` puts its
      argument into the URL as it is: a product object prints as
      "[object Object]", whatever the product. */
  function DeleteUrlAsWritten(p: Product): string {
    "/items/" + "[object Object]"
  }

  /** The delete as intended: the URL names the product's id. */
  function DeleteUrlCorrected(p: Product): (url: string)
    ensures StartsWith(url, "/items/") && url[|"/items/"|..] == p.mongoId
  {
    "/items/" + p.mongoId
  }

  /** As written, deleting any two products requests the same URL; once
      corrected, products with different ids are deleted under different
      URLs. */
  lemma DeleteTargetsCollide(a: Product, b: Product)
    requires a.mongoId != b.mongoId
    ensures DeleteUrlAsWritten(a) == DeleteUrlAsWritten(b)
    ensures DeleteUrlCorrected(a) != DeleteUrlCorrected(b)
  {
  }

  // --------------------------------------------------------------- page

  class DashboardPage {
    var activeTab: Tab
    var products: seq<Product>
    var loading: bool

    constructor ()
      ensures activeTab == PublishedTab && products == [] && loading
    {
      activeTab := PublishedTab;
      products := [];
      loading := true;
    }

    /** A tab button: the effect reloads the products only when the tab
        actually changes. */
    method SetActiveTab(tab: Tab) returns (refetch: bool)
      modifies this`activeTab
      ensures activeTab == tab
      ensures refetch <==> tab != old(activeTab)
    {
      refetch := tab != activeTab;
      activeTab := tab;
    }

    /** `fetchProducts`: the active tab's share of the loaded products
        replaces the list; a failure leaves the list as it was. */
    method FetchProducts(reply: Reply<seq<Product>>)
      modifies this`products, this`loading
      ensures !loading
      ensures reply.Resolved? ==> products == TabProducts(reply.value, activeTab)
      ensures reply.Rejected? ==> products == old(products)
    {
      loading := true;
      if reply.Resolved? {
        products := TabProducts(reply.value, activeTab);
      }
      loading := false;
    }

    /** `handleToggleStatus`: asks for the toggled status and reloads on
        success. */
    method HandleToggleStatus(p: Product, reply: Reply<()>) returns (request: (string, string), refetch: bool)
      ensures request == (p.mongoId, Toggled(p.status))
      ensures refetch <==> reply.Resolved?
    {
      var newStatus := if p.status == PUBLISHED then UNPUBLISHED else PUBLISHED;
      request := (p.mongoId, newStatus);
      refetch := reply.Resolved?;
    }

    /** `handleEdit` leaves for the product list page. */
    method HandleEdit(p: Product) returns (navigate: Routing.Path)
      ensures navigate == Routing.PRODUCTS
    {
      navigate := Routing.PRODUCTS;
    }

    /** `handleDelete`, with the corrected URL: nothing is requested unless
        the user confirms, and the list reloads after a successful delete. */
    method HandleDelete(p: Product, confirmed: bool, reply: Reply<()>) returns (url: Option<string>, refetch: bool)
      ensures url == if confirmed then Some(DeleteUrlCorrected(p)) else None
      ensures refetch <==> confirmed && reply.Resolved?
    {
      url, refetch := None, false;
      if confirmed {
        url := Some("/items/" + p.mongoId);
        refetch := reply.Resolved?;
      }
    }
  }
}
