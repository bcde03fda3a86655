/** The catalog and cart view rules of the browser script, as functions of the
    state they read: the category filter and page slice of `renderProducts`, the
    page count and button rule of `renderPagination`, the category cards of
    `renderCategories`, the cart badge and totals, and the request that
    `updateQuantity` sends. */
module Catalog {
  import opened Common
  import opened JsonValues
  import opened CategoryEmoji
  import opened Identity

  /** Ids are strings as the catalog feed delivers them; prices are whole
      currency units. */
  datatype Product = Product(
    id: string,
    name: string,
    price: int,
    oldprice: Option<int>,
    description: string,
    pictures: seq<string>,
    categoryId: string)

  datatype Category = Category(id: string, name: string)

  /** A cart line as the server sends it; `subtotal` is `None` when the field
      is missing. */
  datatype CartItem = CartItem(product: Product, quantity: int, subtotal: Option<int>)

  const ItemsPerPage: nat := 10

  // ---------------------------------------------------------------------------
  // Category filter (`state.products.filter(p => p.categoryId === state.currentCategory)`)
  // ---------------------------------------------------------------------------

  predicate InCategory(p: Product, category: Option<string>) {
    category == Some(p.categoryId)
  }

  function FilterCategory(products: seq<Product>, category: Option<string>): (r: seq<Product>)
    ensures |r| <= |products|
    ensures forall p :: p in r ==> p in products && InCategory(p, category)
    ensures forall p :: p in products && InCategory(p, category) ==> p in r
  {
    if products == [] then []
    else
      var rest := FilterCategory(products[1..], category);
      assert forall p :: p in products[1..] ==> p in products;
      if InCategory(products[0], category) then [products[0]] + rest else rest
  }

  /** The filter keeps catalog order: filtering a concatenation filters each part. */
  lemma {:induction false} FilterCategoryAppend(a: seq<Product>, b: seq<Product>, category: Option<string>)
    ensures FilterCategory(a + b, category) == FilterCategory(a, category) + FilterCategory(b, category)
    decreases |a|
  {
    if a == [] {
      assert a + b == b;
    } else {
      assert (a + b)[0] == a[0];
      assert (a + b)[1..] == a[1..] + b;
      FilterCategoryAppend(a[1..], b, category);
    }
  }

  /** With no current category (after `showCategories` or `showAllProducts`) the
      filter matches nothing. */
  lemma FilterWithoutCategory(products: seq<Product>)
    ensures FilterCategory(products, None) == []
  {
  }

  // ---------------------------------------------------------------------------
  // Page slice (`Array.prototype.slice` with its negative and oversize bounds)
  // ---------------------------------------------------------------------------

  /** How `slice` resolves one bound: negative bounds count from the end, and
      every bound is clamped into `[0, n]`. */
  function SliceBound(i: int, n: nat): (b: nat)
    ensures b <= n
    ensures 0 <= i <= n ==> b == i
    ensures i > n ==> b == n
  {
    if i < 0 then (if n + i < 0 then 0 else n + i)
    else if i > n then n
    else i
  }

  function JsSlice(s: seq<Product>, start: int, end: int): (r: seq<Product>)
    ensures |r| <= |s|
    ensures forall x :: x in r ==> x in s
  {
    var a := SliceBound(start, |s|);
    var b := SliceBound(end, |s|);
    if a < b then s[a..b] else []
  }

  function PageStart(page: int): int {
    (page - 1) * ItemsPerPage
  }

  function PageSlice(items: seq<Product>, page: int): seq<Product> {
    JsSlice(items, PageStart(page), PageStart(page) + ItemsPerPage)
  }

  function Min(a: int, b: int): int {
    if a <= b then a else b
  }

  /** Every page, whatever the page number, holds at most ten items. */
  lemma PageAtMostTen(items: seq<Product>, page: int)
    ensures |PageSlice(items, page)| <= ItemsPerPage
  {
  }

  /** For page numbers from 1 on, the page is the ten-item window that starts at
      `(page - 1) * 10`, cut at the end of the list. */
  lemma PageIsWindow(items: seq<Product>, page: int)
    requires page >= 1
    ensures PageSlice(items, page) ==
              items[Min(PageStart(page), |items|)..Min(PageStart(page) + ItemsPerPage, |items|)]
  {
  }

  // ---------------------------------------------------------------------------
  // Pagination (`renderPagination`)
  // ---------------------------------------------------------------------------

  /** `Math.ceil(n / 10)`. */
  function TotalPages(n: nat): (t: nat)
    ensures t * ItemsPerPage >= n
    ensures n > 0 ==> (t - 1) * ItemsPerPage < n
    ensures n == 0 <==> t == 0
  {
    (n + ItemsPerPage - 1) / ItemsPerPage
  }

  /** The controls: the current page, the page count, and for the back and next
      buttons whether each is disabled and the page it asks for. */
  datatype Pagination =
    | NoControls
    | Controls(page: int, totalPages: nat, backDisabled: bool, nextDisabled: bool, backTarget: int, nextTarget: int)

  function RenderPagination(totalItems: nat, currentPage: int): (r: Pagination)
    ensures r.NoControls? <==> TotalPages(totalItems) <= 1
    ensures r.Controls? ==>
              r.page == currentPage && r.totalPages == TotalPages(totalItems) &&
              r.backDisabled == (currentPage == 1) && r.nextDisabled == (currentPage == r.totalPages) &&
              r.backTarget == currentPage - 1 && r.nextTarget == currentPage + 1
  {
    var totalPages := TotalPages(totalItems);
    if totalPages <= 1 then NoControls
    else Controls(currentPage, totalPages, currentPage == 1, currentPage == totalPages,
                  currentPage - 1, currentPage + 1)
  }

  /** From a page in range, every enabled button leads to a page in range: the
      disabled buttons are what keeps paging within bounds. */
  lemma EnabledButtonsStayInRange(totalItems: nat, page: int)
    requires 1 <= page <= TotalPages(totalItems)
    ensures var r := RenderPagination(totalItems, page);
            r.Controls? ==>
              (!r.backDisabled ==> 1 <= r.backTarget <= r.totalPages) &&
              (!r.nextDisabled ==> 1 <= r.nextTarget <= r.totalPages)
  {
  }

  /** Nothing clamps a page beyond the last one: there the next button is enabled
      and asks for a page further out. */
  lemma NextEnabledBeyondLastPage(totalItems: nat, page: int)
    requires TotalPages(totalItems) >= 2 && page > TotalPages(totalItems)
    ensures var r := RenderPagination(totalItems, page);
            r.Controls? && !r.nextDisabled && r.nextTarget > r.totalPages
  {
  }

  // ---------------------------------------------------------------------------
  // Product listing (`renderProducts`)
  // ---------------------------------------------------------------------------

  datatype ProductsView =
    | NotLoaded                       // no products at all: "Товары не загружены"
    | EmptyCategory                   // none in this category
    | Listing(items: seq<Product>, pagination: Pagination)

  /** `renderProducts`: the placeholder when nothing is loaded, the empty-category
      notice when no product carries the current category, otherwise a listing
      of at most ten of the category's products. */
  function RenderProducts(products: seq<Product>, category: Option<string>, page: int): (v: ProductsView)
    ensures v.NotLoaded? <==> products == []
    ensures v.EmptyCategory? <==> products != [] && forall p :: p in products ==> !InCategory(p, category)
    ensures v.Listing? ==> |v.items| <= ItemsPerPage && forall p :: p in v.items ==> InCategory(p, category)
    ensures v.Listing? ==> v.pagination == RenderPagination(|FilterCategory(products, category)|, page)
  {
    if products == [] then NotLoaded
    else
      var inCategory := FilterCategory(products, category);
      if inCategory == [] then EmptyCategory
      else
        PageAtMostTen(inCategory, page);
        assert inCategory[0] in inCategory;
        Listing(PageSlice(inCategory, page), RenderPagination(|inCategory|, page))
  }

  /** A listing shows at most ten products, all of the current category, forming
      the page's window of the category's products in catalog order. */
  lemma ListingIsCategoryPage(products: seq<Product>, category: Option<string>, page: int)
    requires RenderProducts(products, category, page).Listing?
    ensures var v := RenderProducts(products, category, page);
            var inCategory := FilterCategory(products, category);
            |v.items| <= ItemsPerPage &&
            (forall p :: p in v.items ==> InCategory(p, category)) &&
            v.items == PageSlice(inCategory, page) &&
            (page >= 1 ==> v.items == inCategory[Min(PageStart(page), |inCategory|)..
                                                  Min(PageStart(page) + ItemsPerPage, |inCategory|)])
  {
    var inCategory := FilterCategory(products, category);
    var v := RenderProducts(products, category, page);
    PageAtMostTen(inCategory, page);
    if page >= 1 {
      PageIsWindow(inCategory, page);
    }
    forall p | p in v.items ensures InCategory(p, category) {
      assert p in inCategory;
    }
  }

  /** The pages `1..m` laid end to end are the first `10 * m` items. */
  function PagesUpTo(items: seq<Product>, m: nat): seq<Product>
    decreases m
  {
    if m == 0 then [] else PagesUpTo(items, m - 1) + PageSlice(items, m)
  }

  lemma {:induction false} PagesUpToPrefix(items: seq<Product>, m: nat)
    ensures PagesUpTo(items, m) == items[..Min(m * ItemsPerPage, |items|)]
    decreases m
  {
    if m > 0 {
      PagesUpToPrefix(items, m - 1);
      PageIsWindow(items, m);
      assert PageStart(m) == (m - 1) * ItemsPerPage;
      var a := Min((m - 1) * ItemsPerPage, |items|);
      var b := Min(m * ItemsPerPage, |items|);
      assert items[..a] + items[a..b] == items[..b];
    }
  }

  /** Paging loses and repeats nothing: the pages `1..TotalPages(n)` together are
      exactly the category's products, in order. */
  lemma PagesCoverCategory(items: seq<Product>)
    ensures PagesUpTo(items, TotalPages(|items|)) == items
  {
    PagesUpToPrefix(items, TotalPages(|items|));
  }

  /** Every page in range is non-empty, and every page before the last is full. */
  lemma PagesInRangeFilled(items: seq<Product>, page: int)
    requires 1 <= page <= TotalPages(|items|)
    ensures |PageSlice(items, page)| > 0
    ensures page < TotalPages(|items|) ==> |PageSlice(items, page)| == ItemsPerPage
  {
    PageIsWindow(items, page);
  }

  // ---------------------------------------------------------------------------
  // Category cards (`renderCategories`)
  // ---------------------------------------------------------------------------

  /** A card shows an icon and a name, and opens the category's products. */
  datatype CategoryCard = CategoryCard(emoji: string, name: string, opens: string)

  function CategoryCards(categories: seq<Category>): (cards: seq<CategoryCard>)
    ensures |cards| == |categories|
    ensures forall i :: 0 <= i < |categories| ==>
              cards[i] == CategoryCard(GetCategoryEmoji(categories[i].name), categories[i].name, categories[i].id)
  {
    seq(|categories|, i requires 0 <= i < |categories| =>
      CategoryCard(GetCategoryEmoji(categories[i].name), categories[i].name, categories[i].id))
  }

  /** `category?.name || 'Товары'` for the first category carrying the id. */
  function CategoryTitle(categories: seq<Category>, id: string): (title: string)
    ensures title != ""
    ensures (forall c :: c in categories ==> c.id != id) ==> title == "Товары"
    ensures forall k ::
              0 <= k < |categories| && categories[k].id == id &&
              (forall j :: 0 <= j < k ==> categories[j].id != id)
              ==> title == (if categories[k].name != "" then categories[k].name else "Товары")
  {
    if categories == [] then "Товары"
    else if categories[0].id == id then (if categories[0].name != "" then categories[0].name else "Товары")
    else
      var rest := categories[1..];
      var title := CategoryTitle(rest, id);
      assert forall k :: 0 < k < |categories| ==> categories[k] == rest[k - 1];
      title
  }

  // ---------------------------------------------------------------------------
  // Cart figures
  // ---------------------------------------------------------------------------

  /** `item.subtotal || 0`: the server's subtotal, a missing one counted as 0. */
  function ShownSubtotal(item: CartItem): int {
    if item.subtotal.Some? then item.subtotal.value else 0
  }

  /** The badge count of `updateCartCount`, the left fold
      `cart.reduce((sum, item) => sum + item.quantity, 0)`. */
  function CartCount(cart: seq<CartItem>): int {
    if cart == [] then 0 else CartCount(cart[..|cart| - 1]) + cart[|cart| - 1].quantity
  }

  /** The total shown by `renderCart`: the server's subtotals added up. */
  function CartTotal(cart: seq<CartItem>): int {
    if cart == [] then 0 else CartTotal(cart[..|cart| - 1]) + ShownSubtotal(cart[|cart| - 1])
  }

  /** The badge adds up line by line: the count of a concatenation is the sum of
      the counts. */
  lemma {:induction false} CartCountAppend(a: seq<CartItem>, b: seq<CartItem>)
    ensures CartCount(a + b) == CartCount(a) + CartCount(b)
    decreases |b|
  {
    if b == [] {
      assert a + b == a;
    } else {
      assert (a + b)[..|a + b| - 1] == a + b[..|b| - 1];
      assert (a + b)[|a + b| - 1] == b[|b| - 1];
      CartCountAppend(a, b[..|b| - 1]);
    }
  }

  /** The total is determined by the server's subtotals alone: carts whose lines
      carry the same subtotals show the same total, whatever the products'
      prices and the quantities. */
  lemma {:induction false} TotalUsesOnlySubtotals(a: seq<CartItem>, b: seq<CartItem>)
    requires |a| == |b|
    requires forall i :: 0 <= i < |a| ==> a[i].subtotal == b[i].subtotal
    ensures CartTotal(a) == CartTotal(b)
    decreases |a|
  {
    if a != [] {
      TotalUsesOnlySubtotals(a[..|a| - 1], b[..|b| - 1]);
    }
  }

  /** One line of the cart panel: the quantity, the shown subtotal, and the
      quantities the minus and plus buttons ask for. */
  datatype CartLine = CartLine(productId: string, quantity: int, subtotal: int, minusTarget: int, plusTarget: int)

  function LineOf(item: CartItem): CartLine {
    CartLine(item.product.id, item.quantity, ShownSubtotal(item), item.quantity - 1, item.quantity + 1)
  }

  // ---------------------------------------------------------------------------
  // Quantity change (`updateQuantity`)
  // ---------------------------------------------------------------------------

  /** The cart requests the script sends. */
  datatype CartRequest =
    | RemoveRequest(userId: UserId, productId: string)
    | UpdateRequest(userId: UserId, productId: string, quantity: int)

  /** The request `updateQuantity(productId, quantity)` issues, if any: a
      quantity below 1 becomes a removal; no request leaves without a truthy
      user id. */
  function UpdateQuantityRequest(productId: string, quantity: int, user: UserId): (r: Option<CartRequest>)
    ensures r.Some? <==> UserIdTruthy(user)
    ensures r.Some? ==> r.value.productId == productId && r.value.userId == user
    ensures r.Some? ==> (r.value.RemoveRequest? <==> quantity < 1)
    ensures r.Some? && r.value.UpdateRequest? ==> r.value.quantity == quantity
  {
    if quantity < 1 then
      (if UserIdTruthy(user) then Some(RemoveRequest(user, productId)) else None)
    else if UserIdTruthy(user) then Some(UpdateRequest(user, productId, quantity))
    else None
  }

  /** The minus button of a line holding one item removes it rather than
      updating it to zero. */
  lemma MinusOnSingleItemRemoves(item: CartItem, user: UserId)
    requires item.quantity == 1 && UserIdTruthy(user)
    ensures UpdateQuantityRequest(item.product.id, LineOf(item).minusTarget, user) ==
              Some(RemoveRequest(user, item.product.id))
  {
  }
}
