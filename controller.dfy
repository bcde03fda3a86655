/** The browser script's single mutable `state` record and the transitions that
    change it. The page's section visibility (the `hidden` class on the four
    catalog sections) is kept as the set of visible sections; everything else
    the DOM shows is returned as a value. */
module CatalogController {
  import opened Common
  import opened Identity
  import opened Catalog

  datatype Section = CategoriesSection | ProductsSection | AllProductsSection | DetailsSection

  /** A list response after `safeJsonParse`: its `success` truthiness, the list
      it carries (`None` when the field is missing), and its `error` text (`""`
      when missing). A failed `fetch` arrives here as a failure whose error is
      the caught message. */
  datatype Fetched<T> = Fetched(success: bool, items: Option<seq<T>>, error: string)

  /** `data.list || []`, the default `loadData` puts in for a missing list. */
  function ListOrEmpty<T>(items: Option<seq<T>>): seq<T> {
    if items.Some? then items.value else []
  }

  /** What `showAllProducts` shows. */
  datatype AllProductsView = NothingLoaded(message: string) | AllProducts(items: seq<Product>)

  /** What the "back to products" button leads to. */
  datatype BackView = CategoryPage(title: string, view: ProductsView) | AllProductsPage(all: AllProductsView)

  /** What `loadData` shows: the category cards when both lists arrived, or the
      error text when the products did not. */
  datatype LoadView = CatalogLoaded(cards: Option<seq<CategoryCard>>) | CatalogMissing(message: string)

  /** The cart panel of `renderCart`. */
  datatype CartSummary = CartEmpty | CartPanel(lines: seq<CartLine>, itemsCount: int, total: int)

  /** What the search box shows: the blank-query notice, the results, or an
      error notice. */
  datatype SearchOutcome = QueryRequired | SearchResults(items: seq<Product>) | SearchFailed(message: string)

  const NoProductsMessage: string := "Товары не загружены. Пожалуйста, обновите страницу."
  const CatalogPendingMessage: string :=
    "Каталог товаров еще не загружен. Пожалуйста, подождите немного и обновите страницу."

  class AppState {
    var products: seq<Product>
    var categories: seq<Category>
    var cart: Option<seq<CartItem>>   // None once a reply without `cart` was taken over
    var currentCategory: Option<string>
    var currentProduct: Option<Product>
    var currentPage: int
    const itemsPerPage: nat
    var visible: set<Section>

    /** The record as the script declares it; which sections the page shows
        first is up to the page markup. */
    constructor (initiallyVisible: set<Section>)
      ensures products == [] && categories == [] && cart == Some([])
      ensures currentCategory == None && currentProduct == None
      ensures currentPage == 1 && itemsPerPage == ItemsPerPage
      ensures visible == initiallyVisible
    {
      products := [];
      categories := [];
      cart := Some([]);
      currentCategory := None;
      currentProduct := None;
      currentPage := 1;
      itemsPerPage := ItemsPerPage;
      visible := initiallyVisible;
    }

    /** Opens a category at its first page. */
    method ShowProducts(categoryId: string) returns (title: string, view: ProductsView)
      modifies this
      ensures currentCategory == Some(categoryId) && currentPage == 1
      ensures products == old(products) && categories == old(categories) && cart == old(cart)
      ensures currentProduct == old(currentProduct)
      ensures visible == old(visible) - {CategoriesSection, DetailsSection} + {ProductsSection}
      ensures title == CategoryTitle(categories, categoryId)
      ensures view == RenderProducts(products, Some(categoryId), 1)
    {
      currentCategory := Some(categoryId);
      currentPage := 1;
      title := CategoryTitle(categories, categoryId);
      visible := visible - {CategoriesSection, DetailsSection} + {ProductsSection};
      view := RenderProducts(products, currentCategory, currentPage);
    }

    /** Back to the category grid; forgets the category and the product, keeps
        the page number. */
    method ShowCategories()
      modifies this
      ensures currentCategory == None && currentProduct == None
      ensures products == old(products) && categories == old(categories) && cart == old(cart)
      ensures currentPage == old(currentPage)
      ensures visible == old(visible) + {CategoriesSection} - {ProductsSection, AllProductsSection, DetailsSection}
    {
      visible := visible + {CategoriesSection} - {ProductsSection, AllProductsSection, DetailsSection};
      currentCategory := None;
      currentProduct := None;
    }

    /** The whole catalog in one list; with no products loaded only an error is
        shown and nothing changes. */
    method ShowAllProducts() returns (view: AllProductsView)
      modifies this
      ensures old(products) == [] ==>
                view == NothingLoaded(NoProductsMessage) &&
                currentCategory == old(currentCategory) && currentProduct == old(currentProduct) &&
                visible == old(visible)
      ensures old(products) != [] ==>
                view == AllProducts(products) &&
                currentCategory == None && currentProduct == None &&
                visible == old(visible) - {CategoriesSection, ProductsSection, DetailsSection} + {AllProductsSection}
      ensures products == old(products) && categories == old(categories) && cart == old(cart)
      ensures currentPage == old(currentPage)
    {
      if products == [] {
        view := NothingLoaded(NoProductsMessage);
        return;
      }
      visible := visible - {CategoriesSection, ProductsSection, DetailsSection} + {AllProductsSection};
      currentCategory := None;
      currentProduct := None;
      view := AllProducts(products);
    }

    /** Moves to a page, whatever its number. */
    method ChangePage(page: int) returns (view: ProductsView)
      modifies this
      ensures currentPage == page
      ensures products == old(products) && categories == old(categories) && cart == old(cart)
      ensures currentCategory == old(currentCategory) && currentProduct == old(currentProduct)
      ensures visible == old(visible)
      ensures view == RenderProducts(products, currentCategory, page)
    {
      currentPage := page;
      view := RenderProducts(products, currentCategory, currentPage);
    }

    method ShowProductDetails(product: Product)
      modifies this
      ensures currentProduct == Some(product)
      ensures products == old(products) && categories == old(categories) && cart == old(cart)
      ensures currentCategory == old(currentCategory) && currentPage == old(currentPage)
      ensures visible == old(visible) - {ProductsSection, AllProductsSection} + {DetailsSection}
    {
      currentProduct := Some(product);
      visible := visible - {ProductsSection, AllProductsSection} + {DetailsSection};
    }

    /** The "back to products" button: the current category at its first page
        when one is set (a non-empty id), the whole catalog otherwise. */
    method Back() returns (back: BackView)
      modifies this
      ensures old(currentCategory).Some? && old(currentCategory).value != "" ==>
                back.CategoryPage? && currentCategory == old(currentCategory) && currentPage == 1 &&
                currentProduct == old(currentProduct) &&
                visible == old(visible) - {CategoriesSection, DetailsSection} + {ProductsSection} &&
                back.title == CategoryTitle(categories, old(currentCategory).value) &&
                back.view == RenderProducts(products, currentCategory, 1)
      ensures !(old(currentCategory).Some? && old(currentCategory).value != "") ==>
                back.AllProductsPage? && currentPage == old(currentPage) &&
                back.all == (if old(products) == [] then NothingLoaded(NoProductsMessage) else AllProducts(products)) &&
                (old(products) == [] ==>
                   currentCategory == old(currentCategory) && currentProduct == old(currentProduct) &&
                   visible == old(visible)) &&
                (old(products) != [] ==>
                   currentCategory == None && currentProduct == None &&
                   visible == old(visible) - {CategoriesSection, ProductsSection, DetailsSection} + {AllProductsSection})
      ensures products == old(products) && categories == old(categories) && cart == old(cart)
    {
      if currentCategory.Some? && currentCategory.value != "" {
        var title, view := ShowProducts(currentCategory.value);
        back := CategoryPage(title, view);
      } else {
        var view := ShowAllProducts();
        back := AllProductsPage(view);
      }
    }

    /** Applies the two catalog responses, then reloads the cart. Both lists are
        always taken over, a missing one as `[]`; the category cards are drawn
        only when both arrived non-empty; a missing product list shows the
        server's error or a waiting message. */
    method LoadData(productsResponse: Fetched<Product>, categoriesResponse: Fetched<Category>,
                    user: UserId, cartResponse: Fetched<CartItem>)
      returns (shown: LoadView, cartRequested: bool, cartShown: Option<CartSummary>)
      modifies this
      ensures products == ListOrEmpty(productsResponse.items) && categories == ListOrEmpty(categoriesResponse.items)
      ensures currentCategory == old(currentCategory)
      ensures currentProduct == old(currentProduct) && currentPage == old(currentPage) && visible == old(visible)
      ensures shown.CatalogLoaded? <==> productsResponse.success && products != []
      ensures shown.CatalogLoaded? ==>
                (shown.cards.Some? <==> categoriesResponse.success && categories != []) &&
                (shown.cards.Some? ==> shown.cards.value == CategoryCards(categories))
      ensures shown.CatalogMissing? ==>
                shown.message == if productsResponse.error != "" then productsResponse.error else CatalogPendingMessage
      ensures cartRequested <==> UserIdTruthy(user)
      ensures cart == if cartRequested && cartResponse.success then cartResponse.items else old(cart)
      ensures cartShown.Some? <==> cartRequested && cartResponse.success && cartResponse.items.Some?
      ensures cartShown.Some? ==> cartShown.value == Summary(cart.value)
    {
      products := ListOrEmpty(productsResponse.items);
      categories := ListOrEmpty(categoriesResponse.items);
      if productsResponse.success && |products| > 0 {
        if categoriesResponse.success && |categories| > 0 {
          shown := CatalogLoaded(Some(CategoryCards(categories)));
        } else {
          shown := CatalogLoaded(None);
        }
      } else {
        var message := if productsResponse.error != "" then productsResponse.error else CatalogPendingMessage;
        shown := CatalogMissing(message);
      }
      cartRequested, cartShown := LoadCart(user, cartResponse);
    }

    /** Reloads the cart: no request without a truthy user id; a successful
        response is taken over even when it lacks the list, and the panel is then
        not drawn because reading the missing list raises. */
    method LoadCart(user: UserId, response: Fetched<CartItem>) returns (requested: bool, shown: Option<CartSummary>)
      modifies this
      ensures requested <==> UserIdTruthy(user)
      ensures cart == if requested && response.success then response.items else old(cart)
      ensures shown.Some? <==> requested && response.success && response.items.Some?
      ensures shown.Some? ==> shown.value == Summary(cart.value)
      ensures products == old(products) && categories == old(categories)
      ensures currentCategory == old(currentCategory) && currentProduct == old(currentProduct)
      ensures currentPage == old(currentPage) && visible == old(visible)
    {
      requested := UserIdTruthy(user);
      shown := None;
      if requested && response.success {
        cart := response.items;
        shown := RenderCart();
      }
    }

    /** Computes the cart panel by one pass over the cart; `None` when the cart
        is undefined and reading its length raises. */
    method RenderCart() returns (summary: Option<CartSummary>)
      ensures summary.Some? <==> cart.Some?
      ensures summary.Some? ==> summary.value == Summary(cart.value)
      ensures summary.Some? && summary.value.CartPanel? ==>
                summary.value.itemsCount == CartCount(cart.value) && summary.value.total == CartTotal(cart.value) &&
                |summary.value.lines| == |cart.value| &&
                forall i :: 0 <= i < |cart.value| ==> summary.value.lines[i] == LineOf(cart.value[i])
    {
      if cart.None? {
        return None;
      }
      var items := cart.value;
      if items == [] {
        return Some(CartEmpty);
      }
      var total := 0;
      var itemsCount := 0;
      var lines: seq<CartLine> := [];
      var i := 0;
      while i < |items|
        invariant 0 <= i <= |items|
        invariant total == CartTotal(items[..i]) && itemsCount == CartCount(items[..i])
        invariant |lines| == i && forall j :: 0 <= j < i ==> lines[j] == LineOf(items[j])
      {
        assert items[..i + 1][..i] == items[..i];
        total := total + ShownSubtotal(items[i]);
        itemsCount := itemsCount + items[i].quantity;
        lines := lines + [LineOf(items[i])];
        i := i + 1;
      }
      assert items[..|items|] == items;
      summary := Some(CartPanel(lines, itemsCount, total));
      assert lines == Lines(items);
    }

    /** The search box: nothing is sent for a blank query; a successful answer
        forgets the category and switches to the list section before reading
        the results, so an answer without them ends in an error notice carrying
        `undefinedMessage`, the runtime's message for reading a property of
        `undefined`. */
    method Search(input: string, response: Fetched<Product>, undefinedMessage: string)
      returns (sent: Option<string>, outcome: SearchOutcome)
      modifies this
      ensures sent == if Strip(input) == "" then None else Some(Strip(input))
      ensures sent.None? ==> outcome == QueryRequired
      ensures sent.Some? && response.success ==>
                currentCategory == None &&
                visible == old(visible) - {CategoriesSection, ProductsSection} + {AllProductsSection}
      ensures sent.Some? && response.success && response.items.Some? ==> outcome == SearchResults(response.items.value)
      ensures sent.Some? && response.success && response.items.None? ==>
                outcome == SearchFailed("Ошибка поиска: " + undefinedMessage)
      ensures sent.Some? && !response.success ==>
                outcome == SearchFailed("Ошибка поиска: " +
                                        (if response.error != "" then response.error else "Неизвестная ошибка"))
      ensures !(sent.Some? && response.success) ==> currentCategory == old(currentCategory) && visible == old(visible)
      ensures products == old(products) && categories == old(categories) && cart == old(cart)
      ensures currentProduct == old(currentProduct) && currentPage == old(currentPage)
    {
      var query := Strip(input);
      if query == "" {
        return None, QueryRequired;
      }
      sent := Some(query);
      if response.success {
        currentCategory := None;
        visible := visible - {CategoriesSection, ProductsSection} + {AllProductsSection};
        if response.items.Some? {
          outcome := SearchResults(response.items.value);
        } else {
          outcome := SearchFailed("Ошибка поиска: " + undefinedMessage);
        }
      } else {
        outcome := SearchFailed("Ошибка поиска: " +
                                (if response.error != "" then response.error else "Неизвестная ошибка"));
      }
    }
  }

  function Lines(cart: seq<CartItem>): (lines: seq<CartLine>)
    ensures |lines| == |cart|
  {
    seq(|cart|, i requires 0 <= i < |cart| => LineOf(cart[i]))
  }

  /** The cart panel as a function of the cart: empty, or one line per item with
      the item count shown in the badge and the sum of the server's subtotals. */
  function Summary(cart: seq<CartItem>): CartSummary {
    if cart == [] then CartEmpty else CartPanel(Lines(cart), CartCount(cart), CartTotal(cart))
  }

  /** Opening a category, paging on and opening a product, then "back", returns
      to the same category at its first page: the page reached is not kept. */
  method BackFromDetailsRestartsCategory(s: AppState, categoryId: string, page: int, product: Product)
    requires categoryId != ""
    modifies s
    ensures s.currentCategory == Some(categoryId) && s.currentPage == 1
    ensures ProductsSection in s.visible && DetailsSection !in s.visible && CategoriesSection !in s.visible
    ensures s.products == old(s.products) && s.categories == old(s.categories) && s.cart == old(s.cart)
  {
    var _, _ := s.ShowProducts(categoryId);
    var _ := s.ChangePage(page);
    s.ShowProductDetails(product);
    var _ := s.Back();
  }
}
