/** The search handler `search_products_api`: the stripped query, lower-cased,
    looked up in the lower-cased name and description of every cached product. */
module SearchApi {
  import opened Common
  import opened JsonValues
  import opened ResponseDecoding
  import opened PyValues

  /** `product.get(key, "").lower()`: the entry must be a dict and the field, when
      present, a string. */
  function LoweredField(product: Json, key: string): (r: Outcome<string>)
    ensures product.JObj? && key !in product.fields ==> r == Ok("")
    ensures product.JObj? && key in product.fields && product.fields[key].JStr? ==>
              r == Ok(Lower(product.fields[key].s))
  {
    match product
    case JObj(fields) =>
      (match GetOr(fields, key, JStr(""))
       case JStr(s) => Ok(Lower(s))
       case other => Raise(NoAttribute(TypeName(other), "lower")))
    case _ => Raise(NoAttribute(TypeName(product), "get"))
  }

  /** Whether one product matches, after both fields were read. */
  function ProductMatch(product: Json, queryLower: string): Outcome<bool> {
    match LoweredField(product, "name")
    case Raise(f) => Raise(f)
    case Ok(name) =>
      match LoweredField(product, "description")
      case Raise(f) => Raise(f)
      case Ok(description) => Ok(Contains(name, queryLower) || Contains(description, queryLower))
  }

  /** The filter, product by product; the first entry that raises ends it. */
  function Matching(products: seq<Json>, queryLower: string): Outcome<seq<Json>> {
    if products == [] then Ok([])
    else
      match Matching(products[..|products| - 1], queryLower)
      case Raise(f) => Raise(f)
      case Ok(matched) =>
        var p := products[|products| - 1];
        match ProductMatch(p, queryLower)
        case Raise(f) => Raise(f)
        case Ok(hit) => Ok(if hit then matched + [p] else matched)
  }

  /** The matching loop with its `matched.append(product)`. */
  method MatchProducts(products: seq<Json>, queryLower: string) returns (r: Outcome<seq<Json>>)
    ensures r == Matching(products, queryLower)
  {
    var matched: seq<Json> := [];
    var i := 0;
    while i < |products|
      invariant 0 <= i <= |products|
      invariant Matching(products[..i], queryLower) == Ok(matched)
    {
      assert products[..i + 1][..i] == products[..i];
      var product := products[i];
      var name := LoweredField(product, "name");
      if name.Raise? {
        MatchingStopsAtFault(products, i + 1, queryLower);
        assert products[..|products|] == products;
        return Raise(name.fault);
      }
      var description := LoweredField(product, "description");
      if description.Raise? {
        MatchingStopsAtFault(products, i + 1, queryLower);
        assert products[..|products|] == products;
        return Raise(description.fault);
      }
      if Contains(name.value, queryLower) || Contains(description.value, queryLower) {
        matched := matched + [product];
      }
      i := i + 1;
    }
    assert products[..|products|] == products;
    r := Ok(matched);
  }

  /** Once a prefix raises, the whole filter raises the same fault. */
  lemma {:induction false} MatchingStopsAtFault(products: seq<Json>, n: nat, queryLower: string)
    requires n <= |products| && Matching(products[..n], queryLower).Raise?
    ensures Matching(products, queryLower) == Matching(products[..n], queryLower)
    decreases |products| - n
  {
    if n < |products| {
      var m := n + 1;
      assert products[..m][..n] == products[..n];
      MatchingStopsAtFault(products, m, queryLower);
    } else {
      assert products[..n] == products;
    }
  }

  /** The search finds exactly the products whose lower-cased name or
      description contains the lower-cased query, keeping catalog order. */
  lemma {:induction false} MatchingIsFilter(products: seq<Json>, queryLower: string)
    requires Matching(products, queryLower).Ok?
    ensures var matched := Matching(products, queryLower).value;
            |matched| <= |products| &&
            (forall p :: p in matched ==> p in products && ProductMatch(p, queryLower) == Ok(true)) &&
            (forall p :: p in products ==> ProductMatch(p, queryLower).Ok?) &&
            (forall p :: p in products && ProductMatch(p, queryLower) == Ok(true) ==> p in matched)
    decreases |products|
  {
    if products != [] {
      var init := products[..|products| - 1];
      MatchingIsFilter(init, queryLower);
      assert products == init + [products[|products| - 1]];
    }
  }

  /** Filtering a catalog split in two filters each part: matches keep their
      catalog order. */
  lemma {:induction false} MatchingAppend(a: seq<Json>, b: seq<Json>, queryLower: string)
    requires Matching(a + b, queryLower).Ok?
    ensures Matching(a, queryLower).Ok? && Matching(b, queryLower).Ok?
    ensures Matching(a + b, queryLower).value == Matching(a, queryLower).value + Matching(b, queryLower).value
    decreases |b|
  {
    if b == [] {
      assert a + b == a;
    } else {
      var bi := b[..|b| - 1];
      assert (a + b)[..|a + b| - 1] == a + bi;
      assert (a + b)[|a + b| - 1] == b[|b| - 1];
      MatchingAppend(a, bi, queryLower);
      var mb := Matching(bi, queryLower).value;
      assert Matching(a, queryLower).value + (mb + [b[|b| - 1]]) == (Matching(a, queryLower).value + mb) + [b[|b| - 1]];
    }
  }

  /** A product whose name contains the query verbatim is found, whatever the
      case of the query. */
  lemma VerbatimNameFound(product: Json, query: string)
    requires product.JObj? && "name" in product.fields && product.fields["name"].JStr?
    requires Contains(product.fields["name"].s, query)
    requires LoweredField(product, "description").Ok?
    ensures ProductMatch(product, Lower(query)) == Ok(true)
  {
    LowerKeepsOccurrence(product.fields["name"].s, query);
  }

  const QueryRequired: string := "Query required"
  const NoCatalog: string := "Products not found"

  /** `search_products_api`: `q` from the query string, the cached catalog. */
  method SearchProducts(queryParam: Option<string>, cache: Option<seq<Json>>) returns (reply: Reply)
    ensures var query := Strip(if queryParam.Some? then queryParam.value else "");
            if query == "" then reply == Refused(400, QueryRequired)
            else if cache.None? then reply == Refused(404, NoCatalog)
            else match Matching(cache.value, Lower(query))
              case Raise(f) => reply == Crash(f)
              case Ok(matched) =>
                reply == Success(map["products" := JArr(matched), "count" := JNum(|matched|)])
  {
    var query := Strip(if queryParam.Some? then queryParam.value else "");
    if query == "" {
      return Refused(400, QueryRequired);
    }
    if cache.None? {
      return Refused(404, NoCatalog);
    }
    var matched := MatchProducts(cache.value, Lower(query));
    if matched.Raise? {
      return Crash(matched.fault);
    }
    reply := Success(map["products" := JArr(matched.value), "count" := JNum(|matched.value|)]);
  }
}
