/** The REST clients of frontend/src/services: the paths they call and the
    query strings `getAll` assembles. The HTTP calls themselves are left to
    the caller; each operation is reduced to the request it makes. */
module Services {
  import opened Common
  import opened Query

  datatype Verb = Get | Post | Put | Delete

  datatype Request = Request(verb: Verb, path: string)

  /** `if (value !== undefined) append(name, value.toString())` */
  function IfDefined(name: string, value: Option<int>): (ps: seq<QueryParam>)
    ensures ps != [] <==> value.Some?
    ensures ps != [] ==> ps == [QueryParam(name, IntToString(value.value))]
  {
    if value.Some? then [QueryParam(name, IntToString(value.value))] else []
  }

  /** `if (value) append(name, value.toString())` for a number: 0 is falsy. */
  function IfTruthyNumber(name: string, value: Option<int>): (ps: seq<QueryParam>)
    ensures ps != [] <==> value.Some? && value.value != 0
    ensures ps != [] ==> ps == [QueryParam(name, IntToString(value.value))]
  {
    if value.Some? && value.value != 0 then [QueryParam(name, IntToString(value.value))] else []
  }

  /** `if (value) append(name, value)` for a string: '' is falsy. */
  function IfTruthyText(name: string, value: Option<string>): (ps: seq<QueryParam>)
    ensures ps != [] <==> value.Some? && value.value != ""
    ensures ps != [] ==> ps == [QueryParam(name, value.value)]
  {
    if value.Some? && value.value != "" then [QueryParam(name, value.value)] else []
  }

  // ---------------------------------------------------------------------
  // productService
  // ---------------------------------------------------------------------

  /** At most the four parameters; page, when given, comes first; no
      parameter is sent exactly when page is missing and the rest are falsy. */
  function ProductQuery(page: Option<int>, size: Option<int>, name: Option<string>, sort: Option<string>): (r: seq<QueryParam>)
    ensures |r| <= 4
    ensures page.Some? ==> |r| > 0 && r[0] == QueryParam("page", IntToString(page.value))
    ensures r == [] <==> page.None? && (size.None? || size.value == 0) && (name.None? || name.value == "")
                         && (sort.None? || sort.value == "")
  {
    IfDefined("page", page) + IfTruthyNumber("size", size) + IfTruthyText("name", name) + IfTruthyText("sort", sort)
  }

  /** productService.getAll: the query is built by conditional appends. */
  method ProductGetAll(page: Option<int>, size: Option<int>, name: Option<string>, sort: Option<string>)
    returns (request: Request)
    ensures request == Request(Get, "/products?" + Serialize(ProductQuery(page, size, name, sort)))
  {
    var searchParams := new SearchParams();
    if page.Some? {
      searchParams.Append("page", IntToString(page.value));
    }
    assert searchParams.pairs == IfDefined("page", page);
    if size.Some? && size.value != 0 {
      searchParams.Append("size", IntToString(size.value));
    }
    assert searchParams.pairs == IfDefined("page", page) + IfTruthyNumber("size", size);
    if name.Some? && name.value != "" {
      searchParams.Append("name", name.value);
    }
    assert searchParams.pairs == IfDefined("page", page) + IfTruthyNumber("size", size) + IfTruthyText("name", name);
    if sort.Some? && sort.value != "" {
      searchParams.Append("sort", sort.value);
    }
    assert searchParams.pairs == ProductQuery(page, size, name, sort);
    request := Request(Get, "/products?" + searchParams.ToString());
  }

  function ProductPath(id: int): string
  {
    "/products/" + IntToString(id)
  }

  function ProductGetById(id: int): Request { Request(Get, ProductPath(id)) }
  function ProductCreate(): Request { Request(Post, "/products") }
  function ProductUpdate(id: int): Request { Request(Put, ProductPath(id)) }
  function ProductDelete(id: int): Request { Request(Delete, ProductPath(id)) }

  // ---------------------------------------------------------------------
  // userService
  // ---------------------------------------------------------------------

  function UserQuery(page: Option<int>, size: Option<int>, search: Option<string>): (r: seq<QueryParam>)
    ensures |r| <= 3
    ensures page.Some? ==> |r| > 0 && r[0] == QueryParam("page", IntToString(page.value))
    ensures r == [] <==> page.None? && (size.None? || size.value == 0) && (search.None? || search.value == "")
  {
    IfDefined("page", page) + IfTruthyNumber("size", size) + IfTruthyText("search", search)
  }

  method UserGetAll(page: Option<int>, size: Option<int>, search: Option<string>) returns (request: Request)
    ensures request == Request(Get, "/users?" + Serialize(UserQuery(page, size, search)))
  {
    var searchParams := new SearchParams();
    if page.Some? {
      searchParams.Append("page", IntToString(page.value));
    }
    assert searchParams.pairs == IfDefined("page", page);
    if size.Some? && size.value != 0 {
      searchParams.Append("size", IntToString(size.value));
    }
    assert searchParams.pairs == IfDefined("page", page) + IfTruthyNumber("size", size);
    if search.Some? && search.value != "" {
      searchParams.Append("search", search.value);
    }
    assert searchParams.pairs == UserQuery(page, size, search);
    request := Request(Get, "/users?" + searchParams.ToString());
  }

  function UserPath(id: int): string
  {
    "/users/" + IntToString(id)
  }

  function UserGetById(id: int): Request { Request(Get, UserPath(id)) }
  function UserCreate(): Request { Request(Post, "/users") }
  function UserUpdate(id: int): Request { Request(Put, UserPath(id)) }
  function UserDelete(id: int): Request { Request(Delete, UserPath(id)) }

  // ---------------------------------------------------------------------
  // orderService
  // ---------------------------------------------------------------------

  /** Unlike the other two clients, a page of 0 is falsy here and is dropped. */
  function OrderQuery(page: Option<int>, size: Option<int>, status: Option<string>): (r: seq<QueryParam>)
    ensures |r| <= 3
    ensures page == Some(0) ==> forall i :: 0 <= i < |r| ==> r[i].name != "page"
    ensures r == [] <==> (page.None? || page.value == 0) && (size.None? || size.value == 0) && (status.None? || status.value == "")
  {
    IfTruthyNumber("page", page) + IfTruthyNumber("size", size) + IfTruthyText("status", status)
  }

  method OrderGetAll(page: Option<int>, size: Option<int>, status: Option<string>) returns (request: Request)
    ensures request == Request(Get, "/orders?" + Serialize(OrderQuery(page, size, status)))
  {
    var searchParams := new SearchParams();
    if page.Some? && page.value != 0 {
      searchParams.Append("page", IntToString(page.value));
    }
    assert searchParams.pairs == IfTruthyNumber("page", page);
    if size.Some? && size.value != 0 {
      searchParams.Append("size", IntToString(size.value));
    }
    assert searchParams.pairs == IfTruthyNumber("page", page) + IfTruthyNumber("size", size);
    if status.Some? && status.value != "" {
      searchParams.Append("status", status.value);
    }
    assert searchParams.pairs == OrderQuery(page, size, status);
    request := Request(Get, "/orders?" + searchParams.ToString());
  }

  function OrderGetById(id: int): Request { Request(Get, "/orders/" + IntToString(id)) }
  function OrderCreate(): Request { Request(Post, "/orders") }
  function OrderGetMine(): Request { Request(Get, "/orders/my-orders") }

  // ---------------------------------------------------------------------
  // Properties
  // ---------------------------------------------------------------------

  /** Position of a parameter name in a fixed order (|order| when absent). */
  function RankIn(order: seq<string>, name: string): nat
  {
    if order == [] then 0
    else if order[0] == name then 0
    else 1 + RankIn(order[1..], name)
  }

  /** The names occur in the given order, each at most once. */
  predicate InOrder(pairs: seq<QueryParam>, order: seq<string>)
  {
    forall i, j :: 0 <= i < j < |pairs| ==> RankIn(order, pairs[i].name) < RankIn(order, pairs[j].name)
  }

  /** Every name in `pairs` ranks below `bound`. */
  predicate RanksBelow(pairs: seq<QueryParam>, order: seq<string>, bound: nat)
  {
    forall i :: 0 <= i < |pairs| ==> RankIn(order, pairs[i].name) < bound
  }

  /** Appending at most one parameter whose name ranks after everything
      already present keeps the parameters in order. */
  lemma ExtendInOrder(pairs: seq<QueryParam>, piece: seq<QueryParam>, order: seq<string>, name: string)
    requires InOrder(pairs, order) && RanksBelow(pairs, order, RankIn(order, name))
    requires |piece| <= 1 && (piece != [] ==> piece[0].name == name)
    ensures InOrder(pairs + piece, order) && RanksBelow(pairs + piece, order, RankIn(order, name) + 1)
  {
    var r := pairs + piece;
    forall i, j | 0 <= i < j < |r| ensures RankIn(order, r[i].name) < RankIn(order, r[j].name) {
      if j < |pairs| {
        assert r[i] == pairs[i] && r[j] == pairs[j];
      } else {
        assert r[i] == pairs[i] && r[j] == piece[0];
      }
    }
    forall i | 0 <= i < |r| ensures RankIn(order, r[i].name) < RankIn(order, name) + 1 {
      if i < |pairs| {
        assert r[i] == pairs[i];
      } else {
        assert r[i] == piece[0];
      }
    }
  }

  lemma ProductRanks()
    ensures var order := ["page", "size", "name", "sort"];
      RankIn(order, "page") == 0 && RankIn(order, "size") == 1 && RankIn(order, "name") == 2 && RankIn(order, "sort") == 3
  {
  }

  /** Product parameters come in the order page, size, name, sort, each at most once. */
  lemma ProductQueryOrder(page: Option<int>, size: Option<int>, name: Option<string>, sort: Option<string>)
    ensures InOrder(ProductQuery(page, size, name, sort), ["page", "size", "name", "sort"])
    ensures |ProductQuery(page, size, name, sort)| <= 4
  {
    var order := ["page", "size", "name", "sort"];
    ProductRanks();
    var a, b := IfDefined("page", page), IfTruthyNumber("size", size);
    var c, d := IfTruthyText("name", name), IfTruthyText("sort", sort);
    assert [] + a == a;
    ExtendInOrder([], a, order, "page");
    ExtendInOrder(a, b, order, "size");
    ExtendInOrder(a + b, c, order, "name");
    ExtendInOrder(a + b + c, d, order, "sort");
  }

  /** User parameters come in the order page, size, search. */
  lemma UserQueryOrder(page: Option<int>, size: Option<int>, search: Option<string>)
    ensures InOrder(UserQuery(page, size, search), ["page", "size", "search"])
  {
    var order := ["page", "size", "search"];
    assert RankIn(order, "page") == 0 && RankIn(order, "size") == 1 && RankIn(order, "search") == 2;
    var a, b, c := IfDefined("page", page), IfTruthyNumber("size", size), IfTruthyText("search", search);
    assert [] + a == a;
    ExtendInOrder([], a, order, "page");
    ExtendInOrder(a, b, order, "size");
    ExtendInOrder(a + b, c, order, "search");
  }

  /** Order parameters come in the order page, size, status. */
  lemma OrderQueryOrder(page: Option<int>, size: Option<int>, status: Option<string>)
    ensures InOrder(OrderQuery(page, size, status), ["page", "size", "status"])
  {
    var order := ["page", "size", "status"];
    assert RankIn(order, "page") == 0 && RankIn(order, "size") == 1 && RankIn(order, "status") == 2;
    var a, b, c := IfTruthyNumber("page", page), IfTruthyNumber("size", size), IfTruthyText("status", status);
    assert [] + a == a;
    ExtendInOrder([], a, order, "page");
    ExtendInOrder(a, b, order, "size");
    ExtendInOrder(a + b, c, order, "status");
  }

  /** Page 0 is sent by the product and user clients but dropped by the order client. */
  lemma PageZeroDisagreement()
    ensures ProductQuery(Some(0), None, None, None) == [QueryParam("page", "0")]
    ensures UserQuery(Some(0), None, None) == [QueryParam("page", "0")]
    ensures OrderQuery(Some(0), None, None) == []
  {
    assert IntToString(0) == "0";
  }

  /** With no parameters the product request is just `/products?`. */
  lemma EmptyProductQuery()
    ensures ProductQuery(None, None, None, None) == []
    ensures Serialize(ProductQuery(None, None, None, None)) == ""
    ensures ProductQuery(None, Some(0), Some(""), Some("")) == []
  {
  }

  /** getById, update and delete of one product share its path, and distinct
      ids never share one. */
  lemma ProductPathsAgree(id: int, other: int)
    ensures ProductGetById(id).path == ProductUpdate(id).path == ProductDelete(id).path
    ensures ProductPath(id) == ProductPath(other) ==> id == other
  {
    PrefixedNumberInjective("/products/", id, other);
  }

  lemma UserPathsAgree(id: int, other: int)
    ensures UserGetById(id).path == UserUpdate(id).path == UserDelete(id).path
    ensures UserPath(id) == UserPath(other) ==> id == other
  {
    PrefixedNumberInjective("/users/", id, other);
  }

  /** The order detail path never collides with the caller's own order list. */
  lemma OrderPathsDistinct(id: int)
    ensures OrderGetById(id).path != OrderGetMine().path
  {
    var digits := IntToString(id);
    if id >= 0 {
      assert IsDigit(NatToString(id)[0]);
    } else {
      assert digits[0] == '-';
    }
    assert OrderGetById(id).path[8] == digits[0];
    assert OrderGetMine().path[8] == 'm';
  }

  lemma PrefixedNumberInjective(prefix: string, a: int, b: int)
    ensures prefix + IntToString(a) == prefix + IntToString(b) ==> a == b
  {
    if prefix + IntToString(a) == prefix + IntToString(b) {
      assert IntToString(a) == (prefix + IntToString(a))[|prefix|..];
      assert IntToString(b) == (prefix + IntToString(b))[|prefix|..];
      IntToStringInjective(a, b);
    }
  }
}
