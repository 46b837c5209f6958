/**
  The product-listing endpoint: the rows the database query returns (active products ordered
  by name, each with its prices) are turned into the public product list, whose prices are
  the active ones ordered by amount. The query itself is an input.
 */
module Products {
  import opened Wrappers
  import opened Js
  import K = ErrorKinds
  import R = Responses

  /** A row of the prices table. `active` is whatever the column holds and is tested for
      truthiness; `unitAmount` is compared numerically. */
  datatype PriceRow = PriceRow(
    id: Json, currency: Json, unitAmount: int, recurringInterval: Json, active: Json,
    metadata: Json, createdAt: Json, updatedAt: Json, deletedAt: Json,
    productId: Json, stripePriceId: Json)

  /** A row of the products table with its joined prices; `prices` is `None` when the join
      gave no array, so that `.filter` throws. */
  datatype ProductRow = ProductRow(
    id: Json, name: Json, description: Json, metadata: Json, active: Json,
    prices: Option<seq<PriceRow>>, createdAt: Json, updatedAt: Json, deletedAt: Json,
    stripeProductId: Json)

  /** What the query gave: its `error` (`JNull` when there is none) and its `data` (`None`
      when it is null). */
  datatype QueryResult = QueryResult(error: Json, rows: Option<seq<ProductRow>>)

  const FetchErrorMessage: string := "Error fetching products"

  // ---------------------------------------------------------------------------------------
  // filter, then a stable sort by amount

  /** `prices.filter((price) => price.active)` */
  function Active(prices: seq<PriceRow>): (r: seq<PriceRow>)
    ensures |r| <= |prices|
    ensures forall p :: p in r ==> p in prices && Truthy(p.active)
    ensures forall p :: multiset(r)[p] == if Truthy(p.active) then multiset(prices)[p] else 0
  {
    if prices == [] then []
    else
      var init := prices[..|prices| - 1];
      var last := prices[|prices| - 1];
      assert prices == init + [last];
      Active(init) + (if Truthy(last.active) then [last] else [])
  }

  /** A price row is kept exactly when it is active. */
  lemma {:induction false} ActiveExactly(prices: seq<PriceRow>, p: PriceRow)
    ensures p in Active(prices) <==> p in prices && Truthy(p.active)
  {
    if prices != [] {
      var init := prices[..|prices| - 1];
      ActiveExactly(init, p);
      assert prices == init + [prices[|prices| - 1]];
    }
  }

  predicate SortedByAmount(s: seq<PriceRow>)
  {
    forall i, j :: 0 <= i < j < |s| ==> s[i].unitAmount <= s[j].unitAmount
  }

  /** Inserts `x` after every element whose amount does not exceed it: the step of a stable
      insertion sort. */
  function Insert(t: seq<PriceRow>, x: PriceRow): (r: seq<PriceRow>)
    ensures |r| == |t| + 1
    ensures multiset(r) == multiset(t) + multiset{x}
  {
    if t == [] || t[|t| - 1].unitAmount <= x.unitAmount then t + [x]
    else
      var init := t[..|t| - 1];
      assert t == init + [t[|t| - 1]];
      Insert(init, x) + [t[|t| - 1]]
  }

  /** `.sort((a, b) => a.unit_amount - b.unit_amount)`, which is stable. */
  function SortByAmount(s: seq<PriceRow>): (r: seq<PriceRow>)
    ensures multiset(r) == multiset(s)
  {
    if s == [] then []
    else
      var init := s[..|s| - 1];
      assert s == init + [s[|s| - 1]];
      Insert(SortByAmount(init), s[|s| - 1])
  }

  /** The elements with a given amount, in order. */
  function WithAmount(s: seq<PriceRow>, amount: int): seq<PriceRow>
  {
    if s == [] then []
    else
      var last := s[|s| - 1];
      WithAmount(s[..|s| - 1], amount) + (if last.unitAmount == amount then [last] else [])
  }

  lemma {:induction false} WithAmountSnoc(s: seq<PriceRow>, x: PriceRow, amount: int)
    ensures WithAmount(s + [x], amount) == WithAmount(s, amount) + (if x.unitAmount == amount then [x] else [])
  {
    assert (s + [x])[..|s|] == s;
  }

  lemma {:induction false} InsertSorted(t: seq<PriceRow>, x: PriceRow)
    requires SortedByAmount(t)
    ensures SortedByAmount(Insert(t, x))
    ensures Insert(t, x) != [] && Insert(t, x)[|t|].unitAmount >= x.unitAmount
    decreases |t|
  {
    if !(t == [] || t[|t| - 1].unitAmount <= x.unitAmount) {
      var init := t[..|t| - 1];
      var last := t[|t| - 1];
      InsertSorted(init, x);
      assert forall i :: 0 <= i < |init| ==> init[i] == t[i];
      InsertBounded(init, x, last.unitAmount);
    }
  }

  /** Inserting keeps every amount under a bound that `t` and `x` respect. */
  lemma {:induction false} InsertBounded(t: seq<PriceRow>, x: PriceRow, bound: int)
    requires forall i :: 0 <= i < |t| ==> t[i].unitAmount <= bound
    requires x.unitAmount <= bound
    ensures forall i :: 0 <= i < |Insert(t, x)| ==> Insert(t, x)[i].unitAmount <= bound
    decreases |t|
  {
    if !(t == [] || t[|t| - 1].unitAmount <= x.unitAmount) {
      var init := t[..|t| - 1];
      InsertBounded(init, x, bound);
    }
  }

  /** Inserting adds `x` at the end of its amount's group. */
  lemma {:induction false} InsertWithAmount(t: seq<PriceRow>, x: PriceRow, amount: int)
    ensures WithAmount(Insert(t, x), amount) == WithAmount(t, amount) + (if x.unitAmount == amount then [x] else [])
    decreases |t|
  {
    if t == [] || t[|t| - 1].unitAmount <= x.unitAmount {
      WithAmountSnoc(t, x, amount);
    } else {
      var init := t[..|t| - 1];
      var last := t[|t| - 1];
      assert t == init + [last];
      InsertWithAmount(init, x, amount);
      WithAmountSnoc(Insert(init, x), last, amount);
      WithAmountSnoc(init, last, amount);
    }
  }

  /** The sort orders by amount and is a permutation. */
  lemma {:induction false} SortByAmountSorted(s: seq<PriceRow>)
    ensures SortedByAmount(SortByAmount(s))
  {
    if s != [] {
      SortByAmountSorted(s[..|s| - 1]);
      InsertSorted(SortByAmount(s[..|s| - 1]), s[|s| - 1]);
    }
  }

  /** The sort is stable: prices of equal amount keep their input order. */
  lemma {:induction false} SortByAmountStable(s: seq<PriceRow>, amount: int)
    ensures WithAmount(SortByAmount(s), amount) == WithAmount(s, amount)
  {
    if s != [] {
      var init := s[..|s| - 1];
      SortByAmountStable(init, amount);
      InsertWithAmount(SortByAmount(init), s[|s| - 1], amount);
    }
  }

  // ---------------------------------------------------------------------------------------
  // projection and the reply

  /** The columns a listed price keeps. */
  const PriceKeys: set<string> := {"id", "currency", "unit_amount", "recurring_interval", "active", "metadata",
                                   "created_at", "updated_at", "deleted_at"}

  /** The columns a listed product keeps, with `prices` replaced by the listed prices. */
  const ProductKeys: set<string> := {"id", "name", "description", "metadata", "active", "prices",
                                     "created_at", "updated_at", "deleted_at"}

  /** The object has `key`, holding `v`. */
  predicate Holds(fields: map<string, Json>, key: string, v: Json)
  {
    key in fields && fields[key] == v
  }

  /** The price as listed: every column but `product_id` and `stripe_price_id`. */
  function PriceJson(p: PriceRow): (j: Json)
    ensures j.JObj? && j.fields.Keys == PriceKeys
    ensures "product_id" !in j.fields && "stripe_price_id" !in j.fields
    ensures Holds(j.fields, "id", p.id) && Holds(j.fields, "currency", p.currency)
    ensures Holds(j.fields, "unit_amount", JNum(p.unitAmount)) && Holds(j.fields, "recurring_interval", p.recurringInterval)
    ensures Holds(j.fields, "active", p.active) && Holds(j.fields, "metadata", p.metadata)
    ensures Holds(j.fields, "created_at", p.createdAt) && Holds(j.fields, "updated_at", p.updatedAt)
    ensures Holds(j.fields, "deleted_at", p.deletedAt)
  {
    JObj(map[
      "id" := p.id,
      "currency" := p.currency,
      "unit_amount" := JNum(p.unitAmount),
      "recurring_interval" := p.recurringInterval,
      "active" := p.active,
      "metadata" := p.metadata,
      "created_at" := p.createdAt,
      "updated_at" := p.updatedAt,
      "deleted_at" := p.deletedAt])
  }

  /** The listed prices of one product: active ones, by amount. */
  function ListedPrices(prices: seq<PriceRow>): seq<PriceRow>
  {
    SortByAmount(Active(prices))
  }

  /** The product's columns as listed, with `prices` standing for the listed prices. */
  function ProductFields(p: ProductRow, prices: Json): (fields: map<string, Json>)
    ensures fields.Keys == ProductKeys && "stripe_product_id" !in fields
    ensures Holds(fields, "id", p.id) && Holds(fields, "name", p.name)
    ensures Holds(fields, "description", p.description) && Holds(fields, "metadata", p.metadata)
    ensures Holds(fields, "active", p.active) && Holds(fields, "prices", prices)
    ensures Holds(fields, "created_at", p.createdAt) && Holds(fields, "updated_at", p.updatedAt)
    ensures Holds(fields, "deleted_at", p.deletedAt)
  {
    map[
      "id" := p.id,
      "name" := p.name,
      "description" := p.description,
      "metadata" := p.metadata,
      "active" := p.active,
      "prices" := prices,
      "created_at" := p.createdAt,
      "updated_at" := p.updatedAt,
      "deleted_at" := p.deletedAt]
  }

  /** The product as listed, or `None` when its prices are not an array (the call throws). */
  function ProductJson(p: ProductRow): (j: Option<Json>)
    ensures j.Some? <==> p.prices.Some?
    ensures j.Some? ==> j.value.JObj? && j.value.fields.Keys == ProductKeys && "stripe_product_id" !in j.value.fields
    ensures j.Some? ==>
      && Holds(j.value.fields, "id", p.id) && Holds(j.value.fields, "name", p.name)
      && Holds(j.value.fields, "description", p.description) && Holds(j.value.fields, "metadata", p.metadata)
      && Holds(j.value.fields, "active", p.active) && Holds(j.value.fields, "created_at", p.createdAt)
      && Holds(j.value.fields, "updated_at", p.updatedAt) && Holds(j.value.fields, "deleted_at", p.deletedAt)
    ensures j.Some? ==>
      var listed := ListedPrices(p.prices.value);
      && "prices" in j.value.fields && j.value.fields["prices"].JArr?
      && |j.value.fields["prices"].items| == |listed|
      && forall i :: 0 <= i < |listed| ==> j.value.fields["prices"].items[i] == PriceJson(listed[i])
  {
    if p.prices.None? then None
    else
      var listed := ListedPrices(p.prices.value);
      Some(JObj(ProductFields(p, JArr(seq(|listed|, i requires 0 <= i < |listed| => PriceJson(listed[i]))))))
  }

  /** `xs.map(f)` where `f` may throw (`None`): every result in order, or `None` if any throws. */
  function MapOrThrow<A, B>(f: A -> Option<B>, xs: seq<A>): (r: Option<seq<B>>)
    ensures r.Some? <==> forall i :: 0 <= i < |xs| ==> f(xs[i]).Some?
    ensures r.Some? ==> |r.value| == |xs|
    ensures r.Some? ==> forall i :: 0 <= i < |xs| ==> Some(r.value[i]) == f(xs[i])
  {
    if xs == [] then Some([])
    else
      var front := xs[..|xs| - 1];
      var init := MapOrThrow(f, front);
      var last := f(xs[|xs| - 1]);
      assert forall i :: 0 <= i < |front| ==> front[i] == xs[i];
      if init.None? || last.None? then None else Some(init.value + [last.value])
  }

  /** `products.map(...)`: one listed product per row, in row order; `None` if any throws. */
  function FormatProducts(rows: seq<ProductRow>): (r: Option<seq<Json>>)
    ensures r.Some? <==> forall i :: 0 <= i < |rows| ==> rows[i].prices.Some?
    ensures r.Some? ==> |r.value| == |rows|
    ensures r.Some? ==> forall i :: 0 <= i < |rows| ==> Some(r.value[i]) == ProductJson(rows[i])
  {
    MapOrThrow(ProductJson, rows)
  }

  /** `apiError('INTERNAL_SERVER_ERROR', 'Error fetching products')` */
  function FetchFailure(generatedTraceId: string): R.Reply
  {
    R.ApiError(K.InternalServerError, Some(FetchErrorMessage), None, None, generatedTraceId)
  }

  /** The listing fails when the query reports an error, returns no data, or some product's
      prices are not an array. */
  predicate Fails(query: QueryResult)
  {
    Truthy(query.error) || query.rows.None?
    || exists i :: 0 <= i < |query.rows.value| && query.rows.value[i].prices.None?
  }

  /** `GET()`, with the query result as input; `generatedTraceId` is the fresh trace id an
      error reply gets. */
  function ListProducts(query: QueryResult, generatedTraceId: string): (r: R.Reply)
    ensures r.status == 200 || r == FetchFailure(generatedTraceId)
    ensures r == FetchFailure(generatedTraceId) <==> Fails(query)
    ensures !Fails(query) ==> r == R.ApiResponse(JArr(FormatProducts(query.rows.value).value), None)
  {
    if Truthy(query.error) then FetchFailure(generatedTraceId)
    else if query.rows.None? then
      // no error and no data: `products.map` throws
      FetchFailure(generatedTraceId)
    else
      match FormatProducts(query.rows.value)
      case None => FetchFailure(generatedTraceId)
      case Some(list) => R.ApiResponse(JArr(list), None)
  }

  // ---------------------------------------------------------------------------------------
  // properties of the listing

  /** Each listed product's prices are exactly its active prices, each as often as in the
      input, ordered by amount, with equal amounts in input order. */
  lemma ListedPricesSpec(prices: seq<PriceRow>, amount: int, p: PriceRow)
    ensures multiset(ListedPrices(prices)) == multiset(Active(prices))
    ensures SortedByAmount(ListedPrices(prices))
    ensures WithAmount(ListedPrices(prices), amount) == WithAmount(Active(prices), amount)
    ensures p in ListedPrices(prices) <==> p in prices && Truthy(p.active)
  {
    SortByAmountSorted(Active(prices));
    SortByAmountStable(Active(prices), amount);
    ActiveExactly(prices, p);
    assert p in ListedPrices(prices) <==> p in multiset(ListedPrices(prices));
  }

  /** Every failure, a query error or a throw while formatting, gives the same 500
      INTERNAL_SERVER_ERROR reply, and only a failure gives it. */
  lemma FailureReply(query: QueryResult, generatedTraceId: string)
    ensures var r := ListProducts(query, generatedTraceId);
      && (Fails(query) <==> r.status == 500)
      && (Fails(query) <==> r.status != 200)
      && (Fails(query) ==>
            && r.envelope.Failure?
            && r.envelope.error.kind == K.InternalServerError
            && r.envelope.error.message == FetchErrorMessage
            && r.envelope.error.traceId == generatedTraceId)
  {
    assert K.StatusCode(K.InternalServerError) == 500;
  }

  /** A query without error (any falsy `error`) whose data has a price array for every
      product succeeds with one listed product per row, in row order. */
  lemma SuccessReply(error: Json, rows: seq<ProductRow>, generatedTraceId: string)
    requires !Truthy(error)
    requires forall i :: 0 <= i < |rows| ==> rows[i].prices.Some?
    ensures var r := ListProducts(QueryResult(error, Some(rows)), generatedTraceId);
      && r.status == 200
      && r.envelope.Success?
      && r.envelope.data.JArr?
      && |r.envelope.data.items| == |rows|
      && forall i :: 0 <= i < |rows| ==> Some(r.envelope.data.items[i]) == ProductJson(rows[i])
  {
  }
}
