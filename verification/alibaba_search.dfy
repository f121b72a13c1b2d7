/** The Alibaba product search (`AlibabaSearchEngine.massive_search`). The HTTP
    request is only a point of failure: its answer is never read, and the
    products are synthesised from the query and their position. */
module AlibabaSearch {
  import opened Wrappers
  import opened Text

  /** The most products one search returns. */
  const MaxProducts := 50
  const Location := "Guangdong, China"
  const AvgPriceRange := "US$ 15-75"
  const TopSuppliers := 3
  const ProductUrlPrefix := "https://alibaba.com/product/"

  /** One synthesised product. The rating `round(4.2 + i * 0.1, 1)` is kept in
      tenths, as the integer 42 + i. */
  datatype Product = Product(title: string, price: string, supplier: string, minOrder: string,
                             location: string, ratingTenths: nat, yearsExperience: nat,
                             url: string, verified: bool, tradeAssurance: bool)

  datatype MarketAnalysis = MarketAnalysis(avgPriceRange: string, topSuppliers: nat,
                                           verifiedSuppliers: nat, tradeAssuranceAvailable: nat)

  /** The result dictionary: the products and their analysis, or the error of the request. */
  datatype SearchResult =
    | Found(query: string, totalFound: nat, products: seq<Product>, marketAnalysis: MarketAnalysis)
    | SearchFailed(error: string)

  /** The product at 0-based position `i`. */
  function ProductAt(query: string, i: nat): Product {
    Product(query + " - Produto Premium " + NatToString(i + 1),
            "US$ " + NatToString(10 + i * 5) + "-" + NatToString(50 + i * 10),
            "Fornecedor Gold " + NatToString(i + 1),
            NatToString(100 + i * 50) + " pieces",
            Location,
            42 + i,
            5 + i % 10,
            ProductUrlPrefix + NatToString(i + 1),
            i % 3 == 0,
            i % 2 == 0)
  }

  /** `len(range(min(max_results, 50)))`: a negative bound gives no products. */
  function ProductCount(maxResults: int): nat {
    if maxResults <= 0 then 0 else if maxResults < MaxProducts then maxResults else MaxProducts
  }

  /** The first `n` products. */
  function Products(query: string, n: nat): seq<Product> {
    seq(n, i requires 0 <= i < n => ProductAt(query, i))
  }

  /** `len([p for p in products if p['verified']])`. */
  function CountVerified(ps: seq<Product>): nat {
    if ps == [] then 0 else CountVerified(ps[..|ps| - 1]) + (if ps[|ps| - 1].verified then 1 else 0)
  }

  /** `len([p for p in products if p['trade_assurance']])`. */
  function CountTradeAssurance(ps: seq<Product>): nat {
    if ps == [] then 0 else CountTradeAssurance(ps[..|ps| - 1]) + (if ps[|ps| - 1].tradeAssurance then 1 else 0)
  }

  /** The product loop. */
  method BuildProducts(query: string, maxResults: int) returns (products: seq<Product>)
    ensures products == Products(query, ProductCount(maxResults))
  {
    products := [];
    var limit := if maxResults < MaxProducts then maxResults else MaxProducts;
    var i := 0;
    while i < limit
      invariant 0 <= i && (limit > 0 ==> i <= limit) && (limit <= 0 ==> i == 0)
      invariant products == Products(query, i)
    {
      assert Products(query, i + 1) == Products(query, i) + [ProductAt(query, i)];
      products := products + [ProductAt(query, i)];
      i := i + 1;
    }
  }

  /** `massive_search`. `requestError` is the text of the exception the request
      raised, if it raised. */
  method MassiveSearch(query: string, maxResults: int, requestError: Option<string>)
    returns (r: SearchResult)
    ensures requestError.Some? ==> r == SearchFailed(requestError.value)
    ensures requestError.None? ==>
      && r.Found? && r.query == query
      && r.products == Products(query, ProductCount(maxResults))
      && r.totalFound == |r.products|
      && r.marketAnalysis == MarketAnalysis(AvgPriceRange, TopSuppliers,
                                            CountVerified(r.products), CountTradeAssurance(r.products))
  {
    if requestError.Some? {
      return SearchFailed(requestError.value);
    }
    var products := BuildProducts(query, maxResults);
    r := Found(query, |products|, products,
               MarketAnalysis(AvgPriceRange, TopSuppliers, CountVerified(products), CountTradeAssurance(products)));
  }

  // ---------------------------------------------------------------------------
  // properties

  /** Every third product (from the first) is verified and every second has
      trade assurance: ceil(n/3) and ceil(n/2) of the first `n`. */
  lemma {:induction false} FlagCounts(query: string, n: nat)
    ensures CountVerified(Products(query, n)) == (n + 2) / 3
    ensures CountTradeAssurance(Products(query, n)) == (n + 1) / 2
  {
    if n > 0 {
      var ps := Products(query, n);
      PrefixProducts(query, n);
      FlagCounts(query, n - 1);
      var last := ps[n - 1];
      assert last.verified == ((n - 1) % 3 == 0) && last.tradeAssurance == ((n - 1) % 2 == 0);
      CeilStep(n - 1);
    }
  }

  lemma PrefixProducts(query: string, n: nat)
    requires n > 0
    ensures Products(query, n)[..n - 1] == Products(query, n - 1)
  {
  }

  lemma CeilStep(k: nat)
    ensures (k + 2) / 3 + (if k % 3 == 0 then 1 else 0) == (k + 3) / 3
    ensures (k + 1) / 2 + (if k % 2 == 0 then 1 else 0) == (k + 2) / 2
  {
  }

  /** The fields of product `i`: its number in the title and the url is
      `i + 1`, its price range is non-empty, its experience lies in [5, 14],
      and its flags follow `i mod 3` and `i mod 2`. */
  lemma ProductFacts(query: string, n: nat, i: nat)
    requires i < n
    ensures var p := Products(query, n)[i];
      && p.title == query + " - Produto Premium " + NatToString(i + 1)
      && p.url == ProductUrlPrefix + NatToString(i + 1)
      && p.price == "US$ " + NatToString(10 + i * 5) + "-" + NatToString(50 + i * 10)
      && 10 + i * 5 < 50 + i * 10
      && 5 <= p.yearsExperience <= 14
      && (p.verified <==> i % 3 == 0)
      && (p.tradeAssurance <==> i % 2 == 0)
  {
  }

  /** No two products share a url: the number after the prefix reads back as
      the product's position plus one. */
  lemma ProductUrlsDistinct(query: string, n: nat, i: nat, j: nat)
    requires i < n && j < n && i != j
    ensures Products(query, n)[i].url != Products(query, n)[j].url
  {
    var a, b := NatToString(i + 1), NatToString(j + 1);
    NatToStringRoundTrip(i + 1);
    NatToStringRoundTrip(j + 1);
    if ProductUrlPrefix + a == ProductUrlPrefix + b {
      PrefixCancels(ProductUrlPrefix, a, b);
    }
  }

  lemma PrefixCancels(p: string, a: string, b: string)
    requires p + a == p + b
    ensures a == b
  {
    assert a == (p + a)[|p|..];
  }

  /** What a search that reaches the products reports: min(max_results, 50)
      products (none for a non-positive bound), `total_found` equal to that,
      and the verified and trade-assurance counts ceil(n/3) and ceil(n/2). */
  lemma SearchCounts(query: string, maxResults: int)
    ensures var n := ProductCount(maxResults);
      && n <= MaxProducts
      && (maxResults <= 0 ==> n == 0)
      && (0 < maxResults <= MaxProducts ==> n == maxResults)
      && (maxResults > MaxProducts ==> n == MaxProducts)
      && |Products(query, n)| == n
      && CountVerified(Products(query, n)) == (n + 2) / 3
      && CountTradeAssurance(Products(query, n)) == (n + 1) / 2
  {
    FlagCounts(query, ProductCount(maxResults));
  }
}
