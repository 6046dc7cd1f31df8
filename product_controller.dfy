/**
 * ProductController: which service read each endpoint makes, the role and producer gates in
 * front of them, and the stock filter of the public marketplace endpoints. The service reads
 * are named by the same ProductRead values whose cache keys CacheKeys builds; their rows are
 * parameters.
 */
module ProductController {
  import opened Wrappers
  import opened Database
  import opened CacheKeys
  import ProductDto

  /** An HTTP outcome: 200 with a body, 403, or 404. */
  datatype Response<T> = Found(body: T) | Forbidden | NotFound

  const AdminRole: string := "ROLE_ADMIN"

  /** getAllProducts: every product, for an administrator only. */
  function AllProducts(role: Option<string>, all: seq<Product>): (r: Response<seq<Product>>)
    ensures r.Found? <==> role == Some(AdminRole)
    ensures r.Found? ==> r.body == all
    ensures !r.Found? ==> r.Forbidden?
  {
    if role == Some(AdminRole) then Found(all) else Forbidden
  }

  /** getMyProducts: the read a resolved producer gets, else 403. */
  function MyProducts(producerId: Option<int>): (r: Response<ProductRead>)
    ensures r.Forbidden? <==> producerId.None?
    ensures r.Found? ==> r.body == ProductsOfProducer(producerId.value)
    ensures !r.NotFound?
  {
    if producerId.None? then Forbidden else Found(ProductsOfProducer(producerId.value))
  }

  /** A null or empty request list. */
  predicate NoIds(ids: Option<seq<int>>) { ids.None? || ids.value == [] }

  /**
   * filterProducts: with neither list the producer's products; with categories only the
   * first category id; with tags only the first tag id; with both the combined query.
   */
  function Filter(producerId: Option<int>, categoryIds: Option<seq<int>>, tagIds: Option<seq<int>>): (r: Response<ProductRead>)
    ensures r.Forbidden? <==> producerId.None?
    ensures !r.NotFound?
    ensures r.Found? && NoIds(categoryIds) && NoIds(tagIds) ==> r.body == ProductsOfProducer(producerId.value)
    ensures r.Found? && !NoIds(categoryIds) && NoIds(tagIds) ==>
      r.body == ByCategoryOfProducer(categoryIds.value[0], producerId.value)
    ensures r.Found? && NoIds(categoryIds) && !NoIds(tagIds) ==>
      r.body == ByTagOfProducer(tagIds.value[0], producerId.value)
    ensures r.Found? && !NoIds(categoryIds) && !NoIds(tagIds) ==>
      r.body == ByCategoriesAndTags(categoryIds.value, tagIds.value, producerId.value)
  {
    if producerId.None? then Forbidden
    else if NoIds(categoryIds) && NoIds(tagIds) then Found(ProductsOfProducer(producerId.value))
    else if NoIds(tagIds) then Found(ByCategoryOfProducer(categoryIds.value[0], producerId.value))
    else if NoIds(categoryIds) then Found(ByTagOfProducer(tagIds.value[0], producerId.value))
    else Found(ByCategoriesAndTags(categoryIds.value, tagIds.value, producerId.value))
  }

  /** The producer a product read is restricted to, if any. */
  function ProducerOfRead(read: ProductRead): Option<int>
  {
    match read
    case ProductsOfProducer(p) => Some(p)
    case SearchByNameOfProducer(_, p) => Some(p)
    case ByCategoryOfProducer(_, p) => Some(p)
    case ByTagOfProducer(_, p) => Some(p)
    case ByCategoriesAndTags(_, _, p) => Some(p)
    case MarketplaceOfProducer(p) => Some(p)
    case _ => None
  }

  /** Every read filterProducts makes is restricted to the caller's own producer. */
  lemma FilterStaysWithinProducer(producerId: Option<int>, categoryIds: Option<seq<int>>, tagIds: Option<seq<int>>)
    requires Filter(producerId, categoryIds, tagIds).Found?
    ensures ProducerOfRead(Filter(producerId, categoryIds, tagIds).body) == producerId
  {
  }

  /**
   * With one list only, the ids after the first are ignored: two requests that agree on the
   * first id make the same read.
   */
  lemma FilterUsesOnlyFirstId(producerId: Option<int>, ids: seq<int>, other: seq<int>)
    requires ids != [] && other != [] && ids[0] == other[0]
    ensures Filter(producerId, Some(ids), None) == Filter(producerId, Some(other), None)
    ensures Filter(producerId, None, Some(ids)) == Filter(producerId, None, Some(other))
    ensures Filter(producerId, Some(ids), Some([])) == Filter(producerId, Some(other), None)
  {
  }

  /** getProductById: 403 without a producer; the product only when it is that producer's. */
  function OwnProduct(producerId: Option<int>, found: Option<Product>): (r: Response<Product>)
    ensures r.Forbidden? <==> producerId.None?
    ensures r.Found? <==> producerId.Some? && found.Some? && found.value.producerId == producerId.value
    ensures r.Found? ==> r.body == found.value
  {
    if producerId.None? then Forbidden
    else if found.Some? && found.value.producerId == producerId.value then Found(found.value)
    else NotFound
  }

  // ---------------------------------------------------------------------------------------
  // The marketplace

  /** The stream filter every marketplace listing applies: the products with stock, in order. */
  function InStock(products: seq<Product>): (r: seq<Product>)
    ensures forall p :: p in r <==> p in products && p.quantity > 0
    ensures |r| <= |products|
  {
    if products == [] then []
    else if products[0].quantity > 0 then [products[0]] + InStock(products[1..])
    else InStock(products[1..])
  }

  /** Filtering a concatenation filters each part: the filter keeps the listing's order. */
  lemma {:induction false} InStockOfConcat(a: seq<Product>, b: seq<Product>)
    ensures InStock(a + b) == InStock(a) + InStock(b)
  {
    if a == [] {
      assert a + b == b;
    } else {
      assert (a + b)[1..] == a[1..] + b;
      InStockOfConcat(a[1..], b);
    }
  }

  /** The filter keeps a list that is already in stock as it is, so applying it twice changes nothing. */
  lemma {:induction false} InStockKeepsStockedList(products: seq<Product>)
    requires forall i :: 0 <= i < |products| ==> products[i].quantity > 0
    ensures InStock(products) == products
  {
    if products != [] {
      InStockKeepsStockedList(products[1..]);
    }
  }

  lemma InStockIdempotent(products: seq<Product>)
    ensures InStock(InStock(products)) == InStock(products)
  {
    var r := InStock(products);
    forall i | 0 <= i < |r|
      ensures r[i].quantity > 0
    {
      assert r[i] in r;
    }
    InStockKeepsStockedList(r);
  }

  /** No product a marketplace listing shows is sold out in its product view. */
  lemma InStockNeverSoldOut(products: seq<Product>, p: Product)
    requires p in InStock(products)
    ensures ProductDto.InventoryStatus(Some(p.quantity)) != ProductDto.SoldOut
  {
  }

  /** The public marketplace endpoints, each a service read followed by the stock filter. */
  datatype MarketplaceEndpoint =
    | Listing
    | Search(name: string)
    | OfCategory(categoryId: int)
    | OfTag(tagId: int)
    | OfProducer(producerId: int)
    | OfProducerName(producerName: string)

  /** The service read behind each marketplace endpoint. */
  function MarketplaceSource(e: MarketplaceEndpoint): (read: ProductRead)
    ensures e.OfProducer? <==> read.MarketplaceOfProducer?
    ensures e.OfProducer? ==> ProducerOfRead(read) == Some(e.producerId)
    ensures !e.OfProducer? ==> ProducerOfRead(read).None?
  {
    match e
    case Listing => CacheKeys.AllProducts
    case Search(name) => SearchByName(name)
    case OfCategory(c) => ByCategory(c)
    case OfTag(t) => ByTag(t)
    case OfProducer(p) => MarketplaceOfProducer(p)
    case OfProducerName(n) => SearchByProducerName(n)
  }

  /** A marketplace listing: the rows the read returned, filtered to those in stock. */
  function Marketplace(e: MarketplaceEndpoint, rows: seq<Product>): (r: (ProductRead, seq<Product>))
    ensures r.0 == MarketplaceSource(e)
    ensures forall p :: p in r.1 <==> p in rows && p.quantity > 0
  {
    (MarketplaceSource(e), InStock(rows))
  }

  /** getMarketplaceProductById: the product only when it is found and has stock. */
  function MarketplaceProduct(found: Option<Product>): (r: Response<Product>)
    ensures r.Found? <==> found.Some? && found.value.quantity > 0
    ensures r.Found? ==> r.body == found.value
    ensures !r.Forbidden?
  {
    if found.Some? && found.value.quantity > 0 then Found(found.value) else NotFound
  }

  /** A product the marketplace shows by id is exactly one the listing filter keeps. */
  lemma MarketplaceProductAgreesWithListing(p: Product)
    ensures MarketplaceProduct(Some(p)).Found? <==> InStock([p]) == [p]
  {
  }
}
