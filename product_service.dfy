/**
 * ProductService: the product writes over the tables, the category and tag links, and the
 * invalidation calls each write issues against the shared cache. The read keys are those of
 * CacheKeys; the one read modelled with its loader is getProductById.
 */
module ProductService {
  import opened Wrappers
  import opened Text
  import opened Database
  import opened Cache
  import opened CacheKeys

  /** The fields of a ProductDTO a write uses; the id sets are nullable. */
  datatype ProductData = ProductData(id: Option<int>, name: string, description: string, quantity: int,
                                     producerId: Option<int>, categoryIds: Option<set<int>>, tagIds: Option<set<int>>)

  /** The row toEntity builds for a producer that exists. */
  function Row(d: ProductData, producerId: int): (p: Product)
    ensures p.producerId == producerId && p.name == d.name && p.description == d.description && p.quantity == d.quantity
  {
    Product(d.name, d.description, d.quantity, producerId)
  }

  /** The @NotBlank constraint on the name column, which every stored row meets. */
  predicate NamesFilled(products: map<int, Product>)
  {
    forall id :: id in products ==> !Blank(products[id].name)
  }

  /** The link rows that do not belong to the product. */
  function LinksWithoutProduct(links: set<Link>, productId: int): (r: set<Link>)
    ensures forall l :: l in r <==> l in links && l.productId != productId
  {
    set l | l in links && l.productId != productId
  }

  /**
   * The link rows after saving an entity that toEntity rebuilt: the product's old links are
   * orphans and go; a link is made for each listed id that names an existing row.
   */
  function Relinked(links: set<Link>, productId: int, ids: Option<set<int>>, existing: set<int>): (r: set<Link>)
    ensures forall l :: l in r <==>
      (l in links && l.productId != productId) ||
      (l.productId == productId && ids.Some? && l.otherId in ids.value && l.otherId in existing)
  {
    LinksWithoutProduct(links, productId) +
    (if ids.None? then {} else set c | c in ids.value && c in existing :: Link(productId, c))
  }

  // ---------------------------------------------------------------------------------------
  // The invalidation sequences

  /** After createProduct: the full list, the producer's list, every search. */
  function CreateOps(producerId: int): seq<Invalidation>
  {
    [AllProductsList, ProducerProductsList(producerId), ProductSearches]
  }

  /** After updateProduct and deleteProduct: the product itself first, then the same lists. */
  function UpdateOps(id: int, producerId: int): seq<Invalidation>
  {
    [ProductEntry(id), AllProductsList, ProducerProductsList(producerId), ProductSearches]
  }

  /** After a category link is made or removed. */
  function CategoryLinkOps(productId: int, categoryId: int): seq<Invalidation>
  {
    [ProductEntry(productId), CategoryListings(categoryId), CombinedFilters]
  }

  /** After a tag link is made or removed. */
  function TagLinkOps(productId: int, tagId: int): seq<Invalidation>
  {
    [ProductEntry(productId), TagListings(tagId), CombinedFilters]
  }

  /**
   * createProduct drops exactly the list of all products, the producer's product list and
   * the searches; every other cached read survives with its value.
   */
  lemma CreateDrops(store: Store, producerId: int, r: CachedRead)
    ensures Key(r) in Invalidated(store, true, CreateOps(producerId)) <==>
      Key(r) in store &&
      !(r == OfProducts(AllProducts) || r == OfProducts(ProductsOfProducer(producerId)) ||
        (r.OfProducts? && (r.p.SearchByName? || r.p.SearchByNameOfProducer? || r.p.SearchByProducerName?)))
    ensures Key(r) in Invalidated(store, true, CreateOps(producerId)) ==>
      Invalidated(store, true, CreateOps(producerId))[Key(r)] == store[Key(r)]
  {
    SurvivesInvalidation(store, CreateOps(producerId), Key(r));
    DroppedByElements(CreateOps(producerId), Key(r));
    AllProductsListDrops(r);
    ProducerProductsListDrops(producerId, r);
    ProductSearchesDrop(r);
  }

  /**
   * A create that carries the id of an existing product writes over that row, yet its
   * invalidations keep the cached product entry and, when the row belonged to another
   * producer, that producer's cached list, both with their old values.
   */
  lemma CreateWithIdLeavesOverwrittenRowStale(store: Store, id: int, producerId: int, previousProducerId: int)
    requires Key(OfProducts(ProductById(id))) in store
    requires Key(OfProducts(ProductsOfProducer(previousProducerId))) in store && previousProducerId != producerId
    ensures var s := Invalidated(store, true, CreateOps(producerId));
            Key(OfProducts(ProductById(id))) in s &&
            s[Key(OfProducts(ProductById(id)))] == store[Key(OfProducts(ProductById(id)))] &&
            Key(OfProducts(ProductsOfProducer(previousProducerId))) in s &&
            s[Key(OfProducts(ProductsOfProducer(previousProducerId)))] == store[Key(OfProducts(ProductsOfProducer(previousProducerId)))]
  {
    CreateDrops(store, producerId, OfProducts(ProductById(id)));
    CreateDrops(store, producerId, OfProducts(ProductsOfProducer(previousProducerId)));
  }

  /** updateProduct and deleteProduct drop, in addition, the cached product itself, and nothing more. */
  lemma UpdateDrops(store: Store, id: int, producerId: int, r: CachedRead)
    ensures Key(r) in Invalidated(store, true, UpdateOps(id, producerId)) <==>
      Key(r) in store &&
      !(r == OfProducts(ProductById(id)) || r == OfProducts(AllProducts) || r == OfProducts(ProductsOfProducer(producerId)) ||
        (r.OfProducts? && (r.p.SearchByName? || r.p.SearchByNameOfProducer? || r.p.SearchByProducerName?)))
    ensures Key(r) in Invalidated(store, true, UpdateOps(id, producerId)) ==>
      Invalidated(store, true, UpdateOps(id, producerId))[Key(r)] == store[Key(r)]
  {
    SurvivesInvalidation(store, UpdateOps(id, producerId), Key(r));
    DroppedByElements(UpdateOps(id, producerId), Key(r));
    ProductEntryDrops(id, r);
    AllProductsListDrops(r);
    ProducerProductsListDrops(producerId, r);
    ProductSearchesDrop(r);
  }

  /**
   * The category, tag, combined-filter and marketplace listings that a product write leaves
   * cached: they keep their old value after create, update and delete alike.
   */
  lemma ProductWritesLeaveListingsStale(store: Store, id: int, producerId: int, r: CachedRead)
    requires Key(r) in store
    requires r.OfProducts? && (r.p.ByCategory? || r.p.ByCategoryOfProducer? || r.p.ByTag? || r.p.ByTagOfProducer? ||
                               r.p.ByCategoriesAndTags? || r.p.MarketplaceOfProducer?)
    ensures Key(r) in Invalidated(store, true, CreateOps(producerId)) &&
            Invalidated(store, true, CreateOps(producerId))[Key(r)] == store[Key(r)]
    ensures Key(r) in Invalidated(store, true, UpdateOps(id, producerId)) &&
            Invalidated(store, true, UpdateOps(id, producerId))[Key(r)] == store[Key(r)]
  {
    CreateDrops(store, producerId, r);
    UpdateDrops(store, id, producerId, r);
  }

  /**
   * A category link change drops the cached product, the listings of every category whose id
   * is written with the category's digits first, and the combined filters; nothing else.
   */
  lemma CategoryLinkDrops(store: Store, productId: int, categoryId: int, r: CachedRead)
    ensures Key(r) in Invalidated(store, true, CategoryLinkOps(productId, categoryId)) <==>
      Key(r) in store &&
      !(r == OfProducts(ProductById(productId)) ||
        (r.OfProducts? && (r.p.ByCategory? || r.p.ByCategoryOfProducer?) && LongText(categoryId) <= LongText(r.p.categoryId)) ||
        (r.OfProducts? && r.p.ByCategoriesAndTags?))
    ensures Key(r) in Invalidated(store, true, CategoryLinkOps(productId, categoryId)) ==>
      Invalidated(store, true, CategoryLinkOps(productId, categoryId))[Key(r)] == store[Key(r)]
  {
    SurvivesInvalidation(store, CategoryLinkOps(productId, categoryId), Key(r));
    DroppedByElements(CategoryLinkOps(productId, categoryId), Key(r));
    ProductEntryDrops(productId, r);
    CategoryListingsDrop(categoryId, r);
    CombinedFiltersDrop(r);
  }

  /** The tag counterpart. */
  lemma TagLinkDrops(store: Store, productId: int, tagId: int, r: CachedRead)
    ensures Key(r) in Invalidated(store, true, TagLinkOps(productId, tagId)) <==>
      Key(r) in store &&
      !(r == OfProducts(ProductById(productId)) ||
        (r.OfProducts? && (r.p.ByTag? || r.p.ByTagOfProducer?) && LongText(tagId) <= LongText(r.p.tagId)) ||
        (r.OfProducts? && r.p.ByCategoriesAndTags?))
    ensures Key(r) in Invalidated(store, true, TagLinkOps(productId, tagId)) ==>
      Invalidated(store, true, TagLinkOps(productId, tagId))[Key(r)] == store[Key(r)]
  {
    SurvivesInvalidation(store, TagLinkOps(productId, tagId), Key(r));
    DroppedByElements(TagLinkOps(productId, tagId), Key(r));
    ProductEntryDrops(productId, r);
    TagListingsDrop(tagId, r);
    CombinedFiltersDrop(r);
  }

  /**
   * A category link change leaves cached the product lists that show the product's
   * categories: the full list and the producer's list keep their old value.
   */
  lemma CategoryLinkLeavesProductListsStale(store: Store, productId: int, categoryId: int, producerId: int)
    requires Key(OfProducts(AllProducts)) in store && Key(OfProducts(ProductsOfProducer(producerId))) in store
    ensures var s := Invalidated(store, true, CategoryLinkOps(productId, categoryId));
            Key(OfProducts(AllProducts)) in s && s[Key(OfProducts(AllProducts))] == store[Key(OfProducts(AllProducts))] &&
            Key(OfProducts(ProductsOfProducer(producerId))) in s &&
            s[Key(OfProducts(ProductsOfProducer(producerId)))] == store[Key(OfProducts(ProductsOfProducer(producerId)))]
  {
    CategoryLinkDrops(store, productId, categoryId, OfProducts(AllProducts));
    CategoryLinkDrops(store, productId, categoryId, OfProducts(ProductsOfProducer(producerId)));
  }

  class ProductService {
    const db: Tables
    const cache: CacheService

    constructor (db: Tables, cache: CacheService)
      ensures this.db == db && this.cache == cache
    {
      this.db := db;
      this.cache := cache;
    }

    /**
     * getProductById: the cached product when the entry decodes, else the row, which is
     * cached only when it exists.
     */
    method GetProductById(id: int, codec: Codec<Product>) returns (r: Option<Product>)
      modifies cache`store
      ensures var row := if id in db.products then Some(db.products[id]) else None;
              var read := ReadThrough(old(cache.store), cache.online, Key(OfProducts(ProductById(id))), ProductClass, codec,
                                      Loader(Loaded(row), Loaded(row)));
              read.result == Loaded(r) && cache.store == read.store
      ensures id !in db.products && !(cache.online && IsHit(old(cache.store), Key(OfProducts(ProductById(id))), ProductClass, codec)) ==>
                r == None && cache.store == old(cache.store)
    {
      var row := if id in db.products then Some(db.products[id]) else None;
      var got, calls := cache.GetFromCache(Key(OfProducts(ProductById(id))), ProductClass, codec, Loader(Loaded(row), Loaded(row)));
      r := got.value;
    }

    /**
     * createProduct; `newId` is the id the database generates. The mapper copies the
     * request's id into the entity, so a request that carries an id saves under that id,
     * writing over any row already there and replacing its links. A blank name breaks the
     * entity constraint: a new row is refused when it is inserted, at the save, before any
     * cache call; a row written over is refused at the commit, after the three cache calls.
     */
    method CreateProduct(d: ProductData, newId: int) returns (r: Result<int>)
      requires newId !in db.products
      modifies db`products, db`productCategories, db`productTags, cache`store
      ensures d.producerId.None? || d.producerId.value !in db.producers ==>
                r == Err("IllegalArgumentException") && db.products == old(db.products) &&
                db.productCategories == old(db.productCategories) &&
                db.productTags == old(db.productTags) && cache.store == old(cache.store)
      ensures d.producerId.Some? && d.producerId.value in db.producers && Blank(d.name) ==>
                var savedId := if d.id.Some? then d.id.value else newId;
                r == Err("ConstraintViolationException") && db.products == old(db.products) &&
                db.productCategories == old(db.productCategories) && db.productTags == old(db.productTags) &&
                cache.store == if savedId in old(db.products) then Invalidated(old(cache.store), cache.online, CreateOps(d.producerId.value))
                               else old(cache.store)
      ensures d.producerId.Some? && d.producerId.value in db.producers && !Blank(d.name) ==>
                var savedId := if d.id.Some? then d.id.value else newId;
                r == Ok(savedId) &&
                db.products == old(db.products)[savedId := Row(d, d.producerId.value)] &&
                db.productCategories == Relinked(old(db.productCategories), savedId, d.categoryIds, db.categories.Keys) &&
                db.productTags == Relinked(old(db.productTags), savedId, d.tagIds, db.tags.Keys) &&
                cache.store == Invalidated(old(cache.store), cache.online, CreateOps(d.producerId.value))
      ensures NamesFilled(old(db.products)) ==> NamesFilled(db.products)
    {
      if d.producerId.None? || d.producerId.value !in db.producers {
        return Err("IllegalArgumentException");
      }
      var producerId := d.producerId.value;
      var savedId := if d.id.Some? then d.id.value else newId;
      if Blank(d.name) {
        if savedId in db.products {
          InvalidateCreated(producerId);
        }
        return Err("ConstraintViolationException");
      }
      db.products := db.products[savedId := Row(d, producerId)];
      db.productCategories := Relinked(db.productCategories, savedId, d.categoryIds, db.categories.Keys);
      db.productTags := Relinked(db.productTags, savedId, d.tagIds, db.tags.Keys);
      InvalidateCreated(producerId);
      r := Ok(savedId);
    }

    /**
     * updateProduct: empty for a missing product, a throw for another producer's product. The
     * row written over is the managed one, so a blank name is refused at the commit, after the
     * four cache calls.
     */
    method UpdateProduct(d: ProductData) returns (r: Result<Option<int>>)
      modifies db`products, db`productCategories, db`productTags, cache`store
      ensures r.Err? || r == Ok(None) ==>
                db.products == old(db.products) && db.productCategories == old(db.productCategories) &&
                db.productTags == old(db.productTags)
      ensures r == Err("IllegalArgumentException") || r == Ok(None) ==> cache.store == old(cache.store)
      ensures d.producerId.None? || d.producerId.value !in db.producers || d.id.None? ==> r == Err("IllegalArgumentException")
      ensures d.producerId.Some? && d.producerId.value in db.producers && d.id.Some? ==>
                (d.id.value !in old(db.products) ==> r == Ok(None)) &&
                (d.id.value in old(db.products) && old(db.products)[d.id.value].producerId != d.producerId.value ==>
                   r == Err("IllegalArgumentException"))
      ensures d.producerId.Some? && d.producerId.value in db.producers && d.id.Some? &&
              d.id.value in old(db.products) && old(db.products)[d.id.value].producerId == d.producerId.value && Blank(d.name) ==>
                r == Err("ConstraintViolationException") &&
                cache.store == Invalidated(old(cache.store), cache.online, UpdateOps(d.id.value, d.producerId.value))
      ensures r.Ok? && r.value.Some? ==>
                d.id == r.value && d.producerId.Some? && d.id.value in old(db.products) &&
                old(db.products)[d.id.value].producerId == d.producerId.value && !Blank(d.name) &&
                db.products == old(db.products)[d.id.value := Row(d, d.producerId.value)] &&
                db.productCategories == Relinked(old(db.productCategories), d.id.value, d.categoryIds, db.categories.Keys) &&
                db.productTags == Relinked(old(db.productTags), d.id.value, d.tagIds, db.tags.Keys) &&
                cache.store == Invalidated(old(cache.store), cache.online, UpdateOps(d.id.value, d.producerId.value))
      ensures d.producerId.Some? && d.producerId.value in db.producers && d.id.Some? &&
              d.id.value in old(db.products) && old(db.products)[d.id.value].producerId == d.producerId.value && !Blank(d.name) ==>
                r == Ok(Some(d.id.value))
      ensures NamesFilled(old(db.products)) ==> NamesFilled(db.products)
    {
      if d.producerId.None? || d.producerId.value !in db.producers {
        return Err("IllegalArgumentException");
      }
      var producerId := d.producerId.value;
      if d.id.None? {
        // findById(null) throws.
        return Err("IllegalArgumentException");
      }
      var id := d.id.value;
      if id !in db.products {
        return Ok(None);
      }
      if db.products[id].producerId != producerId {
        return Err("IllegalArgumentException");
      }
      if Blank(d.name) {
        InvalidateUpdated(id, producerId);
        return Err("ConstraintViolationException");
      }
      db.products := db.products[id := Row(d, producerId)];
      db.productCategories := Relinked(db.productCategories, id, d.categoryIds, db.categories.Keys);
      db.productTags := Relinked(db.productTags, id, d.tagIds, db.tags.Keys);
      InvalidateUpdated(id, producerId);
      r := Ok(Some(id));
    }

    /** deleteProduct: false for a missing product, a throw for another producer's product. */
    method DeleteProduct(id: int, producerId: int) returns (r: Result<bool>)
      modifies db`products, db`productCategories, db`productTags, cache`store
      ensures id !in old(db.products) ==> r == Ok(false)
      ensures id in old(db.products) && old(db.products)[id].producerId != producerId ==> r.Err?
      ensures r != Ok(true) ==>
                db.products == old(db.products) && db.productCategories == old(db.productCategories) &&
                db.productTags == old(db.productTags) && cache.store == old(cache.store)
      ensures id in old(db.products) && old(db.products)[id].producerId == producerId ==>
                r == Ok(true) && db.products == old(db.products) - {id} &&
                db.productCategories == LinksWithoutProduct(old(db.productCategories), id) &&
                db.productTags == LinksWithoutProduct(old(db.productTags), id) &&
                cache.store == Invalidated(old(cache.store), cache.online, UpdateOps(id, producerId))
      ensures NamesFilled(old(db.products)) ==> NamesFilled(db.products)
    {
      if id !in db.products {
        return Ok(false);
      }
      if db.products[id].producerId != producerId {
        return Err("IllegalArgumentException");
      }
      db.products := db.products - {id};
      db.productCategories := LinksWithoutProduct(db.productCategories, id);
      db.productTags := LinksWithoutProduct(db.productTags, id);
      InvalidateUpdated(id, producerId);
      r := Ok(true);
    }

    /** The three invalidation calls after createProduct's save. */
    method InvalidateCreated(producerId: int)
      modifies cache`store
      ensures cache.store == Invalidated(old(cache.store), cache.online, CreateOps(producerId))
    {
      ghost var s0 := cache.store;
      cache.InvalidatePattern("products:all");
      InvalidatedSnoc(s0, cache.online, [], AllProductsList);
      cache.InvalidatePattern("products:producer:" + LongText(producerId));
      InvalidatedSnoc(s0, cache.online, [AllProductsList], ProducerProductsList(producerId));
      cache.InvalidatePattern("products:search:*");
      InvalidatedSnoc(s0, cache.online, [AllProductsList, ProducerProductsList(producerId)], ProductSearches);
      assert [AllProductsList, ProducerProductsList(producerId)] + [ProductSearches] == CreateOps(producerId);
    }

    /** The four invalidation calls after updateProduct's save and deleteProduct's delete. */
    method InvalidateUpdated(id: int, producerId: int)
      modifies cache`store
      ensures cache.store == Invalidated(old(cache.store), cache.online, UpdateOps(id, producerId))
    {
      ghost var s0 := cache.store;
      cache.InvalidateCache("product:" + LongText(id));
      InvalidatedSnoc(s0, cache.online, [], ProductEntry(id));
      assert [] + [ProductEntry(id)] == [ProductEntry(id)];
      cache.InvalidatePattern("products:all");
      InvalidatedSnoc(s0, cache.online, [ProductEntry(id)], AllProductsList);
      assert [ProductEntry(id)] + [AllProductsList] == [ProductEntry(id), AllProductsList];
      cache.InvalidatePattern("products:producer:" + LongText(producerId));
      InvalidatedSnoc(s0, cache.online, [ProductEntry(id), AllProductsList], ProducerProductsList(producerId));
      assert [ProductEntry(id), AllProductsList] + [ProducerProductsList(producerId)] ==
             [ProductEntry(id), AllProductsList, ProducerProductsList(producerId)];
      cache.InvalidatePattern("products:search:*");
      InvalidatedSnoc(s0, cache.online, [ProductEntry(id), AllProductsList, ProducerProductsList(producerId)], ProductSearches);
      assert [ProductEntry(id), AllProductsList, ProducerProductsList(producerId)] + [ProductSearches] == UpdateOps(id, producerId);
    }

    /**
     * addCategoryToProduct: false when the product or the category is missing, a throw for
     * another producer's product, true without any write when the link exists already.
     */
    method AddCategoryToProduct(productId: int, categoryId: int, producerId: int) returns (r: Result<bool>)
      modifies db`productCategories, cache`store
      ensures productId !in db.products || categoryId !in db.categories ==> r == Ok(false)
      ensures productId in db.products && categoryId in db.categories && db.products[productId].producerId != producerId ==> r.Err?
      ensures r.Ok? ==> r.value == (productId in db.products && categoryId in db.categories)
      ensures r != Ok(true) || Link(productId, categoryId) in old(db.productCategories) ==>
                db.productCategories == old(db.productCategories) && cache.store == old(cache.store)
      ensures r == Ok(true) && Link(productId, categoryId) !in old(db.productCategories) ==>
                db.productCategories == old(db.productCategories) + {Link(productId, categoryId)} &&
                cache.store == Invalidated(old(cache.store), cache.online, CategoryLinkOps(productId, categoryId))
      ensures r == Ok(true) ==> Link(productId, categoryId) in db.productCategories
    {
      if productId !in db.products || categoryId !in db.categories {
        return Ok(false);
      }
      if db.products[productId].producerId != producerId {
        return Err("IllegalArgumentException");
      }
      var link := Link(productId, categoryId);
      if link in db.productCategories {
        return Ok(true);
      }
      db.productCategories := db.productCategories + {link};
      InvalidateCategoryLink(productId, categoryId);
      r := Ok(true);
    }

    /** removeCategoryFromProduct: true and the invalidations only when the link existed. */
    method RemoveCategoryFromProduct(productId: int, categoryId: int, producerId: int) returns (r: Result<bool>)
      modifies db`productCategories, cache`store
      ensures productId !in db.products || categoryId !in db.categories ==> r == Ok(false)
      ensures productId in db.products && categoryId in db.categories && db.products[productId].producerId != producerId ==> r.Err?
      ensures r.Ok? ==> r.value == (productId in db.products && categoryId in db.categories &&
                                    Link(productId, categoryId) in old(db.productCategories))
      ensures r != Ok(true) ==> db.productCategories == old(db.productCategories) && cache.store == old(cache.store)
      ensures r == Ok(true) ==>
                db.productCategories == old(db.productCategories) - {Link(productId, categoryId)} &&
                cache.store == Invalidated(old(cache.store), cache.online, CategoryLinkOps(productId, categoryId))
    {
      if productId !in db.products || categoryId !in db.categories {
        return Ok(false);
      }
      if db.products[productId].producerId != producerId {
        return Err("IllegalArgumentException");
      }
      var link := Link(productId, categoryId);
      if link !in db.productCategories {
        return Ok(false);
      }
      db.productCategories := db.productCategories - {link};
      InvalidateCategoryLink(productId, categoryId);
      r := Ok(true);
    }

    /** The three invalidation calls after a category link change. */
    method InvalidateCategoryLink(productId: int, categoryId: int)
      modifies cache`store
      ensures cache.store == Invalidated(old(cache.store), cache.online, CategoryLinkOps(productId, categoryId))
    {
      ghost var s0 := cache.store;
      cache.InvalidateCache("product:" + LongText(productId));
      InvalidatedSnoc(s0, cache.online, [], ProductEntry(productId));
      cache.InvalidatePattern("products:category:" + LongText(categoryId) + "*");
      InvalidatedSnoc(s0, cache.online, [ProductEntry(productId)], CategoryListings(categoryId));
      cache.InvalidatePattern("products:complex:*");
      InvalidatedSnoc(s0, cache.online, [ProductEntry(productId), CategoryListings(categoryId)], CombinedFilters);
      assert [ProductEntry(productId), CategoryListings(categoryId)] + [CombinedFilters] == CategoryLinkOps(productId, categoryId);
    }

    /** addTagToProduct, as addCategoryToProduct over the tag links. */
    method AddTagToProduct(productId: int, tagId: int, producerId: int) returns (r: Result<bool>)
      modifies db`productTags, cache`store
      ensures productId !in db.products || tagId !in db.tags ==> r == Ok(false)
      ensures productId in db.products && tagId in db.tags && db.products[productId].producerId != producerId ==> r.Err?
      ensures r.Ok? ==> r.value == (productId in db.products && tagId in db.tags)
      ensures r != Ok(true) || Link(productId, tagId) in old(db.productTags) ==>
                db.productTags == old(db.productTags) && cache.store == old(cache.store)
      ensures r == Ok(true) && Link(productId, tagId) !in old(db.productTags) ==>
                db.productTags == old(db.productTags) + {Link(productId, tagId)} &&
                cache.store == Invalidated(old(cache.store), cache.online, TagLinkOps(productId, tagId))
      ensures r == Ok(true) ==> Link(productId, tagId) in db.productTags
    {
      if productId !in db.products || tagId !in db.tags {
        return Ok(false);
      }
      if db.products[productId].producerId != producerId {
        return Err("IllegalArgumentException");
      }
      var link := Link(productId, tagId);
      if link in db.productTags {
        return Ok(true);
      }
      db.productTags := db.productTags + {link};
      InvalidateTagLink(productId, tagId);
      r := Ok(true);
    }

    /** removeTagFromProduct, as removeCategoryFromProduct over the tag links. */
    method RemoveTagFromProduct(productId: int, tagId: int, producerId: int) returns (r: Result<bool>)
      modifies db`productTags, cache`store
      ensures productId !in db.products || tagId !in db.tags ==> r == Ok(false)
      ensures productId in db.products && tagId in db.tags && db.products[productId].producerId != producerId ==> r.Err?
      ensures r.Ok? ==> r.value == (productId in db.products && tagId in db.tags &&
                                    Link(productId, tagId) in old(db.productTags))
      ensures r != Ok(true) ==> db.productTags == old(db.productTags) && cache.store == old(cache.store)
      ensures r == Ok(true) ==>
                db.productTags == old(db.productTags) - {Link(productId, tagId)} &&
                cache.store == Invalidated(old(cache.store), cache.online, TagLinkOps(productId, tagId))
    {
      if productId !in db.products || tagId !in db.tags {
        return Ok(false);
      }
      if db.products[productId].producerId != producerId {
        return Err("IllegalArgumentException");
      }
      var link := Link(productId, tagId);
      if link !in db.productTags {
        return Ok(false);
      }
      db.productTags := db.productTags - {link};
      InvalidateTagLink(productId, tagId);
      r := Ok(true);
    }

    /** The three invalidation calls after a tag link change. */
    method InvalidateTagLink(productId: int, tagId: int)
      modifies cache`store
      ensures cache.store == Invalidated(old(cache.store), cache.online, TagLinkOps(productId, tagId))
    {
      ghost var s0 := cache.store;
      cache.InvalidateCache("product:" + LongText(productId));
      InvalidatedSnoc(s0, cache.online, [], ProductEntry(productId));
      cache.InvalidatePattern("products:tag:" + LongText(tagId) + "*");
      InvalidatedSnoc(s0, cache.online, [ProductEntry(productId)], TagListings(tagId));
      cache.InvalidatePattern("products:complex:*");
      InvalidatedSnoc(s0, cache.online, [ProductEntry(productId), TagListings(tagId)], CombinedFilters);
      assert [ProductEntry(productId), TagListings(tagId)] + [CombinedFilters] == TagLinkOps(productId, tagId);
    }
  }
}
