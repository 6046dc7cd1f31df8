/**
 * ProducerService: saving, deleting, approving and rejecting producers, with the cached
 * lookups by id and by user, and the invalidation calls each write issues.
 */
module ProducerService {
  import opened Wrappers
  import opened Text
  import opened Database
  import opened Cache
  import opened CacheKeys

  /** The exact "producer:user:U" deletion, issued only when the producer has a user with an id. */
  function UserEntry(userId: Option<int>): seq<Invalidation>
  {
    if userId.Some? then [ProducerOfUserEntry(userId.value)] else []
  }

  /** After saveProducer. */
  function SaveOps(id: int, userId: Option<int>): seq<Invalidation>
  {
    [ProducerLists, ProducerEntry(id)] + UserEntry(userId) + [MarketplaceListings]
  }

  /** After approveProducer and rejectProducer: the same calls as a save, in another order. */
  function ApprovalOps(id: int, userId: Option<int>): seq<Invalidation>
  {
    [ProducerLists, MarketplaceListings, ProducerEntry(id)] + UserEntry(userId)
  }

  /** After deleteProducer. */
  function DeleteOps(id: int, userId: Option<int>): seq<Invalidation>
  {
    [ProducerLists, ProducerEntry(id)] + UserEntry(userId) +
    [ProducerProductsList(id), ProducerMarketplaceList(id), ProducerOrders(id), ProducerStats(id)]
  }

  /** The reads a save, an approval or a rejection of producer `id` (of user `userId`) drops. */
  predicate DroppedByProducerChange(id: int, userId: Option<int>, r: CachedRead)
  {
    (r.OfProducers? && !r.q.ProducerById? && !r.q.ProducerOfUser?) ||
    r == OfProducts(ApprovedProducersWithStock) ||
    r == OfProducers(ProducerById(id)) ||
    (userId.Some? && r == OfProducers(ProducerOfUser(userId.value))) ||
    (r.OfProducts? && r.p.MarketplaceOfProducer?)
  }

  /**
   * saveProducer drops every producer listing and count, the approved-with-stock list, the
   * producer's own entry, its user's entry when it has a user, and every marketplace listing;
   * all other cached reads survive with their value.
   */
  lemma SaveDrops(store: Store, id: int, userId: Option<int>, r: CachedRead)
    ensures Key(r) in Invalidated(store, true, SaveOps(id, userId)) <==>
      Key(r) in store && !DroppedByProducerChange(id, userId, r)
    ensures Key(r) in Invalidated(store, true, SaveOps(id, userId)) ==>
      Invalidated(store, true, SaveOps(id, userId))[Key(r)] == store[Key(r)]
  {
    SurvivesInvalidation(store, SaveOps(id, userId), Key(r));
    DroppedByElements(SaveOps(id, userId), Key(r));
    ProducerListsDrop(r);
    ProducerEntryDrops(id, r);
    if userId.Some? {
      ProducerOfUserEntryDrops(userId.value, r);
    }
    MarketplaceListingsDrop(r);
  }

  /** Approving or rejecting drops exactly what a save drops. */
  lemma ApprovalDrops(store: Store, id: int, userId: Option<int>, r: CachedRead)
    ensures Key(r) in Invalidated(store, true, ApprovalOps(id, userId)) <==>
      Key(r) in store && !DroppedByProducerChange(id, userId, r)
    ensures Key(r) in Invalidated(store, true, ApprovalOps(id, userId)) ==>
      Invalidated(store, true, ApprovalOps(id, userId))[Key(r)] == store[Key(r)]
  {
    SurvivesInvalidation(store, ApprovalOps(id, userId), Key(r));
    DroppedByElements(ApprovalOps(id, userId), Key(r));
    ProducerListsDrop(r);
    ProducerEntryDrops(id, r);
    if userId.Some? {
      ProducerOfUserEntryDrops(userId.value, r);
    }
    MarketplaceListingsDrop(r);
  }

  /**
   * The search for products by producer name lists the products of approved producers only,
   * yet an approval or a rejection leaves every cached such search with its old value.
   */
  lemma ApprovalLeavesProducerNameSearchesStale(store: Store, id: int, userId: Option<int>, name: string)
    requires Key(OfProducts(SearchByProducerName(name))) in store
    ensures var s := Invalidated(store, true, ApprovalOps(id, userId));
            Key(OfProducts(SearchByProducerName(name))) in s &&
            s[Key(OfProducts(SearchByProducerName(name)))] == store[Key(OfProducts(SearchByProducerName(name)))]
  {
    ApprovalDrops(store, id, userId, OfProducts(SearchByProducerName(name)));
  }

  /**
   * deleteProducer drops the producer listings and counts, the approved-with-stock list, the
   * producer's entry, its user's entry when the looked-up producer had a user, its product
   * list and its marketplace listing; the order and statistics globs drop nothing cached.
   */
  lemma DeleteDrops(store: Store, id: int, userId: Option<int>, r: CachedRead)
    ensures Key(r) in Invalidated(store, true, DeleteOps(id, userId)) <==>
      Key(r) in store &&
      !((r.OfProducers? && !r.q.ProducerById? && !r.q.ProducerOfUser?) ||
        r == OfProducts(ApprovedProducersWithStock) ||
        r == OfProducers(ProducerById(id)) ||
        (userId.Some? && r == OfProducers(ProducerOfUser(userId.value))) ||
        r == OfProducts(ProductsOfProducer(id)) ||
        r == OfProducts(MarketplaceOfProducer(id)))
    ensures Key(r) in Invalidated(store, true, DeleteOps(id, userId)) ==>
      Invalidated(store, true, DeleteOps(id, userId))[Key(r)] == store[Key(r)]
  {
    SurvivesInvalidation(store, DeleteOps(id, userId), Key(r));
    DroppedByElements(DeleteOps(id, userId), Key(r));
    ProducerListsDrop(r);
    ProducerEntryDrops(id, r);
    if userId.Some? {
      ProducerOfUserEntryDrops(userId.value, r);
    }
    ProducerProductsListDrops(id, r);
    ProducerMarketplaceListDrops(id, r);
    ProducerOrdersDropNothing(id, r);
    ProducerStatsDropNothing(id, r);
  }

  /**
   * After a producer is deleted, a cached entry of any single product, of the full product
   * list and of every product search keeps its old value, the deleted producer's products included.
   */
  lemma DeleteLeavesProductEntriesStale(store: Store, id: int, userId: Option<int>, r: CachedRead)
    requires Key(r) in store
    requires r == OfProducts(AllProducts) || (r.OfProducts? && (r.p.ProductById? || r.p.SearchByName? ||
              r.p.SearchByNameOfProducer? || r.p.SearchByProducerName?))
    ensures Key(r) in Invalidated(store, true, DeleteOps(id, userId))
    ensures Invalidated(store, true, DeleteOps(id, userId))[Key(r)] == store[Key(r)]
  {
    DeleteDrops(store, id, userId, r);
  }

  /** A producer row of the user, as findByUserId sees it. */
  predicate OfUser(producers: map<int, Producer>, userId: int, id: int)
  {
    id in producers && producers[id].userId == Some(userId)
  }

  /** What findByUserId does: null, the one producer, or a throw when the user has two. */
  function ProducerOfUserLoad(producers: map<int, Producer>, userId: int): (l: Load<Producer>)
    ensures l.Loaded? && l.value.Some? ==> exists id :: OfUser(producers, userId, id) && producers[id] == l.value.value
    ensures l == Loaded(None) <==> forall id :: !OfUser(producers, userId, id)
  {
    if exists a, b :: a in producers && b in producers && OfUser(producers, userId, a) && OfUser(producers, userId, b) && a != b then
      Threw
    else if exists id :: id in producers && OfUser(producers, userId, id) then
      var id :| id in producers && OfUser(producers, userId, id);
      Loaded(Some(producers[id]))
    else
      Loaded(None)
  }

  class ProducerService {
    const db: Tables
    const cache: CacheService

    constructor (db: Tables, cache: CacheService)
      ensures this.db == db && this.cache == cache
    {
      this.db := db;
      this.cache := cache;
    }

    /** The loader of getProducerById: findById(id).orElse(null). */
    function RowLoader(id: int): (l: Loader<Producer>)
      reads db
      ensures l.first == l.retry && l.first.Loaded?
      ensures l.first.value.Some? <==> id in db.producers
    {
      var row := if id in db.producers then Some(db.producers[id]) else None;
      Loader(Loaded(row), Loaded(row))
    }

    /** getProducerById: the cached producer when the entry decodes, else the row. */
    method GetProducerById(id: int, codec: Codec<Producer>) returns (r: Option<Producer>)
      modifies cache`store
      ensures var read := ReadThrough(old(cache.store), cache.online, Key(OfProducers(ProducerById(id))),
                                      OtherClass("Producer"), codec, RowLoader(id));
              read.result == Loaded(r) && cache.store == read.store
      ensures id !in db.producers && !(cache.online && IsHit(old(cache.store), Key(OfProducers(ProducerById(id))), OtherClass("Producer"), codec)) ==>
                r == None && cache.store == old(cache.store)
    {
      var got, calls := cache.GetFromCache(Key(OfProducers(ProducerById(id))), OtherClass("Producer"), codec, RowLoader(id));
      r := got.value;
    }

    /**
     * findByUserId: as getProducerById under "producer:user:U"; when the user has two
     * producers the query throws on the first call and again on the retry, and the caller
     * sees the exception.
     */
    method FindByUserId(userId: int, codec: Codec<Producer>) returns (r: Load<Producer>)
      modifies cache`store
      ensures var l := ProducerOfUserLoad(db.producers, userId);
              var read := ReadThrough(old(cache.store), cache.online, Key(OfProducers(ProducerOfUser(userId))),
                                      OtherClass("Producer"), codec, Loader(l, l));
              read.result == r && cache.store == read.store
      ensures ProducerOfUserLoad(db.producers, userId).Threw? &&
              !(cache.online && IsHit(old(cache.store), Key(OfProducers(ProducerOfUser(userId))), OtherClass("Producer"), codec)) ==>
                r.Threw? && cache.store == old(cache.store)
    {
      var l := ProducerOfUserLoad(db.producers, userId);
      var calls;
      r, calls := cache.GetFromCache(Key(OfProducers(ProducerOfUser(userId))), OtherClass("Producer"), codec, Loader(l, l));
    }

    /** saveProducer; an entity without an id is inserted under `newId`, the generated id. */
    method SaveProducer(producer: Producer, id: Option<int>, newId: int) returns (savedId: int)
      requires newId !in db.producers
      modifies db`producers, cache`store
      ensures savedId == if id.Some? then id.value else newId
      ensures db.producers == old(db.producers)[savedId := producer]
      ensures cache.store == Invalidated(old(cache.store), cache.online, SaveOps(savedId, producer.userId))
    {
      savedId := if id.Some? then id.value else newId;
      db.producers := db.producers[savedId := producer];
      ghost var s0 := cache.store;
      ghost var ops: seq<Invalidation> := [];
      cache.InvalidatePattern("producers:*");
      InvalidatedSnoc(s0, cache.online, ops, ProducerLists);
      ops := ops + [ProducerLists];
      cache.InvalidateCache("producer:" + LongText(savedId));
      InvalidatedSnoc(s0, cache.online, ops, ProducerEntry(savedId));
      ops := ops + [ProducerEntry(savedId)];
      if producer.userId.Some? {
        cache.InvalidateCache("producer:user:" + LongText(producer.userId.value));
        InvalidatedSnoc(s0, cache.online, ops, ProducerOfUserEntry(producer.userId.value));
        ops := ops + [ProducerOfUserEntry(producer.userId.value)];
      }
      cache.InvalidatePattern("products:marketplace:*");
      InvalidatedSnoc(s0, cache.online, ops, MarketplaceListings);
      ops := ops + [MarketplaceListings];
      assert ops == SaveOps(savedId, producer.userId);
    }

    /**
     * deleteProducer: the producer is first looked up through the cache (which may write its
     * entry), its row is deleted (a missing id deletes nothing), and the user entry dropped is
     * that of the producer the lookup returned, which may be a cached copy.
     */
    method DeleteProducer(id: int, codec: Codec<Producer>)
      modifies db`producers, cache`store
      ensures db.producers == old(db.producers) - {id}
      ensures var read := ReadThrough(old(cache.store), cache.online, Key(OfProducers(ProducerById(id))),
                                      OtherClass("Producer"), codec, old(RowLoader(id)));
              var found := read.result.value;
              cache.store == Invalidated(read.store, cache.online, DeleteOps(id, if found.Some? then found.value.userId else None))
      ensures cache.online ==> Key(OfProducers(ProducerById(id))) !in cache.store
    {
      var found := GetProducerById(id, codec);
      db.producers := db.producers - {id};
      var userId := if found.Some? then found.value.userId else None;
      ghost var s0 := cache.store;
      InvalidateDeleted(id, userId);
      if cache.online {
        DeleteDrops(s0, id, userId, OfProducers(ProducerById(id)));
      }
    }

    /** The invalidation calls of deleteProducer. */
    method InvalidateDeleted(id: int, userId: Option<int>)
      modifies cache`store
      ensures cache.store == Invalidated(old(cache.store), cache.online, DeleteOps(id, userId))
    {
      ghost var s0 := cache.store;
      InvalidateDeletedEntries(id, userId);
      ghost var s1 := cache.store;
      InvalidateDeletedListings(id);
      InvalidatedAppend(s0, cache.online, [ProducerLists, ProducerEntry(id)] + UserEntry(userId),
                        [ProducerProductsList(id), ProducerMarketplaceList(id), ProducerOrders(id), ProducerStats(id)]);
    }

    /** The first calls of deleteProducer: the producer lists and the producer's own entries. */
    method InvalidateDeletedEntries(id: int, userId: Option<int>)
      modifies cache`store
      ensures cache.store == Invalidated(old(cache.store), cache.online, [ProducerLists, ProducerEntry(id)] + UserEntry(userId))
    {
      ghost var s0 := cache.store;
      cache.InvalidatePattern("producers:*");
      InvalidatedSnoc(s0, cache.online, [], ProducerLists);
      cache.InvalidateCache("producer:" + LongText(id));
      InvalidatedSnoc(s0, cache.online, [ProducerLists], ProducerEntry(id));
      assert [ProducerLists] + [ProducerEntry(id)] == [ProducerLists, ProducerEntry(id)];
      if userId.Some? {
        cache.InvalidateCache("producer:user:" + LongText(userId.value));
        InvalidatedSnoc(s0, cache.online, [ProducerLists, ProducerEntry(id)], ProducerOfUserEntry(userId.value));
      } else {
        assert [ProducerLists, ProducerEntry(id)] + UserEntry(userId) == [ProducerLists, ProducerEntry(id)];
      }
    }

    /** The last calls of deleteProducer: the producer's product, marketplace, order and statistics keys. */
    method InvalidateDeletedListings(id: int)
      modifies cache`store
      ensures cache.store == Invalidated(old(cache.store), cache.online,
                                         [ProducerProductsList(id), ProducerMarketplaceList(id), ProducerOrders(id), ProducerStats(id)])
    {
      ghost var s0 := cache.store;
      ghost var ops: seq<Invalidation> := [];
      cache.InvalidatePattern("products:producer:" + LongText(id));
      InvalidatedSnoc(s0, cache.online, ops, ProducerProductsList(id));
      ops := ops + [ProducerProductsList(id)];
      cache.InvalidatePattern("products:marketplace:producer:" + LongText(id));
      InvalidatedSnoc(s0, cache.online, ops, ProducerMarketplaceList(id));
      ops := ops + [ProducerMarketplaceList(id)];
      cache.InvalidatePattern("orders:producer:" + LongText(id));
      InvalidatedSnoc(s0, cache.online, ops, ProducerOrders(id));
      ops := ops + [ProducerOrders(id)];
      cache.InvalidatePattern("stats:producer:" + LongText(id));
      InvalidatedSnoc(s0, cache.online, ops, ProducerStats(id));
      ops := ops + [ProducerStats(id)];
      assert ops == [ProducerProductsList(id), ProducerMarketplaceList(id), ProducerOrders(id), ProducerStats(id)];
    }

    /** approveProducer: a throw for a missing producer; otherwise the flag is set. */
    method ApproveProducer(id: int) returns (r: Result<Producer>)
      modifies db`producers, cache`store
      ensures id !in old(db.producers) ==> r.Err? && db.producers == old(db.producers) && cache.store == old(cache.store)
      ensures id in old(db.producers) ==>
                r == Ok(old(db.producers)[id].(approved := true)) && db.producers == old(db.producers)[id := r.value] &&
                cache.store == Invalidated(old(cache.store), cache.online, ApprovalOps(id, r.value.userId))
    {
      r := SetApproval(id, true);
    }

    /** rejectProducer: as approveProducer, clearing the flag. */
    method RejectProducer(id: int) returns (r: Result<Producer>)
      modifies db`producers, cache`store
      ensures id !in old(db.producers) ==> r.Err? && db.producers == old(db.producers) && cache.store == old(cache.store)
      ensures id in old(db.producers) ==>
                r == Ok(old(db.producers)[id].(approved := false)) && db.producers == old(db.producers)[id := r.value] &&
                cache.store == Invalidated(old(cache.store), cache.online, ApprovalOps(id, r.value.userId))
    {
      r := SetApproval(id, false);
    }

    /** The body approveProducer and rejectProducer share. */
    method SetApproval(id: int, approved: bool) returns (r: Result<Producer>)
      modifies db`producers, cache`store
      ensures id !in old(db.producers) ==> r.Err? && db.producers == old(db.producers) && cache.store == old(cache.store)
      ensures id in old(db.producers) ==>
                r == Ok(old(db.producers)[id].(approved := approved)) && db.producers == old(db.producers)[id := r.value] &&
                cache.store == Invalidated(old(cache.store), cache.online, ApprovalOps(id, r.value.userId))
    {
      if id !in db.producers {
        return Err("IllegalArgumentException");
      }
      var producer := db.producers[id].(approved := approved);
      db.producers := db.producers[id := producer];
      ghost var s0 := cache.store;
      ghost var ops: seq<Invalidation> := [];
      cache.InvalidatePattern("producers:*");
      InvalidatedSnoc(s0, cache.online, ops, ProducerLists);
      ops := ops + [ProducerLists];
      cache.InvalidatePattern("products:marketplace:*");
      InvalidatedSnoc(s0, cache.online, ops, MarketplaceListings);
      ops := ops + [MarketplaceListings];
      cache.InvalidateCache("producer:" + LongText(id));
      InvalidatedSnoc(s0, cache.online, ops, ProducerEntry(id));
      ops := ops + [ProducerEntry(id)];
      if producer.userId.Some? {
        cache.InvalidateCache("producer:user:" + LongText(producer.userId.value));
        InvalidatedSnoc(s0, cache.online, ops, ProducerOfUserEntry(producer.userId.value));
        ops := ops + [ProducerOfUserEntry(producer.userId.value)];
      }
      assert ops == ApprovalOps(id, producer.userId);
      r := Ok(producer);
    }
  }
}
