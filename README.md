# Marketplace cache layer and its write paths

This project models the cache layer of a Spring marketplace backend, together with the services that read through it and invalidate it.

The cache layer is a read-through Redis cache (`CacheService`):
- a read returns a decodable cached value; otherwise it runs a loader and stores a non-null answer with the lifetime of the key's entity type;
- writes drop exact keys and glob families of keys;
- every store failure is swallowed, so the application falls back to the database.

Around it the model covers:
- the cache key scheme and the invalidation calls of the product, producer and cart services;
- order creation, cancellation and the status workflow over product stock;
- the name-unique category and tag tables;
- the bearer-token helpers, the product view, and the gates of the product endpoints;
- the cache debug endpoints;
- the helpers of `Product` that keep the two sides of the product–category and product–tag associations in step;
- the order and cart mappers.

Modules, one per file:
- `Wrappers`: Option and Result.
- `Text`: `Long.toString`, `Long.parseLong`, ASCII `toLowerCase`, and Java `split(":")`.
- `Glob`: Redis `KEYS` patterns with `*` and `?`.
- `Cache`.
- `CacheKeys`: the cached reads of each service and their key texts. Each invalidation call is proved to drop exactly the reads it claims.
- `Database`: the tables, one map per table.
- `ProductService`, `ProducerService`, `CartService`, `OrderService`, `CategoryService`, `TagService`.
- `TokenUtils`, `ProductDto`, `ProductController`, `CacheDebugController`.
- `ProductEntity`: the object graph of `Product`, with link objects held in sets on both sides.
- `OrderMapper`, `CartMapper`.

How the model stands in for what it does not run:
- The store is a map from key to value text and lifetime, plus one flag for whether Redis is reachable. When it is not reachable, every store call that CacheService.java makes throws. The debug queries CacheService.java does not declare are given assumed behaviour (see "## Left out").
- A loader is given as the outcome of its first call and of its retry.
- The JSON codec is a pair of total functions, either of which may fail.
- The database is maps (tables) and sets (link tables). A `@Transactional` method either commits all its writes or, on a throw, none. Cache calls made before a commit that fails are not undone.
- The entity constraints that the services' writes can break are modelled as Hibernate Validator checks them (the `@Valid` request bodies of the controllers need that provider on the class path): `@Positive` on the cart line quantity (CartItem.java:43-44) and `@NotBlank` on the category, tag and product names (Category.java:33, Tag.java:36, Product.java:39). A new row is checked when it is inserted, which with database-generated ids happens at the save. A change to a row already in the persistence context is checked when the transaction commits, so cache calls after the save have run by then. CategoryService and TagService open no transaction, so their saves commit, and check, at once. A blank text is one made of characters up to U+0020 alone (`Database.Blank`).
- Ids the database generates are parameters that are fresh for their table.
- The JWT parser is a parameter, a function from token to e-mail.

## Model

| member | source | states |
|---|---|---|
| Cache.TtlFor | src/main/java/pe/com/prueba/plataformacontrolcomercio/service/cache/CacheService.java:32-39 | an entity type outside the table gets the one-hour default, and every lifetime lies between five minutes and two hours |
| Cache.ExtractEntityType | src/main/java/pe/com/prueba/plataformacontrolcomercio/service/cache/CacheService.java:198-200 | the entity type is missing (the split is empty and indexing it throws) exactly for a non-empty key made of ':' alone |
| Cache.ExtractEntityId | src/main/java/pe/com/prueba/plataformacontrolcomercio/service/cache/CacheService.java:202-209 | an entity id, when there is one, fits a Long; the empty key has none |
| Cache.ResolveTtl | src/main/java/pe/com/prueba/plataformacontrolcomercio/service/cache/CacheService.java:100-104 | setCache finds a lifetime for every key but one made of ':' alone, and every lifetime it finds lies between five minutes and two hours |
| Cache.TtlOfKey | src/main/java/pe/com/prueba/plataformacontrolcomercio/service/cache/CacheService.java:100-113 | setCache finds a lifetime for every key except a non-empty run of ':' (where split(":")[0] throws), and that lifetime is the one of the text before the first ':' |
| Cache.TtlOfPrefixedKey | src/main/java/pe/com/prueba/plataformacontrolcomercio/service/cache/CacheService.java:198-200 | a key "family:rest" takes the lifetime of its family, whatever follows |
| Cache.CartKeyLifetime | src/main/java/pe/com/prueba/plataformacontrolcomercio/service/cache/CacheService.java:38 | every cart key is written to live 300 seconds |
| Cache.EntityKeyLifetimes | src/main/java/pe/com/prueba/plataformacontrolcomercio/service/cache/CacheService.java:33-36 | a single product lives an hour, a single producer half an hour |
| Cache.ListKeyLifetimes | src/main/java/pe/com/prueba/plataformacontrolcomercio/service/cache/CacheService.java:102-103 | the plural families "products" and "producers" are not in the table and take the one-hour default, not the lifetime of their singular entity |
| Cache.EntityIdOfKey | src/main/java/pe/com/prueba/plataformacontrolcomercio/service/cache/CacheService.java:202-209 | a key ending in ':' and a Long yields that Long as its entity id |
| Cache.NoEntityIdOfWord | src/main/java/pe/com/prueba/plataformacontrolcomercio/service/cache/CacheService.java:202-209 | a key whose last segment is not a number yields no entity id |
| Cache.ListShapeByKey | src/main/java/pe/com/prueba/plataformacontrolcomercio/service/cache/CacheService.java:79-93 | a list read is decoded as a list of products exactly when the key contains "product", otherwise as a list of plain objects |
| Cache.LongerPartContained | src/main/java/pe/com/prueba/plataformacontrolcomercio/service/cache/CacheService.java:82 | if a key contains a text, it contains every prefix of that text |
| Cache.DecodeShape | src/main/java/pe/com/prueba/plataformacontrolcomercio/service/cache/CacheService.java:79-93 | a read is decoded as a list exactly when it asks for a list |
| Cache.ReadThrough | src/main/java/pe/com/prueba/plataformacontrolcomercio/service/cache/CacheService.java:53-76 | the loader runs at most twice, and it runs zero times exactly when the store is up and holds a decodable hit |
| Cache.HitSkipsLoader | src/main/java/pe/com/prueba/plataformacontrolcomercio/service/cache/CacheService.java:55-62 | a hit returns the decoded value, leaves the store alone and never runs the loader |
| Cache.MissRunsLoader | src/main/java/pe/com/prueba/plataformacontrolcomercio/service/cache/CacheService.java:57-70 | an absent or empty value runs the loader, and a loader that answers is what the caller sees |
| Cache.DecodeFailureIsMiss | src/main/java/pe/com/prueba/plataformacontrolcomercio/service/cache/CacheService.java:94-97 | a stored text that does not decode gives the same result and the same number of loader calls as a missing key, and the store ends the same apart from that key |
| Cache.MissStoresLoadedValue | src/main/java/pe/com/prueba/plataformacontrolcomercio/service/cache/CacheService.java:65-70 | on a miss a non-null loaded value is returned and stored under the key with the key's lifetime, after one loader call |
| Cache.NullIsNotCached | src/main/java/pe/com/prueba/plataformacontrolcomercio/service/cache/CacheService.java:66-68 | on any miss a null answer is not stored, so the next read of the key runs its loader again |
| Cache.ThrowRetriesLoader | src/main/java/pe/com/prueba/plataformacontrolcomercio/service/cache/CacheService.java:72-75 | a loader that throws is run a second time; the caller sees the second outcome, exception included, and nothing is stored |
| Cache.UnavailableStoreRunsLoaderOnce | src/main/java/pe/com/prueba/plataformacontrolcomercio/service/cache/CacheService.java:72-75 | with Redis down the read fails open: the loader runs once and the store is unchanged |
| Cache.WriteThenReadHits | src/main/java/pe/com/prueba/plataformacontrolcomercio/service/cache/CacheService.java:100-113 | a value that setCache could encode and that decodes back is the next read's hit, with no loader call |
| Cache.DroppedByElements | src/main/java/pe/com/prueba/plataformacontrolcomercio/service/cache/CacheService.java:115-135 | a sequence of invalidation calls drops a key exactly when one of its calls drops it |
| Cache.NoMatchIsNoOp | src/main/java/pe/com/prueba/plataformacontrolcomercio/service/cache/CacheService.java:127-131 | a pattern that matches no key deletes nothing |
| Cache.WithoutMatchesIdempotent | src/main/java/pe/com/prueba/plataformacontrolcomercio/service/cache/CacheService.java:124-135 | invalidating a pattern twice removes nothing more than once |
| Cache.StarEmptiesStore | src/main/java/pe/com/prueba/plataformacontrolcomercio/service/cache/CacheService.java:124-135 | invalidatePattern("*") empties the store |
| Cache.SurvivesInvalidation | src/main/java/pe/com/prueba/plataformacontrolcomercio/service/cache/CacheService.java:115-135 | with Redis up, a key survives a sequence of invalidation calls exactly when none of them drops it, and it keeps its value |
| Cache.UnavailableStoreKeepsEverything | src/main/java/pe/com/prueba/plataformacontrolcomercio/service/cache/CacheService.java:119-121 | with Redis down no invalidation has any effect; the failure is swallowed |
| Cache.InvalidatedSnoc | src/main/java/pe/com/prueba/plataformacontrolcomercio/service/cache/CacheService.java:115-135 | invalidation calls apply in order, one after the other |
| Cache.InvalidatedAppend | src/main/java/pe/com/prueba/plataformacontrolcomercio/service/cache/CacheService.java:115-135 | running one sequence of invalidation calls and then another is the same as running their concatenation |
| Cache.CacheService.constructor | src/main/java/pe/com/prueba/plataformacontrolcomercio/service/cache/CacheService.java:28 | starts from the given store and availability |
| Cache.CacheService.GetFromCache | src/main/java/pe/com/prueba/plataformacontrolcomercio/service/cache/CacheService.java:53-76 | the value returned, the number of loader calls and the new store are those of the read-through definition over the old store |
| Cache.CacheService.SetCache | src/main/java/pe/com/prueba/plataformacontrolcomercio/service/cache/CacheService.java:100-113 | the new store is the old one with the encoded value under the key and the key's lifetime; an encoding failure, a key without a lifetime, or Redis down leaves it unchanged |
| Cache.CacheService.InvalidateCache | src/main/java/pe/com/prueba/plataformacontrolcomercio/service/cache/CacheService.java:115-122 | deletes exactly the one key, or nothing when Redis is down |
| Cache.CacheService.InvalidatePattern | src/main/java/pe/com/prueba/plataformacontrolcomercio/service/cache/CacheService.java:124-135 | deletes exactly the keys the glob matches, or nothing when Redis is down |
| Cache.CacheService.IsAvailable | src/main/java/pe/com/prueba/plataformacontrolcomercio/controller/CacheDebugController.java:37 | isRedisAvailable, which CacheService.java does not declare, is assumed to be the store's availability flag, never throwing: it answers true exactly when the key and size queries succeed |
| Cache.CacheService.AllKeys | src/main/java/pe/com/prueba/plataformacontrolcomercio/controller/CacheDebugController.java:39 | getAllKeys, which CacheService.java does not declare, is assumed to throw exactly when the store is down and otherwise to answer exactly the stored keys |
| Cache.CacheService.Size | src/main/java/pe/com/prueba/plataformacontrolcomercio/controller/CacheDebugController.java:38 | getCacheSize, which CacheService.java does not declare, is assumed to throw exactly when the store is down and otherwise to answer the number of keys getAllKeys answers |
| Cache.CacheService.RawValue | src/main/java/pe/com/prueba/plataformacontrolcomercio/controller/CacheDebugController.java:67 | getCacheValue, which CacheService.java does not declare, is assumed to throw exactly when the store is down, and otherwise to answer a text exactly for a stored key, the stored text |
| Cache.WriteReadInvalidateRead | src/main/java/pe/com/prueba/plataformacontrolcomercio/service/cache/CacheService.java:53-122 | written then read, a value hits; once its key is invalidated, the next read runs the loader again and caches the new answer |
| Glob.StarMatchesAll | src/main/java/pe/com/prueba/plataformacontrolcomercio/service/cache/CacheService.java:126 | the pattern "*" matches every key |
| Glob.LiteralMatchesItself | src/main/java/pe/com/prueba/plataformacontrolcomercio/service/cache/CacheService.java:126 | a pattern without wildcards matches exactly the key spelled like it |
| Glob.PrefixStar | src/main/java/pe/com/prueba/plataformacontrolcomercio/service/cache/CacheService.java:126 | literal text followed by '*' matches exactly the keys with that prefix |
| Glob.Infix | src/main/java/pe/com/prueba/plataformacontrolcomercio/service/cache/CacheService.java:126 | "a*b" for literals a and b matches exactly the keys that start with a and end with b, without the two overlapping |
| Text.NatTextValue | src/main/java/pe/com/prueba/plataformacontrolcomercio/service/ProductService.java:78 | the decimal text of an id denotes that id |
| Text.LongTextInjective | src/main/java/pe/com/prueba/plataformacontrolcomercio/service/ProductService.java:78 | distinct ids give distinct key texts |
| Text.ParseLongText | src/main/java/pe/com/prueba/plataformacontrolcomercio/service/cache/CacheService.java:205 | parsing the text of a Long gives that Long back |
| Text.LowerIdempotent | src/main/java/pe/com/prueba/plataformacontrolcomercio/service/ProductService.java:86 | lower-casing a search name twice changes nothing more |
| Text.JavaSplitHead | src/main/java/pe/com/prueba/plataformacontrolcomercio/service/cache/CacheService.java:198-200 | split(":") is empty, so that indexing it throws, exactly for a non-empty run of ':'; otherwise its first element is the text before the first ':' |
| Text.JavaSplitLast | src/main/java/pe/com/prueba/plataformacontrolcomercio/service/cache/CacheService.java:204-205 | split(":") of a key that ends in ':' and a non-empty word ends with that word |
| Text.PiecesConcat | src/main/java/pe/com/prueba/plataformacontrolcomercio/service/cache/CacheService.java:204 | splitting around one ':' splits each side on its own |
| CacheKeys.AllProductsListDrops | src/main/java/pe/com/prueba/plataformacontrolcomercio/service/ProductService.java:141 | the pattern "products:all" drops the list of all products and no other cached read |
| CacheKeys.ProducerProductsListDrops | src/main/java/pe/com/prueba/plataformacontrolcomercio/service/ProductService.java:142 | "products:producer:P" drops that producer's product list only |
| CacheKeys.ProductEntryDrops | src/main/java/pe/com/prueba/plataformacontrolcomercio/service/ProductService.java:169 | "product:ID" drops that one cached product only |
| CacheKeys.ProducerEntryDrops | src/main/java/pe/com/prueba/plataformacontrolcomercio/service/ProducerService.java:74 | "producer:ID" drops that one cached producer only |
| CacheKeys.ProducerOfUserEntryDrops | src/main/java/pe/com/prueba/plataformacontrolcomercio/service/ProducerService.java:79-81 | "producer:user:U" drops exactly the cached producer of that user, and no producer cached by id |
| CacheKeys.ProductSearchesDrop | src/main/java/pe/com/prueba/plataformacontrolcomercio/service/ProductService.java:143 | "products:search:*" drops every search by product name or by producer name, and nothing else |
| CacheKeys.CombinedFiltersDrop | src/main/java/pe/com/prueba/plataformacontrolcomercio/service/ProductService.java:226 | "products:complex:*" drops every combined category-and-tag listing, and nothing else |
| CacheKeys.MarketplaceListingsDrop | src/main/java/pe/com/prueba/plataformacontrolcomercio/service/ProducerService.java:83 | "products:marketplace:*" drops every producer's marketplace listing, and nothing else |
| CacheKeys.ProducerMarketplaceListDrops | src/main/java/pe/com/prueba/plataformacontrolcomercio/service/ProducerService.java:111 | "products:marketplace:producer:P" drops that producer's marketplace listing only |
| CacheKeys.ProducerListsDrop | src/main/java/pe/com/prueba/plataformacontrolcomercio/service/ProducerService.java:73 | "producers:*" drops every producer listing and count but no single producer, and, of the product reads, only the approved-producers-with-stock list |
| CacheKeys.ProducerOrdersDropNothing | src/main/java/pe/com/prueba/plataformacontrolcomercio/service/ProducerService.java:112 | "orders:producer:P" matches no read the cache holds |
| CacheKeys.ProducerStatsDropNothing | src/main/java/pe/com/prueba/plataformacontrolcomercio/service/ProducerService.java:113 | "stats:producer:P" matches no read the cache holds |
| CacheKeys.CategoryListingsDrop | src/main/java/pe/com/prueba/plataformacontrolcomercio/service/ProductService.java:225 | "products:category:C*" drops the category listings, with or without a producer, of exactly the categories whose id is written starting with C's digits |
| CacheKeys.TagListingsDrop | src/main/java/pe/com/prueba/plataformacontrolcomercio/service/ProductService.java:290 | "products:tag:T*" drops the tag listings of exactly the tags whose id is written starting with T's digits |
| CacheKeys.UserCartDrops | src/main/java/pe/com/prueba/plataformacontrolcomercio/service/cart/CartService.java:121 | "cart:*:user:U" drops exactly the cart reads (items, count, total) of user U, and no other user's, even one whose id extends U's digits |
| CacheKeys.SearchKeysCollide | src/main/java/pe/com/prueba/plataformacontrolcomercio/service/ProductService.java:86-93 | a name search whose lower-cased name ends in ":producer:P" shares its key with the search for the rest of the name within producer P |
| CacheKeys.ApprovedWithStockKeyShared | src/main/java/pe/com/prueba/plataformacontrolcomercio/service/ProductService.java:337 | ProductService and ProducerService cache their approved-producers-with-stock lists under one key |
| CacheKeys.CategoryGlobReachesLongerIds | src/main/java/pe/com/prueba/plataformacontrolcomercio/service/ProductService.java:225 | invalidating the listings of category 1 also drops those of category 12 |
| ProductService.Row | src/main/java/pe/com/prueba/plataformacontrolcomercio/mapper/ProductMapper.java:30-68 | the row built from a product request carries its name, description, quantity and the resolved producer |
| ProductService.LinksWithoutProduct | src/main/java/pe/com/prueba/plataformacontrolcomercio/model/Product.java:57-63 | exactly the link rows of other products survive the removal of a product's orphans |
| ProductService.Relinked | src/main/java/pe/com/prueba/plataformacontrolcomercio/mapper/ProductMapper.java:30-68 | after a rebuilt entity is saved, a link row exists exactly when it belongs to another product, or names an existing row listed in the request |
| ProductService.CreateDrops | src/main/java/pe/com/prueba/plataformacontrolcomercio/service/ProductService.java:141-143 | createProduct drops exactly the full list, the producer's list and every search; all other reads keep their value |
| ProductService.CreateWithIdLeavesOverwrittenRowStale | src/main/java/pe/com/prueba/plataformacontrolcomercio/service/ProductService.java:127-147 | a create that writes over an existing product (the request's id is copied into the entity, src/main/java/pe/com/prueba/plataformacontrolcomercio/mapper/ProductMapper.java:33) leaves that product's cached entry, and the cached list of its former producer, as they were |
| ProductService.UpdateDrops | src/main/java/pe/com/prueba/plataformacontrolcomercio/service/ProductService.java:169-172 | updateProduct and deleteProduct drop, in addition, the cached product itself, and nothing more |
| ProductService.ProductWritesLeaveListingsStale | src/main/java/pe/com/prueba/plataformacontrolcomercio/service/ProductService.java:188-191 | after a product write, cached category, tag, combined-filter and marketplace listings keep their old value |
| ProductService.CategoryLinkDrops | src/main/java/pe/com/prueba/plataformacontrolcomercio/service/ProductService.java:224-226 | a category link change drops exactly the product entry, the listings of categories whose id starts with the category's digits, and the combined filters |
| ProductService.TagLinkDrops | src/main/java/pe/com/prueba/plataformacontrolcomercio/service/ProductService.java:289-291 | a tag link change drops exactly the product entry, the listings of tags whose id starts with the tag's digits, and the combined filters |
| ProductService.CategoryLinkLeavesProductListsStale | src/main/java/pe/com/prueba/plataformacontrolcomercio/service/ProductService.java:252-254 | a category link change leaves the cached full list and producer list with their old value |
| ProductService.ProductService.constructor | src/main/java/pe/com/prueba/plataformacontrolcomercio/service/ProductService.java:33-40 | binds the tables and the cache |
| ProductService.ProductService.GetProductById | src/main/java/pe/com/prueba/plataformacontrolcomercio/service/ProductService.java:76-82 | the outcome and the new store are the read-through of "product:ID" with the row as loader; a missing row without a hit is null and caches nothing |
| ProductService.ProductService.CreateProduct | src/main/java/pe/com/prueba/plataformacontrolcomercio/service/ProductService.java:127-147 | a missing producer throws and changes nothing; a blank name (Product.java:39) throws and changes no table, and the create invalidations still apply when the row saved over already existed (its check waits for the commit), not when the row is new (checked at the insert); otherwise the row is saved under the request's own id when it carries one (writing over any row there and replacing its links) or else under the fresh id, its links made, and the create invalidations applied; stored names stay non-blank |
| ProductService.ProductService.UpdateProduct | src/main/java/pe/com/prueba/plataformacontrolcomercio/service/ProductService.java:149-177 | empty for a missing product, a throw for another producer's product, both with no change; a blank name (Product.java:39) throws at the commit, so no table changes but the update invalidations apply; otherwise the row and its links are replaced and the update invalidations applied; stored names stay non-blank |
| ProductService.ProductService.InvalidateCreated | src/main/java/pe/com/prueba/plataformacontrolcomercio/service/ProductService.java:141-143 | applies the three invalidation calls of a create, in order |
| ProductService.ProductService.InvalidateUpdated | src/main/java/pe/com/prueba/plataformacontrolcomercio/service/ProductService.java:169-172 | applies the four invalidation calls of an update or a delete, in order |
| ProductService.ProductService.DeleteProduct | src/main/java/pe/com/prueba/plataformacontrolcomercio/service/ProductService.java:179-196 | false for a missing product, a throw for another producer's, both changing nothing; otherwise the row and its links go and the update invalidations apply; stored names stay non-blank |
| ProductService.ProductService.AddCategoryToProduct | src/main/java/pe/com/prueba/plataformacontrolcomercio/service/ProductService.java:198-230 | false when either row is missing; a throw for another producer's product; true with the link present afterwards, written and invalidated only when it was new |
| ProductService.ProductService.RemoveCategoryFromProduct | src/main/java/pe/com/prueba/plataformacontrolcomercio/service/ProductService.java:232-261 | true exactly when the link existed, in which case it is removed and the link invalidations apply; otherwise nothing changes |
| ProductService.ProductService.InvalidateCategoryLink | src/main/java/pe/com/prueba/plataformacontrolcomercio/service/ProductService.java:224-226 | applies the three invalidation calls of a category link change, in order |
| ProductService.ProductService.AddTagToProduct | src/main/java/pe/com/prueba/plataformacontrolcomercio/service/ProductService.java:263-295 | as for categories, over the tag links |
| ProductService.ProductService.RemoveTagFromProduct | src/main/java/pe/com/prueba/plataformacontrolcomercio/service/ProductService.java:297-326 | true exactly when the tag link existed, which is then removed and invalidated; otherwise nothing changes |
| ProductService.ProductService.InvalidateTagLink | src/main/java/pe/com/prueba/plataformacontrolcomercio/service/ProductService.java:289-291 | applies the three invalidation calls of a tag link change, in order |
| ProducerService.SaveDrops | src/main/java/pe/com/prueba/plataformacontrolcomercio/service/ProducerService.java:73-83 | saveProducer drops exactly the producer lists and counts, the approved-with-stock list, the producer's entry, its user's entry when it has a user, and every marketplace listing |
| ProducerService.ApprovalDrops | src/main/java/pe/com/prueba/plataformacontrolcomercio/service/ProducerService.java:155-163 | approving or rejecting drops exactly what a save drops |
| ProducerService.ApprovalLeavesProducerNameSearchesStale | src/main/java/pe/com/prueba/plataformacontrolcomercio/service/ProducerService.java:155-163 | a cached search by producer name, which lists only approved producers' products, survives an approval or rejection with its old value |
| ProducerService.DeleteDrops | src/main/java/pe/com/prueba/plataformacontrolcomercio/service/ProducerService.java:99-113 | deleteProducer drops exactly the producer lists, the approved-with-stock list, the producer's and its user's entries, its product list and its marketplace listing |
| ProducerService.DeleteLeavesProductEntriesStale | src/main/java/pe/com/prueba/plataformacontrolcomercio/service/ProducerService.java:99-113 | after a producer is deleted, cached single products, the full product list and every product search keep their old value |
| ProducerService.ProducerOfUserLoad | src/main/java/pe/com/prueba/plataformacontrolcomercio/service/ProducerService.java:54-64 | findByUserId gives null exactly when the user has no producer, and a found producer is one of the user's |
| ProducerService.ProducerService.constructor | src/main/java/pe/com/prueba/plataformacontrolcomercio/service/ProducerService.java:20-21 | binds the tables and the cache |
| ProducerService.ProducerService.RowLoader | src/main/java/pe/com/prueba/plataformacontrolcomercio/service/ProducerService.java:47-50 | the loader of getProducerById answers the same on its retry, and is non-null exactly for an existing id |
| ProducerService.ProducerService.GetProducerById | src/main/java/pe/com/prueba/plataformacontrolcomercio/service/ProducerService.java:43-52 | the outcome and the new store are the read-through of "producer:ID"; a missing producer without a hit is null and caches nothing |
| ProducerService.ProducerService.FindByUserId | src/main/java/pe/com/prueba/plataformacontrolcomercio/service/ProducerService.java:54-64 | the read-through of "producer:user:U"; a user with two producers makes the caller see the exception, with nothing cached |
| ProducerService.ProducerService.SaveProducer | src/main/java/pe/com/prueba/plataformacontrolcomercio/service/ProducerService.java:66-88 | the row is written under its own id or the fresh one, and the save invalidations for that id and user apply |
| ProducerService.ProducerService.DeleteProducer | src/main/java/pe/com/prueba/plataformacontrolcomercio/service/ProducerService.java:90-116 | the row goes; the user entry dropped is that of the producer the cached lookup returned; the producer's entry is gone afterwards |
| ProducerService.ProducerService.InvalidateDeleted | src/main/java/pe/com/prueba/plataformacontrolcomercio/service/ProducerService.java:99-113 | applies the seven invalidation calls of a delete, in order |
| ProducerService.ProducerService.InvalidateDeletedEntries | src/main/java/pe/com/prueba/plataformacontrolcomercio/service/ProducerService.java:99-108 | the producer lists, the producer's entry and, when the lookup found a user, that user's producer entry are dropped, in that order |
| ProducerService.ProducerService.InvalidateDeletedListings | src/main/java/pe/com/prueba/plataformacontrolcomercio/service/ProducerService.java:110-113 | the producer's product list, marketplace list, order and statistics globs are applied, in that order |
| ProducerService.ProducerService.ApproveProducer | src/main/java/pe/com/prueba/plataformacontrolcomercio/service/ProducerService.java:144-167 | a missing producer throws and changes nothing; otherwise the flag is set and the approval invalidations apply |
| ProducerService.ProducerService.RejectProducer | src/main/java/pe/com/prueba/plataformacontrolcomercio/service/ProducerService.java:169-192 | a missing producer throws and changes nothing; otherwise the flag is cleared and the approval invalidations apply |
| ProducerService.ProducerService.SetApproval | src/main/java/pe/com/prueba/plataformacontrolcomercio/service/ProducerService.java:146-163 | the body both share: the given flag, under the same error case and invalidations |
| CartService.JavaIntAdd | src/main/java/pe/com/prueba/plataformacontrolcomercio/service/cart/CartService.java:98 | Java int addition always lies in the int range and is the exact sum whenever that sum fits |
| CartService.MergeAsWritten | src/main/java/pe/com/prueba/plataformacontrolcomercio/service/cart/CartService.java:98-104 | the merge as written yields an int within stock whenever it passes, and agrees with the exact-sum check whenever the sum fits in an int |
| CartService.Merge | src/main/java/pe/com/prueba/plataformacontrolcomercio/service/cart/CartService.java:98-104 | a repeated add is rejected exactly when the combined quantity exceeds the stock; otherwise the line holds that combined quantity |
| CartService.MergeAgreesWithoutOverflow | src/main/java/pe/com/prueba/plataformacontrolcomercio/service/cart/CartService.java:98-104 | the check as written and the intended one agree whenever the sum fits in an int |
| CartService.WrappedMergeIsNegative | src/main/java/pe/com/prueba/plataformacontrolcomercio/service/cart/CartService.java:98-104 | as written, every add whose int sum of two positive quantities overflows passes the stock check of any non-negative stock with a negative line quantity, which the entity's @Positive refuses only at the commit; the intended check rejects it for every stock an int holds |
| CartService.MergeWrapsPastStockCheck | src/main/java/pe/com/prueba/plataformacontrolcomercio/service/cart/CartService.java:98-104 | the input of the finding below: the check as written accepts the wrapped quantity -294967296, which the @Positive constraint then refuses at the commit, while the intended check rejects the add up front |
| CartService.AddedWithinStock | src/main/java/pe/com/prueba/plataformacontrolcomercio/service/cart/CartService.java:73-125 | after a successful add, the user's line for the product is within the product's stock |
| CartService.Added | src/main/java/pe/com/prueba/plataformacontrolcomercio/service/cart/CartService.java:73-125 | a failed add leaves the cart table unchanged; a successful one answers the id of a line of the user for the product, with a positive quantity, and changes no other line; the user's cart reads are invalidated exactly on success or when a merged line breaks the @Positive constraint (CartItem.java:43-44), which is checked only at the commit |
| CartService.AddedQuantity | src/main/java/pe/com/prueba/plataformacontrolcomercio/service/cart/CartService.java:94-117 | a failed add changes no line; a successful one either raises the user's one line for the product by the added quantity or makes a new line of that quantity under the fresh id, and changes nothing else |
| CartService.AddedErrors | src/main/java/pe/com/prueba/plataformacontrolcomercio/service/cart/CartService.java:80-90 | an add fails exactly for a missing user or product, an added quantity over stock, two lines for the pair, a new line whose quantity is not positive, or a merge whose combined quantity exceeds the stock or is not positive |
| CartService.PositiveAddPassesEntityCheck | src/main/java/pe/com/prueba/plataformacontrolcomercio/service/cart/CartService.java:94-121 | with stored lines positive and a positive added quantity (what the request body's @Positive demands), the entity constraint never refuses an add, and the cart reads are invalidated exactly when the add succeeds |
| CartService.AddedKeepsCartWithinStock | src/main/java/pe/com/prueba/plataformacontrolcomercio/service/cart/CartService.java:73-125 | if every cart line was within its product's stock before an add, every line still is |
| CartService.AddedKeepsLinesPositive | src/main/java/pe/com/prueba/plataformacontrolcomercio/service/cart/CartService.java:94-119 | if every cart line was positive before an add, every line still is |
| CartService.CartWriteDropsOnlyUsersCart | src/main/java/pe/com/prueba/plataformacontrolcomercio/service/cart/CartService.java:121 | a cart write drops exactly that user's cart reads; every other read keeps its value |
| CartService.CartService.constructor | src/main/java/pe/com/prueba/plataformacontrolcomercio/service/cart/CartService.java:28-32 | binds the tables and the cache |
| CartService.CartService.AddToCart | src/main/java/pe/com/prueba/plataformacontrolcomercio/service/cart/CartService.java:73-125 | the outcome and the cart table are the add definition, with the corrected exact-sum merge check; the user's cart reads are invalidated exactly when that definition says so (on success, and when a merged line fails the @Positive check at the commit); cart lines stay within stock and positive |
| CartService.CartService.UpdateCartItem | src/main/java/pe/com/prueba/plataformacontrolcomercio/service/cart/CartService.java:127-157 | a missing line, another user's line or a quantity over stock throws and changes nothing; a quantity that is not positive passes those checks and is refused by @Positive (CartItem.java:43-44) at the commit, so the line is unchanged but the user's cart reads are invalidated; the user's own line with a positive quantity within stock always succeeds, the line then gets the quantity and the user's cart reads are invalidated; lines stay within stock and positive |
| CartService.CartService.RemoveFromCart | src/main/java/pe/com/prueba/plataformacontrolcomercio/service/cart/CartService.java:159-183 | false for a missing line, a throw for another user's line, both changing nothing; otherwise the line goes and the user's cart reads are invalidated; lines stay positive |
| CartService.CartService.ClearCart | src/main/java/pe/com/prueba/plataformacontrolcomercio/service/cart/CartService.java:185-194 | removes exactly the user's lines and invalidates exactly the user's cart reads; lines stay positive |
| Database.CartsWithoutUser | src/main/java/pe/com/prueba/plataformacontrolcomercio/service/cart/CartService.java:191 | deleteByUserId leaves exactly the other users' lines, unchanged |
| Database.Tables.constructor | src/main/java/pe/com/prueba/plataformacontrolcomercio/service/cart/CartService.java:28-30 | every table starts empty |
| OrderService.Stage | src/main/java/pe/com/prueba/plataformacontrolcomercio/service/order/OrderService.java:367-383 | every status has a position along the lifecycle |
| OrderService.TransitionsMoveForward | src/main/java/pe/com/prueba/plataformacontrolcomercio/service/order/OrderService.java:367-383 | every allowed transition moves strictly forward, so no status recurs, and the final statuses are exactly DELIVERED and CANCELLED |
| OrderService.IsValidStatusTransition | src/main/java/pe/com/prueba/plataformacontrolcomercio/service/order/OrderService.java:367-383 | an allowed transition never leaves DELIVERED or CANCELLED and always moves forward along the lifecycle |
| OrderService.CancellableIffTableAllows | src/main/java/pe/com/prueba/plataformacontrolcomercio/service/order/OrderService.java:156-159 | the statuses cancelOrder accepts are exactly those the table lets move to CANCELLED |
| OrderService.DeliverableIffTableAllows | src/main/java/pe/com/prueba/plataformacontrolcomercio/service/order/OrderService.java:439-442 | confirmDelivery accepts exactly the status the table lets move to DELIVERED |
| OrderService.ReserveTakesDemand | src/main/java/pe/com/prueba/plataformacontrolcomercio/service/order/OrderService.java:80-97 | a successful reservation takes each product's whole demand off its stock and touches no other product |
| OrderService.ReserveAsWritten | src/main/java/pe/com/prueba/plataformacontrolcomercio/service/order/OrderService.java:75-97 | the stock loop as written succeeds only when every line names an existing product, and then keeps the same products |
| OrderService.Reserve | src/main/java/pe/com/prueba/plataformacontrolcomercio/service/order/OrderService.java:75-97 | the intended stock loop succeeds only when every line is positive and names an existing product, and then keeps the same products |
| OrderService.Release | src/main/java/pe/com/prueba/plataformacontrolcomercio/service/order/OrderService.java:163-166 | the stock loop of cancelOrder keeps the same products |
| OrderService.ReleaseGivesDemand | src/main/java/pe/com/prueba/plataformacontrolcomercio/service/order/OrderService.java:162-166 | cancelling gives each product its whole demand back and touches no other product |
| OrderService.CancelRestoresStock | src/main/java/pe/com/prueba/plataformacontrolcomercio/service/order/OrderService.java:80-97 | cancelling an order puts back exactly the stock that creating it took |
| OrderService.DemandOfPositive | src/main/java/pe/com/prueba/plataformacontrolcomercio/service/order/OrderService.java:80-97 | with positive line quantities a product's demand is never negative, and positive when some line names it |
| OrderService.DemandFitsStep | src/main/java/pe/com/prueba/plataformacontrolcomercio/service/order/OrderService.java:80-97 | after one line passes the stock check, the rest fits what is left exactly when the whole list fits |
| OrderService.ReserveSucceedsIff | src/main/java/pe/com/prueba/plataformacontrolcomercio/service/order/OrderService.java:80-97 | the intended stock loop succeeds exactly when every line is positive, every named product exists and each has at least the order's total demand for it |
| OrderService.ReserveIsCheckedLoop | src/main/java/pe/com/prueba/plataformacontrolcomercio/service/order/OrderService.java:80-97 | the intended stock loop is the loop as written behind a check that every line quantity is positive |
| OrderService.ReserveAsWrittenAcceptsNegativeLine | src/main/java/pe/com/prueba/plataformacontrolcomercio/service/order/OrderService.java:80-97 | a product with no stock and a line of -5 passes the loop as written and ends with stock 5; the intended loop rejects it |
| OrderService.ReserveLeavesNoNegativeStock | src/main/java/pe/com/prueba/plataformacontrolcomercio/service/order/OrderService.java:80-97 | after a successful reservation no product an order line names has negative stock |
| OrderService.NoLineNoDemand | src/main/java/pe/com/prueba/plataformacontrolcomercio/service/order/OrderService.java:80-97 | a product no line names has no demand |
| OrderService.OrderOfUser | src/main/java/pe/com/prueba/plataformacontrolcomercio/service/order/OrderService.java:122-137 | an order is returned exactly when it exists and belongs to the user |
| OrderService.StatsWithinTotal | src/main/java/pe/com/prueba/plataformacontrolcomercio/service/order/OrderService.java:177-200 | the pending, completed and cancelled counts never add up to more than the total |
| OrderService.CountStatus | src/main/java/pe/com/prueba/plataformacontrolcomercio/service/order/OrderService.java:178-200 | a status count never exceeds the number of orders, and is zero exactly when no order has that status |
| OrderService.StatsOf | src/main/java/pe/com/prueba/plataformacontrolcomercio/service/order/OrderService.java:178-200 | the total is the number of the user's orders, and each of the three counts is at most the total |
| OrderService.OrderService.constructor | src/main/java/pe/com/prueba/plataformacontrolcomercio/service/order/OrderService.java:33-37 | binds the tables |
| OrderService.OrderService.CreateOrder | src/main/java/pe/com/prueba/plataformacontrolcomercio/service/order/OrderService.java:52-110 | a missing user, a line that is not positive (the corrected check) or a line that does not fit throws and changes nothing; otherwise the stock is reserved, the order stored as PENDING under the fresh id, and the user's cart emptied |
| OrderService.OrderService.CancelOrder | src/main/java/pe/com/prueba/plataformacontrolcomercio/service/order/OrderService.java:139-175 | empty for a missing order; a throw for another user's order or a status past CONFIRMED; otherwise CANCELLED with the stock released |
| OrderService.OrderService.ConfirmDelivery | src/main/java/pe/com/prueba/plataformacontrolcomercio/service/order/OrderService.java:423-450 | empty for a missing order; the owner may move a SHIPPED order to DELIVERED; every other case throws and changes nothing |
| OrderService.OrderService.UpdateOrderStatus | src/main/java/pe/com/prueba/plataformacontrolcomercio/service/order/OrderService.java:212-238 | empty for a missing order; any status once some line is the producer's, with no transition check; otherwise a throw |
| OrderService.OrderService.UpdateOrderStatusByProducer | src/main/java/pe/com/prueba/plataformacontrolcomercio/service/order/OrderService.java:272-305 | as updateOrderStatus, but only along the transition table; any other change throws and changes nothing |
| OrderService.OrderService.GetOrderByIdAndUserId | src/main/java/pe/com/prueba/plataformacontrolcomercio/service/order/OrderService.java:122-137 | the order of the user, as the lookup definition gives it |
| CategoryService.LinksWithout | src/main/java/pe/com/prueba/plataformacontrolcomercio/service/CategoryService.java:69-75 | exactly the links of other categories survive a delete |
| CategoryService.CategoryService.constructor | src/main/java/pe/com/prueba/plataformacontrolcomercio/service/CategoryService.java:15 | binds the tables |
| CategoryService.CategoryService.CreateCategory | src/main/java/pe/com/prueba/plataformacontrolcomercio/service/CategoryService.java:42-51 | a taken name throws and changes nothing; a free but blank name (Category.java:33) is refused by the entity constraint when the save commits, and changes nothing; otherwise the category is saved under the request's id when it carries one, or else under the fresh id; an overwritten category loses its product links (orphan removal on its link set); names stay unique and non-blank, and the saved name is then taken, so a second create with it throws |
| CategoryService.CategoryService.UpdateCategory | src/main/java/pe/com/prueba/plataformacontrolcomercio/service/CategoryService.java:53-67 | empty for a missing id; a rename onto another row's name throws; a blank name (Category.java:33) throws at the save; each throw changes nothing; otherwise the row takes the new name and description; names stay unique and non-blank |
| CategoryService.CategoryService.DeleteCategory | src/main/java/pe/com/prueba/plataformacontrolcomercio/service/CategoryService.java:69-75 | true exactly when the id existed; the row goes together with its product links; names stay unique and non-blank |
| TagService.LinksWithout | src/main/java/pe/com/prueba/plataformacontrolcomercio/service/TagService.java:69-75 | exactly the links of other tags survive a delete |
| TagService.TagService.constructor | src/main/java/pe/com/prueba/plataformacontrolcomercio/service/TagService.java:15 | binds the tables |
| TagService.TagService.CreateTag | src/main/java/pe/com/prueba/plataformacontrolcomercio/service/TagService.java:43-52 | a taken name throws and changes nothing; a free but blank name (Tag.java:36) is refused by the entity constraint when the save commits, and changes nothing; otherwise the tag is saved under the request's id when it carries one, or else under the fresh id; an overwritten tag loses its product links (orphan removal on its link set); names stay unique and non-blank, and the saved name is then taken, so a second create with it throws |
| TagService.TagService.UpdateTag | src/main/java/pe/com/prueba/plataformacontrolcomercio/service/TagService.java:54-67 | empty for a missing id; a rename onto another row's name throws; a blank name (Tag.java:36) throws at the save; each throw changes nothing; otherwise the row is updated; names stay unique and non-blank |
| TagService.TagService.DeleteTag | src/main/java/pe/com/prueba/plataformacontrolcomercio/service/TagService.java:69-75 | true exactly when the id existed; the row goes together with its product links; names stay unique and non-blank |
| TokenUtils.ExtractToken | src/main/java/pe/com/prueba/plataformacontrolcomercio/util/TokenUtils.java:166-177 | a token exists exactly when the header starts with "Bearer ", and the header is that prefix followed by the token |
| TokenUtils.ExtractTokenOfBearer | src/main/java/pe/com/prueba/plataformacontrolcomercio/util/TokenUtils.java:169-176 | prefixing a token with "Bearer " and extracting it gives the token back |
| TokenUtils.UserByEmail | src/main/java/pe/com/prueba/plataformacontrolcomercio/util/TokenUtils.java:96-122 | findByEmail finds the one user with the e-mail, nothing exactly when none has it, and throws exactly when two users have it |
| TokenUtils.ProducerByUser | src/main/java/pe/com/prueba/plataformacontrolcomercio/util/TokenUtils.java:72-79 | findByUserId finds the user's one producer, nothing exactly when the user has none, and throws exactly when the user has two |
| TokenUtils.UserIdFromRequest | src/main/java/pe/com/prueba/plataformacontrolcomercio/util/TokenUtils.java:96-122 | a user id comes only from a bearer token whose e-mail is that user's; a bearer token whose e-mail belongs to exactly one user always gives that user's id, and one whose e-mail two users hold gives null |
| TokenUtils.RoleFromRequest | src/main/java/pe/com/prueba/plataformacontrolcomercio/util/TokenUtils.java:131-157 | a role is answered exactly when the request names a user with a role, and it is that role |
| TokenUtils.ProducerIdFromRequest | src/main/java/pe/com/prueba/plataformacontrolcomercio/util/TokenUtils.java:47-87 | a producer id is answered only for a request whose user resolves and has the role ROLE_PRODUCER, and it names a producer row of that user |
| TokenUtils.NoTokenNoIdentity | src/main/java/pe/com/prueba/plataformacontrolcomercio/util/TokenUtils.java:166-177 | without a bearer token every helper answers null |
| TokenUtils.ProducerIdIff | src/main/java/pe/com/prueba/plataformacontrolcomercio/util/TokenUtils.java:47-87 | a producer id is answered exactly when the request's user has the role ROLE_PRODUCER and exactly one producer row, with that id |
| TokenUtils.ProducerIdOwnedByRequestUser | src/main/java/pe/com/prueba/plataformacontrolcomercio/util/TokenUtils.java:72-79 | a producer id answered belongs to a producer row of the request's user |
| CacheDebugController.Shown | src/main/java/pe/com/prueba/plataformacontrolcomercio/controller/CacheDebugController.java:70-72 | the shown value is at most the first 500 characters of the value, followed by "..." whether or not anything was cut |
| CacheDebugController.ShownIsValueIff | src/main/java/pe/com/prueba/plataformacontrolcomercio/controller/CacheDebugController.java:70-72 | the shown value equals the stored one only for a 503-character value ending in "..." |
| CacheDebugController.KeyViewOf | src/main/java/pe/com/prueba/plataformacontrolcomercio/controller/CacheDebugController.java:59-81 | the key view is an error exactly when the lookup threw; otherwise it says whether a value exists, shows it cut short, and gives its full length |
| CacheDebugController.StatusOf | src/main/java/pe/com/prueba/plataformacontrolcomercio/controller/CacheDebugController.java:30-57 | the status is an error exactly when some query threw; otherwise "FUNCIONANDO" exactly when available and "NO DISPONIBLE" exactly when not |
| CacheDebugController.CacheDebugController.constructor | src/main/java/pe/com/prueba/plataformacontrolcomercio/controller/CacheDebugController.java:23 | binds the cache |
| CacheDebugController.CacheDebugController.GetCacheStatus | src/main/java/pe/com/prueba/plataformacontrolcomercio/controller/CacheDebugController.java:30-57 | an error exactly when Redis is down; otherwise the key count and keys of the store, working |
| CacheDebugController.CacheDebugController.GetCacheKey | src/main/java/pe/com/prueba/plataformacontrolcomercio/controller/CacheDebugController.java:59-81 | a key view exactly when Redis is up; it exists exactly when the key is stored, with the stored text's length |
| CacheDebugController.CacheDebugController.ClearAllCache | src/main/java/pe/com/prueba/plataformacontrolcomercio/controller/CacheDebugController.java:83-108 | with Redis up the store ends empty and the answer is the number of keys before; with it down an error, with the store unchanged |
| ProductDto.InventoryStatus | src/main/java/pe/com/prueba/plataformacontrolcomercio/dto/ProductDTO.java:74-86 | sold out exactly for null or zero, low stock exactly below ten otherwise (negatives included), in stock exactly from ten |
| ProductDto.CategoryIds | src/main/java/pe/com/prueba/plataformacontrolcomercio/dto/ProductDTO.java:63-65 | exactly the ids of the linked categories |
| ProductDto.TagIdSet | src/main/java/pe/com/prueba/plataformacontrolcomercio/dto/ProductDTO.java:70-71 | exactly the linked tag ids |
| ProductDto.ToView | src/main/java/pe/com/prueba/plataformacontrolcomercio/dto/ProductDTO.java:37-72 | the view copies the scalars, shows the quantity as stock and active, derives the status, falls back to the placeholder image, takes producer fields only from a producer, the id sets of the links, and "Sin categoría" exactly when there is no link or the first is so named |
| ProductDto.ViewIdsIgnoreOrder | src/main/java/pe/com/prueba/plataformacontrolcomercio/dto/ProductDTO.java:63-71 | reordering the link sets changes no field of the view except the category name |
| ProductController.AllProducts | src/main/java/pe/com/prueba/plataformacontrolcomercio/controller/ProductController.java:48-63 | all products exactly for ROLE_ADMIN, 403 otherwise |
| ProductController.MyProducts | src/main/java/pe/com/prueba/plataformacontrolcomercio/controller/ProductController.java:65-81 | 403 exactly without a producer; otherwise that producer's product list |
| ProductController.Filter | src/main/java/pe/com/prueba/plataformacontrolcomercio/controller/ProductController.java:151-187 | 403 exactly without a producer; neither list gives the producer's products, categories only the first category, tags only the first tag, both the combined query |
| ProductController.FilterStaysWithinProducer | src/main/java/pe/com/prueba/plataformacontrolcomercio/controller/ProductController.java:164-186 | every read the filter endpoint makes is restricted to the caller's own producer |
| ProductController.FilterUsesOnlyFirstId | src/main/java/pe/com/prueba/plataformacontrolcomercio/controller/ProductController.java:170-182 | with one list only, ids after the first are ignored, and an empty list counts as no list |
| ProductController.OwnProduct | src/main/java/pe/com/prueba/plataformacontrolcomercio/controller/ProductController.java:83-103 | 403 exactly without a producer; the product exactly when it exists and is the caller's; 404 otherwise |
| ProductController.InStock | src/main/java/pe/com/prueba/plataformacontrolcomercio/controller/ProductController.java:365 | a product is listed exactly when it is among the rows and has stock |
| ProductController.InStockOfConcat | src/main/java/pe/com/prueba/plataformacontrolcomercio/controller/ProductController.java:365 | the stock filter keeps the listing's order: it filters a concatenation part by part |
| ProductController.InStockKeepsStockedList | src/main/java/pe/com/prueba/plataformacontrolcomercio/controller/ProductController.java:365 | a list already in stock passes the filter unchanged |
| ProductController.InStockIdempotent | src/main/java/pe/com/prueba/plataformacontrolcomercio/controller/ProductController.java:365 | filtering twice is filtering once |
| ProductController.InStockNeverSoldOut | src/main/java/pe/com/prueba/plataformacontrolcomercio/controller/ProductController.java:365 | no product a marketplace listing shows is sold out in its product view |
| ProductController.MarketplaceSource | src/main/java/pe/com/prueba/plataformacontrolcomercio/controller/ProductController.java:359-468 | only the producer's marketplace endpoint reads producer-restricted data, and it reads that producer's |
| ProductController.Marketplace | src/main/java/pe/com/prueba/plataformacontrolcomercio/controller/ProductController.java:359-468 | each listing is its service read filtered to the products with stock |
| ProductController.MarketplaceProduct | src/main/java/pe/com/prueba/plataformacontrolcomercio/controller/ProductController.java:372-387 | the product exactly when it exists and has stock; 404 otherwise |
| ProductController.MarketplaceProductAgreesWithListing | src/main/java/pe/com/prueba/plataformacontrolcomercio/controller/ProductController.java:372-387 | a product is shown by id exactly when the listing filter would keep it |
| ProductEntity.CategoryMatches | src/main/java/pe/com/prueba/plataformacontrolcomercio/model/Product.java:77 | exactly the links naming the category |
| ProductEntity.TagMatches | src/main/java/pe/com/prueba/plataformacontrolcomercio/model/Product.java:97 | exactly the links whose tag has the argument's id, two null ids being equal |
| ProductEntity.CategoryEntity.constructor | src/main/java/pe/com/prueba/plataformacontrolcomercio/model/Category.java:45 | a category starts with no links |
| ProductEntity.TagEntity.constructor | src/main/java/pe/com/prueba/plataformacontrolcomercio/model/Tag.java:46 | a tag starts with its id and no links |
| ProductEntity.CategoryLink.constructor | src/main/java/pe/com/prueba/plataformacontrolcomercio/model/Product.java:67-69 | a link joins the given product and category |
| ProductEntity.TagLink.constructor | src/main/java/pe/com/prueba/plataformacontrolcomercio/model/Product.java:87-89 | a link joins the given product and tag |
| ProductEntity.ProductEntity.constructor | src/main/java/pe/com/prueba/plataformacontrolcomercio/model/Product.java:59-63 | a product starts with empty link sets |
| ProductEntity.ProductEntity.AddCategory | src/main/java/pe/com/prueba/plataformacontrolcomercio/model/Product.java:66-73 | one new link to the category, added to both sides; a consistent association stays consistent |
| ProductEntity.ProductEntity.AddTag | src/main/java/pe/com/prueba/plataformacontrolcomercio/model/Product.java:86-93 | one new link to the tag, added to both sides; a consistent association stays consistent |
| ProductEntity.ProductEntity.RemoveCategory | src/main/java/pe/com/prueba/plataformacontrolcomercio/model/Product.java:75-84 | exactly the matching links leave both sets and have both ends nulled; no link left names the category; other links are untouched; consistency is kept |
| ProductEntity.ProductEntity.RemoveTag | src/main/java/pe/com/prueba/plataformacontrolcomercio/model/Product.java:95-104 | exactly the links whose tag has the argument's id leave this product's set and the argument's, with both ends nulled; other links are untouched; consistency is kept |
| OrderMapper.ToItemDto | src/main/java/pe/com/prueba/plataformacontrolcomercio/mapper/OrderMapper.java:49-71 | null to null; the line's fields copied; product fields only from a product that is there |
| OrderMapper.ToItemDtos | src/main/java/pe/com/prueba/plataformacontrolcomercio/mapper/OrderMapper.java:39-44 | one transfer object per line, position by position |
| OrderMapper.ToDto | src/main/java/pe/com/prueba/plataformacontrolcomercio/mapper/OrderMapper.java:15-47 | null to null; the scalars copied; user fields only from a user; the item list null exactly when the order's is, and mapped one to one |
| OrderMapper.ToEntity | src/main/java/pe/com/prueba/plataformacontrolcomercio/mapper/OrderMapper.java:73-94 | null to null; the scalars copied; no user, and the initial empty item list |
| OrderMapper.EntityRoundTrip | src/main/java/pe/com/prueba/plataformacontrolcomercio/mapper/OrderMapper.java:15-94 | an entity sent to a transfer object and back keeps every scalar and loses only its user and items |
| OrderMapper.DtoRoundTrip | src/main/java/pe/com/prueba/plataformacontrolcomercio/mapper/OrderMapper.java:15-94 | a transfer object sent to an entity and back keeps every scalar and loses only its user fields and items |
| OrderMapper.ToItemDtosOfConcat | src/main/java/pe/com/prueba/plataformacontrolcomercio/mapper/OrderMapper.java:39-44 | the item mapping keeps the list's order |
| CartMapper.ToDto | src/main/java/pe/com/prueba/plataformacontrolcomercio/mapper/CartMapper.java:10-36 | null to null; a line with no product, no price or no quantity throws for its subtotal; otherwise the fields are copied, user and product fields only where present |
| CartMapper.ToEntity | src/main/java/pe/com/prueba/plataformacontrolcomercio/mapper/CartMapper.java:38-53 | null to null; the id, quantity and timestamps copied; no user and no product |
| CartMapper.NoRoundTripThroughEntity | src/main/java/pe/com/prueba/plataformacontrolcomercio/mapper/CartMapper.java:33-53 | an entity built by toEntity has no product, so mapping it back always throws |
| CartMapper.EntityRoundTrip | src/main/java/pe/com/prueba/plataformacontrolcomercio/mapper/CartMapper.java:10-53 | a complete line mapped there and back keeps its id, quantity and timestamps and loses only its user and product |

## Left out

- Cache-control rows and metrics: the asynchronous SQL that records cache hits, misses and deletions, and the executor that runs it.
- Jackson: the codec is an abstract pair of encode and decode functions; the date format and the tolerance for unknown fields are not modelled.
- Key expiry: lifetimes are recorded with each value, but no clock runs and nothing expires.
- The `TypeReference` overload of getFromCache: ProducerService.java and CartService.java:54-58 call it, but CacheService.java does not declare it. The model assumes it is the `Class` overload's algorithm with a generic decode target (the `TypeRef` token of Cache.DecodeShape); nothing in the source confirms this.
- Redis configuration, connection pooling, and the `KEYS` command's cost. Glob character classes and escapes (`[...]`, `\`) are not modelled; the key texts contain neither.
- Double arithmetic: order totals, line subtotals, the cart total, and the fixed product rating of 4.5.
- CartMapper.ToDto: models only whether getSubtotal throws, not the value of the subtotal.
- OrderItem subtotals: OrderItem.java is not part of this model.
- The JWT library: signature checking and the token's e-mail claim are a parameter from token to e-mail.
- Spring Data repositories and JPQL: queries are functions over the table maps; foreign-key constraints are not checked.
- Spring's `@Transactional`: it is taken as all-or-nothing, so a throw leaves every table as it was; Redis calls are outside it. There is no concurrency and no isolation levels.
- JPA merge of an entity that carries a client-chosen id is taken as an overwrite of that row when it exists and an insert under that id otherwise. For a product the row and its links are replaced (ProductService.CreateWithIdLeavesOverwrittenRowStale states what stays cached); for a category or a tag the row is replaced and its product links are dropped. A merge onto a client id that names no row is taken as an insert under that id; Hibernate instead generates an id or refuses the merge, depending on its version, and that difference is not modelled.
- Null quantities and null statuses: Product.java declares the quantity an `Integer` with no not-null constraint, and Order.java the status a plain enum column, so either can be null in a row. The model's product rows hold an integer quantity and its orders a status, so the NullPointerException a null quantity raises in the stock filters of ProductController.java:365, 380, 396, 410, 423, 448 and 464, and in the stock checks of CartService.java:86 and OrderService.java:80, is not modelled. ProductDTO's inventory status, which does test for null, takes an optional quantity.
- Product images: ProductDTO reads an image that Product.java does not declare; the view takes it as an optional field of the entity.
- Category.active: CategoryService.java sets an `active` flag that Category.java does not declare; the model gives the row that field.
- ProductEntity.ProductEntity.RemoveCategory: compares categories by reference, not by Lombok's structural equality, taking one persistence context to hold one object per row.
- ProductEntity: link objects in hash sets are compared by identity. ProductCategory.java and ProductTag.java are not part of this model.
- The thin controllers: CartController, CategoryController, OrderController, ProducerOrderController and TagController, and the status mapping of the ProductController write endpoints. The controller reads modelled are those of ProductController and CacheDebugController.
- CacheDebugController: isRedisAvailable, getCacheSize, getAllKeys and getCacheValue, which CacheDebugController.java:37-39, 67 and 90 call, are not declared in CacheService.java. The model assumes isRedisAvailable answers the availability flag without throwing, and the other three throw exactly when Redis is down (Cache.CacheService.IsAvailable, AllKeys, Size, RawValue). CacheDebugController.CacheDebugController.GetCacheStatus's "an error exactly when Redis is down" rests on that assumption: an isRedisAvailable that caught its own failure, with queries that did not throw, would let "NO DISPONIBLE" appear instead.
- OrderService.OrderService.CreateOrder: runs the corrected stock check of the second finding below, rejecting a line whose quantity is not positive; the as-written loop, which accepts such a line and raises the stock, is OrderService.ReserveAsWritten.
- CartService.CartService.AddToCart: runs the corrected merge check of the first finding below (CartService.Merge, the exact sum); the as-written check, whose int sum can wrap past the stock check, is CartService.MergeAsWritten.
- OrderService.OrderService.CreateOrder: deletes the user's cart rows without invalidating the cached cart reads, as the source does. The stale cart cache is modelled, not corrected.
- Timestamps (`LocalDateTime.now()`) and the date-window statistics of orders.
- Request and response classes without logic, the service interfaces, and the producer listings whose only logic is their key (their key texts are modelled).
- Integer widths: ids and quantities are unbounded. Only CartService.MergeAsWritten, the as-written half of the first finding below, computes with Java int wrap-around; the methods run the corrected, exact checks.
- ProducerService.ProducerService.SaveProducer: the `@NotBlank` and `@NotNull` constraints of Producer.java:38-50 are not modelled. The model's producer row keeps only the business name, location, approval and user, so a save of a blank business name, description, location or phone, which Hibernate refuses at the insert or at the commit, is modelled as succeeding.
- The other entity constraints: `@NotNull @Positive` on the product price (Product.java:42-43; prices are not modelled), the User.java constraints (no user is written), and `@NotNull` on the order's user and total (Order.java:40, 46; every order createOrder writes has the user it found and a computed total). Rows already stored are not required to meet their constraints, except where a method states it keeps them (the `LinesPositive` and `NamesFilled` invariants).
- Text.Lower: lower-cases the ASCII letters only. Java's `toLowerCase()` folds every Unicode letter by the default locale, so a search key built from "CAFÉ" is "café" in Java and "cafÉ" in the model.
- Text.ParseLong, Cache.ExtractEntityId, Cache.NoEntityIdOfWord: only '0' to '9' count as digits. Java's `Long.parseLong` takes every character that `Character.digit` gives a decimal value, so the last segment of "product:٤٢" (Arabic-Indic digits) parses to 42 in Java and to nothing in the model. NoEntityIdOfWord's claim therefore holds in Java only for a word whose first character is no Unicode decimal digit. The keys the services build carry ASCII digits only (Text.LongText).
- CacheDebugController.Shown, CacheDebugController.ShownIsValueIff, CacheDebugController.KeyViewOf, CacheDebugController.CacheDebugController.GetCacheKey: a string is a sequence of Unicode characters, and lengths and the 500-character cut count those characters. Java's `length()` and `substring` at CacheDebugController.java:71 and 73 count UTF-16 units. For text outside the Basic Multilingual Plane they differ: a value of 300 emoji is 600 units, so Java shows the first 250 emoji and reports a length of 600, while the model shows all 300 and reports 300. A cut between the two halves of a surrogate pair, which Java can make, has no counterpart here.

## Findings

| source | as written | input that shows it | evidently intended | confidence | as-written member | corrected member |
|---|---|---|---|---|---|---|
| src/main/java/pe/com/prueba/plataformacontrolcomercio/service/cart/CartService.java:98-104 | the merged line quantity is computed as a Java `int` sum, and the stock check compares the stock with that sum; when the sum of two positive quantities overflows it wraps negative and passes the check | stock 2147483647, a line of 2000000000, a further add of 2000000000: the sum wraps to -294967296 and passes the stock check. What follows depends on the entity constraint: with `@Positive` on the quantity (CartItem.java:43-44) checked by Hibernate Validator, the managed line is refused at the commit, so the request fails with a constraint violation instead of the stock message, after line 121 has already dropped the user's cart reads; without a validation provider the negative quantity would be stored | reject the add with the stock message, before the save and before any cache call, whenever the exact combined quantity exceeds the stock | not executed | CartService.MergeWrapsPastStockCheck | CartService.Merge |
| src/main/java/pe/com/prueba/plataformacontrolcomercio/service/order/OrderService.java:80-97 | the stock loop checks only that the stock covers the line quantity; the item request's `@Positive` is never applied, as CreateOrderRequest.java:20 has no `@Valid` on the item list | a product with stock 0 and an order line of -5: the check passes and the stock becomes 5 | reject any order line whose quantity is not positive, before touching stock | not executed | OrderService.ReserveAsWrittenAcceptsNegativeLine | OrderService.ReserveSucceedsIff |
