/**
 * The cache keys the services read under, and the keys each exact or glob invalidation the
 * services issue drops. Ids enter keys through string concatenation, which renders a Long
 * with Long.toString; names are lower-cased first.
 */
module CacheKeys {
  import opened Text
  import Glob
  import opened Cache

  /** The cached reads of ProductService. */
  datatype ProductRead =
    | AllProducts
    | ProductsOfProducer(producerId: int)
    | ProductById(id: int)
    | SearchByName(name: string)
    | SearchByNameOfProducer(name: string, producerId: int)
    | ByCategoryOfProducer(categoryId: int, producerId: int)
    | ByTag(tagId: int)
    | ByTagOfProducer(tagId: int, producerId: int)
    | ByCategoriesAndTags(categoryIds: seq<int>, tagIds: seq<int>, producerId: int)
    | ByCategory(categoryId: int)
    | ApprovedProducersWithStock
    | MarketplaceOfProducer(producerId: int)
    | SearchByProducerName(producerName: string)

  /** The cached reads of ProducerService. */
  datatype ProducerRead =
    | AllProducers
    | ProducerById(id: int)
    | ProducerOfUser(userId: int)
    | ApprovedProducers
    | ByLocation(location: string)
    | ProducerCount
    | ApprovedCount
    | PendingProducers
    | SearchByBusinessName(businessName: string)
    | ApprovedWithStock

  /** The cached reads of CartService; every one belongs to a user. */
  datatype CartRead = CartItems(userId: int) | CartCount(userId: int) | CartTotal(userId: int)

  datatype CachedRead = OfProducts(p: ProductRead) | OfProducers(q: ProducerRead) | OfCart(c: CartRead)

  /** List.toString of a list of Longs: "[1, 2, 3]". */
  function ListText(xs: seq<int>): string
  {
    "[" + Joined(xs) + "]"
  }

  function Joined(xs: seq<int>): string
  {
    if xs == [] then "" else if |xs| == 1 then LongText(xs[0]) else LongText(xs[0]) + ", " + Joined(xs[1..])
  }

  /** A piece of key text without ':'. */
  predicate Word(w: string) { ':' !in w }

  /** What follows the first two words of a key: nothing, or ':' and more. */
  predicate TailText(t: string) { t == [] || t[0] == ':' }

  /** The family of a key: its first word. */
  function Head(r: CachedRead): (w: string)
    ensures Word(w)
  {
    match r
    case OfProducts(p) =>
      if p.ProductById? then "product" else if p.ApprovedProducersWithStock? then "producers" else "products"
    case OfProducers(q) => if q.ProducerById? || q.ProducerOfUser? then "producer" else "producers"
    case OfCart(_) => "cart"
  }

  /** The second word of a key: the kind of listing, or the id of a single entity. */
  function Second(r: CachedRead): (w: string)
    ensures Word(w)
  {
    match r
    case OfProducts(p) =>
      (match p
       case AllProducts => "all"
       case ProductsOfProducer(_) => "producer"
       case ProductById(id) => LongText(id)
       case SearchByName(_) => "search"
       case SearchByNameOfProducer(_, _) => "search"
       case ByCategoryOfProducer(_, _) => "category"
       case ByTag(_) => "tag"
       case ByTagOfProducer(_, _) => "tag"
       case ByCategoriesAndTags(_, _, _) => "complex"
       case ByCategory(_) => "category"
       case ApprovedProducersWithStock => "approved"
       case MarketplaceOfProducer(_) => "marketplace"
       case SearchByProducerName(_) => "search")
    case OfProducers(q) =>
      (match q
       case AllProducers => "all"
       case ProducerById(id) => LongText(id)
       case ProducerOfUser(_) => "user"
       case ApprovedProducers => "approved"
       case ByLocation(_) => "location"
       case ProducerCount => "count"
       case ApprovedCount => "approved"
       case PendingProducers => "pending"
       case SearchByBusinessName(_) => "search"
       case ApprovedWithStock => "approved")
    case OfCart(c) =>
      (match c
       case CartItems(_) => "items"
       case CartCount(_) => "count"
       case CartTotal(_) => "total")
  }

  /** The rest of the key after its first two words. */
  function Tail(r: CachedRead): (t: string)
    ensures TailText(t)
  {
    match r
    case OfProducts(p) =>
      (match p
       case AllProducts => ""
       case ProductsOfProducer(id) => ":" + LongText(id)
       case ProductById(_) => ""
       case SearchByName(n) => ":name:" + Lower(n)
       case SearchByNameOfProducer(n, id) => ":name:" + Lower(n) + ":producer:" + LongText(id)
       case ByCategoryOfProducer(c, id) => ":" + LongText(c) + ":producer:" + LongText(id)
       case ByTag(t) => ":" + LongText(t)
       case ByTagOfProducer(t, id) => ":" + LongText(t) + ":producer:" + LongText(id)
       case ByCategoriesAndTags(cs, ts, id) => ":" + ListText(cs) + ":tags:" + ListText(ts) + ":producer:" + LongText(id)
       case ByCategory(c) => ":" + LongText(c)
       case ApprovedProducersWithStock => ":with-stock"
       case MarketplaceOfProducer(id) => ":producer:" + LongText(id)
       case SearchByProducerName(n) => ":producer-name:" + Lower(n))
    case OfProducers(q) =>
      (match q
       case AllProducers => ""
       case ProducerById(_) => ""
       case ProducerOfUser(u) => ":" + LongText(u)
       case ApprovedProducers => ""
       case ByLocation(l) => ":" + Lower(l)
       case ProducerCount => ""
       case ApprovedCount => ":count"
       case PendingProducers => ""
       case SearchByBusinessName(n) => ":business:" + Lower(n)
       case ApprovedWithStock => ":with-stock")
    case OfCart(c) => ":user:" + LongText(c.userId)
  }

  /**
   * The key a read is cached under, e.g. "products:all", "product:5",
   * "products:category:3:producer:7", "producer:user:2", "cart:items:user:4".
   */
  function Key(r: CachedRead): string
  {
    Head(r) + ":" + Second(r) + Tail(r)
  }

  // ---- The invalidations the services issue ----

  function ProductEntry(id: int): Invalidation { Exact("product:" + LongText(id)) }
  function ProducerEntry(id: int): Invalidation { Exact("producer:" + LongText(id)) }
  function ProducerOfUserEntry(userId: int): Invalidation { Exact("producer:user:" + LongText(userId)) }

  const AllProductsList: Invalidation := Pattern("products:all")
  function ProducerProductsList(producerId: int): Invalidation { Pattern("products:producer:" + LongText(producerId)) }
  const ProductSearches: Invalidation := Pattern("products:search:*")
  function CategoryListings(categoryId: int): Invalidation { Pattern("products:category:" + LongText(categoryId) + "*") }
  function TagListings(tagId: int): Invalidation { Pattern("products:tag:" + LongText(tagId) + "*") }
  const CombinedFilters: Invalidation := Pattern("products:complex:*")
  const ProducerLists: Invalidation := Pattern("producers:*")
  const MarketplaceListings: Invalidation := Pattern("products:marketplace:*")
  function ProducerMarketplaceList(producerId: int): Invalidation { Pattern("products:marketplace:producer:" + LongText(producerId)) }
  function ProducerOrders(producerId: int): Invalidation { Pattern("orders:producer:" + LongText(producerId)) }
  function ProducerStats(producerId: int): Invalidation { Pattern("stats:producer:" + LongText(producerId)) }
  function UserCart(userId: int): Invalidation { Pattern("cart:*:user:" + LongText(userId)) }

  // ---- Text facts the key proofs rest on ----

  lemma SharedPrefix(l: string, u: string, v: string)
    ensures l + u <= l + v <==> u <= v
  {
    if l + u <= l + v {
      assert u == (l + u)[|l|..];
      assert v[..|u|] == (l + v)[|l|..][..|u|];
    }
    if u <= v {
      assert (l + v)[..|l + u|] == l + v[..|u|];
    }
  }

  lemma SharedPrefixEq(l: string, u: string, v: string)
    ensures l + u == l + v <==> u == v
  {
    if l + u == l + v {
      assert u == (l + u)[|l|..];
    }
  }

  /** A word is a prefix of "v:w" only by being a prefix of v. */
  lemma WordPrefix(u: string, v: string, w: string)
    requires Word(u)
    ensures u <= v + ":" + w <==> u <= v
  {
    if |u| > |v| {
      assert u[|v|] in u;
      assert (v + ":" + w)[|v|] == ':';
    }
    if u <= v {
      assert (v + ":" + w)[..|u|] == v[..|u|];
    }
  }

  /**
   * A text p + tag + v ends with tag + u, for words v and u and a tag ending in ':', exactly
   * when v and u are the same word.
   */
  lemma TaggedSuffix(p: string, tag: string, v: string, u: string)
    requires tag != [] && tag[|tag| - 1] == ':' && Word(v) && Word(u)
    ensures var k := p + tag + v; var b := tag + u;
            (|b| <= |k| && k[|k| - |b|..] == b) <==> v == u
  {
    var k := p + tag + v;
    var b := tag + u;
    if |b| <= |k| && |v| > |u| {
      var j := |v| - |u| - 1;
      assert v[j] in v;
      assert k[|k| - |b|..][|tag| - 1] == v[j];
      assert b[|tag| - 1] == ':';
    }
    if |b| <= |k| && |v| < |u| {
      var j := |u| - |v| - 1;
      assert u[j] in u;
      assert k[|k| - |b|..][|tag| + j] == k[|p| + |tag| - 1] == ':';
      assert b[|tag| + j] == u[j];
    }
    if |b| <= |k| && k[|k| - |b|..] == b && |v| == |u| {
      assert k[|k| - |u|..] == v;
      assert b[|b| - |u|..] == u;
    }
    if v == u {
      assert k[|k| - |b|..] == b;
    }
  }

  lemma LiteralOfLong(prefix: string, n: int)
    requires Glob.Literal(prefix)
    ensures Glob.Literal(prefix + LongText(n))
  {
  }

  /** Two texts that each start with a word and go on at a ':' agree, or one extends the other, word by word. */
  lemma WordThen(w: string, x: string, v: string, y: string)
    requires Word(w) && Word(v) && TailText(x) && TailText(y)
    ensures w + x == v + y <==> w == v && x == y
    ensures x != [] ==> (w + x <= v + y <==> w == v && x <= y)
  {
    if |w| < |v| {
      assert v[|w|] in v;
      assert (v + y)[|w|] == v[|w|];
      if x != [] {
        assert (w + x)[|w|] == ':';
      }
    } else if |w| > |v| {
      assert w[|v|] in w;
      assert (w + x)[|v|] == w[|v|];
      if y != [] {
        assert (v + y)[|v|] == ':';
      }
    } else {
      if w + x == v + y || (x != [] && w + x <= v + y) {
        assert w == (w + x)[..|w|] && v == (v + y)[..|v|];
        assert x == (w + x)[|w|..];
        assert y == (v + y)[|v|..];
      }
      if w == v && x <= y {
        assert (v + y)[..|w + x|] == w + y[..|x|];
      }
    }
  }

  /** The same, a second time: the second words and what follows them. */
  lemma SecondWordThen(s: string, t: string, s2: string, t2: string)
    requires Word(s) && Word(s2) && TailText(t) && TailText(t2)
    ensures ":" + s + t == ":" + s2 + t2 <==> s == s2 && t == t2
    ensures t != [] ==> (":" + s + t <= ":" + s2 + t2 <==> s == s2 && t <= t2)
  {
    assert ":" + s + t == ":" + (s + t);
    assert ":" + s2 + t2 == ":" + (s2 + t2);
    SharedPrefix(":", s + t, s2 + t2);
    SharedPrefixEq(":", s + t, s2 + t2);
    WordThen(s, t, s2, t2);
  }

  /** A key equals a text of two words and a tail exactly when its words and tail are those. */
  lemma KeyIs(r: CachedRead, h: string, s: string, t: string)
    requires Word(h) && Word(s) && TailText(t)
    ensures Key(r) == h + ":" + s + t <==> Head(r) == h && Second(r) == s && Tail(r) == t
  {
    assert Key(r) == Head(r) + (":" + Second(r) + Tail(r));
    assert h + ":" + s + t == h + (":" + s + t);
    WordThen(Head(r), ":" + Second(r) + Tail(r), h, ":" + s + t);
    SecondWordThen(Second(r), Tail(r), s, t);
  }

  /** A key starts with two words and a ':'-led text exactly when its words are those and its tail starts with the text. */
  lemma KeyStartsWith(r: CachedRead, h: string, s: string, t: string)
    requires Word(h) && Word(s) && TailText(t) && t != []
    ensures h + ":" + s + t <= Key(r) <==> Head(r) == h && Second(r) == s && t <= Tail(r)
  {
    assert Key(r) == Head(r) + (":" + Second(r) + Tail(r));
    assert h + ":" + s + t == h + (":" + s + t);
    WordThen(h, ":" + s + t, Head(r), ":" + Second(r) + Tail(r));
    SecondWordThen(s, t, Second(r), Tail(r));
  }

  /** A key starts with a word and ':' exactly when that word is its first. */
  lemma KeyInFamily(r: CachedRead, h: string)
    requires Word(h)
    ensures h + ":" <= Key(r) <==> Head(r) == h
  {
    var rest := ":" + Second(r) + Tail(r);
    assert Key(r) == Head(r) + rest;
    assert ":" <= rest by { assert rest[..1] == ":"; }
    WordThen(h, ":", Head(r), rest);
  }

  lemma TailStartsWithColon(t: string)
    requires TailText(t)
    ensures ":" <= t <==> t != []
  {
    if t != [] {
      assert t[..1] == ":";
    }
  }

  /** The text of a number is never the word "user". */
  lemma NumberIsNotUser(n: int)
    ensures LongText(n) != "user"
  {
    var t := LongText(n);
    assert t[0] == '-' || IsDigit(t[0]);
  }

  lemma IdTailPrefix(w: string, n: int)
    ensures ":" + w <= ":" + LongText(n) <==> w <= LongText(n)
  {
    SharedPrefix(":", w, LongText(n));
  }

  lemma IdThenProducerTailPrefix(w: string, n: int, producerId: int)
    requires Word(w)
    ensures ":" + w <= ":" + LongText(n) + ":producer:" + LongText(producerId) <==> w <= LongText(n)
  {
    var v := LongText(n);
    var rest := "producer:" + LongText(producerId);
    assert ":producer:" == ":" + "producer:";
    assert ":" + v + ":producer:" + LongText(producerId) == ":" + (v + ":" + rest) by {
      ColonRegroup(v, "producer:", LongText(producerId));
    }
    assert ":" + w <= ":" + (v + ":" + rest) <==> w <= v + ":" + rest by { SharedPrefix(":", w, v + ":" + rest); }
    assert w <= v + ":" + rest <==> w <= v by { WordPrefix(w, v, rest); }
  }

  lemma ColonRegroup(v: string, t: string, u: string)
    ensures ":" + v + (":" + t) + u == ":" + (v + ":" + (t + u))
  {
  }

  lemma SameNumberTail(l: string, a: int, b: int)
    ensures l + LongText(a) == l + LongText(b) <==> a == b
  {
    SharedPrefixEq(l, LongText(a), LongText(b));
    LongTextInjective(a, b);
  }

  lemma Split3(lit: string, h: string, s: string, rest: string, t: string)
    requires lit == h + ":" + s + rest
    ensures lit + t == h + ":" + s + (rest + t)
  {
  }

  lemma Regroup(a: string, b: string, c: string)
    ensures a + b + c == a + (b + c)
  {
  }

  lemma LiteralDrops(p: string, k: string)
    requires Glob.Literal(p)
    ensures Drops(Pattern(p), k) <==> k == p
  {
    Glob.LiteralMatchesItself(p, k);
  }

  lemma PrefixDrops(a: string, k: string)
    requires Glob.Literal(a)
    ensures Drops(Pattern(a + "*"), k) <==> a <= k
  {
    Glob.PrefixStar(a, k);
  }

  /** A listing pattern `h:w:<id>*` drops exactly the keys that start with `h:w:<id>`. */
  lemma ListingPrefixDrops(h: string, w: string, id: int, k: string)
    requires Glob.Literal(h + ":" + w + ":")
    ensures Drops(Pattern(h + ":" + w + ":" + LongText(id) + "*"), k) <==> h + ":" + w + (":" + LongText(id)) <= k
  {
    var a := h + ":" + w + ":" + LongText(id);
    assert Glob.Literal(a) by { LiteralOfLong(h + ":" + w + ":", id); }
    assert Drops(Pattern(a + "*"), k) <==> a <= k by { PrefixDrops(a, k); }
    Regroup(h + ":" + w, ":", LongText(id));
  }

  // ---- The keys each invalidation drops, as text ----

  lemma AllProductsListText(k: string)
    ensures Drops(AllProductsList, k) <==> k == "products" + ":" + "all" + ""
  {
    assert "products:all" == "products" + ":" + "all" + "";
    LiteralDrops("products:all", k);
  }

  lemma ProducerProductsListText(producerId: int, k: string)
    ensures Drops(ProducerProductsList(producerId), k) <==> k == "products" + ":" + "producer" + (":" + LongText(producerId))
  {
    assert "products:producer:" == "products" + ":" + "producer" + ":";
    Regroup("products" + ":" + "producer", ":", LongText(producerId));
    LiteralOfLong("products:producer:", producerId);
    LiteralDrops("products:producer:" + LongText(producerId), k);
  }

  lemma ProductEntryText(id: int, k: string)
    ensures Drops(ProductEntry(id), k) <==> k == "product" + ":" + LongText(id) + ""
  {
    assert "product:" + LongText(id) == "product" + ":" + LongText(id) + "";
  }

  lemma ProducerEntryText(id: int, k: string)
    ensures Drops(ProducerEntry(id), k) <==> k == "producer" + ":" + LongText(id) + ""
  {
    assert "producer:" + LongText(id) == "producer" + ":" + LongText(id) + "";
  }

  lemma ProducerOfUserEntryText(userId: int, k: string)
    ensures Drops(ProducerOfUserEntry(userId), k) <==> k == "producer" + ":" + "user" + (":" + LongText(userId))
  {
    assert "producer:user:" + LongText(userId) == "producer" + ":" + "user" + (":" + LongText(userId));
  }

  lemma ProductSearchesText(k: string)
    ensures Drops(ProductSearches, k) <==> "products" + ":" + "search" + ":" <= k
  {
    assert "products:search:" == "products" + ":" + "search" + ":";
    assert ProductSearches == Pattern("products:search:" + "*");
    PrefixDrops("products:search:", k);
  }

  lemma CombinedFiltersText(k: string)
    ensures Drops(CombinedFilters, k) <==> "products" + ":" + "complex" + ":" <= k
  {
    assert "products:complex:" == "products" + ":" + "complex" + ":";
    assert CombinedFilters == Pattern("products:complex:" + "*");
    PrefixDrops("products:complex:", k);
  }

  lemma MarketplaceListingsText(k: string)
    ensures Drops(MarketplaceListings, k) <==> "products" + ":" + "marketplace" + ":" <= k
  {
    assert "products:marketplace:" == "products" + ":" + "marketplace" + ":";
    assert MarketplaceListings == Pattern("products:marketplace:" + "*");
    PrefixDrops("products:marketplace:", k);
  }

  lemma ProducerMarketplaceListText(producerId: int, k: string)
    ensures Drops(ProducerMarketplaceList(producerId), k) <==>
      k == "products" + ":" + "marketplace" + (":producer:" + LongText(producerId))
  {
    var lit := "products:marketplace:producer:";
    MarketplaceOfProducerText(LongText(producerId));
    LiteralOfLong(lit, producerId);
    LiteralDrops(lit + LongText(producerId), k);
  }

  lemma MarketplaceOfProducerText(t: string)
    ensures "products:marketplace:producer:" + t == "products" + ":" + "marketplace" + (":producer:" + t)
  {
    Split3("products:marketplace:producer:", "products", "marketplace", ":producer:", t);
  }

  lemma ProducerListsText(k: string)
    ensures Drops(ProducerLists, k) <==> "producers" + ":" <= k
  {
    assert ProducerLists == Pattern("producers:" + "*");
    PrefixDrops("producers:", k);
  }

  lemma ProducerOrdersText(producerId: int, k: string)
    ensures Drops(ProducerOrders(producerId), k) ==> "orders" + ":" <= k
  {
    var p := "orders:producer:" + LongText(producerId);
    LiteralOfLong("orders:producer:", producerId);
    LiteralDrops(p, k);
    assert "orders:" <= p;
  }

  lemma ProducerStatsText(producerId: int, k: string)
    ensures Drops(ProducerStats(producerId), k) ==> "stats" + ":" <= k
  {
    var p := "stats:producer:" + LongText(producerId);
    LiteralOfLong("stats:producer:", producerId);
    LiteralDrops(p, k);
    assert "stats:" <= p;
  }

  lemma CategoryListingsText(categoryId: int, k: string)
    ensures Drops(CategoryListings(categoryId), k) <==> "products" + ":" + "category" + (":" + LongText(categoryId)) <= k
  {
    assert "products:category:" == "products" + ":" + "category" + ":";
    ListingPrefixDrops("products", "category", categoryId, k);
  }

  lemma TagListingsText(tagId: int, k: string)
    ensures Drops(TagListings(tagId), k) <==> "products" + ":" + "tag" + (":" + LongText(tagId)) <= k
  {
    assert "products:tag:" == "products" + ":" + "tag" + ":";
    ListingPrefixDrops("products", "tag", tagId, k);
  }

  lemma UserCartText(userId: int, k: string)
    ensures var b := ":user:" + LongText(userId);
            Drops(UserCart(userId), k) <==> |"cart:"| + |b| <= |k| && "cart" + ":" <= k && k[|k| - |b|..] == b
  {
    var b := ":user:" + LongText(userId);
    assert "cart:*:user:" + LongText(userId) == "cart:" + "*" + b;
    assert Glob.Literal(b) by { LiteralOfLong(":user:", userId); }
    InfixDrops("cart:", b, k);
    assert "cart:" == "cart" + ":";
  }

  lemma InfixDrops(a: string, b: string, k: string)
    requires Glob.Literal(a) && Glob.Literal(b)
    ensures Drops(Pattern(a + "*" + b), k) <==> |a| + |b| <= |k| && a <= k && k[|k| - |b|..] == b
  {
    Glob.Infix(a, b, k);
  }

  // ---- What each invalidation drops ----

  /** "products:all" drops only the list of all products. */
  lemma AllProductsListDrops(r: CachedRead)
    ensures Drops(AllProductsList, Key(r)) <==> r == OfProducts(AllProducts)
  {
    AllProductsListText(Key(r));
    KeyIs(r, "products", "all", "");
  }

  /** "products:producer:P" has no wildcard: it drops that producer's product list and nothing else. */
  lemma ProducerProductsListDrops(producerId: int, r: CachedRead)
    ensures Drops(ProducerProductsList(producerId), Key(r)) <==> r == OfProducts(ProductsOfProducer(producerId))
  {
    ProducerProductsListText(producerId, Key(r));
    KeyIs(r, "products", "producer", ":" + LongText(producerId));
    if r.OfProducts? && r.p.ProductsOfProducer? {
      SameNumberTail(":", r.p.producerId, producerId);
    }
  }

  /** The exact key "product:ID" is the one cached product. */
  lemma ProductEntryDrops(id: int, r: CachedRead)
    ensures Drops(ProductEntry(id), Key(r)) <==> r == OfProducts(ProductById(id))
  {
    ProductEntryText(id, Key(r));
    KeyIs(r, "product", LongText(id), "");
    if r.OfProducts? && r.p.ProductById? {
      LongTextInjective(r.p.id, id);
    }
  }

  /** The exact key "producer:ID" is the one cached producer. */
  lemma ProducerEntryDrops(id: int, r: CachedRead)
    ensures Drops(ProducerEntry(id), Key(r)) <==> r == OfProducers(ProducerById(id))
  {
    ProducerEntryText(id, Key(r));
    KeyIs(r, "producer", LongText(id), "");
    NumberIsNotUser(id);
    if r.OfProducers? && r.q.ProducerById? {
      LongTextInjective(r.q.id, id);
    }
  }

  /** The exact key "producer:user:U" is the cached producer of that user. */
  lemma ProducerOfUserEntryDrops(userId: int, r: CachedRead)
    ensures Drops(ProducerOfUserEntry(userId), Key(r)) <==> r == OfProducers(ProducerOfUser(userId))
  {
    ProducerOfUserEntryText(userId, Key(r));
    KeyIs(r, "producer", "user", ":" + LongText(userId));
    if r.OfProducers? && r.q.ProducerById? {
      NumberIsNotUser(r.q.id);
    }
    if r.OfProducers? && r.q.ProducerOfUser? {
      SameNumberTail(":", r.q.userId, userId);
    }
  }

  /** "products:search:*" drops every search by product or producer name, and nothing else. */
  lemma ProductSearchesDrop(r: CachedRead)
    ensures Drops(ProductSearches, Key(r)) <==>
      r.OfProducts? && (r.p.SearchByName? || r.p.SearchByNameOfProducer? || r.p.SearchByProducerName?)
  {
    ProductSearchesText(Key(r));
    ProductsKindPrefix(r, "search");
    SearchReads(r);
  }

  /** "products:complex:*" drops every listing filtered by categories and tags, and nothing else. */
  lemma CombinedFiltersDrop(r: CachedRead)
    ensures Drops(CombinedFilters, Key(r)) <==> r.OfProducts? && r.p.ByCategoriesAndTags?
  {
    CombinedFiltersText(Key(r));
    ProductsKindPrefix(r, "complex");
    CombinedReads(r);
  }

  /** "products:marketplace:*" drops the marketplace listing of every producer, and nothing else. */
  lemma MarketplaceListingsDrop(r: CachedRead)
    ensures Drops(MarketplaceListings, Key(r)) <==> r.OfProducts? && r.p.MarketplaceOfProducer?
  {
    MarketplaceListingsText(Key(r));
    ProductsKindPrefix(r, "marketplace");
    MarketplaceReads(r);
  }

  /** A key starts with "products:", a word and ':' exactly when it is a product read of that kind with more after it. */
  lemma ProductsKindPrefix(r: CachedRead, kind: string)
    requires Word(kind)
    ensures "products" + ":" + kind + ":" <= Key(r) <==> Head(r) == "products" && Second(r) == kind && Tail(r) != []
  {
    KeyStartsWith(r, "products", kind, ":");
    TailStartsWithColon(Tail(r));
  }

  /** "products:marketplace:producer:P" has no wildcard: it drops that producer's marketplace listing only. */
  lemma ProducerMarketplaceListDrops(producerId: int, r: CachedRead)
    ensures Drops(ProducerMarketplaceList(producerId), Key(r)) <==> r == OfProducts(MarketplaceOfProducer(producerId))
  {
    ProducerMarketplaceListText(producerId, Key(r));
    KeyIs(r, "products", "marketplace", ":producer:" + LongText(producerId));
    MarketplaceReads(r);
    if r.OfProducts? && r.p.MarketplaceOfProducer? {
      MarketplaceTailIs(r, producerId);
    }
  }

  lemma MarketplaceTailIs(r: CachedRead, producerId: int)
    requires r.OfProducts? && r.p.MarketplaceOfProducer?
    ensures Tail(r) == ":producer:" + LongText(producerId) <==> r == OfProducts(MarketplaceOfProducer(producerId))
  {
    SameNumberTail(":producer:", r.p.producerId, producerId);
  }

  /**
   * "producers:*" drops every producer listing and count but not a single cached producer,
   * and from the product reads the approved-producers-with-stock list, whose key is in the
   * producers family.
   */
  lemma ProducerListsDrop(r: CachedRead)
    ensures Drops(ProducerLists, Key(r)) <==>
      (r.OfProducers? && !r.q.ProducerById? && !r.q.ProducerOfUser?) || r == OfProducts(ApprovedProducersWithStock)
  {
    ProducerListsText(Key(r));
    KeyInFamily(r, "producers");
  }

  /** The order and statistics globs of a producer match none of the cached reads. */
  lemma ProducerOrdersDropNothing(producerId: int, r: CachedRead)
    ensures !Drops(ProducerOrders(producerId), Key(r))
  {
    ProducerOrdersText(producerId, Key(r));
    KeyInFamily(r, "orders");
  }

  lemma ProducerStatsDropNothing(producerId: int, r: CachedRead)
    ensures !Drops(ProducerStats(producerId), Key(r))
  {
    ProducerStatsText(producerId, Key(r));
    KeyInFamily(r, "stats");
  }

  /**
   * "products:category:C*" drops the category listings, with or without a producer, of every
   * category whose id is written with C's digits first: those of C itself and also, since the
   * glob does not stop at the end of the id, those of 12 for C = 1.
   */
  lemma CategoryListingsDrop(categoryId: int, r: CachedRead)
    ensures Drops(CategoryListings(categoryId), Key(r)) <==>
      r.OfProducts? && (r.p.ByCategory? || r.p.ByCategoryOfProducer?) && LongText(categoryId) <= LongText(r.p.categoryId)
  {
    var c := LongText(categoryId);
    CategoryListingsText(categoryId, Key(r));
    KeyStartsWith(r, "products", "category", ":" + c);
    CategoryReads(r);
    if r.OfProducts? && (r.p.ByCategory? || r.p.ByCategoryOfProducer?) {
      CategoryTailPrefix(c, r);
    }
  }

  /** "products:tag:T*" drops the tag listings of every tag whose id is written with T's digits first. */
  lemma TagListingsDrop(tagId: int, r: CachedRead)
    ensures Drops(TagListings(tagId), Key(r)) <==>
      r.OfProducts? && (r.p.ByTag? || r.p.ByTagOfProducer?) && LongText(tagId) <= LongText(r.p.tagId)
  {
    var t := LongText(tagId);
    TagListingsText(tagId, Key(r));
    KeyStartsWith(r, "products", "tag", ":" + t);
    TagReads(r);
    if r.OfProducts? && (r.p.ByTag? || r.p.ByTagOfProducer?) {
      TagTailPrefix(t, r);
    }
  }

  /** "cart:*:user:U" drops the items, count and total of user U's cart and nothing else. */
  lemma UserCartDrops(userId: int, r: CachedRead)
    ensures Drops(UserCart(userId), Key(r)) <==> r.OfCart? && r.c.userId == userId
  {
    var k := Key(r);
    UserCartText(userId, k);
    assert "cart" + ":" <= k <==> r.OfCart? by { KeyInFamily(r, "cart"); }
    if r.OfCart? {
      CartKeyEndsWithUser(r, userId);
    }
  }

  /** A cart key ends with ":user:U" exactly when it is a read of user U's cart. */
  lemma CartKeyEndsWithUser(r: CachedRead, userId: int)
    requires r.OfCart?
    ensures var k, b := Key(r), ":user:" + LongText(userId);
            (|b| <= |k| && k[|k| - |b|..] == b) <==> r.c.userId == userId
  {
    CartKeyShape(r);
    UserTagSuffix(Key(r), "cart" + ":" + Second(r), r.c.userId, userId);
  }

  lemma CartKeyShape(r: CachedRead)
    requires r.OfCart?
    ensures Key(r) == "cart" + ":" + Second(r) + ":user:" + LongText(r.c.userId)
  {
    assert Head(r) == "cart";
    assert Tail(r) == ":user:" + LongText(r.c.userId);
  }

  /** A text ending in ":user:" and a number ends with ":user:" and another number only when the numbers agree. */
  lemma UserTagSuffix(k: string, p: string, a: int, b: int)
    requires k == p + ":user:" + LongText(a)
    ensures var t := ":user:" + LongText(b);
            (|t| <= |k| && k[|k| - |t|..] == t) <==> a == b
  {
    assert ":user:"[|":user:"| - 1] == ':';
    TaggedSuffix(p, ":user:", LongText(a), LongText(b));
    LongTextInjective(a, b);
  }

  // ---- Which reads a family and kind name ----

  lemma SearchReads(r: CachedRead)
    ensures Head(r) == "products" && Second(r) == "search" <==>
      r.OfProducts? && (r.p.SearchByName? || r.p.SearchByNameOfProducer? || r.p.SearchByProducerName?)
    ensures Head(r) == "products" && Second(r) == "search" ==> Tail(r) != []
  {
  }

  lemma CombinedReads(r: CachedRead)
    ensures Head(r) == "products" && Second(r) == "complex" <==> r.OfProducts? && r.p.ByCategoriesAndTags?
    ensures Head(r) == "products" && Second(r) == "complex" ==> Tail(r) != []
  {
  }

  lemma MarketplaceReads(r: CachedRead)
    ensures Head(r) == "products" && Second(r) == "marketplace" <==> r.OfProducts? && r.p.MarketplaceOfProducer?
    ensures Head(r) == "products" && Second(r) == "marketplace" ==> Tail(r) != []
  {
  }

  lemma CategoryReads(r: CachedRead)
    ensures Head(r) == "products" && Second(r) == "category" <==> r.OfProducts? && (r.p.ByCategory? || r.p.ByCategoryOfProducer?)
  {
  }

  lemma TagReads(r: CachedRead)
    ensures Head(r) == "products" && Second(r) == "tag" <==> r.OfProducts? && (r.p.ByTag? || r.p.ByTagOfProducer?)
  {
  }

  /** The tail of a category listing starts with ":w" exactly when its category id is written w first. */
  lemma CategoryTailPrefix(w: string, r: CachedRead)
    requires Word(w) && r.OfProducts? && (r.p.ByCategory? || r.p.ByCategoryOfProducer?)
    ensures ":" + w <= Tail(r) <==> w <= LongText(r.p.categoryId)
  {
    if r.p.ByCategory? {
      IdTailPrefix(w, r.p.categoryId);
    } else {
      IdThenProducerTailPrefix(w, r.p.categoryId, r.p.producerId);
    }
  }

  lemma TagTailPrefix(w: string, r: CachedRead)
    requires Word(w) && r.OfProducts? && (r.p.ByTag? || r.p.ByTagOfProducer?)
    ensures ":" + w <= Tail(r) <==> w <= LongText(r.p.tagId)
  {
    if r.p.ByTag? {
      IdTailPrefix(w, r.p.tagId);
    } else {
      IdThenProducerTailPrefix(w, r.p.tagId, r.p.producerId);
    }
  }

  // ---- Observations about the key scheme ----

  /**
   * A product-name search whose name ends in ":producer:P" is cached under the same key as
   * the search for the rest of the name within producer P, so each can be answered from the
   * other's cached result.
   */
  lemma SearchKeysCollide(name: string, producerId: int)
    ensures Key(OfProducts(SearchByName(name + ":producer:" + LongText(producerId)))) ==
            Key(OfProducts(SearchByNameOfProducer(name, producerId)))
  {
    SuffixedNameTail(name, ":producer:" + LongText(producerId), producerId);
    assert name + ":producer:" + LongText(producerId) == name + (":producer:" + LongText(producerId));
  }

  /** The tail of a name search whose name ends in ":producer:P" is that of the producer-restricted search. */
  lemma SuffixedNameTail(name: string, t: string, producerId: int)
    requires t == ":producer:" + LongText(producerId)
    ensures Tail(OfProducts(SearchByName(name + t))) == Tail(OfProducts(SearchByNameOfProducer(name, producerId)))
  {
    LowerConcat(name, t);
    ProducerSuffixIsLowerCase(producerId);
    assert Lower(name + t) == Lower(name) + t;
  }

  lemma ProducerSuffixIsLowerCase(producerId: int)
    ensures Lower(":producer:" + LongText(producerId)) == ":producer:" + LongText(producerId)
  {
    var digits := LongText(producerId);
    assert NoUpper(":producer:");
    forall i | 0 <= i < |digits| ensures !('A' <= digits[i] <= 'Z') {
      assert digits[i] == '-' || IsDigit(digits[i]);
    }
    LowerOfNoUpper(":producer:" + digits);
  }

  /**
   * ProductService and ProducerService both cache their approved-producers-with-stock list
   * under one key, and decode what they find there as different shapes.
   */
  lemma ApprovedWithStockKeyShared(name: string)
    ensures Key(OfProducts(ApprovedProducersWithStock)) == Key(OfProducers(ApprovedWithStock))
    ensures DecodeShape(ListClass, Key(OfProducts(ApprovedProducersWithStock))) != DecodeShape(TypeRef(name), Key(OfProducers(ApprovedWithStock)))
  {
    var k := Key(OfProducts(ApprovedProducersWithStock));
    assert k == Key(OfProducers(ApprovedWithStock)) by {
      assert Head(OfProducts(ApprovedProducersWithStock)) == Head(OfProducers(ApprovedWithStock));
      assert Second(OfProducts(ApprovedProducersWithStock)) == Second(OfProducers(ApprovedWithStock));
      assert Tail(OfProducts(ApprovedProducersWithStock)) == Tail(OfProducers(ApprovedWithStock));
    }
    ListShapeIsNotGeneric(k, name);
  }

  /** A list read never decodes with a type reference's generic shape. */
  lemma ListShapeIsNotGeneric(k: string, name: string)
    ensures DecodeShape(ListClass, k) != DecodeShape(TypeRef(name), k)
  {
  }

  /** Invalidating the listings of category 1 also drops those of category 12. */
  lemma CategoryGlobReachesLongerIds()
    ensures Drops(CategoryListings(1), Key(OfProducts(ByCategory(12))))
    ensures Drops(CategoryListings(1), Key(OfProducts(ByCategoryOfProducer(12, 3))))
  {
    assert LongText(1) == "1";
    assert LongText(12) == "12" by { assert NatText(12) == NatText(1) + [DigitChar(2)]; }
    CategoryListingsDrop(1, OfProducts(ByCategory(12)));
    CategoryListingsDrop(1, OfProducts(ByCategoryOfProducer(12, 3)));
  }
}
