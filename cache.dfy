/**
 * The read-through cache over the key/value store: lifetimes per entity type, the choice of
 * decode shape, the lookup-or-load algorithm, writes, and the exact and glob invalidations
 * the services issue.
 */
module Cache {
  import opened Wrappers
  import opened Text
  import Glob

  /** A stored value: its serialized text and the lifetime, in seconds, it was written with. */
  datatype Entry = Entry(text: string, ttlSeconds: nat)

  type Store = map<string, Entry>

  /** Lifetimes, in seconds, by entity type; every other type gets DefaultTtl. */
  const TtlConfig: map<string, nat> := map[
    "product" := 3600, "category" := 7200, "user" := 1800,
    "producer" := 1800, "order" := 600, "cart" := 300]

  const DefaultTtl: nat := 3600

  /** The lookup of an entity type in the lifetime table, with the one-hour default. */
  function TtlFor(entityType: string): (ttl: nat)
    ensures entityType !in TtlConfig ==> ttl == DefaultTtl
    ensures 300 <= ttl <= 7200
  {
    if entityType in TtlConfig then TtlConfig[entityType] else DefaultTtl
  }

  /** The first element of key.split(":"); None where the split is empty and indexing it throws. */
  function ExtractEntityType(key: string): (t: Option<string>)
    ensures t.None? <==> key != [] && AllColons(key)
  {
    JavaSplitHead(key);
    var parts := JavaSplit(key);
    if parts == [] then None else Some(parts[0])
  }

  /** The last element of key.split(":") read as a Long; None where it is missing or not a number. */
  function ExtractEntityId(key: string): (id: Option<int>)
    ensures id.Some? ==> IsLong(id.value)
    ensures key == [] ==> id.None?
  {
    var parts := JavaSplit(key);
    if parts == [] then None else ParseLong(parts[|parts| - 1])
  }

  /** The lifetime setCache writes with; None where extracting the entity type throws. */
  function ResolveTtl(key: string): (ttl: Option<nat>)
    ensures ttl.None? <==> key != [] && AllColons(key)
    ensures ttl.Some? ==> 300 <= ttl.value <= 7200
  {
    match ExtractEntityType(key)
    case None => None
    case Some(t) => Some(TtlFor(t))
  }

  /**
   * The lifetime of a key is the table entry for its text before the first ':', or the
   * default; only a key made of ':' alone fails, and is then never written.
   */
  lemma TtlOfKey(key: string)
    ensures ResolveTtl(key) == if key != [] && AllColons(key) then None else Some(TtlFor(BeforeColon(key)))
  {
    JavaSplitHead(key);
  }

  lemma TtlOfPrefixedKey(family: string, rest: string)
    requires family != [] && ':' !in family
    ensures ResolveTtl(family + ":" + rest) == Some(TtlFor(family))
  {
    var key := family + ":" + rest;
    assert key == family + [':'] + rest;
    BeforeColonOfWord(family, rest);
    assert key[0] != ':' by { assert key[0] == family[0]; assert family[0] in family; }
    TtlOfKey(key);
  }

  /** A family whose table lifetime is known gives every key of the family that lifetime. */
  lemma FamilyLifetime(family: string, rest: string, ttl: nat)
    requires family != [] && ':' !in family && TtlFor(family) == ttl
    ensures ResolveTtl(family + ":" + rest) == Some(ttl)
  {
    TtlOfPrefixedKey(family, rest);
  }

  /** Cart keys live five minutes. */
  lemma CartKeyLifetime(rest: string)
    ensures ResolveTtl("cart:" + rest) == Some(300)
  {
    assert "cart:" + rest == "cart" + ":" + rest;
    FamilyLifetime("cart", rest, 300);
  }

  /** A single product lives an hour, a single producer half an hour. */
  lemma EntityKeyLifetimes(rest: string)
    ensures ResolveTtl("product:" + rest) == Some(3600)
    ensures ResolveTtl("producer:" + rest) == Some(1800)
  {
    assert "product:" + rest == "product" + ":" + rest;
    assert "producer:" + rest == "producer" + ":" + rest;
    FamilyLifetime("product", rest, 3600);
    FamilyLifetime("producer", rest, 1800);
  }

  /** The plural list families are not in the table and take the one-hour default. */
  lemma ListKeyLifetimes(rest: string)
    ensures ResolveTtl("products:" + rest) == Some(3600)
    ensures ResolveTtl("producers:" + rest) == Some(3600)
  {
    assert "products:" + rest == "products" + ":" + rest;
    assert "producers:" + rest == "producers" + ":" + rest;
    FamilyLifetime("products", rest, 3600);
    FamilyLifetime("producers", rest, 3600);
  }

  /** A key ending in ":" and a Long yields that Long as its entity id. */
  lemma EntityIdOfKey(prefix: string, id: int)
    requires IsLong(id)
    ensures ExtractEntityId(prefix + ":" + LongText(id)) == Some(id)
  {
    assert prefix + ":" + LongText(id) == prefix + [':'] + LongText(id);
    JavaSplitLast(prefix, LongText(id));
    ParseLongText(id);
  }

  /** A key whose last segment starts with neither a digit nor a sign has no entity id. */
  lemma NoEntityIdOfWord(prefix: string, word: string)
    requires word != [] && ':' !in word && !IsDigit(word[0]) && word[0] != '-' && word[0] != '+'
    ensures ExtractEntityId(prefix + ":" + word) == None
  {
    assert prefix + ":" + word == prefix + [':'] + word;
    JavaSplitLast(prefix, word);
  }

  /** Whether part occurs in s (String.contains). */
  predicate Contains(s: string, part: string)
  {
    part <= s || (s != [] && Contains(s[1..], part))
  }

  /** The class or type reference a read asks the store's value to be decoded as. */
  datatype TypeToken = ListClass | ProductClass | OtherClass(name: string) | TypeRef(name: string)

  /** The target deserializeByType hands to the decoder. */
  datatype Shape = ListOfProducts | ListOfObjects | ProductRecord | ClassShape(name: string) | GenericShape(name: string)

  /** The decode target of deserializeByType: only a list read is decoded as a list. */
  function DecodeShape(t: TypeToken, key: string): (s: Shape)
    ensures t == ListClass <==> s == ListOfProducts || s == ListOfObjects
  {
    match t
    case ListClass => if Contains(key, "products") || Contains(key, "product") then ListOfProducts else ListOfObjects
    case ProductClass => ProductRecord
    case OtherClass(n) => ClassShape(n)
    case TypeRef(n) => GenericShape(n)
  }

  /**
   * A list read decodes as a list of products exactly when its key mentions "product"; the
   * test for "products" adds nothing to that.
   */
  lemma ListShapeByKey(key: string)
    ensures DecodeShape(ListClass, key) == if Contains(key, "product") then ListOfProducts else ListOfObjects
  {
    LongerPartContained(key, "product", "s");
  }

  /** Where a text occurs, every prefix of it occurs as well. */
  lemma {:induction false} LongerPartContained(s: string, part: string, more: string)
    ensures Contains(s, part + more) ==> Contains(s, part)
    decreases |s|
  {
    if part + more <= s {
      assert part <= s;
    } else if s != [] {
      LongerPartContained(s[1..], part, more);
    }
  }

  /** The JSON encoder and decoder; either may fail, and a decode of the text "null" yields None. */
  datatype Codec<!V> = Codec(encode: V -> Option<string>, decode: (Shape, string) -> Option<V>)

  /** What one call of the loader does: return a value or null, or throw. */
  datatype Load<V> = Loaded(value: Option<V>) | Threw

  /** The loader's first answer, and its second answer should the first call throw. */
  datatype Loader<V> = Loader(first: Load<V>, retry: Load<V>)

  /** The outcome of a read-through lookup: what the caller sees, how often the loader ran, the new store. */
  datatype Read<V> = Read(result: Load<V>, loaderCalls: nat, store: Store)

  /** The store after setCache; every failure on the way is swallowed and leaves the store as it was. */
  function Written<V>(store: Store, online: bool, codec: Codec<V>, key: string, v: V): Store
  {
    match ResolveTtl(key)
    case None => store
    case Some(ttl) =>
      match codec.encode(v)
      case None => store
      case Some(text) => if online then store[key := Entry(text, ttl)] else store
  }

  /** A present, non-empty value that decodes. */
  predicate IsHit<V>(store: Store, key: string, t: TypeToken, codec: Codec<V>)
  {
    key in store && store[key].text != "" && codec.decode(DecodeShape(t, key), store[key].text).Some?
  }

  /** getFromCache, as a function of the store before the call. */
  function ReadThrough<V>(store: Store, online: bool, key: string, t: TypeToken, codec: Codec<V>, loader: Loader<V>): (r: Read<V>)
    ensures r.loaderCalls <= 2
    ensures r.loaderCalls == 0 <==> online && IsHit(store, key, t, codec)
  {
    if !online then Read(loader.first, 1, store)
    else if IsHit(store, key, t, codec) then
      Read(Loaded(codec.decode(DecodeShape(t, key), store[key].text)), 0, store)
    else
      match loader.first
      case Threw => Read(loader.retry, 2, store)
      case Loaded(None) => Read(Loaded(None), 1, store)
      case Loaded(Some(v)) => Read(Loaded(Some(v)), 1, Written(store, online, codec, key, v))
  }

  /** A hit returns the decoded value, leaves the store alone and never runs the loader. */
  lemma HitSkipsLoader<V>(store: Store, key: string, t: TypeToken, codec: Codec<V>, loader: Loader<V>)
    requires IsHit(store, key, t, codec)
    ensures ReadThrough(store, true, key, t, codec, loader)
      == Read(Loaded(codec.decode(DecodeShape(t, key), store[key].text)), 0, store)
  {
  }

  /** An absent or empty value is a miss: the loader's first answer is what happens next. */
  lemma MissRunsLoader<V>(store: Store, key: string, t: TypeToken, codec: Codec<V>, loader: Loader<V>)
    requires key !in store || store[key].text == ""
    ensures ReadThrough(store, true, key, t, codec, loader).loaderCalls >= 1
    ensures loader.first.Loaded? ==> ReadThrough(store, true, key, t, codec, loader).result == loader.first
  {
  }

  /**
   * A value that does not decode is a miss and never an error: the caller sees what it would
   * see if the key were absent, with the loader run as often, and the store ends the same
   * apart from that key.
   */
  lemma DecodeFailureIsMiss<V>(store: Store, key: string, t: TypeToken, codec: Codec<V>, loader: Loader<V>)
    requires key in store && codec.decode(DecodeShape(t, key), store[key].text).None?
    ensures var withEntry := ReadThrough(store, true, key, t, codec, loader);
            var without := ReadThrough(store - {key}, true, key, t, codec, loader);
            withEntry.result == without.result && withEntry.loaderCalls == without.loaderCalls &&
            withEntry.store - {key} == without.store - {key}
  {
  }

  /**
   * On a miss a non-null loader result is stored under the key with the key's lifetime (when
   * the key has one and the value encodes) and returned.
   */
  lemma MissStoresLoadedValue<V>(store: Store, key: string, t: TypeToken, codec: Codec<V>, v: V, retry: Load<V>, text: string, ttl: nat)
    requires !IsHit(store, key, t, codec)
    requires codec.encode(v) == Some(text) && ResolveTtl(key) == Some(ttl)
    ensures ReadThrough(store, true, key, t, codec, Loader(Loaded(Some(v)), retry))
      == Read(Loaded(Some(v)), 1, store[key := Entry(text, ttl)])
  {
  }

  /**
   * A null loader result is returned without any write, so the next lookup of the key misses
   * again and runs its loader again.
   */
  lemma NullIsNotCached<V>(store: Store, key: string, t: TypeToken, codec: Codec<V>, retry: Load<V>, next: Loader<V>)
    requires !IsHit(store, key, t, codec)
    ensures var first := ReadThrough(store, true, key, t, codec, Loader(Loaded(None), retry));
            first == Read(Loaded(None), 1, store) &&
            ReadThrough(first.store, true, key, t, codec, next).loaderCalls >= 1
  {
  }

  /** A throwing loader runs a second time; the caller sees that second outcome, exception included. */
  lemma ThrowRetriesLoader<V>(store: Store, key: string, t: TypeToken, codec: Codec<V>, retry: Load<V>)
    requires !IsHit(store, key, t, codec)
    ensures ReadThrough(store, true, key, t, codec, Loader(Threw, retry)) == Read(retry, 2, store)
  {
  }

  /** With the store down the lookup fails open: the loader runs once and nothing is written. */
  lemma UnavailableStoreRunsLoaderOnce<V>(store: Store, key: string, t: TypeToken, codec: Codec<V>, loader: Loader<V>)
    ensures ReadThrough(store, false, key, t, codec, loader) == Read(loader.first, 1, store)
  {
  }

  /**
   * A value written through a codec that decodes what it encodes is read back without the
   * loader, whatever loader the later read brings.
   */
  lemma WriteThenReadHits<V>(store: Store, key: string, t: TypeToken, codec: Codec<V>, v: V, loader: Loader<V>)
    requires ResolveTtl(key).Some?
    requires codec.encode(v).Some? && codec.encode(v).value != ""
    requires codec.decode(DecodeShape(t, key), codec.encode(v).value) == Some(v)
    ensures ReadThrough(Written(store, true, codec, key, v), true, key, t, codec, loader).result == Loaded(Some(v))
    ensures ReadThrough(Written(store, true, codec, key, v), true, key, t, codec, loader).loaderCalls == 0
  {
  }

  /** One invalidation call: invalidateCache deletes a key, invalidatePattern a glob's matches. */
  datatype Invalidation = Exact(key: string) | Pattern(glob: string)

  predicate Drops(op: Invalidation, key: string)
  {
    match op
    case Exact(k) => key == k
    case Pattern(g) => Glob.Matches(g, key)
  }

  /** Whether some call of a sequence of invalidations drops the key. */
  predicate DroppedBy(ops: seq<Invalidation>, key: string)
  {
    exists i :: 0 <= i < |ops| && Drops(ops[i], key)
  }

  /** A key is dropped by a sequence of calls exactly when it is dropped by one of them. */
  lemma DroppedByElements(ops: seq<Invalidation>, key: string)
    ensures DroppedBy(ops, key) <==> exists op :: op in ops && Drops(op, key)
  {
    if DroppedBy(ops, key) {
      var i :| 0 <= i < |ops| && Drops(ops[i], key);
      assert ops[i] in ops;
    }
  }

  /** The store after deleting every key that matches the glob. */
  function WithoutMatches(store: Store, glob: string): Store
  {
    map k | k in store && !Glob.Matches(glob, k) :: store[k]
  }

  /** The store after one invalidation call; a store failure is swallowed and changes nothing. */
  function Apply(store: Store, online: bool, op: Invalidation): Store
  {
    if !online then store
    else
      match op
      case Exact(k) => store - {k}
      case Pattern(g) => WithoutMatches(store, g)
  }

  /** The store after a sequence of invalidation calls, in order. */
  function Invalidated(store: Store, online: bool, ops: seq<Invalidation>): Store
  {
    if ops == [] then store else Apply(Invalidated(store, online, ops[..|ops| - 1]), online, ops[|ops| - 1])
  }

  /** A glob with no matching key leaves the store as it is. */
  lemma NoMatchIsNoOp(store: Store, glob: string)
    requires forall k :: k in store ==> !Glob.Matches(glob, k)
    ensures WithoutMatches(store, glob) == store
  {
  }

  /** Deleting a glob's matches twice removes nothing more. */
  lemma WithoutMatchesIdempotent(store: Store, glob: string)
    ensures WithoutMatches(WithoutMatches(store, glob), glob) == WithoutMatches(store, glob)
  {
  }

  /** invalidatePattern("*") empties the store. */
  lemma StarEmptiesStore(store: Store)
    ensures WithoutMatches(store, "*") == map[]
  {
    forall k | k in store ensures Glob.Matches("*", k) {
      Glob.StarMatchesAll(k);
    }
  }

  /**
   * After a sequence of invalidations a key survives exactly when it was present and no call
   * of the sequence drops it, and a survivor keeps its value and lifetime.
   */
  lemma {:induction false} SurvivesInvalidation(store: Store, ops: seq<Invalidation>, key: string)
    ensures key in Invalidated(store, true, ops) <==> key in store && !DroppedBy(ops, key)
    ensures key in Invalidated(store, true, ops) ==> Invalidated(store, true, ops)[key] == store[key]
    decreases |ops|
  {
    if ops != [] {
      var init := ops[..|ops| - 1];
      SurvivesInvalidation(store, init, key);
      assert DroppedBy(ops, key) <==> DroppedBy(init, key) || Drops(ops[|ops| - 1], key) by {
        if DroppedBy(ops, key) {
          var i :| 0 <= i < |ops| && Drops(ops[i], key);
          if i < |ops| - 1 { assert init[i] == ops[i]; }
        }
        if DroppedBy(init, key) {
          var i :| 0 <= i < |init| && Drops(init[i], key);
          assert ops[i] == init[i];
        }
      }
    }
  }

  /** With the store down no invalidation has any effect. */
  lemma {:induction false} UnavailableStoreKeepsEverything(store: Store, ops: seq<Invalidation>)
    ensures Invalidated(store, false, ops) == store
    decreases |ops|
  {
    if ops != [] {
      UnavailableStoreKeepsEverything(store, ops[..|ops| - 1]);
    }
  }

  /** Invalidating with one sequence and then another is invalidating with their concatenation. */
  lemma {:induction false} InvalidatedAppend(store: Store, online: bool, a: seq<Invalidation>, b: seq<Invalidation>)
    ensures Invalidated(store, online, a + b) == Invalidated(Invalidated(store, online, a), online, b)
    decreases |b|
  {
    if b == [] {
      assert a + b == a;
    } else {
      var init := b[..|b| - 1];
      assert (a + b)[..|a + b| - 1] == a + init;
      InvalidatedAppend(store, online, a, init);
    }
  }

  lemma InvalidatedSnoc(store: Store, online: bool, ops: seq<Invalidation>, op: Invalidation)
    ensures Invalidated(store, online, ops + [op]) == Apply(Invalidated(store, online, ops), online, op)
  {
    assert (ops + [op])[..|ops|] == ops;
  }

  /** The cache service: the shared store, reachable or not. */
  class CacheService {
    var store: Store
    var online: bool

    constructor (initial: Store, available: bool)
      ensures store == initial && online == available
    {
      store := initial;
      online := available;
    }

    /** getFromCache: return a decodable hit, else run the loader and store a non-null answer. */
    method GetFromCache<V>(key: string, t: TypeToken, codec: Codec<V>, loader: Loader<V>) returns (r: Load<V>, loaderCalls: nat)
      modifies this`store
      ensures Read(r, loaderCalls, store) == ReadThrough(old(store), online, key, t, codec, loader)
    {
      if !online {
        // The store read throws; the catch block answers from the loader.
        r, loaderCalls := loader.first, 1;
        return;
      }
      var cached: Option<string> := if key in store then Some(store[key].text) else None;
      if cached.Some? && cached.value != "" {
        var decoded := codec.decode(DecodeShape(t, key), cached.value);
        if decoded.Some? {
          r, loaderCalls := Loaded(decoded), 0;
          return;
        }
      }
      var data := loader.first;
      loaderCalls := 1;
      if data.Threw? {
        // The loader's exception lands in the catch block, which calls the loader again.
        r, loaderCalls := loader.retry, 2;
        return;
      }
      if data.value.Some? {
        SetCache(key, data.value.value, codec);
      }
      r := data;
    }

    /** setCache: write the encoded value with the lifetime of the key's entity type. */
    method SetCache<V>(key: string, value: V, codec: Codec<V>)
      modifies this`store
      ensures store == Written(old(store), online, codec, key, value)
    {
      var entityType := ExtractEntityType(key);
      if entityType.None? {
        return;
      }
      var ttl := TtlFor(entityType.value);
      var text := codec.encode(value);
      if text.None? {
        return;
      }
      if online {
        store := store[key := Entry(text.value, ttl)];
      }
    }

    /** invalidateCache: delete one exact key. */
    method InvalidateCache(key: string)
      modifies this`store
      ensures store == Apply(old(store), online, Exact(key))
    {
      if online {
        store := store - {key};
      }
    }

    /** invalidatePattern: delete every key the glob matches; with no match, delete nothing. */
    method InvalidatePattern(glob: string)
      modifies this`store
      ensures store == Apply(old(store), online, Pattern(glob))
    {
      if !online {
        return;
      }
      var keys := set k | k in store && Glob.Matches(glob, k);
      if keys != {} {
        store := store - keys;
      }
      forall k | k in old(store) && Glob.Matches(glob, k) ensures k !in store {
        assert k in keys;
      }
      assert store == WithoutMatches(old(store), glob);
    }

    /**
     * The store queries the debug endpoints call; None where the query throws. CacheService
     * does not declare them: the model takes availability to be the store's flag, never
     * throwing, and the three others to throw exactly when the store is down.
     */
    function IsAvailable(): (up: bool)
      reads this
      ensures up <==> AllKeys().Some? && Size().Some?
    {
      online
    }

    function AllKeys(): (keys: Option<set<string>>)
      reads this
      ensures keys.Some? <==> online
      ensures keys.Some? ==> forall k :: k in keys.value <==> k in store
    {
      if online then Some(store.Keys) else None
    }

    function Size(): (n: Option<nat>)
      reads this
      ensures n.Some? <==> online
      ensures n.Some? ==> AllKeys().Some? && n.value == |AllKeys().value|
    {
      if online then Some(|store|) else None
    }

    function RawValue(key: string): (v: Option<Option<string>>)
      reads this
      ensures v.Some? <==> online
      ensures v.Some? ==> (v.value.Some? <==> key in store)
      ensures v.Some? && v.value.Some? ==> v.value.value == store[key].text
    {
      if !online then None else if key in store then Some(Some(store[key].text)) else Some(None)
    }
  }

  /**
   * The life of one entry: written, read back without the loader, invalidated, and then read
   * through the loader again, which answers with the new value; that answer is then the one
   * entry of the store, under the key's lifetime, whenever it encodes.
   */
  lemma WriteReadInvalidateRead<V>(key: string, t: TypeToken, codec: Codec<V>, v1: V, v2: V, loader1: Loader<V>)
    requires ResolveTtl(key).Some?
    requires codec.encode(v1).Some? && codec.encode(v1).value != ""
    requires codec.decode(DecodeShape(t, key), codec.encode(v1).value) == Some(v1)
    ensures var s1 := Written(map[], true, codec, key, v1);
            var r1 := ReadThrough(s1, true, key, t, codec, loader1);
            var s2 := Apply(r1.store, true, Exact(key));
            var r2 := ReadThrough(s2, true, key, t, codec, Loader(Loaded(Some(v2)), Threw));
            r1.result == Loaded(Some(v1)) && r1.loaderCalls == 0 &&
            r2.result == Loaded(Some(v2)) && r2.loaderCalls == 1 &&
            (codec.encode(v2).Some? ==> r2.store == map[key := Entry(codec.encode(v2).value, ResolveTtl(key).value)]) &&
            (codec.encode(v2).None? ==> r2.store == map[])
  {
    WriteThenReadHits(map[], key, t, codec, v1, loader1);
  }
}
