/**
 * CartService: adding, updating and removing cart lines against product stock, and the
 * invalidation of the user's cached cart reads after each write. Stock itself is never
 * decremented here; only the cart line is bounded by it.
 */
module CartService {
  import opened Wrappers
  import opened Text
  import opened Database
  import opened Cache
  import opened CacheKeys

  // ---------------------------------------------------------------------------------------
  // The merge of a repeated add

  const IntMin: int := -0x8000_0000
  const IntMax: int := 0x7FFF_FFFF

  /** Java `int` addition: the exact sum brought back into 32 bits, two's complement. */
  function JavaIntAdd(a: int, b: int): (s: int)
    ensures IntMin <= s <= IntMax
    ensures IntMin <= a + b <= IntMax ==> s == a + b
  {
    (a + b - IntMin) % 0x1_0000_0000 + IntMin
  }

  /**
   * The merge check of addToCart as written: the new line quantity is the int sum of the
   * current and the added quantity, rejected only when the stock is below that int sum.
   */
  function MergeAsWritten(stock: int, current: int, added: int): (r: Result<int>)
    ensures r.Ok? ==> IntMin <= r.value <= IntMax && r.value <= stock
    ensures IntMin <= current + added <= IntMax ==> (r.Ok? <==> current + added <= stock)
  {
    var sum := JavaIntAdd(current, added);
    if stock < sum then Err("IllegalArgumentException") else Ok(sum)
  }

  /** The merge check as intended: the exact sum, rejected when it exceeds the stock. */
  function Merge(stock: int, current: int, added: int): (r: Result<int>)
    ensures r.Err? <==> stock < current + added
    ensures r.Ok? ==> r.value == current + added && r.value <= stock
  {
    if stock < current + added then Err("IllegalArgumentException") else Ok(current + added)
  }

  /** While the sum fits in an int the two checks agree. */
  lemma MergeAgreesWithoutOverflow(stock: int, current: int, added: int)
    requires IntMin <= current + added <= IntMax
    ensures MergeAsWritten(stock, current, added) == Merge(stock, current, added)
  {
  }

  /**
   * Every add that overflows the int sum of two positive quantities wraps to a negative line
   * quantity, which no stock an int column holds refuses; the line then breaks the entity's
   * @Positive constraint, so the request fails only at the commit, after the cart reads were
   * invalidated.
   */
  lemma {:induction false} WrappedMergeIsNegative(stock: int, current: int, added: int)
    requires 0 <= stock && 0 < current <= IntMax && 0 < added <= IntMax && IntMax < current + added
    ensures MergeAsWritten(stock, current, added) == Ok(current + added - 0x1_0000_0000)
    ensures current + added - 0x1_0000_0000 < 0
    ensures stock <= IntMax ==> Merge(stock, current, added).Err?
  {
    var shifted := current + added - IntMin;
    assert 0x1_0000_0000 <= shifted < 2 * 0x1_0000_0000;
    assert shifted % 0x1_0000_0000 == shifted - 0x1_0000_0000;
  }

  /**
   * With the largest stock an int column holds, a line of 2000000000 and a further add of
   * 2000000000 (each within stock, so the first check passes) wraps to a negative sum, which
   * the second check lets through and the entity constraint then refuses; the intended check
   * rejects the add before anything is saved.
   */
  lemma MergeWrapsPastStockCheck()
    ensures MergeAsWritten(IntMax, 2000000000, 2000000000) == Ok(-294967296)
    ensures Merge(IntMax, 2000000000, 2000000000).Err?
  {
    WrappedMergeIsNegative(IntMax, 2000000000, 2000000000);
  }

  // ---------------------------------------------------------------------------------------
  // The cart table

  /** A row findByUserIdAndProductId can return for the pair. */
  predicate IsLine(carts: map<int, CartItem>, userId: int, productId: int, id: int)
  {
    id in carts && carts[id].userId == userId && carts[id].productId == productId
  }

  /** The user already has a line for the product. */
  predicate HasLine(carts: map<int, CartItem>, userId: int, productId: int)
  {
    exists id :: id in carts && IsLine(carts, userId, productId, id)
  }

  /** Two lines for the pair: findByUserIdAndProductId then throws, as it cannot pick one. */
  predicate Ambiguous(carts: map<int, CartItem>, userId: int, productId: int)
  {
    exists a, b :: a in carts && b in carts && IsLine(carts, userId, productId, a) && IsLine(carts, userId, productId, b) && a != b
  }

  /** Every cart line asks for no more than its product's stock. */
  predicate CartWithinStock(carts: map<int, CartItem>, products: map<int, Product>)
  {
    forall id :: id in carts && carts[id].productId in products ==>
      carts[id].quantity <= products[carts[id].productId].quantity
  }

  /** The @Positive constraint of the quantity column, which every stored line meets. */
  predicate LinesPositive(carts: map<int, CartItem>)
  {
    forall id :: id in carts ==> 0 < carts[id].quantity
  }

  /**
   * The outcome of addToCart on the table: the answer, the lines after the transaction, and
   * whether the user's cart reads were invalidated (which the cache keeps even when the
   * commit then fails).
   */
  datatype CartWrite = CartWrite(result: Result<int>, carts: map<int, CartItem>, invalidated: bool)

  /**
   * addToCart on the tables: the user and the product must exist and the stock must cover
   * the added quantity; an existing line for the pair is merged, otherwise a new line with
   * id `newId` is created. A line quantity that is not positive breaks the entity constraint:
   * a new line is refused when it is inserted, before the cache call; a merged line only at
   * the commit, after the cache call. Any throw leaves the table as it was.
   */
  function Added(users: map<int, User>, products: map<int, Product>, carts: map<int, CartItem>,
                 userId: int, productId: int, quantity: int, newId: int): (w: CartWrite)
    ensures w.result.Err? ==> w.carts == carts
    ensures w.result.Ok? ==> IsLine(w.carts, userId, productId, w.result.value) &&
                             0 < w.carts[w.result.value].quantity &&
                             w.carts - {w.result.value} == carts - {w.result.value}
    ensures w.invalidated <==>
              w.result.Ok? || (w.result == Err("ConstraintViolationException") && HasLine(carts, userId, productId))
  {
    if userId !in users || productId !in products || products[productId].quantity < quantity then
      CartWrite(Err("IllegalArgumentException"), carts, false)
    else if Ambiguous(carts, userId, productId) then
      CartWrite(Err("IncorrectResultSizeDataAccessException"), carts, false)
    else if HasLine(carts, userId, productId) then
      var id :| id in carts && IsLine(carts, userId, productId, id);
      match Merge(products[productId].quantity, carts[id].quantity, quantity)
      case Err(e) => CartWrite(Err(e), carts, false)
      case Ok(q) =>
        if q <= 0 then CartWrite(Err("ConstraintViolationException"), carts, true)
        else CartWrite(Ok(id), carts[id := carts[id].(quantity := q)], true)
    else if quantity <= 0 then CartWrite(Err("ConstraintViolationException"), carts, false)
    else CartWrite(Ok(newId), carts[newId := CartItem(userId, productId, quantity)], true)
  }

  /** A successful add leaves the user's line for the product within the product's stock. */
  lemma AddedWithinStock(users: map<int, User>, products: map<int, Product>, carts: map<int, CartItem>,
                         userId: int, productId: int, quantity: int, newId: int)
    requires newId !in carts
    ensures var w := Added(users, products, carts, userId, productId, quantity, newId);
            w.result.Ok? ==>
              var id := w.result.value;
              id in w.carts && w.carts[id].userId == userId && w.carts[id].productId == productId &&
              productId in products && w.carts[id].quantity <= products[productId].quantity
  {
  }

  /**
   * What a successful add stores: a new line holds the added quantity; a merged line holds
   * the old quantity plus the added one. No other line changes, and a failed add changes
   * nothing.
   */
  lemma AddedQuantity(users: map<int, User>, products: map<int, Product>, carts: map<int, CartItem>,
                      userId: int, productId: int, quantity: int, newId: int)
    requires newId !in carts
    ensures var w := Added(users, products, carts, userId, productId, quantity, newId);
            (w.result.Err? ==> w.carts == carts) &&
            (w.result.Ok? && !HasLine(carts, userId, productId) ==>
               w.result.value == newId && w.carts == carts[newId := CartItem(userId, productId, quantity)]) &&
            (w.result.Ok? && HasLine(carts, userId, productId) ==>
               var id := w.result.value;
               (forall other :: IsLine(carts, userId, productId, other) <==> other == id) &&
               w.carts == carts[id := carts[id].(quantity := carts[id].quantity + quantity)])
  {
  }

  /**
   * An add is refused exactly for a missing user or product, short stock, an ambiguous
   * lookup, a new line whose quantity is not positive, or a merge whose sum exceeds the stock
   * or is not positive.
   */
  lemma AddedErrors(users: map<int, User>, products: map<int, Product>, carts: map<int, CartItem>,
                    userId: int, productId: int, quantity: int, newId: int)
    ensures var w := Added(users, products, carts, userId, productId, quantity, newId);
            w.result.Err? <==>
              userId !in users || productId !in products || products[productId].quantity < quantity ||
              Ambiguous(carts, userId, productId) ||
              (!HasLine(carts, userId, productId) && quantity <= 0) ||
              exists id :: IsLine(carts, userId, productId, id) &&
                           (products[productId].quantity < carts[id].quantity + quantity ||
                            carts[id].quantity + quantity <= 0)
  {
  }

  /**
   * With stored lines that meet the entity constraint and a positive added quantity, which the
   * request body's own constraint demands, the entity check never refuses an add, and the cart
   * reads are invalidated exactly when the add succeeds.
   */
  lemma PositiveAddPassesEntityCheck(users: map<int, User>, products: map<int, Product>, carts: map<int, CartItem>,
                                     userId: int, productId: int, quantity: int, newId: int)
    requires LinesPositive(carts) && 0 < quantity
    ensures var w := Added(users, products, carts, userId, productId, quantity, newId);
            w.result != Err("ConstraintViolationException") && (w.invalidated <==> w.result.Ok?)
  {
  }

  /** Adding keeps every line within stock when all were before. */
  lemma AddedKeepsCartWithinStock(users: map<int, User>, products: map<int, Product>, carts: map<int, CartItem>,
                                  userId: int, productId: int, quantity: int, newId: int)
    requires newId !in carts && CartWithinStock(carts, products)
    ensures CartWithinStock(Added(users, products, carts, userId, productId, quantity, newId).carts, products)
  {
    AddedWithinStock(users, products, carts, userId, productId, quantity, newId);
    AddedQuantity(users, products, carts, userId, productId, quantity, newId);
  }

  /** Adding keeps every line positive when all were before. */
  lemma AddedKeepsLinesPositive(users: map<int, User>, products: map<int, Product>, carts: map<int, CartItem>,
                                userId: int, productId: int, quantity: int, newId: int)
    requires LinesPositive(carts)
    ensures LinesPositive(Added(users, products, carts, userId, productId, quantity, newId).carts)
  {
    var w := Added(users, products, carts, userId, productId, quantity, newId);
    if w.result.Ok? {
      forall id | id in w.carts
        ensures 0 < w.carts[id].quantity
      {
        if id != w.result.value {
          assert id in w.carts - {w.result.value};
        }
      }
    }
  }

  // ---------------------------------------------------------------------------------------
  // The cache

  /**
   * After any cart write of user U, a cached read survives exactly when it was cached and is
   * not one of U's three cart reads, and a survivor keeps its value.
   */
  lemma CartWriteDropsOnlyUsersCart(store: Store, userId: int, r: CachedRead)
    ensures Key(r) in Apply(store, true, UserCart(userId)) <==> Key(r) in store && !(r.OfCart? && r.c.userId == userId)
    ensures Key(r) in Apply(store, true, UserCart(userId)) ==> Apply(store, true, UserCart(userId))[Key(r)] == store[Key(r)]
  {
    UserCartDrops(userId, r);
  }

  class CartService {
    const db: Tables
    const cache: CacheService

    constructor (db: Tables, cache: CacheService)
      ensures this.db == db && this.cache == cache
    {
      this.db := db;
      this.cache := cache;
    }

    /**
     * addToCart; `newId` is the id the database generates for a new line. The merged line is
     * the managed row, so its entity constraint is checked at the commit, after the cart reads
     * were invalidated; a new line is checked when it is inserted, at the save.
     */
    method AddToCart(userId: int, productId: int, quantity: int, newId: int) returns (r: Result<int>)
      requires newId !in db.cartItems
      modifies db`cartItems, cache`store
      ensures var w := Added(old(db.users), old(db.products), old(db.cartItems), userId, productId, quantity, newId);
              r == w.result && db.cartItems == w.carts &&
              cache.store == if w.invalidated then Apply(old(cache.store), cache.online, UserCart(userId)) else old(cache.store)
      ensures CartWithinStock(old(db.cartItems), db.products) ==> CartWithinStock(db.cartItems, db.products)
      ensures LinesPositive(old(db.cartItems)) ==> LinesPositive(db.cartItems)
    {
      if userId !in db.users {
        return Err("IllegalArgumentException");
      }
      if productId !in db.products {
        return Err("IllegalArgumentException");
      }
      var product := db.products[productId];
      if product.quantity < quantity {
        return Err("IllegalArgumentException");
      }
      if Ambiguous(db.cartItems, userId, productId) {
        return Err("IncorrectResultSizeDataAccessException");
      }
      var id;
      if HasLine(db.cartItems, userId, productId) {
        id :| id in db.cartItems && IsLine(db.cartItems, userId, productId, id);
        var line := db.cartItems[id];
        var merged := Merge(product.quantity, line.quantity, quantity);
        if merged.Err? {
          return Err(merged.error);
        }
        if merged.value <= 0 {
          cache.InvalidatePattern("cart:*:user:" + LongText(userId));
          return Err("ConstraintViolationException");
        }
        db.cartItems := db.cartItems[id := line.(quantity := merged.value)];
      } else {
        if quantity <= 0 {
          return Err("ConstraintViolationException");
        }
        id := newId;
        db.cartItems := db.cartItems[id := CartItem(userId, productId, quantity)];
      }
      cache.InvalidatePattern("cart:*:user:" + LongText(userId));
      r := Ok(id);
      if CartWithinStock(old(db.cartItems), db.products) {
        AddedKeepsCartWithinStock(old(db.users), db.products, old(db.cartItems), userId, productId, quantity, newId);
      }
      if LinesPositive(old(db.cartItems)) {
        AddedKeepsLinesPositive(old(db.users), db.products, old(db.cartItems), userId, productId, quantity, newId);
      }
    }

    /**
     * updateCartItem: the line must exist, be the user's, and the new quantity must fit the
     * stock. The line is the managed row, so a quantity that is not positive passes these
     * checks and is refused by the entity constraint at the commit, after the cart reads were
     * invalidated.
     */
    method UpdateCartItem(userId: int, cartItemId: int, quantity: int) returns (r: Result<CartItem>)
      modifies db`cartItems, cache`store
      ensures cartItemId !in old(db.cartItems) || old(db.cartItems)[cartItemId].userId != userId ||
              old(db.cartItems)[cartItemId].productId !in db.products ||
              db.products[old(db.cartItems)[cartItemId].productId].quantity < quantity ==>
                r == Err("IllegalArgumentException") && db.cartItems == old(db.cartItems) && cache.store == old(cache.store)
      ensures cartItemId in old(db.cartItems) && old(db.cartItems)[cartItemId].userId == userId &&
              old(db.cartItems)[cartItemId].productId in db.products &&
              quantity <= db.products[old(db.cartItems)[cartItemId].productId].quantity && quantity <= 0 ==>
                r == Err("ConstraintViolationException") && db.cartItems == old(db.cartItems) &&
                cache.store == Apply(old(cache.store), cache.online, UserCart(userId))
      ensures cartItemId in old(db.cartItems) && old(db.cartItems)[cartItemId].userId == userId &&
              old(db.cartItems)[cartItemId].productId in db.products &&
              0 < quantity <= db.products[old(db.cartItems)[cartItemId].productId].quantity ==>
                r.Ok?
      ensures r.Ok? ==>
                r.value == old(db.cartItems)[cartItemId].(quantity := quantity) &&
                db.cartItems == old(db.cartItems)[cartItemId := r.value] &&
                0 < r.value.quantity <= db.products[r.value.productId].quantity &&
                cache.store == Apply(old(cache.store), cache.online, UserCart(userId))
      ensures r.Err? ==> db.cartItems == old(db.cartItems)
      ensures CartWithinStock(old(db.cartItems), db.products) ==> CartWithinStock(db.cartItems, db.products)
      ensures LinesPositive(old(db.cartItems)) ==> LinesPositive(db.cartItems)
    {
      if cartItemId !in db.cartItems {
        return Err("IllegalArgumentException");
      }
      var line := db.cartItems[cartItemId];
      if line.userId != userId {
        return Err("IllegalArgumentException");
      }
      if line.productId !in db.products || db.products[line.productId].quantity < quantity {
        return Err("IllegalArgumentException");
      }
      if quantity <= 0 {
        cache.InvalidatePattern("cart:*:user:" + LongText(userId));
        return Err("ConstraintViolationException");
      }
      line := line.(quantity := quantity);
      db.cartItems := db.cartItems[cartItemId := line];
      cache.InvalidatePattern("cart:*:user:" + LongText(userId));
      r := Ok(line);
    }

    /** removeFromCart: false for a missing line, a throw for another user's line. */
    method RemoveFromCart(userId: int, cartItemId: int) returns (r: Result<bool>)
      modifies db`cartItems, cache`store
      ensures cartItemId !in old(db.cartItems) ==>
                r == Ok(false) && db.cartItems == old(db.cartItems) && cache.store == old(cache.store)
      ensures cartItemId in old(db.cartItems) && old(db.cartItems)[cartItemId].userId != userId ==>
                r.Err? && db.cartItems == old(db.cartItems) && cache.store == old(cache.store)
      ensures cartItemId in old(db.cartItems) && old(db.cartItems)[cartItemId].userId == userId ==>
                r == Ok(true) && db.cartItems == old(db.cartItems) - {cartItemId} &&
                cache.store == Apply(old(cache.store), cache.online, UserCart(userId))
      ensures CartWithinStock(old(db.cartItems), db.products) ==> CartWithinStock(db.cartItems, db.products)
      ensures LinesPositive(old(db.cartItems)) ==> LinesPositive(db.cartItems)
    {
      if cartItemId !in db.cartItems {
        return Ok(false);
      }
      if db.cartItems[cartItemId].userId != userId {
        return Err("IllegalArgumentException");
      }
      db.cartItems := db.cartItems - {cartItemId};
      cache.InvalidatePattern("cart:*:user:" + LongText(userId));
      r := Ok(true);
    }

    /** clearCart: every line of the user goes, and the user's cart reads are invalidated. */
    method ClearCart(userId: int)
      modifies db`cartItems, cache`store
      ensures db.cartItems == CartsWithoutUser(old(db.cartItems), userId)
      ensures cache.store == Apply(old(cache.store), cache.online, UserCart(userId))
      ensures CartWithinStock(old(db.cartItems), db.products) ==> CartWithinStock(db.cartItems, db.products)
      ensures LinesPositive(old(db.cartItems)) ==> LinesPositive(db.cartItems)
    {
      db.cartItems := CartsWithoutUser(db.cartItems, userId);
      cache.InvalidatePattern("cart:*:user:" + LongText(userId));
    }
  }
}
