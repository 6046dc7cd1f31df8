/**
 * The rows of the marketplace's relational tables, and the tables themselves as the one
 * mutable object every service shares. A row is a value; a table maps the generated id to
 * its row. Timestamps, prices and other floating-point columns are not part of the rows.
 */
module Database {
  import opened Wrappers

  /** A user; the role is the name of the Role enum constant, or null. */
  datatype User = User(name: string, email: string, role: Option<string>)

  /** A producer; the user link is nullable in the entity object a caller hands to save. */
  datatype Producer = Producer(businessName: string, location: string, approved: bool, userId: Option<int>)

  /** A product; its producer column is not nullable, its quantity is the stock on hand. */
  datatype Product = Product(name: string, description: string, quantity: int, producerId: int)

  /** A category; `active` is a nullable Boolean column. */
  datatype Category = Category(name: string, description: string, active: Option<bool>)

  datatype Tag = Tag(name: string)

  /**
   * The text a @NotBlank column refuses: Bean Validation trims it first, and Java's trim drops
   * every character up to U+0020, so a text of such characters alone (the empty text too) is blank.
   */
  predicate Blank(s: string)
  {
    forall i :: 0 <= i < |s| ==> s[i] <= ' '
  }

  /** A row of the product_categories or product_tags link table. */
  datatype Link = Link(productId: int, otherId: int)

  datatype CartItem = CartItem(userId: int, productId: int, quantity: int)

  datatype OrderStatus = PENDING | CONFIRMED | PREPARING | SHIPPED | DELIVERED | CANCELLED

  datatype OrderItem = OrderItem(productId: int, quantity: int)

  datatype Order = Order(userId: int, status: OrderStatus, items: seq<OrderItem>,
                         shippingAddress: string, paymentMethod: string, notes: string)

  /** The cart rows left after deleteByUserId: every row of the user goes, all others stay. */
  function CartsWithoutUser(carts: map<int, CartItem>, userId: int): (r: map<int, CartItem>)
    ensures forall id :: id in r <==> id in carts && carts[id].userId != userId
    ensures forall id :: id in r ==> r[id] == carts[id]
  {
    map id | id in carts && carts[id].userId != userId :: carts[id]
  }

  /** The database: one map per table, one set per link table. */
  class Tables {
    var users: map<int, User>
    var producers: map<int, Producer>
    var products: map<int, Product>
    var categories: map<int, Category>
    var tags: map<int, Tag>
    var productCategories: set<Link>
    var productTags: set<Link>
    var cartItems: map<int, CartItem>
    var orders: map<int, Order>

    constructor ()
      ensures users == map[] && producers == map[] && products == map[]
      ensures categories == map[] && tags == map[] && productCategories == {} && productTags == {}
      ensures cartItems == map[] && orders == map[]
    {
      users := map[];
      producers := map[];
      products := map[];
      categories := map[];
      tags := map[];
      productCategories := {};
      productTags := {};
      cartItems := map[];
      orders := map[];
    }
  }
}
