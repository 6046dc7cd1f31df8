/**
 * CartMapper: the field copies between a cart item entity and its transfer object. toDTO
 * always asks the entity for its subtotal, the product's price times the quantity, which
 * dereferences the product, its price and the boxed quantity; any of them null throws. The
 * subtotal's floating-point value is not modelled, only whether computing it throws.
 */
module CartMapper {
  import opened Wrappers

  type Instant = int

  datatype ProductRef = ProductRef(id: Option<int>, name: string, price: Option<real>)

  datatype CartItemEntity = CartItemEntity(id: Option<int>, userId: Option<Option<int>>, product: Option<ProductRef>,
                                           quantity: Option<int>, createdAt: Option<Instant>, updatedAt: Option<Instant>)

  datatype CartItemDto = CartItemDto(id: Option<int>, userId: Option<int>, productId: Option<int>,
                                     productName: Option<string>, productPrice: Option<real>, quantity: Option<int>,
                                     createdAt: Option<Instant>, updatedAt: Option<Instant>)

  const NullPointer: string := "NullPointerException"

  /** Whether getSubtotal can be computed: a product with a price, and a quantity. */
  predicate HasSubtotal(item: CartItemEntity)
  {
    item.product.Some? && item.product.value.price.Some? && item.quantity.Some?
  }

  /**
   * toDTO: null to null; the id, quantity and timestamps copied; the user id when there is
   * a user (its own id may be null); the product fields when there is a product.
   */
  function ToDto(item: Option<CartItemEntity>): (r: Result<Option<CartItemDto>>)
    ensures item.None? ==> r == Ok(None)
    ensures item.Some? ==> (r.Err? <==> !HasSubtotal(item.value))
    ensures r.Ok? && item.Some? ==>
      var e, d := item.value, r.value;
      d.Some? && d.value.id == e.id && d.value.quantity == e.quantity &&
      d.value.createdAt == e.createdAt && d.value.updatedAt == e.updatedAt &&
      d.value.userId == (if e.userId.Some? then e.userId.value else None) &&
      d.value.productId == e.product.value.id && d.value.productName == Some(e.product.value.name) &&
      d.value.productPrice == e.product.value.price
  {
    match item
    case None => Ok(None)
    case Some(e) =>
      var d := CartItemDto(e.id, if e.userId.Some? then e.userId.value else None,
                           if e.product.Some? then e.product.value.id else None,
                           if e.product.Some? then Some(e.product.value.name) else None,
                           if e.product.Some? then e.product.value.price else None,
                           e.quantity, e.createdAt, e.updatedAt);
      if HasSubtotal(e) then Ok(Some(d)) else Err(NullPointer)
  }

  /** toEntity: null to null; the id, quantity and timestamps copied; no user and no product. */
  function ToEntity(dto: Option<CartItemDto>): (r: Option<CartItemEntity>)
    ensures r.None? <==> dto.None?
    ensures r.Some? ==>
      r.value.id == dto.value.id && r.value.quantity == dto.value.quantity &&
      r.value.createdAt == dto.value.createdAt && r.value.updatedAt == dto.value.updatedAt &&
      r.value.userId.None? && r.value.product.None?
  {
    match dto
    case None => None
    case Some(d) => Some(CartItemEntity(d.id, None, None, d.quantity, d.createdAt, d.updatedAt))
  }

  /** An entity that toEntity built has no product, so mapping it back always throws. */
  lemma NoRoundTripThroughEntity(dto: CartItemDto)
    ensures ToDto(ToEntity(Some(dto))).Err?
  {
  }

  /** A complete entity goes through toDTO and toEntity keeping its id, quantity and timestamps. */
  lemma EntityRoundTrip(e: CartItemEntity)
    requires HasSubtotal(e)
    ensures ToDto(Some(e)).Ok? && ToEntity(ToDto(Some(e)).value) == Some(e.(userId := None, product := None))
  {
  }
}
