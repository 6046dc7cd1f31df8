/**
 * OrderMapper: the field copies between an order entity and its transfer object. The user
 * and the items are looked up by the service, so toEntity leaves them unset; a fresh entity
 * starts with an empty item list. Floating-point amounts are only copied, never computed on,
 * and appear here as reals; timestamps are opaque instants.
 */
module OrderMapper {
  import opened Wrappers
  import opened Database

  type Instant = int

  datatype UserRef = UserRef(id: Option<int>, name: string, email: string)
  datatype ProductRef = ProductRef(id: Option<int>, name: string)

  datatype OrderItemEntity = OrderItemEntity(id: Option<int>, quantity: Option<int>, price: Option<real>,
                                             product: Option<ProductRef>)

  datatype OrderEntity = OrderEntity(id: Option<int>, totalAmount: Option<real>, status: Option<OrderStatus>,
                                     shippingAddress: Option<string>, paymentMethod: Option<string>, notes: Option<string>,
                                     createdAt: Option<Instant>, updatedAt: Option<Instant>,
                                     user: Option<UserRef>, orderItems: Option<seq<Option<OrderItemEntity>>>)

  datatype OrderItemDto = OrderItemDto(id: Option<int>, quantity: Option<int>, price: Option<real>,
                                       productId: Option<int>, productName: Option<string>)

  datatype OrderDto = OrderDto(id: Option<int>, totalAmount: Option<real>, status: Option<OrderStatus>,
                               shippingAddress: Option<string>, paymentMethod: Option<string>, notes: Option<string>,
                               createdAt: Option<Instant>, updatedAt: Option<Instant>,
                               userId: Option<int>, userName: Option<string>, userEmail: Option<string>,
                               orderItems: Option<seq<Option<OrderItemDto>>>)

  /** toOrderItemDTO: null to null; the product fields only from a product that is there. */
  function ToItemDto(item: Option<OrderItemEntity>): (d: Option<OrderItemDto>)
    ensures d.None? <==> item.None?
    ensures d.Some? ==> d.value.id == item.value.id && d.value.quantity == item.value.quantity &&
                        d.value.price == item.value.price
    ensures d.Some? && item.value.product.None? ==> d.value.productId.None? && d.value.productName.None?
    ensures d.Some? && item.value.product.Some? ==>
      d.value.productId == item.value.product.value.id && d.value.productName == Some(item.value.product.value.name)
  {
    match item
    case None => None
    case Some(i) =>
      Some(OrderItemDto(i.id, i.quantity, i.price,
                        if i.product.Some? then i.product.value.id else None,
                        if i.product.Some? then Some(i.product.value.name) else None))
  }

  /** The stream map over the item list: one transfer object per item, position by position. */
  function ToItemDtos(items: seq<Option<OrderItemEntity>>): (ds: seq<Option<OrderItemDto>>)
    ensures |ds| == |items|
    ensures forall i :: 0 <= i < |items| ==> ds[i] == ToItemDto(items[i])
  {
    if items == [] then [] else [ToItemDto(items[0])] + ToItemDtos(items[1..])
  }

  /** toDTO: null to null; the scalars copied; user fields only from a user that is there. */
  function ToDto(order: Option<OrderEntity>): (d: Option<OrderDto>)
    ensures d.None? <==> order.None?
    ensures d.Some? ==>
      var o, v := order.value, d.value;
      v.id == o.id && v.totalAmount == o.totalAmount && v.status == o.status &&
      v.shippingAddress == o.shippingAddress && v.paymentMethod == o.paymentMethod && v.notes == o.notes &&
      v.createdAt == o.createdAt && v.updatedAt == o.updatedAt
    ensures d.Some? && order.value.user.None? ==> d.value.userId.None? && d.value.userName.None? && d.value.userEmail.None?
    ensures d.Some? && order.value.user.Some? ==>
      var u := order.value.user.value;
      d.value.userId == u.id && d.value.userName == Some(u.name) && d.value.userEmail == Some(u.email)
    ensures d.Some? ==> (d.value.orderItems.None? <==> order.value.orderItems.None?)
    ensures d.Some? && order.value.orderItems.Some? ==>
      |d.value.orderItems.value| == |order.value.orderItems.value| &&
      forall i :: 0 <= i < |order.value.orderItems.value| ==>
        d.value.orderItems.value[i] == ToItemDto(order.value.orderItems.value[i])
  {
    match order
    case None => None
    case Some(o) =>
      Some(OrderDto(o.id, o.totalAmount, o.status, o.shippingAddress, o.paymentMethod, o.notes,
                    o.createdAt, o.updatedAt,
                    if o.user.Some? then o.user.value.id else None,
                    if o.user.Some? then Some(o.user.value.name) else None,
                    if o.user.Some? then Some(o.user.value.email) else None,
                    if o.orderItems.Some? then Some(ToItemDtos(o.orderItems.value)) else None))
  }

  /** toEntity: null to null; the scalars copied; no user, and the initial empty item list. */
  function ToEntity(dto: Option<OrderDto>): (o: Option<OrderEntity>)
    ensures o.None? <==> dto.None?
    ensures o.Some? ==>
      var d, e := dto.value, o.value;
      e.id == d.id && e.totalAmount == d.totalAmount && e.status == d.status &&
      e.shippingAddress == d.shippingAddress && e.paymentMethod == d.paymentMethod && e.notes == d.notes &&
      e.createdAt == d.createdAt && e.updatedAt == d.updatedAt
    ensures o.Some? ==> o.value.user.None? && o.value.orderItems == Some([])
  {
    match dto
    case None => None
    case Some(d) =>
      Some(OrderEntity(d.id, d.totalAmount, d.status, d.shippingAddress, d.paymentMethod, d.notes,
                       d.createdAt, d.updatedAt, None, Some([])))
  }

  /** An entity sent through toDTO and back keeps every scalar and loses its user and items. */
  lemma EntityRoundTrip(o: OrderEntity)
    ensures ToEntity(ToDto(Some(o))) == Some(o.(user := None, orderItems := Some([])))
  {
  }

  /** A transfer object sent through toEntity and back keeps every scalar and loses its user fields and items. */
  lemma DtoRoundTrip(d: OrderDto)
    ensures ToDto(ToEntity(Some(d))) == Some(d.(userId := None, userName := None, userEmail := None, orderItems := Some([])))
  {
  }

  /** The item mapping keeps the list's order: it maps a concatenation part by part. */
  lemma {:induction false} ToItemDtosOfConcat(a: seq<Option<OrderItemEntity>>, b: seq<Option<OrderItemEntity>>)
    ensures ToItemDtos(a + b) == ToItemDtos(a) + ToItemDtos(b)
  {
    if a == [] {
      assert a + b == b;
    } else {
      assert (a + b)[1..] == a[1..] + b;
      ToItemDtosOfConcat(a[1..], b);
    }
  }
}
