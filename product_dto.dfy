/**
 * ProductDto: the view of a product entity the API returns, with the inventory status and
 * the other fields its constructor derives. The entity's link sets are hash sets, so they
 * are taken here as sequences in whatever order the set hands them out.
 */
module ProductDto {
  import opened Wrappers

  const SoldOut: string := "AGOTADO"
  const LowStock: string := "BAJO STOCK"
  const InStock: string := "EN STOCK"
  /** Below this quantity a product that is not sold out shows as low stock. */
  const LowStockBelow: int := 10
  const NoCategory: string := "Sin categoría"
  const PlaceholderImage: string := "product-placeholder.jpg"

  /** getInventoryStatus: null and zero are sold out, anything below ten (negatives too) is low. */
  function InventoryStatus(quantity: Option<int>): (s: string)
    ensures s == SoldOut <==> quantity.None? || quantity.value == 0
    ensures s == LowStock <==> quantity.Some? && quantity.value != 0 && quantity.value < LowStockBelow
    ensures s == InStock <==> quantity.Some? && quantity.value >= LowStockBelow
    ensures s in {SoldOut, LowStock, InStock}
  {
    if quantity.None? || quantity.value == 0 then SoldOut
    else if quantity.value < LowStockBelow then LowStock
    else InStock
  }

  /** The producer as the entity holds it; its id is null until saved. */
  datatype ProducerRef = ProducerRef(id: Option<int>, businessName: string, location: string)

  /** A linked category: the id and name of the link's category. */
  datatype CategoryRef = CategoryRef(id: Option<int>, name: string)

  /** The product entity as the constructor reads it. */
  datatype ProductEntity = ProductEntity(id: Option<int>, name: string, description: string, quantity: Option<int>,
                                         image: Option<string>, producer: Option<ProducerRef>,
                                         categoryLinks: seq<CategoryRef>, tagIds: seq<Option<int>>)

  datatype ProductView = ProductView(id: Option<int>, name: string, description: string, quantity: Option<int>,
                                     stock: Option<int>, active: bool, inventoryStatus: string, image: string,
                                     producerId: Option<int>, producerName: Option<string>, producerLocation: Option<string>,
                                     categoryIds: set<Option<int>>, category: string, tagIds: set<Option<int>>)

  /**
   * The ids of the entity's category links, as a set; ViewIdsIgnoreOrder proves the set does
   * not depend on the order the links come in.
   */
  function CategoryIds(links: seq<CategoryRef>): (ids: set<Option<int>>)
    ensures forall id :: id in ids <==> exists i :: 0 <= i < |links| && links[i].id == id
  {
    set i | 0 <= i < |links| :: links[i].id
  }

  /** The entity's tag ids, as a set; ViewIdsIgnoreOrder proves it ignores their order. */
  function TagIdSet(tagIds: seq<Option<int>>): (ids: set<Option<int>>)
    ensures forall id :: id in ids <==> id in tagIds
  {
    set id | id in tagIds
  }

  /** The ProductDTO(Product) constructor. */
  function ToView(e: ProductEntity): (v: ProductView)
    ensures v.id == e.id && v.name == e.name && v.description == e.description && v.quantity == e.quantity
    ensures v.stock == e.quantity && v.active
    ensures v.inventoryStatus == InventoryStatus(e.quantity)
    ensures v.image == if e.image.Some? then e.image.value else PlaceholderImage
    ensures e.producer.None? ==> v.producerId.None? && v.producerName.None? && v.producerLocation.None?
    ensures e.producer.Some? ==> v.producerId == e.producer.value.id &&
                                 v.producerName == Some(e.producer.value.businessName) &&
                                 v.producerLocation == Some(e.producer.value.location)
    ensures forall id :: id in v.categoryIds <==> exists i :: 0 <= i < |e.categoryLinks| && e.categoryLinks[i].id == id
    ensures forall id :: id in v.tagIds <==> id in e.tagIds
    ensures v.category == NoCategory <==> e.categoryLinks == [] || e.categoryLinks[0].name == NoCategory
    ensures e.categoryLinks != [] ==> exists i :: 0 <= i < |e.categoryLinks| && v.category == e.categoryLinks[i].name
  {
    ProductView(e.id, e.name, e.description, e.quantity, e.quantity, true, InventoryStatus(e.quantity),
                if e.image.Some? then e.image.value else PlaceholderImage,
                if e.producer.Some? then e.producer.value.id else None,
                if e.producer.Some? then Some(e.producer.value.businessName) else None,
                if e.producer.Some? then Some(e.producer.value.location) else None,
                CategoryIds(e.categoryLinks),
                if e.categoryLinks == [] then NoCategory else e.categoryLinks[0].name,
                TagIdSet(e.tagIds))
  }

  /**
   * The id sets do not depend on the order the hash sets hand out their links: two
   * orderings of the same links give the same view, apart from the category name.
   */
  lemma ViewIdsIgnoreOrder(e: ProductEntity, categoryLinks: seq<CategoryRef>, tagIds: seq<Option<int>>)
    requires multiset(categoryLinks) == multiset(e.categoryLinks) && multiset(tagIds) == multiset(e.tagIds)
    ensures var v, w := ToView(e), ToView(e.(categoryLinks := categoryLinks, tagIds := tagIds));
            w == v.(category := w.category)
  {
    var e2 := e.(categoryLinks := categoryLinks, tagIds := tagIds);
    var v, w := ToView(e), ToView(e2);
    forall id | id in v.categoryIds
      ensures id in w.categoryIds
    {
      var i :| 0 <= i < |e.categoryLinks| && e.categoryLinks[i].id == id;
      assert e.categoryLinks[i] in multiset(categoryLinks);
      var j :| 0 <= j < |categoryLinks| && categoryLinks[j] == e.categoryLinks[i];
    }
    forall id | id in w.categoryIds
      ensures id in v.categoryIds
    {
      var i :| 0 <= i < |categoryLinks| && categoryLinks[i].id == id;
      assert categoryLinks[i] in multiset(e.categoryLinks);
      var j :| 0 <= j < |e.categoryLinks| && e.categoryLinks[j] == categoryLinks[i];
    }
    forall id | id in v.tagIds
      ensures id in w.tagIds
    {
      assert id in multiset(tagIds);
    }
    forall id | id in w.tagIds
      ensures id in v.tagIds
    {
      assert id in multiset(e.tagIds);
    }
  }
}
