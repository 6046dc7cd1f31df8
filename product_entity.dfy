/**
 * ProductEntity: the object graph of a product, its categories and its tags, linked through
 * ProductCategory and ProductTag rows that each side holds in a hash set, and the helpers of
 * Product that keep both sides in step. Link objects are compared by identity; a category
 * too, as equal rows of one persistence context are one object; a tag by its id only, as
 * Tag declares equality of its id.
 */
module ProductEntity {
  import opened Wrappers

  class CategoryEntity {
    var productCategories: set<CategoryLink>

    constructor ()
      ensures productCategories == {}
    {
      productCategories := {};
    }
  }

  class TagEntity {
    /** The generated id; null for a tag not yet saved. */
    const id: Option<int>
    var productTags: set<TagLink>

    constructor (id: Option<int>)
      ensures this.id == id && productTags == {}
    {
      this.id := id;
      productTags := {};
    }
  }

  /** A ProductCategory row; both ends are nulled when the link is removed. */
  class CategoryLink {
    var product: ProductEntity?
    var category: CategoryEntity?

    constructor (product: ProductEntity, category: CategoryEntity)
      ensures this.product == product && this.category == category
    {
      this.product := product;
      this.category := category;
    }
  }

  /** A ProductTag row. */
  class TagLink {
    var product: ProductEntity?
    var tag: TagEntity?

    constructor (product: ProductEntity, tag: TagEntity)
      ensures this.product == product && this.tag == tag
    {
      this.product := product;
      this.tag := tag;
    }
  }

  /** The links of a category set that name the given category. */
  function CategoryMatches(links: set<CategoryLink>, category: CategoryEntity): (m: set<CategoryLink>)
    reads links
    ensures m <= links && forall l :: l in links ==> (l in m <==> l.category == category)
  {
    set l | l in links && l.category == category
  }

  /** The links of a tag set whose tag equals the given one: same id, where two null ids are equal. */
  function TagMatches(links: set<TagLink>, tag: TagEntity): (m: set<TagLink>)
    reads links
    ensures m <= links && forall l :: l in links ==> (l in m <==> l.tag != null && l.tag.id == tag.id)
  {
    set l | l in links && l.tag != null && l.tag.id == tag.id
  }

  class ProductEntity {
    var productCategories: set<CategoryLink>
    var productTags: set<TagLink>

    constructor ()
      ensures productCategories == {} && productTags == {}
    {
      productCategories := {};
      productTags := {};
    }

    /** The categories and tags the links name. */
    function LinkedCategories(): set<CategoryEntity?>
      reads this, productCategories
    {
      set l | l in productCategories :: l.category
    }

    function LinkedTags(): set<TagEntity?>
      reads this, productTags
    {
      set l | l in productTags :: l.tag
    }

    /** Every link names an entity: what comparing its category or tag needs. */
    predicate LinksNamed()
      reads this, productCategories, productTags
    {
      (forall l :: l in productCategories ==> l.category != null) &&
      (forall l :: l in productTags ==> l.tag != null)
    }

    /**
     * The association is consistent from this side: every link points back at this product,
     * names an entity, and is held by that entity's own set too.
     */
    predicate Valid()
      reads this, productCategories, productTags, LinkedCategories(), LinkedTags()
    {
      (forall l :: l in productCategories ==>
        l.product == this && l.category != null && l in l.category.productCategories) &&
      (forall l :: l in productTags ==>
        l.product == this && l.tag != null && l in l.tag.productTags)
    }

    /** addCategory: one new link, added to this product's set and to the category's set. */
    method AddCategory(category: CategoryEntity) returns (link: CategoryLink)
      modifies this`productCategories, category`productCategories
      ensures fresh(link) && link.product == this && link.category == category
      ensures productCategories == old(productCategories) + {link}
      ensures category.productCategories == old(category.productCategories) + {link}
      ensures old(Valid()) ==> Valid()
    {
      link := new CategoryLink(this, category);
      productCategories := productCategories + {link};
      category.productCategories := category.productCategories + {link};
    }

    /** addTag: one new link, added to this product's set and to the tag's set. */
    method AddTag(tag: TagEntity) returns (link: TagLink)
      modifies this`productTags, tag`productTags
      ensures fresh(link) && link.product == this && link.tag == tag
      ensures productTags == old(productTags) + {link}
      ensures tag.productTags == old(tag.productTags) + {link}
      ensures old(Valid()) ==> Valid()
    {
      link := new TagLink(this, tag);
      productTags := productTags + {link};
      tag.productTags := tag.productTags + {link};
    }

    /**
     * removeCategory: every link naming the category leaves both sets and has both its ends
     * nulled; the loop walks a copy of the set, so removing as it goes skips nothing. Links
     * to other categories are untouched.
     */
    method RemoveCategory(category: CategoryEntity)
      requires LinksNamed()
      modifies this`productCategories, category`productCategories, productCategories
      ensures productCategories == old(productCategories) - old(CategoryMatches(productCategories, category))
      ensures category.productCategories ==
        old(category.productCategories) - old(CategoryMatches(productCategories, category))
      ensures forall l :: l in old(CategoryMatches(productCategories, category)) ==> l.product == null && l.category == null
      ensures forall l :: l in productCategories ==> l.product == old(l.product) && l.category == old(l.category)
      ensures forall l :: l in productCategories ==> l.category != category
      ensures old(Valid()) ==> Valid()
    {
      ghost var links := productCategories;
      ghost var matches := CategoryMatches(productCategories, category);
      var copy := productCategories;
      while copy != {}
        invariant copy <= links
        invariant productCategories == links - (matches - copy)
        invariant category.productCategories == old(category.productCategories) - (matches - copy)
        invariant forall l :: l in matches - copy ==> l.product == null && l.category == null
        invariant forall l :: l in links - (matches - copy) ==> l.product == old(l.product) && l.category == old(l.category)
        decreases copy
      {
        var l :| l in copy;
        if l.category == category {
          productCategories := productCategories - {l};
          category.productCategories := category.productCategories - {l};
          l.product := null;
          l.category := null;
        }
        copy := copy - {l};
      }
    }

    /**
     * removeTag: every link whose tag has the argument's id leaves this product's set and the
     * argument's set, and has both ends nulled. A matching link held by another tag object
     * of the same id stays in that object's set.
     */
    method RemoveTag(tag: TagEntity)
      requires LinksNamed()
      modifies this`productTags, tag`productTags, productTags
      ensures productTags == old(productTags) - old(TagMatches(productTags, tag))
      ensures tag.productTags == old(tag.productTags) - old(TagMatches(productTags, tag))
      ensures forall l :: l in old(TagMatches(productTags, tag)) ==> l.product == null && l.tag == null
      ensures forall l :: l in productTags ==> l.product == old(l.product) && l.tag == old(l.tag)
      ensures forall l :: l in productTags ==> l.tag != null && l.tag.id != tag.id
      ensures old(Valid()) ==> Valid()
    {
      ghost var links := productTags;
      ghost var matches := TagMatches(productTags, tag);
      var copy := productTags;
      while copy != {}
        invariant copy <= links
        invariant productTags == links - (matches - copy)
        invariant tag.productTags == old(tag.productTags) - (matches - copy)
        invariant forall l :: l in matches - copy ==> l.product == null && l.tag == null
        invariant forall l :: l in links - (matches - copy) ==> l.product == old(l.product) && l.tag == old(l.tag)
        decreases copy
      {
        var l :| l in copy;
        if l.tag.id == tag.id {
          productTags := productTags - {l};
          tag.productTags := tag.productTags - {l};
          l.product := null;
          l.tag := null;
        }
        copy := copy - {l};
      }
    }
  }
}
