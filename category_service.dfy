/**
 * CategoryService: create, update and delete over the categories table, whose name column
 * is unique. A name that is already present, or that findByName cannot resolve to a single
 * row, makes create and rename throw before anything is saved.
 */
module CategoryService {
  import opened Wrappers
  import opened Database

  /** findByName finds a row (or more than one, which throws too). */
  predicate NameTaken(categories: map<int, Category>, name: string)
  {
    exists id :: id in categories && categories[id].name == name
  }

  /** The @NotBlank constraint on the name column, which every stored row meets. */
  predicate NamesFilled(categories: map<int, Category>)
  {
    forall id :: id in categories ==> !Blank(categories[id].name)
  }

  /** The unique constraint on the name column. */
  predicate UniqueNames(categories: map<int, Category>)
  {
    forall a, b :: a in categories && b in categories && categories[a].name == categories[b].name ==> a == b
  }

  /** The link rows that survive deleting a category: orphan removal drops the category's links. */
  function LinksWithout(links: set<Link>, categoryId: int): (r: set<Link>)
    ensures forall l :: l in r <==> l in links && l.otherId != categoryId
  {
    set l | l in links && l.otherId != categoryId
  }

  class CategoryService {
    const db: Tables

    constructor (db: Tables)
      ensures this.db == db
    {
      this.db := db;
    }

    /**
     * createCategory: the request body is saved as it is, so a body that carries an id saves under
     * that id. Over an existing row it renames that row, and as the body's link set is empty,
     * orphan removal deletes the row's links; without an id the row is new, under `newId`.
     * A blank name breaks the entity constraint: the save, which commits on its own as the
     * service opens no transaction, throws and keeps nothing.
     */
    method CreateCategory(category: Category, id: Option<int>, newId: int) returns (r: Result<int>)
      requires newId !in db.categories
      modifies db`categories, db`productCategories
      ensures NameTaken(old(db.categories), category.name) ==>
                r == Err("IllegalArgumentException") && db.categories == old(db.categories) && db.productCategories == old(db.productCategories)
      ensures !NameTaken(old(db.categories), category.name) && Blank(category.name) ==>
                r == Err("ConstraintViolationException") && db.categories == old(db.categories) && db.productCategories == old(db.productCategories)
      ensures !NameTaken(old(db.categories), category.name) && !Blank(category.name) ==>
                var savedId := if id.Some? then id.value else newId;
                r == Ok(savedId) && db.categories == old(db.categories)[savedId := category] &&
                db.productCategories == if savedId in old(db.categories) then LinksWithout(old(db.productCategories), savedId) else old(db.productCategories)
      ensures UniqueNames(old(db.categories)) ==> UniqueNames(db.categories)
      ensures r.Ok? ==> NameTaken(db.categories, category.name)
      ensures NamesFilled(old(db.categories)) ==> NamesFilled(db.categories)
    {
      if NameTaken(db.categories, category.name) {
        return Err("IllegalArgumentException");
      }
      if Blank(category.name) {
        return Err("ConstraintViolationException");
      }
      var savedId := if id.Some? then id.value else newId;
      if savedId in db.categories {
        db.productCategories := LinksWithout(db.productCategories, savedId);
      }
      db.categories := db.categories[savedId := category];
      assert db.categories[savedId].name == category.name;
      r := Ok(savedId);
    }

    /**
     * updateCategory: empty for a missing id; a rename onto another row's name throws, and so does
     * the save of a blank name, which the entity constraint refuses.
     */
    method UpdateCategory(id: int, details: Category) returns (r: Result<Option<Category>>)
      modifies db`categories
      ensures id !in old(db.categories) ==> r == Ok(None) && db.categories == old(db.categories)
      ensures id in old(db.categories) && old(db.categories)[id].name != details.name
              && NameTaken(old(db.categories), details.name) ==>
                r == Err("IllegalArgumentException") && db.categories == old(db.categories)
      ensures id in old(db.categories) && (old(db.categories)[id].name == details.name
              || !NameTaken(old(db.categories), details.name)) && Blank(details.name) ==>
                r == Err("ConstraintViolationException") && db.categories == old(db.categories)
      ensures id in old(db.categories) && (old(db.categories)[id].name == details.name
              || !NameTaken(old(db.categories), details.name)) && !Blank(details.name) ==>
                var updated := Category(details.name, details.description, details.active);
                r == Ok(Some(updated)) && db.categories == old(db.categories)[id := updated]
      ensures UniqueNames(old(db.categories)) ==> UniqueNames(db.categories)
      ensures NamesFilled(old(db.categories)) ==> NamesFilled(db.categories)
    {
      if id !in db.categories {
        return Ok(None);
      }
      var existing := db.categories[id];
      if existing.name != details.name && NameTaken(db.categories, details.name) {
        return Err("IllegalArgumentException");
      }
      if Blank(details.name) {
        return Err("ConstraintViolationException");
      }
      existing := existing.(active := details.active, name := details.name, description := details.description);
      db.categories := db.categories[id := existing];
      r := Ok(Some(existing));
    }

    /** deleteCategory: true iff the id existed; the category's product links go with it. */
    method DeleteCategory(id: int) returns (deleted: bool)
      modifies db`categories, db`productCategories
      ensures deleted <==> id in old(db.categories)
      ensures db.categories == old(db.categories) - {id}
      ensures db.productCategories == if deleted then LinksWithout(old(db.productCategories), id)
                                      else old(db.productCategories)
      ensures UniqueNames(old(db.categories)) ==> UniqueNames(db.categories)
      ensures NamesFilled(old(db.categories)) ==> NamesFilled(db.categories)
    {
      if id !in db.categories {
        return false;
      }
      db.categories := db.categories - {id};
      db.productCategories := LinksWithout(db.productCategories, id);
      deleted := true;
    }
  }
}
