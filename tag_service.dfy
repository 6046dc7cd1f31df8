/**
 * TagService: create, update and delete over the tags table, whose name column is unique.
 * It follows CategoryService, except that an update changes the name alone.
 */
module TagService {
  import opened Wrappers
  import opened Database

  /** findByName finds a row (or more than one, which throws too). */
  predicate NameTaken(tags: map<int, Tag>, name: string)
  {
    exists id :: id in tags && tags[id].name == name
  }

  /** The @NotBlank constraint on the name column, which every stored row meets. */
  predicate NamesFilled(tags: map<int, Tag>)
  {
    forall id :: id in tags ==> !Blank(tags[id].name)
  }

  /** The unique constraint on the name column. */
  predicate UniqueNames(tags: map<int, Tag>)
  {
    forall a, b :: a in tags && b in tags && tags[a].name == tags[b].name ==> a == b
  }

  /** The link rows that survive deleting a tag: orphan removal drops the tag's links. */
  function LinksWithout(links: set<Link>, tagId: int): (r: set<Link>)
    ensures forall l :: l in r <==> l in links && l.otherId != tagId
  {
    set l | l in links && l.otherId != tagId
  }

  class TagService {
    const db: Tables

    constructor (db: Tables)
      ensures this.db == db
    {
      this.db := db;
    }

    /**
     * createTag: the request body is saved as it is, so a body that carries an id saves under
     * that id. Over an existing row it renames that row, and as the body's link set is empty,
     * orphan removal deletes the row's links; without an id the row is new, under `newId`.
     * A blank name breaks the entity constraint: the save, which commits on its own as the
     * service opens no transaction, throws and keeps nothing.
     */
    method CreateTag(tag: Tag, id: Option<int>, newId: int) returns (r: Result<int>)
      requires newId !in db.tags
      modifies db`tags, db`productTags
      ensures NameTaken(old(db.tags), tag.name) ==>
                r == Err("IllegalArgumentException") && db.tags == old(db.tags) && db.productTags == old(db.productTags)
      ensures !NameTaken(old(db.tags), tag.name) && Blank(tag.name) ==>
                r == Err("ConstraintViolationException") && db.tags == old(db.tags) && db.productTags == old(db.productTags)
      ensures !NameTaken(old(db.tags), tag.name) && !Blank(tag.name) ==>
                var savedId := if id.Some? then id.value else newId;
                r == Ok(savedId) && db.tags == old(db.tags)[savedId := tag] &&
                db.productTags == if savedId in old(db.tags) then LinksWithout(old(db.productTags), savedId) else old(db.productTags)
      ensures UniqueNames(old(db.tags)) ==> UniqueNames(db.tags)
      ensures r.Ok? ==> NameTaken(db.tags, tag.name)
      ensures NamesFilled(old(db.tags)) ==> NamesFilled(db.tags)
    {
      if NameTaken(db.tags, tag.name) {
        return Err("IllegalArgumentException");
      }
      if Blank(tag.name) {
        return Err("ConstraintViolationException");
      }
      var savedId := if id.Some? then id.value else newId;
      if savedId in db.tags {
        db.productTags := LinksWithout(db.productTags, savedId);
      }
      db.tags := db.tags[savedId := tag];
      assert db.tags[savedId].name == tag.name;
      r := Ok(savedId);
    }

    /**
     * updateTag: empty for a missing id; a rename onto another row's name throws, and so does
     * the save of a blank name, which the entity constraint refuses.
     */
    method UpdateTag(id: int, details: Tag) returns (r: Result<Option<Tag>>)
      modifies db`tags
      ensures id !in old(db.tags) ==> r == Ok(None) && db.tags == old(db.tags)
      ensures id in old(db.tags) && old(db.tags)[id].name != details.name && NameTaken(old(db.tags), details.name) ==>
                r == Err("IllegalArgumentException") && db.tags == old(db.tags)
      ensures id in old(db.tags) && (old(db.tags)[id].name == details.name || !NameTaken(old(db.tags), details.name)) &&
              Blank(details.name) ==>
                r == Err("ConstraintViolationException") && db.tags == old(db.tags)
      ensures id in old(db.tags) && (old(db.tags)[id].name == details.name || !NameTaken(old(db.tags), details.name)) &&
              !Blank(details.name) ==>
                r == Ok(Some(Tag(details.name))) && db.tags == old(db.tags)[id := Tag(details.name)]
      ensures UniqueNames(old(db.tags)) ==> UniqueNames(db.tags)
      ensures NamesFilled(old(db.tags)) ==> NamesFilled(db.tags)
    {
      if id !in db.tags {
        return Ok(None);
      }
      var existing := db.tags[id];
      if existing.name != details.name && NameTaken(db.tags, details.name) {
        return Err("IllegalArgumentException");
      }
      if Blank(details.name) {
        return Err("ConstraintViolationException");
      }
      existing := existing.(name := details.name);
      db.tags := db.tags[id := existing];
      r := Ok(Some(existing));
    }

    /** deleteTag: true iff the id existed; the tag's product links go with it. */
    method DeleteTag(id: int) returns (deleted: bool)
      modifies db`tags, db`productTags
      ensures deleted <==> id in old(db.tags)
      ensures db.tags == old(db.tags) - {id}
      ensures db.productTags == if deleted then LinksWithout(old(db.productTags), id) else old(db.productTags)
      ensures UniqueNames(old(db.tags)) ==> UniqueNames(db.tags)
      ensures NamesFilled(old(db.tags)) ==> NamesFilled(db.tags)
    {
      if id !in db.tags {
        return false;
      }
      db.tags := db.tags - {id};
      db.productTags := LinksWithout(db.productTags, id);
      deleted := true;
    }
  }
}
