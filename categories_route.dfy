/**
 * The handlers of app/api/categories/route.ts. Clock readings are
 * parameters: `idTime` for the new identifier, `readAt` for the store's
 * `getStoreData`, `saveAt` for its `saveStoreData`. A request body that is
 * not JSON (`request.json()` throws) is `None`.
 */
module CategoriesRoute {
  import opened Types
  import opened Text
  import opened Seqs
  import opened Store
  import opened Http

  const DefaultImage := "/images/categories/default.jpg"

  /** The fields of a POST body that the handler reads. */
  datatype NewCategoryBody = NewCategoryBody(
    name: string,
    slug: Option<string>,
    description: string,
    image: Option<string>)

  /** The record POST builds: time-stamp id, derived slug, default image. */
  function NewCategory(body: NewCategoryBody, idTime: int, lower: string -> string): (c: Category)
    ensures ParseInteger(c.id) == Some(idTime)
    ensures c.name == body.name && c.description == body.description
    ensures Truthy(body.slug) ==> c.slug == body.slug.value
    ensures !Truthy(body.slug) ==> c.slug == ReplaceWhitespaceRuns(lower(body.name)) && NoSpace(c.slug)
    ensures Truthy(body.image) ==> c.image == body.image.value
    ensures !Truthy(body.image) ==> c.image == DefaultImage
  {
    TimeToStringRoundTrip(idTime);
    Category(
      TimeToString(idTime),
      body.name,
      DeriveSlug(body.slug, body.name, lower),
      body.description,
      if Truthy(body.image) then body.image.value else DefaultImage)
  }

  /** GET: the whole collection, or 500. */
  method Get(repo: Repository, now: int) returns (resp: Response)
    modifies repo, repo.remote
    ensures repo.Loaded(now, resp.status == 200)
    ensures resp.status == 200 ==> resp.payload == CategoryList(old(repo.Served(now)).categories)
    ensures resp.status != 200 ==> resp == Response(500, ErrorMessage("Failed to fetch categories"))
  {
    var r := repo.GetCategories(now);
    if r.Err? {
      return Response(500, ErrorMessage("Failed to fetch categories"));
    }
    resp := Response(200, CategoryList(r.value));
  }

  /** POST: build the record, append it, answer 201 with that record; any failure is 500. */
  method Post(repo: Repository, body: Option<NewCategoryBody>, idTime: int, readAt: int, saveAt: int, lower: string -> string)
    returns (resp: Response)
    modifies repo, repo.remote, repo.dataCache
    ensures body.None? ==> unchanged(repo, repo.remote) && (repo.dataCache != null ==> unchanged(repo.dataCache))
    ensures body.Some? ==>
      var c := NewCategory(body.value, idTime, lower);
      && repo.ReadModifyWriteAnswered(readAt, saveAt, AppendCategory(old(repo.Served(readAt)), c), true, resp.status == 201)
      && (resp.status == 201 ==> resp.payload == CategoryRecord(c))
    ensures !old(repo.CacheHit(readAt)) && old(repo.dataCache) != null ==> unchanged(old(repo.dataCache))
    ensures resp.status != 201 ==> resp == Response(500, ErrorMessage("Failed to create category"))
  {
    if body.None? {
      return Response(500, ErrorMessage("Failed to create category"));
    }
    var category := NewCategory(body.value, idTime, lower);
    var r := repo.AddCategory(category, readAt, saveAt);
    if r.Failed? {
      return Response(500, ErrorMessage("Failed to create category"));
    }
    resp := Response(201, CategoryRecord(category));
  }

  /** PUT: the whole body, `id` included, is the patch for the category with `body.id`; success even if none matched. */
  method Put(repo: Repository, body: Option<CategoryPatch>, readAt: int, saveAt: int) returns (resp: Response)
    modifies repo, repo.remote, repo.dataCache
    ensures body.None? ==> unchanged(repo, repo.remote) && (repo.dataCache != null ==> unchanged(repo.dataCache))
    ensures body.Some? ==>
      repo.ReadModifyWriteAnswered(readAt, saveAt, UpdateCategoryIn(old(repo.Served(readAt)), body.value.id, body.value),
                           FindIndex(old(repo.Served(readAt)).categories, CategoryIdIs(body.value.id)) != -1,
                           resp.status == 200)
    ensures !old(repo.CacheHit(readAt)) && old(repo.dataCache) != null ==> unchanged(old(repo.dataCache))
    ensures resp.status == 200 ==> resp.payload == Success
    ensures resp.status != 200 ==> resp == Response(500, ErrorMessage("Failed to update category"))
  {
    if body.None? {
      return Response(500, ErrorMessage("Failed to update category"));
    }
    var r := repo.UpdateCategory(body.value.id, body.value, readAt, saveAt);
    if r.Failed? {
      return Response(500, ErrorMessage("Failed to update category"));
    }
    resp := Response(200, Success);
  }

  /** DELETE `?id=`: a missing or empty id is 400 and the store is not touched. */
  method Delete(repo: Repository, id: Option<string>, readAt: int, saveAt: int) returns (resp: Response)
    modifies repo, repo.remote, repo.dataCache
    ensures !Truthy(id) ==> resp == Response(400, ErrorMessage("Category ID required"))
    ensures !Truthy(id) ==> unchanged(repo, repo.remote) && (repo.dataCache != null ==> unchanged(repo.dataCache))
    ensures Truthy(id) ==>
      repo.ReadModifyWriteAnswered(readAt, saveAt, RemoveCategory(old(repo.Served(readAt)), id.value), true, resp.status == 200)
    ensures !old(repo.CacheHit(readAt)) && old(repo.dataCache) != null ==> unchanged(old(repo.dataCache))
    ensures Truthy(id) && resp.status == 200 ==> resp.payload == Success
    ensures Truthy(id) && resp.status != 200 ==> resp == Response(500, ErrorMessage("Failed to delete category"))
  {
    if !Truthy(id) {
      return Response(400, ErrorMessage("Category ID required"));
    }
    var r := repo.DeleteCategory(id.value, readAt, saveAt);
    if r.Failed? {
      return Response(500, ErrorMessage("Failed to delete category"));
    }
    resp := Response(200, Success);
  }
}
