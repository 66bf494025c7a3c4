/**
 * The handlers of app/api/weapons/route.ts, with the same conventions as
 * the category handlers: clock readings are parameters and a body that is
 * not JSON is `None`.
 */
module WeaponsRoute {
  import opened Types
  import opened Text
  import opened Seqs
  import opened Store
  import opened Http

  const DefaultImage := "/images/weapons/default.jpg"

  /**
   * The fields of a POST body that the handler reads. `price` is the number
   * `parseFloat(body.price)` produced.
   */
  datatype NewWeaponBody = NewWeaponBody(
    name: string,
    slug: Option<string>,
    categoryId: string,
    price: real,
    images: Option<seq<string>>,
    videoUrl: Option<string>,
    shortDescription: string,
    fullDescription: string,
    specifications: Option<map<string, string>>)

  /**
   * The record POST builds. An array is truthy even when empty, so a
   * supplied `images` list is kept as it is; only a missing one is defaulted.
   */
  function NewWeapon(body: NewWeaponBody, idTime: int, lower: string -> string): (w: Weapon)
    ensures ParseInteger(w.id) == Some(idTime)
    ensures Truthy(body.slug) ==> w.slug == body.slug.value
    ensures !Truthy(body.slug) ==> w.slug == ReplaceWhitespaceRuns(lower(body.name)) && NoSpace(w.slug)
    ensures body.images.Some? ==> w.images == body.images.value
    ensures body.images.None? ==> w.images == [DefaultImage]
    ensures Truthy(body.videoUrl) ==> w.videoUrl == body.videoUrl
    ensures !Truthy(body.videoUrl) ==> w.videoUrl == Some("")
    ensures body.specifications.Some? ==> w.specifications == body.specifications.value
    ensures body.specifications.None? ==> w.specifications == map[]
    ensures && w.name == body.name && w.categoryId == body.categoryId && w.price == body.price
            && w.shortDescription == body.shortDescription && w.fullDescription == body.fullDescription
  {
    TimeToStringRoundTrip(idTime);
    Weapon(
      TimeToString(idTime),
      body.name,
      DeriveSlug(body.slug, body.name, lower),
      body.categoryId,
      body.price,
      body.images.GetOr([DefaultImage]),
      Some(if Truthy(body.videoUrl) then body.videoUrl.value else ""),
      body.shortDescription,
      body.fullDescription,
      body.specifications.GetOr(map[]))
  }

  /** GET: the whole collection, or 500. */
  method Get(repo: Repository, now: int) returns (resp: Response)
    modifies repo, repo.remote
    ensures repo.Loaded(now, resp.status == 200)
    ensures resp.status == 200 ==> resp.payload == WeaponList(old(repo.Served(now)).weapons)
    ensures resp.status != 200 ==> resp == Response(500, ErrorMessage("Failed to fetch weapons"))
  {
    var r := repo.GetWeapons(now);
    if r.Err? {
      return Response(500, ErrorMessage("Failed to fetch weapons"));
    }
    resp := Response(200, WeaponList(r.value));
  }

  /** POST: build the record, append it, answer 201 with that record; any failure is 500. */
  method Post(repo: Repository, body: Option<NewWeaponBody>, idTime: int, readAt: int, saveAt: int, lower: string -> string)
    returns (resp: Response)
    modifies repo, repo.remote, repo.dataCache
    ensures body.None? ==> unchanged(repo, repo.remote) && (repo.dataCache != null ==> unchanged(repo.dataCache))
    ensures body.Some? ==>
      var w := NewWeapon(body.value, idTime, lower);
      && repo.ReadModifyWriteAnswered(readAt, saveAt, AppendWeapon(old(repo.Served(readAt)), w), true, resp.status == 201)
      && (resp.status == 201 ==> resp.payload == WeaponRecord(w))
    ensures !old(repo.CacheHit(readAt)) && old(repo.dataCache) != null ==> unchanged(old(repo.dataCache))
    ensures resp.status != 201 ==> resp == Response(500, ErrorMessage("Failed to create weapon"))
  {
    if body.None? {
      return Response(500, ErrorMessage("Failed to create weapon"));
    }
    var weapon := NewWeapon(body.value, idTime, lower);
    var r := repo.AddWeapon(weapon, readAt, saveAt);
    if r.Failed? {
      return Response(500, ErrorMessage("Failed to create weapon"));
    }
    resp := Response(201, WeaponRecord(weapon));
  }

  /** PUT: the whole body is the patch for the weapon with `body.id`; success even if none matched. */
  method Put(repo: Repository, body: Option<WeaponPatch>, readAt: int, saveAt: int) returns (resp: Response)
    modifies repo, repo.remote, repo.dataCache
    ensures body.None? ==> unchanged(repo, repo.remote) && (repo.dataCache != null ==> unchanged(repo.dataCache))
    ensures body.Some? ==>
      repo.ReadModifyWriteAnswered(readAt, saveAt, UpdateWeaponIn(old(repo.Served(readAt)), body.value.id, body.value),
                           FindIndex(old(repo.Served(readAt)).weapons, WeaponIdIs(body.value.id)) != -1,
                           resp.status == 200)
    ensures !old(repo.CacheHit(readAt)) && old(repo.dataCache) != null ==> unchanged(old(repo.dataCache))
    ensures resp.status == 200 ==> resp.payload == Success
    ensures resp.status != 200 ==> resp == Response(500, ErrorMessage("Failed to update weapon"))
  {
    if body.None? {
      return Response(500, ErrorMessage("Failed to update weapon"));
    }
    var r := repo.UpdateWeapon(body.value.id, body.value, readAt, saveAt);
    if r.Failed? {
      return Response(500, ErrorMessage("Failed to update weapon"));
    }
    resp := Response(200, Success);
  }

  /** DELETE `?id=`: a missing or empty id is 400 and the store is not touched. */
  method Delete(repo: Repository, id: Option<string>, readAt: int, saveAt: int) returns (resp: Response)
    modifies repo, repo.remote, repo.dataCache
    ensures !Truthy(id) ==> resp == Response(400, ErrorMessage("Weapon ID required"))
    ensures !Truthy(id) ==> unchanged(repo, repo.remote) && (repo.dataCache != null ==> unchanged(repo.dataCache))
    ensures Truthy(id) ==>
      repo.ReadModifyWriteAnswered(readAt, saveAt, RemoveWeapon(old(repo.Served(readAt)), id.value), true, resp.status == 200)
    ensures !old(repo.CacheHit(readAt)) && old(repo.dataCache) != null ==> unchanged(old(repo.dataCache))
    ensures Truthy(id) && resp.status == 200 ==> resp.payload == Success
    ensures Truthy(id) && resp.status != 200 ==> resp == Response(500, ErrorMessage("Failed to delete weapon"))
  {
    if !Truthy(id) {
      return Response(400, ErrorMessage("Weapon ID required"));
    }
    var r := repo.DeleteWeapon(id.value, readAt, saveAt);
    if r.Failed? {
      return Response(500, ErrorMessage("Failed to delete weapon"));
    }
    resp := Response(200, Success);
  }
}
