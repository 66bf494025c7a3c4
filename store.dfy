/**
 * The cached repository of lib/store.ts.
 *
 * The first half gives each read-modify-write edit and each lookup as a
 * function on `Document` values, with the lemmas that say what they mean.
 * The second half is the module state (`dataCache`, `cacheTime`) as the
 * class `Repository`, whose methods do what the TypeScript functions do:
 * obtain the live document object (cached or freshly fetched), edit that
 * object in place, then save it and re-point the cache at it.
 */
module Store {
  import opened Types
  import opened Seqs
  import opened GitHub

  /** `CACHE_TTL`: for this many milliseconds a fetched or saved document is served without a remote read. */
  const CacheTtl: int := 10000

  // ---------------------------------------------------------------------------
  // Shallow merges `{ ...record, ...updates }`
  // ---------------------------------------------------------------------------

  /** `{ ...category, ...updates }`: each field the patch supplies overwrites, each one it leaves out is kept. */
  function MergeCategory(c: Category, p: CategoryPatch): (r: Category)
    ensures p.id.Some? ==> r.id == p.id.value
    ensures p.id.None? ==> r.id == c.id
    ensures p.name.Some? ==> r.name == p.name.value
    ensures p.name.None? ==> r.name == c.name
    ensures p.slug.Some? ==> r.slug == p.slug.value
    ensures p.slug.None? ==> r.slug == c.slug
    ensures p.description.Some? ==> r.description == p.description.value
    ensures p.description.None? ==> r.description == c.description
    ensures p.image.Some? ==> r.image == p.image.value
    ensures p.image.None? ==> r.image == c.image
  {
    Category(
      p.id.GetOr(c.id),
      p.name.GetOr(c.name),
      p.slug.GetOr(c.slug),
      p.description.GetOr(c.description),
      p.image.GetOr(c.image))
  }

  /** `{ ...weapon, ...updates }`, field by field as for categories. */
  function MergeWeapon(w: Weapon, p: WeaponPatch): (r: Weapon)
    ensures p.id.Some? ==> r.id == p.id.value
    ensures p.id.None? ==> r.id == w.id
    ensures p.name.Some? ==> r.name == p.name.value
    ensures p.name.None? ==> r.name == w.name
    ensures p.slug.Some? ==> r.slug == p.slug.value
    ensures p.slug.None? ==> r.slug == w.slug
    ensures p.categoryId.Some? ==> r.categoryId == p.categoryId.value
    ensures p.categoryId.None? ==> r.categoryId == w.categoryId
    ensures p.price.Some? ==> r.price == p.price.value
    ensures p.price.None? ==> r.price == w.price
    ensures p.images.Some? ==> r.images == p.images.value
    ensures p.images.None? ==> r.images == w.images
    ensures p.videoUrl.Some? ==> r.videoUrl == p.videoUrl
    ensures p.videoUrl.None? ==> r.videoUrl == w.videoUrl
    ensures p.shortDescription.Some? ==> r.shortDescription == p.shortDescription.value
    ensures p.shortDescription.None? ==> r.shortDescription == w.shortDescription
    ensures p.fullDescription.Some? ==> r.fullDescription == p.fullDescription.value
    ensures p.fullDescription.None? ==> r.fullDescription == w.fullDescription
    ensures p.specifications.Some? ==> r.specifications == p.specifications.value
    ensures p.specifications.None? ==> r.specifications == w.specifications
  {
    Weapon(
      p.id.GetOr(w.id),
      p.name.GetOr(w.name),
      p.slug.GetOr(w.slug),
      p.categoryId.GetOr(w.categoryId),
      p.price.GetOr(w.price),
      p.images.GetOr(w.images),
      if p.videoUrl.Some? then p.videoUrl else w.videoUrl,
      p.shortDescription.GetOr(w.shortDescription),
      p.fullDescription.GetOr(w.fullDescription),
      p.specifications.GetOr(w.specifications))
  }

  /** `{ ...p, ...q }` for two category patches. */
  function ThenCategoryPatch(p: CategoryPatch, q: CategoryPatch): CategoryPatch {
    CategoryPatch(
      if q.id.Some? then q.id else p.id,
      if q.name.Some? then q.name else p.name,
      if q.slug.Some? then q.slug else p.slug,
      if q.description.Some? then q.description else p.description,
      if q.image.Some? then q.image else p.image)
  }

  /** A patch that changes only the description changes only the description. */
  lemma MergeCategoryDescriptionOnly(c: Category, text: string)
    ensures MergeCategory(c, CategoryPatch(None, None, None, Some(text), None)) == c.(description := text)
  {
  }

  /** Applying the same patch again changes nothing more. */
  lemma MergeCategoryIdempotent(c: Category, p: CategoryPatch)
    ensures MergeCategory(MergeCategory(c, p), p) == MergeCategory(c, p)
  {
  }

  /** Two successive merges are one merge with the later patch winning. */
  lemma MergeCategorySequence(c: Category, p: CategoryPatch, q: CategoryPatch)
    ensures MergeCategory(MergeCategory(c, p), q) == MergeCategory(c, ThenCategoryPatch(p, q))
  {
  }

  /** Merging a patch that leaves out every field returns the record unchanged. */
  lemma MergeWeaponEmptyPatch(w: Weapon)
    ensures MergeWeapon(w, WeaponPatch(None, None, None, None, None, None, None, None, None, None)) == w
  {
  }

  // ---------------------------------------------------------------------------
  // The predicates handed to findIndex / filter / find
  // ---------------------------------------------------------------------------

  /** `c => c.id === id`; an absent id (undefined) matches no stored category. */
  function CategoryIdIs(id: Option<string>): Category -> bool {
    (c: Category) => id == Some(c.id)
  }

  function CategoryIdIsNot(id: string): Category -> bool {
    (c: Category) => c.id != id
  }

  function CategorySlugIs(slug: string): Category -> bool {
    (c: Category) => c.slug == slug
  }

  function WeaponIdIs(id: Option<string>): Weapon -> bool {
    (w: Weapon) => id == Some(w.id)
  }

  function WeaponIdIsNot(id: string): Weapon -> bool {
    (w: Weapon) => w.id != id
  }

  function InCategory(categoryId: string): Weapon -> bool {
    (w: Weapon) => w.categoryId == categoryId
  }

  /** `w => w.slug === decodedSlug || w.slug === slug` */
  function WeaponSlugIsEither(decoded: string, raw: string): Weapon -> bool {
    (w: Weapon) => w.slug == decoded || w.slug == raw
  }

  // ---------------------------------------------------------------------------
  // Read-modify-write edits of the document
  // ---------------------------------------------------------------------------

  /** `data.categories.push(category)` */
  function AppendCategory(d: Document, c: Category): (r: Document)
    ensures |r.categories| == |d.categories| + 1 && r.categories[|d.categories|] == c
    ensures r.categories[..|d.categories|] == d.categories
    ensures r.weapons == d.weapons && r.settings == d.settings
  {
    d.(categories := d.categories + [c])
  }

  /** `data.weapons.push(weapon)` */
  function AppendWeapon(d: Document, w: Weapon): (r: Document)
    ensures |r.weapons| == |d.weapons| + 1 && r.weapons[|d.weapons|] == w
    ensures r.weapons[..|d.weapons|] == d.weapons
    ensures r.categories == d.categories && r.settings == d.settings
  {
    d.(weapons := d.weapons + [w])
  }

  /** The edit of `updateCategory`: only the first category with the id is merged with the patch. */
  function UpdateCategoryIn(d: Document, id: Option<string>, p: CategoryPatch): (r: Document)
    ensures |r.categories| == |d.categories| && r.weapons == d.weapons && r.settings == d.settings
    ensures forall k :: 0 <= k < |d.categories| ==>
      r.categories[k] == if IsFirst(d.categories, CategoryIdIs(id), k) then MergeCategory(d.categories[k], p) else d.categories[k]
    ensures (forall k :: 0 <= k < |d.categories| ==> Some(d.categories[k].id) != id) ==> r == d
  {
    var index := FindIndex(d.categories, CategoryIdIs(id));
    if index == -1 then d
    else d.(categories := d.categories[index := MergeCategory(d.categories[index], p)])
  }

  /** The edit of `updateWeapon`: only the first weapon with the id is merged with the patch. */
  function UpdateWeaponIn(d: Document, id: Option<string>, p: WeaponPatch): (r: Document)
    ensures |r.weapons| == |d.weapons| && r.categories == d.categories && r.settings == d.settings
    ensures forall k :: 0 <= k < |d.weapons| ==>
      r.weapons[k] == if IsFirst(d.weapons, WeaponIdIs(id), k) then MergeWeapon(d.weapons[k], p) else d.weapons[k]
    ensures (forall k :: 0 <= k < |d.weapons| ==> Some(d.weapons[k].id) != id) ==> r == d
  {
    var index := FindIndex(d.weapons, WeaponIdIs(id));
    if index == -1 then d
    else d.(weapons := d.weapons[index := MergeWeapon(d.weapons[index], p)])
  }

  /** `data.categories.filter(c => c.id !== id)` */
  function CategoriesWithout(cats: seq<Category>, id: string): (r: seq<Category>)
    ensures |r| <= |cats|
    ensures forall i :: 0 <= i < |r| ==> r[i].id != id
  {
    Filter(cats, CategoryIdIsNot(id))
  }

  /** `data.weapons.filter(w => w.id !== id)` */
  function WeaponsWithout(ws: seq<Weapon>, id: string): (r: seq<Weapon>)
    ensures |r| <= |ws|
    ensures forall i :: 0 <= i < |r| ==> r[i].id != id
  {
    Filter(ws, WeaponIdIsNot(id))
  }

  /** The edit of `deleteCategory`: the categories lose every entry with the id; the weapons that reference it stay. */
  function RemoveCategory(d: Document, id: string): (r: Document)
    ensures forall i :: 0 <= i < |r.categories| ==> r.categories[i].id != id
    ensures |r.categories| <= |d.categories|
    ensures r.weapons == d.weapons && r.settings == d.settings
  {
    d.(categories := CategoriesWithout(d.categories, id))
  }

  /** The edit of `deleteWeapon`. */
  function RemoveWeapon(d: Document, id: string): (r: Document)
    ensures forall i :: 0 <= i < |r.weapons| ==> r.weapons[i].id != id
    ensures |r.weapons| <= |d.weapons|
    ensures r.categories == d.categories && r.settings == d.settings
  {
    d.(weapons := WeaponsWithout(d.weapons, id))
  }

  /** `{ ...data.settings, ...settings }`: spreading absent settings contributes nothing. */
  function MergeSettings(s: Option<Settings>, p: Settings): (r: Settings)
    ensures p.orderButtonUrl.Some? ==> r == p
    ensures p.orderButtonUrl.None? && s.Some? ==> r == s.value
    ensures p.orderButtonUrl.None? && s.None? ==> r == Settings(None)
  {
    Settings(
      if p.orderButtonUrl.Some? then p.orderButtonUrl
      else if s.Some? then s.value.orderButtonUrl
      else None)
  }

  /** The edit of `updateSettings`. */
  function ApplySettingsPatch(d: Document, p: Settings): (r: Document)
    ensures r.settings.Some?
    ensures r.categories == d.categories && r.weapons == d.weapons
  {
    d.(settings := Some(MergeSettings(d.settings, p)))
  }

  // ---------------------------------------------------------------------------
  // Lookups
  // ---------------------------------------------------------------------------

  /** `getWeaponsByCategory` */
  function WeaponsByCategory(ws: seq<Weapon>, categoryId: string): (r: seq<Weapon>)
    ensures |r| <= |ws|
    ensures forall i :: 0 <= i < |r| ==> r[i].categoryId == categoryId
  {
    Filter(ws, InCategory(categoryId))
  }

  /** `getCategoryBySlug` */
  function CategoryBySlug(cats: seq<Category>, slug: string): (r: Option<Category>)
    ensures r.Some? ==> r.value in cats && r.value.slug == slug
    ensures r.None? <==> forall k :: 0 <= k < |cats| ==> cats[k].slug != slug
    ensures forall k :: IsFirst(cats, CategorySlugIs(slug), k) ==> r == Some(cats[k])
  {
    Find(cats, CategorySlugIs(slug))
  }

  /**
   * `getWeaponBySlug`: `decodeURIComponent(slug)` throws on a malformed
   * escape; otherwise the first weapon whose slug is the decoded or the raw
   * input.
   */
  function WeaponBySlug(ws: seq<Weapon>, slug: string, decodeUri: string -> Option<string>): (r: Result<Option<Weapon>>)
    ensures r.Err? <==> decodeUri(slug).None?
    ensures r.Err? ==> r.error == MalformedUri
    ensures r.Ok? && r.value.Some? ==>
      r.value.value in ws && (r.value.value.slug == decodeUri(slug).value || r.value.value.slug == slug)
    ensures r == Ok(None) <==>
      decodeUri(slug).Some? && forall k :: 0 <= k < |ws| ==> ws[k].slug != decodeUri(slug).value && ws[k].slug != slug
    ensures decodeUri(slug).Some? ==>
      forall k :: IsFirst(ws, WeaponSlugIsEither(decodeUri(slug).value, slug), k) ==> r == Ok(Some(ws[k]))
  {
    match decodeUri(slug)
    case None => Err(MalformedUri)
    case Some(decoded) => Ok(Find(ws, WeaponSlugIsEither(decoded, slug)))
  }

  /** `data.settings || { orderButtonUrl: '' }` */
  function SettingsOrDefault(s: Option<Settings>): (r: Settings)
    ensures s.Some? ==> r == s.value
    ensures s.None? ==> r.orderButtonUrl == Some("")
  {
    s.GetOr(Settings(Some("")))
  }

  // ---------------------------------------------------------------------------
  // What the edits and lookups promise
  // ---------------------------------------------------------------------------

  /** A lookup after an append finds an older category with the slug first: ids and slugs are not kept unique. */
  lemma {:induction false} AppendCategoryThenLookup(d: Document, c: Category, slug: string)
    ensures CategoryBySlug(AppendCategory(d, c).categories, slug) ==
      if CategoryBySlug(d.categories, slug).Some? then CategoryBySlug(d.categories, slug)
      else if c.slug == slug then Some(c) else None
  {
    var s, s' := d.categories, d.categories + [c];
    var p := CategorySlugIs(slug);
    var k := FindIndex(s, p);
    if k != -1 {
      assert IsFirst(s', p, k);
    } else if c.slug == slug {
      assert IsFirst(s', p, |s|);
    } else {
      assert forall j :: 0 <= j < |s'| ==> !p(s'[j]);
    }
  }

  /** An added weapon shows up last in its category's listing and nowhere else. */
  lemma {:induction false} AppendWeaponThenListCategory(d: Document, w: Weapon, categoryId: string)
    ensures WeaponsByCategory(AppendWeapon(d, w).weapons, categoryId) ==
      WeaponsByCategory(d.weapons, categoryId) + (if w.categoryId == categoryId then [w] else [])
  {
    FilterAppend(d.weapons, [w], InCategory(categoryId));
  }

  /** `updateCategory` with an id no category has leaves the document as it was. */
  lemma UpdateUnknownCategoryIsNoOp(d: Document, id: Option<string>, p: CategoryPatch)
    requires forall k :: 0 <= k < |d.categories| ==> Some(d.categories[k].id) != id
    ensures UpdateCategoryIn(d, id, p) == d
  {
  }

  /** After an update the first category with the id carries every field the patch supplied. */
  lemma {:induction false} UpdateCategoryApplies(d: Document, id: string, p: CategoryPatch, k: nat)
    requires k < |d.categories| && d.categories[k].id == id
    requires forall j :: 0 <= j < k ==> d.categories[j].id != id
    ensures var c := UpdateCategoryIn(d, Some(id), p).categories[k];
      c == MergeCategory(d.categories[k], p)
      && (p.description.Some? ==> c.description == p.description.value)
      && (p.description.None? ==> c.description == d.categories[k].description)
  {
    assert IsFirst(d.categories, CategoryIdIs(Some(id)), k);
  }

  /** After deleting, no category has the id and every category with another id is still there. */
  lemma {:induction false} RemoveCategoryExact(d: Document, id: string)
    ensures forall c :: c in RemoveCategory(d, id).categories <==> c in d.categories && c.id != id
    ensures RemoveCategory(d, id).weapons == d.weapons && RemoveCategory(d, id).settings == d.settings
  {
    forall c: Category
      ensures c in RemoveCategory(d, id).categories <==> c in d.categories && c.id != id
    {
      FilterMembership(d.categories, CategoryIdIsNot(id), c);
    }
  }

  /** Deleting the same id twice gives the same document as deleting it once. */
  lemma {:induction false} RemoveCategoryIdempotent(d: Document, id: string)
    ensures RemoveCategory(RemoveCategory(d, id), id) == RemoveCategory(d, id)
  {
    FilterIdempotent(d.categories, CategoryIdIsNot(id));
  }

  /** Deleting an id that no category has changes nothing (the document is still saved). */
  lemma {:induction false} RemoveUnknownCategoryIsNoOp(d: Document, id: string)
    requires forall k :: 0 <= k < |d.categories| ==> d.categories[k].id != id
    ensures RemoveCategory(d, id) == d
  {
    FilterKeepsAll(d.categories, CategoryIdIsNot(id));
  }

  /** Deleting what was just added restores the categories as they were, less any older entry with the same id. */
  lemma {:induction false} AddThenRemoveCategory(d: Document, c: Category)
    ensures RemoveCategory(AppendCategory(d, c), c.id) == RemoveCategory(d, c.id)
  {
    FilterAppend(d.categories, [c], CategoryIdIsNot(c.id));
    assert Filter([c], CategoryIdIsNot(c.id)) == [];
  }

  /** Deleting a category does not delete the weapons that reference it. */
  lemma RemoveCategoryKeepsItsWeapons(d: Document, id: string)
    ensures WeaponsByCategory(RemoveCategory(d, id).weapons, id) == WeaponsByCategory(d.weapons, id)
  {
  }

  /** After deleting, no weapon has the id and every weapon with another id is still there. */
  lemma {:induction false} RemoveWeaponExact(d: Document, id: string)
    ensures forall w :: w in RemoveWeapon(d, id).weapons <==> w in d.weapons && w.id != id
    ensures RemoveWeapon(d, id).categories == d.categories && RemoveWeapon(d, id).settings == d.settings
  {
    forall w: Weapon
      ensures w in RemoveWeapon(d, id).weapons <==> w in d.weapons && w.id != id
    {
      FilterMembership(d.weapons, WeaponIdIsNot(id), w);
    }
  }

  /** Deleting the same weapon id twice gives the same document as deleting it once. */
  lemma {:induction false} RemoveWeaponIdempotent(d: Document, id: string)
    ensures RemoveWeapon(RemoveWeapon(d, id), id) == RemoveWeapon(d, id)
  {
    FilterIdempotent(d.weapons, WeaponIdIsNot(id));
  }

  /** Deleting an id that no weapon has changes nothing (the document is still saved). */
  lemma {:induction false} RemoveUnknownWeaponIsNoOp(d: Document, id: string)
    requires forall k :: 0 <= k < |d.weapons| ==> d.weapons[k].id != id
    ensures RemoveWeapon(d, id) == d
  {
    FilterKeepsAll(d.weapons, WeaponIdIsNot(id));
  }

  /** `getWeaponsByCategory` lists exactly the weapons of that category. */
  lemma {:induction false} WeaponsByCategoryExact(ws: seq<Weapon>, categoryId: string)
    ensures forall w :: w in WeaponsByCategory(ws, categoryId) <==> w in ws && w.categoryId == categoryId
  {
    forall w: Weapon
      ensures w in WeaponsByCategory(ws, categoryId) <==> w in ws && w.categoryId == categoryId
    {
      FilterMembership(ws, InCategory(categoryId), w);
    }
  }

  /** The listing keeps collection order: listing a concatenation is concatenating the listings. */
  lemma {:induction false} WeaponsByCategoryInOrder(a: seq<Weapon>, b: seq<Weapon>, categoryId: string)
    ensures WeaponsByCategory(a + b, categoryId) == WeaponsByCategory(a, categoryId) + WeaponsByCategory(b, categoryId)
  {
    FilterAppend(a, b, InCategory(categoryId));
  }

  /**
   * The percent-encoded form of a slug and the slug itself find the same
   * weapon, provided no weapon's slug is literally the encoded form.
   */
  lemma {:induction false} WeaponBySlugEncodedOrDecoded(ws: seq<Weapon>, slug: string, encoded: string, decodeUri: string -> Option<string>)
    requires decodeUri(encoded) == Some(slug) && decodeUri(slug) == Some(slug)
    requires forall k :: 0 <= k < |ws| ==> ws[k].slug != encoded || encoded == slug
    ensures WeaponBySlug(ws, encoded, decodeUri) == WeaponBySlug(ws, slug, decodeUri)
  {
    FindIndexAgree(ws, WeaponSlugIsEither(slug, encoded), WeaponSlugIsEither(slug, slug));
  }

  /** After setting the order-button URL, `getSettings` returns exactly that URL. */
  lemma SettingsReadAfterWrite(d: Document, url: string)
    ensures SettingsOrDefault(ApplySettingsPatch(d, Settings(Some(url))).settings) == Settings(Some(url))
  {
  }

  /** A patch without a URL keeps the stored settings, and `getSettings` still returns them. */
  lemma SettingsKeptWithoutUrl(d: Document, p: Settings)
    requires d.settings.Some? && p.orderButtonUrl.None?
    ensures ApplySettingsPatch(d, p).settings == d.settings
    ensures SettingsOrDefault(ApplySettingsPatch(d, p).settings) == SettingsOrDefault(d.settings)
  {
  }

  /**
   * An empty patch on a document without settings creates `{}`, after which
   * `getSettings` no longer supplies the empty-URL default.
   */
  lemma EmptySettingsPatchDropsDefault(d: Document)
    requires d.settings.None?
    ensures SettingsOrDefault(d.settings) == Settings(Some(""))
    ensures SettingsOrDefault(ApplySettingsPatch(d, Settings(None)).settings) == Settings(None)
  {
  }

  // ---------------------------------------------------------------------------
  // The module state of lib/store.ts
  // ---------------------------------------------------------------------------

  class Repository {
    /** `dataCache`: the live document object handed to every caller, or null. */
    var dataCache: StoreData?
    /** `cacheTime`: when `dataCache` was last fetched or saved. */
    var cacheTime: int
    /** The remote copy that `getGitHubData` / `saveGitHubData` talk to. */
    const remote: RemoteFile

    constructor (remote: RemoteFile)
      ensures this.remote == remote && dataCache == null && cacheTime == 0
    {
      this.remote := remote;
      dataCache := null;
      cacheTime := 0;
    }

    /** A read at `now` is served from the cache. */
    predicate CacheHit(now: int)
      reads this
    {
      dataCache != null && now - cacheTime < CacheTtl
    }

    /** The document a read at `now` obtains, if the remote read succeeds. */
    ghost function Served(now: int): Document
      reads this, remote, dataCache
    {
      if CacheHit(now) then dataCache.Value() else remote.file
    }

    /**
     * The effect of `getStoreData` at `now`, where `ok` says whether it
     * returned: a hit asks nothing of the remote and changes nothing; a miss
     * reads the remote once and, if that succeeds, caches the new object
     * with time `now`; a failed read assigns neither field.
     */
    twostate predicate Loaded(now: int, ok: bool)
      reads this, remote, dataCache
    {
      && remote.file == old(remote.file)
      && if old(CacheHit(now)) then
           && ok
           && dataCache == old(dataCache) && cacheTime == old(cacheTime)
           && remote.log == old(remote.log)
         else
           && remote.log == old(remote.log) + [Read]
           && if ok then
                dataCache != null && fresh(dataCache) && dataCache.Value() == remote.file && cacheTime == now
              else
                dataCache == old(dataCache) && cacheTime == old(cacheTime)
    }

    /**
     * The effect of a read-modify-write operation that obtains the document
     * at `readAt`, turns it into `edited` in place, and (when `writes`) saves
     * it at `saveAt`, with completion `r`.
     *
     * Either the remote read failed (a miss; nothing edited, nothing saved),
     * or the cached object now holds `edited` whatever the save did: the edit
     * was made on the object the cache points to. Only a successful save
     * moves the remote copy and the cache time.
     */
    twostate predicate ReadModifyWrite(readAt: int, saveAt: int, edited: Document, writes: bool, r: Outcome)
      reads this, remote, dataCache
    {
      var hit := old(CacheHit(readAt));
      var fetchLog := if hit then old(remote.log) else old(remote.log) + [Read];
      if r == Failed(FetchFailed) then
        && !hit
        && dataCache == old(dataCache) && cacheTime == old(cacheTime)
        && remote.file == old(remote.file) && remote.log == fetchLog
      else
        && dataCache != null
        && (if hit then dataCache == old(dataCache) else fresh(dataCache))
        && dataCache.Value() == edited
        && remote.log == fetchLog + (if writes then [Write(edited)] else [])
        && (r.Failed? ==> r == Failed(SaveFailed) && writes)
        && if r.Done? && writes then
             remote.file == edited && cacheTime == saveAt
           else
             remote.file == old(remote.file) && cacheTime == if hit then old(cacheTime) else readAt
    }

    /**
     * `ReadModifyWrite` as a route handler sees it: it learns only whether
     * the operation returned (`answered`), not which of the two failures
     * made it throw.
     */
    twostate predicate ReadModifyWriteAnswered(readAt: int, saveAt: int, edited: Document, writes: bool, answered: bool)
      reads this, remote, dataCache
    {
      if answered then ReadModifyWrite(readAt, saveAt, edited, writes, Done)
      else (ReadModifyWrite(readAt, saveAt, edited, writes, Failed(FetchFailed))
            || ReadModifyWrite(readAt, saveAt, edited, writes, Failed(SaveFailed)))
    }

    /** `getStoreData`, with `now` the clock reading at its start. */
    method GetStoreData(now: int) returns (r: Result<StoreData>)
      modifies this, remote
      ensures Loaded(now, r.Ok?)
      ensures r.Ok? ==> r.value == dataCache && r.value.Value() == old(Served(now))
      ensures r.Err? ==> r.error == FetchFailed
    {
      if dataCache != null && now - cacheTime < CacheTtl {
        return Ok(dataCache);
      }
      var fetched := remote.Fetch();
      if fetched.None? {
        return Err(FetchFailed);
      }
      dataCache := fetched.value;
      cacheTime := now;
      r := Ok(dataCache);
    }

    /** `saveStoreData`, with `now` the clock reading after the remote write. */
    method SaveStoreData(data: StoreData, now: int) returns (r: Outcome)
      modifies this, remote
      ensures remote.log == old(remote.log) + [Write(data.Value())]
      ensures r.Done? ==> remote.file == data.Value() && dataCache == data && cacheTime == now
      ensures r.Failed? ==> r.error == SaveFailed
      ensures r.Failed? ==> remote.file == old(remote.file) && dataCache == old(dataCache) && cacheTime == old(cacheTime)
    {
      var ok := remote.Save(data);
      if !ok {
        return Failed(SaveFailed);
      }
      dataCache := data;
      cacheTime := now;
      r := Done;
    }

    /** `getCategories` */
    method GetCategories(now: int) returns (r: Result<seq<Category>>)
      modifies this, remote
      ensures Loaded(now, r.Ok?)
      ensures r.Ok? ==> r.value == old(Served(now)).categories
      ensures r.Err? ==> r.error == FetchFailed
    {
      var data := GetStoreData(now);
      if data.Err? {
        return Err(data.error);
      }
      r := Ok(data.value.categories);
    }

    /** `getWeapons` */
    method GetWeapons(now: int) returns (r: Result<seq<Weapon>>)
      modifies this, remote
      ensures Loaded(now, r.Ok?)
      ensures r.Ok? ==> r.value == old(Served(now)).weapons
      ensures r.Err? ==> r.error == FetchFailed
    {
      var data := GetStoreData(now);
      if data.Err? {
        return Err(data.error);
      }
      r := Ok(data.value.weapons);
    }

    /** `getWeaponsByCategory` */
    method GetWeaponsByCategory(categoryId: string, now: int) returns (r: Result<seq<Weapon>>)
      modifies this, remote
      ensures Loaded(now, r.Ok?)
      ensures r.Ok? ==> r.value == WeaponsByCategory(old(Served(now)).weapons, categoryId)
      ensures r.Err? ==> r.error == FetchFailed
    {
      var data := GetStoreData(now);
      if data.Err? {
        return Err(data.error);
      }
      r := Ok(WeaponsByCategory(data.value.weapons, categoryId));
    }

    /** `getWeaponBySlug`: the document is obtained before the slug is decoded. */
    method GetWeaponBySlug(slug: string, decodeUri: string -> Option<string>, now: int) returns (r: Result<Option<Weapon>>)
      modifies this, remote
      ensures Loaded(now, r != Err(FetchFailed))
      ensures r != Err(FetchFailed) ==> r == WeaponBySlug(old(Served(now)).weapons, slug, decodeUri)
    {
      var data := GetStoreData(now);
      if data.Err? {
        return Err(data.error);
      }
      r := WeaponBySlug(data.value.weapons, slug, decodeUri);
    }

    /** `getCategoryBySlug` */
    method GetCategoryBySlug(slug: string, now: int) returns (r: Result<Option<Category>>)
      modifies this, remote
      ensures Loaded(now, r.Ok?)
      ensures r.Ok? ==> r.value == CategoryBySlug(old(Served(now)).categories, slug)
      ensures r.Err? ==> r.error == FetchFailed
    {
      var data := GetStoreData(now);
      if data.Err? {
        return Err(data.error);
      }
      r := Ok(CategoryBySlug(data.value.categories, slug));
    }

    /** `addCategory`: push onto the live object, then save it. */
    method AddCategory(category: Category, readAt: int, saveAt: int) returns (r: Outcome)
      modifies this, remote, dataCache
      ensures ReadModifyWrite(readAt, saveAt, AppendCategory(old(Served(readAt)), category), true, r)
      ensures !old(CacheHit(readAt)) && old(dataCache) != null ==> unchanged(old(dataCache))
    {
      var data := GetStoreData(readAt);
      if data.Err? {
        return Failed(data.error);
      }
      var live := data.value;
      live.categories := live.categories + [category];
      r := SaveStoreData(live, saveAt);
    }

    /** `updateCategory`: merge into the first match in place and save; no match, no save. */
    method UpdateCategory(id: Option<string>, updates: CategoryPatch, readAt: int, saveAt: int) returns (r: Outcome)
      modifies this, remote, dataCache
      ensures ReadModifyWrite(readAt, saveAt, UpdateCategoryIn(old(Served(readAt)), id, updates),
                              FindIndex(old(Served(readAt)).categories, CategoryIdIs(id)) != -1, r)
      ensures !old(CacheHit(readAt)) && old(dataCache) != null ==> unchanged(old(dataCache))
    {
      var data := GetStoreData(readAt);
      if data.Err? {
        return Failed(data.error);
      }
      var live := data.value;
      var index := FindIndex(live.categories, CategoryIdIs(id));
      if index != -1 {
        live.categories := live.categories[index := MergeCategory(live.categories[index], updates)];
        r := SaveStoreData(live, saveAt);
      } else {
        r := Done;
      }
    }

    /** `deleteCategory`: replace the collection by the filtered one and always save. */
    method DeleteCategory(id: string, readAt: int, saveAt: int) returns (r: Outcome)
      modifies this, remote, dataCache
      ensures ReadModifyWrite(readAt, saveAt, RemoveCategory(old(Served(readAt)), id), true, r)
      ensures !old(CacheHit(readAt)) && old(dataCache) != null ==> unchanged(old(dataCache))
    {
      var data := GetStoreData(readAt);
      if data.Err? {
        return Failed(data.error);
      }
      var live := data.value;
      live.categories := CategoriesWithout(live.categories, id);
      r := SaveStoreData(live, saveAt);
    }

    /** `addWeapon` */
    method AddWeapon(weapon: Weapon, readAt: int, saveAt: int) returns (r: Outcome)
      modifies this, remote, dataCache
      ensures ReadModifyWrite(readAt, saveAt, AppendWeapon(old(Served(readAt)), weapon), true, r)
      ensures !old(CacheHit(readAt)) && old(dataCache) != null ==> unchanged(old(dataCache))
    {
      var data := GetStoreData(readAt);
      if data.Err? {
        return Failed(data.error);
      }
      var live := data.value;
      live.weapons := live.weapons + [weapon];
      r := SaveStoreData(live, saveAt);
    }

    /** `updateWeapon` */
    method UpdateWeapon(id: Option<string>, updates: WeaponPatch, readAt: int, saveAt: int) returns (r: Outcome)
      modifies this, remote, dataCache
      ensures ReadModifyWrite(readAt, saveAt, UpdateWeaponIn(old(Served(readAt)), id, updates),
                              FindIndex(old(Served(readAt)).weapons, WeaponIdIs(id)) != -1, r)
      ensures !old(CacheHit(readAt)) && old(dataCache) != null ==> unchanged(old(dataCache))
    {
      var data := GetStoreData(readAt);
      if data.Err? {
        return Failed(data.error);
      }
      var live := data.value;
      var index := FindIndex(live.weapons, WeaponIdIs(id));
      if index != -1 {
        live.weapons := live.weapons[index := MergeWeapon(live.weapons[index], updates)];
        r := SaveStoreData(live, saveAt);
      } else {
        r := Done;
      }
    }

    /** `deleteWeapon` */
    method DeleteWeapon(id: string, readAt: int, saveAt: int) returns (r: Outcome)
      modifies this, remote, dataCache
      ensures ReadModifyWrite(readAt, saveAt, RemoveWeapon(old(Served(readAt)), id), true, r)
      ensures !old(CacheHit(readAt)) && old(dataCache) != null ==> unchanged(old(dataCache))
    {
      var data := GetStoreData(readAt);
      if data.Err? {
        return Failed(data.error);
      }
      var live := data.value;
      live.weapons := WeaponsWithout(live.weapons, id);
      r := SaveStoreData(live, saveAt);
    }

    /** `getSettings` */
    method GetSettings(now: int) returns (r: Result<Settings>)
      modifies this, remote
      ensures Loaded(now, r.Ok?)
      ensures r.Ok? ==> r.value == SettingsOrDefault(old(Served(now)).settings)
      ensures r.Err? ==> r.error == FetchFailed
    {
      var data := GetStoreData(now);
      if data.Err? {
        return Err(data.error);
      }
      r := Ok(SettingsOrDefault(data.value.settings));
    }

    /** `updateSettings`: merge over the existing settings (creating them) and always save. */
    method UpdateSettings(settings: Settings, readAt: int, saveAt: int) returns (r: Outcome)
      modifies this, remote, dataCache
      ensures ReadModifyWrite(readAt, saveAt, ApplySettingsPatch(old(Served(readAt)), settings), true, r)
      ensures !old(CacheHit(readAt)) && old(dataCache) != null ==> unchanged(old(dataCache))
    {
      var data := GetStoreData(readAt);
      if data.Err? {
        return Failed(data.error);
      }
      var live := data.value;
      live.settings := Some(MergeSettings(live.settings, settings));
      r := SaveStoreData(live, saveAt);
    }
  }
}
