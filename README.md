# Catalogue store and admin API, modelled in Dafny

The shop keeps its whole catalogue in one JSON document, `data/store.json`,
stored in a GitHub repository. The document holds the categories, the
weapons (products) and the site settings. `lib/store.ts` is a cached
repository over that document. Two module variables, `dataCache` and
`cacheTime`, keep the last document fetched or saved, and it is served
without a remote read for `CACHE_TTL` = 10000 ms. Every entity operation
is a read-modify-write: obtain the live document object, edit it in place,
and save the whole document. A successful save re-points the cache at the
saved object and restarts the window. The admin API
(`app/api/{categories,weapons,settings}/route.ts`) maps HTTP verbs onto
these operations. Each handler answers with the record, `{ success: true }`,
a 400 for a missing id, or a 500 whose message names the operation.

The model is split by module:

- `Types` holds the records of `types/index.ts`. It also holds `StoreData`, the mutable document object the cache hands out.
- `GitHub` is the remote file, with a read and a write that may each fail, and a log of the requests sent.
- `Seqs` holds `findIndex`, `find` and `filter`.
- `Text` holds slug derivation and the decimal time-stamp identifiers.
- `Store` holds the edits and lookups as functions on documents. It also has the class `Repository`, whose fields are `dataCache` and `cacheTime` and whose methods are the functions of `lib/store.ts`.
- `Http`, `CategoriesRoute`, `WeaponsRoute` and `SettingsRoute` hold the handlers.
- `Scenarios` holds client sequences that state what a caller can rely on.

Aliasing is modelled. `getStoreData` returns the cached object itself, and
the entity operations edit that object before saving it. So an edit whose
save throws stays visible to every later read until the cache expires. The
next successful save of another edit made inside the window also stores it
(`Scenarios.FailedSaveStaysVisible`); once the window has passed, a read
re-fetches the remote document and the failed edit is gone.

Clock readings are parameters:

- `readAt` is the `Date.now()` of `getStoreData`.
- `saveAt` is the `Date.now()` of `saveStoreData`.
- `idTime` is the `Date.now()` of a new identifier.

`String.prototype.toLowerCase` and `decodeURIComponent` are library
behaviour and are also passed in as functions. A remote failure is a
nondeterministic choice inside `GitHub.RemoteFile`.

Behaviours of the code worth noting:

- An update whose id matches no record does not save at all (`lib/store.ts:67`).
- POST always generates a fresh id from the clock, even when the body carries an id (`app/api/categories/route.ts:18`, `app/api/weapons/route.ts:18`).
- The status of the SHA lookup before a write is not checked (`lib/github.ts:34-42`). Any failure of the SHA read (a network error, an answer that is not JSON) or of the PUT makes the save throw; a failed SHA read sends no PUT at all.
- `getWeaponBySlug` decodes the slug before looking it up, and `decodeURIComponent` throws on a `%` that is not followed by two hex digits (`lib/store.ts:49`). So a weapon whose slug has such a `%` (`100%`, say) can be found only by its percent-encoded form (`100%25`).

## Model

| member | source | states |
|---|---|---|
| Types.StoreData.constructor | types/index.ts:24-30 | a parsed document object holds exactly the given categories, weapons and settings |
| GitHub.RemoteFile.constructor | lib/github.ts:7 | the remote file starts with the given document and no requests sent |
| GitHub.RemoteFile.Fetch | lib/github.ts:9-28 | one read request is logged and the remote file is unchanged; on success the result is a new object holding exactly the stored document |
| GitHub.RemoteFile.Save | lib/github.ts:30-65 | one write request carrying the object's document is logged; on success the file becomes that document, on failure (62-64) it is unchanged |
| Seqs.FindIndex | lib/store.ts:66 | the result is -1 exactly when no element satisfies the predicate, otherwise the first position that does |
| Seqs.Find | lib/store.ts:50 | some element is found exactly when one satisfies the predicate, and it is the element at the first such position |
| Seqs.Filter | lib/store.ts:44 | the result is no longer than the input and every kept element satisfies the predicate |
| Seqs.FilterAppend | lib/store.ts:44 | filtering a concatenation is concatenating the filtered parts, so order is kept |
| Seqs.FilterMembership | lib/store.ts:75 | an element is in the result exactly when it is in the input and satisfies the predicate |
| Seqs.FilterKeepsAll | lib/store.ts:75 | when every element satisfies the predicate nothing is removed |
| Seqs.FilterIdempotent | lib/store.ts:96 | filtering twice by one predicate equals filtering once |
| Seqs.FindIndexAgree | lib/store.ts:50 | predicates that agree on every element find the same position |
| Text.LeadingSpaces | app/api/categories/route.ts:20 | the length of the leading whitespace run: all of it is whitespace and the next character is not |
| Text.ReplaceWhitespaceRuns | app/api/categories/route.ts:20 | the result of replacing every whitespace run by `-` contains no whitespace and is no longer than the input |
| Text.ReplaceKeepsSpaceFree | app/api/categories/route.ts:20 | a string without whitespace is unchanged by the replacement |
| Text.LeadingSpacesAppend | app/api/categories/route.ts:20 | how the leading run of a concatenation is made of the runs of its parts |
| Text.ReplaceAppend | app/api/categories/route.ts:20 | the replacement distributes over a concatenation whose cut is not inside a whitespace run |
| Text.LeadingRunBecomesDash | app/api/categories/route.ts:20 | a leading whitespace run followed by a non-space becomes a single `-` |
| Text.RunBecomesOneDash | app/api/categories/route.ts:20 | a maximal whitespace run anywhere in the string turns into exactly one `-` and nothing else changes |
| Text.DeriveSlug | app/api/weapons/route.ts:20 | a non-empty given slug is used as given; otherwise the slug is whitespace-free and no longer than the lower-cased name |
| Text.DerivedSlugOfOneWord | app/api/categories/route.ts:20 | with no slug given, a name whose lower-cased form has no whitespace yields that lower-cased form |
| Text.DigitChar | app/api/categories/route.ts:18 | a digit value gives a decimal digit character |
| Text.Digits | app/api/categories/route.ts:18 | the numeral of a natural number is all digits, non-empty, and has no leading zero |
| Text.TimeToString | app/api/categories/route.ts:18 | the numeral of a time stamp is non-empty |
| Text.DigitsRoundTrip | app/api/categories/route.ts:18 | reading back a numeral gives the number |
| Text.TimeToStringRoundTrip | app/api/weapons/route.ts:18 | reading back an identifier made from a time stamp gives that time stamp |
| Text.TimeIdsDistinct | app/api/categories/route.ts:18 | two identifiers are equal if and only if they were made at the same millisecond |
| Text.Truthy | app/api/categories/route.ts:20-22 | JavaScript truthiness of an optional string: present and not empty |
| Text.IsSpace | app/api/categories/route.ts:20 | the characters of the regular-expression class `\s`: ECMAScript white space and line terminators |
| Store.MergeCategory | lib/store.ts:68 | every field the patch supplies overwrites the category's, every field it leaves out is kept |
| Store.MergeWeapon | lib/store.ts:89 | every field the patch supplies overwrites the weapon's, every field it leaves out is kept |
| Store.MergeCategoryDescriptionOnly | lib/store.ts:68 | merging a patch with only a description changes only the description |
| Store.MergeCategoryIdempotent | lib/store.ts:68 | merging the same patch again changes nothing |
| Store.MergeCategorySequence | lib/store.ts:68 | two successive merges equal one merge where the later patch wins field by field |
| Store.MergeWeaponEmptyPatch | lib/store.ts:89 | a weapon patch that supplies no field leaves the weapon unchanged |
| Store.UpdateCategoryIn | lib/store.ts:64-71 | only the first category with the id is replaced by its merge with the patch, and weapons, settings and length are kept; with no such id the document is unchanged |
| Store.UpdateWeaponIn | lib/store.ts:85-92 | only the first weapon with the id is replaced by its merge with the patch, and categories, settings and length are kept; with no such id the document is unchanged |
| Store.CategoriesWithout | lib/store.ts:75 | no kept category has the id and none is added; membership in both directions is `Store.RemoveCategoryExact` |
| Store.WeaponsWithout | lib/store.ts:96 | no kept weapon has the id and none is added; membership in both directions is `Store.RemoveWeaponExact` |
| Store.RemoveCategory | lib/store.ts:73-77 | the categories lose every entry with the id, and weapons and settings are unchanged |
| Store.RemoveWeapon | lib/store.ts:94-98 | the weapons lose every entry with the id, and categories and settings are unchanged |
| Store.MergeSettings | lib/store.ts:107 | a supplied URL wins; without one the stored settings are kept, and absent settings become `{}` |
| Store.ApplySettingsPatch | lib/store.ts:105-109 | the document afterwards always has settings, and categories and weapons are unchanged |
| Store.WeaponsByCategory | lib/store.ts:42-45 | the listing is no longer than the weapons and every listed weapon has the category id; exactness and order are the lemmas below |
| Store.CategoryBySlug | lib/store.ts:53-56 | a found category is in the list and has the slug; nothing is found exactly when no category has it; otherwise the first such category is found |
| Store.WeaponBySlug | lib/store.ts:47-51 | it throws exactly when the slug cannot be decoded; otherwise the first weapon whose slug is the decoded or the raw input is found, and nothing is found exactly when no weapon has either |
| Store.SettingsOrDefault | lib/store.ts:100-103 | stored settings are returned as they are; absent settings become an empty order-button URL |
| Store.AppendCategory | lib/store.ts:60 | the category is added last, every earlier one keeps its place, and weapons and settings are unchanged |
| Store.AppendWeapon | lib/store.ts:81 | the weapon is added last, every earlier one keeps its place, and categories and settings are unchanged |
| Store.AppendCategoryThenLookup | lib/store.ts:53-62 | after an add, a slug lookup still finds an older category with that slug first; only when there is none does it find the new one |
| Store.AppendWeaponThenListCategory | lib/store.ts:42-45 | after an add, the category's listing is the old listing plus the new weapon when it is in that category |
| Store.UpdateUnknownCategoryIsNoOp | lib/store.ts:66-67 | updating an id that no category has leaves the document unchanged |
| Store.UpdateCategoryApplies | lib/store.ts:66-68 | the first category with the id becomes its merge with the patch: a supplied description replaces it, an absent one is kept |
| Store.RemoveCategoryExact | lib/store.ts:73-77 | after a delete a category is present exactly when it was present and has another id; weapons and settings are unchanged |
| Store.RemoveCategoryIdempotent | lib/store.ts:75 | deleting the same category id twice equals deleting it once |
| Store.RemoveUnknownCategoryIsNoOp | lib/store.ts:75 | deleting an id no category has leaves the document unchanged |
| Store.AddThenRemoveCategory | lib/store.ts:58-77 | deleting the id of a just-added category equals deleting that id before the add |
| Store.RemoveCategoryKeepsItsWeapons | lib/store.ts:73-77 | deleting a category leaves its weapons listed under it, because deletes do not cascade |
| Store.RemoveWeaponExact | lib/store.ts:94-98 | after a delete a weapon is present exactly when it was present and has another id; categories and settings are unchanged |
| Store.RemoveWeaponIdempotent | lib/store.ts:96 | deleting the same weapon id twice equals deleting it once |
| Store.RemoveUnknownWeaponIsNoOp | lib/store.ts:96 | deleting an id no weapon has leaves the document unchanged |
| Store.WeaponsByCategoryExact | lib/store.ts:42-45 | a weapon is listed exactly when it is stored with that category id |
| Store.WeaponsByCategoryInOrder | lib/store.ts:44 | the listing keeps the stored order |
| Store.WeaponBySlugEncodedOrDecoded | lib/store.ts:49-50 | when the plain slug decodes to itself (it has no `%`), its percent-encoded form finds the same weapon as the plain slug, unless some weapon's slug is literally the encoded form |
| Store.SettingsReadAfterWrite | lib/store.ts:100-109 | after the order-button URL is set, reading the settings gives exactly that URL |
| Store.SettingsKeptWithoutUrl | lib/store.ts:100-109 | a patch without a URL keeps the stored settings, so reading them afterwards gives what was there |
| Store.EmptySettingsPatchDropsDefault | lib/store.ts:102-107 | an empty patch on a document without settings stores `{}`, after which the empty-URL default is no longer supplied |
| Store.Repository.constructor | lib/store.ts:5-6 | the cache starts empty with time 0 |
| Store.Repository.CacheHit | lib/store.ts:13 | a read is served from the cache when there is a cached object younger than 10000 ms |
| Store.Repository.GetStoreData | lib/store.ts:9-22 | while the cached document is younger than 10000 ms it is returned with no remote read; otherwise one read, and on success a new cached object and a cache time of now; on failure the cache is not touched |
| Store.Repository.SaveStoreData | lib/store.ts:24-30 | one write is sent; on success the remote file and cache become the saved object with time now; on failure the cache and its time are unchanged |
| Store.Repository.GetCategories | lib/store.ts:32-35 | the categories of the document served at now, with the cache effect of a load |
| Store.Repository.GetWeapons | lib/store.ts:37-40 | the weapons of the document served at now, with the cache effect of a load |
| Store.Repository.GetWeaponsByCategory | lib/store.ts:42-45 | the served weapons of that category, in order |
| Store.Repository.GetWeaponBySlug | lib/store.ts:47-51 | the lookup by decoded or raw slug on the served weapons, or a decoding error |
| Store.Repository.GetCategoryBySlug | lib/store.ts:53-56 | the first served category with the slug |
| Store.Repository.AddCategory | lib/store.ts:58-62 | the live object now holds the served document plus the category, whether or not the save succeeded; exactly one write of it is sent, and only a successful one changes the remote file and the cache time |
| Store.Repository.UpdateCategory | lib/store.ts:64-71 | the live object holds the served document with the first matching category merged; a write is sent only when some category has the id |
| Store.Repository.DeleteCategory | lib/store.ts:73-77 | the live object holds the served document without categories of that id, and the write is sent even if none matched |
| Store.Repository.AddWeapon | lib/store.ts:79-83 | as for categories: the weapon is appended to the live object, then one write is sent |
| Store.Repository.UpdateWeapon | lib/store.ts:85-92 | the first matching weapon is merged in the live object; a write is sent only when some weapon has the id |
| Store.Repository.DeleteWeapon | lib/store.ts:94-98 | the live object loses the weapons of that id, then one write is sent |
| Store.Repository.GetSettings | lib/store.ts:100-103 | the served settings, or an empty order-button URL when there are none |
| Store.Repository.UpdateSettings | lib/store.ts:105-109 | the live object's settings become the shallow merge of the old settings and the patch, then one write is sent |
| CategoriesRoute.NewCategory | app/api/categories/route.ts:17-23 | the id reads back as the creation time; name and description are copied; a non-empty slug is kept, otherwise the whitespace-free derived slug is used; a non-empty image is kept, otherwise the default image |
| CategoriesRoute.Get | app/api/categories/route.ts:5-12 | 200 with the served categories, or 500 "Failed to fetch categories" when the load throws |
| CategoriesRoute.Post | app/api/categories/route.ts:14-29 | 201 with the built record exactly when the add completed; any throw, including a body that is not JSON, is 500 "Failed to create category" |
| CategoriesRoute.Put | app/api/categories/route.ts:31-39 | the whole body, id included, patches the category with `body.id`; 200 success even if none matched, 500 "Failed to update category" on a throw |
| CategoriesRoute.Delete | app/api/categories/route.ts:41-53 | a missing or empty id is 400 "Category ID required" with the store untouched; otherwise the delete, 200 success or 500 "Failed to delete category" |
| WeaponsRoute.NewWeapon | app/api/weapons/route.ts:17-28 | the id reads back as the creation time; a supplied image list is kept, even empty, otherwise the default image; an empty video URL becomes `""`; specifications default to `{}`; the other fields are copied |
| WeaponsRoute.Get | app/api/weapons/route.ts:5-12 | 200 with the served weapons, or 500 "Failed to fetch weapons" |
| WeaponsRoute.Post | app/api/weapons/route.ts:14-34 | 201 with the built record exactly when the add completed, otherwise 500 "Failed to create weapon" |
| WeaponsRoute.Put | app/api/weapons/route.ts:36-44 | the whole body patches the weapon with `body.id`; 200 success or 500 "Failed to update weapon" |
| WeaponsRoute.Delete | app/api/weapons/route.ts:46-58 | a missing or empty id is 400 "Weapon ID required" with the store untouched; otherwise the delete, 200 success or 500 "Failed to delete weapon" |
| SettingsRoute.Get | app/api/settings/route.ts:4-11 | 200 with the settings or their empty-URL default, or 500 "Failed to fetch settings" |
| SettingsRoute.Put | app/api/settings/route.ts:13-21 | the body is merged into the settings; 200 success once saved, 500 "Failed to update settings" otherwise |
| Scenarios.TwoReads | lib/store.ts:9-22 | a second read less than 10000 ms after a successful one returns the same object with no remote request; a later one reads again and returns a new object |
| Scenarios.WriteThenRead | lib/store.ts:24-35 | a successful save restarts the freshness window, so a read inside it sees the added category even though the first fetch is older than the window |
| Scenarios.FailedSaveStaysVisible | lib/store.ts:58-83 | after a failed save the cache still shows the added category, and the next successful save of another edit stores it remotely |
| Scenarios.Walkthrough | lib/store.ts:42-109 | starting from an empty catalogue: add a category, add a weapon in it, set the order URL, then delete the category; if every write completes, the weapon stays listed under the deleted category and the settings hold the URL |
| Scenarios.AfterFirstWrite | lib/store.ts:79-109 | the rest of `Walkthrough` once the category is stored and cached |
| Scenarios.AfterSecondWrite | lib/store.ts:94-109 | the settings and delete steps of `Walkthrough` |

## Left out

- The GitHub contents API is not modelled beyond whole-file read and write. That covers the URLs, headers, base64, `JSON.stringify`/`JSON.parse` and the environment configuration (`lib/github.ts:3-7`). A number that JSON cannot represent (a `NaN` price becomes `null`) is therefore not modelled.
- GitHub.RemoteFile.Save: a write whose response is lost after the remote has stored the file (a dropped connection after the PUT of `lib/github.ts:47`) is modelled as not stored; the model's failed save always leaves the remote file unchanged, and `Scenarios.FailedSaveStaysVisible` relies on that.
- The SHA lookup before a write is not modelled (`lib/github.ts:34-42`). Its failures and a stale SHA are more reasons the save may throw, and every such attempt is logged as one `Write`.
- A remote file whose JSON parses but is not a catalogue document (a missing `categories`, say) is cached as it is by the code; the model's remote always holds a document.
- Concurrency is not modelled. Requests running interleaved in one process, or in several processes with their own caches, can lose each other's writes. The model runs one operation at a time.
- `parseFloat(body.price)` is not modelled. The POST body carries the number it produced, as a `real`.
- `toLowerCase` and `decodeURIComponent` are library behaviour and are function parameters.
- `Text.TimeToString`: the decimal form of an integer is modelled, but not the exponent form that `Number.prototype.toString` uses for magnitudes of 10^21 and above.
- Request bodies are modelled as typed values only. A body field that is JSON `null`, has the wrong type, or is an unknown key is not modelled. Neither is a POST body that lacks `name`, where `toLowerCase` would throw.
- The `specifications` of every weapon are a map, so the key order of the JSON object is not kept.
- A request URL that `new URL` rejects in DELETE is not modelled. Its 500 answer is the same as a failed delete.
- `Text.DeriveSlug`: its own contract states only that a derived slug is whitespace-free and no longer than the lowercased name. The exact one-dash-per-run behaviour is stated by `Text.RunBecomesOneDash` and `Text.ReplaceKeepsSpaceFree`.
- The UI pages and components (`app/page.tsx`, `app/presets/page.tsx`, `app/weapon/[slug]/page.tsx`, `app/components`, `app/layout.tsx`) are not part of this model.
