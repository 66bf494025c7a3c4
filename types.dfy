/**
 * The records of the catalogue document (types/index.ts) and the live,
 * mutable document object that the cache hands out.
 *
 * A TypeScript optional field (`videoUrl?`, `settings?`) and a `Partial<T>`
 * patch field are an `Option`: `None` is a field that is absent.
 */
module Types {

  datatype Option<+T> = None | Some(value: T) {
    function GetOr(default: T): T {
      match this
      case Some(v) => v
      case None => default
    }
  }

  /** What can make a store operation throw. */
  datatype Error =
    | FetchFailed   // the remote read failed
    | SaveFailed    // the remote write failed
    | MalformedUri  // decodeURIComponent rejected a slug

  datatype Result<+T> = Ok(value: T) | Err(error: Error)

  /** The completion of an operation that returns nothing (a `Promise<void>`). */
  datatype Outcome = Done | Failed(error: Error)

  datatype Category = Category(
    id: string,
    name: string,
    slug: string,
    description: string,
    image: string)

  /**
   * A product. `price` is the number the handler stored; how it was parsed is
   * not modelled. `specifications` is a map, so the key order of the JSON
   * object is not kept.
   */
  datatype Weapon = Weapon(
    id: string,
    name: string,
    slug: string,
    categoryId: string,
    price: real,
    images: seq<string>,
    videoUrl: Option<string>,
    shortDescription: string,
    fullDescription: string,
    specifications: map<string, string>)

  /** `{ orderButtonUrl?: string }`; the same shape is used for its patches. */
  datatype Settings = Settings(orderButtonUrl: Option<string>)

  /** A snapshot of the whole `StoreData` document, as it is stored remotely. */
  datatype Document = Document(
    categories: seq<Category>,
    weapons: seq<Weapon>,
    settings: Option<Settings>)

  /** `Partial<Category>`: a present field overwrites, an absent one is kept. */
  datatype CategoryPatch = CategoryPatch(
    id: Option<string>,
    name: Option<string>,
    slug: Option<string>,
    description: Option<string>,
    image: Option<string>)

  /** `Partial<Weapon>`. */
  datatype WeaponPatch = WeaponPatch(
    id: Option<string>,
    name: Option<string>,
    slug: Option<string>,
    categoryId: Option<string>,
    price: Option<real>,
    images: Option<seq<string>>,
    videoUrl: Option<string>,
    shortDescription: Option<string>,
    fullDescription: Option<string>,
    specifications: Option<map<string, string>>)

  /**
   * The live `StoreData` object. The cache keeps a reference to one of these
   * and every entity operation edits that very object before saving it.
   */
  class StoreData {
    var categories: seq<Category>
    var weapons: seq<Weapon>
    var settings: Option<Settings>

    /** The document this object currently holds. */
    function Value(): Document
      reads this
    {
      Document(categories, weapons, settings)
    }

    /** A new object holding `doc`, as `JSON.parse` builds one. */
    constructor (doc: Document)
      ensures Value() == doc
    {
      categories := doc.categories;
      weapons := doc.weapons;
      settings := doc.settings;
    }
  }
}
