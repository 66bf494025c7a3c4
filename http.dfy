/**
 * The responses the route handlers build with `NextResponse.json`: a status
 * (200 unless one is given) and a JSON payload.
 */
module Http {
  import opened Types

  datatype Payload =
    | CategoryList(categories: seq<Category>)
    | CategoryRecord(category: Category)
    | WeaponList(weapons: seq<Weapon>)
    | WeaponRecord(weapon: Weapon)
    | SettingsRecord(settings: Settings)
    | Success                      // `{ success: true }`
    | ErrorMessage(error: string)  // `{ error: ... }`

  datatype Response = Response(status: int, payload: Payload)
}
