/**
 * The administrator check behind the profile view: a lookup of the caller in
 * the admin list of the settings database, which fails closed.
 */
module AdminGate {

  /** What reading the settings database's `admin` table yields. */
  datatype AdminStore =
    | AdminStoreError        // the database or the table cannot be read
    | AdminList(ids: set<int>)

  /** `is_admin`: true only when the admin list can be read and holds the user. */
  function IsAdmin(user: int, store: AdminStore): (r: bool)
    ensures store.AdminStoreError? ==> !r
    ensures r ==> store.AdminList? && user in store.ids
    ensures store.AdminList? && user in store.ids ==> r
  {
    match store
    case AdminStoreError => false
    case AdminList(ids) => user in ids
  }
}
