/** The backend selection of frontend/database/db.ts. The `localStorage` read of
    "dbLocation" is the parameter (`None` when the key is absent), and the three singletons
    `db()` may return are the values of `Backend`. */
module DbSelector {
  import opened Wrappers

  /** `DB_Type`. */
  datatype DbType = Local | Canister | LocalRxdb {
    function Value(): string {
      match this
      case Local => "local"
      case Canister => "rxdb"
      case LocalRxdb => "local_rxdb"
    }
  }

  datatype Backend = LocalStorageDatabase | RxdbDatabase | LocalRxdbDatabase

  /** `db()`: "rxdb" selects the RxDB backend, "local_rxdb" the local RxDB backend, and
      anything else, an absent key included, local storage. */
  function Db(dbLocation: Option<string>): (b: Backend)
    ensures b == RxdbDatabase <==> dbLocation == Some(Canister.Value())
    ensures b == LocalRxdbDatabase <==> dbLocation == Some(LocalRxdb.Value())
    ensures b == LocalStorageDatabase <==> dbLocation != Some("rxdb") && dbLocation != Some("local_rxdb")
  {
    if dbLocation == Some(Canister.Value()) then RxdbDatabase
    else if dbLocation == Some(LocalRxdb.Value()) then LocalRxdbDatabase
    else LocalStorageDatabase
  }

  /** The backend each `DB_Type` names; `LOCAL` is reached only through the fallback. */
  function BackendOf(t: DbType): Backend {
    match t
    case Local => LocalStorageDatabase
    case Canister => RxdbDatabase
    case LocalRxdb => LocalRxdbDatabase
  }

  /** The three `DB_Type` values are distinct, and storing any of them selects its backend. */
  lemma EveryDbTypeSelectsItsBackend(t: DbType)
    ensures Db(Some(t.Value())) == BackendOf(t)
    ensures forall u: DbType :: u != t ==> u.Value() != t.Value()
  {
  }

  /** With no key stored, local storage is used. */
  lemma AbsentKeySelectsLocalStorage()
    ensures Db(None) == LocalStorageDatabase
  {
  }
}
