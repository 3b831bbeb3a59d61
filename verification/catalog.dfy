/** The CKAN catalog as the ingestion code sees it through `toolkit.get_action`:
    a map from dataset id to stored dataset dict, with `package_show`,
    `package_create` and `package_update`. What CKAN decides internally and
    the code cannot see (schema validation, `munge_title_to_name`, the
    license list) is a parameter, gathered in `Env`. */
module CkanCatalog {
  import opened PyValue

  /** The stored datasets: dataset id to dataset dict. */
  type Packages = map<string, Record>

  /** One entry of `license_list`. */
  datatype License = License(id: Value, url: Value, title: Value)

  /** The fixed behaviour of everything outside the modelled code. */
  datatype Env = Env(
    /** `munge_title_to_name`, left uninterpreted. */
    munge: string -> string,
    /** `toolkit.asbool`, left uninterpreted. */
    asBool: Value -> Outcome<bool>,
    /** `str(v)` for a value that is not a string, left uninterpreted. */
    strOf: Value -> string,
    /** The field errors CKAN's dataset schema reports for a dict, apart
        from the name and id uniqueness checks modelled below. */
    schemaErrors: Record -> ErrorDict,
    /** `license_list`. */
    licenses: seq<License>,
    /** Local paths that `open(path, 'r')` succeeds on. */
    readable: set<string>,
    /** The field errors `resource_create` reports for a resource dict. */
    resourceErrors: Record -> ErrorDict)

  /** CKAN's message when another dataset already has the name. */
  const NameInUseMsg := "That URL is already in use."

  /** CKAN's message when a dataset with the id already exists. */
  const IdExistsMsg := "Dataset id already exists"

  /** The catalog after a call, and what the call returned or raised. */
  datatype Reply = Reply(packages: Packages, result: Outcome<Record>)

  /** Some stored dataset is named `name`. */
  predicate NameTaken(pk: Packages, name: string) {
    exists id :: id in pk && Get(pk[id], "name") == Str(name)
  }

  /** Appends `msg` to the messages of `field`. */
  function AddError(e: ErrorDict, field: string, msg: string): (r: ErrorDict)
    ensures field in r && msg in r[field]
    ensures forall f :: f in e ==> f in r
    ensures forall f :: f in r && f != field ==> f in e && r[f] == e[f]
    ensures field in e ==> forall m :: m in e[field] ==> m in r[field]
  {
    e[field := (if field in e then e[field] else []) + [msg]]
  }

  /** The field errors `package_create` reports for `d`, stored under `id`
      and named `name`. */
  function CreateErrors(env: Env, pk: Packages, id: string, name: string, d: Record): (e: ErrorDict)
    ensures NameTaken(pk, name) ==> "name" in e && NameInUseMsg in e["name"]
    ensures id in pk ==> "id" in e && IdExistsMsg in e["id"]
    ensures !NameTaken(pk, name) && id !in pk ==> e == env.schemaErrors(d)
    ensures "name" in e && NameInUseMsg in e["name"] ==>
      NameTaken(pk, name) || ("name" in env.schemaErrors(d) && NameInUseMsg in env.schemaErrors(d)["name"])
  {
    var e0 := env.schemaErrors(d);
    var e1 := if NameTaken(pk, name) then AddError(e0, "name", NameInUseMsg) else e0;
    if id in pk then AddError(e1, "id", IdExistsMsg) else e1
  }

  /** The id and name `package_create` stores a dict under. */
  predicate Addressed(d: Record) {
    "id" in d && d["id"].Str? && "name" in d && d["name"].Str?
  }

  /** `package_create`: stores `d` under its id and returns it, or raises a
      ValidationError and stores nothing. It never replaces a stored dataset. */
  function Create(env: Env, pk: Packages, d: Record): (r: Reply)
    requires Addressed(d)
    ensures r.result.Ok? ==> d["id"].s !in pk && r.packages == pk[d["id"].s := d] && r.result.value == d
    ensures r.result.Raise? ==> r.packages == pk && r.result.exc.ValidationError?
    ensures r.result.Raise? ==> r.result.exc.errors == CreateErrors(env, pk, d["id"].s, d["name"].s, d)
    ensures NameTaken(pk, d["name"].s) || d["id"].s in pk ==> r.result.Raise?
    ensures !NameTaken(pk, d["name"].s) && d["id"].s !in pk && env.schemaErrors(d) == map[] ==> r.result.Ok?
  {
    var errors := CreateErrors(env, pk, d["id"].s, d["name"].s, d);
    if errors != map[] then Reply(pk, Raise(ValidationError(errors)))
    else Reply(pk[d["id"].s := d], Ok(d))
  }

  /** `package_show` by id. */
  function Show(pk: Packages, id: string): (r: Outcome<Record>)
    ensures r.Ok? <==> id in pk
    ensures r.Ok? ==> r.value == pk[id]
  {
    if id in pk then Ok(pk[id]) else Raise(NotFound)
  }

  /** `package_update` by the dict's id: replaces the stored dataset, or
      raises and changes nothing. Datasets other than the updated one are
      never touched. */
  function Update(env: Env, pk: Packages, d: Record): (r: Reply)
    ensures r.result.Ok? ==> "id" in d && d["id"].Str? && d["id"].s in pk &&
                             r.packages == pk[d["id"].s := d] && r.result.value == d
    ensures r.result.Raise? ==> r.packages == pk
    ensures r.result.Ok? <==> "id" in d && d["id"].Str? && d["id"].s in pk && env.schemaErrors(d) == map[]
  {
    if "id" !in d || !d["id"].Str? || d["id"].s !in pk then Reply(pk, Raise(NotFound))
    else if env.schemaErrors(d) != map[] then Reply(pk, Raise(ValidationError(env.schemaErrors(d))))
    else Reply(pk[d["id"].s := d], Ok(d))
  }
}
