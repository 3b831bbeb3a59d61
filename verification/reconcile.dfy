/** Catalog reconciliation: `_find_existing_package` and
    `_package_create_with_unique_name`. A dataset whose id is already in the
    catalog is reused; otherwise it is created, with one retry under a
    random numeric suffix when, and only when, CKAN reports the name in use. */
module Reconcile {
  import opened PyValue
  import opened CkanCatalog
  import opened DatasetHelpers

  /** The upper bound of `random.randint(0, 9999999999)`. */
  const MaxSuffix: nat := 9999999999

  /** A value `random.randint(0, 9999999999)` can return. */
  type Suffix = n: nat | n <= MaxSuffix

  /** Lines 202-203: `name` becomes the lower-cased identifier and `id` its
      munged form; everything else is kept. */
  function Prepare(env: Env, d: Record): (r: Outcome<Record>)
    ensures "identifier" !in d ==> r == Raise(KeyError(Field("identifier")))
    ensures "identifier" in d && !d["identifier"].Str? ==> r == Raise(AttributeError)
    ensures r.Ok? <==> "identifier" in d && d["identifier"].Str?
    ensures r.Ok? ==>
      && Addressed(r.value)
      && r.value["name"] == Str(Lower(d["identifier"].s))
      && r.value["id"] == Str(env.munge(Lower(d["identifier"].s)))
      && r.value.Keys == d.Keys + {"name", "id"}
      && forall k :: k in d && k != "name" && k != "id" ==> r.value[k] == d[k]
  {
    if "identifier" !in d then Raise(KeyError(Field("identifier")))
    else if !d["identifier"].Str? then Raise(AttributeError)
    else
      var name := Lower(d["identifier"].s);
      Ok(d["name" := Str(name)]["id" := Str(env.munge(name))])
  }

  /** `_find_existing_package`: the stored dataset, or 0 when the lookup
      raises for any reason; `fault` says the lookup failed although the
      dataset may exist. */
  function FindExisting(pk: Packages, id: string, fault: bool): (r: Value)
    ensures Truthy(r) <==> !fault && id in pk && |pk[id]| > 0
    ensures Truthy(r) ==> r == Dict(pk[id])
  {
    if fault then Num(0)
    else match Show(pk, id)
      case Ok(p) => Dict(p)
      case Raise(_) => Num(0)
  }

  /** Python's `None` or the license id. */
  function OptionValue(o: Option<Value>): Value {
    match o
    case None => Null
    case Some(v) => v
  }

  /** `if dataset_dict['license']: res['license_id'] = _extract_license_id(...)`. */
  function WithLicense(env: Env, res: Record, d: Record): (r: Outcome<Record>)
    ensures "license" !in d <==> r == Raise(KeyError(Field("license")))
    ensures r.Ok? ==> forall k :: k in res && k != "license_id" ==> k in r.value && r.value[k] == res[k]
    ensures r.Ok? ==> r.value.Keys <= res.Keys + {"license_id"}
    ensures r.Ok? && Truthy(d["license"]) ==>
      "license_id" in r.value && r.value["license_id"] == OptionValue(ExtractLicenseId(env.licenses, d["license"]))
    ensures r.Ok? && !Truthy(d["license"]) ==> r.value == res
  {
    if "license" !in d then Raise(KeyError(Field("license")))
    else if Truthy(d["license"]) then
      Ok(res["license_id" := OptionValue(ExtractLicenseId(env.licenses, d["license"]))])
    else Ok(res)
  }

  /** `'{name}-{rand}'.format(...)`. */
  function RetriedName(name: string, n: Suffix): (r: string)
    ensures |name| < |r| <= |name| + 11
    ensures r[..|name|] == name && r[|name|] == '-'
    ensures forall i :: |name| < i < |r| ==> IsDigit(r[i])
  {
    DecimalLength(n, 10);
    name + "-" + Decimal(n)
  }

  /** Splits `<base>-<digits>` at its last '-', reading the digits back. */
  function ParseRetriedName(s: string): Option<(string, nat)> {
    if |s| == 0 then None
    else if s[|s| - 1] == '-' then None
    else ParseFrom(s, |s| - 1)
  }

  /** The digits `s[i..]` are all digits; look for the '-' before them. */
  function ParseFrom(s: string, i: nat): Option<(string, nat)>
    requires i < |s|
    requires forall j :: i < j < |s| ==> IsDigit(s[j])
    decreases i
  {
    if !IsDigit(s[i]) then None
    else if i == 0 then None
    else if s[i - 1] == '-' then
      assert forall j :: 0 <= j < |s[i..]| ==> s[i..][j] == s[i + j];
      Some((s[..i - 1], DecimalValue(s[i..])))
    else ParseFrom(s, i - 1)
  }

  /** The suffixed name can be read back into the name and the random number. */
  lemma RetriedNameParses(name: string, n: Suffix)
    ensures ParseRetriedName(RetriedName(name, n)) == Some((name, n))
  {
    var r := RetriedName(name, n);
    var digits := Decimal(n);
    assert r == name + "-" + digits;
    ParseFromDigits(r, |name| + 1, |r| - 1);
    assert r[|name| + 1..] == digits;
    DecimalRoundTrip(n);
  }

  lemma {:induction false} ParseFromDigits(s: string, start: nat, i: nat)
    requires 0 < start <= i < |s|
    requires s[start - 1] == '-'
    requires forall j :: start <= j < |s| ==> IsDigit(s[j])
    ensures forall j :: 0 <= j < |s[start..]| ==> IsDigit(s[start..][j])
    ensures ParseFrom(s, i) == Some((s[..start - 1], DecimalValue(s[start..])))
    decreases i
  {
    assert forall j :: 0 <= j < |s[start..]| ==> s[start..][j] == s[start + j];
    if i > start {
      assert s[i - 1] != '-' by {
        assert IsDigit(s[i - 1]);
      }
      ParseFromDigits(s, start, i - 1);
    }
  }

  /** The catalog after reconciliation, the number of `package_create` calls,
      and the dataset returned or the exception raised. */
  datatype Reconciled = Reconciled(packages: Packages, creates: nat, result: Outcome<Record>)

  /** No stored dataset is replaced and at most the dataset `id` is added. */
  predicate OnlyAdds(pk: Packages, pk': Packages, id: string) {
    && (forall k :: k in pk ==> k in pk' && pk'[k] == pk[k])
    && (forall k :: k in pk' ==> k in pk || k == id)
  }

  /** The catalog holds, under `id`, a dataset stored with that id. */
  predicate Stored(pk: Packages, id: string) {
    id in pk && Addressed(pk[id]) && pk[id]["id"] == Str(id)
  }

  /** The reconciliation would reuse the stored dataset. */
  predicate Exists(env: Env, pk: Packages, d: Record, fault: bool)
    requires Prepare(env, d).Ok?
  {
    Truthy(FindExisting(pk, Prepare(env, d).value["id"].s, fault))
  }

  /** `package_create` reports the name of `d1` in use. */
  predicate NameInUse(env: Env, pk: Packages, d1: Record)
    requires Addressed(d1)
  {
    var e := CreateErrors(env, pk, d1["id"].s, d1["name"].s, d1);
    e != map[] && "name" in e && NameInUseMsg in e["name"]
  }

  /** The retry after the name was reported in use (lines 230-240). */
  function Retry(env: Env, pk: Packages, d1: Record, n: Suffix): (r: Reconciled)
    requires Addressed(d1)
    ensures r.creates == 2
    ensures OnlyAdds(pk, r.packages, d1["id"].s)
    ensures r.packages != pk ==> d1["id"].s !in pk && Stored(r.packages, d1["id"].s)
    ensures r.result.Ok? ==>
      "name" in r.result.value && "id" in r.result.value && r.result.value["name"] == Str(RetriedName(d1["name"].s, n)) && r.result.value["id"] == d1["id"]
    ensures r.result.Ok? ==> !Collides(r.result.value)
    ensures r.packages == pk ==> r.result.Raise? && r.result.exc.ValidationError?
    ensures r.result.Ok? ==> forall k :: k in d1 && k != "name" && k != "license_id" && k != "extras" ==>
      k in r.result.value && r.result.value[k] == d1[k]
    ensures r.result.Ok? && "license" in d1 && Truthy(d1["license"]) ==>
      "license_id" in r.result.value &&
      r.result.value["license_id"] == OptionValue(ExtractLicenseId(env.licenses, d1["license"]))
    ensures r.packages != pk && "license" !in d1 ==>
      r.result == RemoveExtras(d1["name" := Str(RetriedName(d1["name"].s, n))])
  {
    var d2 := d1["name" := Str(RetriedName(d1["name"].s, n))];
    var c2 := Create(env, pk, d2);
    match c2.result
    case Ok(res) =>
      // `except KeyError` around the license lookup of the retry
      var res' := match WithLicense(env, res, d2) case Ok(x) => x case Raise(_) => res;
      Reconciled(c2.packages, 2, RemoveExtras(res'))
    case Raise(e2) => Reconciled(c2.packages, 2, Raise(e2))
  }

  /** The create path (lines 219-240): one `package_create`, and a second one
      only when the first reports the name in use. Any other validation
      failure leaves `res` as None, and `'extras' in None` raises. */
  function CreatePath(env: Env, pk: Packages, d1: Record, n: Suffix): (r: Reconciled)
    requires Addressed(d1)
    ensures 1 <= r.creates <= 2
    ensures OnlyAdds(pk, r.packages, d1["id"].s)
    ensures r.packages != pk ==> d1["id"].s !in pk && Stored(r.packages, d1["id"].s)
    ensures r.creates == 2 <==> NameInUse(env, pk, d1)
    ensures !NameInUse(env, pk, d1) && CreateErrors(env, pk, d1["id"].s, d1["name"].s, d1) != map[] ==>
      r == Reconciled(pk, 1, Raise(TypeError))
    ensures r.creates == 1 && r.result.Ok? ==>
      "name" in r.result.value && "id" in r.result.value && r.result.value["name"] == d1["name"] && r.result.value["id"] == d1["id"]
    ensures r.creates == 2 && r.result.Ok? ==>
      "name" in r.result.value && "id" in r.result.value && r.result.value["name"] == Str(RetriedName(d1["name"].s, n)) && r.result.value["id"] == d1["id"]
    ensures r.result.Ok? ==> !Collides(r.result.value)
    ensures r.creates == 1 && r.result.Ok? ==> forall k :: k in d1 && k != "license_id" && k != "extras" ==>
      k in r.result.value && r.result.value[k] == d1[k]
    ensures r.creates == 1 && r.result.Ok? ==>
      "license" in d1 &&
      (Truthy(d1["license"]) ==>
         "license_id" in r.result.value &&
         r.result.value["license_id"] == OptionValue(ExtractLicenseId(env.licenses, d1["license"])))
    ensures CreateErrors(env, pk, d1["id"].s, d1["name"].s, d1) == map[] && "license" !in d1 ==>
      r == Reconciled(pk[d1["id"].s := d1], 1, Raise(KeyError(Field("license"))))
  {
    var c1 := Create(env, pk, d1);
    match c1.result
    case Ok(res) =>
      Reconciled(c1.packages, 1, (var res' :- WithLicense(env, res, d1); RemoveExtras(res')))
    case Raise(e) =>
      if !e.ValidationError? then Reconciled(c1.packages, 1, Raise(e))
      else if "name" in e.errors && NameInUseMsg in e.errors["name"] then Retry(env, pk, d1, n)
      else Reconciled(c1.packages, 1, Raise(TypeError))
  }

  /** `_package_create_with_unique_name`, with `fault` the existence lookup
      failing and `n` the random suffix. */
  function CreateWithUniqueName(env: Env, pk: Packages, d: Record, fault: bool, n: Suffix): (r: Reconciled)
    ensures r.creates <= 2
    ensures forall k :: k in pk ==> k in r.packages && r.packages[k] == pk[k]
    ensures Prepare(env, d).Raise? ==> r == Reconciled(pk, 0, Prepare(env, d))
    ensures Prepare(env, d).Ok? ==> OnlyAdds(pk, r.packages, Prepare(env, d).value["id"].s)
    ensures Prepare(env, d).Ok? && Exists(env, pk, d, fault) ==>
      r == Reconciled(pk, 0, RemoveExtras(pk[Prepare(env, d).value["id"].s]))
    ensures Prepare(env, d).Ok? && !Exists(env, pk, d, fault) ==>
      r == CreatePath(env, pk, Prepare(env, d).value, n)
    ensures r.result.Ok? ==> !Collides(r.result.value)
  {
    match Prepare(env, d)
    case Raise(e) => Reconciled(pk, 0, Raise(e))
    case Ok(d1) =>
      var id := d1["id"].s;
      if Truthy(FindExisting(pk, id, fault)) then
        // the dataset is fetched again with `package_show`
        Reconciled(pk, 0, RemoveExtras(Show(pk, id).value))
      else CreatePath(env, pk, d1, n)
  }

  /** Ingesting the same entry again, once the first run stored it and the
      lookup does not fail, reuses the stored dataset: no `package_create`,
      and the catalog is left as it is. */
  lemma SecondRunReuses(env: Env, pk: Packages, d: Record, n: Suffix, n': Suffix)
    requires Prepare(env, d).Ok?
    requires CreateWithUniqueName(env, pk, d, false, n).packages != pk
    ensures var pk' := CreateWithUniqueName(env, pk, d, false, n).packages;
            var id := Prepare(env, d).value["id"].s;
            CreateWithUniqueName(env, pk', d, false, n') == Reconciled(pk', 0, RemoveExtras(pk'[id]))
  {
    var pk' := CreateWithUniqueName(env, pk, d, false, n).packages;
    var id := Prepare(env, d).value["id"].s;
    assert Stored(pk', id);
    assert "id" in pk'[id];
    assert |pk'[id]| > 0 by {
      assert "id" in pk'[id].Keys;
    }
  }
}
