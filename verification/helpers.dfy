/** Two helpers of the dataset creation action: the coarse duplicate-extras
    rule (`remove_extras_if_duplicates_exist`) and the license lookup
    (`_extract_license_id`). */
module DatasetHelpers {
  import opened PyValue
  import opened CkanCatalog

  // ---------------------------------------------------------------------
  // remove_extras_if_duplicates_exist
  // ---------------------------------------------------------------------

  /** The `i`-th extras entry is a dict whose 'key' is the string `k`. */
  predicate ExtraKeyAt(xs: seq<Value>, i: int, k: string) {
    && 0 <= i < |xs|
    && xs[i].Dict? && "key" in xs[i].fields && xs[i].fields["key"] == Str(k)
  }

  /** Some extras entry is keyed by a top-level key of `d` other than 'extras'. */
  ghost predicate Collides(d: Record) {
    && "extras" in d && d["extras"].List?
    && exists i, k :: ExtraKeyAt(d["extras"].items, i, k) && k in d && k != "extras"
  }

  /** Extras as CKAN stores them: a list of dicts, each with a string 'key'. */
  predicate WellFormedExtras(d: Record) {
    "extras" in d ==>
      && d["extras"].List?
      && forall x :: x in d["extras"].items ==> x.Dict? && "key" in x.fields && x.fields["key"].Str?
  }

  /** `[extra['key'] for extra in xs]`, raising at the first entry that has
      no 'key'. */
  function KeysOf(xs: seq<Value>): (r: Outcome<seq<Value>>)
    ensures r.Ok? <==> forall i :: 0 <= i < |xs| ==> Subscript(xs[i], Field("key")).Ok?
    ensures r.Ok? ==> |r.value| == |xs|
    ensures r.Ok? ==> forall i :: 0 <= i < |xs| ==> Subscript(xs[i], Field("key")) == Ok(r.value[i])
  {
    if xs == [] then Ok([])
    else
      var k :- Subscript(xs[0], Field("key"));
      var ks :- KeysOf(xs[1..]);
      assert forall i :: 1 <= i < |xs| ==> xs[i] == xs[1..][i - 1];
      Ok([k] + ks)
  }

  /** The extras keys. Iterating a non-empty dict or string yields strings,
      and `'...'['key']` is a TypeError; None, booleans and numbers are not
      iterable. */
  function ExtraKeys(extras: Value): Outcome<seq<Value>> {
    match extras
    case List(xs) => KeysOf(xs)
    case Dict(m) => if |m| == 0 then Ok([]) else Raise(TypeError)
    case Str(s) => if |s| == 0 then Ok([]) else Raise(TypeError)
    case _ => Raise(TypeError)
  }

  /** `any(key in main_keys for key in keys)`: stops at the first key found;
      a list or dict key reached before that is unhashable, a TypeError. */
  function AnyIn(keys: seq<Value>, main: set<string>): (r: Outcome<bool>)
    ensures r == Ok(true) ==> exists i :: 0 <= i < |keys| && keys[i].Str? && keys[i].s in main
    ensures r == Ok(false) ==> forall i :: 0 <= i < |keys| ==> !(keys[i].Str? && keys[i].s in main)
    ensures (forall i :: 0 <= i < |keys| ==> keys[i].Str?) ==> r.Ok?
  {
    if keys == [] then Ok(false)
    else if keys[0].Str? && keys[0].s in main then Ok(true)
    else if keys[0].List? || keys[0].Dict? then Raise(TypeError)
    else
      var r := AnyIn(keys[1..], main);
      assert forall i :: 1 <= i < |keys| ==> keys[i] == keys[1..][i - 1];
      r
  }

  /** `remove_extras_if_duplicates_exist`: if an extras entry is keyed by a
      top-level key, the whole extras list is emptied; otherwise the dict is
      returned as it is. No other key ever changes. */
  function RemoveExtras(d: Record): (r: Outcome<Record>)
    ensures "extras" !in d ==> r == Ok(d)
    ensures WellFormedExtras(d) ==> r.Ok?
    ensures r.Ok? && Collides(d) ==> r.value == d["extras" := List([])]
    ensures r.Ok? && !Collides(d) ==> r.value == d
    ensures r.Ok? ==> r.value.Keys == d.Keys
    ensures r.Ok? ==> forall k :: k in d && k != "extras" ==> r.value[k] == d[k]
    ensures r.Ok? ==> !Collides(r.value)
  {
    if "extras" !in d then Ok(d) else
    var keys :- ExtraKeys(d["extras"]);
    var dup :- AnyIn(keys, d.Keys - {"extras"});
    if dup then
      assert Collides(d) by {
        var i :| 0 <= i < |keys| && keys[i].Str? && keys[i].s in d.Keys - {"extras"};
        assert ExtraKeyAt(d["extras"].items, i, keys[i].s);
      }
      Ok(d["extras" := List([])])
    else
      assert !Collides(d) by {
        if d["extras"].List? {
          var xs := d["extras"].items;
          forall i, k | ExtraKeyAt(xs, i, k) && k in d
            ensures k == "extras"
          {
            assert Subscript(xs[i], Field("key")) == Ok(keys[i]);
          }
        }
      }
      Ok(d)
  }

  /** Applying the rule a second time changes nothing. */
  lemma RemoveExtrasIdempotent(d: Record)
    requires RemoveExtras(d).Ok?
    ensures RemoveExtras(RemoveExtras(d).value) == RemoveExtras(d)
  {
    var d' := RemoveExtras(d).value;
    if Collides(d) {
      assert d'["extras"] == List([]);
      assert ExtraKeys(d'["extras"]) == Ok([]);
    }
  }

  // ---------------------------------------------------------------------
  // _extract_license_id
  // ---------------------------------------------------------------------

  /** `content_license` equals the license's id, url or title. */
  predicate LicenseMatches(l: License, lic: Value) {
    lic == l.id || lic == l.url || lic == l.title
  }

  /** The `i`-th license matches and none after it does. */
  predicate LastMatchAt(lics: seq<License>, lic: Value, i: int) {
    && 0 <= i < |lics|
    && LicenseMatches(lics[i], lic)
    && forall j :: i < j < |lics| ==> !LicenseMatches(lics[j], lic)
  }

  /** The loop of `_extract_license_id` from `found` on: it has no `break`,
      so every later match overwrites the earlier one. */
  function ScanLicenses(lics: seq<License>, lic: Value, found: Option<Value>): (r: Option<Value>)
    ensures (forall j :: 0 <= j < |lics| ==> !LicenseMatches(lics[j], lic)) ==> r == found
    ensures forall i :: LastMatchAt(lics, lic, i) ==> r == Some(lics[i].id)
  {
    if lics == [] then found
    else
      var r := ScanLicenses(lics[1..], lic, if LicenseMatches(lics[0], lic) then Some(lics[0].id) else found);
      assert forall i :: LastMatchAt(lics, lic, i) && i > 0 ==> LastMatchAt(lics[1..], lic, i - 1);
      assert forall j :: 1 <= j < |lics| ==> lics[j] == lics[1..][j - 1];
      r
  }

  /** `_extract_license_id`: the id of the last license whose id, url or
      title equals `content['license']`; None when none does. */
  function ExtractLicenseId(lics: seq<License>, lic: Value): (r: Option<Value>)
    ensures r.None? <==> !AnyMatch(lics, lic)
    ensures forall i :: LastMatchAt(lics, lic, i) ==> r == Some(lics[i].id)
    ensures r.Some? ==> exists i :: LastMatchAt(lics, lic, i) && r.value == lics[i].id
  {
    var r := ScanLicenses(lics, lic, None);
    assert AnyMatch(lics, lic) ==> exists i :: LastMatchAt(lics, lic, i) && r == Some(lics[i].id) by {
      if AnyMatch(lics, lic) {
        var i := LastMatchIndex(lics, lic);
        assert r == Some(lics[i].id);
      }
    }
    r
  }

  /** The index of the last matching license, when one matches. */
  ghost function LastMatchIndex(lics: seq<License>, lic: Value): (i: int)
    requires AnyMatch(lics, lic)
    ensures LastMatchAt(lics, lic, i)
  {
    var n := |lics| - 1;
    if LicenseMatches(lics[n], lic) then n
    else
      assert AnyMatch(lics[..n], lic) by {
        var j :| 0 <= j < |lics| && LicenseMatches(lics[j], lic);
        assert j < n && lics[..n][j] == lics[j];
      }
      var i := LastMatchIndex(lics[..n], lic);
      assert lics[..n][i] == lics[i];
      i
  }

  /** Some license matches. */
  predicate AnyMatch(lics: seq<License>, lic: Value) {
    exists j :: 0 <= j < |lics| && LicenseMatches(lics[j], lic)
  }
}
