/** The molecule store that `_send_to_db` writes to: molecule rows looked up
    by InChIKey, and link rows relating a molecule to a dataset. Rows are
    written only for an InChIKey the store does not know yet. */
module MoleculeSync {
  import opened PyValue

  /** One molecule row; `id` is the identifier the database assigns. */
  datatype Molecule = Molecule(id: nat, inchi: Value, smiles: Value, inchiKey: Value, exactMass: Value, molFormula: Value)

  /** A `molecule_rel_data` row: a molecule id and a dataset id. */
  type Link = (nat, Value)

  /** The molecule rows by InChIKey, the link rows, and the next id the
      database hands out. */
  datatype Store = Store(molecules: map<Value, Molecule>, links: set<Link>, nextId: nat)

  /** Every row has a distinct id below `nextId`, is stored under its own
      InChIKey, and every link names a stored molecule. */
  predicate StoreInv(s: Store) {
    && (forall k :: k in s.molecules ==> s.molecules[k].id < s.nextId && s.molecules[k].inchiKey == k)
    && (forall k, k' :: k in s.molecules && k' in s.molecules && k != k' ==> s.molecules[k].id != s.molecules[k'].id)
    && (forall l :: l in s.links ==> exists k :: k in s.molecules && s.molecules[k].id == l.0)
  }

  /** Every row and link of `s` is still in `s'`, unchanged. */
  predicate Grows(s: Store, s': Store) {
    && (forall k :: k in s.molecules ==> k in s'.molecules && s'.molecules[k] == s.molecules[k])
    && s.links <= s'.links
  }

  /** The fields `_send_to_db` reads, in the order it reads them. */
  const SyncFields: seq<string> := ["id", "inchi", "inchi_key", "smiles", "exactmass", "mol_formula"]

  /** The first of `fields` missing from `pkg`, if any. */
  function FirstMissing(pkg: Record, fields: seq<string>): (r: Option<string>)
    ensures r.None? <==> forall i :: 0 <= i < |fields| ==> fields[i] in pkg
    ensures r.Some? ==> exists i :: 0 <= i < |fields| && fields[i] == r.value && r.value !in pkg &&
                                    forall j :: 0 <= j < i ==> fields[j] in pkg
  {
    if fields == [] then None
    else if fields[0] !in pkg then Some(fields[0])
    else
      var r := FirstMissing(pkg, fields[1..]);
      assert forall i :: 1 <= i < |fields| ==> fields[i] == fields[1..][i - 1];
      if r.None? then None
      else
        assert exists i :: 0 <= i < |fields| && fields[i] == r.value && r.value !in pkg &&
                           forall j :: 0 <= j < i ==> fields[j] in pkg by {
          var i :| 0 <= i < |fields[1..]| && fields[1..][i] == r.value && r.value !in pkg &&
                   forall j :: 0 <= j < i ==> fields[1..][j] in pkg;
          assert fields[i + 1] == r.value;
        }
        r
  }

  /** `_send_to_db`: reads the package's id and chemistry fields (a KeyError
      at the first that is missing), then inserts a molecule row and one
      link row to this package when no molecule has this InChIKey, and
      writes nothing otherwise. */
  function SendToDb(s: Store, pkg: Record): (r: Outcome<Store>)
    ensures r.Raise? <==> exists f :: f in SyncFields && f !in pkg
    ensures r.Raise? ==> r.exc.KeyError? && r.exc.key.Field? && r.exc.key.name in SyncFields && r.exc.key.name !in pkg
    ensures r.Raise? ==> FirstMissing(pkg, SyncFields).Some? && r.exc == KeyError(Field(FirstMissing(pkg, SyncFields).value))
    ensures r.Ok? && pkg["inchi_key"] in s.molecules ==> r.value == s
    ensures r.Ok? && pkg["inchi_key"] !in s.molecules ==>
      && r.value.molecules.Keys == s.molecules.Keys + {pkg["inchi_key"]}
      && (forall k :: k in s.molecules ==> r.value.molecules[k] == s.molecules[k])
      && r.value.molecules[pkg["inchi_key"]] ==
           Molecule(s.nextId, pkg["inchi"], pkg["smiles"], pkg["inchi_key"], pkg["exactmass"], pkg["mol_formula"])
      && r.value.links - s.links <= {(s.nextId, pkg["id"])}
      && (s.nextId, pkg["id"]) in r.value.links
      && s.links <= r.value.links
    ensures r.Ok? ==> pkg["inchi_key"] in r.value.molecules && Grows(s, r.value)
  {
    match FirstMissing(pkg, SyncFields)
    case Some(f) => Raise(KeyError(Field(f)))
    case None =>
      assert forall f :: f in SyncFields ==> f in pkg;
      var key := pkg["inchi_key"];
      if key in s.molecules then Ok(s)
      else
        var m := Molecule(s.nextId, pkg["inchi"], pkg["smiles"], key, pkg["exactmass"], pkg["mol_formula"]);
        Ok(Store(s.molecules[key := m], s.links + {(m.id, pkg["id"])}, s.nextId + 1))
  }

  /** A sync keeps the store well formed. */
  lemma SendToDbPreservesInv(s: Store, pkg: Record)
    requires StoreInv(s)
    requires SendToDb(s, pkg).Ok?
    ensures StoreInv(SendToDb(s, pkg).value)
  {
    var s' := SendToDb(s, pkg).value;
    var key := pkg["inchi_key"];
    if key !in s.molecules {
      forall l | l in s'.links
        ensures exists k :: k in s'.molecules && s'.molecules[k].id == l.0
      {
        if l in s.links {
          var k :| k in s.molecules && s.molecules[k].id == l.0;
          assert s'.molecules[k].id == l.0;
        } else {
          assert s'.molecules[key].id == l.0;
        }
      }
    }
  }

  /** Syncing the same package twice writes what syncing it once writes. */
  lemma SendToDbIdempotent(s: Store, pkg: Record)
    requires SendToDb(s, pkg).Ok?
    ensures SendToDb(SendToDb(s, pkg).value, pkg) == SendToDb(s, pkg)
  {
  }

  /** Syncs a sequence of packages in order, stopping at the first raise. */
  function SyncAll(s: Store, pkgs: seq<Record>): (r: Outcome<Store>)
    ensures r.Ok? ==> Grows(s, r.value)
    decreases |pkgs|
  {
    if pkgs == [] then Ok(s)
    else
      var s1 :- SendToDb(s, pkgs[0]);
      SyncAll(s1, pkgs[1..])
  }

  /** Packages that carry every synced field and share one InChIKey. */
  predicate SameMolecule(pkgs: seq<Record>, key: Value) {
    forall i :: 0 <= i < |pkgs| ==> (forall f :: f in SyncFields ==> f in pkgs[i]) && pkgs[i]["inchi_key"] == key
  }

  /** However many packages describe one molecule, the store ends up with a
      single row for it and a single link, to the first package synced; the
      later packages are never linked. */
  lemma {:induction false} SyncAllSameMolecule(s: Store, pkgs: seq<Record>, key: Value)
    requires |pkgs| > 0
    requires SameMolecule(pkgs, key)
    requires key !in s.molecules
    ensures SyncAll(s, pkgs).Ok?
    ensures SyncAll(s, pkgs).value == SendToDb(s, pkgs[0]).value
    ensures SyncAll(s, pkgs).value.links == s.links + {(s.nextId, pkgs[0]["id"])}
  {
    var s1 := SendToDb(s, pkgs[0]).value;
    SyncKnown(s1, pkgs[1..], key);
  }

  /** Syncing packages whose molecule is already stored changes nothing. */
  lemma {:induction false} SyncKnown(s: Store, pkgs: seq<Record>, key: Value)
    requires SameMolecule(pkgs, key)
    requires key in s.molecules
    ensures SyncAll(s, pkgs) == Ok(s)
    decreases |pkgs|
  {
    if pkgs != [] {
      assert SendToDb(s, pkgs[0]) == Ok(s);
      SyncKnown(s, pkgs[1..], key);
    }
  }
}
