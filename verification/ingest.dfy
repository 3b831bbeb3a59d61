/** `package_create_from_datapackage`: every entry of an uploaded data
    package is mapped to a dataset, reconciled with the catalog, given its
    resources, synced to the molecule store and drawn into the image cache;
    then every resulting dataset is sent to `package_update`. */
module Ingest {
  import opened PyValue
  import opened CkanCatalog
  import opened DatasetHelpers
  import Mapper
  import Reconcile
  import opened Resources
  import MoleculeSync
  import ImageCache

  /** Everything the action writes to: the catalog, the molecule store, the
      image directory and the `resource_create` calls made so far. */
  datatype World = World(
    catalog: Packages,
    store: MoleculeSync.Store,
    images: ImageCache.Images,
    resourceCalls: seq<ResourceCall>)

  /** The parameters of the action that the modelled code reads: `url`,
      whether `upload` is a readable file object, `owner_org` and `private`. */
  datatype Request = Request(url: Value, uploadValid: bool, ownerOrg: Value, private: Value)

  /** What the environment decides for one entry: whether the existence
      lookup fails, the random suffix, and whether RDKit draws the image. */
  datatype Luck = Luck(lookupFault: bool, suffix: Reconcile.Suffix, renderOk: bool)

  /** The world after a step and the dataset it produced or the exception. */
  datatype Ingested = Ingested(world: World, result: Outcome<Record>)

  /** The world after a run and what the run returned or raised. */
  datatype Batch = Batch(world: World, result: Outcome<seq<Record>>)

  /** The ValidationError message when neither `url` nor `upload` is usable. */
  const NoSourceMsg := "you must define either a url or upload attribute"

  /** A dataset as the ingestion hands it to `package_update`: active, and
      with no extras entry colliding with a top-level key. */
  ghost predicate Finished(x: Record) {
    "state" in x && x["state"] == Str("active") && !Collides(x)
  }

  /** `x` is `res` published: every key but `state` and `extras` is kept
      with its value. */
  predicate Carries(res: Record, x: Record) {
    forall k :: k in res && k != "state" && k != "extras" ==> k in x && x[k] == res[k]
  }

  /** The parts of the world no step takes anything away from. */
  predicate Evolves(w: World, w': World) {
    && (forall k :: k in w.catalog ==> k in w'.catalog && w'.catalog[k] == w.catalog[k])
    && MoleculeSync.Grows(w.store, w'.store)
    && ImageCache.NeverOverwritten(w.images, w'.images)
    && w.resourceCalls <= w'.resourceCalls
  }

  /** Lines 80-100 once `package` has returned `d0`: the dataset with the
      request's owner and visibility, checked for a string identifier,
      marked as a draft; and the resources to create. */
  function Prepared(env: Env, req: Request, d0: Record): (r: Outcome<(Record, Value)>)
    ensures r.Ok? ==> "state" in r.value.0 && r.value.0["state"] == Str("draft")
    ensures r.Ok? && Truthy(req.ownerOrg) ==> "owner_org" in r.value.0 && r.value.0["owner_org"] == req.ownerOrg
    ensures r.Ok? && Truthy(req.private) ==>
      env.asBool(req.private).Ok? && "private" in r.value.0 && r.value.0["private"] == Bool(env.asBool(req.private).value)
    ensures r.Ok? ==> forall k :: k in d0 && k !in {"state", "owner_org", "private"} ==>
      k in r.value.0 && r.value.0[k] == d0[k]
    ensures r.Ok? ==> r.value.1 == (if "resources" in d0 then d0["resources"] else List([]))
    ensures Truthy(req.private) && env.asBool(req.private).Raise? ==> r == Raise(env.asBool(req.private).exc)
    ensures !Truthy(req.private) || env.asBool(req.private).Ok? ==>
      (r.Ok? <==> "identifier" in d0 && d0["identifier"].Str?)
  {
    var d1 := if Truthy(req.ownerOrg) then d0["owner_org" := req.ownerOrg] else d0;
    var d2 :- if Truthy(req.private) then (var b :- env.asBool(req.private); Ok(d1["private" := Bool(b)])) else Ok(d1);
    var ident :- Subscript(Dict(d2), Field("identifier"));
    if !ident.Str? then Raise(AttributeError)
    else
      var resources := if "resources" in d2 then d2["resources"] else List([]);
      Ok((d2["state" := Str("draft")], resources))
  }

  /** Lines 127-133, after the resources: the dataset is marked active,
      synced to the molecule store, drawn, and stripped of colliding extras. */
  function Publish(env: Env, w: World, res: Record, renderOk: bool): (r: Ingested)
    ensures Evolves(w, r.world)
    ensures r.world.catalog == w.catalog && r.world.resourceCalls == w.resourceCalls
    ensures r.result.Ok? ==> "state" in r.result.value && r.result.value["state"] == Str("active")
    ensures r.result.Ok? ==> !Collides(r.result.value)
    ensures r.result.Ok? ==> Carries(res, r.result.value)
    ensures r.result.Ok? ==> "inchi_key" in res && res["inchi_key"] in r.world.store.molecules
    ensures r.result.Ok? && MoleculeSync.StoreInv(w.store) ==> MoleculeSync.StoreInv(r.world.store)
    ensures r.result.Ok? && renderOk && "inchi" in res && res["inchi"].Str? && ImageCache.StartsWith(res["inchi"].s, "InChI") ==>
      "inchi_key" in res && ImageCache.ImagePath(res["inchi_key"], env.strOf) in r.world.images
  {
    var active := res["state" := Str("active")];
    match MoleculeSync.SendToDb(w.store, active)
    case Raise(e) => Ingested(w, Raise(e))
    case Ok(st) =>
      assert MoleculeSync.StoreInv(w.store) ==> MoleculeSync.StoreInv(st) by {
        if MoleculeSync.StoreInv(w.store) {
          MoleculeSync.SendToDbPreservesInv(w.store, active);
        }
      }
      var w1 := w.(store := st);
      match ImageCache.ImportMoleculeImages(w1.images, active, env.strOf, renderOk)
      case Raise(e) => Ingested(w1, Raise(e))
      case Ok(im) => Ingested(w1.(images := im), RemoveExtras(active))
  }

  /** Lines 104-133, once the catalog has returned `res`: its resources are
      created under its id, then it is published. */
  function Attach(env: Env, w: World, res: Record, resources: Value, renderOk: bool): (r: Ingested)
    ensures Evolves(w, r.world)
    ensures r.world.catalog == w.catalog
    ensures "id" !in res ==> r == Ingested(w, Raise(KeyError(Field("id"))))
    ensures r.result.Ok? ==> "state" in r.result.value && r.result.value["state"] == Str("active")
    ensures r.result.Ok? ==> !Collides(r.result.value)
    ensures r.result.Ok? ==> "id" in res && "id" in r.result.value && r.result.value["id"] == res["id"]
    ensures r.result.Ok? ==> Carries(res, r.result.value)
    ensures r.result.Ok? ==> "inchi_key" in r.result.value && r.result.value["inchi_key"] in r.world.store.molecules
    ensures r.result.Ok? && MoleculeSync.StoreInv(w.store) ==> MoleculeSync.StoreInv(r.world.store)
    ensures r.result.Ok? ==>
      && CreateResources(env, res["id"], resources).raised.None?
      && r.world.resourceCalls == w.resourceCalls + CreateResources(env, res["id"], resources).made
  {
    if "id" !in res then Ingested(w, Raise(KeyError(Field("id"))))
    else
      var calls := CreateResources(env, res["id"], resources);
      var w1 := w.(resourceCalls := w.resourceCalls + calls.made);
      if calls.raised.Some? then Ingested(w1, Raise(calls.raised.value))
      else Publish(env, w1, res, renderOk)
  }

  /** Lines 102-133 for a draft dataset `d`: reconciliation, then `Attach`. */
  function Placed(env: Env, w: World, d: Record, resources: Value, luck: Luck): (r: Ingested)
    ensures Evolves(w, r.world)
    ensures r.world.catalog == Reconcile.CreateWithUniqueName(env, w.catalog, d, luck.lookupFault, luck.suffix).packages
    ensures var rc := Reconcile.CreateWithUniqueName(env, w.catalog, d, luck.lookupFault, luck.suffix);
      rc.result.Raise? ==> r.result == rc.result
    ensures var rc := Reconcile.CreateWithUniqueName(env, w.catalog, d, luck.lookupFault, luck.suffix);
      r.result.Ok? ==> rc.result.Ok? && Carries(rc.result.value, r.result.value)
    ensures r.result.Ok? ==> "state" in r.result.value && r.result.value["state"] == Str("active")
    ensures r.result.Ok? ==> !Collides(r.result.value)
    ensures r.result.Ok? ==> "inchi_key" in r.result.value && r.result.value["inchi_key"] in r.world.store.molecules
    ensures r.result.Ok? && MoleculeSync.StoreInv(w.store) ==> MoleculeSync.StoreInv(r.world.store)
  {
    var rc := Reconcile.CreateWithUniqueName(env, w.catalog, d, luck.lookupFault, luck.suffix);
    var w1 := w.(catalog := rc.packages);
    match rc.result
    case Raise(e) => Ingested(w1, Raise(e))
    case Ok(res) => Attach(env, w1, res, resources, luck.renderOk)
  }

  /** Lines 79-136 for one entry: the draft is reconciled with the
      catalog, given its resources and published. */
  method IngestOne(env: Env, w: World, req: Request, entry: Record, luck: Luck) returns (r: Ingested)
    ensures Evolves(w, r.world)
    ensures r.result.Ok? ==> Finished(r.result.value)
    ensures r.result.Ok? ==> "inchi_key" in r.result.value && r.result.value["inchi_key"] in r.world.store.molecules
    ensures r.result.Ok? && MoleculeSync.StoreInv(w.store) ==> MoleculeSync.StoreInv(r.world.store)
    ensures Mapper.Package(entry).Raise? ==> r == Ingested(w, Mapper.Package(entry))
    ensures r.result.Ok? ==>
      && Mapper.Package(entry).Ok?
      && Prepared(env, req, Mapper.Package(entry).value).Ok?
      && var (d, _) := Prepared(env, req, Mapper.Package(entry).value).value;
      && var rc := Reconcile.CreateWithUniqueName(env, w.catalog, d, luck.lookupFault, luck.suffix);
      && rc.result.Ok? && Carries(rc.result.value, r.result.value)
  {
    match Mapper.Package(entry)
    case Raise(e) =>
      r := Ingested(w, Raise(e));
    case Ok(d0) =>
      match Prepared(env, req, d0)
      case Raise(e) =>
        r := Ingested(w, Raise(e));
      case Ok((d, resources)) =>
        r := Placed(env, w, d, resources, luck);
  }

  /** `IngestOne` as the loop of `IngestAll` uses it: the world only
      grows, an entry `package` rejects is returned with the world
      unchanged, and an accepted dataset is finished and came from an
      entry `package` maps. */
  method IngestNext(env: Env, w: World, req: Request, entry: Record, luck: Luck) returns (r: Ingested)
    ensures Evolves(w, r.world)
    ensures Mapper.Package(entry).Raise? ==> r == Ingested(w, Mapper.Package(entry))
    ensures r.result.Ok? ==> Mapper.Package(entry).Ok?
    ensures r.result.Ok? ==> Finished(r.result.value)
    ensures r.result.Ok? && MoleculeSync.StoreInv(w.store) ==> MoleculeSync.StoreInv(r.world.store)
  {
    r := IngestOne(env, w, req, entry, luck);
  }

  /** `exc` is what `IngestOne` raised for `entries[i]`, the first entry
      that did not go through: every entry before it was mapped, and if
      `package` rejects `entries[i]` then `exc` is that rejection. */
  predicate StopsAt(entries: seq<Record>, i: int, exc: Exc)
  {
    && 0 <= i < |entries|
    && (forall j :: 0 <= j < i ==> Mapper.Package(entries[j]).Ok?)
    && (Mapper.Package(entries[i]).Raise? ==> exc == Mapper.Package(entries[i]).exc)
  }

  lemma StoppedHere(entries: seq<Record>, i: nat, exc: Exc)
    requires i < |entries|
    requires forall j :: 0 <= j < i ==> Mapper.Package(entries[j]).Ok?
    requires Mapper.Package(entries[i]).Raise? ==> exc == Mapper.Package(entries[i]).exc
    ensures exists k :: StopsAt(entries, k, exc)
  {
    assert StopsAt(entries, i, exc);
  }

  lemma MappedExtend(entries: seq<Record>, i: nat)
    requires i < |entries|
    requires forall j :: 0 <= j < i ==> Mapper.Package(entries[j]).Ok?
    requires Mapper.Package(entries[i]).Ok?
    ensures forall j :: 0 <= j < i + 1 ==> Mapper.Package(entries[j]).Ok?
  {
  }

  /** `IngestNext` on `entries[i]` when every entry before it was mapped:
      the loop's view of one iteration. */
  method IngestAt(env: Env, w: World, req: Request, entries: seq<Record>, lucks: seq<Luck>, i: nat)
    returns (r: Ingested)
    requires i < |entries| == |lucks|
    requires forall j :: 0 <= j < i ==> Mapper.Package(entries[j]).Ok?
    ensures Evolves(w, r.world)
    ensures r.result.Ok? ==> Finished(r.result.value)
    ensures r.result.Ok? && MoleculeSync.StoreInv(w.store) ==> MoleculeSync.StoreInv(r.world.store)
    ensures r.result.Ok? ==> forall j :: 0 <= j < i + 1 ==> Mapper.Package(entries[j]).Ok?
    ensures r.result.Raise? ==> exists k :: StopsAt(entries, k, r.result.exc)
  {
    r := IngestNext(env, w, req, entries[i], lucks[i]);
    if r.result.Raise? {
      StoppedHere(entries, i, r.result.exc);
    } else {
      MappedExtend(entries, i);
    }
  }

  lemma EvolvesTransitive(w1: World, w2: World, w3: World)
    requires Evolves(w1, w2) && Evolves(w2, w3)
    ensures Evolves(w1, w3)
  {
  }

  /** The loop of lines 78-136: the datasets collected in `res_to_send`,
      or the first exception, which ends the action. */
  method IngestAll(env: Env, w: World, req: Request, entries: seq<Record>, lucks: seq<Luck>) returns (r: Batch)
    requires |lucks| == |entries|
    ensures Evolves(w, r.world)
    ensures entries == [] ==> r == Batch(w, Ok([]))
    ensures r.result.Ok? ==> |r.result.value| == |entries|
    ensures r.result.Ok? ==> forall i :: 0 <= i < |r.result.value| ==> Finished(r.result.value[i])
    ensures r.result.Ok? && MoleculeSync.StoreInv(w.store) ==> MoleculeSync.StoreInv(r.world.store)
    ensures r.result.Ok? ==> forall j :: 0 <= j < |entries| ==> Mapper.Package(entries[j]).Ok?
    ensures r.result.Raise? ==> exists i :: StopsAt(entries, i, r.result.exc)
  {
    var world := w;
    var sent: seq<Record> := [];
    var i := 0;
    while i < |entries|
      invariant 0 <= i <= |entries|
      invariant |sent| == i
      invariant i == 0 ==> world == w && sent == []
      invariant Evolves(w, world)
      invariant forall j :: 0 <= j < i ==> Finished(sent[j])
      invariant MoleculeSync.StoreInv(w.store) ==> MoleculeSync.StoreInv(world.store)
      invariant forall j :: 0 <= j < i ==> Mapper.Package(entries[j]).Ok?
    {
      var one := IngestAt(env, world, req, entries, lucks, i);
      EvolvesTransitive(w, world, one.world);
      if one.result.Raise? {
        return Batch(one.world, Raise(one.result.exc));
      }
      sent := sent + [one.result.value];
      world := one.world;
      i := i + 1;
    }
    return Batch(world, Ok(sent));
  }

  /** The catalog after the update loop and `updated_datasets` at its end. */
  datatype Updated = Updated(packages: Packages, result: Outcome<seq<Record>>)

  /** One iteration of lines 139-150: `updated_datasets` starts empty and
      holds the update when `package_update` succeeds. Both handlers read
      `dataset['id']` to print it. */
  function UpdateOne(env: Env, pk: Packages, d: Record): (r: Updated)
    ensures r.result.Ok? ==> |r.result.value| <= 1
    ensures r.result == Ok([d]) <==> Update(env, pk, d).result.Ok?
    ensures r.result == Ok([d]) ==> "id" in d && d["id"].Str? && r.packages == pk[d["id"].s := d]
    ensures r.result.Raise? <==> Update(env, pk, d).result.Raise? && "id" !in d
    ensures r.packages == Update(env, pk, d).packages
  {
    var rep := Update(env, pk, d);
    match rep.result
    case Ok(u) => Updated(rep.packages, Ok([u]))
    case Raise(_) => if "id" in d then Updated(rep.packages, Ok([])) else Updated(rep.packages, Raise(KeyError(Field("id"))))
  }

  /** Lines 139-152: `updated_datasets` is reset at the start of every
      iteration, so only the last update can be returned, and an empty loop
      leaves it unbound. */
  function UpdateAll(env: Env, pk: Packages, ds: seq<Record>): (r: Updated)
    ensures ds == [] <==> r.result == Raise(UnboundLocalError)
    ensures r.result.Ok? ==> |r.result.value| <= 1
    ensures r.result.Ok? && |r.result.value| == 1 ==> r.result.value[0] == ds[|ds| - 1]
    ensures r.result.Ok? && |r.result.value| == 1 ==>
      var x := r.result.value[0];
      "id" in x && x["id"].Str? && x["id"].s in r.packages && r.packages[x["id"].s] == x
    ensures r.packages.Keys == pk.Keys
    decreases |ds|
  {
    if ds == [] then Updated(pk, Raise(UnboundLocalError))
    else
      var one := UpdateOne(env, pk, ds[0]);
      if one.result.Raise? || |ds| == 1 then one
      else
        var rest := UpdateAll(env, one.packages, ds[1..]);
        assert ds[|ds| - 1] == ds[1..][|ds[1..]| - 1];
        rest
  }

  /** A stored dataset that no element of `ds` names by id is left as it
      was. */
  lemma {:induction false} UpdateAllUntouched(env: Env, pk: Packages, ds: seq<Record>, k: string)
    requires k in pk
    requires forall i :: 0 <= i < |ds| ==> Get(ds[i], "id") != Str(k)
    ensures k in UpdateAll(env, pk, ds).packages && UpdateAll(env, pk, ds).packages[k] == pk[k]
    decreases |ds|
  {
    if ds != [] {
      var one := UpdateOne(env, pk, ds[0]);
      assert Get(ds[0], "id") != Str(k);
      assert k in one.packages && one.packages[k] == pk[k];
      if one.result.Ok? && |ds| > 1 {
        assert forall i :: 0 <= i < |ds[1..]| ==> ds[1..][i] == ds[i + 1];
        UpdateAllUntouched(env, one.packages, ds[1..], k);
      }
    }
  }

  /** `package_create_from_datapackage`. `entries` are the dicts of the
      uploaded data package's entries; a request without a usable upload
      goes through the url branch of the loader, which returns no entries. */
  method PackageCreateFromDatapackage(env: Env, w: World, req: Request, entries: seq<Record>, lucks: seq<Luck>)
    returns (r: Batch)
    requires |lucks| == |entries|
    ensures w.catalog.Keys <= r.world.catalog.Keys
    ensures MoleculeSync.Grows(w.store, r.world.store) && ImageCache.NeverOverwritten(w.images, r.world.images)
    ensures !Truthy(req.url) && !req.uploadValid ==>
      r == Batch(w, Raise(ValidationError(map["url" := [NoSourceMsg]])))
    ensures Truthy(req.url) && !req.uploadValid ==> r == Batch(w, Raise(UnboundLocalError))
    ensures entries == [] ==> r.result.Raise? && r.world == w
    ensures r.result.Ok? ==> |r.result.value| <= 1
    ensures r.result.Ok? && |r.result.value| == 1 ==>
      var x := r.result.value[0];
      && Finished(x)
      && "id" in x && x["id"].Str? && x["id"].s in r.world.catalog && r.world.catalog[x["id"].s] == x
  {
    if !Truthy(req.url) && !req.uploadValid {
      return Batch(w, Raise(ValidationError(map["url" := [NoSourceMsg]])));
    }
    if !req.uploadValid {
      // the url branch of the loader builds a data package but returns none
      return Batch(w, Raise(UnboundLocalError));
    }
    var b := IngestAll(env, w, req, entries, lucks);
    if b.result.Raise? {
      return b;
    }
    var u := UpdateAll(env, b.world.catalog, b.result.value);
    return Batch(b.world.(catalog := u.packages), u.result);
  }

  /** The resources `_extract_resources` derives are links, so creating
      them never raises and makes one `resource_create` call each. */
  lemma ExtractedResourcesAreLinks(env: Env, entry: Record, datasetId: Value)
    requires Mapper.ExtractResources(entry).Ok?
    ensures var xs := Mapper.ExtractResources(entry).value;
      && CreateAll(env, datasetId, xs).raised.None?
      && |CreateAll(env, datasetId, xs).made| == |xs| <= 1
      && forall c :: c in CreateAll(env, datasetId, xs).made ==> !c.upload
  {
    var xs := Mapper.ExtractResources(entry).value;
    if |xs| == 1 {
      var res := xs[0].fields;
      assert "data" !in res && "path" !in res;
    }
    LinksNeverRaise(env, datasetId, xs);
  }

  /** So the resources of a mapped entry with a `url` never make
      `_create_resources` raise. */
  lemma MappedResourcesAreLinks(env: Env, entry: Record, datasetId: Value)
    requires Mapper.Package(entry).Ok? && "url" in entry
    ensures "resources" in Mapper.Package(entry).value
    ensures var resources := Mapper.Package(entry).value["resources"];
      && resources.List?
      && CreateResources(env, datasetId, resources).raised.None?
      && forall c :: c in CreateResources(env, datasetId, resources).made ==> !c.upload
  {
    Mapper.PackageResources(entry);
    ExtractedResourcesAreLinks(env, entry, datasetId);
  }
}
