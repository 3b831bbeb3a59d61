/** The translation of one chemistry data-package entry into a CKAN dataset
    dict (`package` and `_extract_resources`). Every exception the Python code
    can raise is either caught where the code catches it, keeping the
    assignments made before it, or returned as a `Raise`. */
module Mapper {
  import opened PyValue

  /** `ckan_package_keys`: the top-level keys a CKAN dataset keeps
      ('version' is listed twice, as in `ckan_package_keys`). */
  const CkanPackageKeys: seq<string> := [
    "author", "author_email", "creator_user_id", "groups", "identifier",
    "license_id", "license_title", "license", "maintainer", "maintainer_email",
    "metadata_created", "metadata_modified", "name", "notes", "owner_org",
    "private", "relationships_as_object", "relationships_as_subject",
    "revision_id", "resources", "state", "tags", "tracking_summary", "title",
    "type", "url", "version", "measurement_technique",
    "measurement_technique_iri", "inchi", "exactmass", "inchi_key", "smiles",
    "mol_formula", "doi", "version", "language", "metadata_published",
    "alternateNames"
  ]

  /** `frictionless_package_keys_to_exclude`: keys the final filter leaves alone. */
  const FilterExempt: seq<string> := ["extras"]

  /** A key that survives the final filter of `package`. */
  predicate Recognised(k: string) {
    k in CkanPackageKeys || k in FilterExempt
  }

  /** The keys the contributor scan may assign. */
  const ContributorWritten: set<string> :=
    {"author", "author_email", "maintainer", "maintainer_email"}

  /** The keys the measurement-technique step assigns. */
  const TechniqueKeys: set<string> := {"measurement_technique", "measurement_technique_iri"}

  /** The keys the measurement-technique and contributor steps may assign. */
  const TechniqueWritten: set<string> := TechniqueKeys + ContributorWritten

  /** The keys the `title`/`name`/`notes` block may assign. */
  const DescriptiveWritten: set<string> := {"title", "name", "notes"} + TechniqueWritten

  /** The keys the structure-field block may assign. */
  const ChemistryWritten: set<string> :=
    {"inchi", "inchi_key", "smiles", "mol_formula", "exactmass"}

  /** The keys `package` may assign; every other key of its result is the
      input's own entry, untouched. */
  const MapperWritten: set<string> :=
    ChemistryWritten + {"metadata_published", "resources"} + DescriptiveWritten

  /** `contributors` is not a CKAN key, so the filter drops it. */
  lemma ContributorsDropped()
    ensures "contributors" !in CkanPackageKeys
  {
  }

  /** `description` is not a CKAN key, so the filter drops it. */
  lemma DescriptionDropped()
    ensures "description" !in CkanPackageKeys
  {
  }

  /** `metadata_published` is a CKAN key, so the filter keeps it. */
  lemma PublishedKept()
    ensures "metadata_published" in CkanPackageKeys
  {
  }

  /** `metadata_published` is assigned by no block other than its own. */
  lemma PublishedWrittenOnce()
    ensures "metadata_published" !in DescriptiveWritten
    ensures "metadata_published" !in ChemistryWritten
  {
  }

  /** The blocks of `package` assign disjoint sets of keys. */
  lemma WrittenDisjoint()
    ensures ChemistryWritten !! DescriptiveWritten
    ensures "resources" !in ChemistryWritten && "resources" !in DescriptiveWritten
    ensures "license" !in MapperWritten && "contributors" !in MapperWritten
  {
  }

  /** The final filter: keeps exactly the recognised keys, with their values. */
  function FilterKeys(d: Record): (r: Record)
    ensures forall k :: k in r ==> k in d && Recognised(k) && r[k] == d[k]
    ensures forall k :: k in d && Recognised(k) ==> k in r
  {
    map k | k in d && Recognised(k) :: d[k]
  }

  /** A recognised key survives the filter unchanged. */
  lemma FilterKeeps(d: Record, k: string)
    requires Recognised(k)
    ensures k in FilterKeys(d) <==> k in d
    ensures k in d ==> FilterKeys(d)[k] == d[k]
  {
  }

  /** Filtering an already filtered dict changes nothing. */
  lemma FilterKeysIdempotent(d: Record)
    ensures FilterKeys(FilterKeys(d)) == FilterKeys(d)
  {
    var f := FilterKeys(d);
    assert FilterKeys(f).Keys == f.Keys;
  }

  // ---------------------------------------------------------------------
  // Chemistry fields (the first try block, which swallows every exception)
  // ---------------------------------------------------------------------

  /** `v if v else ''`. */
  function OrEmpty(v: Value): Value {
    if Truthy(v) then v else Str("")
  }

  function WithExactMass(fd: Record, out: Record): Record {
    if "monoisotopicMolecularWeight" in fd
    then out["exactmass" := fd["monoisotopicMolecularWeight"]]
    else out
  }

  /** The formula part of the structure block: `mol_formula` falls back
      from `molecularFormula` to `chemicalComposition` to '-', then
      `exactmass` is copied. */
  function FormulaFields(fd: Record, out: Record): (r: Record)
    ensures forall k :: k in out ==> k in r
    ensures forall k :: k in r ==> k in out || k == "mol_formula" || k == "exactmass"
    ensures forall k :: k in out && k != "mol_formula" && k != "exactmass" ==> r[k] == out[k]
  {
    if "molecularFormula" !in fd then out
    else if Truthy(fd["molecularFormula"]) then
      WithExactMass(fd, out["mol_formula" := fd["molecularFormula"]])
    else if "chemicalComposition" !in fd then out
    else if Truthy(fd["chemicalComposition"]) then
      WithExactMass(fd, out["mol_formula" := fd["chemicalComposition"]])
    else WithExactMass(fd, out["mol_formula" := Str("-")])
  }

  /** The structure fields, starting from the shallow copy `dict(fddict)`.
      A missing source key raises a KeyError that `except Exception`
      swallows, so the remaining assignments are skipped. */
  function ChemistryFields(fd: Record): (r: Record)
    ensures forall k :: k in r ==> k in fd || k in ChemistryWritten
    ensures forall k :: k in fd ==> k in r
    ensures forall k :: k in r && k !in ChemistryWritten ==> r[k] == fd[k]
  {
    if "inChI" !in fd then fd else
    var o1 := fd["inchi" := OrEmpty(fd["inChI"])];
    if "inChIKey" !in fd then o1 else
    var o2 := o1["inchi_key" := OrEmpty(fd["inChIKey"])];
    if "smiles" !in fd then o2 else
    var o3 := o2["smiles" := OrEmpty(fd["smiles"])];
    FormulaFields(fd, o3)
  }

  // ---------------------------------------------------------------------
  // Resources
  // ---------------------------------------------------------------------

  /** `content["format"][0]`, with IndexError and KeyError turned into "HTML";
      any other exception (a TypeError on a non-subscriptable format) escapes. */
  function ResourceFormat(content: Record): Outcome<Value> {
    if "format" !in content then Ok(Str("HTML")) else
    match Subscript(content["format"], Index(0))
    case Ok(f) => Ok(f)
    case Raise(e) => if e.KeyError? || e.IndexError? then Ok(Str("HTML")) else Raise(e)
  }

  /** `content["format"][0]` raises nothing but the IndexError or KeyError
      that `_extract_resources` catches. */
  predicate FormatReadable(content: Record) {
    "format" !in content || content["format"].List? || content["format"].Str? || content["format"].Dict?
  }

  /** `_extract_resources`: no resource for a falsy url, otherwise exactly one
      resource naming the entry, its url and its format. */
  function ExtractResources(content: Record): (r: Outcome<seq<Value>>)
    ensures "url" !in content ==> r == Raise(KeyError(Field("url")))
    ensures "url" in content && !Truthy(content["url"]) ==> r == Ok([])
    ensures r.Ok? && "url" in content && Truthy(content["url"]) ==>
      && |r.value| == 1
      && r.value[0].Dict?
      && var res := r.value[0].fields;
      && res.Keys == {"name", "resource_type", "format", "url"}
      && "name" in content && res["name"] == content["name"]
      && res["url"] == content["url"]
      && res["format"] == res["resource_type"]
      && res["format"] == (if "format" !in content then Str("HTML") else
                           match content["format"]
                           case List(fs) => if |fs| == 0 then Str("HTML") else fs[0]
                           case Str(s) => if |s| == 0 then Str("HTML") else Str([s[0]])
                           case _ => Str("HTML"))
    ensures "url" in content && Truthy(content["url"]) && "name" !in content ==> r.Raise?
    ensures "url" in content && Truthy(content["url"]) && "name" in content && FormatReadable(content) ==> r.Ok?
    ensures "url" in content && Truthy(content["url"]) && "name" !in content && FormatReadable(content) ==>
      r == Raise(KeyError(Field("name")))
    ensures "url" in content && r.Raise? ==> r.exc == KeyError(Field("name")) || r.exc == TypeError
    ensures r == Raise(KeyError(Field("name"))) ==>
      "url" in content && Truthy(content["url"]) && "name" !in content && FormatReadable(content)
  {
    if "url" !in content then Raise(KeyError(Field("url"))) else
    var url := content["url"];
    if !Truthy(url) then Ok([]) else
    var fmt :- ResourceFormat(content);
    if "name" !in content then Raise(KeyError(Field("name"))) else
    Ok([Dict(map["name" := content["name"], "resource_type" := fmt,
                 "format" := fmt, "url" := url])])
  }

  // ---------------------------------------------------------------------
  // Descriptive fields (the second try block, which catches only KeyError)
  // ---------------------------------------------------------------------

  /** A step inside a `try: ... except KeyError:` block: it completes, or a
      KeyError stops the block with the dict as it stands, or another
      exception escapes. */
  datatype Step = Done(out: Record) | Stopped(out: Record) | Failed(exc: Exc)

  /** `measurement_technique[0]['name']` and `[0]['url']`. */
  function MeasurementFields(mt: Value, out: Record): (r: Step)
    ensures r.Done? <==> TechniqueRead(mt)
    ensures r.Done? ==> TechniqueSet(mt, r.out)
    ensures Subscript(mt, Index(0)).Raise? ==>
      r == (if Subscript(mt, Index(0)).exc.KeyError? then Stopped(out) else Failed(Subscript(mt, Index(0)).exc))
    ensures Subscript(mt, Index(0)).Ok? && Subscript(Subscript(mt, Index(0)).value, Field("name")).Raise? ==>
      var e := Subscript(Subscript(mt, Index(0)).value, Field("name")).exc;
      r == (if e.KeyError? then Stopped(out) else Failed(e))
    ensures (Subscript(mt, Index(0)).Ok? && Subscript(Subscript(mt, Index(0)).value, Field("name")).Ok? &&
             Subscript(Subscript(mt, Index(0)).value, Field("url")).Raise?) ==>
      var e := Subscript(Subscript(mt, Index(0)).value, Field("url")).exc;
      var half := out["measurement_technique" := Subscript(Subscript(mt, Index(0)).value, Field("name")).value];
      r == (if e.KeyError? then Stopped(half) else Failed(e))
    ensures r.Failed? ==> !r.exc.KeyError? && (r.exc == IndexError || r.exc == TypeError)
    ensures r.Failed? && Truthy(mt) ==> r.exc == TypeError
    ensures TechniqueReadable(mt) ==> !r.Failed?
    ensures !r.Failed? ==> forall k :: k in r.out ==> k in out || k in TechniqueKeys
    ensures !r.Failed? ==> forall k :: k in out && k !in TechniqueKeys ==> k in r.out && r.out[k] == out[k]
  {
    match Subscript(mt, Index(0))
    case Raise(e) => if e.KeyError? then Stopped(out) else Failed(e)
    case Ok(first) =>
      match Subscript(first, Field("name"))
      case Raise(e) => if e.KeyError? then Stopped(out) else Failed(e)
      case Ok(nm) =>
        var o1 := out["measurement_technique" := nm];
        match Subscript(first, Field("url"))
        case Raise(e) => if e.KeyError? then Stopped(o1) else Failed(e)
        case Ok(iri) => Done(o1["measurement_technique_iri" := iri])
  }

  /** `measurement_technique[0]['name']` and `[0]['url']` both succeed. */
  predicate TechniqueRead(mt: Value) {
    && Subscript(mt, Index(0)).Ok?
    && Subscript(Subscript(mt, Index(0)).value, Field("name")).Ok?
    && Subscript(Subscript(mt, Index(0)).value, Field("url")).Ok?
  }

  /** `measurement_technique[0]['name']` and `[0]['url']` raise nothing but
      a KeyError: the technique is a dict, or a list whose first item is. */
  predicate TechniqueReadable(mt: Value) {
    mt.Dict? || (mt.List? && |mt.items| > 0 && mt.items[0].Dict?)
  }

  /** Every contributor is a dict, so `c.get` never raises. */
  predicate AllDicts(xs: seq<Value>) {
    forall i :: 0 <= i < |xs| ==> xs[i].Dict?
  }

  /** The contributor scan raises nothing: no contributors, or a list of dicts. */
  predicate ContributorsReadable(cs: Value) {
    !Truthy(cs) || (cs.List? && AllDicts(cs.items))
  }

  /** `r` holds `measurement_technique[0]['name']` and `[0]['url']` under
      the two technique keys. */
  predicate TechniqueSet(mt: Value, r: Record)
    requires TechniqueRead(mt)
  {
    var first := Subscript(mt, Index(0)).value;
    && "measurement_technique" in r
    && r["measurement_technique"] == Subscript(first, Field("name")).value
    && "measurement_technique_iri" in r
    && r["measurement_technique_iri"] == Subscript(first, Field("url")).value
  }

  datatype Role = Author | Maintainer

  /** `c.get('role') in [None, 'author']`, or `c.get('role') == 'maintainer'`. */
  predicate HasRole(c: Value, role: Role)
    requires c.Dict?
  {
    var r := Get(c.fields, "role");
    match role
    case Author => r == Null || r == Str("author")
    case Maintainer => r == Str("maintainer")
  }

  /** The `i`-th contributor is the first of role `role`, and every contributor
      before it is a dict (so `c.get` did not raise on it). */
  predicate FirstOfRole(xs: seq<Value>, role: Role, i: int) {
    && 0 <= i < |xs|
    && xs[i].Dict? && HasRole(xs[i], role)
    && forall j :: 0 <= j < i ==> xs[j].Dict? && !HasRole(xs[j], role)
  }

  /** No contributor has role `role`, and all of them are dicts. */
  predicate NoneOfRole(xs: seq<Value>, role: Role) {
    forall j :: 0 <= j < |xs| ==> xs[j].Dict? && !HasRole(xs[j], role)
  }

  /** The scan `for c in contributors: if <role matches>: ...; break`. */
  function FirstContributor(xs: seq<Value>, role: Role): (r: Outcome<Option<Record>>)
    ensures forall i :: FirstOfRole(xs, role, i) ==> r == Ok(Some(xs[i].fields))
    ensures NoneOfRole(xs, role) ==> r == Ok(None)
    ensures r.Raise? ==> r.exc == AttributeError
    ensures AllDicts(xs) ==> r.Ok?
    ensures r.Ok? ==> NoneOfRole(xs, role) || exists i :: FirstOfRole(xs, role, i)
  {
    if xs == [] then Ok(None)
    else if !xs[0].Dict? then Raise(AttributeError)
    else if HasRole(xs[0], role) then
      assert FirstOfRole(xs, role, 0);
      Ok(Some(xs[0].fields))
    else
      var r := FirstContributor(xs[1..], role);
      assert forall i :: FirstOfRole(xs, role, i) ==> i > 0 && FirstOfRole(xs[1..], role, i - 1);
      assert NoneOfRole(xs, role) ==> NoneOfRole(xs[1..], role);
      assert NoneOfRole(xs[1..], role) ==> NoneOfRole(xs, role);
      assert forall i :: FirstOfRole(xs[1..], role, i) ==> FirstOfRole(xs, role, i + 1);
      assert AllDicts(xs) ==> AllDicts(xs[1..]);
      r
  }

  /** The condition under which the raw `contributors` entry is dropped:
      one contributor of a known role, or two whose roles are not both None,
      both 'maintainer' or both 'author'. */
  function FullyExtracted(xs: seq<Value>): (r: Outcome<bool>)
    ensures r.Raise? ==> r.exc == AttributeError
    ensures AllDicts(xs) ==> r.Ok?
  {
    if |xs| == 1 then
      if xs[0].Dict? then
        var r := Get(xs[0].fields, "role");
        Ok(r == Null || r == Str("author") || r == Str("maintainer"))
      else Raise(AttributeError)
    else if |xs| == 2 then
      if xs[0].Dict? && xs[1].Dict? then
        var roles := [Get(xs[0].fields, "role"), Get(xs[1].fields, "role")];
        Ok(roles != [Null, Null] && roles != [Str("maintainer"), Str("maintainer")]
           && roles != [Str("author"), Str("author")])
      else Raise(AttributeError)
    else Ok(false)
  }

  /** The output keys the first contributor of `role` fills: its title and
      its email. */
  function RoleKeys(role: Role): (string, string) {
    match role
    case Author => ("author", "author_email")
    case Maintainer => ("maintainer", "maintainer_email")
  }

  /** One scan of the contributors: the first of role `role` gives its
      `title` and `email`; without one, nothing is written. */
  function RoleFields(out: Record, xs: seq<Value>, role: Role): (r: Outcome<Record>)
    ensures r.Raise? ==> r.exc == AttributeError
    ensures AllDicts(xs) ==> r.Ok?
    ensures forall i :: FirstOfRole(xs, role, i) ==>
      r == Ok(out[RoleKeys(role).0 := Get(xs[i].fields, "title")][RoleKeys(role).1 := Get(xs[i].fields, "email")])
    ensures NoneOfRole(xs, role) ==> r == Ok(out)
    ensures r.Ok? ==> forall k :: k != RoleKeys(role).0 && k != RoleKeys(role).1 ==> Untouched(out, r.value, k)
    ensures r.Ok? ==> r.value == out || exists i :: (FirstOfRole(xs, role, i) &&
      r.value == out[RoleKeys(role).0 := Get(xs[i].fields, "title")][RoleKeys(role).1 := Get(xs[i].fields, "email")])
  {
    var m :- FirstContributor(xs, role);
    Ok(if m.Some? then out[RoleKeys(role).0 := Get(m.value, "title")][RoleKeys(role).1 := Get(m.value, "email")] else out)
  }

  /** Author and maintainer extraction from `contributors`: author fields come
      from the first contributor whose role is None or 'author', maintainer
      fields from the first whose role is 'maintainer'. Iterating a truthy
      non-list raises: a dict or a string yields strings, which have no `get`;
      a number or a boolean is not iterable. */
  function ContributorFields(out: Record): (r: Outcome<Record>)
    ensures !Truthy(Get(out, "contributors")) ==> r == Ok(out)
    ensures r.Ok? && Truthy(Get(out, "contributors")) ==> out["contributors"].List?
    ensures r.Ok? ==> forall k :: k in r.value ==> k in out || k in ContributorWritten
    ensures r.Ok? ==> forall k :: k in out && k !in ContributorWritten && k != "contributors" ==>
      k in r.value && r.value[k] == out[k]
    ensures r.Ok? ==> forall k :: k in r.value && k !in ContributorWritten ==> r.value[k] == out[k]
    ensures Truthy(Get(out, "contributors")) && !out["contributors"].List? ==> r.Raise?
    ensures ContributorsReadable(Get(out, "contributors")) ==> r.Ok?
    ensures r.Raise? ==> r.exc == AttributeError || r.exc == TypeError
  {
    var cs := Get(out, "contributors");
    if !Truthy(cs) then Ok(out) else
    match cs
    case List(xs) =>
      var o1 :- RoleFields(out, xs, Author);
      var o2 :- RoleFields(o1, xs, Maintainer);
      var drop :- FullyExtracted(xs);
      Ok(if drop then o2 - {"contributors"} else o2)
    case _ => if cs.Dict? || cs.Str? then Raise(AttributeError) else Raise(TypeError)
  }

  /** The output fields of `role` hold the title and email of the first
      contributor of that role; without one they are as in `before`. */
  ghost predicate RoleTaken(xs: seq<Value>, role: Role, before: Record, r: Record) {
    && (forall i :: FirstOfRole(xs, role, i) ==>
          && RoleKeys(role).0 in r && r[RoleKeys(role).0] == Get(xs[i].fields, "title")
          && RoleKeys(role).1 in r && r[RoleKeys(role).1] == Get(xs[i].fields, "email"))
    && (NoneOfRole(xs, role) ==>
          Untouched(before, r, RoleKeys(role).0) && Untouched(before, r, RoleKeys(role).1))
  }

  /** One scan sets the fields of its role as `RoleTaken` says. */
  lemma RoleFieldsTaken(out: Record, xs: seq<Value>, role: Role)
    ensures RoleFields(out, xs, role).Ok? ==> RoleTaken(xs, role, out, RoleFields(out, xs, role).value)
  {
  }

  /** `RoleTaken` carries over to a later dict that keeps the role's fields,
      and back to an earlier one that had the same fields. */
  lemma RoleTakenAcross(xs: seq<Value>, role: Role, b0: Record, b1: Record, a: Record, c: Record)
    requires RoleTaken(xs, role, b1, a)
    requires Untouched(b0, b1, RoleKeys(role).0) && Untouched(b0, b1, RoleKeys(role).1)
    requires Untouched(a, c, RoleKeys(role).0) && Untouched(a, c, RoleKeys(role).1)
    ensures RoleTaken(xs, role, b0, c)
  {
  }

  /** The author fields come from the first contributor whose role is None
      or 'author'; without one they are left as they were. */
  lemma ContributorAuthor(out: Record)
    ensures var r := ContributorFields(out);
      r.Ok? && Truthy(Get(out, "contributors")) ==>
      out["contributors"].List? && RoleTaken(out["contributors"].items, Author, out, r.value)
  {
    var r := ContributorFields(out);
    if r.Ok? && Truthy(Get(out, "contributors")) {
      var xs := out["contributors"].items;
      var o1 := RoleFields(out, xs, Author).value;
      var o2 := RoleFields(o1, xs, Maintainer).value;
      var drop := FullyExtracted(xs).value;
      assert r.value == if drop then o2 - {"contributors"} else o2;
      RoleFieldsTaken(out, xs, Author);
      // the maintainer scan and the drop leave the author fields alone
      RoleTakenAcross(xs, Author, out, out, o1, r.value);
    }
  }

  /** The maintainer fields come from the first contributor whose role is
      'maintainer'; without one they are left as they were. */
  lemma ContributorMaintainer(out: Record)
    ensures var r := ContributorFields(out);
      r.Ok? && Truthy(Get(out, "contributors")) ==>
      out["contributors"].List? && RoleTaken(out["contributors"].items, Maintainer, out, r.value)
  {
    var r := ContributorFields(out);
    if r.Ok? && Truthy(Get(out, "contributors")) {
      var xs := out["contributors"].items;
      var o1 := RoleFields(out, xs, Author).value;
      var o2 := RoleFields(o1, xs, Maintainer).value;
      var drop := FullyExtracted(xs).value;
      assert r.value == if drop then o2 - {"contributors"} else o2;
      RoleFieldsTaken(o1, xs, Maintainer);
      // the author scan before it leaves the maintainer fields alone
      RoleTakenAcross(xs, Maintainer, out, o1, o2, r.value);
    }
  }

  /** The block `title`, `name`, `notes`, measurement technique and
      contributors, inside `try: ... except KeyError`. A non-string
      identifier has no `lower`, which is an AttributeError that escapes. */
  function DescriptiveFields(fd: Record, out: Record): (r: Outcome<Record>)
    ensures r.Raise? ==> r.exc == AttributeError || r.exc == TypeError
    ensures DescriptionReadable(fd) && Get(out, "contributors") == Get(fd, "contributors") ==> r.Ok?
    ensures r.Ok? ==> forall k :: k in r.value ==> k in out || k in DescriptiveWritten
    ensures r.Ok? ==> forall k :: k in out && k !in DescriptiveWritten && k != "contributors" ==>
      k in r.value && r.value[k] == out[k]
    ensures r.Ok? ==> forall k :: k in r.value && k !in DescriptiveWritten ==> r.value[k] == out[k]
    ensures r.Ok? && "name" in fd ==> "title" in r.value && r.value["title"] == fd["name"]
    ensures r.Ok? && "name" in fd && "identifier" in fd ==>
      fd["identifier"].Str? && "name" in r.value && r.value["name"] == Str(Lower(fd["identifier"].s))
    ensures r.Ok? && "name" in fd && "identifier" !in fd ==>
      ("name" in r.value <==> "name" in out) && ("name" in out ==> r.value["name"] == out["name"])
    ensures r.Ok? && "name" in fd && "identifier" in fd && "description" in fd ==>
      "notes" in r.value && r.value["notes"] == fd["description"]
  {
    if "name" !in fd then Ok(out) else
    var o1 := out["title" := fd["name"]];
    if "identifier" !in fd then Ok(o1) else
    if !fd["identifier"].Str? then Raise(AttributeError) else
    var o2 := o1["name" := Str(Lower(fd["identifier"].s))];
    if "description" !in fd then Ok(o2) else
    TitleKeys();
    TechniqueAndContributors(fd, o2["notes" := fd["description"]])
  }

  /** The `title`/`name`/`notes` block raises nothing: it stops before the
      identifier, or the identifier is a string and the technique and the
      contributors are readable. */
  predicate DescriptionReadable(fd: Record) {
    || "name" !in fd || "identifier" !in fd
    || (&& fd["identifier"].Str?
        && ("description" !in fd || "measurementTechnique" !in fd ||
            ((!Truthy(fd["measurementTechnique"]) || TechniqueReadable(fd["measurementTechnique"])) &&
             ContributorsReadable(Get(fd, "contributors")))))
  }

  lemma TitleKeys()
    ensures "title" !in TechniqueWritten && "name" !in TechniqueWritten && "notes" !in TechniqueWritten
    ensures "contributors" !in TechniqueWritten
  {
  }

  /** The rest of the block: the measurement technique, then the contributors. */
  function TechniqueAndContributors(fd: Record, out: Record): (r: Outcome<Record>)
    ensures r.Raise? ==> r.exc == AttributeError || r.exc == TypeError
    ensures "measurementTechnique" !in fd ==> r == Ok(out)
    ensures (r.Ok? && "measurementTechnique" in fd && Truthy(fd["measurementTechnique"]) &&
             TechniqueRead(fd["measurementTechnique"])) ==> TechniqueSet(fd["measurementTechnique"], r.value)
    ensures ("measurementTechnique" in fd &&
             (!Truthy(fd["measurementTechnique"]) || TechniqueReadable(fd["measurementTechnique"])) &&
             ContributorsReadable(Get(out, "contributors"))) ==> r.Ok?
    ensures r.Ok? ==> forall k :: k in r.value ==> k in out || k in TechniqueWritten
    ensures r.Ok? ==> forall k :: k in out && k !in TechniqueWritten && k != "contributors" ==>
      k in r.value && r.value[k] == out[k]
    ensures r.Ok? ==> forall k :: k in r.value && k !in TechniqueWritten ==> r.value[k] == out[k]
  {
    if "measurementTechnique" !in fd then Ok(out) else
    var mt := fd["measurementTechnique"];
    if !Truthy(mt) then ContributorFields(out) else
    match MeasurementFields(mt, out)
    case Stopped(o) => Ok(o)
    case Failed(e) => Raise(e)
    case Done(o) => ContributorFields(o)
  }

  /** `if 'url' in fddict: outdict['resources'] = _extract_resources(fddict)`. */
  function WithResources(fd: Record, out: Record): (r: Outcome<Record>)
    ensures "url" !in fd ==> r == Ok(out)
    ensures "url" in fd ==> (r.Raise? <==> ExtractResources(fd).Raise?)
    ensures r.Raise? ==> r == Raise(ExtractResources(fd).exc) && r.exc != KeyError(Field("datePublished"))
    ensures r.Ok? && "url" in fd ==> r.value == out["resources" := List(ExtractResources(fd).value)]
    ensures r.Ok? ==> r.value.Keys <= out.Keys + {"resources"}
    ensures r.Ok? ==> forall k :: k in out && k != "resources" ==> k in r.value && r.value[k] == out[k]
  {
    if "url" in fd then
      var rs :- ExtractResources(fd);
      Ok(out["resources" := List(rs)])
    else Ok(out)
  }

  /** `_extract_resources` is not called, or raises nothing. */
  predicate ResourcesReadable(fd: Record) {
    "url" !in fd || !Truthy(fd["url"]) || ("name" in fd && FormatReadable(fd))
  }

  /** The exceptions that escape `package`: the missing `datePublished` and
      the missing `name` of a resource, outside any `try`; and the
      non-KeyError failures inside the second `try`. */
  predicate PackageError(e: Exc) {
    || e == KeyError(Field("datePublished")) || e == KeyError(Field("name"))
    || e == TypeError || e == AttributeError
  }

  /** `_extract_resources` raises its KeyError('name'): a truthy url, no
      name, and a format whose first item can be read. */
  predicate NameMissing(fd: Record) {
    "url" in fd && Truthy(fd["url"]) && "name" !in fd && FormatReadable(fd)
  }

  /** Lines 102-143 of `package`: the structure block, `metadata_published`,
      the resources and the license. */
  function Early(fd: Record): (r: Outcome<Record>)
    ensures "datePublished" !in fd <==> r == Raise(KeyError(Field("datePublished")))
    ensures r.Ok? ==> Untouched(fd, r.value, "contributors")
    ensures r.Ok? ==> "metadata_published" in r.value &&
                      r.value["metadata_published"] == fd["datePublished"]
    ensures r.Ok? ==> forall k :: k in ChemistryWritten ==>
      (k in r.value <==> k in ChemistryFields(fd)) &&
      (k in r.value ==> r.value[k] == ChemistryFields(fd)[k])
    ensures r.Ok? ==> forall k :: k in r.value ==> k in fd || k in MapperWritten
    ensures r.Ok? ==> forall k :: k in r.value && k !in MapperWritten ==> r.value[k] == fd[k]
    ensures r.Ok? ==> forall k :: k in fd ==> k in r.value
    ensures r.Ok? && "url" in fd ==>
      ExtractResources(fd).Ok? && "resources" in r.value &&
      r.value["resources"] == List(ExtractResources(fd).value)
    ensures r.Ok? && "url" !in fd ==> Untouched(fd, r.value, "resources")
  {
    PublishedWrittenOnce();
    WrittenDisjoint();
    var o1 := ChemistryFields(fd);
    if "datePublished" !in fd then Raise(KeyError(Field("datePublished"))) else
    var o2 := o1["metadata_published" := fd["datePublished"]];
    var o3 :- WithResources(fd, o2);
    Ok(if "license" in fd then o3["license" := fd["license"]] else o3)
  }

  /** The exceptions the blocks before the descriptive one raise: a missing
      `datePublished`, or `_extract_resources` failing. */
  lemma EarlyOutcome(fd: Record)
    ensures var r := Early(fd);
      r.Raise? ==> r.exc == KeyError(Field("datePublished")) || r.exc == KeyError(Field("name")) || r.exc == TypeError
    ensures Early(fd) == Raise(KeyError(Field("name"))) <==> "datePublished" in fd && NameMissing(fd)
    ensures "datePublished" in fd && ResourcesReadable(fd) ==> Early(fd).Ok?
  {
    if "datePublished" in fd {
      var o2 := ChemistryFields(fd)["metadata_published" := fd["datePublished"]];
      assert Early(fd).Raise? <==> WithResources(fd, o2).Raise?;
    }
  }

  /** Lines 102-196 of `package`, before the final filter. */
  function Assembled(fd: Record): (r: Outcome<Record>)
    ensures "datePublished" !in fd <==> r == Raise(KeyError(Field("datePublished")))
    ensures r.Ok? ==> "metadata_published" in r.value &&
                      r.value["metadata_published"] == fd["datePublished"]
    ensures r.Ok? ==> forall k :: k in ChemistryWritten ==>
      (k in r.value <==> k in ChemistryFields(fd)) &&
      (k in r.value ==> r.value[k] == ChemistryFields(fd)[k])
    ensures r.Ok? ==> forall k :: k in r.value && k !in MapperWritten ==> k in fd && r.value[k] == fd[k]
    ensures r.Ok? ==> forall k :: k in fd && k !in MapperWritten && k != "contributors" ==> k in r.value
    ensures r.Ok? && "name" in fd ==> "title" in r.value && r.value["title"] == fd["name"]
    ensures r.Ok? && "name" in fd && "identifier" in fd ==>
      fd["identifier"].Str? && "name" in r.value && r.value["name"] == Str(Lower(fd["identifier"].s))
    ensures r.Ok? && "name" in fd && "identifier" !in fd ==> "name" in r.value && r.value["name"] == fd["name"]
    ensures r.Ok? && "name" in fd && "identifier" in fd && "description" in fd ==>
      "notes" in r.value && r.value["notes"] == fd["description"]
    ensures r.Ok? && "url" in fd ==>
      ExtractResources(fd).Ok? && "resources" in r.value &&
      r.value["resources"] == List(ExtractResources(fd).value)
    ensures r.Ok? && "url" !in fd ==> Untouched(fd, r.value, "resources")
  {
    PublishedWrittenOnce();
    WrittenDisjoint();
    var o4 :- Early(fd);
    DescriptiveFields(fd, o4)
  }

  /** The exceptions of the blocks before the filter, and when none is raised. */
  lemma AssembledOutcome(fd: Record)
    ensures Assembled(fd).Raise? ==> PackageError(Assembled(fd).exc)
    ensures Assembled(fd) == Raise(KeyError(Field("name"))) <==> "datePublished" in fd && NameMissing(fd)
    ensures "datePublished" in fd && ResourcesReadable(fd) && DescriptionReadable(fd) ==> Assembled(fd).Ok?
  {
    EarlyOutcome(fd);
    if Early(fd).Ok? {
      assert Assembled(fd) == DescriptiveFields(fd, Early(fd).value);
    }
  }

  /** `package`: the CKAN dataset dict for one data-package entry. It raises
      only the errors of `PackageError`, and succeeds whenever
      `datePublished` is present and the resources and the descriptive block
      are readable. */
  function Package(fd: Record): (r: Outcome<Record>)
    ensures "datePublished" !in fd <==> r == Raise(KeyError(Field("datePublished")))
    ensures r.Raise? ==> PackageError(r.exc)
    ensures r == Raise(KeyError(Field("name"))) <==> "datePublished" in fd && NameMissing(fd)
    ensures "datePublished" in fd && ResourcesReadable(fd) && DescriptionReadable(fd) ==> r.Ok?
    ensures r.Ok? ==> forall k :: k in r.value ==> Recognised(k)
    ensures r.Ok? ==> "contributors" !in r.value && "description" !in r.value
    ensures r.Ok? ==> "metadata_published" in r.value &&
                      r.value["metadata_published"] == fd["datePublished"]
  {
    ContributorsDropped();
    DescriptionDropped();
    PublishedKept();
    AssembledOutcome(fd);
    var a :- Assembled(fd);
    Ok(FilterKeys(a))
  }

  // ---------------------------------------------------------------------
  // Properties of `package`
  // ---------------------------------------------------------------------

  lemma WrittenRecognised()
    ensures forall k :: k in MapperWritten ==> k in CkanPackageKeys
  {
  }

  lemma ChemistryRecognised()
    ensures forall k :: k in ChemistryWritten ==> Recognised(k)
  {
    WrittenRecognised();
  }

  /** `inchi`, `inchi_key` and `smiles` are the source values when truthy and
      '' otherwise. Each holds once the block has reached the assignment,
      that is, once every source key read before it is present. */
  lemma PackageStructureFields(fd: Record)
    ensures Package(fd).Ok? && "inChI" in fd ==>
      var r := Package(fd).value;
      "inchi" in r && r["inchi"] == (if Truthy(fd["inChI"]) then fd["inChI"] else Str(""))
    ensures Package(fd).Ok? && "inChI" in fd && "inChIKey" in fd ==>
      var r := Package(fd).value;
      "inchi_key" in r && r["inchi_key"] == (if Truthy(fd["inChIKey"]) then fd["inChIKey"] else Str(""))
    ensures Package(fd).Ok? && "inChI" in fd && "inChIKey" in fd && "smiles" in fd ==>
      var r := Package(fd).value;
      "smiles" in r && r["smiles"] == (if Truthy(fd["smiles"]) then fd["smiles"] else Str(""))
  {
    ChemistryValues(fd);
    if Package(fd).Ok? {
      StructureKept(fd, "inchi");
      StructureKept(fd, "inchi_key");
      StructureKept(fd, "smiles");
    }
  }

  /** The structure block on its own, before the later blocks and the filter. */
  lemma ChemistryValues(fd: Record)
    ensures "inChI" in fd ==>
      "inchi" in ChemistryFields(fd) && ChemistryFields(fd)["inchi"] == OrEmpty(fd["inChI"])
    ensures "inChI" in fd && "inChIKey" in fd ==>
      "inchi_key" in ChemistryFields(fd) && ChemistryFields(fd)["inchi_key"] == OrEmpty(fd["inChIKey"])
    ensures "inChI" in fd && "inChIKey" in fd && "smiles" in fd ==>
      "smiles" in ChemistryFields(fd) && ChemistryFields(fd)["smiles"] == OrEmpty(fd["smiles"])
  {
  }

  /** `mol_formula` falls back from `molecularFormula` to
      `chemicalComposition` to '-', and `exactmass` is copied, once the block
      reaches the formula. */
  lemma PackageFormulaFields(fd: Record)
    ensures Package(fd).Ok? && FormulaReached(fd) ==>
      var r := Package(fd).value;
      && "mol_formula" in r
      && r["mol_formula"] == (if Truthy(fd["molecularFormula"]) then fd["molecularFormula"]
                              else if Truthy(fd["chemicalComposition"]) then fd["chemicalComposition"]
                              else Str("-"))
      && ("monoisotopicMolecularWeight" in fd ==>
            "exactmass" in r && r["exactmass"] == fd["monoisotopicMolecularWeight"])
  {
    if Package(fd).Ok? {
      StructureKept(fd, "mol_formula");
      StructureKept(fd, "exactmass");
    }
  }

  /** The later blocks and the filter leave the structure fields as the
      structure block set them. */
  lemma StructureKept(fd: Record, k: string)
    requires Package(fd).Ok? && k in ChemistryWritten
    ensures k in Package(fd).value <==> k in ChemistryFields(fd)
    ensures k in ChemistryFields(fd) ==> Package(fd).value[k] == ChemistryFields(fd)[k]
  {
    var a := Assembled(fd).value;
    ChemistryRecognised();
    FilterKeeps(a, k);
    assert Package(fd).value == FilterKeys(a);
  }

  /** Both formula fields present but falsy: the formula is the sentinel '-'. */
  lemma PackageFormulaSentinel(fd: Record)
    requires "inChI" in fd && "inChIKey" in fd && "smiles" in fd
    requires "molecularFormula" in fd && !Truthy(fd["molecularFormula"])
    requires "chemicalComposition" in fd && !Truthy(fd["chemicalComposition"])
    requires "datePublished" in fd
    ensures Package(fd).Ok? ==> Package(fd).value["mol_formula"] == Str("-")
  {
    PackageFormulaFields(fd);
  }

  /** The structure fields at and after a missing source key are not assigned:
      they are the input's own entries if it has them, and absent otherwise. */
  lemma PackageStructureAbort(fd: Record)
    ensures Package(fd).Ok? ==>
      var r := Package(fd).value;
      && ("inChI" !in fd ==> Untouched(fd, r, "inchi"))
      && ("inChI" !in fd || "inChIKey" !in fd ==> Untouched(fd, r, "inchi_key"))
      && ("inChI" !in fd || "inChIKey" !in fd || "smiles" !in fd ==> Untouched(fd, r, "smiles"))
      && (!FormulaReached(fd) ==> Untouched(fd, r, "mol_formula") && Untouched(fd, r, "exactmass"))
  {
    ChemistryAbort(fd);
    if Package(fd).Ok? {
      StructureKept(fd, "inchi");
      StructureKept(fd, "inchi_key");
      StructureKept(fd, "smiles");
      StructureKept(fd, "mol_formula");
      StructureKept(fd, "exactmass");
    }
  }

  lemma ChemistryAbort(fd: Record)
    ensures var r := ChemistryFields(fd);
      && ("inChI" !in fd ==> Untouched(fd, r, "inchi"))
      && ("inChI" !in fd || "inChIKey" !in fd ==> Untouched(fd, r, "inchi_key"))
      && ("inChI" !in fd || "inChIKey" !in fd || "smiles" !in fd ==> Untouched(fd, r, "smiles"))
      && (!FormulaReached(fd) ==> Untouched(fd, r, "mol_formula") && Untouched(fd, r, "exactmass"))
  {
  }

  /** The block reaches the `mol_formula` assignment. */
  predicate FormulaReached(fd: Record) {
    && "inChI" in fd && "inChIKey" in fd && "smiles" in fd && "molecularFormula" in fd
    && (Truthy(fd["molecularFormula"]) || "chemicalComposition" in fd)
  }

  /** Key `k` of the result is the input's own entry, or absent with it. */
  predicate Untouched(fd: Record, r: Record, k: string) {
    && (k in r <==> k in fd)
    && (k in fd ==> r[k] == fd[k])
  }

  /** `title` is the entry's `name`, `name` its lower-cased `identifier` and
      `notes` its `description`. Without an `identifier` the KeyError stops
      the block and `name` keeps the entry's own `name`. */
  lemma PackageNaming(fd: Record)
    ensures Package(fd).Ok? && "name" in fd ==>
      "title" in Package(fd).value && Package(fd).value["title"] == fd["name"]
    ensures Package(fd).Ok? && "name" in fd && "identifier" in fd ==>
      fd["identifier"].Str? && "name" in Package(fd).value &&
      Package(fd).value["name"] == Str(Lower(fd["identifier"].s))
    ensures Package(fd).Ok? && "name" in fd && "identifier" !in fd ==>
      "name" in Package(fd).value && Package(fd).value["name"] == fd["name"]
    ensures Package(fd).Ok? && "name" in fd && "identifier" in fd && "description" in fd ==>
      "notes" in Package(fd).value && Package(fd).value["notes"] == fd["description"]
  {
    if Package(fd).Ok? {
      var a := Assembled(fd).value;
      DescriptiveRecognised();
      FilterKeeps(a, "title");
      FilterKeeps(a, "name");
      FilterKeeps(a, "notes");
      assert Package(fd).value == FilterKeys(a);
    }
  }

  lemma DescriptiveRecognised()
    ensures Recognised("title") && Recognised("name") && Recognised("notes") && Recognised("resources")
  {
    WrittenRecognised();
  }

  /** With a `url` the resources are those `_extract_resources` derives;
      without one, `resources` is the entry's own. */
  lemma PackageResources(fd: Record)
    ensures Package(fd).Ok? && "url" in fd ==>
      ExtractResources(fd).Ok? && "resources" in Package(fd).value &&
      Package(fd).value["resources"] == List(ExtractResources(fd).value)
    ensures Package(fd).Ok? && "url" !in fd ==> Untouched(fd, Package(fd).value, "resources")
  {
    if Package(fd).Ok? {
      var a := Assembled(fd).value;
      DescriptiveRecognised();
      FilterKeeps(a, "resources");
      assert Package(fd).value == FilterKeys(a);
    }
  }

  /** The `title`...`contributors` block reaches the contributor scan: it
      has `name`, `identifier`, `description` and `measurementTechnique`,
      and a truthy technique has both `[0]['name']` and `[0]['url']`. */
  predicate ContributorsReached(fd: Record) {
    && "name" in fd && "identifier" in fd && "description" in fd && "measurementTechnique" in fd
    && (!Truthy(fd["measurementTechnique"]) || TechniqueRead(fd["measurementTechnique"]))
  }

  lemma ContributorRecognised()
    ensures Recognised("author") && Recognised("author_email")
    ensures Recognised("maintainer") && Recognised("maintainer_email")
  {
    WrittenRecognised();
  }

  /** What the contributor scan leaves in `r`, starting from `before`: when
      the scan is `reached` and `contributors` is truthy, author and
      maintainer are taken as `RoleTaken` says; otherwise the four
      contributor fields are as in `before`. */
  ghost predicate ContributorOutcome(reached: bool, before: Record, r: Record) {
    if reached && Truthy(Get(before, "contributors")) then
      && before["contributors"].List?
      && RoleTaken(before["contributors"].items, Author, before, r)
      && RoleTaken(before["contributors"].items, Maintainer, before, r)
    else
      RoleFieldsKept(before, r)
  }

  /** `r` has the four contributor fields of `before`, or lacks them with it. */
  predicate RoleFieldsKept(before: Record, r: Record) {
    && Untouched(before, r, "author") && Untouched(before, r, "author_email")
    && Untouched(before, r, "maintainer") && Untouched(before, r, "maintainer_email")
  }

  /** `ContributorOutcome` carries over to dicts that agree on the
      contributor fields and on `contributors`. */
  lemma ContributorOutcomeAcross(reached: bool, b0: Record, b1: Record, a: Record, c: Record)
    requires ContributorOutcome(reached, b1, a)
    requires RoleFieldsKept(b0, b1) && Untouched(b0, b1, "contributors")
    requires RoleFieldsKept(a, c)
    ensures ContributorOutcome(reached, b0, c)
  {
    if reached && Truthy(Get(b0, "contributors")) {
      var xs := b0["contributors"].items;
      RoleTakenAcross(xs, Author, b0, b1, a, c);
      RoleTakenAcross(xs, Maintainer, b0, b1, a, c);
    }
  }

  /** The scan runs exactly when the technique step completes or is skipped. */
  lemma TechniqueContributors(fd: Record, out: Record)
    ensures var r := TechniqueAndContributors(fd, out);
      r.Ok? ==> ContributorOutcome(
        "measurementTechnique" in fd &&
        (!Truthy(fd["measurementTechnique"]) || TechniqueRead(fd["measurementTechnique"])),
        out, r.value)
  {
    var r := TechniqueAndContributors(fd, out);
    if r.Ok? && "measurementTechnique" in fd {
      var mt := fd["measurementTechnique"];
      if !Truthy(mt) {
        ContributorAuthor(out);
        ContributorMaintainer(out);
      } else if TechniqueRead(mt) {
        var o := MeasurementFields(mt, out).out;
        assert r == ContributorFields(o);
        ContributorAuthor(o);
        ContributorMaintainer(o);
        ContributorOutcomeAcross(true, out, o, r.value, r.value);
      }
    }
  }

  /** The descriptive block on its own: it reaches the contributor scan
      exactly under `ContributorsReached`. */
  lemma DescriptiveContributors(fd: Record, out: Record)
    ensures var r := DescriptiveFields(fd, out);
      r.Ok? ==> ContributorOutcome(ContributorsReached(fd), out, r.value)
  {
    var r := DescriptiveFields(fd, out);
    if r.Ok? && "name" in fd && "identifier" in fd && "description" in fd {
      var o2 := out["title" := fd["name"]]["name" := Str(Lower(fd["identifier"].s))]["notes" := fd["description"]];
      assert r == TechniqueAndContributors(fd, o2);
      TechniqueContributors(fd, o2);
      ContributorOutcomeAcross(ContributorsReached(fd), out, o2, r.value, r.value);
    }
  }

  /** Author and maintainer of the dataset: once the descriptive block
      reaches a truthy `contributors`, they come from its first contributor
      of each role; when the block stops earlier or there are no
      contributors, the four fields are the entry's own. */
  lemma PackageContributors(fd: Record)
    ensures Package(fd).Ok? ==> ContributorOutcome(ContributorsReached(fd), fd, Package(fd).value)
  {
    if Package(fd).Ok? {
      var e := Early(fd).value;
      var a := DescriptiveFields(fd, e).value;
      assert Package(fd).value == FilterKeys(a);
      DescriptiveContributors(fd, e);
      EarlyContributors(fd);
      FilterContributors(a);
      ContributorOutcomeAcross(ContributorsReached(fd), fd, e, a, FilterKeys(a));
    }
  }

  /** The blocks before the descriptive one leave the contributor fields alone. */
  lemma EarlyContributors(fd: Record)
    ensures Early(fd).Ok? ==>
      RoleFieldsKept(fd, Early(fd).value) && Untouched(fd, Early(fd).value, "contributors")
  {
    if Early(fd).Ok? {
      var o1 := ChemistryFields(fd);
      var o2 := o1["metadata_published" := fd["datePublished"]];
      var o3 := WithResources(fd, o2).value;
      ChemistryKeepsRoles(fd);
      assert RoleFieldsKept(fd, o2) && Untouched(fd, o2, "contributors");
      assert RoleFieldsKept(fd, o3) && Untouched(fd, o3, "contributors");
      assert Early(fd).value == if "license" in fd then o3["license" := fd["license"]] else o3;
    }
  }

  lemma ChemistryKeepsRoles(fd: Record)
    ensures RoleFieldsKept(fd, ChemistryFields(fd))
  {
    WrittenDisjoint();
  }

  /** The filter keeps the contributor fields. */
  lemma FilterContributors(a: Record)
    ensures RoleFieldsKept(a, FilterKeys(a))
  {
    ContributorRecognised();
    FilterKeeps(a, "author");
    FilterKeeps(a, "author_email");
    FilterKeeps(a, "maintainer");
    FilterKeeps(a, "maintainer_email");
  }

  /** The descriptive block on its own: once it reaches a truthy technique
      whose `[0]['name']` and `[0]['url']` can be read, both are written. */
  lemma DescriptiveTechnique(fd: Record, out: Record)
    ensures var r := DescriptiveFields(fd, out);
      r.Ok? && ContributorsReached(fd) && Truthy(fd["measurementTechnique"]) ==>
      TechniqueSet(fd["measurementTechnique"], r.value)
  {
    var r := DescriptiveFields(fd, out);
    if r.Ok? && ContributorsReached(fd) {
      var o2 := out["title" := fd["name"]]["name" := Str(Lower(fd["identifier"].s))]["notes" := fd["description"]];
      assert r == TechniqueAndContributors(fd, o2);
    }
  }

  lemma TechniqueRecognised()
    ensures Recognised("measurement_technique") && Recognised("measurement_technique_iri")
  {
    WrittenRecognised();
  }

  /** `measurement_technique` and `measurement_technique_iri` of the dataset
      are the technique's `[0]['name']` and `[0]['url']` once the block
      reaches a truthy technique. */
  lemma PackageTechnique(fd: Record)
    ensures Package(fd).Ok? && ContributorsReached(fd) && Truthy(fd["measurementTechnique"]) ==>
      TechniqueSet(fd["measurementTechnique"], Package(fd).value)
  {
    if Package(fd).Ok? {
      var e := Early(fd).value;
      var a := DescriptiveFields(fd, e).value;
      assert Package(fd).value == FilterKeys(a);
      DescriptiveTechnique(fd, e);
      TechniqueRecognised();
      FilterKeeps(a, "measurement_technique");
      FilterKeeps(a, "measurement_technique_iri");
    }
  }

  /** Nothing else changes: every key of the result that `package` does not
      assign is the input's own entry, and every recognised key of the input
      that `package` does not assign is kept. */
  lemma PackageFrame(fd: Record)
    ensures Package(fd).Ok? ==> forall k :: k in Package(fd).value && k !in MapperWritten ==>
      k in fd && Package(fd).value[k] == fd[k]
    ensures Package(fd).Ok? ==> forall k :: k in fd && Recognised(k) && k !in MapperWritten ==>
      k in Package(fd).value
  {
    ContributorsDropped();
  }
}
