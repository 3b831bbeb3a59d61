# ckanext-datapackager ingestion core in Dafny

This project models the part of the `ckanext-datapackager` CKAN extension
that decides what gets written when chemistry data-package entries are
ingested into a CKAN catalog:

- the schema mapper (`package` and `_extract_resources` in
  `schema4chem_ckan_mapper.py`): a dict-to-dict translation that copies the
  structure fields (`inchi`, `inchi_key`, `smiles`, `mol_formula`,
  `exactmass`), derives the resource list from `url`, fills `title`, `name`,
  `notes`, the measurement technique, author and maintainer, and finally
  drops every key outside `ckan_package_keys` and `['extras']`;
- the dataset creation action `package_create_from_datapackage` in
  `create.py` with its helpers: catalog reconciliation
  (`_package_create_with_unique_name`, `_find_existing_package`), the
  duplicate-extras rule (`remove_extras_if_duplicates_exist`), the license
  lookup (`_extract_license_id`), resource creation (`_create_resources`
  and the upload helpers), the molecule store sync (`_send_to_db`) and the
  structure-image cache (`_import_molecule_images`).

Python values are a JSON-like `Value` datatype and dicts are
`map<string, Value>` (module `PyValue`). Every exception the modelled code
itself raises is a constructor of `Exc`; a failure of `toolkit.asbool` is
whatever the `Env` parameter standing for it returns. Every operation that
can raise returns an `Outcome` (`Ok` or `Raise`), so the error paths are
part of each contract. CKAN is modelled as a map from dataset id to stored
dict with `package_show`, `package_create` and `package_update`
(`CkanCatalog`). What CKAN decides internally is a parameter gathered in
`Env`: schema validation, `munge_title_to_name`, `toolkit.asbool`, the
license list, `resource_create`'s validation and the readable local files.
The molecule database is a map from InChIKey to row plus a set of
`(molecule id, dataset id)` links (`MoleculeSync`). The image directory is
a map from file path to the InChI it was drawn from (`ImageCache`). The
random name suffix, whether the existence lookup fails and whether RDKit
draws the image are chosen per entry by a `Luck` value.

Modules, in the order the code runs:

| module | file | models |
|---|---|---|
| `PyValue` | pyvalue.dfy | Python values, truthiness, `dict.get`, subscripting, `str.lower`, decimal digits |
| `CkanCatalog` | catalog.dfy | the CKAN actions the code calls |
| `Mapper` | mapper.dfy | `package`, `_extract_resources`, the key lists |
| `DatasetHelpers` | helpers.dfy | `remove_extras_if_duplicates_exist`, `_extract_license_id` |
| `Reconcile` | reconcile.dfy | `_package_create_with_unique_name`, `_find_existing_package` |
| `Resources` | resources.dfy | `_create_resources` and the upload helpers |
| `MoleculeSync` | molecules.dfy | `_send_to_db` |
| `ImageCache` | images.dfy | `_import_molecule_images` |
| `Ingest` | ingest.dfy | `package_create_from_datapackage` |

Behaviour of the code that the model reproduces as written:

- Reconciliation retries only when the `name` errors contain
  `'That URL is already in use.'`. It never retries on an id conflict.
  The existing-dataset path returns the stored dataset as it is and
  backfills neither the license nor the formula.
- Any other validation failure of `package_create` leaves `res` as `None`,
  and `'extras' in None` raises a TypeError (create.py:227-244).
- On the first `package_create`, a missing `license` raises KeyError after
  the dataset is stored, and the action fails; only the retry after a name
  clash catches that KeyError (create.py:224-225 against 236-240).
- A `measurementTechnique` whose first item has a `name` but no `url`
  leaves `measurement_technique` written without `measurement_technique_iri`,
  because the KeyError is swallowed after the first assignment
  (schema4chem_ckan_mapper.py:151-152).
- `_extract_license_id` has no `break`, so the last matching license wins.
- `_send_to_db` writes a link only together with a new molecule row. A
  stored molecule never gets a link to a later dataset, and a missing link
  is never repaired. Its errors are not caught: a missing field aborts the
  whole action.
- No compensating delete is attempted when resource creation fails; that
  code is commented out.
- `updated_datasets` is reset at the start of every iteration of the update
  loop (create.py:141). The action therefore returns at most the last
  successful update. When no entry is processed the name is unbound and the
  action raises. The url branch of the loader builds a data package but
  returns an empty list, so a request without a usable upload always ends
  that way.

## Model

| member | source | states |
|---|---|---|
| PyValue.Lower | ckanext/datapackager/logic/action/create.py:202 | `lower()` keeps the length, maps each character on its own and leaves no upper-case ASCII letter |
| PyValue.LowerIdempotent | ckanext/datapackager/logic/action/create.py:202 | lower-casing twice equals lower-casing once |
| Mapper.FilterKeys | ckanext/datapackager/logic/action/schema4chem_ckan_mapper.py:198-217 | the filter keeps exactly the keys in `ckan_package_keys` or `'extras'`, each with its value |
| Mapper.FilterKeysIdempotent | ckanext/datapackager/logic/action/schema4chem_ckan_mapper.py:198-217 | filtering an already filtered dict changes nothing |
| Mapper.WrittenRecognised | ckanext/datapackager/logic/action/schema4chem_ckan_mapper.py:28-68 | every key `package` assigns is in `ckan_package_keys`, so the filter never drops an assigned field |
| Mapper.FormulaFields | ckanext/datapackager/logic/action/schema4chem_ckan_mapper.py:121-129 | the formula step writes only `mol_formula` and `exactmass` and keeps every other key |
| Mapper.ChemistryFields | ckanext/datapackager/logic/action/schema4chem_ckan_mapper.py:102-133 | the structure block starts from a copy of the input, keeps every input key and writes only the five structure keys |
| Mapper.ChemistryValues | ckanext/datapackager/logic/action/schema4chem_ckan_mapper.py:105-119 | `inchi`, `inchi_key` and `smiles` are the source value when truthy and `''` otherwise, each once every source key read before it is present |
| Mapper.ChemistryAbort | ckanext/datapackager/logic/action/schema4chem_ckan_mapper.py:105-133 | a missing source key leaves that field and every later structure field as the input's own entry, because the exception is swallowed |
| Mapper.ExtractResources | ckanext/datapackager/logic/action/schema4chem_ckan_mapper.py:75-95 | a missing url raises KeyError; a falsy url gives `[]`; otherwise one resource with the entry's name and url and `format == resource_type == format[0]`, or "HTML" when `format` is missing or empty; a missing name raises |
| Mapper.WithResources | ckanext/datapackager/logic/action/schema4chem_ckan_mapper.py:138-139 | without `url` the dict is returned as it is; with one, `resources` is the list `_extract_resources` derives, the step raises exactly what `_extract_resources` raises, and every other key is kept |
| Mapper.MeasurementFields | ckanext/datapackager/logic/action/schema4chem_ckan_mapper.py:149-152 | the step completes exactly when `[0]['name']` and `[0]['url']` can be read, and then `measurement_technique` is the name and `measurement_technique_iri` the url; a KeyError on `[0]` or on `['name']` stops the block with the dict as it stands, and one on `['url']` stops it with `measurement_technique` already written; any other exception (IndexError, TypeError) escapes, and for a truthy technique it is a TypeError; a dict, or a list whose first item is a dict, never fails; only the two technique keys are written |
| Mapper.FirstContributor | ckanext/datapackager/logic/action/schema4chem_ckan_mapper.py:163-173 | the scan returns the first contributor of the role, None when there is none, and raises AttributeError on a non-dict before the match |
| Mapper.RoleFields | ckanext/datapackager/logic/action/schema4chem_ckan_mapper.py:163-173 | the first contributor of the role gives its `title` and `email` to the role's two keys; without one the dict is unchanged |
| Mapper.ContributorFields | ckanext/datapackager/logic/action/schema4chem_ckan_mapper.py:162-193 | a falsy `contributors` changes nothing; a truthy non-list raises; a list of dicts never raises; any raise is an AttributeError or TypeError; only author and maintainer keys are written, and `contributors` alone may be removed |
| Mapper.ContributorAuthor | ckanext/datapackager/logic/action/schema4chem_ckan_mapper.py:163-167 | `author` and `author_email` come from the `title` and `email` of the first contributor whose role is None or 'author'; without one both are left as they were |
| Mapper.ContributorMaintainer | ckanext/datapackager/logic/action/schema4chem_ckan_mapper.py:169-173 | `maintainer` and `maintainer_email` come from the `title` and `email` of the first contributor whose role is 'maintainer'; without one both are left as they were |
| Mapper.TechniqueAndContributors | ckanext/datapackager/logic/action/schema4chem_ckan_mapper.py:149-193 | without `measurementTechnique` nothing changes; a truthy technique whose `[0]['name']` and `[0]['url']` can be read gives the two technique keys those values; only TypeError or AttributeError escape, none when the technique and the contributors are readable; only technique and contributor keys are written |
| Mapper.TechniqueContributors | ckanext/datapackager/logic/action/schema4chem_ckan_mapper.py:149-193 | the contributor scan runs exactly when the technique step completes or is skipped, and then takes author and maintainer from the first contributor of each role |
| Mapper.DescriptiveFields | ckanext/datapackager/logic/action/schema4chem_ckan_mapper.py:144-196 | `title` is `name`, `name` is the lower-cased `identifier`, `notes` is `description`, each once the keys before it exist; a KeyError stops the block and is caught; only AttributeError or TypeError escape, none when the block is readable |
| Mapper.DescriptiveContributors | ckanext/datapackager/logic/action/schema4chem_ckan_mapper.py:144-196 | the block reaches the contributor scan exactly when `name`, `identifier`, `description` and `measurementTechnique` are present and the technique step completes or is skipped; otherwise the four contributor fields are left as they were |
| Mapper.Early | ckanext/datapackager/logic/action/schema4chem_ckan_mapper.py:102-142 | `metadata_published` is `datePublished`, whose absence raises; the structure fields are the structure block's; resources come from `_extract_resources` when `url` is present |
| Mapper.EarlyOutcome | ckanext/datapackager/logic/action/schema4chem_ckan_mapper.py:102-142 | before the descriptive block, only a missing `datePublished` or `_extract_resources` raises: KeyError('name') exactly for a truthy url without a name, otherwise a TypeError on the format |
| Mapper.AssembledOutcome | ckanext/datapackager/logic/action/schema4chem_ckan_mapper.py:102-196 | every exception before the filter is one `PackageError` lists, and none is raised when `datePublished` is present and the resources and the descriptive block are readable |
| Mapper.Assembled | ckanext/datapackager/logic/action/schema4chem_ckan_mapper.py:102-196 | the dict before the filter: every key the code does not assign is the input's own, and the assigned ones have the values above |
| Mapper.Package | ckanext/datapackager/logic/action/schema4chem_ckan_mapper.py:98-219 | a missing `datePublished` is its KeyError; a truthy url without a name is KeyError('name'); any other raise is a TypeError or AttributeError from the format, the identifier, the technique or the contributors; with `datePublished` present and those parts readable it succeeds; every key of the result is recognised; `contributors` and `description` never survive |
| Mapper.StructureKept | ckanext/datapackager/logic/action/schema4chem_ckan_mapper.py:135-217 | the later blocks and the filter leave each structure field as the structure block set it |
| Mapper.PackageStructureFields | ckanext/datapackager/logic/action/schema4chem_ckan_mapper.py:105-119 | in the result, `inchi`, `inchi_key` and `smiles` are the source values when truthy and `''` otherwise |
| Mapper.PackageFormulaFields | ckanext/datapackager/logic/action/schema4chem_ckan_mapper.py:121-129 | `mol_formula` is `molecularFormula` if truthy, else `chemicalComposition` if truthy, else '-', and `exactmass` is `monoisotopicMolecularWeight` |
| Mapper.PackageFormulaSentinel | ckanext/datapackager/logic/action/schema4chem_ckan_mapper.py:121-127 | with both formula sources present and falsy, the formula is '-' |
| Mapper.PackageStructureAbort | ckanext/datapackager/logic/action/schema4chem_ckan_mapper.py:105-133 | a missing source key leaves that structure field and all later ones as the input's own, including `exactmass` |
| Mapper.PackageNaming | ckanext/datapackager/logic/action/schema4chem_ckan_mapper.py:144-147 | `title` is the input `name`, `name` its lower-cased `identifier` (or the input `name` when there is no identifier), `notes` its `description` |
| Mapper.PackageResources | ckanext/datapackager/logic/action/schema4chem_ckan_mapper.py:138-139 | with a `url`, `resources` is what `_extract_resources` derives; without one it is the input's own |
| Mapper.DescriptiveTechnique | ckanext/datapackager/logic/action/schema4chem_ckan_mapper.py:144-152 | when `name`, `identifier` and `description` are present, a truthy technique whose `[0]['name']` and `[0]['url']` can be read sets `measurement_technique` and `measurement_technique_iri` to them |
| Mapper.PackageTechnique | ckanext/datapackager/logic/action/schema4chem_ckan_mapper.py:144-152 | in the result, when the entry has `name`, `identifier` and `description`, a truthy technique whose `[0]['name']` and `[0]['url']` can be read gives `measurement_technique` the name and `measurement_technique_iri` the url |
| Mapper.PackageContributors | ckanext/datapackager/logic/action/schema4chem_ckan_mapper.py:144-193 | in the result, author and maintainer come from the first contributor of each role once the block reaches a truthy `contributors`; when it stops earlier or there are none, the four fields are the entry's own |
| Mapper.PackageFrame | ckanext/datapackager/logic/action/schema4chem_ckan_mapper.py:198-217 | every unassigned key of the result is the input's own entry, and every recognised unassigned input key is kept |
| DatasetHelpers.KeysOf | ckanext/datapackager/logic/action/create.py:251 | the key list succeeds exactly when every entry has a 'key', and then lists them in order |
| DatasetHelpers.AnyIn | ckanext/datapackager/logic/action/create.py:255 | true only when some key is a top-level key, false only when none is; all-string keys never raise |
| DatasetHelpers.RemoveExtras | ckanext/datapackager/logic/action/create.py:249-260 | a colliding extras key empties `extras`; otherwise the dict is returned unchanged; no other key changes; no collision remains; well-formed extras never raise |
| DatasetHelpers.RemoveExtrasIdempotent | ckanext/datapackager/logic/action/create.py:249-260 | applying the rule twice equals applying it once |
| DatasetHelpers.ScanLicenses | ckanext/datapackager/logic/action/create.py:339-343 | a later match overwrites an earlier one |
| DatasetHelpers.ExtractLicenseId | ckanext/datapackager/logic/action/create.py:335-345 | the id of the last license whose id, url or title equals the content's license; None exactly when none does |
| Reconcile.Prepare | ckanext/datapackager/logic/action/create.py:202-203 | `name` becomes the lower-cased identifier and `id` its munged form, everything else kept; a missing identifier is a KeyError, a non-string one an AttributeError |
| Reconcile.FindExisting | ckanext/datapackager/logic/action/create.py:348-358 | the lookup is truthy exactly when it does not fail and the id is stored, and then it is the stored dataset |
| Reconcile.WithLicense | ckanext/datapackager/logic/action/create.py:224-225 | a truthy license sets `license_id` to the looked-up id (None when unmatched); a falsy one leaves the dict; a missing one raises KeyError |
| Reconcile.RetriedName | ckanext/datapackager/logic/action/create.py:231-233 | the retried name is the name, a '-' and between one and ten digits |
| Reconcile.RetriedNameParses | ckanext/datapackager/logic/action/create.py:231-233 | the retried name reads back into the original name and the random number |
| Reconcile.Retry | ckanext/datapackager/logic/action/create.py:230-240 | the second `package_create` under the suffixed name; a truthy license sets `license_id` to the looked-up id; a missing license's KeyError is caught and the stored dataset is returned; every other submitted field is kept; a rejected create raises a ValidationError and stores nothing; only the dataset's own id can be added |
| Reconcile.CreatePath | ckanext/datapackager/logic/action/create.py:219-244 | `package_create` is called twice exactly when the name is reported in use; another validation failure raises TypeError and leaves the catalog unchanged; after a single successful create every submitted field but `license_id` and `extras` is kept, a truthy license sets `license_id` to the looked-up id, and a missing license raises KeyError('license') with the dataset already stored, since only the retry catches it; nothing stored is replaced |
| Reconcile.CreateWithUniqueName | ckanext/datapackager/logic/action/create.py:196-246 | a found dataset is returned with no `package_create` and no catalog change; otherwise the create path runs; the result never has colliding extras |
| Reconcile.SecondRunReuses | ckanext/datapackager/logic/action/create.py:205-217 | once a run stored the dataset, a second run reuses it and leaves the catalog unchanged |
| Resources.UploadCall | ckanext/datapackager/logic/action/create.py:319-328 | an upload sets url 'url' and url_type 'upload', and raises exactly when `resource_create` rejects it |
| Resources.CreateResource | ckanext/datapackager/logic/action/create.py:264-316 | every call carries `package_id`; truthy data, or a truthy path naming a readable file, makes exactly one upload call with that key deleted, which raises exactly when `resource_create` rejects it; an unreadable path raises the 'datapackage' ValidationError and a non-string path a TypeError, with no call; a link takes a list url's first element and never raises; a missing url is a KeyError and an empty list url an IndexError |
| Resources.CreateAll | ckanext/datapackager/logic/action/create.py:263-283 | the calls are the per-resource calls, in order, up to the first raise |
| Resources.CreateAllStopsAtFirst | ckanext/datapackager/logic/action/create.py:263-283 | a raise of the loop is the raise of the first resource that fails: every resource before it made its one call and raised nothing |
| Resources.CreateResources | ckanext/datapackager/logic/action/create.py:263-265 | a list is processed element by element; an empty dict or string does nothing; any other value raises |
| Resources.LinksNeverRaise | ckanext/datapackager/logic/action/create.py:270-282 | a list of non-empty links is created in full and never raises |
| MoleculeSync.FirstMissing | ckanext/datapackager/logic/action/create.py:366-374 | the first field read that is missing, or none exactly when all are present |
| MoleculeSync.SendToDb | ckanext/datapackager/logic/action/create.py:360-415 | a missing field raises the KeyError of the first field read that is missing; a known InChIKey writes nothing; a new one adds one row with the next id and exactly one link to this dataset |
| MoleculeSync.SendToDbPreservesInv | ckanext/datapackager/logic/action/create.py:389-396 | the store stays well formed: distinct ids, rows under their own key, links to stored rows |
| MoleculeSync.SendToDbIdempotent | ckanext/datapackager/logic/action/create.py:389-399 | syncing a package twice writes what syncing it once writes |
| MoleculeSync.SyncAll | ckanext/datapackager/logic/action/create.py:389-399 | no row or link is ever removed or changed by a run of syncs |
| MoleculeSync.SyncAllSameMolecule | ckanext/datapackager/logic/action/create.py:389-399 | packages of one new molecule give one row and a single link, to the first package |
| MoleculeSync.SyncKnown | ckanext/datapackager/logic/action/create.py:389-399 | packages of a stored molecule change nothing |
| ImageCache.ImagePath | ckanext/datapackager/logic/action/create.py:428 | the path is the image directory, the InChIKey text and '.png' |
| ImageCache.ImagePathInjective | ckanext/datapackager/logic/action/create.py:428 | different InChIKey texts never share a path |
| ImageCache.ImportMoleculeImages | ckanext/datapackager/logic/action/create.py:418-438 | raises exactly when id, inchi or inchi_key is missing or inchi is not a string; changes only by drawing a missing image for an InChI-prefixed package; never overwrites |
| ImageCache.ImportAgainKeeps | ckanext/datapackager/logic/action/create.py:429-433 | once the image exists, a second import changes nothing |
| ImageCache.ImportAll | ckanext/datapackager/logic/action/create.py:418-438 | a run of imports never overwrites an image |
| ImageCache.ImportAllDrawsOnce | ckanext/datapackager/logic/action/create.py:424-433 | packages of one molecule draw its image once, from the first package RDKit renders |
| ImageCache.ImportAllKnown | ckanext/datapackager/logic/action/create.py:429-430 | with the image in place, further packages of the molecule change nothing |
| Ingest.Prepared | ckanext/datapackager/logic/action/create.py:83-100 | owner and visibility are set when given, the identifier must be a string, the state is 'draft', the resources are `dataset_dict.get('resources', [])`, other keys are kept |
| Ingest.Publish | ckanext/datapackager/logic/action/create.py:127-133 | the dataset is active, synced and drawn, with no colliding extras, and every other field but `extras` is kept; the catalog is untouched and the store stays well formed |
| Ingest.Attach | ckanext/datapackager/logic/action/create.py:104-133 | a missing id raises; the resource calls are appended before publishing; the published dataset keeps its id and every field of the catalog's dataset but `state` and `extras` |
| Ingest.Placed | ckanext/datapackager/logic/action/create.py:102-133 | the catalog is the reconciled one; a reconciliation error is the result; an accepted dataset is the reconciled one with every field but `state` and `extras` kept, active, collision-free and its molecule stored |
| Ingest.IngestOne | ckanext/datapackager/logic/action/create.py:79-136 | one entry never removes anything from the world; a `package` error is the result and changes nothing; an accepted dataset is the one `_package_create_with_unique_name` returned for the mapped and prepared entry, with every field but `state` and `extras` kept, active, collision-free and its molecule stored |
| Ingest.IngestAll | ckanext/datapackager/logic/action/create.py:78-136 | `res_to_send` has one finished dataset per entry, and every entry was one `package` maps; otherwise the first exception ends the action: every entry before the failing one was mapped, and if `package` rejects the failing entry its exception is the one raised |
| Ingest.UpdateOne | ckanext/datapackager/logic/action/create.py:141-150 | a successful update is returned and stored; a failed one is swallowed when the dataset has an id and raises KeyError when it has none |
| Ingest.UpdateAll | ckanext/datapackager/logic/action/create.py:139-152 | no dataset raises unbound; the result holds at most the last dataset, stored under its id; the catalog's ids are unchanged |
| Ingest.UpdateAllUntouched | ckanext/datapackager/logic/action/create.py:139-152 | a stored dataset no update names is left as it was |
| Ingest.PackageCreateFromDatapackage | ckanext/datapackager/logic/action/create.py:43-152 | no url and no upload is the 'url' ValidationError; no entries raises; nothing is removed from the catalog, store or images; at most one dataset is returned, active and stored |
| Ingest.ExtractedResourcesAreLinks | ckanext/datapackager/logic/action/schema4chem_ckan_mapper.py:87-94 | the resource `_extract_resources` derives is a link, so `_create_resources` makes one call and never raises |
| Ingest.MappedResourcesAreLinks | ckanext/datapackager/logic/action/create.py:96-106 | the resources of a mapped entry with a url never make `_create_resources` raise |

## Left out

- `delete.py` and `auth/delete.py`: the purge action and its authorisation are not part of this model.
- `_load_and_validate_datapackage` and `_upload_attribute_is_valid`: loading and decoding the upload, the `datapackage` library and the CKAN version check are I/O. The entries are a parameter and the upload's validity a flag. The loader's own ValidationError is not modelled.
- `_create_and_upload_resource_with_inline_data` and `_create_and_upload_local_resource`: temporary files, `json.dumps` of the inline data, the file prefix and the `upload` file object are file I/O. Only which resource dict reaches `resource_create` is modelled, and readability of a local path is a parameter.
- Resources.CreateResource: an integer `path` that `open` would accept as a file descriptor is modelled as a TypeError.
- Resources.CreateResource: a `resource_create` failure on a link is swallowed as in the code; `resource_create`'s effect on the stored dataset is not modelled.
- Python aliasing: the resource dicts the loop mutates are shared with the dataset dict in the code; the model treats them as values.
- MoleculeSync.SendToDb: the psycopg2 connection, credentials, SQL text and the ORM classes are database plumbing; connection failures are not modelled, and the new row's id is the store's next id.
- ImageCache.ImportMoleculeImages: RDKit's `MolFromInchi` and `MolToFile` are foreign calls; whether drawing succeeds is a parameter, and a failed drawing writes nothing.
- Logging and `print` are not modelled.
- Mapper.Package: the condition under which it succeeds is sufficient, not necessary. A string identifier with a non-list technique that stops on a KeyError, or contributors whose non-dict entries come after both role matches in a list longer than two, also succeed, and the lemma does not list them.
- PyValue.Lower: `str.lower` is modelled on ASCII letters only.
- Value equality is structural. Python's `1 == True` and `1 == 1.0` are not modelled, and numbers are integers because floating point is left out.
- Dict ordering is not modelled: dicts are maps.
- `munge_title_to_name`, `toolkit.asbool`, `str()` of a non-string, CKAN's schema validation and the license list are left uninterpreted, as parameters.
- CkanCatalog.Create: only the name-in-use and id-exists checks are modelled explicitly; everything else CKAN validates is the `schemaErrors` parameter.
