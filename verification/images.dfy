/** The structure-image cache that `_import_molecule_images` fills: one PNG
    per InChIKey under a fixed directory, rendered from the InChI only when
    the file is not there yet. */
module ImageCache {
  import opened PyValue

  /** The directory the images are written to. */
  const ImageRoot := "/var/lib/ckan/default/storage/images/"

  /** The files in the image directory: path to the InChI the image was
      drawn from. */
  type Images = map<string, Value>

  /** `str(inchi_key)`, with `strOf` standing for `str` on a non-string. */
  function KeyText(key: Value, strOf: Value -> string): string {
    if key.Str? then key.s else strOf(key)
  }

  /** The image path of an InChIKey. */
  function ImagePath(key: Value, strOf: Value -> string): (p: string)
    ensures |p| == |ImageRoot| + |KeyText(key, strOf)| + 4
    ensures p[..|ImageRoot|] == ImageRoot
    ensures p[|ImageRoot|..|p| - 4] == KeyText(key, strOf)
    ensures p[|p| - 4..] == ".png"
  {
    var p := ImageRoot + KeyText(key, strOf) + ".png";
    assert p[..|ImageRoot|] == ImageRoot;
    p
  }

  /** Two keys with different text never share an image path. */
  lemma ImagePathInjective(k1: Value, k2: Value, strOf: Value -> string)
    requires KeyText(k1, strOf) != KeyText(k2, strOf)
    ensures ImagePath(k1, strOf) != ImagePath(k2, strOf)
  {
  }

  /** Every file of `imgs` is still in `imgs'`, with the same picture. */
  predicate NeverOverwritten(imgs: Images, imgs': Images) {
    forall p :: p in imgs ==> p in imgs' && imgs'[p] == imgs[p]
  }

  predicate StartsWith(s: string, prefix: string) {
    |prefix| <= |s| && s[..|prefix|] == prefix
  }

  /** `_import_molecule_images`, with `renderOk` saying whether RDKit
      manages to draw the molecule (a failure is logged and swallowed).
      Reading the id, InChI or InChIKey raises a KeyError when it is
      missing; `startswith` on a non-string raises an AttributeError. */
  function ImportMoleculeImages(imgs: Images, pkg: Record, strOf: Value -> string, renderOk: bool): (r: Outcome<Images>)
    ensures r.Raise? <==> "id" !in pkg || "inchi" !in pkg || "inchi_key" !in pkg || !pkg["inchi"].Str?
    ensures r.Ok? ==> NeverOverwritten(imgs, r.value)
    ensures r.Ok? ==> r.value.Keys <= imgs.Keys + {ImagePath(pkg["inchi_key"], strOf)}
    ensures r.Ok? && r.value != imgs ==>
      && StartsWith(pkg["inchi"].s, "InChI")
      && ImagePath(pkg["inchi_key"], strOf) !in imgs
      && r.value == imgs[ImagePath(pkg["inchi_key"], strOf) := pkg["inchi"]]
    ensures r.Ok? && StartsWith(pkg["inchi"].s, "InChI") && renderOk ==>
      ImagePath(pkg["inchi_key"], strOf) in r.value
  {
    if "id" !in pkg then Raise(KeyError(Field("id")))
    else if "inchi" !in pkg then Raise(KeyError(Field("inchi")))
    else if "inchi_key" !in pkg then Raise(KeyError(Field("inchi_key")))
    else if !pkg["inchi"].Str? then Raise(AttributeError)
    else if !StartsWith(pkg["inchi"].s, "InChI") then Ok(imgs)
    else
      var path := ImagePath(pkg["inchi_key"], strOf);
      if path in imgs || !renderOk then Ok(imgs)
      else Ok(imgs[path := pkg["inchi"]])
  }

  /** Once a package's image exists, importing it again, whatever RDKit
      does, changes nothing: an image is drawn at most once. */
  lemma ImportAgainKeeps(imgs: Images, pkg: Record, strOf: Value -> string, renderOk: bool, renderOk': bool)
    requires ImportMoleculeImages(imgs, pkg, strOf, renderOk).Ok?
    requires renderOk
    ensures var imgs' := ImportMoleculeImages(imgs, pkg, strOf, renderOk).value;
            ImportMoleculeImages(imgs', pkg, strOf, renderOk') == Ok(imgs')
  {
  }

  /** Imports the images of a sequence of packages in order, stopping at the
      first raise; `renders` says whether RDKit draws each one. */
  function ImportAll(imgs: Images, pkgs: seq<Record>, strOf: Value -> string, renders: seq<bool>): (r: Outcome<Images>)
    requires |renders| == |pkgs|
    ensures r.Ok? ==> NeverOverwritten(imgs, r.value)
    decreases |pkgs|
  {
    if pkgs == [] then Ok(imgs)
    else
      var imgs1 :- ImportMoleculeImages(imgs, pkgs[0], strOf, renders[0]);
      ImportAll(imgs1, pkgs[1..], strOf, renders[1..])
  }

  /** Packages of one molecule, each with an InChI that gets it drawn. */
  predicate SameKeyDrawable(pkgs: seq<Record>, key: Value) {
    forall j :: 0 <= j < |pkgs| ==>
      && "id" in pkgs[j] && "inchi" in pkgs[j] && "inchi_key" in pkgs[j]
      && pkgs[j]["inchi_key"] == key
      && pkgs[j]["inchi"].Str? && StartsWith(pkgs[j]["inchi"].s, "InChI")
  }

  /** Importing packages of one molecule whose image is missing draws it
      exactly once: from the InChI of the first package RDKit renders,
      later packages leaving it as it is. */
  lemma {:induction false} ImportAllDrawsOnce(imgs: Images, pkgs: seq<Record>, strOf: Value -> string, renders: seq<bool>, key: Value, i: nat)
    requires |renders| == |pkgs|
    requires SameKeyDrawable(pkgs, key)
    requires ImagePath(key, strOf) !in imgs
    requires i < |pkgs| && renders[i] && forall j :: 0 <= j < i ==> !renders[j]
    ensures ImportAll(imgs, pkgs, strOf, renders) == Ok(imgs[ImagePath(key, strOf) := pkgs[i]["inchi"]])
    decreases |pkgs|
  {
    var path := ImagePath(key, strOf);
    var imgs1 := ImportMoleculeImages(imgs, pkgs[0], strOf, renders[0]).value;
    assert SameKeyDrawable(pkgs[1..], key) by {
      assert forall j :: 0 <= j < |pkgs[1..]| ==> pkgs[1..][j] == pkgs[j + 1];
    }
    if i == 0 {
      assert imgs1 == imgs[path := pkgs[0]["inchi"]];
      ImportAllKnown(imgs1, pkgs[1..], strOf, renders[1..], key);
    } else {
      assert imgs1 == imgs;
      ImportAllDrawsOnce(imgs, pkgs[1..], strOf, renders[1..], key, i - 1);
    }
  }

  /** With the image in place, importing more packages of the molecule
      changes nothing. */
  lemma {:induction false} ImportAllKnown(imgs: Images, pkgs: seq<Record>, strOf: Value -> string, renders: seq<bool>, key: Value)
    requires |renders| == |pkgs|
    requires SameKeyDrawable(pkgs, key)
    requires ImagePath(key, strOf) in imgs
    ensures ImportAll(imgs, pkgs, strOf, renders) == Ok(imgs)
    decreases |pkgs|
  {
    if pkgs != [] {
      assert ImportMoleculeImages(imgs, pkgs[0], strOf, renders[0]) == Ok(imgs);
      assert SameKeyDrawable(pkgs[1..], key) by {
        assert forall j :: 0 <= j < |pkgs[1..]| ==> pkgs[1..][j] == pkgs[j + 1];
      }
      ImportAllKnown(imgs, pkgs[1..], strOf, renders[1..], key);
    }
  }
}
