/** `_create_resources`: every resource of a dataset is attached to the
    dataset id and handed to `resource_create`, either as an upload (inline
    data or a local file) or as a link. Only the upload branches can make
    the loop raise; a rejected link is silently dropped. */
module Resources {
  import opened PyValue
  import opened CkanCatalog

  /** One `resource_create` call: the resource dict passed, and whether it
      went through `_create_and_upload_resource`. */
  datatype ResourceCall = ResourceCall(resource: Record, upload: bool)

  /** The `resource_create` calls made, in order, and the exception that
      ended the loop, if any. */
  datatype Calls = Calls(made: seq<ResourceCall>, raised: Option<Exc>)

  /** The ValidationError message for a local file that cannot be opened. */
  const UnreadableMsg := "Couldn't create some of the resources. Please make sure that all resources' files are accessible."

  /** The keys `_create_resources` and its helpers write or delete. */
  const Rewritten: set<string> := {"package_id", "data", "path", "url", "url_type"}

  /** `_create_and_upload_resource`: the resource is marked as an upload and
      created; CKAN's rejection escapes as a ValidationError. The file
      object under 'upload' is not modelled. */
  function UploadCall(env: Env, res: Record): (r: Calls)
    ensures |r.made| == 1 && r.made[0].upload
    ensures r.made[0].resource == res["url" := Str("url")]["url_type" := Str("upload")]
    ensures r.raised.Some? <==> env.resourceErrors(r.made[0].resource) != map[]
    ensures r.raised.Some? ==> r.raised.value == ValidationError(env.resourceErrors(r.made[0].resource))
  {
    var res' := res["url" := Str("url")]["url_type" := Str("upload")];
    var errors := env.resourceErrors(res');
    Calls([ResourceCall(res', true)], if errors == map[] then None else Some(ValidationError(errors)))
  }

  /** The call made for `resource` keeps every key it does not rewrite and
      carries the dataset id. */
  predicate Shaped(c: ResourceCall, resource: Record, datasetId: Value) {
    && "package_id" in c.resource && c.resource["package_id"] == datasetId
    && (forall k :: k in resource && k !in Rewritten ==> k in c.resource && c.resource[k] == resource[k])
    && (forall k :: k in c.resource && k !in Rewritten ==> k in resource)
  }

  /** `path[0] if isinstance(path, list) else path`, for a truthy path. */
  function LocalPath(path: Value): (p: Value)
    requires Truthy(path)
  {
    if path.List? then path.items[0] else path
  }

  /** The body of the loop for one resource. */
  function CreateResource(env: Env, datasetId: Value, resource: Value): (r: Calls)
    ensures |r.made| <= 1
    ensures r.raised.None? ==> |r.made| == 1
    ensures !resource.Dict? ==> r == Calls([], Some(TypeError))
    ensures |r.made| == 1 ==> resource.Dict? && Shaped(r.made[0], resource.fields, datasetId)
    ensures |r.made| == 1 ==>
      (r.made[0].upload <==> Truthy(Get(resource.fields, "data")) || Truthy(Get(resource.fields, "path")))
    ensures |r.made| == 1 && r.made[0].upload ==>
      && "url" in r.made[0].resource && r.made[0].resource["url"] == Str("url")
      && "url_type" in r.made[0].resource && r.made[0].resource["url_type"] == Str("upload")
      && (Truthy(Get(resource.fields, "data")) ==> "data" !in r.made[0].resource)
      && (!Truthy(Get(resource.fields, "data")) ==> "path" !in r.made[0].resource)
    ensures |r.made| == 1 && !r.made[0].upload ==> r.raised.None?
    ensures |r.made| == 1 && r.made[0].upload ==>
      && (r.raised.Some? <==> env.resourceErrors(r.made[0].resource) != map[])
      && (r.raised.Some? ==> r.raised.value == ValidationError(env.resourceErrors(r.made[0].resource)))
    ensures resource.Dict? && Truthy(Get(resource.fields, "data")) ==> |r.made| == 1 && r.made[0].upload
    ensures resource.Dict? && !Truthy(Get(resource.fields, "data")) && Truthy(Get(resource.fields, "path")) ==>
      var p := LocalPath(resource.fields["path"]);
      && (p.Str? && p.s in env.readable ==> |r.made| == 1 && r.made[0].upload)
      && (p.Str? && p.s !in env.readable ==> r == Calls([], Some(ValidationError(map["datapackage" := [UnreadableMsg]]))))
      && (!p.Str? ==> r == Calls([], Some(TypeError)))
    ensures resource.Dict? && !Truthy(Get(resource.fields, "data")) && !Truthy(Get(resource.fields, "path")) ==>
      ("url" !in resource.fields <==> r == Calls([], Some(KeyError(Field("url")))))
    ensures resource.Dict? && !Truthy(Get(resource.fields, "data")) && !Truthy(Get(resource.fields, "path")) &&
            "url" in resource.fields ==>
      if resource.fields["url"] == List([]) then r == Calls([], Some(IndexError))
      else |r.made| == 1 && "url" in r.made[0].resource && r.made[0].resource["url"] ==
             (if resource.fields["url"].List? then resource.fields["url"].items[0] else resource.fields["url"])
  {
    match resource
    case Dict(m) =>
      var res := m["package_id" := datasetId];
      if Truthy(Get(res, "data")) then
        // `_create_and_upload_resource_with_inline_data`: the data goes to a
        // temporary file and is removed from the dict
        UploadCall(env, res - {"data"})
      else if Truthy(Get(res, "path")) then
        var p := LocalPath(res["path"]);
        if p.Str? && p.s in env.readable then UploadCall(env, res - {"path"})
        else if p.Str? then Calls([], Some(ValidationError(map["datapackage" := [UnreadableMsg]])))
        else Calls([], Some(TypeError))
      else if "url" !in res then Calls([], Some(KeyError(Field("url"))))
      else
        var url := res["url"];
        if url.List? && |url.items| == 0 then Calls([], Some(IndexError))
        else
          // whatever `resource_create` raises for a link is swallowed
          var res' := if url.List? then res["url" := url.items[0]] else res;
          Calls([ResourceCall(res', false)], None)
    case _ => Calls([], Some(TypeError))
  }

  /** The loop over a list of resources, stopping at the first raise. */
  function CreateAll(env: Env, datasetId: Value, xs: seq<Value>): (r: Calls)
    ensures |r.made| <= |xs|
    ensures r.raised.None? ==> |r.made| == |xs|
    ensures forall i :: 0 <= i < |r.made| ==>
      |CreateResource(env, datasetId, xs[i]).made| == 1 && r.made[i] == CreateResource(env, datasetId, xs[i]).made[0]
    ensures r.raised.Some? ==> exists i :: 0 <= i < |xs| && CreateResource(env, datasetId, xs[i]).raised == r.raised
    decreases |xs|
  {
    if xs == [] then Calls([], None)
    else
      var first := CreateResource(env, datasetId, xs[0]);
      if first.raised.Some? then first
      else
        var rest := CreateAll(env, datasetId, xs[1..]);
        assert forall i :: 1 <= i < |xs| ==> xs[i] == xs[1..][i - 1];
        Calls(first.made + rest.made, rest.raised)
  }

  /** Every call made carries the dataset id and keeps the keys its resource
      had, as `CreateResource` promises for each. */
  lemma CreateAllShaped(env: Env, datasetId: Value, xs: seq<Value>)
    ensures var r := CreateAll(env, datasetId, xs);
      forall i :: 0 <= i < |r.made| ==> xs[i].Dict? && Shaped(r.made[i], xs[i].fields, datasetId)
  {
  }

  /** `xs[i]` is the first resource whose creation raises: every resource
      before it was created with one call each, and the loop's calls are
      those and the ones `xs[i]` made before raising. */
  predicate FirstRaise(env: Env, datasetId: Value, xs: seq<Value>, i: int, r: Calls)
  {
    && 0 <= i < |xs|
    && (forall j :: 0 <= j < i ==> CreateResource(env, datasetId, xs[j]).raised.None?)
    && CreateResource(env, datasetId, xs[i]).raised == r.raised
    && |r.made| == i + |CreateResource(env, datasetId, xs[i]).made|
  }

  /** A raise of the loop is the raise of the first resource that fails. */
  lemma {:induction false} CreateAllStopsAtFirst(env: Env, datasetId: Value, xs: seq<Value>)
    ensures var r := CreateAll(env, datasetId, xs);
      r.raised.Some? ==> exists i :: FirstRaise(env, datasetId, xs, i, r)
    decreases |xs|
  {
    var r := CreateAll(env, datasetId, xs);
    if xs != [] && r.raised.Some? {
      var first := CreateResource(env, datasetId, xs[0]);
      if first.raised.Some? {
        assert FirstRaise(env, datasetId, xs, 0, r);
      } else {
        var rest := CreateAll(env, datasetId, xs[1..]);
        CreateAllStopsAtFirst(env, datasetId, xs[1..]);
        var k :| FirstRaise(env, datasetId, xs[1..], k, rest);
        assert forall j :: 1 <= j < |xs| ==> xs[j] == xs[1..][j - 1];
        assert FirstRaise(env, datasetId, xs, k + 1, r);
      }
    }
  }

  /** `_create_resources`: iterating a non-empty dict or string yields
      strings, which reject item assignment; None, booleans and numbers are
      not iterable. */
  function CreateResources(env: Env, datasetId: Value, resources: Value): (r: Calls)
    ensures resources.List? ==> r == CreateAll(env, datasetId, resources.items)
    ensures !resources.List? ==> r.made == []
    ensures !resources.List? ==> (r.raised.None? <==> !Truthy(resources) && (resources.Dict? || resources.Str?))
  {
    match resources
    case List(xs) => CreateAll(env, datasetId, xs)
    case Dict(m) => if |m| == 0 then Calls([], None) else Calls([], Some(TypeError))
    case Str(s) => if |s| == 0 then Calls([], None) else Calls([], Some(TypeError))
    case _ => Calls([], Some(TypeError))
  }

  /** A list of links, none of them empty, is always created in full: one
      call per resource, and the loop never raises. */
  lemma {:induction false} LinksNeverRaise(env: Env, datasetId: Value, xs: seq<Value>)
    requires forall i :: 0 <= i < |xs| ==>
      && xs[i].Dict? && !Truthy(Get(xs[i].fields, "data")) && !Truthy(Get(xs[i].fields, "path"))
      && "url" in xs[i].fields && xs[i].fields["url"] != List([])
    ensures CreateAll(env, datasetId, xs).raised.None?
    ensures forall i :: 0 <= i < |xs| ==> !CreateAll(env, datasetId, xs).made[i].upload
    decreases |xs|
  {
    if xs != [] {
      LinksNeverRaise(env, datasetId, xs[1..]);
    }
  }
}
