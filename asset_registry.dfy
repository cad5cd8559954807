// The name-keyed lookup the asset handlers inherit from core.BaseAssetHandler:
// Items maps an asset name to the identifier of its instance, and the instance
// registry maps identifiers to objects. core.BaseAssetHandler itself is not part
// of this model; its GetAsset is modelled as a lookup through both maps that
// fails with a not-found error at either step.

module AssetRegistry {
  import opened Common

  /** The concrete type of a registered object, as far as the handlers ask. */
  datatype AssetKind = Texture2DKind | MeshKind | OtherKind

  /** GetAsset: the kind of the object registered under name. */
  function GetAsset(items: map<string, int>, instances: map<int, AssetKind>, name: string): (r: Result<AssetKind>)
    ensures r.Ok? <==> name in items && items[name] in instances
    ensures name !in items ==> r == Err(AssetNotFound(name))
  {
    if name !in items then Err(AssetNotFound(name))
    else if items[name] !in instances then Err(InstanceNotFound(items[name]))
    else Ok(instances[items[name]])
  }

  /** A handler's Get: GetAsset's errors pass through, an object of another kind
      is refused with ErrAssetType, and otherwise the object's identifier is the
      answer. */
  function Lookup(items: map<string, int>, instances: map<int, AssetKind>, name: string, kind: AssetKind): (r: Result<int>)
    ensures r.Ok? <==> name in items && items[name] in instances && instances[items[name]] == kind
    ensures r.Ok? ==> r.value == items[name]
    ensures name !in items ==> r == Err(AssetNotFound(name))
    ensures name in items && items[name] in instances && instances[items[name]] != kind ==> r == Err(AssetType(name))
  {
    var a := GetAsset(items, instances, name);
    if a.Err? then Err(a.error)
    else if a.value != kind then Err(AssetType(name))
    else Ok(items[name])
  }

  /** Once name is inserted with the identifier of an object of the right kind,
      looking it up gives that identifier back. */
  lemma LookupAfterInsert(items: map<string, int>, instances: map<int, AssetKind>, name: string, id: int, kind: AssetKind)
    requires id in instances && instances[id] == kind
    ensures Lookup(items[name := id], instances, name, kind) == Ok(id)
  {
  }

  /** Inserting one name does not change what any other name looks up to. */
  lemma LookupOtherName(items: map<string, int>, instances: map<int, AssetKind>, name: string, id: int,
                        other: string, kind: AssetKind)
    requires other != name
    ensures Lookup(items[name := id], instances, other, kind) == Lookup(items, instances, other, kind)
  {
  }
}
