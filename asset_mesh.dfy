// system/asset/mesh/mesh.go: the mesh asset handler. Add allocates the mesh
// through Mesh.Alloc, whose outcome is decided by the mesh's own arrays.

module AssetMesh {
  import opened Common
  import opened AssetRegistry
  import GM = GraphicsMesh

  class Handler {
    /** Asset name to the instance identifier of its mesh. */
    var items: map<string, int>

    /** NewHandler: an empty registry. */
    constructor ()
      ensures items == map[]
    {
      items := map[];
    }

    /** Add refuses a name already present without touching the mesh, then a
        mesh whose Alloc fails (empty or uneven arrays); only an allocated mesh
        is entered, under exactly its identifier. */
    method Add(name: string, mesh: GM.Mesh) returns (o: Outcome)
      modifies this
      ensures name in old(items) ==> o == Fail(AssetExists(name)) && items == old(items)
      ensures name !in old(items) && !GM.UploadReady(mesh.Geom()) ==> o == Fail(GM.UploadError(mesh.Geom())) && items == old(items)
      ensures o.Pass? <==> name !in old(items) && GM.UploadReady(mesh.Geom())
      ensures o.Pass? ==> items == old(items)[name := mesh.id] && |items| == |old(items)| + 1
    {
      if name in items {
        return Fail(AssetExists(name));
      }
      var allocResult := mesh.Alloc();
      if allocResult.Fail? {
        return allocResult;
      }
      items := items[name := mesh.id];
      return Pass;
    }

    /** Get: the identifier of the Mesh registered under name. */
    function Get(name: string, instances: map<int, AssetKind>): (r: Result<int>)
      reads this
      ensures r.Ok? <==> name in items && items[name] in instances && instances[items[name]] == MeshKind
      ensures r.Ok? ==> r.value == items[name]
      ensures name !in items ==> r == Err(AssetNotFound(name))
      ensures name in items && items[name] in instances && instances[items[name]] != MeshKind ==>
                r == Err(AssetType(name))
    {
      Lookup(items, instances, name, MeshKind)
    }

    /** MustGet panics exactly when Get fails; otherwise it is Get's answer. */
    method MustGet(name: string, instances: map<int, AssetKind>) returns (id: int)
      requires Get(name, instances).Ok?
      ensures id == items[name] && instances[id] == MeshKind
    {
      var r := Get(name, instances);
      id := r.value;
    }
  }
}
