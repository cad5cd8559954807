// scene/marshaller.go: the process-wide registry of component builders and
// the recursive construction of game objects from a decoded JSON tree. JSON
// decoding is left out: BuildScene receives the decoded JSONScene, or None when
// decoding failed.
//
// The objects built are kept in an arena: NewGameObject hands out the next
// arena index, so a node's identifier is the order in which it was created.
// Because BuildGameObject creates a node before recursing into its children,
// every subtree occupies a contiguous range of identifiers, starting with its
// root and Count(data) long.

module SceneMarshaller {
  import opened Common

  /** A built component; the engine's component types are opaque here. */
  datatype Component = Component(kind: string, state: seq<bv8>)

  /** UnmarshalComponentFunc: a raw JSON payload to a component or an error. */
  type Builder = seq<bv8> -> Result<Component>

  datatype JSONComponent = JSONComponent(tag: string, data: seq<bv8>)
  datatype JSONGameObject = JSONGameObject(name: string, objects: seq<JSONGameObject>, components: seq<JSONComponent>)
  datatype JSONScene = JSONScene(name: string, objects: seq<JSONGameObject>)

  /** A built game object: its name, its parent's identifier (None for a root),
      its children's identifiers in order, and its components in order. */
  datatype Node = Node(name: string, parent: Option<nat>, children: seq<nat>, components: seq<Component>)

  /** A built scene: the arena of every object and the identifiers of the roots. */
  datatype Scene = Scene(name: string, nodes: seq<Node>, roots: seq<nat>)

  /** The componentUnmarshallers map. */
  class ComponentRegistry {
    var builders: map<string, Builder>

    constructor ()
      ensures builders == map[]
    {
      builders := map[];
    }

    /** ComponentUnmarshaller: the builder bound to tag t, or ErrMarshallerNotFound(t). */
    function ComponentUnmarshaller(t: string): (r: Result<Builder>)
      reads this
      ensures r.Ok? <==> t in builders
      ensures r.Ok? ==> r.value == builders[t]
      ensures r.Err? ==> r.error == MarshallerNotFound(t)
    {
      if t in builders then Ok(builders[t]) else Err(MarshallerNotFound(t))
    }

    /** AddComponentUnmarshaller refuses a bound tag and leaves the registry
        alone; otherwise it binds the tag and nothing else. */
    method AddComponentUnmarshaller(t: string, fn: Builder) returns (o: Outcome)
      modifies this
      ensures t in old(builders) ==> o == Fail(MarshallerExists(t)) && builders == old(builders)
      ensures t !in old(builders) ==> o == Pass && builders == old(builders)[t := fn]
    {
      if t in builders {
        return Fail(MarshallerExists(t));
      }
      builders := builders[t := fn];
      return Pass;
    }
  }

  // ---------------------------------------------------------------------------
  // Specification of a build

  /** Number of objects in a tree, and in a list of trees. */
  function Count(d: JSONGameObject): nat
    decreases d
  {
    1 + CountAll(d.objects)
  }

  function CountAll(ds: seq<JSONGameObject>): nat
    decreases ds
  {
    if |ds| == 0 then 0 else CountAll(ds[..|ds| - 1]) + Count(ds[|ds| - 1])
  }

  /** One component payload through its builder: an unknown tag is
      ErrMarshallerNotFound, otherwise whatever the builder answers. */
  function BuildPayload(builders: map<string, Builder>, c: JSONComponent): Result<Component> {
    if c.tag !in builders then Err(MarshallerNotFound(c.tag)) else builders[c.tag](c.data)
  }

  /** The component loop: one component per payload in payload order, or the
      error of the first payload that does not build. */
  function BuildComponents(builders: map<string, Builder>, cs: seq<JSONComponent>): Result<seq<Component>>
    decreases |cs|
  {
    if |cs| == 0 then Ok([])
    else
      var prefix := BuildComponents(builders, cs[..|cs| - 1]);
      if prefix.Err? then prefix
      else
        var c := BuildPayload(builders, cs[|cs| - 1]);
        if c.Err? then Err(c.error) else Ok(prefix.value + [c.value])
  }

  /** The component list builds exactly when every payload builds; then it
      holds one component per payload, each what that payload's builder made;
      otherwise its error is that of the first payload that fails. */
  lemma {:induction false} BuildComponentsMeaning(builders: map<string, Builder>, cs: seq<JSONComponent>)
    ensures BuildComponents(builders, cs).Ok? <==> forall i :: 0 <= i < |cs| ==> BuildPayload(builders, cs[i]).Ok?
    ensures BuildComponents(builders, cs).Ok? ==>
              && |BuildComponents(builders, cs).value| == |cs|
              && forall i :: 0 <= i < |cs| ==> BuildPayload(builders, cs[i]) == Ok(BuildComponents(builders, cs).value[i])
    ensures BuildComponents(builders, cs).Err? ==>
              exists i :: && 0 <= i < |cs| && BuildPayload(builders, cs[i]) == Err(BuildComponents(builders, cs).error)
                          && forall j :: 0 <= j < i ==> BuildPayload(builders, cs[j]).Ok?
    decreases |cs|
  {
    if |cs| > 0 {
      var n := |cs| - 1;
      BuildComponentsMeaning(builders, cs[..n]);
      assert forall i :: 0 <= i < n ==> cs[..n][i] == cs[i];
      var prefix := BuildComponents(builders, cs[..n]);
      if prefix.Err? {
        var i :| && 0 <= i < n && BuildPayload(builders, cs[..n][i]) == Err(prefix.error)
                 && forall j :: 0 <= j < i ==> BuildPayload(builders, cs[..n][j]).Ok?;
        assert BuildPayload(builders, cs[i]) == Err(prefix.error);
      }
    }
  }

  /** The error BuildGameObject returns for d, if any: children first, in
      order and depth first, then the components in order. */
  function FirstFailure(builders: map<string, Builder>, d: JSONGameObject): Option<Error>
    decreases d
  {
    var childFailure := ForestFailure(builders, d.objects);
    if childFailure.Some? then childFailure
    else
      var comps := BuildComponents(builders, d.components);
      if comps.Err? then Some(comps.error) else None
  }

  /** The first failure among a list of trees built in order. */
  function ForestFailure(builders: map<string, Builder>, ds: seq<JSONGameObject>): Option<Error>
    decreases ds
  {
    if |ds| == 0 then None
    else
      var prefix := ForestFailure(builders, ds[..|ds| - 1]);
      if prefix.Some? then prefix else FirstFailure(builders, ds[|ds| - 1])
  }

  /** Identifier of child k of a tree built at id: the node itself comes
      first, then the ranges of the earlier children. */
  function ChildId(d: JSONGameObject, id: nat, k: nat): nat
    requires k <= |d.objects|
  {
    id + 1 + CountAll(d.objects[..k])
  }

  /** The arena a holds the build of d at identifier id with the given parent:
      the node has d's name and that parent; child k sits at ChildId(d, id, k),
      is the build of d.objects[k] and points back to the node; the
      components are those BuildComponents gives, in payload order. */
  ghost predicate Built(builders: map<string, Builder>, a: seq<Node>, id: nat, parent: Option<nat>, d: JSONGameObject)
    decreases d
  {
    && id + Count(d) <= |a|
    && a[id].name == d.name
    && a[id].parent == parent
    && |a[id].children| == |d.objects|
    && (forall k :: 0 <= k < |d.objects| ==>
          a[id].children[k] == ChildId(d, id, k) && Built(builders, a, ChildId(d, id, k), Some(id), d.objects[k]))
    && BuildComponents(builders, d.components) == Ok(a[id].components)
  }

  /** The first k children of the node at id are built and appended to it. */
  ghost predicate ChildrenBuilt(builders: map<string, Builder>, a: seq<Node>, id: nat, d: JSONGameObject, k: nat)
    requires k <= |d.objects|
  {
    && id < |a|
    && |a[id].children| == k
    && forall j :: 0 <= j < k ==>
         a[id].children[j] == ChildId(d, id, j) && Built(builders, a, ChildId(d, id, j), Some(id), d.objects[j])
  }

  /** The first k roots of a scene are built, root j at the start of its range. */
  ghost predicate RootsBuilt(builders: map<string, Builder>, a: seq<Node>, ds: seq<JSONGameObject>, roots: seq<nat>)
    requires |roots| <= |ds|
  {
    forall j :: 0 <= j < |roots| ==> roots[j] == CountAll(ds[..j]) && Built(builders, a, roots[j], None, ds[j])
  }

  // ---------------------------------------------------------------------------
  // Lemmas about counts and prefixes

  lemma CountAllStep(ds: seq<JSONGameObject>, k: nat)
    requires k < |ds|
    ensures CountAll(ds[..k + 1]) == CountAll(ds[..k]) + Count(ds[k])
  {
    assert ds[..k + 1][..k] == ds[..k];
  }

  lemma {:induction false} CountAllPrefix(ds: seq<JSONGameObject>, k: nat)
    requires k <= |ds|
    ensures CountAll(ds[..k]) <= CountAll(ds)
    decreases |ds|
  {
    if k < |ds| {
      var n := |ds| - 1;
      assert ds[..n][..k] == ds[..k];
      CountAllPrefix(ds[..n], k);
    } else {
      assert ds[..k] == ds;
    }
  }

  /** The range of member j ends no later than where member k starts. */
  lemma CountAllMono(ds: seq<JSONGameObject>, j: nat, k: nat)
    requires j < k <= |ds|
    ensures CountAll(ds[..j]) + Count(ds[j]) <= CountAll(ds[..k])
  {
    CountAllStep(ds, j);
    CountAllPrefix(ds[..k], j + 1);
    assert ds[..k][..j + 1] == ds[..j + 1];
  }

  /** Child k's range ends where child k + 1's starts, inside the parent's range. */
  lemma ChildRange(d: JSONGameObject, id: nat, k: nat)
    requires k < |d.objects|
    ensures ChildId(d, id, k) + Count(d.objects[k]) == ChildId(d, id, k + 1) <= id + Count(d)
  {
    CountAllStep(d.objects, k);
    CountAllPrefix(d.objects, k + 1);
  }

  lemma ForestFailureStep(builders: map<string, Builder>, ds: seq<JSONGameObject>, k: nat)
    requires k < |ds|
    ensures ForestFailure(builders, ds[..k + 1])
            == if ForestFailure(builders, ds[..k]).Some? then ForestFailure(builders, ds[..k])
               else FirstFailure(builders, ds[k])
  {
    assert ds[..k + 1][..k] == ds[..k];
  }

  /** Once a prefix of the forest fails, the whole forest fails with that error. */
  lemma {:induction false} ForestFailureExtends(builders: map<string, Builder>, ds: seq<JSONGameObject>, m: nat)
    requires m <= |ds| && ForestFailure(builders, ds[..m]).Some?
    ensures ForestFailure(builders, ds) == ForestFailure(builders, ds[..m])
    decreases |ds| - m
  {
    if m == |ds| {
      assert ds[..m] == ds;
    } else {
      ForestFailureStep(builders, ds, m);
      ForestFailureExtends(builders, ds, m + 1);
    }
  }

  lemma BuildComponentsStep(builders: map<string, Builder>, cs: seq<JSONComponent>, m: nat)
    requires m < |cs| && BuildComponents(builders, cs[..m]).Ok?
    ensures BuildComponents(builders, cs[..m + 1])
            == if BuildPayload(builders, cs[m]).Err? then Err(BuildPayload(builders, cs[m]).error)
               else Ok(BuildComponents(builders, cs[..m]).value + [BuildPayload(builders, cs[m]).value])
  {
    assert cs[..m + 1][..m] == cs[..m];
  }

  /** Once a prefix of the payloads fails, the whole list fails with that error. */
  lemma {:induction false} BuildComponentsErrExtends(builders: map<string, Builder>, cs: seq<JSONComponent>, m: nat)
    requires m <= |cs| && BuildComponents(builders, cs[..m]).Err?
    ensures BuildComponents(builders, cs) == BuildComponents(builders, cs[..m])
    decreases |cs| - m
  {
    if m == |cs| {
      assert cs[..m] == cs;
    } else {
      assert cs[..m + 1][..m] == cs[..m];
      BuildComponentsErrExtends(builders, cs, m + 1);
    }
  }

  // ---------------------------------------------------------------------------
  // Lemmas about builds

  /** A build is unaffected by changes to the arena outside its own range. */
  lemma {:induction false} BuiltFrame(builders: map<string, Builder>, a: seq<Node>, b: seq<Node>, id: nat,
                                      parent: Option<nat>, d: JSONGameObject)
    requires Built(builders, a, id, parent, d)
    requires id + Count(d) <= |b|
    requires forall i :: id <= i < id + Count(d) ==> b[i] == a[i]
    ensures Built(builders, b, id, parent, d)
    decreases d
  {
    forall k | 0 <= k < |d.objects|
      ensures Built(builders, b, ChildId(d, id, k), Some(id), d.objects[k])
    {
      ChildRange(d, id, k);
      BuiltFrame(builders, a, b, ChildId(d, id, k), Some(id), d.objects[k]);
    }
  }

  /** A build stays a build when the arena grows at its end. */
  lemma BuiltExtend(builders: map<string, Builder>, a: seq<Node>, b: seq<Node>, id: nat,
                    parent: Option<nat>, d: JSONGameObject)
    requires Built(builders, a, id, parent, d) && |a| <= |b| && b[..|a|] == a
    ensures Built(builders, b, id, parent, d)
  {
    assert forall i :: id <= i < id + Count(d) ==> b[i] == b[..|a|][i];
    BuiltFrame(builders, a, b, id, parent, d);
  }

  /** A build stays a build when a node before its range is replaced. */
  lemma BuiltUpdate(builders: map<string, Builder>, a: seq<Node>, id: nat, parent: Option<nat>,
                    d: JSONGameObject, i: nat, v: Node)
    requires Built(builders, a, id, parent, d) && i < id
    ensures Built(builders, a[i := v], id, parent, d)
  {
    BuiltFrame(builders, a, a[i := v], id, parent, d);
  }

  /** Every offset inside a forest's count lies in the range of one member. */
  lemma {:induction false} FindChild(ds: seq<JSONGameObject>, offset: nat) returns (k: nat)
    requires offset < CountAll(ds)
    ensures k < |ds| && CountAll(ds[..k]) <= offset < CountAll(ds[..k]) + Count(ds[k])
    decreases |ds|
  {
    var n := |ds| - 1;
    CountAllStep(ds, n);
    assert ds[..n + 1] == ds;
    if offset < CountAll(ds[..n]) {
      k := FindChild(ds[..n], offset);
      assert ds[..n][..k] == ds[..k];
      assert ds[..n][..k + 1] == ds[..k + 1];
      assert ds[..n][k] == ds[k];
    } else {
      k := n;
    }
  }

  /** The node at the root of a build is fixed by the tree and the registry. */
  lemma BuiltRootUnique(builders: map<string, Builder>, a: seq<Node>, b: seq<Node>, id: nat,
                        parent: Option<nat>, d: JSONGameObject)
    requires Built(builders, a, id, parent, d) && Built(builders, b, id, parent, d)
    ensures a[id] == b[id]
  {
    assert forall k :: 0 <= k < |d.objects| ==> a[id].children[k] == b[id].children[k];
    assert a[id].children == b[id].children;
  }

  /** Two arenas that both hold the build of d at id agree at every identifier
      of its range: the build is a function of the tree and the registry, and
      every node of the range belongs to it. */
  lemma {:induction false} BuiltUniqueAt(builders: map<string, Builder>, a: seq<Node>, b: seq<Node>, id: nat,
                                         parent: Option<nat>, d: JSONGameObject, i: nat)
    requires Built(builders, a, id, parent, d) && Built(builders, b, id, parent, d)
    requires id <= i < id + Count(d)
    ensures a[i] == b[i]
    decreases d
  {
    if i == id {
      BuiltRootUnique(builders, a, b, id, parent, d);
    } else {
      var k := FindChild(d.objects, i - id - 1);
      BuiltUniqueAt(builders, a, b, ChildId(d, id, k), Some(id), d.objects[k], i);
    }
  }

  /** Appending the identifier of a freshly built child keeps the loop's
      invariant, one child further. */
  lemma AppendChild(builders: map<string, Builder>, a: seq<Node>, next: seq<Node>, appended: seq<Node>,
                    id: nat, d: JSONGameObject, k: nat)
    requires k < |d.objects| && ChildrenBuilt(builders, a, id, d, k) && |a| == ChildId(d, id, k)
    requires |next| == |a| + Count(d.objects[k]) && next[..|a|] == a
    requires Built(builders, next, |a|, Some(id), d.objects[k])
    requires appended == next[id := next[id].(children := next[id].children + [|a|])]
    ensures ChildrenBuilt(builders, appended, id, d, k + 1)
    ensures |appended| == ChildId(d, id, k + 1)
    ensures appended[..id] == a[..id] && appended[id] == a[id].(children := a[id].children + [|a|])
  {
    ChildRange(d, id, k);
    assert next[id] == next[..|a|][id];
    forall j | 0 <= j < k
      ensures Built(builders, appended, ChildId(d, id, j), Some(id), d.objects[j])
    {
      BuiltExtend(builders, a, next, ChildId(d, id, j), Some(id), d.objects[j]);
      BuiltUpdate(builders, next, ChildId(d, id, j), Some(id), d.objects[j], id, appended[id]);
    }
    BuiltUpdate(builders, next, |a|, Some(id), d.objects[k], id, appended[id]);
    assert appended[..id] == next[..|a|][..id];
  }

  /** With every child appended and the components built, the node is the build of d. */
  lemma FinishNode(builders: map<string, Builder>, a: seq<Node>, id: nat, parent: Option<nat>,
                   d: JSONGameObject, comps: seq<Component>)
    requires ChildrenBuilt(builders, a, id, d, |d.objects|) && |a| == ChildId(d, id, |d.objects|)
    requires a[id].name == d.name && a[id].parent == parent
    requires BuildComponents(builders, d.components) == Ok(comps)
    ensures Built(builders, a[id := a[id].(components := comps)], id, parent, d)
  {
    assert d.objects[..|d.objects|] == d.objects;
    var finished := a[id := a[id].(components := comps)];
    forall j | 0 <= j < |d.objects|
      ensures Built(builders, finished, ChildId(d, id, j), Some(id), d.objects[j])
    {
      BuiltFrame(builders, a, finished, ChildId(d, id, j), Some(id), d.objects[j]);
    }
  }

  /** Built roots stay built when the arena grows at its end. */
  lemma RootsExtend(builders: map<string, Builder>, a: seq<Node>, next: seq<Node>, ds: seq<JSONGameObject>,
                    roots: seq<nat>)
    requires |roots| <= |ds| && RootsBuilt(builders, a, ds, roots)
    requires |a| <= |next| && next[..|a|] == a
    ensures RootsBuilt(builders, next, ds, roots)
  {
    forall j | 0 <= j < |roots|
      ensures Built(builders, next, roots[j], None, ds[j])
    {
      BuiltExtend(builders, a, next, roots[j], None, ds[j]);
    }
  }

  /** Appending a freshly built root keeps BuildScene's invariant. */
  lemma AppendRoot(builders: map<string, Builder>, a: seq<Node>, next: seq<Node>, ds: seq<JSONGameObject>,
                   roots: seq<nat>)
    requires |roots| < |ds| && RootsBuilt(builders, a, ds, roots) && |a| == CountAll(ds[..|roots|])
    requires |next| == |a| + Count(ds[|roots|]) && next[..|a|] == a
    requires Built(builders, next, |a|, None, ds[|roots|])
    ensures RootsBuilt(builders, next, ds, roots + [|a|])
    ensures |next| == CountAll(ds[..|roots| + 1])
  {
    CountAllStep(ds, |roots|);
    RootsExtend(builders, a, next, ds, roots);
    var extended := roots + [|a|];
    forall j | 0 <= j < |extended|
      ensures extended[j] == CountAll(ds[..j]) && Built(builders, next, extended[j], None, ds[j])
    {
      if j < |roots| {
        assert extended[j] == roots[j];
      }
    }
  }

  // ---------------------------------------------------------------------------
  // The builders

  /** The component loop of BuildGameObject: each payload's builder is looked
      up by tag and applied to the payload, in order; the first failure is
      returned. */
  method BuildComponentList(reg: ComponentRegistry, cs: seq<JSONComponent>) returns (r: Result<seq<Component>>)
    ensures r == BuildComponents(reg.builders, cs)
  {
    var builders := reg.builders;
    var comps: seq<Component> := [];
    var m := 0;
    while m < |cs|
      invariant 0 <= m <= |cs|
      invariant BuildComponents(builders, cs[..m]) == Ok(comps)
    {
      BuildComponentsStep(builders, cs, m);
      var fn := reg.ComponentUnmarshaller(cs[m].tag);
      if fn.Err? {
        BuildComponentsErrExtends(builders, cs, m + 1);
        return Err(fn.error);
      }
      var c := fn.value(cs[m].data);
      if c.Err? {
        BuildComponentsErrExtends(builders, cs, m + 1);
        return Err(c.error);
      }
      comps := comps + [c.value];
      m := m + 1;
    }
    assert cs[..m] == cs;
    return Ok(comps);
  }

  /** BuildGameObject creates the node for data with the given parent, builds
      the children in order (each with the new node as parent) and appends
      them, then builds the components in payload order. Any failure returns
      the error and no arena; on success the arena grows by exactly the tree. */
  method BuildGameObject(reg: ComponentRegistry, data: JSONGameObject, parent: Option<nat>, arena: seq<Node>)
    returns (r: Result<seq<Node>>)
    ensures r.Err? <==> FirstFailure(reg.builders, data).Some?
    ensures r.Err? ==> r.error == FirstFailure(reg.builders, data).value
    ensures r.Ok? ==> && |r.value| == |arena| + Count(data)
                      && r.value[..|arena|] == arena
                      && Built(reg.builders, r.value, |arena|, parent, data)
    decreases data, 1
  {
    var id := |arena|;
    var withChildren := BuildChildren(reg, data, parent, arena);
    if withChildren.Err? {
      return Err(withChildren.error);
    }
    var a := withChildren.value;
    assert data.objects[..|data.objects|] == data.objects;
    var comps := BuildComponentList(reg, data.components);
    if comps.Err? {
      return Err(comps.error);
    }
    FinishNode(reg.builders, a, id, parent, data, comps.value);
    var finished := a[id := a[id].(components := comps.value)];
    assert finished[..id] == a[..id];
    return Ok(finished);
  }

  /** The first half of BuildGameObject: the new node, then each child built
      with the node as parent and appended to it, in order; the first child
      that fails ends the build with its error. */
  method BuildChildren(reg: ComponentRegistry, data: JSONGameObject, parent: Option<nat>, arena: seq<Node>)
    returns (r: Result<seq<Node>>)
    ensures r.Err? <==> ForestFailure(reg.builders, data.objects).Some?
    ensures r.Err? ==> r.error == ForestFailure(reg.builders, data.objects).value
    ensures r.Ok? ==> && |r.value| == ChildId(data, |arena|, |data.objects|)
                      && r.value[..|arena|] == arena
                      && r.value[|arena|].name == data.name && r.value[|arena|].parent == parent
                      && ChildrenBuilt(reg.builders, r.value, |arena|, data, |data.objects|)
    decreases data, 0
  {
    var builders := reg.builders;
    var id := |arena|;
    var a := arena + [Node(data.name, parent, [], [])];
    assert data.objects[..0] == [];
    var k := 0;
    while k < |data.objects|
      invariant 0 <= k <= |data.objects|
      invariant ForestFailure(builders, data.objects[..k]) == None
      invariant |a| == ChildId(data, id, k)
      invariant a[..id] == arena
      invariant a[id].name == data.name && a[id].parent == parent
      invariant ChildrenBuilt(builders, a, id, data, k)
    {
      ForestFailureStep(builders, data.objects, k);
      var c := BuildGameObject(reg, data.objects[k], Some(id), a);
      if c.Err? {
        ForestFailureExtends(builders, data.objects, k + 1);
        return Err(c.error);
      }
      var appended := c.value[id := c.value[id].(children := c.value[id].children + [|a|])];
      AppendChild(builders, a, c.value, appended, id, data, k);
      a := appended;
      k := k + 1;
    }
    assert data.objects[..k] == data.objects;
    return Ok(a);
  }

  /** The error BuildScene returns after a successful decode, if any: the
      first root, in order, that fails to build or to be added. */
  function SceneFailure(builders: map<string, Builder>, ds: seq<JSONGameObject>, addObject: nat -> Outcome): Option<Error>
    decreases |ds|
  {
    if |ds| == 0 then None
    else
      var n := |ds| - 1;
      var prefix := SceneFailure(builders, ds[..n], addObject);
      if prefix.Some? then prefix
      else
        var f := FirstFailure(builders, ds[n]);
        if f.Some? then Some(Annotated("build object error", f.value))
        else if addObject(n).Fail? then Some(Annotated("add object error", addObject(n).error))
        else None
  }

  /** Once a prefix of the roots fails, the scene fails with that error. */
  lemma {:induction false} SceneFailureExtends(builders: map<string, Builder>, ds: seq<JSONGameObject>,
                                               addObject: nat -> Outcome, m: nat)
    requires m <= |ds| && SceneFailure(builders, ds[..m], addObject).Some?
    ensures SceneFailure(builders, ds, addObject) == SceneFailure(builders, ds[..m], addObject)
    decreases |ds| - m
  {
    if m == |ds| {
      assert ds[..m] == ds;
    } else {
      assert ds[..m + 1][..m] == ds[..m];
      SceneFailureExtends(builders, ds, addObject, m + 1);
    }
  }

  /** A scene is built exactly when every root builds and every root is added. */
  lemma {:induction false} SceneFailureNone(builders: map<string, Builder>, ds: seq<JSONGameObject>, addObject: nat -> Outcome)
    ensures SceneFailure(builders, ds, addObject) == None
            <==> ForestFailure(builders, ds) == None && forall k :: 0 <= k < |ds| ==> addObject(k).Pass?
    decreases |ds|
  {
    if |ds| > 0 {
      var n := |ds| - 1;
      SceneFailureNone(builders, ds[..n], addObject);
      assert forall k :: 0 <= k < n ==> ds[..n][k] == ds[k];
    }
  }

  /** BuildScene: a failed decode is annotated "json unmarshal error"; every
      root is then built with no parent and added, in order; the first build
      failure or add failure, annotated, is the answer and no scene is
      returned. On success every root is built at the start of its range. */
  method BuildScene(reg: ComponentRegistry, decoded: Option<JSONScene>, addObject: nat -> Outcome)
    returns (r: Result<Scene>)
    ensures decoded.None? ==> r == Err(Annotated("json unmarshal error", DecodeFailed))
    ensures decoded.Some? ==> (r.Ok? <==> SceneFailure(reg.builders, decoded.value.objects, addObject) == None)
    ensures decoded.Some? && r.Err? ==> r.error == SceneFailure(reg.builders, decoded.value.objects, addObject).value
    ensures r.Ok? ==> && decoded.Some? && r.value.name == decoded.value.name
                      && |r.value.nodes| == CountAll(decoded.value.objects)
                      && |r.value.roots| == |decoded.value.objects|
                      && RootsBuilt(reg.builders, r.value.nodes, decoded.value.objects, r.value.roots)
  {
    if decoded.None? {
      return Err(Annotated("json unmarshal error", DecodeFailed));
    }
    var builders := reg.builders;
    var objs := decoded.value.objects;
    var a: seq<Node> := [];
    var roots: seq<nat> := [];
    assert objs[..0] == [];
    var k := 0;
    while k < |objs|
      invariant 0 <= k <= |objs| && |roots| == k
      invariant SceneFailure(builders, objs[..k], addObject) == None
      invariant |a| == CountAll(objs[..k])
      invariant RootsBuilt(builders, a, objs, roots)
    {
      assert objs[..k + 1][..k] == objs[..k];
      var o := BuildGameObject(reg, objs[k], None, a);
      if o.Err? {
        SceneFailureExtends(builders, objs, addObject, k + 1);
        return Err(Annotated("build object error", o.error));
      }
      if addObject(k).Fail? {
        SceneFailureExtends(builders, objs, addObject, k + 1);
        return Err(Annotated("add object error", addObject(k).error));
      }
      AppendRoot(builders, a, o.value, objs, roots);
      a := o.value;
      roots := roots + [|a| - Count(objs[k])];
      k := k + 1;
    }
    assert objs[..k] == objs;
    return Ok(Scene(decoded.value.name, a, roots));
  }
}
