# arc engine core, modelled in Dafny

This project models the sequential logic of the arc Go game engine that sits
around its OpenGL, GLFW and decoder calls, and proves properties of it:

- the UI controller: the widget and mask caches, the stencil mask levels, and
  the per-frame routing of cursor input to widgets as a sequence of events;
- the scene deserialiser: the tag-to-builder registry and the recursive build
  of a scene tree from a decoded JSON tree;
- the app's system registry: setup in registration order, teardown in reverse,
  and the frame loop's cap on fixed updates;
- the texture and mesh asset handlers and the material texture slots;
- the texture format tables and the texture state of both `BaseTexture`
  declarations;
- mesh face expansion, upload checks and interleaving.

There is one Dafny module per Go source file:

- `UIController`: ui/controller.go
- `UIMask`: ui/mask.go
- `SceneMarshaller`: scene/marshaller.go
- `SceneMaterial`: scene/material.go
- `CoreApp`: core/app.go
- `TextureFormats`: graphics/texture.go (the three format tables)
- `GraphicsTexture`: graphics/texture.go (`BaseTexture`)
- `GraphicsTextureBase`: graphics/texture_base.go
- `GraphicsMesh`: graphics/mesh.go
- `AssetTexture`: system/asset/texture/texture.go
- `AssetMesh`: system/asset/mesh/mesh.go

Three modules are shared by the others:
- `Common` holds the integer widths, the vector records, the `Option`, `Result` and `Outcome` wrappers, and the engine's error values.
- `GL` holds the numeric OpenGL enumerants the code uses.
- `AssetRegistry` holds the name-and-type lookup the two asset handlers share.

Objects whose fields the Go code updates in place are Dafny classes with the
same fields. Their methods state the whole new state. Pure logic is written as
functions and lemmas. A Go panic becomes a precondition that the caller must
rule out.

Foreign calls become parameters:
- what a system's `Setup` returns, and what the user hooks return;
- the window's `ShouldClose`, the time system's `LogicUpdate`, and the input flags;
- a widget's `Raycast` and `Dragging`;
- the GL texture name from `GenTextures`, and the result of a texture allocation;
- the decoded image's colour model, the gob-decoded mesh `Metadata`, and the decoded JSON scene;
- the result of `Scene.AddObject`.

A scene's game objects are modelled as an arena: a sequence of nodes in which
a node's identifier is its position. Each node holds its name, its parent's
identifier, its children's identifiers and its components. Identifiers are
handed out in the order the Go code creates the objects (pre-order), so the
build of each subtree occupies one contiguous range.

Getters are read-only functions over the fields and have no rows of their own:
- the `BaseTexture` getters of graphics/texture.go:323-379 and 477-519 and of graphics/texture_base.go:90-136, whose values the setter rows state;
- the `Mesh` getters of graphics/mesh.go:237-259. `Mesh.Indexed` (graphics/mesh.go:253-255) is true exactly when the mesh has triangle indices, and the `Unload` and `Clear` rows say what becomes of it.

## Model

| member | source | states |
|---|---|---|
| `UIController.Controller.constructor` | ui/controller.go:221-240 | A new controller has empty caches, no selected or highlighted widget, mask counter 0, name "UIController", and the framebuffer at the window resolution. |
| `UIController.Controller.UpdateCache` | ui/controller.go:51-64 | The old caches are discarded. `wCache` becomes `Widgets(components)` and `mCache` becomes `Masks(components)`: the ordered filters of the components below the object. |
| `UIController.FilterAppend` | ui/controller.go:51-64 | The cache filters distribute over concatenation, so each cache keeps the components' order. |
| `UIController.WidgetsExact` | ui/controller.go:51-64 | A widget id is in the widget cache iff some component is a Widget with that id. The cache is never longer than the component list. |
| `UIController.MasksExact` | ui/controller.go:51-64 | Every entry of the mask cache is the Mask of some component, and every component's Mask is in the cache. |
| `UIController.Controller.NextMaskIndex` | ui/controller.go:102-110 | Returns the counter's current value and advances it by `NextIndex`: one up, except that 255 stays 255. |
| `UIController.MaskLevelsSaturate` | ui/controller.go:102-110 | The counter after n calls of `NextIndex` from 0 is `min(n, 255)`: it counts the calls until it saturates at the largest uint8. GUIRender's loop relies on this. |
| `UIController.Controller.GUIRender` | ui/controller.go:70-100 | With no cached widget, nothing changes: neither the counter nor any mask's ID. Otherwise the counter restarts at 0, the i-th cached mask gets level `min(i, 255)` (a mask cached twice keeps the level of its last position), and the counter ends at `min(\|mCache\|, 255)`. |
| `UIController.Controller.Resize` | ui/controller.go:112-118 | Sets the framebuffer size to the resolution and leaves the caches and focus alone. |
| `UIController.Controller.Start` | ui/controller.go:120-123 | Resizes, then rebuilds both caches from the components. |
| `UIController.Controller.Hover` | ui/controller.go:168-178 | On a change of target, MouseLeave goes to the old highlighted widget (if any), then MouseEnter to the target (if any). Afterwards the target is highlighted and the selection is untouched. |
| `UIController.Controller.Press` | ui/controller.go:185-218 | The selection and the events are exactly `PressStage`: press, else release, else wheel. |
| `UIController.Controller.ProcessInteractions` | ui/controller.go:148-219 | The new focus and the events sent are exactly those of `Step` applied to the old focus. |
| `UIController.DragKeepsFocus` | ui/controller.go:154-163 | If the selected widget is dragging and the mouse is not released, exactly one Drag is sent to it and the focus is unchanged. |
| `UIController.HoverFollowsTarget` | ui/controller.go:154-178 | In every call that does not stop at the drag stage, the target ends up highlighted, and a drag ended by mouse-up sends DragEnd first. |
| `UIController.LeaveBeforeEnter` | ui/controller.go:168-178 | On a change between two widgets, MouseLeave to the old widget immediately precedes MouseEnter to the new one, right after any DragEnd. |
| `UIController.PressSelects` | ui/controller.go:185-205 | On mouse-down the target becomes the selection. A new target gets Deselect(previous)?, Select, DragStart. The already-selected target gets only DragStart. No target gets Deselect(previous)? and clears the selection. |
| `UIController.OneAction` | ui/controller.go:185-218 | Click is sent only on mouse-up without mouse-down, and MouseWheel only on a wheel event without either button event. Both go only to a present target. Select, DragStart and Deselect are sent only on mouse-down. |
| `UIController.Controller.Raycast` | ui/controller.go:134-146 | The target is `FirstHit` of the widget cache. The new focus and the events are those of `Step` for that target. |
| `UIController.FirstHit` | ui/controller.go:136-143 | None iff no cached widget accepts the cursor. Otherwise it is the first accepting widget in cache order. |
| `UIController.Controller.Update` | ui/controller.go:125-132 | Resizes only when the window was resized. Without input events nothing else changes. With events, the focus and events are those of one `Step` for raycast's target, the first cached widget the hit test accepts. |
| `UIMask.Mask.SetMaskID` | ui/mask.go:48-54 | `MaskID()` returns the value just set. |
| `UIMask.FirstMask` | ui/mask.go:85-94 | The result is present iff some component is a Mask, and it is the Mask of the first such component. |
| `UIMask.MaskComponent` | ui/mask.go:85-94 | The loop returns `FirstMask` of the components. |
| `UIMask.FirstMaskPrefix` | ui/mask.go:85-94 | Components after the first Mask do not affect the answer. |
| `UIMask.Mask.WriteMask` | ui/mask.go:56-83 | The reference level is the parent's first Mask's ID, or 0 when there is no parent or it has no Mask. The stencil is written with EQUAL against that level and INCR on pass while colour writes are off, and colour writes are back on at the end. |
| `SceneMarshaller.ComponentRegistry.ComponentUnmarshaller` | scene/marshaller.go:75-81 | Returns the bound builder when the tag is registered, else `MarshallerNotFound(tag)`. |
| `SceneMarshaller.ComponentRegistry.AddComponentUnmarshaller` | scene/marshaller.go:83-91 | An already-bound tag gives `MarshallerExists` and the registry is unchanged. Otherwise the tag is bound to the builder and nothing else changes. |
| `SceneMarshaller.BuildComponentsMeaning` | scene/marshaller.go:106-118 | The component build succeeds iff every payload's tag is registered and its builder succeeds. Then component k is payload k's build. On failure the error is the first failing payload's. |
| `SceneMarshaller.BuildComponentList` | scene/marshaller.go:106-118 | The loop returns exactly `BuildComponents`. |
| `SceneMarshaller.BuildGameObject` | scene/marshaller.go:93-121 | On success the arena grows by exactly the tree's size and holds the build of the tree at the old end. The node has the tree's name and exactly the given parent. Children are built in input order and point back to it. Components are in payload order. Every earlier node is unchanged. On failure the error is the tree's first failure in build order, and no object is returned. |
| `SceneMarshaller.BuildChildren` | scene/marshaller.go:97-104 | Builds every child in order and appends its identifier, or stops at the first child that fails with that child's error. |
| `SceneMarshaller.BuiltUniqueAt` | scene/marshaller.go:93-121 | A build is determined by the tree and the registry: two arenas that both hold the build of a tree at the same identifier agree on its whole range. |
| `SceneMarshaller.BuiltFrame` | scene/marshaller.go:93-121 | A built subtree depends only on the nodes of its own range: changing the arena outside that range leaves it built. This is why building later siblings never disturbs earlier ones. |
| `SceneMarshaller.ForestFailureExtends` | scene/marshaller.go:97-104 | Once one tree of a sibling list fails to build, the list fails with that same first error, whatever follows it. |
| `SceneMarshaller.SceneFailureNone` | scene/marshaller.go:123-143 | The scene has no failure iff every root tree builds and every root is added to the scene. |
| `SceneMarshaller.BuildScene` | scene/marshaller.go:123-143 | A failed decode, a failed object build and a failed scene insertion each give an annotated error and no scene. On success every root is built with no parent, at the start of its range, in input order. The result is an error exactly when `SceneFailure` reports one. |
| `SceneMarshaller.SceneFailureExtends` | scene/marshaller.go:130-140 | A failure among the first roots stays the scene's failure however many roots follow. |
| `SceneMaterial.Material.constructor` | scene/material.go:112-121 | A new material is named "Material", has no shader and no properties, and all 16 texture slots are empty. |
| `SceneMaterial.Material.Texture` | scene/material.go:67-73 | Returns the slot's texture, and none for a slot number of 16 or more. |
| `SceneMaterial.Material.SetTexture` | scene/material.go:47-61 | A slot number of 16 or more changes nothing. Otherwise exactly that slot changes, and `Texture` returns what was set. |
| `SceneMaterial.Material.SetShader` | scene/material.go:63-65 | Stores the shader and leaves the properties alone. |
| `SceneMaterial.Material.SetProperty` | scene/material.go:108-110 | Inserts or overwrites exactly one key. |
| `SceneMaterial.Material.SupportsDeferredPath` | scene/material.go:100-106 | False without a shader. |
| `SceneMaterial.Material.Bind` | scene/material.go:79-94 | Does nothing without a shader. Otherwise it binds the shader, activates unit `TEXTURE0+i` for exactly the occupied slots i in increasing order, and sets a uniform for exactly the property keys. |
| `SceneMaterial.NewMaterialPBR` | scene/material.go:123-133 | A new material with the default shader and exactly the keys f_albedo, f_metallic and f_roughness with their default values. |
| `CoreApp.App.constructor` | core/app.go:274-278 | A new app has no systems, no hooks and is not running. |
| `CoreApp.App.SystemRegistered` | core/app.go:187-195 | True iff some registered system has the name. |
| `CoreApp.App.System` | core/app.go:198-206 | Returns the first registered system with the name, or `SystemNotFound(name)`. |
| `CoreApp.App.MustSystem` | core/app.go:209-216 | Callable exactly when `System` would succeed, and returns the same first registered system with that name. |
| `CoreApp.App.RegisterSystem` | core/app.go:173-183 | Requires the name not to be registered yet (the source panics otherwise), and appends the system at the end. |
| `CoreApp.RegisterKeepsUnique` | core/app.go:173-183 | Appending an unregistered name keeps names unique and adds exactly that name to the registered ones. |
| `CoreApp.App.Setup` | core/app.go:75-108 | If an app is already current, it fails with `AppAlreadyCreated` and registers nothing. Otherwise it records this app (first time only) and registers Window, Instance, Asset and Time in that order. A failing pre hook is returned at once. Otherwise the first failing system's error is returned, after calling exactly the systems up to and including it. With every system passing, the post hook's outcome is returned and the trace ends with it. |
| `CoreApp.SetupSystems` | core/app.go:93-99 | Succeeds iff every system's Setup succeeds, calling them in registration order. Otherwise it returns the first failure, after calling exactly the systems up to and including it. |
| `CoreApp.App.Teardown` | core/app.go:111-125 | The pre-teardown hook, then every system's Teardown from last registered to first, then the post-teardown hook. |
| `CoreApp.TeardownSystems` | core/app.go:115-119 | The loop visits the systems from the last to the first. |
| `CoreApp.TeardownReversesSetup` | core/app.go:111-125 | The teardown order is exactly the reverse of the setup order, for an independently defined reversal. |
| `CoreApp.FixedUpdates` | core/app.go:147-152 | At most 5 fixed updates run per frame, whatever LogicUpdate answers. All of them were granted by LogicUpdate, and fewer than 5 means LogicUpdate said no. |
| `CoreApp.App.Run` | core/app.go:127-163 | Requires the time and window systems (MustSystem). It runs until the frame on which the window asks to close, no frame runs more than 5 fixed updates, and `running` ends false. |
| `CoreApp.App.Quit` | core/app.go:166-168 | Sets `running` to false. |
| `CoreApp.Globals.SetApp` | core/app.go:286-290 | Only the first call records the app. |
| `TextureFormats.ToInternal` | graphics/texture.go:123-172 | The result is a 16-bit enumerant, and 0 exactly for unlisted values. |
| `TextureFormats.ToFormat` | graphics/texture.go:174-223 | The result is 0 exactly for unlisted values and for Depth24Stencil8 and Stencil8. |
| `TextureFormats.ToStorage` | graphics/texture.go:225-274 | The result is 0 exactly for unlisted values. |
| `TextureFormats.DefaultFormatsAlias` | graphics/texture.go:123-274 | DefaultColor maps like RGBA8, DefaultHDRColor like RGBA16 and DefaultDepth like Depth24 in all three tables. |
| `TextureFormats.StorageFollowsKind` | graphics/texture.go:225-274 | The storage type of every listed format is the one its component kind (named in the format) calls for. |
| `TextureFormats.FormatFollowsChannels` | graphics/texture.go:174-223 | Normalised and float formats map to the pixel format of their channel count. RGB32UI and RGBA32UI map to the integer formats, RGBA16UI to plain RGBA, and the depth formats to DEPTH_COMPONENT. |
| `TextureFormats.InternalFormatsDistinct` | graphics/texture.go:123-172 | Two listed formats share an internal format only when one is a default alias of the other. |
| `GraphicsTexture.BaseTexture.Alloc` | graphics/texture.go:276-297 | A no-op when a GL name is held. Otherwise it stores the generated name with linear filters, clamp-to-edge wraps, resizable set and one layer. |
| `GraphicsTexture.BaseTexture.Dealloc` | graphics/texture.go:300-305 | The reference ends at 0 and nothing else changes, so a second call is a no-op. |
| `GraphicsTexture.BaseTexture.SetSize` | graphics/texture.go:415-427 | Fails with `TextureNotResizable` or `TextureInvalidSize`, leaving the size unchanged, when the texture is not resizable or a dimension is not positive. Otherwise it stores the size. |
| `GraphicsTexture.BaseTexture.SetGLFormats` | graphics/texture.go:388-395 | Stores exactly the three given values. |
| `GraphicsTexture.BaseTexture.SetTexFormat` | graphics/texture.go:430-432 | Stores the three table entries for the format, and leaves the `textureFormat` field (what `TexFormat` returns) unchanged. |
| `GraphicsTexture.BaseTexture.SetFilter` | graphics/texture.go:382-385 | `FilterMag` and `FilterMin` return the values set. |
| `GraphicsTexture.BaseTexture.SetMagFilter` | graphics/texture.go:398-401 | `FilterMag` returns the value set. |
| `GraphicsTexture.BaseTexture.SetMinFilter` | graphics/texture.go:404-407 | `FilterMin` returns the value set. |
| `GraphicsTexture.BaseTexture.SetWrapRST` | graphics/texture.go:445-449 | `WrapR`, `WrapS` and `WrapT` return the values set. |
| `GraphicsTexture.BaseTexture.SetWrapR` | graphics/texture.go:435-442 | `WrapR` returns the value set. |
| `GraphicsTexture.BaseTexture.SetWrapS` | graphics/texture.go:452-459 | `WrapS` returns the value set. |
| `GraphicsTexture.BaseTexture.SetWrapT` | graphics/texture.go:468-475 | `WrapT` returns the value set. |
| `GraphicsTexture.BaseTexture.SetWrapST` | graphics/texture.go:462-465 | `WrapS` and `WrapT` return the values set. |
| `GraphicsTexture.BaseTexture.SetLayers` | graphics/texture.go:363-369 | `Layers` returns the value set. |
| `GraphicsTexture.BaseTexture.SetResizable` | graphics/texture.go:410-412 | `Resizable` returns the value set. |
| `GraphicsTextureBase.BaseTexture.Alloc` | graphics/texture_base.go:51-72 | A no-op when a GL name is held. Otherwise it installs the same defaults as the other declaration. |
| `GraphicsTextureBase.BaseTexture.Dealloc` | graphics/texture_base.go:74-79 | The reference ends at 0 and nothing else changes. |
| `GraphicsTextureBase.BaseTexture.SetSize` | graphics/texture_base.go:169-172 | Stores any size without checks, even on a texture that is not resizable. |
| `GraphicsTextureBase.BaseTexture.SetFormat` | graphics/texture_base.go:138-140 | Same effect as `SetTexFormat`: the three table entries are stored. |
| `GraphicsTextureBase.BaseTexture.SetTexFormat` | graphics/texture_base.go:174-176 | Same effect as `SetFormat`. |
| `GraphicsTextureBase.BaseTexture.SetGLFormats` | graphics/texture_base.go:147-153 | Stores exactly the three given values. |
| `GraphicsTextureBase.BaseTexture.SetLayers` | graphics/texture_base.go:120-126 | `Layers` returns the value set. |
| `GraphicsTextureBase.BaseTexture.SetResizable` | graphics/texture_base.go:134-136 | `Resizable` returns the value set. |
| `GraphicsTextureBase.BaseTexture.SetFilter` | graphics/texture_base.go:142-145 | `FilterMag` and `FilterMin` return the values set. |
| `GraphicsTextureBase.BaseTexture.SetMagFilter` | graphics/texture_base.go:155-158 | `FilterMag` returns the value set. |
| `GraphicsTextureBase.BaseTexture.SetMinFilter` | graphics/texture_base.go:160-163 | `FilterMin` returns the value set. |
| `GraphicsTextureBase.BaseTexture.SetWrapRST` | graphics/texture_base.go:187-191 | `WrapR`, `WrapS` and `WrapT` return the values set. |
| `GraphicsTextureBase.BaseTexture.SetWrapR` | graphics/texture_base.go:178-185 | `WrapR` returns the value set. |
| `GraphicsTextureBase.BaseTexture.SetWrapS` | graphics/texture_base.go:193-200 | `WrapS` returns the value set. |
| `GraphicsTextureBase.BaseTexture.SetWrapT` | graphics/texture_base.go:207-214 | `WrapT` returns the value set. |
| `GraphicsTextureBase.BaseTexture.SetWrapST` | graphics/texture_base.go:202-205 | `WrapS` and `WrapT` return the values set. |
| `GraphicsMesh.ExpandFaces` | graphics/mesh.go:119-142 | Fails with `MeshInvalidFaceType` exactly for a non-empty face list with an unknown layout. Otherwise the three arrays have length 3·\|F\|, slot 3i+j holds corner j of face i (vertex always, uv for VT/VTN, normal for VN/VTN), and unused slots stay zero. |
| `GraphicsMesh.SlotOfCorner` | graphics/mesh.go:123-137 | Slot 3i+j of the expansion is the data of corner j of face i. |
| `GraphicsMesh.ExpansionUnique` | graphics/mesh.go:119-142 | The expansion is a function of the metadata: two expansions are equal. |
| `GraphicsMesh.ExpandedGeometryUploads` | graphics/mesh.go:144-148 | What a successful Load stores passes Upload's checks. |
| `GraphicsMesh.Mesh.constructor` | graphics/mesh.go:91-98 | A new mesh is named "Mesh", with empty arrays, and is neither loaded nor reverse-wound. |
| `GraphicsMesh.Mesh.Load` | graphics/mesh.go:100-151 | The checks come in order: an already-loaded mesh gives `AssetLoaded` and changes nothing; a failed decode gives `DecodeFailed`; an empty face list gives `MeshMissingFaces` with only the name set; an unknown layout gives `MeshInvalidFaceType` with only the name set. On success the arrays are the expansion and the mesh is loaded. |
| `GraphicsMesh.Mesh.Unload` | graphics/mesh.go:157-163 | Empties vertices, normals and uvs and clears `loaded`. Triangles stay, so `Indexed` keeps its value. |
| `GraphicsMesh.Mesh.Clear` | graphics/mesh.go:208-213 | Empties all four arrays and leaves `loaded` alone. Afterwards the mesh is not `Indexed`. |
| `GraphicsMesh.UploadError` | graphics/mesh.go:216-222 | For geometry that is not ready: `MeshUploadEmpty` iff some array is empty, and `MeshUploadAsymmetric` otherwise. |
| `GraphicsMesh.Mesh.Upload` | graphics/mesh.go:215-235 | Fails exactly when the geometry is not ready, with `UploadError`: `MeshUploadEmpty` iff some array is empty, else `MeshUploadAsymmetric`. Otherwise it returns the interleaved data, with entry i being (v[i], n[i], u[i]). |
| `GraphicsMesh.Mesh.Alloc` | graphics/mesh.go:166-183 | Succeeds exactly when Upload's checks pass. Otherwise it returns Upload's error, `UploadError`: empty data before asymmetric data. |
| `GraphicsMesh.Mesh.Draw` | graphics/mesh.go:200-206 | Issues no draw without vertices. Otherwise it draws all vertices. |
| `GraphicsMesh.Mesh.SetVertices` | graphics/mesh.go:261-263 | Stores the vertices and nothing else. |
| `GraphicsMesh.Mesh.SetNormals` | graphics/mesh.go:265-267 | Stores the normals and nothing else. |
| `GraphicsMesh.Mesh.SetUvs` | graphics/mesh.go:269-271 | Stores the uvs and nothing else. |
| `GraphicsMesh.Mesh.SetReversedWinding` | graphics/mesh.go:273-275 | Stores the winding flag and nothing else. |
| `GraphicsMesh.NewMeshQuad` | graphics/mesh.go:277-315 | A six-vertex quad facing +z at depth 0, with matching normals and uvs, that passes Upload's checks. |
| `GraphicsMesh.NewMeshQuadBack` | graphics/mesh.go:317-355 | The same quad at the far plane, passing Upload's checks. |
| `AssetRegistry.GetAsset` | system/asset/texture/texture.go:144-148 | Finds an object iff the name is in the items and its identifier is registered. An unknown name gives `AssetNotFound(name)`. |
| `AssetRegistry.Lookup` | system/asset/texture/texture.go:143-155 | A lookup error passes through (`AssetNotFound` for an unknown name). An object of another kind gives `AssetType`. Otherwise the answer is the entry's identifier. |
| `AssetRegistry.LookupAfterInsert` | system/asset/texture/texture.go:137-139 | After inserting a name with the identifier of an object of the right kind, looking it up returns that identifier. |
| `AssetRegistry.LookupOtherName` | system/asset/mesh/mesh.go:62-64 | Inserting one name does not change any other name's lookup. |
| `AssetTexture.Handler.constructor` | system/asset/texture/texture.go:171-177 | A new handler has no items. |
| `AssetTexture.ModelFormat` | system/asset/texture/texture.go:74-123 | Exactly the eight listed colour models map to a format, and each such format is a listed one with a component kind. |
| `AssetTexture.ModelFormatTexelBytes` | system/asset/texture/texture.go:74-123 | The chosen format matches the decoded image's bytes per pixel for the RGBA and gray models. For the two alpha models it expects twice as many (see Findings). |
| `AssetTexture.IntendedModelFormat` | system/asset/texture/texture.go:86-97 | Maps the alpha models to the one-channel formats of their width. Every other model keeps its mapping, and every mapped format then expects exactly the image's bytes per pixel. |
| `AssetTexture.Handler.Load` | system/asset/texture/texture.go:54-126 | A duplicate name gives `AssetExists` before decoding. A failed decode and an unmapped colour model are refused with no entry. A texture is built exactly when none of these apply. It carries the three table entries for the format `ModelFormat` chooses and is handed to Add. |
| `AssetTexture.Handler.Add` | system/asset/texture/texture.go:128-140 | A duplicate name gives `AssetExists` and a failed allocation gives its error, both with items unchanged. Success inserts exactly name ↦ id and grows the items by one. |
| `AssetTexture.Handler.Get` | system/asset/texture/texture.go:143-155 | Lookup errors pass through, a non-Texture2D gives `AssetType`, and otherwise the answer is the entry's identifier. |
| `AssetTexture.Handler.MustGet` | system/asset/texture/texture.go:158-165 | Callable exactly when Get succeeds, and returns Get's answer. |
| `AssetMesh.Handler.constructor` | system/asset/mesh/mesh.go:99-105 | A new handler has no items. |
| `AssetMesh.Handler.Add` | system/asset/mesh/mesh.go:50-65 | A duplicate name gives `AssetExists` without touching the mesh. A mesh whose Alloc fails is refused with Alloc's error (`UploadError` of its geometry) and no entry. Success inserts exactly name ↦ mesh id. |
| `AssetMesh.Handler.Get` | system/asset/mesh/mesh.go:68-83 | Lookup errors pass through, a non-Mesh gives `AssetType`, and otherwise the answer is the entry's identifier. |
| `AssetMesh.Handler.MustGet` | system/asset/mesh/mesh.go:86-93 | Callable exactly when Get succeeds, and returns Get's answer. |

## Left out

- `UIController.Controller.Resize`: the resize of the controller's game object `RectTransform` is left out, because the transform belongs to the scene graph, which is not part of this model.
- Every OpenGL call is left out (texture and buffer generation, parameters, framebuffers, stencil and blend state, draws). Where it matters, the model records the state or the call sequence instead. This includes the texture's `uploadFunc` hook, called by `Alloc`, `SetGLFormats` and `SetSize` (graphics/texture.go:291, 394, 424; graphics/texture_base.go:66, 152, 171). Its re-upload is not modelled, and neither is the panic of a bare `BaseTexture` whose hook is nil.
- GLFW and input queries are parameters: the resize flag, the pending-events flag, the mouse flags and the window resolution.
- Image, gob and JSON decoding are left out. Their decoded results are parameters, and a failed decode is `None`.
- Concurrency is left out: the handlers' `sync.RWMutex`, the signal goroutine and `sync.Once`. `setApp` is a set-once field, and a `Quit` from the signal handler during `Run` is not modelled.
- The time system's float accumulator behind `LogicUpdate` is left out. Its answers are a boolean oracle, and only the `maxFrameSkip` cap is modelled.
- Float vector and colour contents are opaque values.
- ui/styles.go, graphics/texture_color.go, ui/prefabs/debug.go and ui/prefabs/splash.go are not part of this model: they hold no logic of the core.
- `Handler.Load` in system/asset/mesh/mesh.go has an empty body, so there is nothing to model.
- The commented-out scene dispatch in `onUpdate`, `onDisplay` and `onFixedUpdate` is not live code.
- The built-in system name constants are defined in files that are not part of this model. `CoreApp` uses its own four distinct strings for them.
- core.BaseAssetHandler, the instance registry and scene.Scene/GameObject are not part of this model. `AssetRegistry` models their lookup, and the arena models the object tree.
- Graphics `Texture2D` is not part of this model: the texture handler builds a `BaseTexture` and takes the allocation result as a parameter.
- A JSON tree with nil entries cannot be written: the decoded tree is a datatype, so every child, component payload and root object is present. In the source, a `null` child, component payload (marshaller.go:106-107) or root object (marshaller.go:130-131) is dereferenced and panics.
- `Widget.Redraw` and `Mask.Refresh` are left out: they are GL drawing only.
- `CoreApp.App.Run`: the window's `ShouldClose` is taken as first true at a given frame, so a window that never closes (a loop that never ends) is not modelled.
- `UIMask.Mask.WriteMask`: shader and mesh binding and the two matrix uniforms are not in the reported call sequence.
- `GraphicsMesh.Mesh.Load`: an out-of-range face index panics in the source. The model requires the indices to be in range for the known face layouts.

## Findings

| source | as written | input that shows it | evidently intended | confidence | as-written member | corrected member |
|---|---|---|---|---|---|---|
| system/asset/texture/texture.go:86-97 | `color.AlphaModel` and `color.Alpha16Model` images get the two-channel formats RG8 and RG16. | Any `image.Alpha` image: it holds 1 byte per pixel, but RG8 expects 2 per texel, so the upload reads twice the pixel data. | The one-channel formats R8 and R16, which match the decoded image's bytes per pixel. | not executed | `AssetTexture.ModelFormatTexelBytes` | `AssetTexture.IntendedModelFormat` |

`AssetTexture.Handler.Load` keeps the mapping as written, so the model of the handler stays the code's behaviour.
