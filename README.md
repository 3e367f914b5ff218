# Asset loading, mesh assembly and camera control of a small wgpu engine

This project models, in Dafny, the parts of the engine that make decisions:

- **Asset selection** (`src/resources.rs`). The game's assets live in one tar
  archive, `game.assets`. `load_texture`, `read_game_assets` and `load_model`
  each walk the archive's entries in order. They copy the bytes of the first
  entry they accept and stop. `load_texture` and `load_model` accept entries
  whose parent directory is exactly `textures` or `res` and whose file name is
  the one asked for. `read_game_assets` accepts the entry whose whole path is
  the one asked for. Here the archive is a sequence of entries, each a list of
  path components plus its bytes (module `Assets`).
- **Materials** (`src/resources.rs`). `load_model` loads each parsed material's
  diffuse texture as a colour map and its normal texture as a normal map. A
  material that lacks either texture name, or whose texture `Texture::from_bytes`
  rejects, stops the load. The material-library
  callback looks up the library under `res`.
- **Mesh assembly** (`src/resources.rs`, module `Meshes`).
  - One vertex is built per three position floats, with tangent and bitangent
    at zero.
  - The tangent pass walks the index list one triangle at a time. It computes
    the triangle's tangent and bitangent from the two position edges and the
    two texture-coordinate edges, adds them onto each corner's vertex, and
    counts the corner in a side array.
  - Finally it divides every vertex's sums by its count.
  - The pass is modelled in place on an `array` of vertices, with the counts in
    a second array, and proved against specification functions over the index
    list.
- **Cubemap dispatch** (`src/resources.rs`, module `Cubemap`). The number of
  16-wide workgroups per side of a cube face, and the `(w, w, 6)` dispatch.
- **Camera control** (`src/camera.rs`, module `Camera`).
  - `CameraController` queues key presses.
  - Once per frame, `update_camera` moves the camera's eye: forward and
    backward along the line of sight, then right and left around the target.
    Then it clears the queue.
  - `CameraUniform` holds what is uploaded to the GPU.
  - These are classes with the source's fields, and methods that update them.

Geometry is exact real arithmetic (module `Vectors`). Dafny has no square root,
so cgmath's `magnitude` is a parameter `norm`. `IsMagnitude(norm)` says it is
non-negative, that its square is the dot product of the vector with itself,
and that it is positive on non-zero vectors. `normalize(v)` is `v` scaled by
`1 / norm(v)`. Every distance property of the camera is derived from those
facts. Rust's `Option`, `Result` and the truncating `as u32` are in module
`Lang`.

## Model

| member | source | states |
|---|---|---|
| `Assets.FirstMatch` | src/resources.rs:39-48 | the position of the first accepted entry in archive order: it is accepted, no earlier entry is, and there is none exactly when no entry is accepted |
| `Assets.SelectedIsFirst` | src/resources.rs:39-48 | an accepted entry with no accepted entry before it is the one whose bytes are used |
| `Assets.SelectedAppend` | src/resources.rs:39-48 | entries after the first accepted one are never read; without an accepted entry in front, the result is the back part's |
| `Assets.Scan` | src/resources.rs:39-48 | the scanning loop returns exactly the first accepted entry's bytes, or no bytes when nothing is accepted |
| `Assets.LoadTextureBytes` | src/resources.rs:36-48 | `load_texture` reads the first entry with parent `textures` and the requested file name |
| `Assets.ReadGameAssets` | src/resources.rs:53-67 | `read_game_assets` reads the first entry whose whole path matches, and no bytes (not an error) when none does |
| `Assets.LoadModelText` | src/resources.rs:86-99 | the load stops with `ModelNotFound` exactly when the selected `res/<name>` text is empty; otherwise that text is used |
| `Assets.ModelTextMissing` | src/resources.rs:86-99 | the text is empty both when no `res/<name>` entry exists and when the first such entry is empty |
| `Assets.LoadMaterialLibrary` | src/resources.rs:109-115 | the callback reads what `read_game_assets` yields for `res` pushed with `p` (`PathBuf::push`, which `MaterialLibraryPath` defines: `p` under `res`, or `p` itself when it is absolute) |
| `Assets.MaterialsSucceed` | src/resources.rs:118-129 | the materials load exactly when every material names both textures and `Texture::from_bytes` accepts both (the `decodes` parameter); material i then has the i-th name, its diffuse texture read as a colour map and its normal texture as a normal map |
| `Assets.MaterialsFailOnFirst` | src/resources.rs:118-122 | when some material cannot be loaded, the load fails with the error of the first such material |
| `Assets.MaterialError` | src/resources.rs:119-121 | a material that cannot be loaded fails: a missing name reports the material; an undecodable texture reports a file that the material names and that does not decode; a missing diffuse name, and a diffuse texture that does not decode, are reported before anything about the normal texture |
| `Assets.AbsentDiffuseTexture` | src/resources.rs:38-50 | a named texture with no `textures/` entry is decoded from no bytes, and the material fails on it when the decoder rejects empty input |
| `Assets.LoadMaterials` | src/resources.rs:118-129 | the material loop, which loads the diffuse texture before it checks the normal name, returns what the material specification says: the materials in order, or the first failure |
| `Meshes.BuildVertices` | src/resources.rs:133-149 | one vertex per three position floats, rounded down |
| `Meshes.BuildVerticesRoundTrip` | src/resources.rs:133-149 | flattening the built vertices gives back the positions, texture coordinates and normals cut to whole vertices; every tangent and bitangent starts at zero |
| `Meshes.SolveCoordinate` | src/resources.rs:166-168 | each coordinate of the tangent and bitangent formula solves the 2x2 system of the texture-coordinate edges (Cramer's rule) |
| `Meshes.TriangleBasisSolves` | src/resources.rs:162-168 | each position edge equals the tangent times the edge's u minus the computed bitangent times its v |
| `Meshes.ReferenceCountIsOccurrences` | src/resources.rs:181-183 | the reference count of a vertex after n index entries is its number of occurrences among them |
| `Meshes.Referenced` | src/resources.rs:185-186 | the final count is positive exactly when the vertex occurs in the index list, so the division is defined |
| `Meshes.AddCorner` | src/resources.rs:169-183 | adding one corner extends the accumulated sums and counts by that index entry |
| `Meshes.AddTriangle` | src/resources.rs:152-184 | one loop iteration adds the triangle's tangent and bitangent to its three corners and counts them |
| `Meshes.ComputeTangents` | src/resources.rs:150-189 | after the pass, each vertex's tangent and bitangent are the sums over its index occurrences divided by its count; position, texture coordinates and normal are unchanged |
| `Meshes.UniformSum` | src/resources.rs:169-183 | when every triangle at a vertex has the same tangent and bitangent, the sums are that many copies of them |
| `Meshes.UniformAverage` | src/resources.rs:184-189 | averaging equal contributions gives back the common tangent and bitangent |
| `Meshes.MeshContents` | src/resources.rs:133-206 | a mesh is named after the model file, keeps the parser's indices, has `num_elements` equal to their count cut to 32 bits and material `material_id` or 0, and vertex i takes positions[3i..3i+3], texcoords[2i..2i+2] and normals[3i..3i+3] |
| `Meshes.MeshTangentsAveraged` | src/resources.rs:150-189 | a mesh vertex's tangent and bitangent are the per-triangle sums divided by the number of occurrences of the vertex in the index list |
| `Meshes.LoadMesh` | src/resources.rs:132-206 | the mesh built from one parsed model is the mesh the specification describes |
| `Meshes.LoadModel` | src/resources.rs:74-209 | `load_model` fails on a missing text, then on the first material without both texture names or with a texture that does not decode, and otherwise yields one specified mesh per parsed model with the loaded materials |
| `Meshes.ModelLoads` | src/resources.rs:86-129 | the model loads exactly when its text is non-empty and every material names both textures and both decode; it then has one mesh per model and one material per parsed material |
| `Lang.AsU32` | src/resources.rs:205 | `as u32` keeps the value below 2^32 and otherwise agrees with it modulo 2^32 |
| `Cubemap.WorkgroupsAsWritten` | src/resources.rs:344 | the written expression with wrapping `u32` addition never exceeds one more than `dst_size / 16` |
| `Cubemap.AsWrittenWrapsToZero` | src/resources.rs:344 | for `dst_size` = 2^32 - 15 the written expression gives 0 workgroups, which cover nothing |
| `Cubemap.AsWrittenUndercovers` | src/resources.rs:344 | every size above 2^32 - 16 gets 0 workgroups from the written expression |
| `Cubemap.Workgroups` | src/resources.rs:344 | the ceiling of `dst_size / 16`: 16 times it covers `dst_size`, one fewer would not, and it is 0 only for size 0 |
| `Cubemap.AsWrittenIsCeiling` | src/resources.rs:344 | for every size up to 2^32 - 16 the written expression is that ceiling |
| `Cubemap.CubemapDispatch` | src/resources.rs:344-347 | the corrected dispatch (built on `Cubemap.Workgroups`, which equals line 344's count up to 2^32 - 16): square in x and y, 6 layers, and it covers the face |
| `Cubemap.DispatchCoversFaces` | src/resources.rs:344-347 | with the corrected dispatch, every texel of every one of the six faces lies in a dispatched workgroup |
| `Camera.Camera.constructor` | src/camera.rs:11-19 | a camera holds exactly the given eye, target, up and projection parameters |
| `Camera.CameraUniform.constructor` | src/camera.rs:35-41 | a new uniform has the identity view-projection and a zero view position |
| `Camera.CameraUniform.UpdateViewProj` | src/camera.rs:42-45 | the view-projection is the camera's matrix and the view position is the eye with w = 1 (cgmath's `to_homogeneous`) |
| `Camera.ForwardDir` | src/camera.rs:72-74 | the normalised line of sight has magnitude 1, and the line of sight is it stretched by the distance to the target |
| `Camera.SteppedAlongForward` | src/camera.rs:72-80 | after the forward and backward keys, the target lies along the same unit direction at the stepped distance |
| `Camera.StepDistancePositive` | src/camera.rs:75-80 | with a non-negative speed, those steps never bring the eye onto the target |
| `Camera.StrafeDefined` | src/camera.rs:82-90 | neither strafing direction is the zero vector, so normalising it is defined |
| `Camera.StrafedDistance` | src/camera.rs:85-90 | a strafe puts the eye at the distance from the target that the eye had just before it |
| `Camera.TargetDistance` | src/camera.rs:70-92 | whatever keys are pending, the frame leaves the eye at the stepped distance: strafing preserves it |
| `Camera.ForwardStep` | src/camera.rs:72-77 | forward alone, with the target farther than `speed`, moves the eye by exactly `speed` towards the target, to distance old distance minus `speed` |
| `Camera.ForwardBlocked` | src/camera.rs:75-77 | forward does not move the eye once the target is within `speed` |
| `Camera.ForwardBackwardCancel` | src/camera.rs:75-80 | forward and backward together cancel when the forward guard holds; otherwise only the backward step of `speed` away from the target is applied |
| `Camera.LeftOverridesRight` | src/camera.rs:82-90 | with left pending, also pressing right changes nothing: left's result overwrites right's |
| `Camera.OnlyMembershipMatters` | src/camera.rs:70-92 | two queues holding the same directions give the same eye, whatever the order or repetition |
| `Camera.NoInputNoMove` | src/camera.rs:70-92 | with no pending key the eye does not move |
| `Camera.CameraController.constructor` | src/camera.rs:60-66 | a new controller has the given speed, zero position and no pending keys |
| `Camera.CameraController.ProcessKeyboard` | src/camera.rs:67-69 | a key press is appended to the queue and nothing else changes |
| `Camera.CameraController.StepAlongSight` | src/camera.rs:71-80 | the forward/backward half of a frame moves the eye as `SteppedEye` says and returns the unit line of sight |
| `Camera.CameraController.Strafe` | src/camera.rs:82-90 | the strafing half, from the line of sight and distance computed before it, gives the frame's eye |
| `Camera.EyeOffTarget` | src/camera.rs:70-92 | with a non-negative speed the frame never puts the eye onto the target |
| `Camera.CameraController.UpdateCamera` | src/camera.rs:70-92 | the new eye is the frame's eye for the old queue and is not the target (so the next call's precondition holds), the queue is empty, and speed, position, target, up, aspect, fovy, znear and zfar are unchanged |

`Camera.EyeOffTarget`, proved from `Camera.TargetDistance` and
`Camera.StepDistancePositive`, shows that with a non-negative speed the eye
never lands on the target, so the next frame's normalisation is again defined.

## Left out

- `f32` arithmetic: every float is an exact real. Rounding, NaN and infinity are not modelled.
  - A zero texture-coordinate determinant, an unreferenced vertex (`1.0 / 0`) and an eye on the target would each give NaN or infinity in the source.
  - The model requires these away instead: `Meshes.Triangulated`, `Meshes.MeshInputOk`, and `camera.eye != camera.target` in `Camera.CameraController.UpdateCamera`.
- `Camera.CameraController.UpdateCamera`: requires a non-negative speed, which the source does not demand. With a negative speed the backward step can put the eye on the target, where `normalize` yields NaN.
- `Meshes.ComputeTangents`: requires whole triangles (`|indices| % 3 == 0`); the loader asks the parser to triangulate. A trailing partial chunk would make the source panic on `c[2]`.
- `Meshes.ComputeTangents`: adds the tangent, the bitangent and the count corner by corner. The source adds the three tangents, then the three bitangents, then the three counts. The fields are distinct, so the resulting state is the same.
- The reference counts are unbounded naturals. The source's integer counter overflow is not modelled.
- The tar format, reading entries and I/O errors are not modelled. This covers the `?` and `unwrap` on entries, paths and bytes, `load_string`, `load_binary` and `get_location_of_assets`. The archive is given as its list of entries, with paths already split into normal components.
- `Assets.LoadModelText`: accepts any bytes as model text, while `read_to_string(..)?` at src/resources.rs:93 fails on text that is not valid UTF-8; UTF-8 decoding is not modelled.
- `Assets.Accepts`: compares the requested name with one path component as a raw string. Rust compares it as a `Path`, so a name such as `a.png/` also matches the entry `a.png`; path parsing is not modelled.
- Every texture lookup of one model reads the same archive. The source reopens the file for each lookup.
- The OBJ/MTL parser (`tobj`) is not modelled. Its models and materials are inputs of `Meshes.LoadModel`, and `Assets.LoadMaterialLibrary` only models which bytes the callback hands to it. A parse error (`obj_materials?`) is not modelled.
- Image decoding and GPU upload are not modelled: buffer creation, bind groups, and what `Texture::from_bytes` produces. A texture is its file name, its bytes and its normal-map flag, and a mesh holds the contents of its vertex and index buffers. Whether `Texture::from_bytes` accepts a texture is the parameter `decodes`; a texture named but absent from the archive is handed to it as no bytes.
- `Meshes.MeshInputOk`: requires texture-coordinate and normal arrays at least as long as the positions need, and every index below the vertex count. The source indexes those arrays unchecked (src/resources.rs:140-144, 153), so a parsed model with short arrays (an OBJ without `vt` or `vn` lines) or an out-of-range index makes `load_model` panic; the model requires these away instead of modelling the panic.
- `Cubemap.WorkgroupsAsWritten`: models the release build, where the `u32` addition wraps. A debug build panics on that overflow instead.
- Panics are modelled as `Failure` results: `panic!` on an empty model text, and `unwrap` on a missing texture name. The source aborts instead of returning.
- The camera matrices are not modelled: `build_view_projection_matrix`, `look_at_rh` and `perspective`. `Camera.CameraUniform.UpdateViewProj` receives the matrix as a parameter.
- `magnitude` is the parameter `norm` constrained by `IsMagnitude`. `normalize` is defined from it.
- The compute shader's workgroup size is not part of this model. `Cubemap.DispatchCoversFaces` assumes 16 x 16 tiles, as the dispatch arithmetic implies.
- The rest of `HdrLoader` is not part of this model: texture creation, HDR decoding and pipeline set-up.
- `src/hdr.rs`, `src/renderer.rs`, `src/window.rs`, `src/text.rs`, `src/main.rs` and `build.rs` are not part of this model. They are GPU, window, text and build plumbing.

## Findings

| source | as written | input that shows it | evidently intended | confidence | as-written member | corrected member |
|---|---|---|---|---|---|---|
| src/resources.rs:344 | `(dst_size + 15) / 16` with `dst_size: u32`: in a release build the addition wraps | `dst_size` = 4294967281 (2^32 - 15): the sum wraps to 0, so zero workgroups are dispatched and no texel is written | the ceiling of `dst_size / 16` (268435456 here), which covers every texel | low (such sizes are far beyond real textures); not executed | `Cubemap.WorkgroupsAsWritten`, `Cubemap.AsWrittenWrapsToZero` | `Cubemap.Workgroups`, `Cubemap.CubemapDispatch`, `Cubemap.DispatchCoversFaces` |
