# Cube-Map-Exercise viewer: sphere mesh and keyboard handler

This project models the two pieces of the viewer program in `Test.cpp` that
have discrete logic of their own, and proves properties about them in Dafny.

- **`createSphereCoordinates`** builds a UV sphere with `stacks` horizontal
  bands and `sectors` vertical slices.
  - The vertex pass writes one eight-float record for each point of the
    (stacks + 1) x (sectors + 1) grid, in row-major order. Each record holds
    position, normal and texture coordinate (j / sectors, i / stacks).
  - The index pass writes two triangles per quad of the grid. It leaves out
    the triangle of the first stack that would collapse onto the north pole,
    and the one of the last stack that would collapse onto the south pole.
- **`processInput`** runs once per frame.
  - Escape requests that the window close. `1` selects wire-frame polygons
    and `2` selects filled ones.
  - The arrow keys, in the order Right, Down, Up, Left, update two angle
    accumulators (`rotateY`, `rotateX`) and two direction flags (`left`,
    `up`). Each held arrow rotates the model transform about one axis by the
    accumulator's new value.

The project has four modules:

- `SphereVertices` (`sphere_vertices.dfy`) is the vertex buffer as a pure
  function of the grid, with the row-major index arithmetic.
- `SphereIndices` (`sphere_indices.dfy`) is the index buffer as a pure
  function. It is built from grid triangles, flattened through the row-major
  index.
- `SphereMesh` (`sphere_mesh.dfy`) holds the two loop nests of the source as
  methods. They append to caller-owned buffers and are proved equal to the
  pure functions above.
- `KeyboardInput` (`keyboard_input.dfy`) is the handler as a pure step
  function, from the prior viewer state and the set of held keys to the
  next state and the rotations applied.

Modelling choices:

- Floats of the vertex buffer are a datatype:
  - an exact real, for texture coordinates;
  - `NaN`, which is what the texture coordinate `0.0f / 0.0f` yields for
    zero sectors or zero stacks;
  - an uninterpreted trigonometric value, named by its field and its grid
    point (see "## Left out" for what the model does not say about it).
- Angles are integers counting steps of 0.01 degrees.
- The rotation matrices are replaced by the sequence of single-axis
  rotations that a frame applies, in order.
- `sectors` and `stacks` are natural numbers. The source types them as
  `float` but uses them only as whole counts.

Two consequences of the code are worth stating on their own:

- **Index count.** The index pass writes 6·sectors·(stacks − 1) indices,
  because the first stack and the last stack each drop one of their two
  triangles per sector (`SphereIndices.IndexCount`). Stack 0 keeps only the
  triangle (s1 + 1, s2, s2 + 1); the last stack keeps only (s1, s2, s1 + 1).
- **Rotation speed.** Each frame rotates the transform by the accumulator's
  new value, and the accumulator grows by one step every frame the key is
  held. So the per-frame rotation grows by one step every frame
  (`KeyboardInput.HoldingRight`).

## Model

| member | source | states |
|---|---|---|
| SphereMesh.CreateSphereCoordinates | Test.cpp:225-309 | Appends the sphere's vertex records and triangle indices. Both buffers keep their prior contents as a prefix. The vertex buffer grows by exactly 8·(stacks+1)·(sectors+1) floats. The index buffer grows by 6·sectors·(stacks−1) entries, or by none when stacks is 0. Every new index names a vertex written by the same call. |
| SphereMesh.PushVertices | Test.cpp:247-275 | The vertex loop nest appends exactly the reference vertex buffer, in row-major order. |
| SphereMesh.PushRow | Test.cpp:253-274 | One pass of the inner vertex loop appends the records of row i, column after column. Each record is position, then normal, then texture coordinate. |
| SphereMesh.PushIndices | Test.cpp:279-308 | The index loop nest appends exactly the reference index buffer, stack after stack. |
| SphereMesh.PushStack | Test.cpp:279-307 | For one stack, s1 starts at i·(sectors+1) and s2 one row later. Walking both along the row appends the stack's triangles in sector order. |
| SphereMesh.PushSector | Test.cpp:290-306 | One sector appends (s1, s2, s1+1) unless it is the first stack, then (s1+1, s2, s2+1) unless it is the last stack. These are exactly the flattened corners of its grid triangles. |
| SphereVertices.TexCoord | Test.cpp:270-273 | A texture coordinate k / count is NaN exactly when count is 0, and is exact otherwise. |
| SphereVertices.TexCoordFraction | Test.cpp:270-273 | Over a positive count, the coordinate times count equals k. It lies in [0, 1], is 0 for k = 0 and is 1 for k = count. |
| SphereVertices.VertexBufferSize | Test.cpp:247-274 | The vertex pass writes exactly 8·(stacks+1)·(sectors+1) floats. |
| SphereVertices.RowStartProduct | Test.cpp:282 | Counting whole rows one at a time gives the source's closed form i·(sectors+1) for the first index of row i. |
| SphereVertices.VertexLayout | Test.cpp:247-274 | Grid point (i, j) owns the eight floats starting at 8·(i·(sectors+1)+j): its three position floats, its three normal floats, then (j / sectors, i / stacks). |
| SphereVertices.PointAt | Test.cpp:247-274 | Float f of the record of grid point (i, j) sits at position 8·PointIndex(i, j) + f of the vertex buffer. |
| SphereVertices.TexCoordS | Test.cpp:270 | With sectors > 0, the s coordinate of point (i, j) is the exact fraction j / sectors in [0, 1]. It is 1 on the seam column j = sectors. |
| SphereVertices.TexCoordT | Test.cpp:271 | With stacks > 0, the t coordinate of point (i, j) is the exact fraction i / stacks in [0, 1]. It is 0 on the first row and 1 on the last. |
| SphereVertices.DegenerateTexCoords | Test.cpp:270-271 | The s coordinates are NaN exactly when sectors is 0. The t coordinates are NaN exactly when stacks is 0. |
| SphereIndices.IndexCount | Test.cpp:279-307 | For zero stacks the index pass writes nothing. Otherwise it writes 6·sectors·(stacks−1) indices. |
| SphereIndices.TrianglesCount | Test.cpp:279-307 | Stacks 0 .. m−1 hold sectors·(2m−1) triangles while the last stack is not among them, and sectors·(2m−2) once it is. |
| SphereIndices.TrianglesWellShaped | Test.cpp:282-305 | Every triangle has three distinct corners of one grid quad. It uses both rows i and i+1 and puts at most one corner on each pole row. |
| SphereIndices.PoleStacks | Test.cpp:293-306 | The first stack keeps only triangles with two corners on row 1. The last stack keeps only triangles with two corners on row stacks−1. |
| SphereIndices.SectorIndices | Test.cpp:282-305 | A sector's grid triangles flatten to the source's (s1, s2, s1+1) and (s1+1, s2, s2+1), with s1 the index of point (i, j) and s2 = s1 + sectors + 1. |
| SphereIndices.PointIndexInjective | Test.cpp:282-283 | Distinct grid points get distinct row-major indices. |
| SphereIndices.PointIndexBound | Test.cpp:282-283 | Every grid point's index is below (stacks+1)·(sectors+1). |
| SphereIndices.IndexTriangle | Test.cpp:295-305 | Each triple of the index buffer holds three pairwise-distinct indices, each below the vertex count. |
| SphereIndices.IndexBounds | Test.cpp:282-305 | Every entry of the index buffer is below the number of vertices written. |
| SphereIndices.FlattenAt | Test.cpp:295-305 | Triangle k of a triangle list occupies index-buffer entries 3k .. 3k+2, in push order. |
| SphereIndices.FlattenConcat | Test.cpp:279-307 | Flattening is compatible with appending, so the buffer is built stack by stack. |
| SphereIndices.TrianglesStep | Test.cpp:279-307 | Stack i's indices follow those of all earlier stacks. |
| KeyboardInput.ProcessInput | Test.cpp:168-210 | The window closes when it already was closing or when Escape is held. 2 wins over 1, which wins over the prior polygon mode. Each held arrow applies exactly one rotation. |
| KeyboardInput.RightArrow | Test.cpp:177-184 | The Right branch applies one rotation exactly when held. It never touches up or rotateX, leaves the polygon mode and close request alone, and keeps earlier rotations. |
| KeyboardInput.DownArrow | Test.cpp:185-192 | The Down branch applies one rotation exactly when held. It never touches left or rotateY, leaves the polygon mode and close request alone, and keeps earlier rotations. |
| KeyboardInput.UpArrow | Test.cpp:193-200 | The Up branch applies one rotation exactly when held. It never touches left or rotateY, leaves the polygon mode and close request alone, and keeps earlier rotations. |
| KeyboardInput.LeftArrow | Test.cpp:202-209 | The Left branch applies one rotation exactly when held. It never touches up or rotateX, leaves the polygon mode and close request alone, and keeps earlier rotations. |
| KeyboardInput.YawOfFrame | Test.cpp:177-184 | Closed form of one frame's effect on left and rotateY, for every combination of Right and Left. A direction flip restarts the accumulator before it steps. |
| KeyboardInput.PitchOfFrame | Test.cpp:185-200 | Closed form of one frame's effect on up and rotateX, for every combination of Down and Up. A direction flip restarts the accumulator before it steps. |
| KeyboardInput.RightAndLeftTogether | Test.cpp:177-209 | Holding Right and Left in one frame ends with left set and rotateY at −1 step. |
| KeyboardInput.AxesIndependent | Test.cpp:177-209 | Down and Up never affect left or rotateY. Right and Left never affect up or rotateX. |
| KeyboardInput.RightAlone | Test.cpp:177-184 | A frame with only Right held steps the yaw, restarting it after leftward counting, and applies that one y-axis rotation. |
| KeyboardInput.ProcessInputKeepsSigns | Test.cpp:177-209 | Each frame preserves the invariant that rotateY < 0 exactly when left is set, and rotateX > 0 exactly when up is set. |
| KeyboardInput.Run | Test.cpp:139-141 | The handler called once per frame, each call on the previous frame's state, with the rotations of all frames kept in order. With no frames the state is unchanged and no rotation is applied; longer runs are characterised by ReachableSignsAgree and HoldingRight. |
| KeyboardInput.ReachableSignsAgree | Test.cpp:34-35 | From the start-up state (flags false, accumulators 0), every run of frames keeps that sign invariant. |
| KeyboardInput.Ramp | Test.cpp:177-184 | The rotations of n climbing frames: the k-th rotates by base + k + 1 steps about the y axis. |
| KeyboardInput.HoldingRight | Test.cpp:177-184 | Holding Right for n frames ends with left cleared and rotateY at base + n. The frames rotate by base+1, base+2, …, base+n, so the per-frame rotation grows every frame. |

## Left out

- The `radius` parameter and the positions and normals computed with `sinf`/`cosf`. They appear only as symbolic values named by field and grid point; their geometry, including the counter-clockwise winding, is not stated.
- `Trig` values are uninterpreted. As Dafny constructors they differ from `NaN` and from each other, but the source does not promise that. For zero stacks, `i / stacks` makes the angle, and so all six position and normal floats, NaN. For zero sectors, x, y, nx and ny are NaN. A radius of 0 makes the normals NaN. z and nz are computed once per row, so every column of a row shares them. No contract in the model relies on `Trig` values being distinct from each other or from `NaN`.
- Single-precision rounding. Texture coordinates are exact fractions. The float loop counters in the vertex pass count exactly, as they do for any grid below 2^24 points per side.
- HoldingRight: the `float` accumulators `rotateX` and `rotateY` drift a little with every `0.01f` added, and once they pass 2^18 degrees adding `0.01f` no longer changes them at all. The integer step counts, including `base + n`, describe the exact-arithmetic model, not the float program.
- The 32-bit `unsigned int` index buffer and the `int` loop variables. Indices are unbounded naturals, so wrap-around for huge grids is not modelled.
- Non-integer or negative `sectors` or `stacks`. The source accepts any `float`; the model takes natural numbers. A negative count makes the corresponding loops run zero times.
- The unused local `texCoords` vector of `createSphereCoordinates`, which is never read.
- `glm::rotate` and the model matrix. Only the axis and angle of each rotation, in order, are kept.
- `glPolygonMode` and `glfwSetWindowShouldClose`. They are represented only as the `mode` and `shouldClose` fields of the viewer state.
- `glfwGetKey`. The keys held in a frame are a parameter (a set of keys) rather than a query of the window.
- Everything in `main` except the once-per-frame call of the handler: window and context setup, GLAD loading, buffer and texture creation, HDR loading with `stbi_loadf`, clearing and draw calls.
- Run: frames after the close request are still stepped. The source's loop stops at the next `glfwWindowShouldClose` check, so `Run` covers a superset of the real runs. The `Shader` class is not part of this model. All of these are graphics-API and file I/O.
- The cube-map baking program in `Cube Map Exercise.cpp` is not part of this model.
