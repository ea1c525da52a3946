# Volume wireframe and bounding-cube geometry

This project models the geometry a small volume viewer builds before it draws anything. A volume is given by its extents (`dims`) and its sample spacings (`spacings`). From these the viewer computes per-axis vertex counts `X, Y, Z = floor(dim / spacing)`. Each count is scaled by the largest count, so that every axis fits in a shared unit space. Two renderable objects come out of this:

- **Wireframe** (`src/Wireframe.cpp`).
  - **Vertex buffer.** It holds only the vertices the lines need, in a fixed order:
    - the bottom cap: the front row of X points, then the leftmost and rightmost point of each interior row, then the back row;
    - Z−2 middle layers of four corners each;
    - the top cap.
    The buffer is then centred on the origin, in place.
  - **Index buffers.** Two index buffers of line pairs are built from hand-derived integer strides alone:
    - the internal grid lines of the six faces, followed by the 12-edge outline;
    - the outline on its own.
    The object records both index counts for its draw calls.
- **Point** (`src/Point.cpp`).
  - The bounding cube: 8 corners, scaled and centred.
  - A parallel table of 0/1 texture coordinates.
  - A fixed list of 36 triangle indices.

**How the model is organised.**

- *Vertex identity.* Every vertex is identified by its integer grid coordinate (column, row, layer). `GridLayout` defines the buffer order in both directions and proves the two inverse:
  - `CoordOf`: index → point;
  - `IndexOf`: point → index.
- *Reference lines.* `Lattice` defines, from coordinates alone, the interior lattice lines of the six faces and the twelve cuboid edges.
- *Generators.* `WireIndices` states the stride-based generators of the source as functions. It proves that they emit exactly `IndexOf` of the reference lines. So every index is in range, and every pair joins two vertices that differ along exactly one axis.
- *Loops.* The source's loops are methods in the following modules, each proved equal to those functions:
  - `WireBuilders` and `WireVertices`: the index and vertex builders;
  - `Geometry.CenterVertices`: the in-place centring of a vertex buffer.
- *Objects.* `WireframeMesh.Wireframe` and `PointMesh.Point` are classes that hold the extents, the spacings and the buffer contents.
- *Arithmetic.* Positions use exact real arithmetic.

## Model

| member | source | states |
|---|---|---|
| GridSpec.CountOf | src/Wireframe.cpp:269-271 | the count is the floor of dim / spacing: at most the ratio and more than the ratio minus one |
| GridSpec.MaxCount | src/Wireframe.cpp:273-274 | the result is one of the three counts and no count exceeds it |
| GridSpec.NormalizedExtentBounds | src/Wireframe.cpp:278-282 | every normalised extent count/maxCount lies in (0, 1], and the axis with the largest count gets exactly 1 |
| GridSpec.StepsSpanExtent | src/Wireframe.cpp:286-288 | count − 1 steps of the step length cover exactly the normalised extent on each axis |
| GridSpec.CentredPositionBounds | src/Wireframe.cpp:321-325 | after centring, each coordinate of a grid point lies in [−len/2, len/2], with the first sample at −len/2 and the last at +len/2 |
| GridSpec.CentredPositionAxes | src/Wireframe.cpp:286-325 | two centred positions agree on an axis exactly when the grid points agree on that axis |
| GridLayout.CoordOfRoundTrip | src/Wireframe.cpp:291-319 | every buffer index holds a stored grid point (an edge point of the box), and looking it up gives the index back |
| GridLayout.IndexOfRoundTrip | src/Wireframe.cpp:291-319 | every stored grid point has an index in the buffer, and decoding that index gives the point back |
| Geometry.CenterVertices | src/Wireframe.cpp:321-325 | vertex k of the array becomes its old value minus half the extents on each axis, for every whole vertex; nothing else changes |
| WireVertices.LineVtx | src/Wireframe.cpp:36-49 | the result has 3·xCount entries and vertex i is (i·xStepLen, y, z) |
| WireVertices.FaceVtxNoInterior | src/Wireframe.cpp:53-81 | the result has 2X + 2(Y−2) vertices: the front row, then the left and right end of each row 1..Y−2, then the back row, at the given height |
| WireVertices.SquareVtx | src/Wireframe.cpp:86-96 | four vertices (0,0), (xLen,0), (0,yLen), (xLen,yLen) at the given height |
| WireVertices.GridVertices | src/Wireframe.cpp:290-319 | the assembled buffer has one vertex per stored grid point, and vertex k is the position of the grid point CoordOf(k) |
| WireIndices.StridesMatchLayout | src/Wireframe.cpp:140-152 | numTopBotVtx = X·Y − (X−2)(Y−2) is the size of a cap and the index of the first mid-layer vertex; zEndStep is the index of the first top-cap vertex; yEndStepBotTop is the index of the back-row start; the buffer holds 2·numTopBotVtx + 4(Z−2) vertices |
| WireBuilders.InternalWireIndicesOneDir | src/Wireframe.cpp:101-110 | 2(dimCount−2) entries; pair i is (base + i·internalStep, base + endStep + i·internalStep) |
| WireBuilders.InternalWireIndicesTwoDir | src/Wireframe.cpp:113-136 | the lines of the first direction followed by those of the second |
| WireBuilders.WireframeIndices | src/Wireframe.cpp:138-228 | 8((X−2)+(Y−2)+(Z−2)) entries, every one a valid vertex index, equal to the internal lines of the faces in the order top, bottom, left, right, front, back |
| WireIndices.InternalWiresFollowLayout | src/Wireframe.cpp:154-211 | the stride-generated pairs are exactly IndexOf applied to the coordinate-defined interior lattice lines, face by face |
| WireIndices.WireframeIndicesInRange | src/Wireframe.cpp:154-228 | every internal wireframe index lies in [0, N), N the vertex count |
| WireIndices.WireframeIndicesJoinLines | src/Wireframe.cpp:154-211 | each internal pair joins two stored points that differ in exactly one grid axis and form an interior lattice line |
| WireIndices.WireframeComplete | src/Wireframe.cpp:154-211 | every interior lattice line of every face appears as a pair |
| Lattice.ReferenceLinesExact | src/Wireframe.cpp:154-211 | a segment is among the face lines exactly when it is an interior lattice line: it runs across one face, between two opposite edge points, off the cuboid edges |
| Lattice.OutlineSegmentsAreEdges | src/Wireframe.cpp:241-250 | the 12 outline segments are edges of the cuboid: two corners that differ along one axis |
| Lattice.OutlineCoversEdges | src/Wireframe.cpp:241-250 | every cuboid edge is one of the outline segments, in one direction or the other |
| WireIndices.CornerIndices | src/Wireframe.cpp:236 | the four literal bottom-corner indices and the same indices plus zEndStep are the buffer indices of the eight corners of the cuboid |
| WireIndices.OutlineWiresFollowLayout | src/Wireframe.cpp:231-259 | the bottom square, top square and pillar pairs are exactly IndexOf applied to the cuboid's edges |
| WireIndices.OutlineIndicesSound | src/Wireframe.cpp:231-259 | exactly 24 indices, every one in [0, N), each pair an edge of the cuboid |
| WireIndices.OutlineComplete | src/Wireframe.cpp:231-259 | every edge of the cuboid appears as an outline pair |
| WireBuilders.OutlineIndices | src/Wireframe.cpp:231-259 | always 24 entries, all valid vertex indices for valid counts, equal to bottom square, top square, then pillars |
| WireframeMesh.Wireframe.constructor | src/Wireframe.cpp:13-19 | stores extents, spacings and the interior flag, and leaves buffers matching them |
| WireframeMesh.Wireframe.SetDimension | src/Wireframe.cpp:21-23 | replaces the extents only |
| WireframeMesh.Wireframe.SetSpacing | src/Wireframe.cpp:25-27 | replaces the spacings only |
| WireframeMesh.Wireframe.InitWireframeBuffers | src/Wireframe.cpp:261-346 | vertex k is the centred position of grid point CoordOf(k); the wireframe buffer is internal lines followed by the outline; wireframeIdxCount = 8((X−2)+(Y−2)+(Z−2)) + 24 and outlineIdxCount = 24 |
| WireframeMesh.VerticesInCentredBox | src/Wireframe.cpp:321-325 | every vertex of the built buffer lies within half the normalised extent of the origin on each axis |
| WireframeMesh.BuffersDrawable | src/Wireframe.cpp:334-346 | both element buffers hold whole pairs of valid vertex indices, and every line they draw runs parallel to one axis |
| PointMesh.Point.constructor | src/Point.cpp:13-18 | stores extents and spacings and leaves buffers matching them |
| PointMesh.Point.SetDimension | src/Point.cpp:20-22 | replaces the extents only |
| PointMesh.Point.SetSpacing | src/Point.cpp:24-26 | replaces the spacings only |
| PointMesh.Point.InitPointBuffers | src/Point.cpp:28-86 | 8 corners of the box of normalised extents, centred; corner i equals tex(i)·Len − Len/2 component-wise; the texture and index tables are the fixed ones |
| PointMesh.CubeExtentBounds | src/Point.cpp:36-46 | each Len is in (0, 1] and one of them is exactly 1 |
| PointMesh.CornersFromTex | src/Point.cpp:49-77 | each corner of the vertex table is its texture coordinate scaled by Len, and after centring it is tex·Len − Len/2 |
| PointMesh.TexBinary | src/Point.cpp:68-77 | every texture component is 0 or 1, and which corners have a 1 on each axis |
| PointMesh.TexDistinct | src/Point.cpp:68-77 | no two corners share a texture coordinate: the table lists the 8 corners of the unit cube |
| PointMesh.CentredCornerCoordinates | src/Point.cpp:49-66 | after centring, every coordinate of a corner is −Len/2 or +Len/2 on its axis |
| PointMesh.IndexTableWellFormed | src/Point.cpp:79-86 | 36 entries, as many as the draw call uses, all in [0, 8), forming 12 triangles of three distinct corners |
| PointMesh.FaceTriangles | src/Point.cpp:79-86 | the two triangles of each face name exactly the 4 corners with the face's constant coordinate (bottom z=0, top z=1, front y=0, back y=1, left x=0, right x=1) |

## Left out

- OpenGL calls are not modelled. This covers buffer and vertex-array creation and upload (src/Wireframe.cpp:361-409, src/Point.cpp:89-113) and the draw calls (src/Wireframe.cpp:411-425, src/Point.cpp:116-119). Only the arrays handed to the GPU and the stored counts are modelled; the draw count 36 appears as `PointDrawCount`.
- IEEE single-precision arithmetic is not modelled. Positions, extents, step lengths and the floor of dim/spacing use exact reals, so rounding, infinities and NaN are not modelled.
- The stride parameters `internalStep` and `endStep` are `float` in the source (includes/vrlib/Wireframe.h:20). They are modelled as integers, which matches the source only while the vertex indices stay below 2^24.
- `int` overflow of counts and indices is not modelled (unbounded integers).
- Count validation is absent from the source. A count below 2 makes a negative vector size (src/Wireframe.cpp:103-104) and a division by zero (src/Wireframe.cpp:286-288). The model therefore requires counts of at least 2 for the wireframe and a nonzero maximum count for the point cube. A spacing of zero is excluded by precondition.
- The `interior` flag is stored by the Wireframe constructor and never read, so no behaviour depends on it.
- The vectors that `getOutlineIndices`, `getFaceVtxNoInterior` and the vertex assembly fill are modelled as sequence values. The preallocation (`reserve`, fixed-size vectors) is not modelled. `getInternalWireIndicesOneDir` and `getLineVtx` keep their index-filling loops over an array.
- The triangle winding of the Point index table is not modelled. The table is not wound consistently: the bottom face lists (1,0,2) and then (0,2,3). The model keeps the table as the code has it, and proves only which corners each face's triangles cover.
- The Shader, the window and input handling, image and volume file reading, the view matrices and the ray-casting renderer are not part of this model.
