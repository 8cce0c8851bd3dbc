# Camera visualizer of the FreeSplatter web UI, in Dafny

The web UI's camera viewer draws a set of cameras as a 3D figure:
- each camera is a wireframe viewing cone (a pyramid);
- it carries a text label at its apex;
- it may carry the camera's image, pasted onto the cone's far plane.

This project models the part of the viewer that decides what gets drawn:
- `calc_cam_cone_pts_3d`, the position of the five cone points for a camera-to-world pose, a field of view and a zoom;
- `CameraVisualizer.__init__`, which keeps the three parallel image lists: raw images, palette-indexed images and colorscales;
- `encode_image`, which turns a palette into a colorscale;
- `update_figure`, which:
  - resolves each camera's field of view;
  - anchors its image quad at cone corner 2;
  - emits a surface, the eight edges and the label for each camera, in order;
  - emits the layout with its axis ranges and titles.

Everything is over mathematical reals. `np.tan` and `np.linalg.norm` are fields of a `Numerics` value the caller passes in. The lemmas that need a real Euclidean norm require `IsEuclidean`. The imaging library's quantiser (`Raster -> IndexedImage`) and its web palette (the flat `getpalette()` list) are inputs as well. Plotly traces and the layout are plain datatypes (`Trace`, `Layout`, `Figure`).

Files:
- `wrappers.dfy`: `Option`.
- `geometry.dfy`: `Geometry`, vectors, poses and the cone.
- `encoding.dfy`: `Encoding`, the palette, colour strings and the colorscale with its reader.
- `scene.dfy`: `Scene`, the traces and layout of `update_figure` as functions, with their properties.
- `visualizer.dfy`: `Visualizer`, the `CameraVisualizer` class.
  - Its constructor has the encoding loop.
  - `UpdateFigure` has the camera loop, and `EdgeTraces` the edge loop.
  - `UpdateFigure` is proved to build exactly `Scene.SceneTraces` and `Scene.SceneLayout`.

## Model

| member | source | states |
|---|---|---|
| Geometry.ConePoints | freesplatter/webui/camera_viewer/visualizer.py:8-49 | exactly five points, point 0 is the pose's translation column (c2w[0,3], c2w[1,3], c2w[2,3]) |
| Geometry.TranslatePose | freesplatter/webui/camera_viewer/visualizer.py:12-14 | moving a pose by v shifts its translation column by v and keeps its rotation block and last row |
| Geometry.ConeCornerOffset | freesplatter/webui/camera_viewer/visualizer.py:16-42 | corner k minus the apex is zoom / norm(R d_k) times R d_k, with d_1..d_4 = (t,t,-1), (-t,t,-1), (-t,-t,-1), (t,-t,-1) and t = tan(fov/2) |
| Geometry.ConeTranslationEquivariant | freesplatter/webui/camera_viewer/visualizer.py:8-49 | translating the pose by v moves all five points by v and leaves every corner offset from the apex unchanged |
| Geometry.ConeZoomLinear | freesplatter/webui/camera_viewer/visualizer.py:27-42 | the apex does not depend on zoom; going from zoom z1 to z2 scales every corner offset by z2 / z1 |
| Geometry.ConeCornerDistance | freesplatter/webui/camera_viewer/visualizer.py:27-42 | with a Euclidean norm every corner offset has squared length zoom^2 and norm abs(zoom) |
| Geometry.ConeIdentityRotation | freesplatter/webui/camera_viewer/visualizer.py:16-24 | with identity rotation, a positive tangent and positive zoom, the norms are defined, all corners lie below the apex, corner 1 is at +x +y, and corners 2, 3, 4 mirror it in x, in x and y, and in y |
| Encoding.PaletteRows | freesplatter/webui/camera_viewer/visualizer.py:97 | the flat palette cut into rows of three: row i is (p[3i], p[3i+1], p[3i+2]), one row per three values |
| Encoding.Colorscale | freesplatter/webui/camera_viewer/visualizer.py:102-103 | one colorscale stop per palette colour |
| Encoding.EncodeImage | freesplatter/webui/camera_viewer/visualizer.py:90-105 | the indexed image is the quantiser's image of the raster; the colorscale has one stop per palette row |
| Encoding.RgbText | freesplatter/webui/camera_viewer/visualizer.py:103 | the colour string starts with 'rgb(' and has at least ten characters; Encoding.RgbTextRoundTrip shows it determines the colour |
| Encoding.Decimal | freesplatter/webui/camera_viewer/visualizer.py:103 | str(n) is a non-empty string of decimal digits |
| Encoding.DecimalRoundTrip | freesplatter/webui/camera_viewer/visualizer.py:103 | the digits str(n) writes denote n |
| Encoding.RgbTextRoundTrip | freesplatter/webui/camera_viewer/visualizer.py:103 | reading back a string 'rgb(r, g, b)' gives the colour it was formatted from |
| Encoding.ColorscaleKeys | freesplatter/webui/camera_viewer/visualizer.py:102-103 | the first key is 0; the keys strictly increase; with at most 256 colours they lie in [0, 1]; with 256 colours the last is 1 |
| Encoding.ColorscaleColors | freesplatter/webui/camera_viewer/visualizer.py:102-103 | the colour of stop i reads back as palette row i |
| Encoding.EncodedColorscale | freesplatter/webui/camera_viewer/visualizer.py:96-105 | stop i of encode_image's colorscale has key i/255 and the colour made of flat palette entries 3i, 3i+1, 3i+2 |
| Scene.ResolveFov | freesplatter/webui/camera_viewer/visualizer.py:133-136 | the fov of a camera is the float when one is given, and otherwise one of the values of the sequence |
| Scene.FovResolution | freesplatter/webui/camera_viewer/visualizer.py:133-136 | the fov of camera i is the float, the single element of a one-element sequence, or element i; in the first two cases all cameras share it |
| Scene.EdgesFormPyramid | freesplatter/webui/camera_viewer/visualizer.py:131 | eight edges: the apex to each corner, each corner to the next around the far plane, nothing else |
| Scene.EdgeLines | freesplatter/webui/camera_viewer/visualizer.py:176-186 | one line per edge |
| Scene.Label | freesplatter/webui/camera_viewer/visualizer.py:189-196 | the label is a text trace carrying the legend at the apex x and y, placed 'bottom center' exactly when apex z < 0 |
| Scene.LabelPlacement | freesplatter/webui/camera_viewer/visualizer.py:189-196 | the label's z is moved 0.05 away from z = 0 (abs(z) grows by 0.05), and it lies below the apex exactly when apex z < 0 |
| Scene.Linspace | freesplatter/webui/camera_viewer/visualizer.py:150 | np.linspace returns n values |
| Scene.LinspaceEnds | freesplatter/webui/camera_viewer/visualizer.py:150 | np.linspace starts at a and, with two or more values, ends at b |
| Scene.LocalGrid | freesplatter/webui/camera_viewer/visualizer.py:146-152 | the local grid is H rows of W points |
| Scene.LocalGridIsProduct | freesplatter/webui/camera_viewer/visualizer.py:148-152 | the meshgrid is a product grid: a column shares its x, a row its y, and every z equals base_radius |
| Scene.LocalGridTopLeft | freesplatter/webui/camera_viewer/visualizer.py:150 | grid point (0, 0) is (-scale, scale * H / W, base_radius) |
| Scene.PlacedGrid | freesplatter/webui/camera_viewer/visualizer.py:154 | rotating and translating the grid keeps its shape |
| Scene.Shifted | freesplatter/webui/camera_viewer/visualizer.py:157 | adding the offset keeps the grid's shape |
| Scene.QuadHalfWidth | freesplatter/webui/camera_viewer/visualizer.py:149 | with a Euclidean norm, the half-width is non-negative and four times its square is the squared distance between cone corners 1 and 2 |
| Scene.PlacedQuad | freesplatter/webui/camera_viewer/visualizer.py:146-154 | the placed image grid has H rows of W points |
| Scene.ImageQuad | freesplatter/webui/camera_viewer/visualizer.py:146-159 | the shifted image grid has H rows of W points |
| Scene.ImageQuadAnchored | freesplatter/webui/camera_viewer/visualizer.py:146-159 | after the shift grid point (0, 0) is cone[2]; the shift keeps every point's position relative to point (0, 0); each placed point is the pose's rotation of the local point plus the camera position |
| Scene.CameraCone | freesplatter/webui/camera_viewer/visualizer.py:137 | the cone of a camera has five points |
| Scene.ImageTraces | freesplatter/webui/camera_viewer/visualizer.py:140-174 | no trace without an image; with one, a single surface carrying the image's indices and colorscale, with cmin 0 and cmax 255 |
| Scene.CameraTraces | freesplatter/webui/camera_viewer/visualizer.py:127-196 | a camera emits 9 traces, 10 when it has an image, and the last is its label at the apex |
| Scene.CameraTracesParts | freesplatter/webui/camera_viewer/visualizer.py:140-196 | a camera's traces are its image traces, then its edge lines, then its label |
| Scene.CameraTracesShape | freesplatter/webui/camera_viewer/visualizer.py:140-196 | a camera emits a surface first exactly when it has an image (with its indices, colorscale and anchor cone[2]), then the 8 edge lines in edge order in the camera's colour and line width, then the label at the apex |
| Scene.CameraTraceCounts | freesplatter/webui/camera_viewer/visualizer.py:140-196 | a camera emits 9 traces plus one if it has an image: 8 lines, 1 text, and 1 surface exactly when it has an image |
| Scene.Blocks | freesplatter/webui/camera_viewer/visualizer.py:126-196 | one block of traces per camera |
| Scene.SceneTraces | freesplatter/webui/camera_viewer/visualizer.py:126-196 | the figure holds 9 traces per camera plus one per camera with an image |
| Scene.SceneLayout | freesplatter/webui/camera_viewer/visualizer.py:199-249 | the height is the given one; all three axes range over [-scene_bounds, scene_bounds] and carry the tick-label, grid and background flags; the titles are 'X', then 'Z'/'Y' under y_up and 'Y'/'Z' otherwise |
| Scene.BlocksCounted | freesplatter/webui/camera_viewer/visualizer.py:126-196 | camera i's block has 9 traces, plus one for an image: 8 lines, 1 label and a surface exactly when it has an image |
| Scene.CountAppend | freesplatter/webui/camera_viewer/visualizer.py:126-196 | the count of a trace kind adds up over concatenation |
| Scene.FlattenCounts | freesplatter/webui/camera_viewer/visualizer.py:126-196 | blocks of 9 traces (8 lines, 1 text) plus a surface per image give 9N + images traces in all |
| Scene.SceneTraceCounts | freesplatter/webui/camera_viewer/visualizer.py:126-196 | the figure has 9N traces plus one per encoded image: exactly 8N lines, N labels and one surface per image, and no other kind of trace |
| Scene.FlattenInOrder | freesplatter/webui/camera_viewer/visualizer.py:126 | the blocks before i, then block i, form a prefix of all blocks in order |
| Scene.SceneInCameraOrder | freesplatter/webui/camera_viewer/visualizer.py:126-196 | cameras are drawn in order: the traces of cameras 0..i-1 and then those of camera i are a prefix of the figure's traces |
| Scene.YUpKeepsTraces | freesplatter/webui/camera_viewer/visualizer.py:108-196 | y_up does not change any camera's block of traces |
| Scene.CameraTracesOptions | freesplatter/webui/camera_viewer/visualizer.py:108-196 | a camera's traces depend only on the fov, the line width and base_radius of the options |
| Scene.YUpOnlyRetitles | freesplatter/webui/camera_viewer/visualizer.py:218-247 | y_up changes neither the traces nor the x axis nor height; on the y and z axes it changes only the titles, and swaps them; the swapped titles differ, so y_up does change both |
| Visualizer.EncodedBits | freesplatter/webui/camera_viewer/visualizer.py:67-79 | one encoded-image entry per input image |
| Visualizer.EncodedColorscales | freesplatter/webui/camera_viewer/visualizer.py:67-79 | one colorscale entry per input image |
| Visualizer.EncodingAligns | freesplatter/webui/camera_viewer/visualizer.py:67-79 | the encoded lists have the length of the image list and are missing exactly where an image is missing |
| Visualizer.ImageAt | freesplatter/webui/camera_viewer/visualizer.py:140-144 | camera i has an image exactly when the encoded list is present, non-empty and holds one at i; it is then made of entry i of the raw, encoded and colorscale lists |
| Visualizer.EntriesOf | freesplatter/webui/camera_viewer/visualizer.py:126-129 | camera i is drawn with pose i, legend i and colour i |
| Visualizer.EncodedImagesReachCameras | freesplatter/webui/camera_viewer/visualizer.py:54-144 | after construction, camera i is drawn with an image exactly when images is non-empty and image i is given; it is then drawn with that raster, its quantised image and the web palette's colorscale |
| Visualizer.NoImagesNoSurfaces | freesplatter/webui/camera_viewer/visualizer.py:63-65 | without images the figure has no surface |
| Visualizer.NoImagesCounted | freesplatter/webui/camera_viewer/visualizer.py:140 | no camera with an image means an image count of zero |
| Visualizer.EdgeTraces | freesplatter/webui/camera_viewer/visualizer.py:176-186 | the edge loop emits exactly the edge lines, in edge order |
| Visualizer.CameraVisualizer.constructor | freesplatter/webui/camera_viewer/visualizer.py:54-79 | stores the lists; fig and the three image lists are None without images; otherwise raw images are the input, and the encoded lists are each image's quantised image and colorscale, None where the image is None; the lists stay aligned |
| Visualizer.CameraVisualizer.Entries | freesplatter/webui/camera_viewer/visualizer.py:126-144 | one entry per pose |
| Visualizer.CameraVisualizer.ImageSurface | freesplatter/webui/camera_viewer/visualizer.py:140-174 | the surface step emits the camera's image traces: none without an image, else one surface on the image quad with cmin 0 and cmax 255 |
| Visualizer.CameraVisualizer.CameraBlock | freesplatter/webui/camera_viewer/visualizer.py:127-196 | the loop body for camera i emits exactly that camera's traces |
| Visualizer.CameraVisualizer.UpdateFigure | freesplatter/webui/camera_viewer/visualizer.py:108-252 | on a valid object (aligned image lists), the returned figure, which is also stored in fig, has the scene's traces in camera order and the scene layout; no other field changes |

## Left out

- Plotly: building and rendering `go.Figure`, `go.Surface` and `go.Scatter3d` is not modelled. That includes the styling `update_layout` sets (autosize, hovermode, margins, legend placement, aspect ratio, camera eye, centre and up, zeroline, spikes, ticks) and the surface lighting and `showscale` flags, which are fixed constants that carry no logic. Traces are plain datatypes.
- The imaging library: quantising a raster to the web palette (`convert('P', palette='WEB')`) and reading that palette (`getpalette`) are foreign calls. They are a function parameter and a list parameter. The size of the palette depends on the library version.
- Mesh and point-cloud loading (lines 81-87): this is file I/O (`os.path.exists`, `trimesh.load`, `np.load`), and `update_figure` never draws the results.
- Floating point: `tan`, `deg2rad`, `norm`, `linspace` and `meshgrid` are computed over the reals, and `Pi` is the float64 value of pi written as a decimal.
- Parameters with no effect on the figure: `zoom_scale`, `mesh_z_shift`, `mesh_scale`, and the unused `radius` (line 138). `camera_x` is stored and never read.
- The TypeError for an integer `fov_deg`, which `len` raises, is not modelled. `Fov` is a float or a sequence of floats.
- Scene.ResolveFov: a one-element sequence is taken as its element. The source passes the sequence itself on to the numpy routines, and what numpy does with that array is not modelled (recent numpy versions raise an error in `np.dot`).
- Scene.LocalGrid: no lemma states its far corner, point (H-1, W-1) = (scale, -scale * H / W). Its contract states the shape, and companion lemmas state the product structure and the (0, 0) anchor.
- Scene.Linspace: the interior values are not stated. Its contract states the length, and Scene.LinspaceEnds the two endpoints.
- Array arithmetic in `update_figure` is done on values, not in place: the matrix products, `concatenate`, and `rot_xyz += offset`.
- A present encoded image is truthy, as the imaging library's image objects are. Only `None` counts as missing.
- Visualizer.CameraVisualizer.UpdateFigure: the source raises an IndexError when legends, colours or a non-empty image list are shorter than the poses. It does the same for an image with zero rows or columns, and for a `fov_deg` sequence that is empty or shorter than the poses without having exactly one element (`FovDefinedAt`). These cases are preconditions here (`Indexable`, `Renderable`), so the error paths are not modelled.
- Geometry.ConePoints: a zero-length rotated corner direction makes numpy divide by zero. This is a precondition here (`ConeDefined`).
