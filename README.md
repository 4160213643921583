# TileRenderer core in Dafny

This project models the core of TileRenderer, a small OpenGL tile renderer.
Two parts are covered.

- **The resource objects** (`gl_buffers.cpp`, `gl_vertexarray.h`). They are
  `Buffer`, `FrameBuffer` and `VertexArray`. Each one owns a driver name for
  its whole lifetime. Each one acts on the one global driver state through
  the GL calls it makes.
- **The render engine** (`render_engine.cpp`). Its constructor builds the
  index tables, the mask-coefficient table and the 380-entry tile-origin
  table. It uploads them into a full-screen quad, the mask geometry and a
  uniform block, and creates the off-screen render target. `render` runs the
  mask pass into the off-screen target and then the composite pass to the
  default framebuffer.

The driver is a value, `GL.State`. It holds:

- the buffer bindings, with the element-array binding kept per vertex array;
- the buffer stores, as bytes plus a usage hint;
- the indexed uniform-block bindings;
- the framebuffer, vertex-array, texture and program bindings;
- texture images, framebuffer attachments, attribute layouts and uniform values;
- a trace of the calls whose order matters.

Each GL entry point is a function from the old state to the new one. The
`GL.Driver` class holds the current state. The resource classes are Dafny
classes with `const` names and `var` fields (`target`, `vertexCount`), and
their methods reassign `gl.state`. Host data is modelled as follows:

- unsigned ints and `uvec2` arrays are encoded little-endian as bytes (`HostTypes`);
- the quad's vertex floats are opaque bytes;
- the shader programs and the tileset texture are driver names passed to the constructor.

Modules, one per file: `HostTypes` (bytes.dfy), `GL` (gl_state.dfy),
`GLBuffers` (gl_buffers.dfy), `RenderTables` (render_tables.dfy) and `Engine`
(render_engine.dfy).

Two places where the code is followed as written:

- `vertex_count` is a byte count (see Findings).
- `render_engine.cpp:72` calls `frame_buffer.init(width, height)`, but the only
  FrameBuffer operation in the code is its constructor
  (`gl_buffers.cpp:49-66`). The model builds the target with that
  constructor at that point.

## Model

| member | source | states |
|---|---|---|
| HostTypes.WordRoundTrip | render_engine.cpp:17-21 | a word read back from its four little-endian bytes is the word |
| HostTypes.Words | render_engine.cpp:17-21 | `sizeof` of an unsigned-int array is four bytes per element |
| HostTypes.WordsCons | render_engine.cpp:17-21 | the bytes of an array are those of its first word followed by those of the rest |
| HostTypes.WordsRoundTrip | render_engine.cpp:21 | an index array uploaded as bytes reads back as the same array |
| HostTypes.PairWords | render_engine.cpp:52-64 | a `uvec2` array is two words per element |
| HostTypes.PairWordsCons | render_engine.cpp:52-64 | the words of a `uvec2` array are x, y of the first element followed by those of the rest |
| HostTypes.PairWordsRoundTrip | render_engine.cpp:52-64 | the tile table's word layout reads back as the `uvec2` table |
| GL.BindBuffer | gl_buffers.cpp:16 | glBindBuffer sets the binding of its target only; the other buffer targets, the other vertex arrays' element bindings, and every other field (vertex-array, framebuffer, texture and program bindings, stores, uniform blocks, textures, attachments, layouts, uniforms, trace) are unchanged |
| GL.BufferData | gl_buffers.cpp:17 | with a buffer bound to the target, that buffer (and no other store) gets a `size`-byte store holding a prefix of `data` with `usage`, and one upload is traced; with no buffer bound nothing changes |
| GL.InitialBytes | gl_buffers.cpp:17 | a new store has exactly `size` bytes, a prefix of `data` when `data` is not null |
| GL.Gen | gl_buffers.cpp:5 | glGen* hands out a name above every name issued so far and marks it taken; nothing else changes |
| GL.BindFramebuffer | gl_buffers.cpp:54 | glBindFramebuffer sets the framebuffer binding only; every buffer binding is unchanged |
| GL.BindVertexArray | gl_buffers.cpp:114 | glBindVertexArray switches the element-array binding to the one the vertex array recorded; the array- and uniform-buffer bindings and everything else are kept |
| GL.BindTexture | gl_buffers.cpp:55 | binding a texture selects it for later texture calls and draws without changing its state; every buffer binding is unchanged |
| GL.Use | render_engine.cpp:78 | glUseProgram makes `p` current and traces it; no uniform value changes |
| GL.Uniform | render_engine.cpp:79-81 | glUniform* sets the named uniform of the current program only, and traces the assignment |
| GL.StoreArray | gl_vertexarray.h:44-45 | a whole-array upload leaves exactly that array in the store, and only that store changes |
| GL.Overwrite | gl_buffers.cpp:42 | memcpy into a store: bytes below `size` come from `data`, the rest are the old bytes, the length is unchanged |
| GL.MapCopy | gl_buffers.cpp:41-43 | a mapped write changes only the bound buffer's bytes, which become the overwrite, and keeps its usage |
| GL.MappedWrite | gl_buffers.cpp:40-44 | bind, map-and-copy, unbind is one step that changes the written store and sets the target's binding to 0 |
| GL.BindBufferBase | gl_buffers.cpp:24 | glBindBufferBase sets binding point `index`, and the generic uniform-buffer binding, to the buffer |
| GL.TexImage | gl_buffers.cpp:56 | the bound texture gets a width by height image of the format; its filters are kept |
| GL.TexMinFilter | gl_buffers.cpp:57 | the bound texture's minification filter becomes the given one; its size, format and magnification filter and all other textures are kept |
| GL.TexMagFilter | gl_buffers.cpp:58 | the bound texture's magnification filter becomes the given one; its size, format and minification filter and all other textures are kept |
| GL.AttachColour | gl_buffers.cpp:59 | the bound framebuffer's colour attachment becomes the texture; other framebuffers' attachments and every other field are kept |
| GL.SetLayout | gl_buffers.cpp:117-120 | the vertex array's attribute layout becomes the given list, other vertex arrays keep theirs, and the install is traced |
| GL.DrawElements | gl_buffers.cpp:153 | exactly one draw is appended to the trace, carrying `count` and the program, vertex-array, element-buffer, framebuffer and texture bindings in force; nothing else changes |
| GLBuffers.Buffer.constructor | gl_buffers.cpp:3-6 | the buffer owns a fresh name; its target is not yet known |
| GLBuffers.Buffer.Init | gl_buffers.cpp:14-20 | target becomes `buffer_type`; the buffer is bound there and holds a `size`-byte store with `data` and `usage`; nothing else but the store and the trace changes |
| GLBuffers.Buffer.Bind | gl_buffers.cpp:27-30 | the recorded target's binding becomes the buffer, nothing else changes |
| GLBuffers.Buffer.Unbind | gl_buffers.cpp:32-35 | the recorded target's binding becomes 0, nothing else changes |
| GLBuffers.Buffer.BindUniformBlock | gl_buffers.cpp:22-25 | binding point `index` holds the buffer, whatever its target; `target` is untouched |
| GLBuffers.Buffer.Write | gl_buffers.cpp:38-45 | the store becomes `data[..size] + old[size..]` with its usage kept; the target ends unbound; nothing else changes |
| GLBuffers.Buffer.Load | gl_vertexarray.h:44-45 | the store is replaced by the array with the given usage |
| GLBuffers.FrameBuffer.constructor | gl_buffers.cpp:49-66 | a fresh colour texture, then a fresh framebuffer; the texture has a width by height RGB image with nearest filtering, whatever `format` says; it is attached; framebuffer 0 is bound at the end; construction never fails |
| GLBuffers.FrameBuffer.Bind | gl_buffers.cpp:74-77 | the framebuffer binding becomes this target, nothing else changes |
| GLBuffers.FrameBuffer.BindColourBuffer | gl_buffers.cpp:79-82 | the texture binding becomes the colour attachment, nothing else changes |
| GLBuffers.FrameBuffer.Unbind | gl_buffers.cpp:84-87 | the framebuffer binding becomes 0, nothing else changes |
| GLBuffers.ToGLuint | gl_vertexarray.h:20 | assigning a size to `GLuint` wraps modulo 2^32 and keeps any size that fits |
| GLBuffers.VertexArray.constructor | gl_vertexarray.h:16-29 | the two owned buffers and the vertex array get three fresh, ordered, distinct names; there is no copy or move to share them |
| GLBuffers.QuadLayout | gl_buffers.cpp:117-120 | two unnormalised 2-float attributes packed with no padding: offsets 0 and 8, stride 16, one vertex's size |
| GLBuffers.MaskLayout | gl_buffers.cpp:136-139 | two unnormalised 3-component attributes packed with no padding: offsets 0 and 12, stride 24, one vertex's size |
| GLBuffers.VertexArray.Setup | gl_buffers.cpp:112-148 | vertex store, then layout, then element store, which the vertex array records; the vertex-array and array-buffer bindings end at 0 (the element binding is the vertex array's, and the default one is cleared); `vertexCount` is the element data size in bytes |
| GLBuffers.VertexArray.Init | gl_buffers.cpp:112-129 | Setup with the position/uv layout (two 2-float attributes, stride 16) |
| GLBuffers.VertexArray.InitCustom | gl_buffers.cpp:131-148 | Setup with the line-coefficient layout (two 3-component attributes, stride 24) |
| GLBuffers.VertexArray.Load | gl_vertexarray.h:40-47 | `vertexCount` is `sizeof(E) * SE`; vertex, then element data are stored with static-read usage; the layout is installed after both uploads |
| GLBuffers.VertexArray.Draw | gl_buffers.cpp:150-154 | binds the vertex array, then draws exactly `vertexCount` indices from the element buffer it records |
| RenderTables.QuadTriangles | render_engine.cpp:17-20 | the two triangles of a quad use only its four corners |
| RenderTables.ScreenIndices | render_engine.cpp:17-20 | 6 indices, each addressing one of the quad's 4 vertices |
| RenderTables.MaskIndices | render_engine.cpp:41-48 | 18 indices, each addressing one of the 12 coefficient rows |
| RenderTables.MaskCoefficients | render_engine.cpp:23-39 | 12 rows; in each the selectors are 0 or 1, the x constant is 0 or the width and the y constant is 0 or the height |
| RenderTables.RowWords | render_engine.cpp:23-39 | the coefficient table flattens to six words per row |
| RenderTables.ScreenIndexTable | render_engine.cpp:17-20 | the screen indices are the triangles (0,1,3) and (1,2,3) of quad 0..3 |
| RenderTables.MaskIndexTable | render_engine.cpp:41-48 | block k of the mask indices is the two triangles of quad 4k..4k+3; every row 0..11 is used |
| RenderTables.MaskCoefficientTable | render_engine.cpp:23-39 | the table flattens to 72 words, each 0, 1, width or height |
| RenderTables.RowWordsFromScreen | render_engine.cpp:23-39 | rows of that shape flatten to words drawn from {0, 1, width, height} |
| RenderTables.TileOrigin | render_engine.cpp:57 | slot k holds a 16-pixel-aligned point inside the 320 by 304 map, the origin of the tile whose slot is k |
| RenderTables.TileTable | render_engine.cpp:52 | the table has 380 entries, one per slot |
| RenderTables.Slot | render_engine.cpp:57 | `i + 20 * j` maps every tile of the 20 by 19 map into [0, 380), and its column and row come back as slot mod 20 and slot div 20 |
| RenderTables.TileOriginAt | render_engine.cpp:57 | slot i + 20 j lies in [0, 380) and holds (16 i, 16 j) |
| RenderTables.SlotsDistinct | render_engine.cpp:53-57 | distinct tiles are written to distinct slots |
| RenderTables.SlotsCovered | render_engine.cpp:53-57 | every slot is the slot of exactly the tile (k mod 20, k div 20) |
| RenderTables.BuildTileIndices | render_engine.cpp:52-60 | after the nested loop entry i + 20 j is (16 i, 16 j) for all i < 20, j < 19, and each of the 380 slots was written exactly once |
| RenderTables.IndexTableSizes | render_engine.cpp:21 | `sizeof(screen_indices)` is 24 and `sizeof(mask_indices)` is 72 |
| RenderTables.CoefficientTableSize | render_engine.cpp:50 | `sizeof(screenmask_coefficients)` is 288 |
| RenderTables.TileTableSize | render_engine.cpp:64 | `sizeof(tile_indices)` is 3040 |
| RenderTables.TileTableReadsBack | render_engine.cpp:64 | the uniform block's bytes read back as the tile table |
| Engine.MaskPass | render_engine.cpp:78-85 | traces tile program, screenSize, worldCoords, fixed maskCoords, then a mask draw into the off-screen target with the tileset; leaves framebuffer 0 bound; the vertex-array binding ends at the mask's, so the element-array binding is the mask's element buffer; no array- or uniform-buffer binding, no vertex array's recorded element buffer, store, texture image or layout changes |
| Engine.CompositePass | render_engine.cpp:89-92 | traces screen program, zero offset, then a quad draw into the bound framebuffer sampling the colour attachment; the vertex-array binding ends at the quad's, so the element-array binding is the quad's element buffer; no array- or uniform-buffer binding, no vertex array's recorded element buffer, store or framebuffer binding changes |
| Engine.RenderFrame | render_engine.cpp:78-92 | a frame records eight calls: the fifth is the mask draw into the off-screen target, the eighth the quad draw to framebuffer 0 of its colour attachment; framebuffer 0 is bound afterwards, and the vertex-array binding ends at the quad's, so the element-array binding is the quad's element buffer; no array- or uniform-buffer binding, no vertex array's recorded element buffer, store, uniform block, texture image, attachment or layout changes |
| Engine.RenderFrameEffects | render_engine.cpp:76-95 | one frame issues exactly: tile program, screenSize = (w, h), worldCoords = world, maskCoords = (0, 0, 128, 128), mask draw into the off-screen target, screen program, offset = (0, 0), quad draw to framebuffer 0; afterwards framebuffer 0 and the quad's vertex array are bound, the tile program's four uniforms and the screen program's offset are the only uniforms set, and no store, array- or uniform-buffer binding, recorded element buffer or uniform-block binding changed |
| Engine.LastFrameWins | render_engine.cpp:79-81 | after two frames worldCoords holds the second position only; maskCoords is the fixed rectangle whatever the position |
| Engine.InitGeometry | render_engine.cpp:10-50 | two new vertex arrays with six fresh ordered names; quad and mask geometries are uploaded with their layouts and usages; their draw counts are 24 and 72; no other store, layout or element binding changes |
| Engine.InitTileMap | render_engine.cpp:52-66 | a new buffer holds the tile table as a static uniform buffer at binding point 0, no uniform buffer is left bound, and nothing else but its store and the trace changes |
| Engine.BuildResources | render_engine.cpp:21-72 | the constructor's resources, in the order the constructor body uses them: fresh ordered names; the five stores hold exactly the tables; counts 24 and 72; width by height nearest-filtered RGB target attached; buffer, vertex-array and framebuffer bindings end at 0; texture binding is the colour attachment; the whole new state is `AfterBuild` of the old one, so every other store, texture, attachment, layout and element binding, the program and all uniform values are unchanged |
| Engine.RenderEngine.constructor | render_engine.cpp:3-74 | screen size and `screen_position_old == (width, height)` are set; all owned names are fresh and distinct, and the given program and tileset names precede them; the stores hold exactly the tables; the counts are 24 and 72; the off-screen target is width by height; the buffer, vertex-array and framebuffer bindings end at 0, the texture binding is the target's colour attachment (as before line 73); the whole new state is `AfterBuild` of the old one, so every other store, texture (the tileset's included), attachment, layout and element binding, the program and all uniform values are unchanged |
| Engine.RenderEngine.Render | render_engine.cpp:76-95 | the driver goes through exactly one RenderFrame; `screen_position_old` becomes the world position; the screen size is unchanged |
| Engine.ByteCountOverrunsIndices | gl_buffers.cpp:128 | as written, the stored count of a non-empty index array is four times its number of indices |
| Engine.MaskDrawOverrun | render_engine.cpp:50 | with the stored count 72, every frame's mask draw reads 72 indices from a 72-byte store, beyond its end |
| Engine.IndexCount | gl_buffers.cpp:128 | the intended count: the number of whole indices in the element data |
| Engine.IndexCountMatches | gl_buffers.cpp:147 | with it, the count of an index array is its length and covers its bytes exactly |
| Engine.CorrectedMaskDraw | render_engine.cpp:84 | with the intended count, the mask draw reads the 18 uploaded indices and stays in the store |

## Left out

- Shader programs (`tile_shader`, `screen_shader`): program creation, `bind_uniform_block("tiles", 0)` and `get_ubo_size` (render_engine.cpp:63, 68) are not modelled. `use` and `setUniform_*` become the `Use` and `Uniform` transitions, which record trace events.
- The tileset texture and `Texture::load_image` (render_engine.cpp:73): this is foreign image decoding. The tileset is a driver name passed in. The Texture class itself is not part of this model; only the calls made through it are. Its driver effects (binding the tileset and filling its image) are not modelled either. The constructor's texture-binding ensures therefore describes the binding before line 73.
- The full-screen quad's float vertices (render_engine.cpp:10-16) are 64 opaque bytes, and attribute component types are not modelled.
- `glClear` (render_engine.cpp:87) and every `std::cout` line, including the one in the framebuffer completeness check, are side effects with no state the model keeps.
- Framebuffer completeness is not evaluated, because the source only logs it. Draw results, pixels and the GPU-side evaluation of the mask line inequalities are not modelled either.
- Destructors (`glDelete*`): objects are never destroyed in the model.
- GL namespaces: one counter hands out every name, so names of different object kinds never coincide. Real GL keeps separate namespaces.
- `GLsizeiptr`/`GLint` widths: sizes are unbounded naturals, except the `GLuint` assignment of the draw count, which wraps.
- `gl_buffer.h` (the templated `Buffer::load`) and `VertexArray::set_attributes`: their bodies are not part of this model. Load replaces the store with the array's bytes. `set_attributes` installs the list as the vertex array's layout.
- Null `data` in `Buffer::init`: the model fills zeros, but no contract relies on the contents.
- GLBuffers.Buffer.Write: requires `size` to fit both the store and `data`. The source does not check this, and a larger size is undefined behaviour that the model does not represent.
- GLBuffers.VertexArray.Load: takes the arrays as bytes plus `sizeof(E)` and `SE`, with `|elem| == sizeof(E) * SE` as a precondition. The element type itself is not modelled.
- Engine.RenderEngine.constructor: creates the target where line 72 calls `frame_buffer.init`, using the FrameBuffer constructor (see above).

## Findings

| source | as written | input that shows it | evidently intended | confidence | as-written member | corrected member |
|---|---|---|---|---|---|---|
| gl_buffers.cpp:128, gl_buffers.cpp:147, gl_vertexarray.h:43 | `vertex_count` is set to the element data size in bytes. `draw` passes it to `glDrawElements` as the number of unsigned-int indices. | `screen_mask.init_custom(..., sizeof(mask_indices) = 72, ...)` with 18 indices: each mask draw asks for 72 indices, 288 bytes, from a 72-byte store. | The count is the number of indices: the size divided by `sizeof(unsigned int)`, which is 18 for the mask and 6 for the quad. | not executed | Engine.MaskDrawOverrun | Engine.CorrectedMaskDraw |

The as-written behaviour is what `VertexArray.Setup`, `Init`, `InitCustom`
and `Load` store, and the engine keeps it, so the frame model follows the
code. `Engine.ByteCountOverrunsIndices` states the overrun for any index
array. `Engine.IndexCount` is the corrected count. `Engine.IndexCountMatches`
and `Engine.CorrectedMaskDraw` prove that it draws exactly the uploaded
indices.
