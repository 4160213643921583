/** The two-pass tile renderer: construction of its tables and resources,
    and the per-frame sequence of a mask pass into the off-screen target
    followed by a composite pass to the default framebuffer. */
module Engine {
  import opened HostTypes
  import opened GL
  import opened GLBuffers
  import opened RenderTables

  /** The driver names and draw counts a frame uses. */
  datatype PassResources = PassResources(
    tileProgram: Handle, screenProgram: Handle, tileset: Handle,
    frameBuffer: Handle, colour: Handle,
    mask: Handle, maskCount: uint32,
    quad: Handle, quadCount: uint32)

  /** Fixed mask rectangle: 128 by 128 at the origin, whatever the world position. */
  const MaskRect: UniformValue := UVec4Value(0, 0, 128, 128)
  const NoOffset: UniformValue := Vec2Value(0.0, 0.0)

  /** Mask pass: tile program and its uniforms, tileset texture, off-screen
      target bound, mask geometry drawn, target unbound. */
  function MaskPass(s: State, p: PassResources, width: uint32, height: uint32, world: UVec2): (r: State)
    ensures r.trace == s.trace + [
              UseProgram(p.tileProgram),
              SetUniform(p.tileProgram, "screenSize", UVec2Value(UVec2(width, height))),
              SetUniform(p.tileProgram, "worldCoords", UVec2Value(world)),
              SetUniform(p.tileProgram, "maskCoords", MaskRect),
              Draw(DrawCall(p.tileProgram, p.mask, ElementsOf(s, p.mask), p.frameBuffer, p.tileset, p.maskCount))]
    ensures r.uniforms == s.uniforms[(p.tileProgram, "screenSize") := UVec2Value(UVec2(width, height))]
                                    [(p.tileProgram, "worldCoords") := UVec2Value(world)]
                                    [(p.tileProgram, "maskCoords") := MaskRect]
    ensures Bound(r, ElementArrayBuffer) == ElementsOf(s, p.mask)
    ensures r == s.(framebuffer := 0, vertexArray := p.mask, texture := p.tileset, program := p.tileProgram,
                    uniforms := r.uniforms, trace := r.trace)
  {
    var s1 := Use(s, p.tileProgram);
    var s2 := Uniform(s1, "screenSize", UVec2Value(UVec2(width, height)));
    var s3 := Uniform(s2, "worldCoords", UVec2Value(world));
    var s4 := Uniform(s3, "maskCoords", MaskRect);
    var s5 := BindTexture(s4, p.tileset);
    var s6 := BindFramebuffer(s5, p.frameBuffer);
    var s7 := DrawElements(BindVertexArray(s6, p.mask), p.maskCount);
    BindFramebuffer(s7, 0)
  }

  /** Composite pass: screen program, zero offset, the off-screen colour
      attachment as texture, full-screen quad drawn. */
  function CompositePass(s: State, p: PassResources): (r: State)
    ensures r.trace == s.trace + [
              UseProgram(p.screenProgram),
              SetUniform(p.screenProgram, "offset", NoOffset),
              Draw(DrawCall(p.screenProgram, p.quad, ElementsOf(s, p.quad), s.framebuffer, p.colour, p.quadCount))]
    ensures r.uniforms == s.uniforms[(p.screenProgram, "offset") := NoOffset]
    ensures Bound(r, ElementArrayBuffer) == ElementsOf(s, p.quad)
    ensures r == s.(vertexArray := p.quad, texture := p.colour, program := p.screenProgram,
                    uniforms := r.uniforms, trace := r.trace)
  {
    var s1 := Use(s, p.screenProgram);
    var s2 := Uniform(s1, "offset", NoOffset);
    var s3 := BindTexture(s2, p.colour);
    DrawElements(BindVertexArray(s3, p.quad), p.quadCount)
  }

  /** One call of render. */
  function RenderFrame(s: State, p: PassResources, width: uint32, height: uint32, world: UVec2): (r: State)
    // eight calls are recorded; the fifth draws the mask into the off-screen
    // target, the eighth composites its colour attachment onto the screen
    ensures |r.trace| == |s.trace| + 8 && r.trace[..|s.trace|] == s.trace
    ensures r.trace[|s.trace| + 4]
            == Draw(DrawCall(p.tileProgram, p.mask, ElementsOf(s, p.mask), p.frameBuffer, p.tileset, p.maskCount))
    ensures r.trace[|s.trace| + 7]
            == Draw(DrawCall(p.screenProgram, p.quad, ElementsOf(s, p.quad), 0, p.colour, p.quadCount))
    // the default framebuffer is bound afterwards, and the quad's vertex
    // array, so the element-array binding is the quad's element buffer; no
    // array- or uniform-buffer binding, no vertex array's recorded element
    // buffer, store, uniform block, texture image, attachment or layout changes
    ensures r.framebuffer == 0
    ensures r.vertexArray == p.quad && Bound(r, ElementArrayBuffer) == ElementsOf(s, p.quad)
    ensures r.arrayBuffer == s.arrayBuffer && r.uniformBuffer == s.uniformBuffer
    ensures r.elementBuffers == s.elementBuffers && r.stores == s.stores && r.uniformBlocks == s.uniformBlocks
    ensures r.textures == s.textures && r.attachments == s.attachments && r.layouts == s.layouts
  {
    CompositePass(MaskPass(s, p, width, height, world), p)
  }

  /** What one frame does: the exact sequence of program switches, uniform
      assignments and draws, with the mask draw going to the off-screen
      target and the composite draw to the default framebuffer; afterwards
      the default framebuffer and the quad's vertex array are bound, and no
      store, array- or uniform-buffer binding, recorded element buffer or
      uniform-block binding has changed. */
  lemma RenderFrameEffects(s: State, p: PassResources, width: uint32, height: uint32, world: UVec2)
    ensures var r := RenderFrame(s, p, width, height, world);
      && r.trace == s.trace + [
           UseProgram(p.tileProgram),
           SetUniform(p.tileProgram, "screenSize", UVec2Value(UVec2(width, height))),
           SetUniform(p.tileProgram, "worldCoords", UVec2Value(world)),
           SetUniform(p.tileProgram, "maskCoords", MaskRect),
           Draw(DrawCall(p.tileProgram, p.mask, ElementsOf(s, p.mask), p.frameBuffer, p.tileset, p.maskCount)),
           UseProgram(p.screenProgram),
           SetUniform(p.screenProgram, "offset", NoOffset),
           Draw(DrawCall(p.screenProgram, p.quad, ElementsOf(s, p.quad), 0, p.colour, p.quadCount))]
      && r.framebuffer == 0
      && r.uniforms == s.uniforms[(p.tileProgram, "screenSize") := UVec2Value(UVec2(width, height))]
                                 [(p.tileProgram, "worldCoords") := UVec2Value(world)]
                                 [(p.tileProgram, "maskCoords") := MaskRect]
                                 [(p.screenProgram, "offset") := NoOffset]
      && r == s.(framebuffer := 0, vertexArray := p.quad, texture := p.colour, program := p.screenProgram,
                 uniforms := r.uniforms, trace := r.trace)
  {
  }

  /** The mask-pass uniforms after a frame depend on that frame's arguments
      only: two frames in a row leave the second frame's world position,
      and the mask rectangle is the fixed one for every world position. */
  lemma LastFrameWins(s: State, p: PassResources, width: uint32, height: uint32, first: UVec2, second: UVec2)
    ensures var r := RenderFrame(RenderFrame(s, p, width, height, first), p, width, height, second);
      && r.uniforms[(p.tileProgram, "worldCoords")] == UVec2Value(second)
      && r.uniforms[(p.tileProgram, "screenSize")] == UVec2Value(UVec2(width, height))
      && r.uniforms[(p.tileProgram, "maskCoords")] == MaskRect
      && r.framebuffer == 0
  {
    var m := RenderFrame(s, p, width, height, first);
    RenderFrameEffects(s, p, width, height, first);
    RenderFrameEffects(m, p, width, height, second);
  }

  /** The full-screen quad and the mask geometry: two new vertex arrays,
      the first filled with the quad layout and static usage, the second
      with the mask layout and stream usage. */
  method InitGeometry(gl: Driver, width: uint32, height: uint32, quadVertices: seq<byte>)
      returns (fs: VertexArray, sm: VertexArray)
    requires |quadVertices| == 64
    modifies gl
    ensures old(gl.state).issued < fs.vertexBuffer.id < fs.elementBuffer.id < fs.id
            < sm.vertexBuffer.id < sm.elementBuffer.id < sm.id == gl.state.issued
    ensures fs.vertexCount == 24 && sm.vertexCount == 72
    ensures Uploaded(gl.state, fs.vertexBuffer.id, 64, Some(quadVertices), StaticDraw)
    ensures Uploaded(gl.state, fs.elementBuffer.id, 24, Some(Words(ScreenIndices())), StaticDraw)
    ensures Uploaded(gl.state, sm.vertexBuffer.id, 288,
                     Some(Words(RowWords(MaskCoefficients(width, height)))), StreamDraw)
    ensures Uploaded(gl.state, sm.elementBuffer.id, 72, Some(Words(MaskIndices())), StreamDraw)
    ensures var filled := {fs.vertexBuffer.id, fs.elementBuffer.id, sm.vertexBuffer.id, sm.elementBuffer.id};
            && gl.state.stores.Keys == old(gl.state).stores.Keys + filled
            && forall h :: h in old(gl.state).stores && h !in filled ==> gl.state.stores[h] == old(gl.state).stores[h]
    ensures gl.state.elementBuffers == old(gl.state).elementBuffers[fs.id := fs.elementBuffer.id][0 := 0]
                                                                   [sm.id := sm.elementBuffer.id][0 := 0]
    ensures gl.state.layouts == old(gl.state).layouts[fs.id := QuadLayout()][sm.id := MaskLayout()]
    ensures gl.state == old(gl.state).(issued := sm.id, arrayBuffer := 0, vertexArray := 0,
              elementBuffers := gl.state.elementBuffers, stores := gl.state.stores,
              layouts := gl.state.layouts, trace := gl.state.trace)
  {
    fs := new VertexArray(gl);
    sm := new VertexArray(gl);
    IndexTableSizes();
    CoefficientTableSize(width, height);
    fs.Init(gl, 64, Some(quadVertices), 24, Some(Words(ScreenIndices())), StaticDraw);
    ghost var s1 := gl.state;
    sm.InitCustom(gl, 288, Some(Words(RowWords(MaskCoefficients(width, height)))),
                  72, Some(Words(MaskIndices())), StreamDraw);
    ghost var s2 := gl.state;
    ghost var a, b, c, d := fs.vertexBuffer.id, fs.elementBuffer.id, sm.vertexBuffer.id, sm.elementBuffer.id;
    assert a < b < c < d;
    assert s2.stores == s1.stores[sm.vertexBuffer.id := s2.stores[sm.vertexBuffer.id]]
                                 [sm.elementBuffer.id := s2.stores[sm.elementBuffer.id]];
    assert s2.stores[fs.vertexBuffer.id] == s1.stores[fs.vertexBuffer.id];
    assert s2.stores[fs.elementBuffer.id] == s1.stores[fs.elementBuffer.id];
  }

  /** The tile table, built by the nested loop and uploaded into a new
      buffer `tm` as a uniform buffer attached to binding point 0;
      afterwards no uniform buffer is bound. */
  method InitTileMap(gl: Driver) returns (tm: Buffer)
    modifies gl
    ensures tm.id == NewName(old(gl.state))
    ensures tm.target == Some(UniformBuffer)
    ensures Uploaded(gl.state, tm.id, 3040, Some(Words(PairWords(TileTable()))), StaticDraw)
    ensures gl.state == old(gl.state).(issued := tm.id, uniformBuffer := 0,
              stores := old(gl.state).stores[tm.id := gl.state.stores[tm.id]],
              uniformBlocks := old(gl.state).uniformBlocks[0 := tm.id],
              trace := old(gl.state).trace + [Upload(tm.id, StaticDraw, 3040)])
  {
    tm := new Buffer(gl);
    var tiles, writes := BuildTileIndices();
    TileTableSize();
    tm.Init(gl, UniformBuffer, 3040, Some(Words(PairWords(tiles))), StaticDraw);
    tm.BindUniformBlock(gl, 0);
    tm.Unbind(gl);
  }

  /** The driver state construction leaves, from the state `s` before it:
      the owned names issued; the array-buffer, uniform-buffer, vertex-array
      and framebuffer bindings at 0 and the texture binding on the target's
      colour texture; the two vertex arrays' element buffers recorded (the
      default vertex array's cleared); the five new stores holding the quad
      vertices, the two index tables, the coefficient table and the tile
      table; the tile map at binding point 0; the target's RGB image with
      nearest filtering and its attachment; the two layouts; and `trace`.
      Every other entry of every map, the program and the uniforms are those
      of `s`. */
  function AfterBuild(s: State, fs: VertexArray, sm: VertexArray, tm: Buffer, fb: FrameBuffer,
                      width: uint32, height: uint32, quadVertices: seq<byte>, trace: seq<Event>): State
  {
    s.(issued := fb.id,
       arrayBuffer := 0, uniformBuffer := 0, vertexArray := 0, framebuffer := 0, texture := fb.colour,
       elementBuffers := s.elementBuffers[fs.id := fs.elementBuffer.id][0 := 0][sm.id := sm.elementBuffer.id][0 := 0],
       stores := s.stores[fs.vertexBuffer.id := Store(quadVertices, StaticDraw)]
                         [fs.elementBuffer.id := Store(Words(ScreenIndices()), StaticDraw)]
                         [sm.vertexBuffer.id := Store(Words(RowWords(MaskCoefficients(width, height))), StreamDraw)]
                         [sm.elementBuffer.id := Store(Words(MaskIndices()), StreamDraw)]
                         [tm.id := Store(Words(PairWords(TileTable())), StaticDraw)],
       uniformBlocks := s.uniformBlocks[0 := tm.id],
       textures := s.textures[fb.colour := TextureState(width as nat, height as nat, Rgb, Nearest, Nearest)],
       attachments := s.attachments[fb.id := fb.colour],
       layouts := s.layouts[fs.id := QuadLayout()][sm.id := MaskLayout()],
       trace := trace)
  }

  /** The constructor's resource creation, in the order the constructor
      body uses them: the two vertex arrays, the tile-map buffer, then the
      off-screen target. */
  method BuildResources(gl: Driver, width: uint32, height: uint32, quadVertices: seq<byte>)
      returns (fs: VertexArray, sm: VertexArray, tm: Buffer, fb: FrameBuffer)
    requires |quadVertices| == 64
    modifies gl
    ensures old(gl.state).issued < fs.vertexBuffer.id < fs.elementBuffer.id < fs.id
            < sm.vertexBuffer.id < sm.elementBuffer.id < sm.id
            < tm.id < fb.colour < fb.id == gl.state.issued
    ensures Uploaded(gl.state, fs.vertexBuffer.id, 64, Some(quadVertices), StaticDraw)
    ensures Uploaded(gl.state, fs.elementBuffer.id, 24, Some(Words(ScreenIndices())), StaticDraw)
    ensures Uploaded(gl.state, sm.vertexBuffer.id, 288,
                     Some(Words(RowWords(MaskCoefficients(width, height)))), StreamDraw)
    ensures Uploaded(gl.state, sm.elementBuffer.id, 72, Some(Words(MaskIndices())), StreamDraw)
    ensures Uploaded(gl.state, tm.id, 3040, Some(Words(PairWords(TileTable()))), StaticDraw)
    // draw counts are the element data sizes in bytes
    ensures fs.vertexCount == 24 && sm.vertexCount == 72
    ensures ElementsOf(gl.state, fs.id) == fs.elementBuffer.id
    ensures ElementsOf(gl.state, sm.id) == sm.elementBuffer.id
    ensures tm.target == Some(UniformBuffer)
    ensures Bound(gl.state, ArrayBuffer) == 0 && Bound(gl.state, ElementArrayBuffer) == 0
    ensures Bound(gl.state, UniformBuffer) == 0
    ensures gl.state == AfterBuild(old(gl.state), fs, sm, tm, fb, width, height, quadVertices, gl.state.trace)
  {
    fs, sm := InitGeometry(gl, width, height, quadVertices);
    tm := InitTileMap(gl);
    fb := new FrameBuffer(gl, width as nat, height as nat, Rgb);
    // each upload covers its whole table, so the stores hold the tables themselves
    IndexTableSizes();
    CoefficientTableSize(width, height);
    TileTableSize();
    assert gl.state.stores[fs.vertexBuffer.id] == Store(quadVertices, StaticDraw);
    assert gl.state.stores[fs.elementBuffer.id] == Store(Words(ScreenIndices()), StaticDraw);
    assert gl.state.stores[sm.vertexBuffer.id]
        == Store(Words(RowWords(MaskCoefficients(width, height))), StreamDraw);
    assert gl.state.stores[sm.elementBuffer.id] == Store(Words(MaskIndices()), StreamDraw);
    assert gl.state.stores[tm.id] == Store(Words(PairWords(TileTable())), StaticDraw);
  }

  class RenderEngine {
    var screenWidth: uint32
    var screenHeight: uint32
    /** Retained world position of the last frame; nothing reads it. */
    var screenPositionOld: UVec2
    const fullScreen: VertexArray
    const screenMask: VertexArray
    const tileMap: Buffer
    const frameBuffer: FrameBuffer
    const tileProgram: Name
    const screenProgram: Name
    const tileset: Name

    function Resources(): PassResources
      reads fullScreen, screenMask
    {
      PassResources(tileProgram, screenProgram, tileset, frameBuffer.id, frameBuffer.colour,
                    screenMask.id, screenMask.vertexCount, fullScreen.id, fullScreen.vertexCount)
    }

    /** Builds the full-screen quad, the mask geometry, the tile table in its
        uniform block at binding point 0, and the off-screen target.
        `quadVertices` stands for the quad's 16 floats; the programs and the
        tileset texture are created by code outside this model. */
    constructor(gl: Driver, width: uint32, height: uint32, quadVertices: seq<byte>,
                tileProgram: Name, screenProgram: Name, tileset: Name)
      requires |quadVertices| == 64
      // the programs and the tileset exist before the constructor runs
      requires tileProgram <= gl.state.issued && screenProgram <= gl.state.issued && tileset <= gl.state.issued
      modifies gl
      ensures screenWidth == width && screenHeight == height
      ensures screenPositionOld == UVec2(width, height)
      ensures this.tileProgram == tileProgram && this.screenProgram == screenProgram && this.tileset == tileset
      // the given names precede every owned one
      ensures tileProgram < fullScreen.vertexBuffer.id && screenProgram < fullScreen.vertexBuffer.id
              && tileset < fullScreen.vertexBuffer.id
      // every owned name is new and no two are equal
      ensures old(gl.state).issued < fullScreen.vertexBuffer.id < fullScreen.elementBuffer.id < fullScreen.id
              < screenMask.vertexBuffer.id < screenMask.elementBuffer.id < screenMask.id
              < tileMap.id < frameBuffer.colour < frameBuffer.id == gl.state.issued
      ensures Uploaded(gl.state, fullScreen.vertexBuffer.id, 64, Some(quadVertices), StaticDraw)
      ensures Uploaded(gl.state, fullScreen.elementBuffer.id, 24, Some(Words(ScreenIndices())), StaticDraw)
      ensures Uploaded(gl.state, screenMask.vertexBuffer.id, 288,
                       Some(Words(RowWords(MaskCoefficients(width, height)))), StreamDraw)
      ensures Uploaded(gl.state, screenMask.elementBuffer.id, 72, Some(Words(MaskIndices())), StreamDraw)
      ensures Uploaded(gl.state, tileMap.id, 3040, Some(Words(PairWords(TileTable()))), StaticDraw)
      // draw counts are the element data sizes in bytes
      ensures fullScreen.vertexCount == 24 && screenMask.vertexCount == 72
      ensures ElementsOf(gl.state, fullScreen.id) == fullScreen.elementBuffer.id
      ensures ElementsOf(gl.state, screenMask.id) == screenMask.elementBuffer.id
      ensures tileMap.target == Some(UniformBuffer)
      ensures Bound(gl.state, ArrayBuffer) == 0 && Bound(gl.state, ElementArrayBuffer) == 0
      ensures Bound(gl.state, UniformBuffer) == 0
      ensures gl.state == AfterBuild(old(gl.state), fullScreen, screenMask, tileMap, frameBuffer,
                                     width, height, quadVertices, gl.state.trace)
    {
      var fs, sm, tm, fb := BuildResources(gl, width, height, quadVertices);
      screenWidth := width;
      screenHeight := height;
      screenPositionOld := UVec2(width, height);
      fullScreen := fs;
      screenMask := sm;
      tileMap := tm;
      frameBuffer := fb;
      this.tileProgram := tileProgram;
      this.screenProgram := screenProgram;
      this.tileset := tileset;
    }

    /** Draws one frame for `world` and records it as the last position;
        the screen size does not change. */
    method Render(gl: Driver, world: UVec2)
      modifies this`screenPositionOld, gl
      ensures gl.state == RenderFrame(old(gl.state), Resources(), screenWidth, screenHeight, world)
      ensures screenPositionOld == world
      ensures screenWidth == old(screenWidth) && screenHeight == old(screenHeight)
    {
      gl.state := Use(gl.state, tileProgram);
      gl.state := Uniform(gl.state, "screenSize", UVec2Value(UVec2(screenWidth, screenHeight)));
      gl.state := Uniform(gl.state, "worldCoords", UVec2Value(world));
      gl.state := Uniform(gl.state, "maskCoords", MaskRect);
      gl.state := BindTexture(gl.state, tileset);
      frameBuffer.Bind(gl);
      screenMask.Draw(gl);
      frameBuffer.Unbind(gl);

      gl.state := Use(gl.state, screenProgram);
      gl.state := Uniform(gl.state, "offset", NoOffset);
      frameBuffer.BindColourBuffer(gl);
      fullScreen.Draw(gl);

      screenPositionOld := world;
    }
  }

  /** A draw of `d.count` unsigned-int indices stays inside the store of
      the element buffer it draws from. */
  predicate ReadsWithinStore(s: State, d: DrawCall)
  {
    d.elements in s.stores && 4 * d.count as int <= |s.stores[d.elements].bytes|
  }

  /** As written, the stored draw count of any non-empty index array is its
      size in bytes, four times the number of indices uploaded. */
  lemma ByteCountOverrunsIndices(indices: seq<uint32>)
    requires 0 < |indices| && 4 * |indices| < 0x1_0000_0000
    ensures ToGLuint(|Words(indices)|) as int == 4 * |indices|
    ensures ToGLuint(|Words(indices)|) as int > |indices|
  {
  }

  /** With the count the constructor stores (72, the byte size of the 18
      mask indices), the mask draw of every frame reads 72 indices from an
      element store of 72 bytes, so it leaves the store. */
  lemma MaskDrawOverrun(s: State, p: PassResources, width: uint32, height: uint32, world: UVec2)
    requires p.maskCount == ToGLuint(|Words(MaskIndices())|)
    requires Uploaded(s, ElementsOf(s, p.mask), 72, Some(Words(MaskIndices())), StreamDraw)
    ensures var e := RenderFrame(s, p, width, height, world).trace[|s.trace| + 4];
            && e.Draw? && e.call.count == 72
            && !ReadsWithinStore(RenderFrame(s, p, width, height, world), e.call)
  {
    RenderFrameEffects(s, p, width, height, world);
  }

  /** The evidently intended draw count: the number of indices in the
      element data, its byte size divided by sizeof(unsigned int). */
  function IndexCount(elementDataSize: nat): (n: nat)
    ensures 4 * n <= elementDataSize < 4 * (n + 1)
  {
    elementDataSize / 4
  }

  /** With it the draw reads exactly the uploaded indices. */
  lemma IndexCountMatches(indices: seq<uint32>)
    ensures IndexCount(|Words(indices)|) == |indices|
    ensures 4 * IndexCount(|Words(indices)|) == |Words(indices)|
  {
  }

  /** With the intended count the mask draw of every frame reads the 18
      uploaded indices and no more. */
  lemma CorrectedMaskDraw(s: State, p: PassResources, width: uint32, height: uint32, world: UVec2)
    requires p.maskCount as int == IndexCount(|Words(MaskIndices())|)
    requires Uploaded(s, ElementsOf(s, p.mask), 72, Some(Words(MaskIndices())), StreamDraw)
    ensures var r := RenderFrame(s, p, width, height, world);
            var e := r.trace[|s.trace| + 4];
            && e.Draw? && e.call.count as int == |MaskIndices()| == 18
            && ReadsWithinStore(r, e.call)
            && 4 * e.call.count as int == |r.stores[e.call.elements].bytes|
  {
    RenderFrameEffects(s, p, width, height, world);
  }
}
