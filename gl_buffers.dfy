/** The renderer's resource objects. Each owns one driver name for its whole
    lifetime (`id` is a `const`, and no copy or move exists), and every
    operation acts on the one global driver state `gl.state`. */
module GLBuffers {
  import opened HostTypes
  import opened GL

  /** A buffer object. `target` is the binding target recorded by `Init`;
      before `Init` it is undetermined. */
  class Buffer {
    const id: Name
    var target: Option<Target>

    /** glGenBuffers. */
    constructor(gl: Driver)
      modifies gl
      ensures id == NewName(old(gl.state)) && target == None
      ensures gl.state == Gen(old(gl.state))
    {
      id := NewName(gl.state);
      target := None;
      new;
      gl.state := Gen(gl.state);
    }

    /** Binds the buffer to `bufferType`, gives it a new store of `size`
        bytes taken from `data` (unspecified bytes when `data` is null),
        and records `bufferType` as its target. The buffer stays bound. */
    method Init(gl: Driver, bufferType: Target, size: nat, data: Option<seq<byte>>, usage: Usage)
      requires data.Some? ==> size <= |data.value|
      modifies this, gl
      ensures target == Some(bufferType)
      ensures Uploaded(gl.state, id, size, data, usage)
      ensures gl.state == BindBuffer(old(gl.state), bufferType, id).(
                stores := old(gl.state).stores[id := gl.state.stores[id]],
                trace := old(gl.state).trace + [Upload(id, usage, size)])
    {
      gl.state := BindBuffer(gl.state, bufferType, id);
      gl.state := BufferData(gl.state, bufferType, size, data, usage);
      target := Some(bufferType);
    }

    /** Binds the buffer to its recorded target (nothing else changes). */
    method Bind(gl: Driver)
      requires target.Some?
      modifies gl
      ensures gl.state == BindBuffer(old(gl.state), target.value, id)
    {
      gl.state := BindBuffer(gl.state, target.value, id);
    }

    /** Sets the binding of the recorded target to 0 (nothing else changes). */
    method Unbind(gl: Driver)
      requires target.Some?
      modifies gl
      ensures gl.state == BindBuffer(old(gl.state), target.value, 0)
    {
      gl.state := BindBuffer(gl.state, target.value, 0);
    }

    /** Binds the buffer to uniform-block binding point `index`, whatever
        its recorded target; `target` itself is not touched. */
    method BindUniformBlock(gl: Driver, index: nat)
      modifies gl
      ensures gl.state == BindBufferBase(old(gl.state), index, id)
    {
      gl.state := BindBufferBase(gl.state, index, id);
    }

    /** Overwrites the first `size` bytes of the store with `data`, through
        a write-only mapping, and leaves the target unbound. The source does
        not check that `size` fits the store; that is this method's
        precondition. */
    method Write(gl: Driver, size: nat, data: seq<byte>)
      requires target.Some? && id in gl.state.stores
      requires size <= |gl.state.stores[id].bytes| && size <= |data|
      modifies gl
      ensures Bound(gl.state, target.value) == 0
      ensures gl.state == BindBuffer(old(gl.state), target.value, 0).(
                stores := old(gl.state).stores[id := Store(Overwrite(old(gl.state).stores[id].bytes, size, data),
                                                           old(gl.state).stores[id].usage)])
    {
      MappedWrite(gl.state, target.value, id, size, data);
      Bind(gl);
      gl.state := MapCopy(gl.state, target.value, size, data);
      Unbind(gl);
    }

    /** The templated upload of a whole array with a usage hint. */
    method Load(gl: Driver, bytes: seq<byte>, usage: Usage)
      modifies gl
      ensures gl.state == StoreArray(old(gl.state), id, bytes, usage)
    {
      gl.state := StoreArray(gl.state, id, bytes, usage);
    }
  }

  /** An off-screen render target with one colour texture attachment. */
  class FrameBuffer {
    const colour: Name
    const id: Name

    /** Creates the colour texture and the framebuffer, gives the texture a
        `width` by `height` RGB image with nearest filtering (the `format`
        argument is not used), attaches it, and rebinds the default
        framebuffer. Incompleteness would only be reported on the console,
        so construction always succeeds. */
    constructor(gl: Driver, width: nat, height: nat, format: PixelFormat)
      modifies gl
      ensures colour == NewName(old(gl.state)) && id == colour + 1
      ensures gl.state == old(gl.state).(
                issued := id,
                framebuffer := 0,
                texture := colour,
                textures := old(gl.state).textures[colour := TextureState(width, height, Rgb, Nearest, Nearest)],
                attachments := old(gl.state).attachments[id := colour])
    {
      var texture := NewName(gl.state);
      colour := texture;
      id := texture + 1;
      new;
      gl.state := Gen(gl.state);
      gl.state := Gen(gl.state);
      gl.state := BindFramebuffer(gl.state, id);
      gl.state := BindTexture(gl.state, colour);
      gl.state := TexImage(gl.state, width, height, Rgb);
      gl.state := TexMinFilter(gl.state, Nearest);
      gl.state := TexMagFilter(gl.state, Nearest);
      gl.state := AttachColour(gl.state, colour);
      gl.state := BindFramebuffer(gl.state, 0);
    }

    /** Redirects drawing to this target. */
    method Bind(gl: Driver)
      modifies gl
      ensures gl.state == BindFramebuffer(old(gl.state), id)
    {
      gl.state := BindFramebuffer(gl.state, id);
    }

    /** Redirects drawing to the default framebuffer. */
    method Unbind(gl: Driver)
      modifies gl
      ensures gl.state == BindFramebuffer(old(gl.state), 0)
    {
      gl.state := BindFramebuffer(gl.state, 0);
    }

    /** Binds the colour attachment as the texture to sample. */
    method BindColourBuffer(gl: Driver)
      modifies gl
      ensures gl.state == BindTexture(old(gl.state), colour)
    {
      gl.state := BindTexture(gl.state, colour);
    }
  }

  /** Two unnormalised float attributes interleaved with no padding: the
      first at offset 0, the second right after it, and the stride of both
      the size of one whole vertex (sizeof(float) is 4). */
  predicate PackedPair(layout: seq<VertexAttribute>)
  {
    && |layout| == 2
    && layout[0].offset == 0 && layout[1].offset == 4 * layout[0].size
    && forall a :: a in layout ==> !a.normalized && a.stride == 4 * (layout[0].size + layout[1].size)
  }

  /** Attribute layout installed by `Init`: position.xy and uv.xy floats. */
  function QuadLayout(): (l: seq<VertexAttribute>)
    ensures PackedPair(l) && l[0].size == 2 && l[1].size == 2
  {
    [VertexAttribute(2, false, 16, 0), VertexAttribute(2, false, 16, 8)]
  }

  /** Attribute layout installed by `InitCustom`: two 3-component
      line-coefficient vectors. */
  function MaskLayout(): (l: seq<VertexAttribute>)
    ensures PackedPair(l) && l[0].size == 3 && l[1].size == 3
  {
    [VertexAttribute(3, false, 24, 0), VertexAttribute(3, false, 24, 12)]
  }

  /** GLuint assignment from a byte size: wraps modulo 2^32, so a size
      that fits is kept as it is. */
  function ToGLuint(n: nat): (r: uint32)
    ensures r as int == n % 0x1_0000_0000
    ensures n < 0x1_0000_0000 ==> r as int == n
  {
    if n < 0x1_0000_0000 then n as uint32 else (n % 0x1_0000_0000) as uint32
  }

  /** The driver state after vertex array `vao` has been set up with
      vertex buffer `vb`, element buffer `eb` and `layout`: vertex array
      and array buffer unbound, the element binding recorded for `vao` (the
      default vertex array's cleared), both stores replaced, the layout
      installed, and the two uploads around the layout install traced. */
  function AfterSetup(s: State, vao: Handle, vb: Handle, eb: Handle, layout: seq<VertexAttribute>,
                      vertexDataSize: nat, elementDataSize: nat, usage: Usage, vbStore: Store, ebStore: Store): State
  {
    s.(arrayBuffer := 0,
       vertexArray := 0,
       elementBuffers := s.elementBuffers[vao := eb][0 := 0],
       stores := s.stores[vb := vbStore][eb := ebStore],
       layouts := s.layouts[vao := layout],
       trace := s.trace + [Upload(vb, usage, vertexDataSize), InstallLayout(vao, layout),
                           Upload(eb, usage, elementDataSize)])
  }

  /** A vertex array with its own vertex and element buffers. */
  class VertexArray {
    const vertexBuffer: Buffer
    const elementBuffer: Buffer
    const id: Name
    var vertexCount: uint32

    /** The three owned names are distinct. */
    predicate Valid()
    {
      vertexBuffer.id < elementBuffer.id < id
    }

    /** The two buffer members are created first, then glGenVertexArrays. */
    constructor(gl: Driver)
      modifies gl
      ensures Valid() && fresh(vertexBuffer) && fresh(elementBuffer)
      ensures vertexBuffer.id == NewName(old(gl.state))
      ensures vertexBuffer.target == None && elementBuffer.target == None
      ensures gl.state == old(gl.state).(issued := id)
    {
      vertexBuffer := new Buffer(gl);
      elementBuffer := new Buffer(gl);
      id := NewName(gl.state);
      vertexCount := 0;
      new;
      gl.state := Gen(gl.state);
    }

    /** The shared body of `Init` and `InitCustom`: bind the vertex array,
        fill the vertex buffer, install `layout`, fill the element buffer
        (which the vertex array records), unbind the vertex array and then
        both buffers, and store the element data SIZE IN BYTES as the draw
        count. */
    method Setup(gl: Driver, layout: seq<VertexAttribute>,
                 vertexDataSize: nat, vertexData: Option<seq<byte>>,
                 elementDataSize: nat, elementData: Option<seq<byte>>, usage: Usage)
      requires Valid()
      requires vertexData.Some? ==> vertexDataSize <= |vertexData.value|
      requires elementData.Some? ==> elementDataSize <= |elementData.value|
      modifies this, vertexBuffer, elementBuffer, gl
      ensures vertexCount == ToGLuint(elementDataSize)
      ensures vertexBuffer.target == Some(ArrayBuffer) && elementBuffer.target == Some(ElementArrayBuffer)
      ensures Uploaded(gl.state, vertexBuffer.id, vertexDataSize, vertexData, usage)
      ensures Uploaded(gl.state, elementBuffer.id, elementDataSize, elementData, usage)
      ensures gl.state == AfterSetup(old(gl.state), id, vertexBuffer.id, elementBuffer.id, layout,
                                     vertexDataSize, elementDataSize, usage,
                                     gl.state.stores[vertexBuffer.id], gl.state.stores[elementBuffer.id])
    {
      gl.state := BindVertexArray(gl.state, id);
      vertexBuffer.Init(gl, ArrayBuffer, vertexDataSize, vertexData, usage);
      gl.state := SetLayout(gl.state, id, layout);
      elementBuffer.Init(gl, ElementArrayBuffer, elementDataSize, elementData, usage);
      gl.state := BindVertexArray(gl.state, 0);
      vertexBuffer.Unbind(gl);
      elementBuffer.Unbind(gl);
      vertexCount := ToGLuint(elementDataSize);
    }

    /** Vertex array for textured quads (QuadLayout). */
    method Init(gl: Driver, vertexDataSize: nat, vertexData: Option<seq<byte>>,
                elementDataSize: nat, elementData: Option<seq<byte>>, usage: Usage)
      requires Valid()
      requires vertexData.Some? ==> vertexDataSize <= |vertexData.value|
      requires elementData.Some? ==> elementDataSize <= |elementData.value|
      modifies this, vertexBuffer, elementBuffer, gl
      ensures vertexCount == ToGLuint(elementDataSize)
      ensures vertexBuffer.target == Some(ArrayBuffer) && elementBuffer.target == Some(ElementArrayBuffer)
      ensures Uploaded(gl.state, vertexBuffer.id, vertexDataSize, vertexData, usage)
      ensures Uploaded(gl.state, elementBuffer.id, elementDataSize, elementData, usage)
      ensures gl.state == AfterSetup(old(gl.state), id, vertexBuffer.id, elementBuffer.id, QuadLayout(),
                                     vertexDataSize, elementDataSize, usage,
                                     gl.state.stores[vertexBuffer.id], gl.state.stores[elementBuffer.id])
    {
      Setup(gl, QuadLayout(), vertexDataSize, vertexData, elementDataSize, elementData, usage);
    }

    /** Vertex array for the mask geometry (MaskLayout). */
    method InitCustom(gl: Driver, vertexDataSize: nat, vertexData: Option<seq<byte>>,
                      elementDataSize: nat, elementData: Option<seq<byte>>, usage: Usage)
      requires Valid()
      requires vertexData.Some? ==> vertexDataSize <= |vertexData.value|
      requires elementData.Some? ==> elementDataSize <= |elementData.value|
      modifies this, vertexBuffer, elementBuffer, gl
      ensures vertexCount == ToGLuint(elementDataSize)
      ensures vertexBuffer.target == Some(ArrayBuffer) && elementBuffer.target == Some(ElementArrayBuffer)
      ensures Uploaded(gl.state, vertexBuffer.id, vertexDataSize, vertexData, usage)
      ensures Uploaded(gl.state, elementBuffer.id, elementDataSize, elementData, usage)
      ensures gl.state == AfterSetup(old(gl.state), id, vertexBuffer.id, elementBuffer.id, MaskLayout(),
                                     vertexDataSize, elementDataSize, usage,
                                     gl.state.stores[vertexBuffer.id], gl.state.stores[elementBuffer.id])
    {
      Setup(gl, MaskLayout(), vertexDataSize, vertexData, elementDataSize, elementData, usage);
    }

    /** The templated load: the draw count is sizeof(E) * SE, a byte count;
        the vertex data, then the element data, are uploaded with
        GL_STATIC_READ; the attribute layout is installed last. */
    method Load(gl: Driver, vert: seq<byte>, elem: seq<byte>, elementSize: nat, elementCount: nat,
                attributes: seq<VertexAttribute>)
      requires Valid()
      requires |elem| == elementSize * elementCount
      modifies this, gl
      ensures vertexCount == ToGLuint(elementSize * elementCount)
      ensures Uploaded(gl.state, vertexBuffer.id, |vert|, Some(vert), StaticRead)
      ensures Uploaded(gl.state, elementBuffer.id, |elem|, Some(elem), StaticRead)
      ensures gl.state == old(gl.state).(
                stores := old(gl.state).stores[vertexBuffer.id := Store(vert, StaticRead)]
                                              [elementBuffer.id := Store(elem, StaticRead)],
                layouts := old(gl.state).layouts[id := attributes],
                trace := old(gl.state).trace + [Upload(vertexBuffer.id, StaticRead, |vert|),
                                                Upload(elementBuffer.id, StaticRead, |elem|),
                                                InstallLayout(id, attributes)])
    {
      vertexCount := ToGLuint(elementSize * elementCount);
      vertexBuffer.Load(gl, vert, StaticRead);
      elementBuffer.Load(gl, elem, StaticRead);
      gl.state := SetLayout(gl.state, id, attributes);
    }

    /** Binds the vertex array and draws `vertexCount` indices as triangles. */
    method Draw(gl: Driver)
      modifies gl
      ensures gl.state == DrawElements(BindVertexArray(old(gl.state), id), vertexCount)
    {
      gl.state := BindVertexArray(gl.state, id);
      gl.state := DrawElements(gl.state, vertexCount);
    }
  }
}
