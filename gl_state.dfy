/** The part of the OpenGL driver's global state that the renderer's
    resource objects read and change: buffer bindings, buffer stores,
    indexed uniform-block bindings, the framebuffer, vertex-array, texture
    and program bindings, texture images, framebuffer attachments and
    attribute layouts, plus a trace of the calls whose order matters
    (uploads, layout installs, uniform assignments, draws).

    Each driver entry point the renderer uses is a function from the old
    state to the new one. */
module GL {
  import opened HostTypes

  datatype Option<T> = None | Some(value: T)

  /** A driver object name; 0 names no object (the default framebuffer,
      the default vertex array, "unbound"). */
  type Handle = nat
  /** A name handed out by a glGen* call, never 0. */
  type Name = h: nat | h > 0 witness 1

  datatype Target = ArrayBuffer | ElementArrayBuffer | UniformBuffer
  datatype Usage = StaticDraw | StreamDraw | StaticRead

  /** A buffer object's data store and the usage hint it was created with. */
  datatype Store = Store(bytes: seq<byte>, usage: Usage)

  datatype PixelFormat = Rgb | Rgba
  datatype Filter = Nearest | Linear | NearestMipmapLinear
  datatype TextureState = TextureState(width: nat, height: nat, format: PixelFormat,
                                       minFilter: Filter, magFilter: Filter)

  /** One vertex attribute: component count, normalisation, stride and
      offset in bytes (the component type is not modelled). */
  datatype VertexAttribute = VertexAttribute(size: nat, normalized: bool, stride: nat, offset: nat)

  datatype UniformValue =
    | UVec2Value(v: UVec2)
    | UVec4Value(x: uint32, y: uint32, z: uint32, w: uint32)
    | Vec2Value(fx: real, fy: real)

  /** What a glDrawElements call sees of the bindings when it is issued. */
  datatype DrawCall = DrawCall(program: Handle, vertexArray: Handle, elements: Handle,
                               framebuffer: Handle, texture: Handle, count: uint32)

  datatype Event =
    | UseProgram(program: Handle)
    | SetUniform(program: Handle, name: string, value: UniformValue)
    | Upload(buffer: Handle, usage: Usage, size: nat)
    | InstallLayout(vertexArray: Handle, layout: seq<VertexAttribute>)
    | Draw(call: DrawCall)

  datatype State = State(
    issued: nat,                          // names 1..issued have been handed out
    arrayBuffer: Handle,                  // GL_ARRAY_BUFFER binding
    uniformBuffer: Handle,                // generic GL_UNIFORM_BUFFER binding
    elementBuffers: map<Handle, Handle>,  // GL_ELEMENT_ARRAY_BUFFER binding, per vertex array
    stores: map<Handle, Store>,
    uniformBlocks: map<nat, Handle>,      // indexed GL_UNIFORM_BUFFER binding points
    framebuffer: Handle,
    vertexArray: Handle,
    texture: Handle,                      // GL_TEXTURE_2D binding of the active unit
    textures: map<Handle, TextureState>,
    attachments: map<Handle, Handle>,     // framebuffer -> colour attachment 0
    layouts: map<Handle, seq<VertexAttribute>>,
    program: Handle,
    uniforms: map<(Handle, string), UniformValue>,
    trace: seq<Event>)

  function Initial(): (s: State)
    ensures s.framebuffer == 0 && s.vertexArray == 0 && s.trace == []
  {
    State(0, 0, 0, map[], map[], map[], 0, 0, 0, map[], map[], map[], 0, map[], [])
  }

  /** The name the next glGen* call returns. */
  function NewName(s: State): Name
  {
    s.issued + 1
  }

  /** glGenBuffers / glGenFramebuffers / glGenVertexArrays / glGenTextures:
      the name handed out was never handed out before and is now taken. */
  function Gen(s: State): (r: State)
    ensures NewName(s) > s.issued && r.issued == NewName(s) && NewName(r) > NewName(s)
    ensures r == s.(issued := r.issued)
  {
    s.(issued := s.issued + 1)
  }

  /** The element buffer vertex array `vao` records (0 if none). */
  function ElementsOf(s: State, vao: Handle): Handle
  {
    if vao in s.elementBuffers then s.elementBuffers[vao] else 0
  }

  /** The GL_ELEMENT_ARRAY_BUFFER binding: that of the bound vertex array. */
  function ElementBinding(s: State): Handle
  {
    ElementsOf(s, s.vertexArray)
  }

  /** The buffer currently bound to a target. */
  function Bound(s: State, t: Target): Handle
  {
    match t
    case ArrayBuffer => s.arrayBuffer
    case UniformBuffer => s.uniformBuffer
    case ElementArrayBuffer => ElementBinding(s)
  }

  /** glBindBuffer: binds `h` to `t` (to the bound vertex array's element
      binding for GL_ELEMENT_ARRAY_BUFFER) and changes no other binding. */
  function BindBuffer(s: State, t: Target, h: Handle): (r: State)
    ensures Bound(r, t) == h
    ensures forall u :: u != t ==> Bound(r, u) == Bound(s, u)
    ensures forall v :: v in s.elementBuffers && v != s.vertexArray ==>
              v in r.elementBuffers && r.elementBuffers[v] == s.elementBuffers[v]
    ensures forall v :: v != s.vertexArray ==> ElementsOf(r, v) == ElementsOf(s, v)
    // every other field (vertex array, framebuffer, texture and program
    // bindings, stores, uniform blocks, textures, layouts, trace) is kept
    ensures r == s.(arrayBuffer := r.arrayBuffer, uniformBuffer := r.uniformBuffer,
                    elementBuffers := r.elementBuffers)
  {
    match t
    case ArrayBuffer => s.(arrayBuffer := h)
    case UniformBuffer => s.(uniformBuffer := h)
    case ElementArrayBuffer => s.(elementBuffers := s.elementBuffers[s.vertexArray := h])
  }

  /** The contents a new store of `size` bytes starts with: a prefix of
      `data`, or, for a null pointer, bytes the driver leaves unspecified
      (zero here; no contract relies on them). */
  function InitialBytes(size: nat, data: Option<seq<byte>>): (b: seq<byte>)
    requires data.Some? ==> size <= |data.value|
    ensures |b| == size
    ensures data.Some? ==> b == data.value[..size]
  {
    if data.Some? then data.value[..size] else seq(size, _ => 0 as byte)
  }

  /** glBufferData: replaces the store of the buffer bound to `t`; with no
      buffer bound the call is an error and nothing changes. */
  function BufferData(s: State, t: Target, size: nat, data: Option<seq<byte>>, usage: Usage): (r: State)
    requires data.Some? ==> size <= |data.value|
    ensures Bound(s, t) == 0 ==> r == s
    ensures Bound(s, t) != 0 ==>
              && Uploaded(r, Bound(s, t), size, data, usage)
              && r.stores.Keys == s.stores.Keys + {Bound(s, t)}
              && r.trace == s.trace + [Upload(Bound(s, t), usage, size)]
    ensures forall h :: h in s.stores && h != Bound(s, t) ==> r.stores[h] == s.stores[h]
    ensures r == s.(stores := r.stores, trace := r.trace)
  {
    var h := Bound(s, t);
    if h == 0 then s
    else s.(stores := s.stores[h := Store(InitialBytes(size, data), usage)],
            trace := s.trace + [Upload(h, usage, size)])
  }

  /** Buffer `h` holds a store of `size` bytes created with `usage`, whose
      contents are a prefix of `data` when `data` is not null. */
  predicate Uploaded(s: State, h: Handle, size: nat, data: Option<seq<byte>>, usage: Usage)
  {
    && h in s.stores
    && |s.stores[h].bytes| == size
    && s.stores[h].usage == usage
    && (data.Some? ==> size <= |data.value| && s.stores[h].bytes == data.value[..size])
  }

  /** A whole-array upload into buffer `h` (the templated Buffer::load). */
  function StoreArray(s: State, h: Handle, bytes: seq<byte>, usage: Usage): (r: State)
    ensures Uploaded(r, h, |bytes|, Some(bytes), usage)
    ensures r.stores == s.stores[h := r.stores[h]]
    ensures r.trace == s.trace + [Upload(h, usage, |bytes|)]
    ensures r == s.(stores := r.stores, trace := r.trace)
  {
    s.(stores := s.stores[h := Store(bytes, usage)], trace := s.trace + [Upload(h, usage, |bytes|)])
  }

  /** `memcpy(dst, data, size)` into a store: the first `size` bytes come
      from `data`, the rest stay as they were. */
  function Overwrite(old_: seq<byte>, size: nat, data: seq<byte>): (b: seq<byte>)
    requires size <= |old_| && size <= |data|
    ensures |b| == |old_|
    ensures forall k :: 0 <= k < size ==> b[k] == data[k]
    ensures forall k :: size <= k < |old_| ==> b[k] == old_[k]
  {
    data[..size] + old_[size..]
  }

  /** glMapBuffer(GL_WRITE_ONLY), memcpy, glUnmapBuffer on the buffer bound
      to `t`. Nothing checks that `size` fits the store. */
  function MapCopy(s: State, t: Target, size: nat, data: seq<byte>): (r: State)
    requires Bound(s, t) in s.stores
    requires size <= |s.stores[Bound(s, t)].bytes| && size <= |data|
    ensures r == s.(stores := r.stores)
    ensures r.stores.Keys == s.stores.Keys
    ensures r.stores[Bound(s, t)].usage == s.stores[Bound(s, t)].usage
    ensures r.stores[Bound(s, t)].bytes == Overwrite(s.stores[Bound(s, t)].bytes, size, data)
    ensures forall h :: h in s.stores && h != Bound(s, t) ==> r.stores[h] == s.stores[h]
  {
    var h := Bound(s, t);
    s.(stores := s.stores[h := s.stores[h].(bytes := Overwrite(s.stores[h].bytes, size, data))])
  }

  /** Bind, map-and-copy, unbind, as one step: only the written store and
      the target's binding (now 0) differ from before. */
  lemma MappedWrite(s: State, t: Target, h: Handle, size: nat, data: seq<byte>)
    requires h in s.stores && size <= |s.stores[h].bytes| && size <= |data|
    ensures var s1 := BindBuffer(s, t, h);
            && Bound(s1, t) == h
            && BindBuffer(MapCopy(s1, t, size, data), t, 0)
               == BindBuffer(s, t, 0).(stores := s.stores[h := Store(Overwrite(s.stores[h].bytes, size, data),
                                                                     s.stores[h].usage)])
  {
    var st := Store(Overwrite(s.stores[h].bytes, size, data), s.stores[h].usage);
    match t
    case ArrayBuffer =>
    case UniformBuffer =>
    case ElementArrayBuffer =>
      assert s.elementBuffers[s.vertexArray := h][s.vertexArray := 0] == s.elementBuffers[s.vertexArray := 0];
  }

  /** glBindBufferBase(GL_UNIFORM_BUFFER, index, h): binds the indexed
      binding point and, as OpenGL specifies, the generic uniform-buffer
      binding as well. */
  function BindBufferBase(s: State, index: nat, h: Handle): (r: State)
    ensures r.uniformBlocks == s.uniformBlocks[index := h]
    ensures Bound(r, UniformBuffer) == h
    ensures Bound(r, ArrayBuffer) == Bound(s, ArrayBuffer)
    ensures r == s.(uniformBlocks := r.uniformBlocks, uniformBuffer := r.uniformBuffer)
  {
    s.(uniformBlocks := s.uniformBlocks[index := h], uniformBuffer := h)
  }

  /** glBindFramebuffer: later draws go to framebuffer `h`; no buffer or
      texture binding and no attachment changes. */
  function BindFramebuffer(s: State, h: Handle): (r: State)
    ensures r.framebuffer == h
    ensures forall t :: Bound(r, t) == Bound(s, t)
    ensures r == s.(framebuffer := r.framebuffer)
  {
    s.(framebuffer := h)
  }

  /** glBindVertexArray: the element-array binding becomes the one vertex
      array `h` recorded, while the array-buffer and uniform-buffer
      bindings, which are not vertex-array state, stay. */
  function BindVertexArray(s: State, h: Handle): (r: State)
    ensures r.vertexArray == h
    ensures Bound(r, ElementArrayBuffer) == ElementsOf(s, h)
    ensures Bound(r, ArrayBuffer) == Bound(s, ArrayBuffer) && Bound(r, UniformBuffer) == Bound(s, UniformBuffer)
    ensures r == s.(vertexArray := r.vertexArray)
  {
    s.(vertexArray := h)
  }

  /** glBindTexture(GL_TEXTURE_2D, h): later texture calls and draws use
      texture `h`, whose texture state does not change. */
  function BindTexture(s: State, h: Handle): (r: State)
    ensures r.texture == h && TextureOf(r, r.texture) == TextureOf(s, h)
    ensures forall t :: Bound(r, t) == Bound(s, t)
    ensures r == s.(texture := r.texture)
  {
    s.(texture := h)
  }

  /** A texture object as the driver creates it on first use. */
  function TextureOf(s: State, h: Handle): TextureState
  {
    if h in s.textures then s.textures[h] else TextureState(0, 0, Rgba, NearestMipmapLinear, Linear)
  }

  /** glTexImage2D with a null pointer on the bound texture: allocates a
      `width` by `height` image of the given format; sampler state stays. */
  function TexImage(s: State, width: nat, height: nat, format: PixelFormat): (r: State)
    ensures s.texture in r.textures && r.textures == s.textures[s.texture := r.textures[s.texture]]
    ensures var t := r.textures[s.texture];
            t.width == width && t.height == height && t.format == format &&
            t.minFilter == TextureOf(s, s.texture).minFilter && t.magFilter == TextureOf(s, s.texture).magFilter
    ensures r == s.(textures := r.textures)
  {
    s.(textures := s.textures[s.texture := TextureOf(s, s.texture).(width := width, height := height, format := format)])
  }

  /** glTexParameteri(GL_TEXTURE_2D, GL_TEXTURE_MIN_FILTER, f) */
  function TexMinFilter(s: State, f: Filter): (r: State)
    ensures s.texture in r.textures && r.textures == s.textures[s.texture := r.textures[s.texture]]
    ensures var t, t0 := r.textures[s.texture], TextureOf(s, s.texture);
            && t.minFilter == f && t.magFilter == t0.magFilter
            && t.width == t0.width && t.height == t0.height && t.format == t0.format
    ensures r == s.(textures := r.textures)
  {
    s.(textures := s.textures[s.texture := TextureOf(s, s.texture).(minFilter := f)])
  }

  /** glTexParameteri(GL_TEXTURE_2D, GL_TEXTURE_MAG_FILTER, f) */
  function TexMagFilter(s: State, f: Filter): (r: State)
    ensures s.texture in r.textures && r.textures == s.textures[s.texture := r.textures[s.texture]]
    ensures var t, t0 := r.textures[s.texture], TextureOf(s, s.texture);
            && t.magFilter == f && t.minFilter == t0.minFilter
            && t.width == t0.width && t.height == t0.height && t.format == t0.format
    ensures r == s.(textures := r.textures)
  {
    s.(textures := s.textures[s.texture := TextureOf(s, s.texture).(magFilter := f)])
  }

  /** Attaches texture `tex` as colour attachment 0 of the bound framebuffer. */
  function AttachColour(s: State, tex: Handle): (r: State)
    ensures s.framebuffer in r.attachments && r.attachments[s.framebuffer] == tex
    ensures forall f :: f in s.attachments && f != s.framebuffer ==> f in r.attachments && r.attachments[f] == s.attachments[f]
    ensures r == s.(attachments := r.attachments)
  {
    s.(attachments := s.attachments[s.framebuffer := tex])
  }

  /** Installs an attribute layout on vertex array `vao`. */
  function SetLayout(s: State, vao: Handle, layout: seq<VertexAttribute>): (r: State)
    ensures vao in r.layouts && r.layouts[vao] == layout
    ensures forall v :: v in s.layouts && v != vao ==> v in r.layouts && r.layouts[v] == s.layouts[v]
    ensures r.trace == s.trace + [InstallLayout(vao, layout)]
    ensures r == s.(layouts := r.layouts, trace := r.trace)
  {
    s.(layouts := s.layouts[vao := layout], trace := s.trace + [InstallLayout(vao, layout)])
  }

  /** glUseProgram */
  function Use(s: State, p: Handle): (r: State)
    ensures r.program == p && r.uniforms == s.uniforms
    ensures r.trace == s.trace + [UseProgram(p)]
    ensures r == s.(program := r.program, trace := r.trace)
  {
    s.(program := p, trace := s.trace + [UseProgram(p)])
  }

  /** glUniform* on the program in use. */
  function Uniform(s: State, name: string, v: UniformValue): (r: State)
    ensures (s.program, name) in r.uniforms && r.uniforms[(s.program, name)] == v
    ensures forall k :: k in s.uniforms && k != (s.program, name) ==> k in r.uniforms && r.uniforms[k] == s.uniforms[k]
    ensures r.trace == s.trace + [SetUniform(s.program, name, v)]
    ensures r == s.(uniforms := r.uniforms, trace := r.trace)
  {
    s.(uniforms := s.uniforms[(s.program, name) := v], trace := s.trace + [SetUniform(s.program, name, v)])
  }

  /** glDrawElements(GL_TRIANGLES, count, GL_UNSIGNED_INT, 0): records the
      bindings it draws with; no binding or store changes. */
  function DrawElements(s: State, count: uint32): (r: State)
    ensures |r.trace| == |s.trace| + 1 && r.trace[..|s.trace|] == s.trace
    ensures var e := r.trace[|s.trace|];
            && e.Draw? && e.call.count == count
            && e.call.program == s.program && e.call.vertexArray == s.vertexArray
            && e.call.elements == Bound(s, ElementArrayBuffer)
            && e.call.framebuffer == s.framebuffer && e.call.texture == s.texture
    ensures r == s.(trace := r.trace)
  {
    s.(trace := s.trace + [Draw(DrawCall(s.program, s.vertexArray, ElementBinding(s), s.framebuffer, s.texture, count))])
  }

  /** The driver context: the one global state every resource object acts on. */
  class Driver {
    var state: State

    constructor()
      ensures state == Initial()
    {
      state := Initial();
    }
  }
}
