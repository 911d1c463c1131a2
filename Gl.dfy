/**
  What the shader component sees of OpenGL: 32-bit object names, the few
  enumerants it tests, the results the driver hands back (supplied to the
  model as parameters), and the recycle bin that defers deletions.
 */
module Gl {

  /** A GLuint: object names, draw modes. */
  newtype uint32 = x: int | 0 <= x < 0x1_0000_0000

  /** A 32-bit signed integer, as stored by the document writer. */
  newtype int32 = x: int | -0x8000_0000 <= x < 0x8000_0000

  /** GL_POINTS, the draw mode a new view model starts with. */
  const GL_POINTS: uint32 := 0x0000
  /** GL_PATCHES, the largest primitive mode. */
  const GL_PATCHES: uint32 := 0x000E

  /** The C# cast `(uint)i` of an int, which wraps modulo 2^32. */
  function ToUint32(i: int32): (r: uint32)
    ensures i >= 0 ==> r as int == i as int
    ensures i < 0 ==> r as int == i as int + 0x1_0000_0000
  {
    ((i as int) % 0x1_0000_0000) as uint32
  }

  /** The C# cast `(int)u` of a uint, which wraps modulo 2^32. */
  function ToInt32(u: uint32): (r: int32)
    ensures u as int < 0x8000_0000 ==> r as int == u as int
    ensures u as int >= 0x8000_0000 ==> r as int == u as int - 0x1_0000_0000
  {
    if u as int < 0x8000_0000 then u as int as int32 else (u as int - 0x1_0000_0000) as int32
  }

  /** Writing a draw mode as an Int32 and reading it back gives the same mode. */
  lemma CastRoundTrip(u: uint32)
    ensures ToUint32(ToInt32(u)) == u
  {
  }

  /** An object queued for deletion, tagged with the kind of its name. */
  datatype GLObject =
    | ShaderObject(id: uint32)
    | ProgramObject(id: uint32)
    | TextureObject(id: uint32)
    | BufferObject(id: uint32)

  /** What the driver reports for one glCreateShader / glCompileShader round:
      the name it created, whether GL_COMPILE_STATUS came back as 1, and the
      info log text (empty when GL_INFO_LOG_LENGTH is at most 1). */
  datatype ShaderCompilation = ShaderCompilation(handle: uint32, compiled: bool, infoLog: string)

  /** What the driver reports while building a program: the compilation of
      each of the five stages in stage order, the name glCreateProgram
      returns, and the message of an error raised by glLinkProgram, if any. */
  datatype ProgramBuild = ProgramBuild(stages: seq<ShaderCompilation>, program: uint32, linkError: LinkError)

  datatype LinkError = Linked | LinkFailed(message: string)

  /**
    The recycle bin: GL names handed to it are deleted later, on the thread
    that owns the context. Its internals are not part of this model; it is
    seen only as the log of everything queued, and the length of the prefix
    of that log that Recycle has already released.
   */
  class RecycleBin {
    ghost var queued: seq<GLObject>
    ghost var released: nat

    constructor ()
      ensures queued == [] && released == 0
    {
      queued := [];
      released := 0;
    }

    /** AddShaderToDeleteList, AddProgramToDeleteList, AddTextureToDeleteList
        and AddVboToDeleteList: the name is queued whatever its value. */
    method Add(obj: GLObject)
      modifies this
      ensures queued == old(queued) + [obj] && released == old(released)
    {
      queued := queued + [obj];
    }

    /** Recycle: everything queued so far is released. */
    method Recycle()
      modifies this
      ensures queued == old(queued) && released == |queued|
    {
      released := |queued|;
    }
  }
}
