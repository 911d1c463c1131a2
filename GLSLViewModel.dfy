/**
  The program manager behind the GLSL component: five shader stages built
  into one GL program, the cached outcome of the last build, the drawing
  settings, and the uniform and attribute values set before drawing,
  including the bounded cache of sampler textures kept between solutions.
 */
module ViewModel {
  import opened Text
  import opened Gl
  import opened Shaders

  const DefaultLineWidth: real := 3.0
  const DefaultPointSize: real := 8.0
  /** ClearData keeps at most this many samplers for reuse. */
  const SamplerCacheCapacity: nat := 10

  const VertexRequired: string := "A vertex shader is required to create a GL program"
  const FragmentRequired: string := "A fragment shader is required to create a GL program"

  // ---------------------------------------------------------------------
  // Values the view model holds
  // ---------------------------------------------------------------------

  /** Rhino's Point3f and the component's Vec4; floats are taken as reals. */
  datatype Vec3 = Vec3(x: real, y: real, z: real)
  datatype Vec4 = Vec4(x: real, y: real, z: real, w: real)

  /** A named uniform value. */
  datatype Uniform<T> = Uniform(name: string, data: T)

  /** A 2D sampler: the image it reads and the GL texture made from it
      (0 while none has been made). */
  datatype Sampler = Sampler(name: string, path: string, textureId: uint32)

  /** A vertex attribute: its items, the location the caller gave (-1 when
      it is looked up by name) and the GL buffer holding the items. */
  datatype VertexAttribute<T> = VertexAttribute(name: string, location: int, items: seq<T>, vboHandle: uint32)

  /** The drawing settings. */
  datatype Settings = Settings(lineWidth: real, pointSize: real, drawMode: uint32)

  /** Everything set on the view model for the next draw, and the samplers
      kept for reuse. */
  datatype DrawInputs = DrawInputs(
    intUniforms: seq<Uniform<int32>>,
    floatUniforms: seq<Uniform<real>>,
    vec3Uniforms: seq<Uniform<Vec3>>,
    vec4Uniforms: seq<Uniform<Vec4>>,
    samplers: seq<Sampler>,
    intAttribs: seq<VertexAttribute<int32>>,
    floatAttribs: seq<VertexAttribute<real>>,
    vec3Attribs: seq<VertexAttribute<Vec3>>,
    vec4Attribs: seq<VertexAttribute<Vec4>>,
    samplerCache: seq<Sampler>)

  // ---------------------------------------------------------------------
  // Property setters and change notification
  // ---------------------------------------------------------------------

  /** The view model's properties, as the caller-member-name attribute
      names them in change notifications (misspelling included). */
  datatype Member =
    | VertexShaderCode | TessellationControlCode | TessellationEvalualtionCode
    | FragmentShaderCode | GeometryShaderCode
    | ProgramId | GlLineWidth | GlPointSize | DrawMode

  /** The property through which stage `t`'s code is set. */
  function CodeMember(t: ShaderType): (m: Member)
    ensures IsCodeMember(m)
  {
    match t
    case Vertex => VertexShaderCode
    case TessellationControl => TessellationControlCode
    case TessellationEval => TessellationEvalualtionCode
    case Fragment => FragmentShaderCode
    case Geometry => GeometryShaderCode
  }

  /** The members on whose change notification the program is dropped. */
  predicate IsCodeMember(m: Member) {
    || m == VertexShaderCode || m == TessellationControlCode || m == TessellationEvalualtionCode
    || m == FragmentShaderCode || m == GeometryShaderCode
  }

  /** Each stage has its own property, and only the five code properties
      drop the program. */
  lemma CodeMembers(m: Member)
    ensures IsCodeMember(m) <==> exists t :: CodeMember(t) == m
    ensures forall t, u :: CodeMember(t) == CodeMember(u) ==> t == u
  {
    if IsCodeMember(m) {
      var t := match m
        case VertexShaderCode => Vertex
        case TessellationControlCode => TessellationControl
        case TessellationEvalualtionCode => TessellationEval
        case FragmentShaderCode => Fragment
        case _ => Geometry;
      assert CodeMember(t) == m;
    }
  }

  /** What replacing program name `previous` by `value` hands to the
      recycle bin. */
  function Retired(previous: uint32, value: uint32): (q: seq<GLObject>)
    ensures q == [] <==> previous == value
  {
    if previous != value then [ProgramObject(previous)] else []
  }

  /** The rule of the glLineWidth and glPointSize setters: a new value is
      taken only when it differs and is positive. */
  function PositiveUpdate(current: real, value: real): (r: real)
    ensures r == value || r == current
    ensures r != current <==> value != current && value > 0.0
    ensures current > 0.0 ==> r > 0.0
  {
    if current != value && value > 0.0 then value else current
  }

  /** The rule of the DrawMode setter. Its guard tests the mode being
      replaced, not the new one: any value is taken while the current mode
      is at most GL_PATCHES, and none once it is above. */
  function DrawModeUpdate(current: uint32, value: uint32): (r: uint32)
    ensures current <= GL_PATCHES ==> r == value
    ensures current > GL_PATCHES ==> r == current
  {
    if current != value && current <= GL_PATCHES then value else current
  }

  /** Once a mode above GL_PATCHES has been taken, every later assignment
      leaves it. */
  lemma {:induction false} DrawModeStuck(current: uint32, values: seq<uint32>)
    requires current > GL_PATCHES
    ensures DrawModesAfter(current, values) == current
  {
    if values != [] {
      DrawModeStuck(current, values[..|values| - 1]);
    }
  }

  /** The draw mode after assigning `values` in turn. */
  function DrawModesAfter(current: uint32, values: seq<uint32>): uint32 {
    if values == [] then current
    else DrawModeUpdate(DrawModesAfter(current, values[..|values| - 1]), values[|values| - 1])
  }

  /** The program name, the cached compile failure and the recycle bin's
      log: the state that code edits and CompileProgram act on. */
  datatype Program = Program(id: uint32, failed: bool, queued: seq<GLObject>)

  /** The program state after a code assignment: an edit that changes the
      code drops the program and the cached failure; one that does not
      leaves everything. */
  function Edit(p: Program, changed: bool): (r: Program)
    ensures changed ==> r.id == 0 && !r.failed && r.queued == p.queued + Retired(p.id, 0)
    ensures !changed ==> r == p
  {
    if changed then Program(0, false, p.queued + Retired(p.id, 0)) else p
  }

  /** Two edits in a row act as one that changes the code when either
      does: an edit on a dropped program queues nothing more. */
  lemma EditTwice(p: Program, first: bool, second: bool)
    ensures Edit(Edit(p, first), second) == Edit(p, first || second)
  {
    if first && second {
      assert Edit(p, first).queued + Retired(0, 0) == Edit(p, first).queued;
    }
  }

  /** Five codes differ from five others exactly when one of the stages does. */
  lemma FiveChanged(before: seq<string>, after: seq<string>)
    requires |before| == 5 && |after| == 5
    ensures (after != before) ==
      (before[0] != after[0] || before[1] != after[1] || before[2] != after[2] ||
       before[3] != after[3] || before[4] != after[4])
  {
    if before[0] == after[0] && before[1] == after[1] && before[2] == after[2] &&
       before[3] == after[3] && before[4] == after[4] {
      assert forall k :: 0 <= k < 5 ==> before[k] == after[k];
    }
  }

  /** Overwriting all five entries, one at a time, gives the new ones. */
  lemma FiveUpdated<T>(s: seq<T>, r: seq<T>)
    requires |s| == 5 && |r| == 5
    ensures s[0 := r[0]][1 := r[1]][2 := r[2]][3 := r[3]][4 := r[4]] == r
  {
  }

  // ---------------------------------------------------------------------
  // CompileProgram
  // ---------------------------------------------------------------------

  /** The compilation of stage `k`, given the code and GL name of each
      stage and what the driver reports for each. */
  function StageResult(codes: seq<string>, ids: seq<uint32>, gl: seq<ShaderCompilation>, k: nat): Compilation
    requires |codes| == 5 && |ids| == 5 && |gl| == 5 && k < 5
  {
    Compiled(TypeAt(k), codes[k], ids[k], gl[k])
  }

  /** The `compileSuccess` after the first `n` stages: every stage is
      compiled and the results are and-ed. */
  function AllCompiled(codes: seq<string>, ids: seq<uint32>, gl: seq<ShaderCompilation>, n: nat): bool
    requires |codes| == 5 && |ids| == 5 && |gl| == 5 && n <= 5
  {
    n == 0 || (StageResult(codes, ids, gl, n - 1).ok && AllCompiled(codes, ids, gl, n - 1))
  }

  lemma {:induction false} AllCompiledMeaning(codes: seq<string>, ids: seq<uint32>, gl: seq<ShaderCompilation>, n: nat)
    requires |codes| == 5 && |ids| == 5 && |gl| == 5 && n <= 5
    ensures AllCompiled(codes, ids, gl, n) <==> forall k :: 0 <= k < n ==> StageResult(codes, ids, gl, k).ok
  {
    if n > 0 {
      AllCompiledMeaning(codes, ids, gl, n - 1);
    }
  }

  /** The messages the first `n` stages report, in stage order. */
  function StageErrors(codes: seq<string>, ids: seq<uint32>, gl: seq<ShaderCompilation>, n: nat): seq<string>
    requires |codes| == 5 && |ids| == 5 && |gl| == 5 && n <= 5
  {
    if n == 0 then [] else StageErrors(codes, ids, gl, n - 1) + StageResult(codes, ids, gl, n - 1).errors
  }

  /** The GL names the first `n` stages hand to the recycle bin. */
  function StageQueued(codes: seq<string>, ids: seq<uint32>, gl: seq<ShaderCompilation>, n: nat): seq<GLObject>
    requires |codes| == 5 && |ids| == 5 && |gl| == 5 && n <= 5
  {
    if n == 0 then [] else StageQueued(codes, ids, gl, n - 1) + StageResult(codes, ids, gl, n - 1).queued
  }

  /** The stage names after the first `n` stages are compiled. */
  function IdsAfter(codes: seq<string>, ids: seq<uint32>, gl: seq<ShaderCompilation>, n: nat): (r: seq<uint32>)
    requires |codes| == 5 && |ids| == 5 && |gl| == 5 && n <= 5
    ensures |r| == 5
    ensures forall k :: 0 <= k < 5 ==> r[k] == if k < n then StageResult(codes, ids, gl, k).id else ids[k]
  {
    if n == 0 then ids else IdsAfter(codes, ids, gl, n - 1)[n - 1 := StageResult(codes, ids, gl, n - 1).id]
  }

  /** Regrouping appended messages, stated apart so that the methods that
      append to the error list and the bin need not rediscover it. */
  lemma AppendAssociative<T>(a: seq<T>, b: seq<T>, c: seq<T>)
    ensures (a + b) + c == a + (b + c)
  {
  }

  /** The messages about missing vertex or fragment code. */
  function RequiredErrors(vertex: string, fragment: string): seq<string> {
    (if IsBlank(vertex) then [VertexRequired] else []) + (if IsBlank(fragment) then [FragmentRequired] else [])
  }

  /** What CompileProgram leaves when it does the work: the program name,
      the messages it appends and the names it queues. */
  datatype Build = Build(programId: uint32, errors: seq<string>, queued: seq<GLObject>)

  /** The linking step, starting from program name 0: the new program is
      stored, and a link error drops it again and reports its message. */
  function Link(success: bool, gl: ProgramBuild): Build {
    if !success then Build(0, [], [])
    else
      match gl.linkError
      case Linked => Build(gl.program, [], Retired(0, gl.program))
      case LinkFailed(message) => Build(0, [message], Retired(0, gl.program) + Retired(gl.program, 0))
  }

  /** CompileProgram past its two early returns, for stage codes `codes`,
      stage names `ids` and driver results `gl`. */
  function Built(codes: seq<string>, ids: seq<uint32>, gl: ProgramBuild): Build
    requires |codes| == 5 && |ids| == 5 && |gl.stages| == 5
  {
    var vertex := codes[TypeIndex(Vertex)];
    var fragment := codes[TypeIndex(Fragment)];
    var link := Link(AllCompiled(codes, ids, gl.stages, 5) && !IsBlank(vertex) && !IsBlank(fragment), gl);
    Build(link.programId,
          StageErrors(codes, ids, gl.stages, 5) + RequiredErrors(vertex, fragment) + link.errors,
          StageQueued(codes, ids, gl.stages, 5) + link.queued)
  }

  /** A program is built exactly when every stage compiles, vertex and
      fragment code are present, the driver creates a program and linking
      raises no error; it is then the driver's program. Missing vertex or
      fragment code is always reported. */
  lemma BuiltMeaning(codes: seq<string>, ids: seq<uint32>, gl: ProgramBuild)
    requires |codes| == 5 && |ids| == 5 && |gl.stages| == 5
    ensures var b := Built(codes, ids, gl);
      && (b.programId != 0 <==>
            && (forall k :: 0 <= k < 5 ==> StageResult(codes, ids, gl.stages, k).ok)
            && !IsBlank(codes[TypeIndex(Vertex)]) && !IsBlank(codes[TypeIndex(Fragment)])
            && gl.program != 0 && gl.linkError == Linked)
      && (b.programId != 0 ==> b.programId == gl.program)
      && (IsBlank(codes[TypeIndex(Vertex)]) ==> VertexRequired in b.errors)
      && (IsBlank(codes[TypeIndex(Fragment)]) ==> FragmentRequired in b.errors)
  {
    AllCompiledMeaning(codes, ids, gl.stages, 5);
    var vertex := codes[TypeIndex(Vertex)];
    var fragment := codes[TypeIndex(Fragment)];
    var r := RequiredErrors(vertex, fragment);
    var link := Link(AllCompiled(codes, ids, gl.stages, 5) && !IsBlank(vertex) && !IsBlank(fragment), gl);
    assert Built(codes, ids, gl).errors == StageErrors(codes, ids, gl.stages, 5) + r + link.errors;
    if IsBlank(vertex) {
      assert r[0] == VertexRequired;
    }
    if IsBlank(fragment) {
      assert r[|r| - 1] == FragmentRequired;
    }
  }

  // ---------------------------------------------------------------------
  // Write and Read
  // ---------------------------------------------------------------------

  /** What a GH_IO chunk holds for the view model: the five shader strings
      (under "VertexShader", "GeometryShader", "FragmentShader",
      "TessCtrlShader" and "TessEvalShader"), the doubles "glLineWidth" and
      "glPointSize", and the Int32 "DrawMode". Any of them may be missing. */
  datatype Archive = Archive(shaders: map<ShaderType, string>, lineWidth: Option<real>, pointSize: Option<real>, drawMode: Option<int32>)

  /** What Write stores for stage codes `codes` and settings `s`. */
  function Written(codes: seq<string>, s: Settings): (a: Archive)
    requires |codes| == 5
    ensures a.lineWidth == Some(s.lineWidth) && a.pointSize == Some(s.pointSize)
    ensures a.drawMode == Some(ToInt32(s.drawMode))
  {
    Archive(map[Vertex := codes[0], Geometry := codes[1], Fragment := codes[2],
                TessellationControl := codes[3], TessellationEval := codes[4]],
            Some(s.lineWidth), Some(s.pointSize), Some(ToInt32(s.drawMode)))
  }

  /** The code Read gives stage `t`: the stored string, or "" without one. */
  function ReadCode(a: Archive, t: ShaderType): string {
    if t in a.shaders then a.shaders[t] else ""
  }

  /** The stage codes after Read, in stage order. */
  function ReadCodes(a: Archive): (codes: seq<string>)
    ensures |codes| == 5 && forall k :: 0 <= k < 5 ==> codes[k] == ReadCode(a, TypeAt(k))
  {
    [ReadCode(a, TypeAt(0)), ReadCode(a, TypeAt(1)), ReadCode(a, TypeAt(2)), ReadCode(a, TypeAt(3)), ReadCode(a, TypeAt(4))]
  }

  /** The settings after Read: each stored value goes through its setter,
      and a missing one leaves the setting as it was. */
  function ReadSettings(current: Settings, a: Archive): (r: Settings)
    ensures a.lineWidth.None? ==> r.lineWidth == current.lineWidth
    ensures a.pointSize.None? ==> r.pointSize == current.pointSize
    ensures a.drawMode.None? ==> r.drawMode == current.drawMode
  {
    Settings(
      if a.lineWidth.Some? then PositiveUpdate(current.lineWidth, a.lineWidth.value) else current.lineWidth,
      if a.pointSize.Some? then PositiveUpdate(current.pointSize, a.pointSize.value) else current.pointSize,
      if a.drawMode.Some? then DrawModeUpdate(current.drawMode, ToUint32(a.drawMode.value)) else current.drawMode)
  }

  /** Reading what Write stored gives back every stage's code, and the
      settings whenever they were positive and the reader's draw mode is at
      most GL_PATCHES (above it, the DrawMode setter refuses every value). */
  lemma WriteReadRoundTrip(codes: seq<string>, s: Settings, reader: Settings)
    requires |codes| == 5
    ensures ReadCodes(Written(codes, s)) == codes
    ensures s.lineWidth > 0.0 && s.pointSize > 0.0 && reader.drawMode <= GL_PATCHES ==>
      ReadSettings(reader, Written(codes, s)) == s
    ensures reader.drawMode > GL_PATCHES ==> ReadSettings(reader, Written(codes, s)).drawMode == reader.drawMode
  {
    CastRoundTrip(s.drawMode);
    var r := ReadCodes(Written(codes, s));
    forall k | 0 <= k < 5
      ensures r[k] == codes[k]
    {
      assert TypeIndex(TypeAt(k)) == k;
    }
  }

  // ---------------------------------------------------------------------
  // TryGetUniformType and TryGetAttributeType
  // ---------------------------------------------------------------------

  /** The index of the first uniform called `name`. */
  function FirstUniform(us: seq<UniformDescription>, name: string): (r: Option<nat>)
    ensures r.Some? ==> r.value < |us| && us[r.value].name == name
    ensures r.Some? ==> forall j :: 0 <= j < r.value ==> us[j].name != name
    ensures r.None? ==> forall j :: 0 <= j < |us| ==> us[j].name != name
  {
    if us == [] then None
    else if us[0].name == name then Some(0)
    else match FirstUniform(us[1..], name)
      case None => None
      case Some(j) => Some(j + 1)
  }

  /** The index of the first attribute called `name`. */
  function FirstAttribute(attrs: seq<AttributeDescription>, name: string): (r: Option<nat>)
    ensures r.Some? ==> r.value < |attrs| && attrs[r.value].name == name
    ensures r.Some? ==> forall j :: 0 <= j < r.value ==> attrs[j].name != name
    ensures r.None? ==> forall j :: 0 <= j < |attrs| ==> attrs[j].name != name
  {
    if attrs == [] then None
    else if attrs[0].name == name then Some(0)
    else match FirstAttribute(attrs[1..], name)
      case None => None
      case Some(j) => Some(j + 1)
  }

  /** What one stage contributes to a lookup: its query threw, it has no
      entry of that name, or its first entry of that name. */
  function UniformHit(q: Outcome<seq<UniformDescription>>, name: string): Outcome<Option<UniformDescription>> {
    match q
    case Threw => Threw
    case Returned(us) =>
      match FirstUniform(us, name)
      case None => Returned(None)
      case Some(j) => Returned(Some(us[j]))
  }

  function AttributeHit(q: Outcome<seq<AttributeDescription>>, name: string): Outcome<Option<AttributeDescription>> {
    match q
    case Threw => Threw
    case Returned(attrs) =>
      match FirstAttribute(attrs, name)
      case None => Returned(None)
      case Some(j) => Returned(Some(attrs[j]))
  }

  /** A stage at which the scan across stages stops. */
  predicate Stops<R>(h: Outcome<Option<R>>) {
    h.Threw? || h.value.Some?
  }

  /** The first stage from `i` on at which the scan stops, or |hs|. */
  function FirstStop<R>(hs: seq<Outcome<Option<R>>>, i: nat): (s: nat)
    requires i <= |hs|
    ensures i <= s <= |hs|
    ensures forall k :: i <= k < s ==> !Stops(hs[k])
    ensures s < |hs| ==> Stops(hs[s])
    decreases |hs| - i
  {
    if i == |hs| || Stops(hs[i]) then i else FirstStop(hs, i + 1)
  }

  /** The scan across stages from stage `i`: the first stage that throws
      or has the entry decides; when none does, the entry is missing. */
  function Lookup<R>(hs: seq<Outcome<Option<R>>>, i: nat): Outcome<Option<R>>
    requires i <= |hs|
    decreases |hs| - i
  {
    if i == |hs| then Returned(None)
    else if Stops(hs[i]) then hs[i]
    else Lookup(hs, i + 1)
  }

  /** The lookup is decided by its first stop: an exception there
      propagates, an entry there is the answer, and with no stop at all the
      entry is missing. */
  lemma {:induction false} LookupAtFirstStop<R>(hs: seq<Outcome<Option<R>>>, i: nat)
    requires i <= |hs|
    ensures var s := FirstStop(hs, i);
      Lookup(hs, i) == if s == |hs| then Returned(None) else hs[s]
    decreases |hs| - i
  {
    if i < |hs| && !Stops(hs[i]) {
      LookupAtFirstStop(hs, i + 1);
    }
  }

  /** The answer of TryGetUniformType: whether it found the uniform and its
      data type ("" when not found). */
  datatype UniformType = UniformType(found: bool, dataType: string)

  /** The answer of TryGetAttributeType: also the location (-1 when not
      found). */
  datatype AttributeType = AttributeType(found: bool, dataType: string, location: int)

  function UniformHits(qs: seq<Outcome<seq<UniformDescription>>>, name: string): (hs: seq<Outcome<Option<UniformDescription>>>)
    ensures |hs| == |qs| && forall k :: 0 <= k < |qs| ==> hs[k] == UniformHit(qs[k], name)
  {
    seq(|qs|, k requires 0 <= k < |qs| => UniformHit(qs[k], name))
  }

  function AttributeHits(qs: seq<Outcome<seq<AttributeDescription>>>, name: string): (hs: seq<Outcome<Option<AttributeDescription>>>)
    ensures |hs| == |qs| && forall k :: 0 <= k < |qs| ==> hs[k] == AttributeHit(qs[k], name)
  {
    seq(|qs|, k requires 0 <= k < |qs| => AttributeHit(qs[k], name))
  }

  /** TryGetUniformType over the stages' uniform queries `qs`, in stage
      order. */
  function FindUniformType(qs: seq<Outcome<seq<UniformDescription>>>, name: string): Outcome<UniformType> {
    match Lookup(UniformHits(qs, name), 0)
    case Threw => Threw
    case Returned(None) => Returned(UniformType(false, ""))
    case Returned(Some(u)) => Returned(UniformType(true, u.dataType))
  }

  /** TryGetAttributeType over the stages' attribute queries `qs`. */
  function FindAttributeType(qs: seq<Outcome<seq<AttributeDescription>>>, name: string): Outcome<AttributeType> {
    match Lookup(AttributeHits(qs, name), 0)
    case Threw => Threw
    case Returned(None) => Returned(AttributeType(false, "", -1))
    case Returned(Some(a)) => Returned(AttributeType(true, a.dataType, a.location))
  }

  /** Every stage before `s` answered its query and has no uniform `name`. */
  predicate UniformMisses(qs: seq<Outcome<seq<UniformDescription>>>, name: string, s: nat)
    requires s <= |qs|
  {
    forall k :: 0 <= k < s ==> qs[k].Returned? && FirstUniform(qs[k].value, name).None?
  }

  predicate AttributeMisses(qs: seq<Outcome<seq<AttributeDescription>>>, name: string, s: nat)
    requires s <= |qs|
  {
    forall k :: 0 <= k < s ==> qs[k].Returned? && FirstAttribute(qs[k].value, name).None?
  }

  /** TryGetUniformType finds the first uniform of that name in the first
      stage that has one, provided every earlier stage answered; it reports
      false and "" exactly when every stage answered without one; and it
      throws exactly when a stage throws before one is found. */
  lemma UniformTypeMeaning(qs: seq<Outcome<seq<UniformDescription>>>, name: string)
    ensures var r := FindUniformType(qs, name);
      && (r.Returned? && !r.value.found ==> r.value.dataType == "")
      && (r == Returned(UniformType(false, "")) <==> UniformMisses(qs, name, |qs|))
      && (r.Returned? && r.value.found ==>
            exists s :: 0 <= s < |qs| && UniformMisses(qs, name, s) && qs[s].Returned?
              && FirstUniform(qs[s].value, name).Some?
              && r.value.dataType == qs[s].value[FirstUniform(qs[s].value, name).value].dataType)
      && (r == Threw <==> exists s :: 0 <= s < |qs| && UniformMisses(qs, name, s) && qs[s].Threw?)
  {
    var hs := UniformHits(qs, name);
    var f := FirstStop(hs, 0);
    LookupAtFirstStop(hs, 0);
    assert UniformMisses(qs, name, f);
  }

  /** The same for TryGetAttributeType, which also reports the location,
      -1 when not found. */
  lemma AttributeTypeMeaning(qs: seq<Outcome<seq<AttributeDescription>>>, name: string)
    ensures var r := FindAttributeType(qs, name);
      && (r.Returned? && !r.value.found ==> r.value.dataType == "" && r.value.location == -1)
      && (r == Returned(AttributeType(false, "", -1)) <==> AttributeMisses(qs, name, |qs|))
      && (r.Returned? && r.value.found ==>
            exists s :: 0 <= s < |qs| && AttributeMisses(qs, name, s) && qs[s].Returned?
              && FirstAttribute(qs[s].value, name).Some?
              && var a := qs[s].value[FirstAttribute(qs[s].value, name).value];
                 r.value.dataType == a.dataType && r.value.location == a.location)
      && (r == Threw <==> exists s :: 0 <= s < |qs| && AttributeMisses(qs, name, s) && qs[s].Threw?)
  {
    var hs := AttributeHits(qs, name);
    var f := FirstStop(hs, 0);
    LookupAtFirstStop(hs, 0);
    assert AttributeMisses(qs, name, f);
  }

  /** A lookup that returned is decided by the stages up to its first stop,
      all of which answered: a second scan over stages that give the same
      answers there returns the same. */
  lemma LookupAgrees<R>(hs: seq<Outcome<Option<R>>>, hs2: seq<Outcome<Option<R>>>)
    requires |hs2| == |hs|
    requires forall k :: 0 <= k < |hs| && k <= FirstStop(hs, 0) && hs[k].Returned? ==> hs2[k] == hs[k]
    ensures Lookup(hs, 0).Returned? ==> Lookup(hs2, 0) == Lookup(hs, 0)
  {
    LookupAtFirstStop(hs, 0);
    LookupAtFirstStop(hs2, 0);
  }

  /** Looking a uniform up again over stages whose answers agree with the
      first lookup's up to its first stop returns what the first lookup
      returned, once that one did not throw. */
  lemma UniformLookupRepeats(qs: seq<Outcome<seq<UniformDescription>>>, qs2: seq<Outcome<seq<UniformDescription>>>, name: string)
    requires |qs2| == |qs|
    requires forall k :: 0 <= k < |qs| && k <= FirstStop(UniformHits(qs, name), 0) && qs[k].Returned? ==> qs2[k] == qs[k]
    ensures FindUniformType(qs, name).Returned? ==> FindUniformType(qs2, name) == FindUniformType(qs, name)
  {
    LookupAgrees(UniformHits(qs, name), UniformHits(qs2, name));
  }

  /** The same for vertex attributes. */
  lemma AttributeLookupRepeats(qs: seq<Outcome<seq<AttributeDescription>>>, qs2: seq<Outcome<seq<AttributeDescription>>>, name: string)
    requires |qs2| == |qs|
    requires forall k :: 0 <= k < |qs| && k <= FirstStop(AttributeHits(qs, name), 0) && qs[k].Returned? ==> qs2[k] == qs[k]
    ensures FindAttributeType(qs, name).Returned? ==> FindAttributeType(qs2, name) == FindAttributeType(qs, name)
  {
    LookupAgrees(AttributeHits(qs, name), AttributeHits(qs2, name));
  }

  /** What GetUniforms returns on each stage, given each stage's uniform
      cache and code. */
  function UniformAnswers(cs: seq<Option<seq<UniformDescription>>>, codes: seq<string>): (qs: seq<Outcome<seq<UniformDescription>>>)
    requires |cs| == |codes|
    ensures |qs| == |cs| && forall k :: 0 <= k < |cs| ==> qs[k] == UniformsAnswer(cs[k], codes[k])
  {
    seq(|cs|, k requires 0 <= k < |cs| => UniformsAnswer(cs[k], codes[k]))
  }

  /** What GetVertexAttributes returns on each stage. */
  function AttributeAnswers(cs: seq<Option<seq<AttributeDescription>>>, codes: seq<string>): (qs: seq<Outcome<seq<AttributeDescription>>>)
    requires |cs| == |codes|
    ensures |qs| == |cs| && forall k :: 0 <= k < |cs| ==> qs[k] == AttributesAnswer(cs[k], codes[k])
  {
    seq(|cs|, k requires 0 <= k < |cs| => AttributesAnswer(cs[k], codes[k]))
  }

  /** What scanning each stage's code leaves in its uniform cache. */
  function ParsedUniforms(codes: seq<string>): (us: seq<seq<UniformDescription>>)
    ensures |us| == |codes| && forall k :: 0 <= k < |codes| ==> us[k] == ParseCode(codes[k]).uniforms
  {
    seq(|codes|, k requires 0 <= k < |codes| => ParseCode(codes[k]).uniforms)
  }

  /** What scanning each stage's code leaves in its attribute cache. */
  function ParsedAttributes(codes: seq<string>): (attrs: seq<seq<AttributeDescription>>)
    ensures |attrs| == |codes| && forall k :: 0 <= k < |codes| ==> attrs[k] == ParseCode(codes[k]).attributes
  {
    seq(|codes|, k requires 0 <= k < |codes| => ParseCode(codes[k]).attributes)
  }

  /** The caches `cs` after the first `n` stages have scanned, leaving
      `scanned` in theirs; the later stages keep theirs. */
  function Refilled<T>(cs: seq<Option<T>>, scanned: seq<T>, n: nat): (r: seq<Option<T>>)
    requires |scanned| == |cs|
    ensures |r| == |cs|
    ensures forall k :: 0 <= k < |cs| ==> r[k] == if k < n then Some(scanned[k]) else cs[k]
  {
    seq(|cs|, k requires 0 <= k < |cs| => if k < n then Some(scanned[k]) else cs[k])
  }

  /** A sequence that agrees with `b` everywhere but at `i`, where it holds
      `x`, is `b` updated at `i`. */
  lemma UpdatedAt<T>(a: seq<T>, b: seq<T>, i: nat, x: T)
    requires |a| == |b| && i < |b| && a[i] == x
    requires forall k :: 0 <= k < |b| && k != i ==> a[k] == b[k]
    ensures a == b[i := x]
  {
  }

  /** Stage `i` scanning after the first `i` have. */
  lemma RefilledNext<T>(cs: seq<Option<T>>, scanned: seq<T>, i: nat)
    requires |scanned| == |cs| && i < |cs|
    ensures Refilled(cs, scanned, i)[i := Some(scanned[i])] == Refilled(cs, scanned, i + 1)
  {
  }

  /** The inner loop of TryGetUniformType: the first uniform of that name. */
  method IndexOfUniform(us: seq<UniformDescription>, name: string) returns (r: Option<nat>)
    ensures r == FirstUniform(us, name)
  {
    var i := 0;
    while i < |us|
      invariant 0 <= i <= |us|
      invariant forall j :: 0 <= j < i ==> us[j].name != name
    {
      if us[i].name == name {
        return Some(i);
      }
      i := i + 1;
    }
    return None;
  }

  /** The inner loop of TryGetAttributeType. */
  method IndexOfAttribute(attrs: seq<AttributeDescription>, name: string) returns (r: Option<nat>)
    ensures r == FirstAttribute(attrs, name)
  {
    var i := 0;
    while i < |attrs|
      invariant 0 <= i <= |attrs|
      invariant forall j :: 0 <= j < i ==> attrs[j].name != name
    {
      if attrs[i].name == name {
        return Some(i);
      }
      i := i + 1;
    }
    return None;
  }

  // ---------------------------------------------------------------------
  // Samplers, ClearData and the element count
  // ---------------------------------------------------------------------

  /** The index of the first cached sampler whose path equals `path`,
      ignoring case. */
  function FirstPath(cache: seq<Sampler>, path: string): (r: Option<nat>)
    ensures r.Some? ==> r.value < |cache| && EqualsIgnoreCase(cache[r.value].path, path)
    ensures r.Some? ==> forall j :: 0 <= j < r.value ==> !EqualsIgnoreCase(cache[j].path, path)
    ensures r.None? ==> forall j :: 0 <= j < |cache| ==> !EqualsIgnoreCase(cache[j].path, path)
  {
    if cache == [] then None
    else if EqualsIgnoreCase(cache[0].path, path) then Some(0)
    else match FirstPath(cache[1..], path)
      case None => None
      case Some(j) => Some(j + 1)
  }

  /** The search loop of AddSampler2DUniform: the first cached sampler
      whose path matches, ignoring case. */
  method IndexOfPath(cache: seq<Sampler>, path: string) returns (r: Option<nat>)
    ensures r == FirstPath(cache, path)
  {
    var i := 0;
    while i < |cache|
      invariant 0 <= i <= |cache|
      invariant forall j :: 0 <= j < i ==> !EqualsIgnoreCase(cache[j].path, path)
    {
      if EqualsIgnoreCase(cache[i].path, path) {
        return Some(i);
      }
      i := i + 1;
    }
    return None;
  }

  /** `s` without its element at `i`, as List.RemoveAt leaves it. */
  function RemoveAt<T>(s: seq<T>, i: nat): (r: seq<T>)
    requires i < |s|
    ensures |r| == |s| - 1
    ensures forall j :: 0 <= j < i ==> r[j] == s[j]
    ensures forall j :: i <= j < |r| ==> r[j] == s[j + 1]
    ensures multiset(r) + multiset{s[i]} == multiset(s)
  {
    assert s == s[..i] + [s[i]] + s[i + 1..];
    s[..i] + s[i + 1..]
  }

  /** What the TextureId setter of a new sampler hands to the recycle bin
      when it is given `value`: its old name 0, if the value differs. */
  function TextureRetired(previous: uint32, value: uint32): (q: seq<GLObject>)
    ensures q == [] <==> previous == value
  {
    if previous != value then [TextureObject(previous)] else []
  }

  /** The texture names of `samplers`, in order. */
  function Textures(samplers: seq<Sampler>): (q: seq<GLObject>)
    ensures |q| == |samplers| && forall k :: 0 <= k < |q| ==> q[k] == TextureObject(samplers[k].textureId)
  {
    seq(|samplers|, k requires 0 <= k < |samplers| => TextureObject(samplers[k].textureId))
  }

  /** The buffer names of `attrs`, in order. */
  function Buffers<T>(attrs: seq<VertexAttribute<T>>): (q: seq<GLObject>)
    ensures |q| == |attrs| && forall k :: 0 <= k < |q| ==> q[k] == BufferObject(attrs[k].vboHandle)
  {
    seq(|attrs|, k requires 0 <= k < |attrs| => BufferObject(attrs[k].vboHandle))
  }

  /** How many of `n` cached samplers ClearData keeps. */
  function Kept(n: nat): (k: nat)
    ensures k <= n && k <= SamplerCacheCapacity
    ensures k == n || k == SamplerCacheCapacity
  {
    if n <= SamplerCacheCapacity then n else SamplerCacheCapacity
  }

  /** The samplers ClearData keeps: the newest ones, at most the capacity. */
  function Newest(cache: seq<Sampler>): (r: seq<Sampler>)
    ensures |r| <= SamplerCacheCapacity
    ensures |cache| <= SamplerCacheCapacity ==> r == cache
    ensures Evicted(cache) + r == cache
  {
    cache[|cache| - Kept(|cache|)..]
  }

  /** The samplers ClearData evicts, oldest first. */
  function Evicted(cache: seq<Sampler>): (r: seq<Sampler>)
    ensures |cache| <= SamplerCacheCapacity ==> r == []
    ensures |cache| > SamplerCacheCapacity ==> |r| == |cache| - SamplerCacheCapacity
  {
    cache[..|cache| - Kept(|cache|)]
  }

  /** The eviction loop of ClearData: the oldest samplers leave the cache,
      their textures going to the recycle bin, until it is within capacity. */
  method EvictOldest(bin: RecycleBin, cache: seq<Sampler>) returns (kept: seq<Sampler>)
    modifies bin
    ensures kept == Newest(cache)
    ensures bin.queued == old(bin.queued) + Textures(Evicted(cache)) && bin.released == old(bin.released)
  {
    kept := cache;
    while |kept| > SamplerCacheCapacity
      invariant |kept| >= Kept(|cache|)
      invariant kept == cache[|cache| - |kept|..]
      invariant bin.queued == old(bin.queued) + Textures(cache[..|cache| - |kept|]) && bin.released == old(bin.released)
      decreases |kept|
    {
      ghost var n := |cache| - |kept|;
      assert cache[..n + 1] == cache[..n] + [kept[0]];
      bin.Add(TextureObject(kept[0].textureId));
      kept := kept[1..];
    }
  }

  /** One of the four loops of ClearData: every attribute's buffer goes to
      the recycle bin, in order. */
  method QueueBuffers<T>(bin: RecycleBin, attrs: seq<VertexAttribute<T>>)
    modifies bin
    ensures bin.queued == old(bin.queued) + Buffers(attrs) && bin.released == old(bin.released)
  {
    for i := 0 to |attrs|
      invariant bin.queued == old(bin.queued) + Buffers(attrs)[..i] && bin.released == old(bin.released)
    {
      assert Buffers(attrs)[..i + 1] == Buffers(attrs)[..i] + [BufferObject(attrs[i].vboHandle)];
      bin.Add(BufferObject(attrs[i].vboHandle));
    }
    assert Buffers(attrs)[..|attrs|] == Buffers(attrs);
  }

  /** The four attribute loops of ClearData, in their order. */
  method QueueAttributeBuffers(bin: RecycleBin, ints: seq<VertexAttribute<int32>>, floats: seq<VertexAttribute<real>>,
                               vec3s: seq<VertexAttribute<Vec3>>, vec4s: seq<VertexAttribute<Vec4>>)
    modifies bin
    ensures bin.queued == old(bin.queued) + Buffers(ints) + Buffers(floats) + Buffers(vec3s) + Buffers(vec4s)
    ensures bin.released == old(bin.released)
  {
    QueueBuffers(bin, ints);
    QueueBuffers(bin, floats);
    QueueBuffers(bin, vec3s);
    QueueBuffers(bin, vec4s);
  }

  /** The element-count rule of SetupGLAttributes for one more attribute of
      `n` items: the first non-empty attribute sets the count, and after
      that only an attribute of more than one item can lower it. */
  function CountStep(count: nat, n: nat): nat {
    var c := if count == 0 then n else count;
    if c > n && n > 1 then n else c
  }

  /** The count after attributes of lengths `lens`, in order. */
  function CountAfter(count: nat, lens: seq<nat>): nat {
    if lens == [] then count else CountStep(CountAfter(count, lens[..|lens| - 1]), lens[|lens| - 1])
  }

  /** The item counts of `attrs`, in order. */
  function Lengths<T>(attrs: seq<VertexAttribute<T>>): (lens: seq<nat>)
    ensures |lens| == |attrs| && forall k :: 0 <= k < |lens| ==> lens[k] == |attrs[k].items|
  {
    seq(|attrs|, k requires 0 <= k < |attrs| => |attrs[k].items|)
  }

  /** Counting two runs of attributes one after the other. */
  lemma {:induction false} CountAfterAppend(count: nat, a: seq<nat>, b: seq<nat>)
    ensures CountAfter(count, a + b) == CountAfter(CountAfter(count, a), b)
  {
    if b == [] {
      assert a + b == a;
    } else {
      assert (a + b)[..|a + b| - 1] == a + b[..|b| - 1];
      assert (a + b)[|a + b| - 1] == b[|b| - 1];
      CountAfterAppend(count, a, b[..|b| - 1]);
    }
  }

  /** The count is 0 exactly when every attribute is empty. */
  lemma {:induction false} CountZero(lens: seq<nat>)
    ensures CountAfter(0, lens) == 0 <==> forall k :: 0 <= k < |lens| ==> lens[k] == 0
  {
    if lens != [] {
      CountZero(lens[..|lens| - 1]);
    }
  }

  /** With `f` the first non-empty attribute, the count is the least of its
      length and the lengths above 1 of the attributes after it. */
  lemma {:induction false} CountMeaning(lens: seq<nat>, f: nat)
    requires f < |lens| && lens[f] != 0 && forall k :: 0 <= k < f ==> lens[k] == 0
    ensures var r := CountAfter(0, lens);
      && r <= lens[f]
      && (forall k :: f < k < |lens| && lens[k] > 1 ==> r <= lens[k])
      && (r == lens[f] || exists k :: f < k < |lens| && lens[k] > 1 && r == lens[k])
  {
    var init := lens[..|lens| - 1];
    if f == |lens| - 1 {
      CountZero(init);
    } else {
      CountMeaning(init, f);
    }
  }

  /** One of the four loops of SetupGLAttributes, as far as the count goes. */
  method CountItems<T>(count: nat, attrs: seq<VertexAttribute<T>>) returns (r: nat)
    ensures r == CountAfter(count, Lengths(attrs))
  {
    r := count;
    for i := 0 to |attrs|
      invariant r == CountAfter(count, Lengths(attrs)[..i])
    {
      assert Lengths(attrs)[..i + 1][..i] == Lengths(attrs)[..i];
      var n := |attrs[i].items|;
      if r == 0 {
        r := n;
      }
      if r > n && n > 1 {
        r := n;
      }
    }
    assert Lengths(attrs)[..|attrs|] == Lengths(attrs);
  }

  /** The view model: the program built from the stages, and what is set
      on it for drawing. */
  class GLSLViewModel {
    /** The five stages, indexed by their ShaderType value. */
    const stages: seq<Shader>
    /** The process-wide recycle bin. */
    const bin: RecycleBin
    var compileFailed: bool
    var programId: uint32
    var lineWidth: real
    var pointSize: real
    var drawMode: uint32
    var intUniforms: seq<Uniform<int32>>
    var floatUniforms: seq<Uniform<real>>
    var vec3Uniforms: seq<Uniform<Vec3>>
    var vec4Uniforms: seq<Uniform<Vec4>>
    var sampler2DUniforms: seq<Sampler>
    var intAttribs: seq<VertexAttribute<int32>>
    var floatAttribs: seq<VertexAttribute<real>>
    var vec3Attribs: seq<VertexAttribute<Vec3>>
    var vec4Attribs: seq<VertexAttribute<Vec4>>
    var samplerCache: seq<Sampler>

    /** Five distinct stages of the five types in type order, sharing the
        bin; the line width and point size stay positive and the sampler
        cache within its capacity. */
    ghost predicate Valid()
      reads this, stages
    {
      && Wired() && StagesValid()
      && lineWidth > 0.0 && pointSize > 0.0
      && |samplerCache| <= SamplerCacheCapacity
    }

    /** Every stage keeps its own invariant. */
    ghost predicate StagesValid()
      requires |stages| == 5
      reads stages
    {
      forall i :: 0 <= i < 5 ==> stages[i].Valid()
    }

    /** The part of Valid that no assignment can change. */
    ghost predicate Wired() {
      && |stages| == 5
      && (forall i :: 0 <= i < 5 ==> stages[i].shaderType == TypeAt(i) && stages[i].bin == bin)
      && (forall i, j :: 0 <= i < j < 5 ==> stages[i] != stages[j])
    }

    /** The code of each stage, in stage order. */
    ghost function Codes(): (codes: seq<string>)
      requires |stages| == 5
      reads stages
      ensures |codes| == 5 && forall k :: 0 <= k < 5 ==> codes[k] == stages[k].code
    {
      [stages[0].code, stages[1].code, stages[2].code, stages[3].code, stages[4].code]
    }

    /** The GL name of each stage, in stage order. */
    ghost function Ids(): (ids: seq<uint32>)
      requires |stages| == 5
      reads stages
      ensures |ids| == 5 && forall k :: 0 <= k < 5 ==> ids[k] == stages[k].shaderId
    {
      [stages[0].shaderId, stages[1].shaderId, stages[2].shaderId, stages[3].shaderId, stages[4].shaderId]
    }

    ghost function CurrentSettings(): Settings
      reads this
    {
      Settings(lineWidth, pointSize, drawMode)
    }

    ghost function Inputs(): DrawInputs
      reads this
    {
      DrawInputs(intUniforms, floatUniforms, vec3Uniforms, vec4Uniforms, sampler2DUniforms,
                 intAttribs, floatAttribs, vec3Attribs, vec4Attribs, samplerCache)
    }

    ghost function ProgramState(): Program
      reads this, bin
    {
      Program(programId, compileFailed, bin.queued)
    }

    /** A new view model: five empty stages, no program, the default
        settings, nothing set for drawing. */
    constructor (bin: RecycleBin)
      ensures Valid() && this.bin == bin
      ensures forall i :: 0 <= i < |stages| ==> fresh(stages[i])
      ensures Codes() == ["", "", "", "", ""] && Ids() == [0, 0, 0, 0, 0]
      ensures programId == 0 && !compileFailed
      ensures CurrentSettings() == Settings(DefaultLineWidth, DefaultPointSize, GL_POINTS)
      ensures Inputs() == DrawInputs([], [], [], [], [], [], [], [], [], [])
    {
      var vertex := new Shader(TypeAt(0), bin);
      var geometry := new Shader(TypeAt(1), bin);
      var fragment := new Shader(TypeAt(2), bin);
      var control := new Shader(TypeAt(3), bin);
      var evaluation := new Shader(TypeAt(4), bin);
      stages := [vertex, geometry, fragment, control, evaluation];
      this.bin := bin;
      compileFailed := false;
      programId := 0;
      lineWidth := DefaultLineWidth;
      pointSize := DefaultPointSize;
      drawMode := GL_POINTS;
      intUniforms, floatUniforms, vec3Uniforms, vec4Uniforms := [], [], [], [];
      sampler2DUniforms := [];
      intAttribs, floatAttribs, vec3Attribs, vec4Attribs := [], [], [], [];
      samplerCache := [];
    }

    /** The ProgramId setter: a different name sends the old one to the
        recycle bin. */
    method SetProgramId(value: uint32)
      requires Valid()
      modifies this, bin
      ensures Valid() && programId == value && compileFailed == old(compileFailed)
      ensures Codes() == old(Codes()) && Ids() == old(Ids())
      ensures bin.queued == old(bin.queued) + Retired(old(programId), value) && bin.released == old(bin.released)
      ensures CurrentSettings() == old(CurrentSettings()) && Inputs() == old(Inputs())
    {
      if programId != value {
        bin.Add(ProgramObject(programId));
        programId := value;
      }
    }

    /** OnPropertyChanged: a change of any stage's code drops the program
        and the cached compile failure; other names change nothing here. */
    method OnPropertyChanged(memberName: Member)
      requires Valid()
      modifies this, bin
      ensures Valid() && CurrentSettings() == old(CurrentSettings()) && Inputs() == old(Inputs())
      ensures Codes() == old(Codes()) && Ids() == old(Ids())
      ensures IsCodeMember(memberName) ==>
        programId == 0 && !compileFailed && bin.queued == old(bin.queued) + Retired(old(programId), 0)
      ensures !IsCodeMember(memberName) ==>
        programId == old(programId) && compileFailed == old(compileFailed) && bin.queued == old(bin.queued)
      ensures bin.released == old(bin.released)
    {
      if IsCodeMember(memberName) {
        SetProgramId(0);
        compileFailed := false;
      }
    }

    /** The Code setter of stage `i`, seen from the view model: only that
        stage's code changes, a changed code clears that stage's caches,
        and every other stage keeps its caches. The caches also keep
        following any snapshot `(us, attrs, codes, ids)` they followed in
        which stage `i` had its present code and name, which is how the
        callers chain several steps. */
    method SetStageCode(i: nat, v: string, ghost us: seq<Option<seq<UniformDescription>>>,
                        ghost attrs: seq<Option<seq<AttributeDescription>>>, ghost codes: seq<string>, ghost ids: seq<uint32>)
      requires Valid() && i < 5
      modifies stages[i]
      ensures Valid() && Codes() == old(Codes())[i := v] && Ids() == old(Ids())
      ensures CachesFollow(old(UniformCaches()), old(AttributeCaches()), old(Codes()), old(Ids()))
      ensures old(CachesFollow(us, attrs, codes, ids) && Codes()[i] == codes[i] && Ids()[i] == ids[i]) ==>
        CachesFollow(us, attrs, codes, ids)
      ensures CurrentSettings() == old(CurrentSettings()) && Inputs() == old(Inputs())
      ensures programId == old(programId) && compileFailed == old(compileFailed)
    {
      // the snapshot's entries for stage `i`, when it has five entries
      ghost var ready := |us| == 5 && |attrs| == 5 && |codes| == 5 && |ids| == 5;
      stages[i].SetCode(v, if ready then us[i] else None, if ready then attrs[i] else None,
                        if ready then codes[i] else "", if ready then ids[i] else 0);
    }

    /** SetCode, behind the five code properties: an ordinally different
        string is stored in the stage, clears its caches and drops the
        program; an equal one changes nothing. The snapshot parameters are
        those of SetStageCode. */
    method SetCode(t: ShaderType, v: string, ghost us: seq<Option<seq<UniformDescription>>>,
                   ghost attrs: seq<Option<seq<AttributeDescription>>>, ghost codes: seq<string>, ghost ids: seq<uint32>)
      requires Valid()
      modifies this, stages[TypeIndex(t)], bin
      ensures Valid() && CurrentSettings() == old(CurrentSettings()) && Inputs() == old(Inputs())
      ensures Codes() == old(Codes())[TypeIndex(t) := v] && Ids() == old(Ids())
      ensures CachesFollow(old(UniformCaches()), old(AttributeCaches()), old(Codes()), old(Ids()))
      ensures old(CachesFollow(us, attrs, codes, ids) && Codes()[TypeIndex(t)] == codes[TypeIndex(t)] && Ids()[TypeIndex(t)] == ids[TypeIndex(t)]) ==>
        CachesFollow(us, attrs, codes, ids)
      ensures ProgramState() == Edit(old(ProgramState()), old(Codes())[TypeIndex(t)] != v)
      ensures bin.released == old(bin.released)
    {
      var i := TypeIndex(t);
      if stages[i].code != v {
        SetStageCode(i, v, us, attrs, codes, ids);
        label edited:
        OnPropertyChanged(CodeMember(t));
        assert unchanged@edited(stages);
      } else {
        assert Codes()[i := v] == Codes();
      }
    }

    /** The glLineWidth setter. */
    method SetLineWidth(value: real)
      requires Valid()
      modifies this
      ensures Valid() && lineWidth == PositiveUpdate(old(lineWidth), value)
      ensures pointSize == old(pointSize) && drawMode == old(drawMode) && Inputs() == old(Inputs())
      ensures programId == old(programId) && compileFailed == old(compileFailed)
    {
      if lineWidth != value && value > 0.0 {
        lineWidth := value;
      }
    }

    /** The glPointSize setter. */
    method SetPointSize(value: real)
      requires Valid()
      modifies this
      ensures Valid() && pointSize == PositiveUpdate(old(pointSize), value)
      ensures lineWidth == old(lineWidth) && drawMode == old(drawMode) && Inputs() == old(Inputs())
      ensures programId == old(programId) && compileFailed == old(compileFailed)
    {
      if pointSize != value && value > 0.0 {
        pointSize := value;
      }
    }

    /** The DrawMode setter. */
    method SetDrawMode(value: uint32)
      requires Valid()
      modifies this
      ensures Valid() && drawMode == DrawModeUpdate(old(drawMode), value)
      ensures lineWidth == old(lineWidth) && pointSize == old(pointSize) && Inputs() == old(Inputs())
      ensures programId == old(programId) && compileFailed == old(compileFailed)
    {
      if drawMode != value && drawMode <= GL_PATCHES {
        drawMode := value;
      }
    }

    /** One round of the stage loop: stage `i` is compiled; only its GL
        name can change. The caches keep following any snapshot
        `(us, attrs, codes, ids)` they followed in which stage `i` had its
        present code and name: given the present state as the snapshot,
        stage `i` keeps its caches exactly when its name is unchanged, and
        every other stage keeps its own. */
    method CompileAt(i: nat, errors: seq<string>, gl: ShaderCompilation, ghost us: seq<Option<seq<UniformDescription>>>,
                     ghost attrs: seq<Option<seq<AttributeDescription>>>, ghost codes: seq<string>, ghost ids: seq<uint32>)
      returns (ok: bool, errorsOut: seq<string>)
      requires Valid() && i < 5
      modifies stages[i], bin
      ensures Valid() && Codes() == old(Codes())
      ensures old(CachesFollow(us, attrs, codes, ids) && Codes()[i] == codes[i] && Ids()[i] == ids[i]) ==>
        CachesFollow(us, attrs, codes, ids)
      ensures var c := Compiled(TypeAt(i), old(Codes())[i], old(Ids())[i], gl);
        && ok == c.ok && Ids() == old(Ids())[i := c.id] && errorsOut == errors + c.errors
        && bin.queued == old(bin.queued) + c.queued && bin.released == old(bin.released)
    {
      // the snapshot's entries for stage `i`, when it has five entries
      ghost var ready := |us| == 5 && |attrs| == 5 && |codes| == 5 && |ids| == 5;
      ghost var idsBefore := Ids();
      ok, errorsOut := stages[i].Compile(errors, gl, if ready then us[i] else None, if ready then attrs[i] else None,
                                         if ready then codes[i] else "", if ready then ids[i] else 0);
      assert forall k :: 0 <= k < 5 && k != i ==> unchanged(stages[k]);
      UpdatedAt(Ids(), idsBefore, i, stages[i].shaderId);
    }

    /** The stage loop of CompileProgram: every stage is compiled, even
        after one has failed, and the results are and-ed. */
    method CompileStages(errors: seq<string>, gl: seq<ShaderCompilation>) returns (success: bool, errorsOut: seq<string>)
      requires Valid() && |gl| == 5
      modifies stages, bin
      ensures Valid() && Codes() == old(Codes())
      ensures CachesFollow(old(UniformCaches()), old(AttributeCaches()), old(Codes()), old(Ids()))
      ensures CurrentSettings() == old(CurrentSettings()) && Inputs() == old(Inputs())
      ensures programId == old(programId) && compileFailed == old(compileFailed)
      ensures && success == AllCompiled(old(Codes()), old(Ids()), gl, 5)
              && Ids() == IdsAfter(old(Codes()), old(Ids()), gl, 5)
              && errorsOut == errors + StageErrors(old(Codes()), old(Ids()), gl, 5)
              && bin.queued == old(bin.queued) + StageQueued(old(Codes()), old(Ids()), gl, 5)
              && bin.released == old(bin.released)
    {
      ghost var codes := Codes();
      ghost var ids := Ids();
      ghost var us0 := UniformCaches();
      ghost var as0 := AttributeCaches();
      success := true;
      errorsOut := errors;
      var i := 0;
      while i < 5
        invariant 0 <= i <= 5 && Valid() && Codes() == codes
        invariant Ids() == IdsAfter(codes, ids, gl, i)
        invariant CachesFollow(us0, as0, codes, ids)
        invariant success == AllCompiled(codes, ids, gl, i)
        invariant errorsOut == errors + StageErrors(codes, ids, gl, i)
        invariant bin.queued == old(bin.queued) + StageQueued(codes, ids, gl, i) && bin.released == old(bin.released)
      {
        ghost var c := StageResult(codes, ids, gl, i);
        var stageOk;
        stageOk, errorsOut := CompileAt(i, errorsOut, gl[i], us0, as0, codes, ids);
        success := stageOk && success;
        AppendAssociative(errors, StageErrors(codes, ids, gl, i), c.errors);
        AppendAssociative(old(bin.queued), StageQueued(codes, ids, gl, i), c.queued);
        i := i + 1;
      }
    }

    /** The check in CompileProgram that vertex and fragment code exist:
        each missing one is reported and fails the build. */
    method RequireVertexAndFragment(success: bool, errors: seq<string>) returns (successOut: bool, errorsOut: seq<string>)
      requires Valid()
      ensures var vertex := stages[TypeIndex(Vertex)].code;
        var fragment := stages[TypeIndex(Fragment)].code;
        && (successOut <==> success && !IsBlank(vertex) && !IsBlank(fragment))
        && errorsOut == errors + RequiredErrors(vertex, fragment)
    {
      successOut, errorsOut := success, errors;
      if IsBlank(stages[TypeIndex(Vertex)].code) {
        errorsOut := errorsOut + [VertexRequired];
        successOut := false;
      }
      if IsBlank(stages[TypeIndex(Fragment)].code) {
        errorsOut := errorsOut + [FragmentRequired];
        successOut := false;
      }
    }

    /** The linking step of CompileProgram, from program name 0: with all
        stages compiled, the driver's new program is stored, and a link
        error drops it again and reports its message. The cached failure is
        then exactly "no program". */
    method LinkProgram(success: bool, gl: ProgramBuild, errors: seq<string>) returns (errorsOut: seq<string>)
      requires Valid() && programId == 0
      modifies this, bin
      ensures Valid() && unchanged(stages) && Codes() == old(Codes()) && Ids() == old(Ids())
      ensures CurrentSettings() == old(CurrentSettings()) && Inputs() == old(Inputs())
      ensures var link := Link(success, gl);
        && programId == link.programId && compileFailed == (link.programId == 0) && errorsOut == errors + link.errors
        && bin.queued == old(bin.queued) + link.queued && bin.released == old(bin.released)
    {
      errorsOut := errors;
      if success {
        SetProgramId(gl.program);
        // attaching the stages and glLinkProgram are driver calls
        if gl.linkError.LinkFailed? {
          // so is glDeleteProgram
          SetProgramId(0);
          errorsOut := errorsOut + [gl.linkError.message];
        }
      }
      compileFailed := programId == 0;
    }

    /** The stage loop of CompileProgram followed by its check that vertex
        and fragment code exist: the stage errors come first, then the
        messages about missing code. */
    method CompileChecked(errors: seq<string>, gl: seq<ShaderCompilation>) returns (success: bool, errorsOut: seq<string>)
      requires Valid() && |gl| == 5
      modifies stages, bin
      ensures Valid() && Codes() == old(Codes())
      ensures CachesFollow(old(UniformCaches()), old(AttributeCaches()), old(Codes()), old(Ids()))
      ensures CurrentSettings() == old(CurrentSettings()) && Inputs() == old(Inputs())
      ensures programId == old(programId) && compileFailed == old(compileFailed)
      ensures var vertex := old(Codes())[TypeIndex(Vertex)];
        var fragment := old(Codes())[TypeIndex(Fragment)];
        && (success <==> AllCompiled(old(Codes()), old(Ids()), gl, 5) && !IsBlank(vertex) && !IsBlank(fragment))
        && Ids() == IdsAfter(old(Codes()), old(Ids()), gl, 5)
        && errorsOut == errors + (StageErrors(old(Codes()), old(Ids()), gl, 5) + RequiredErrors(vertex, fragment))
        && bin.queued == old(bin.queued) + StageQueued(old(Codes()), old(Ids()), gl, 5)
        && bin.released == old(bin.released)
    {
      ghost var codes := Codes();
      ghost var ids := Ids();
      success, errorsOut := CompileStages(errors, gl);
      ghost var stageErrors := StageErrors(codes, ids, gl, 5);
      ghost var vertex := codes[TypeIndex(Vertex)];
      ghost var fragment := codes[TypeIndex(Fragment)];
      assert stages[TypeIndex(Vertex)].code == vertex && stages[TypeIndex(Fragment)].code == fragment;
      success, errorsOut := RequireVertexAndFragment(success, errorsOut);
      AppendAssociative(errors, stageErrors, RequiredErrors(vertex, fragment));
    }

    /** CompileProgram once the bin has been emptied: all five stages are
        compiled, and a program is created and linked when all compiled and
        vertex and fragment code are present. */
    method BuildProgram(errors: seq<string>, gl: ProgramBuild) returns (errorsOut: seq<string>)
      requires Valid() && |gl.stages| == 5 && programId == 0
      modifies this, stages, bin
      ensures Valid() && Codes() == old(Codes())
      ensures CachesFollow(old(UniformCaches()), old(AttributeCaches()), old(Codes()), old(Ids()))
      ensures CurrentSettings() == old(CurrentSettings()) && Inputs() == old(Inputs())
      ensures var b := Built(old(Codes()), old(Ids()), gl);
        && programId == b.programId && compileFailed == (b.programId == 0)
        && Ids() == IdsAfter(old(Codes()), old(Ids()), gl.stages, 5)
        && errorsOut == errors + b.errors
        && bin.queued == old(bin.queued) + b.queued && bin.released == old(bin.released)
    {
      ghost var codes := Codes();
      ghost var ids := Ids();
      ghost var stageErrors := StageErrors(codes, ids, gl.stages, 5);
      ghost var required := RequiredErrors(codes[TypeIndex(Vertex)], codes[TypeIndex(Fragment)]);
      var compileSuccess;
      compileSuccess, errorsOut := CompileChecked(errors, gl.stages);
      ghost var link := Link(compileSuccess, gl);
      errorsOut := LinkProgram(compileSuccess, gl, errorsOut);
      AppendAssociative(errors, stageErrors + required, link.errors);
      AppendAssociative(old(bin.queued), StageQueued(codes, ids, gl.stages, 5), link.queued);
    }

    /** CompileProgram: an existing program is reported at once, and so is a
        build that failed since the code last changed; otherwise the bin is
        emptied and the program is built. Either way the result says whether
        a program exists. */
    method CompileProgram(errors: seq<string>, gl: ProgramBuild) returns (ok: bool, errorsOut: seq<string>)
      requires Valid() && |gl.stages| == 5
      modifies this, stages, bin
      ensures Valid() && Codes() == old(Codes())
      ensures CurrentSettings() == old(CurrentSettings()) && Inputs() == old(Inputs())
      ensures ok <==> programId != 0
      ensures old(programId) != 0 ==>
        && ok && programId == old(programId) && compileFailed == old(compileFailed)
        && errorsOut == errors && Ids() == old(Ids()) && bin.queued == old(bin.queued) && bin.released == old(bin.released)
        && UniformCaches() == old(UniformCaches()) && AttributeCaches() == old(AttributeCaches())
      ensures old(programId) == 0 && old(compileFailed) ==>
        && !ok && compileFailed
        && errorsOut == errors && Ids() == old(Ids()) && bin.queued == old(bin.queued) && bin.released == old(bin.released)
        && UniformCaches() == old(UniformCaches()) && AttributeCaches() == old(AttributeCaches())
      ensures CachesFollow(old(UniformCaches()), old(AttributeCaches()), old(Codes()), old(Ids()))
      ensures old(programId) == 0 && !old(compileFailed) ==>
        var b := Built(old(Codes()), old(Ids()), gl);
        && programId == b.programId && compileFailed == (b.programId == 0)
        && Ids() == IdsAfter(old(Codes()), old(Ids()), gl.stages, 5)
        && errorsOut == errors + b.errors
        && bin.released == |old(bin.queued)| && bin.queued == old(bin.queued) + b.queued
    {
      if programId != 0 {
        return true, errors;
      }
      if compileFailed {
        return false, errors;
      }
      bin.Recycle();
      assert unchanged(stages);
      errorsOut := BuildProgram(errors, gl);
      ok := programId != 0;
    }

    /** What each stage's GetUniforms returns in this state, in stage order. */
    ghost function UniformQueries(): (qs: seq<Outcome<seq<UniformDescription>>>)
      requires |stages| == 5
      reads stages
      ensures |qs| == 5 && forall k :: 0 <= k < 5 ==> qs[k] == stages[k].UniformsQuery()
    {
      UniformAnswers(UniformCaches(), Codes())
    }

    /** What each stage's GetVertexAttributes returns in this state. */
    ghost function AttributeQueries(): (qs: seq<Outcome<seq<AttributeDescription>>>)
      requires |stages| == 5
      reads stages
      ensures |qs| == 5 && forall k :: 0 <= k < 5 ==> qs[k] == stages[k].AttributesQuery()
    {
      AttributeAnswers(AttributeCaches(), Codes())
    }

    /** Each stage's uniform cache, in stage order. */
    ghost function UniformCaches(): (cs: seq<Option<seq<UniformDescription>>>)
      requires |stages| == 5
      reads stages
      ensures |cs| == 5 && forall k :: 0 <= k < 5 ==> cs[k] == stages[k].uniforms
    {
      seq(5, k requires 0 <= k < 5 reads stages => stages[k].uniforms)
    }

    /** Each stage's vertex-attribute cache, in stage order. */
    ghost function AttributeCaches(): (cs: seq<Option<seq<AttributeDescription>>>)
      requires |stages| == 5
      reads stages
      ensures |cs| == 5 && forall k :: 0 <= k < 5 ==> cs[k] == stages[k].vertexAttributes
    {
      seq(5, k requires 0 <= k < 5 reads stages => stages[k].vertexAttributes)
    }

    /** Every stage whose code and GL name are still those in `codes` and
        `ids` keeps the caches `us` and `attrs` it had then; every other
        stage has both caches cleared. */
    ghost predicate CachesFollow(us: seq<Option<seq<UniformDescription>>>, attrs: seq<Option<seq<AttributeDescription>>>,
                                 codes: seq<string>, ids: seq<uint32>)
      requires |stages| == 5
      reads stages
    {
      && |us| == 5 && |attrs| == 5 && |codes| == 5 && |ids| == 5
      && forall k :: 0 <= k < 5 ==> stages[k].Follows(us[k], attrs[k], codes[k], ids[k])
    }

    /** GetUniforms on stage `i`: it scans the stage's code unless its caches
        are filled, and leaves both filled; the other stages are left as
        they were. */
    method QueryUniforms(i: nat) returns (q: Outcome<seq<UniformDescription>>)
      requires Valid() && i < 5
      modifies stages[i]
      ensures Valid() && Codes() == old(Codes()) && Ids() == old(Ids())
      ensures q == old(UniformQueries())[i]
      ensures UniformCaches()[i] == Some(ParseCode(Codes()[i]).uniforms)
      ensures AttributeCaches()[i] == Some(ParseCode(Codes()[i]).attributes)
      ensures forall k :: 0 <= k < 5 && k != i ==>
        UniformCaches()[k] == old(UniformCaches())[k] && AttributeCaches()[k] == old(AttributeCaches())[k]
      ensures forall k :: 0 <= k < 5 && k != i ==> UniformQueries()[k] == old(UniformQueries())[k]
    {
      q := stages[i].GetUniforms();
    }

    /** GetVertexAttributes on stage `i`: it scans the stage's code unless
        its caches are filled, and leaves both filled; the other stages are
        left as they were. */
    method QueryAttributes(i: nat) returns (q: Outcome<seq<AttributeDescription>>)
      requires Valid() && i < 5
      modifies stages[i]
      ensures Valid() && Codes() == old(Codes()) && Ids() == old(Ids())
      ensures q == old(AttributeQueries())[i]
      ensures UniformCaches()[i] == Some(ParseCode(Codes()[i]).uniforms)
      ensures AttributeCaches()[i] == Some(ParseCode(Codes()[i]).attributes)
      ensures forall k :: 0 <= k < 5 && k != i ==>
        UniformCaches()[k] == old(UniformCaches())[k] && AttributeCaches()[k] == old(AttributeCaches())[k]
      ensures forall k :: 0 <= k < 5 && k != i ==> AttributeQueries()[k] == old(AttributeQueries())[k]
    {
      q := stages[i].GetVertexAttributes();
    }

    /** One stage of TryGetUniformType, after the first `i` stages have
        scanned: stage `i` is queried and its uniforms searched for the first
        entry called `name`, and it has scanned too. `us0` and `as0` are the
        caches as they were before the first stage was asked. */
    method ScanUniforms(i: nat, name: string, ghost codes: seq<string>,
                    ghost us0: seq<Option<seq<UniformDescription>>>, ghost as0: seq<Option<seq<AttributeDescription>>>)
      returns (h: Outcome<Option<UniformDescription>>)
      requires Valid() && i < 5 && Codes() == codes && |us0| == 5 && |as0| == 5
      requires UniformCaches() == Refilled(us0, ParsedUniforms(codes), i)
      requires AttributeCaches() == Refilled(as0, ParsedAttributes(codes), i)
      modifies stages[i]
      ensures Valid() && Codes() == codes && Ids() == old(Ids())
      ensures h == UniformHit(UniformsAnswer(us0[i], codes[i]), name)
      ensures UniformCaches() == Refilled(us0, ParsedUniforms(codes), i + 1)
      ensures AttributeCaches() == Refilled(as0, ParsedAttributes(codes), i + 1)
    {
      ghost var ub := UniformCaches();
      ghost var ab := AttributeCaches();
      var q := QueryUniforms(i);
      UpdatedAt(UniformCaches(), ub, i, Some(ParseCode(codes[i]).uniforms));
      UpdatedAt(AttributeCaches(), ab, i, Some(ParseCode(codes[i]).attributes));
      RefilledNext(us0, ParsedUniforms(codes), i);
      RefilledNext(as0, ParsedAttributes(codes), i);
      if q.Threw? {
        h := Threw;
      } else {
        var j := IndexOfUniform(q.value, name);
        h := if j.Some? then Returned(Some(q.value[j.value])) else Returned(None);
      }
    }

    /** One stage of TryGetAttributeType, after the first `i` stages have
        scanned: stage `i` is queried and its vertex attributes searched for the first
        entry called `name`, and it has scanned too. `us0` and `as0` are the
        caches as they were before the first stage was asked. */
    method ScanAttributes(i: nat, name: string, ghost codes: seq<string>,
                    ghost us0: seq<Option<seq<UniformDescription>>>, ghost as0: seq<Option<seq<AttributeDescription>>>)
      returns (h: Outcome<Option<AttributeDescription>>)
      requires Valid() && i < 5 && Codes() == codes && |us0| == 5 && |as0| == 5
      requires UniformCaches() == Refilled(us0, ParsedUniforms(codes), i)
      requires AttributeCaches() == Refilled(as0, ParsedAttributes(codes), i)
      modifies stages[i]
      ensures Valid() && Codes() == codes && Ids() == old(Ids())
      ensures h == AttributeHit(AttributesAnswer(as0[i], codes[i]), name)
      ensures UniformCaches() == Refilled(us0, ParsedUniforms(codes), i + 1)
      ensures AttributeCaches() == Refilled(as0, ParsedAttributes(codes), i + 1)
    {
      ghost var ub := UniformCaches();
      ghost var ab := AttributeCaches();
      var q := QueryAttributes(i);
      UpdatedAt(UniformCaches(), ub, i, Some(ParseCode(codes[i]).uniforms));
      UpdatedAt(AttributeCaches(), ab, i, Some(ParseCode(codes[i]).attributes));
      RefilledNext(us0, ParsedUniforms(codes), i);
      RefilledNext(as0, ParsedAttributes(codes), i);
      if q.Threw? {
        h := Threw;
      } else {
        var j := IndexOfAttribute(q.value, name);
        h := if j.Some? then Returned(Some(q.value[j.value])) else Returned(None);
      }
    }

    /** TryGetUniformType: the stages are asked in stage order, and each
        one's uniforms are searched in order; an exception from a stage's
        scan propagates.
        The stages up to the one that decides the answer have scanned their
        code and filled their caches; the later ones are left as they were. */
    method TryGetUniformType(name: string) returns (r: Outcome<UniformType>)
      requires Valid()
      modifies stages
      ensures Valid() && Codes() == old(Codes()) && Ids() == old(Ids())
      ensures r == FindUniformType(old(UniformQueries()), name)
      ensures var n := FirstStop(UniformHits(old(UniformQueries()), name), 0) + 1;
        && UniformCaches() == Refilled(old(UniformCaches()), ParsedUniforms(Codes()), n)
        && AttributeCaches() == Refilled(old(AttributeCaches()), ParsedAttributes(Codes()), n)
    {
      ghost var codes := Codes();
      ghost var us0 := UniformCaches();
      ghost var as0 := AttributeCaches();
      ghost var hs := UniformHits(UniformAnswers(us0, codes), name);
      ghost var stop := FirstStop(hs, 0);
      var i := 0;
      while i < 5
        invariant 0 <= i <= 5 && Valid() && Codes() == codes && Ids() == old(Ids())
        invariant Lookup(hs, i) == Lookup(hs, 0) && FirstStop(hs, i) == stop
        invariant UniformCaches() == Refilled(us0, ParsedUniforms(codes), i)
        invariant AttributeCaches() == Refilled(as0, ParsedAttributes(codes), i)
      {
        var h := ScanUniforms(i, name, codes, us0, as0);
        assert h == hs[i];
        if Stops(h) {
          assert stop == i;
          if h.Threw? {
            return Threw;
          }
          return Returned(UniformType(true, h.value.value.dataType));
        }
        i := i + 1;
      }
      assert Refilled(us0, ParsedUniforms(codes), 5) == Refilled(us0, ParsedUniforms(codes), stop + 1);
      assert Refilled(as0, ParsedAttributes(codes), 5) == Refilled(as0, ParsedAttributes(codes), stop + 1);
      r := Returned(UniformType(false, ""));
    }

    /** TryGetAttributeType: the same search over the vertex attributes.
        The stages up to the one that decides the answer have scanned their
        code and filled their caches; the later ones are left as they were. */
    method TryGetAttributeType(name: string) returns (r: Outcome<AttributeType>)
      requires Valid()
      modifies stages
      ensures Valid() && Codes() == old(Codes()) && Ids() == old(Ids())
      ensures r == FindAttributeType(old(AttributeQueries()), name)
      ensures var n := FirstStop(AttributeHits(old(AttributeQueries()), name), 0) + 1;
        && UniformCaches() == Refilled(old(UniformCaches()), ParsedUniforms(Codes()), n)
        && AttributeCaches() == Refilled(old(AttributeCaches()), ParsedAttributes(Codes()), n)
    {
      ghost var codes := Codes();
      ghost var us0 := UniformCaches();
      ghost var as0 := AttributeCaches();
      ghost var hs := AttributeHits(AttributeAnswers(as0, codes), name);
      ghost var stop := FirstStop(hs, 0);
      var i := 0;
      while i < 5
        invariant 0 <= i <= 5 && Valid() && Codes() == codes && Ids() == old(Ids())
        invariant Lookup(hs, i) == Lookup(hs, 0) && FirstStop(hs, i) == stop
        invariant UniformCaches() == Refilled(us0, ParsedUniforms(codes), i)
        invariant AttributeCaches() == Refilled(as0, ParsedAttributes(codes), i)
      {
        var h := ScanAttributes(i, name, codes, us0, as0);
        assert h == hs[i];
        if Stops(h) {
          assert stop == i;
          if h.Threw? {
            return Threw;
          }
          var a := h.value.value;
          return Returned(AttributeType(true, a.dataType, a.location));
        }
        i := i + 1;
      }
      assert Refilled(us0, ParsedUniforms(codes), 5) == Refilled(us0, ParsedUniforms(codes), stop + 1);
      assert Refilled(as0, ParsedAttributes(codes), 5) == Refilled(as0, ParsedAttributes(codes), stop + 1);
      r := Returned(AttributeType(false, "", -1));
    }

    /** Asking twice for the same name: once the first lookup returns,
        the second, answered from the caches the first one filled, returns
        the same. */
    method TryGetUniformTypeTwice(name: string) returns (r1: Outcome<UniformType>, r2: Outcome<UniformType>)
      requires Valid()
      modifies stages
      ensures Valid() && Codes() == old(Codes()) && Ids() == old(Ids())
      ensures r1 == FindUniformType(old(UniformQueries()), name)
      ensures r1.Returned? ==> r2 == r1
    {
      ghost var codes := Codes();
      ghost var qs := UniformAnswers(UniformCaches(), codes);
      r1 := TryGetUniformType(name);
      ghost var qs2 := UniformAnswers(UniformCaches(), codes);
      UniformLookupRepeats(qs, qs2, name);
      r2 := TryGetUniformType(name);
    }

    /** Asking twice for the same name: once the first lookup returns,
        the second, answered from the caches the first one filled, returns
        the same. */
    method TryGetAttributeTypeTwice(name: string) returns (r1: Outcome<AttributeType>, r2: Outcome<AttributeType>)
      requires Valid()
      modifies stages
      ensures Valid() && Codes() == old(Codes()) && Ids() == old(Ids())
      ensures r1 == FindAttributeType(old(AttributeQueries()), name)
      ensures r1.Returned? ==> r2 == r1
    {
      ghost var codes := Codes();
      ghost var qs := AttributeAnswers(AttributeCaches(), codes);
      r1 := TryGetAttributeType(name);
      ghost var qs2 := AttributeAnswers(AttributeCaches(), codes);
      AttributeLookupRepeats(qs, qs2, name);
      r2 := TryGetAttributeType(name);
    }

    /** AddUniform for an int. */
    method AddIntUniform(name: string, value: int32)
      requires Valid()
      modifies this
      ensures Valid() && CurrentSettings() == old(CurrentSettings())
      ensures programId == old(programId) && compileFailed == old(compileFailed)
      ensures Inputs() == old(Inputs()).(intUniforms := old(intUniforms) + [Uniform(name, value)])
    {
      intUniforms := intUniforms + [Uniform(name, value)];
    }

    /** AddUniform for a float. */
    method AddFloatUniform(name: string, value: real)
      requires Valid()
      modifies this
      ensures Valid() && CurrentSettings() == old(CurrentSettings())
      ensures programId == old(programId) && compileFailed == old(compileFailed)
      ensures Inputs() == old(Inputs()).(floatUniforms := old(floatUniforms) + [Uniform(name, value)])
    {
      floatUniforms := floatUniforms + [Uniform(name, value)];
    }

    /** AddUniform for a Point3f. */
    method AddVec3Uniform(name: string, value: Vec3)
      requires Valid()
      modifies this
      ensures Valid() && CurrentSettings() == old(CurrentSettings())
      ensures programId == old(programId) && compileFailed == old(compileFailed)
      ensures Inputs() == old(Inputs()).(vec3Uniforms := old(vec3Uniforms) + [Uniform(name, value)])
    {
      vec3Uniforms := vec3Uniforms + [Uniform(name, value)];
    }

    /** AddUniform for a Vec4. */
    method AddVec4Uniform(name: string, value: Vec4)
      requires Valid()
      modifies this
      ensures Valid() && CurrentSettings() == old(CurrentSettings())
      ensures programId == old(programId) && compileFailed == old(compileFailed)
      ensures Inputs() == old(Inputs()).(vec4Uniforms := old(vec4Uniforms) + [Uniform(name, value)])
    {
      vec4Uniforms := vec4Uniforms + [Uniform(name, value)];
    }

    /** AddAttribute for int items; the new attribute has no buffer yet. */
    method AddIntAttribute(name: string, location: int, items: seq<int32>)
      requires Valid()
      modifies this
      ensures Valid() && CurrentSettings() == old(CurrentSettings())
      ensures programId == old(programId) && compileFailed == old(compileFailed)
      ensures Inputs() == old(Inputs()).(intAttribs := old(intAttribs) + [VertexAttribute(name, location, items, 0)])
    {
      intAttribs := intAttribs + [VertexAttribute(name, location, items, 0)];
    }

    /** AddAttribute for float items. */
    method AddFloatAttribute(name: string, location: int, items: seq<real>)
      requires Valid()
      modifies this
      ensures Valid() && CurrentSettings() == old(CurrentSettings())
      ensures programId == old(programId) && compileFailed == old(compileFailed)
      ensures Inputs() == old(Inputs()).(floatAttribs := old(floatAttribs) + [VertexAttribute(name, location, items, 0)])
    {
      floatAttribs := floatAttribs + [VertexAttribute(name, location, items, 0)];
    }

    /** AddAttribute for Point3f items. */
    method AddVec3Attribute(name: string, location: int, items: seq<Vec3>)
      requires Valid()
      modifies this
      ensures Valid() && CurrentSettings() == old(CurrentSettings())
      ensures programId == old(programId) && compileFailed == old(compileFailed)
      ensures Inputs() == old(Inputs()).(vec3Attribs := old(vec3Attribs) + [VertexAttribute(name, location, items, 0)])
    {
      vec3Attribs := vec3Attribs + [VertexAttribute(name, location, items, 0)];
    }

    /** AddAttribute for Vec4 items. */
    method AddVec4Attribute(name: string, location: int, items: seq<Vec4>)
      requires Valid()
      modifies this
      ensures Valid() && CurrentSettings() == old(CurrentSettings())
      ensures programId == old(programId) && compileFailed == old(compileFailed)
      ensures Inputs() == old(Inputs()).(vec4Attribs := old(vec4Attribs) + [VertexAttribute(name, location, items, 0)])
    {
      vec4Attribs := vec4Attribs + [VertexAttribute(name, location, items, 0)];
    }

    /** AddSampler2DUniform: the new sampler takes the texture of the first
        cached sampler with the same path, ignoring case, and that one entry
        leaves the cache; the new sampler is appended either way. */
    method AddSampler2DUniform(name: string, path: string)
      requires Valid()
      modifies this, bin
      ensures Valid() && CurrentSettings() == old(CurrentSettings())
      ensures programId == old(programId) && compileFailed == old(compileFailed)
      ensures var f := FirstPath(old(samplerCache), path);
        var id := if f.Some? then old(samplerCache)[f.value].textureId else 0;
        && Inputs() == old(Inputs()).(
             samplers := old(sampler2DUniforms) + [Sampler(name, path, id)],
             samplerCache := if f.Some? then RemoveAt(old(samplerCache), f.value) else old(samplerCache))
        && bin.queued == old(bin.queued) + TextureRetired(0, id) && bin.released == old(bin.released)
    {
      var data := Sampler(name, path, 0);
      var f := IndexOfPath(samplerCache, path);
      if f.Some? {
        var sampler := samplerCache[f.value];
        // the TextureId setter of the new sampler
        if data.textureId != sampler.textureId {
          bin.Add(TextureObject(data.textureId));
          data := data.(textureId := sampler.textureId);
        }
        samplerCache := RemoveAt(samplerCache, f.value);
      }
      sampler2DUniforms := sampler2DUniforms + [data];
    }

    /** The first part of ClearData: the uniform values are dropped. */
    method ClearUniforms()
      requires Valid()
      modifies this
      ensures Valid() && CurrentSettings() == old(CurrentSettings())
      ensures programId == old(programId) && compileFailed == old(compileFailed)
      ensures Inputs() == old(Inputs()).(intUniforms := [], floatUniforms := [], vec3Uniforms := [], vec4Uniforms := [])
    {
      intUniforms, floatUniforms, vec3Uniforms, vec4Uniforms := [], [], [], [];
    }

    /** The second part of ClearData: the attributes are dropped, each one's
        buffer going to the recycle bin. */
    method ClearAttributes()
      requires Valid()
      modifies this, bin
      ensures Valid() && CurrentSettings() == old(CurrentSettings())
      ensures programId == old(programId) && compileFailed == old(compileFailed)
      ensures Inputs() == old(Inputs()).(intAttribs := [], floatAttribs := [], vec3Attribs := [], vec4Attribs := [])
      ensures bin.queued == old(bin.queued) + Buffers(old(intAttribs)) + Buffers(old(floatAttribs))
                            + Buffers(old(vec3Attribs)) + Buffers(old(vec4Attribs))
      ensures bin.released == old(bin.released)
    {
      QueueAttributeBuffers(bin, intAttribs, floatAttribs, vec3Attribs, vec4Attribs);
      intAttribs, floatAttribs, vec3Attribs, vec4Attribs := [], [], [], [];
    }

    /** The last part of ClearData: the samplers join the end of the
        cache, which then gives up its oldest entries, and their textures,
        down to its capacity. */
    method CacheSamplers()
      requires Valid()
      modifies this, bin
      ensures Valid() && CurrentSettings() == old(CurrentSettings())
      ensures programId == old(programId) && compileFailed == old(compileFailed)
      ensures var cache := old(samplerCache) + old(sampler2DUniforms);
        && Inputs() == old(Inputs()).(samplers := [], samplerCache := Newest(cache))
        && bin.queued == old(bin.queued) + Textures(Evicted(cache)) && bin.released == old(bin.released)
    {
      samplerCache := EvictOldest(bin, samplerCache + sampler2DUniforms);
      sampler2DUniforms := [];
    }

    /** ClearData: everything set for drawing is dropped and the samplers
        move to the cache, as the three parts above do in turn. */
    method ClearData()
      requires Valid()
      modifies this, bin
      ensures Valid() && CurrentSettings() == old(CurrentSettings())
      ensures programId == old(programId) && compileFailed == old(compileFailed)
      ensures var cache := old(samplerCache) + old(sampler2DUniforms);
        && Inputs() == DrawInputs([], [], [], [], [], [], [], [], [], Newest(cache))
        && bin.queued == old(bin.queued) + Buffers(old(intAttribs)) + Buffers(old(floatAttribs))
                         + Buffers(old(vec3Attribs)) + Buffers(old(vec4Attribs)) + Textures(Evicted(cache))
        && bin.released == old(bin.released)
    {
      ClearUniforms();
      ClearAttributes();
      CacheSamplers();
    }

    /** The element count SetupGLAttributes computes over the int, float,
        Point3f and Vec4 attributes, in that order. */
    method ElementCount() returns (count: nat)
      ensures count == CountAfter(0, Lengths(intAttribs) + Lengths(floatAttribs) + Lengths(vec3Attribs) + Lengths(vec4Attribs))
    {
      count := CountItems(0, intAttribs);
      count := CountItems(count, floatAttribs);
      count := CountItems(count, vec3Attribs);
      count := CountItems(count, vec4Attribs);
      CountAfterAppend(0, Lengths(intAttribs), Lengths(floatAttribs));
      CountAfterAppend(0, Lengths(intAttribs) + Lengths(floatAttribs), Lengths(vec3Attribs));
      CountAfterAppend(0, Lengths(intAttribs) + Lengths(floatAttribs) + Lengths(vec3Attribs), Lengths(vec4Attribs));
    }

    /** Write: the five shader strings, the two doubles, and the draw mode
        as an Int32. */
    method Write() returns (a: Archive)
      requires |stages| == 5
      ensures a == Written(Codes(), CurrentSettings())
    {
      a := Archive(map[Vertex := stages[0].code, Geometry := stages[1].code, Fragment := stages[2].code,
                       TessellationControl := stages[3].code, TessellationEval := stages[4].code],
                   Some(lineWidth), Some(pointSize), Some(ToInt32(drawMode)));
    }

    /** The first three code assignments of Read: the vertex, geometry and
        fragment stages take their stored code, or "" for a missing one. */
    method ReadMainShaders(a: Archive)
      requires Valid()
      modifies this, stages, bin
      ensures Valid() && CurrentSettings() == old(CurrentSettings()) && Inputs() == old(Inputs())
      ensures Codes() == old(Codes())[0 := ReadCodes(a)[0]][1 := ReadCodes(a)[1]][2 := ReadCodes(a)[2]]
      ensures Ids() == old(Ids())
      ensures CachesFollow(old(UniformCaches()), old(AttributeCaches()), old(Codes()), old(Ids()))
      ensures ProgramState() == Edit(old(ProgramState()),
        old(Codes())[0] != ReadCodes(a)[0] || old(Codes())[1] != ReadCodes(a)[1] || old(Codes())[2] != ReadCodes(a)[2])
      ensures bin.released == old(bin.released)
    {
      ghost var codes := Codes();
      ghost var p := ProgramState();
      ghost var r := ReadCodes(a);
      ghost var ids := Ids();
      ghost var us0, as0 := UniformCaches(), AttributeCaches();
      SetCode(Vertex, ReadCode(a, Vertex), us0, as0, codes, ids);
      SetCode(Geometry, ReadCode(a, Geometry), us0, as0, codes, ids);
      EditTwice(p, codes[0] != r[0], codes[1] != r[1]);
      SetCode(Fragment, ReadCode(a, Fragment), us0, as0, codes, ids);
      EditTwice(p, codes[0] != r[0] || codes[1] != r[1], codes[2] != r[2]);
    }

    /** The shader half of Read: each stage's stored code, or "" for a
        missing one, goes through its property in the order vertex,
        geometry, fragment, tessellation control, tessellation evaluation. */
    method ReadShaders(a: Archive)
      requires Valid()
      modifies this, stages, bin
      ensures Valid() && CurrentSettings() == old(CurrentSettings()) && Inputs() == old(Inputs())
      ensures Codes() == ReadCodes(a) && Ids() == old(Ids())
      ensures CachesFollow(old(UniformCaches()), old(AttributeCaches()), old(Codes()), old(Ids()))
      ensures ProgramState() == Edit(old(ProgramState()), ReadCodes(a) != old(Codes()))
      ensures bin.released == old(bin.released)
    {
      ghost var codes := Codes();
      ghost var p := ProgramState();
      ghost var r := ReadCodes(a);
      ghost var ids := Ids();
      ghost var us0, as0 := UniformCaches(), AttributeCaches();
      ReadMainShaders(a);
      assert Codes()[3] == codes[3] && Codes()[4] == codes[4];
      SetCode(TessellationControl, ReadCode(a, TessellationControl), us0, as0, codes, ids);
      EditTwice(p, codes[0] != r[0] || codes[1] != r[1] || codes[2] != r[2], codes[3] != r[3]);
      SetCode(TessellationEval, ReadCode(a, TessellationEval), us0, as0, codes, ids);
      EditTwice(p, codes[0] != r[0] || codes[1] != r[1] || codes[2] != r[2] || codes[3] != r[3], codes[4] != r[4]);
      FiveUpdated(codes, r);
      FiveChanged(codes, r);
    }

    /** The settings half of Read: each stored setting goes through its
        setter, and a missing one is left as it was. */
    method ReadStoredSettings(a: Archive)
      requires Valid()
      modifies this
      ensures Valid() && Inputs() == old(Inputs())
      ensures CurrentSettings() == ReadSettings(old(CurrentSettings()), a)
      ensures programId == old(programId) && compileFailed == old(compileFailed)
    {
      if a.lineWidth.Some? {
        SetLineWidth(a.lineWidth.value);
      }
      if a.pointSize.Some? {
        SetPointSize(a.pointSize.value);
      }
      if a.drawMode.Some? {
        SetDrawMode(ToUint32(a.drawMode.value));
      }
    }

    /** Read: the shaders as above, then each stored setting through its
        setter; a missing setting is left as it was. */
    method Read(a: Archive) returns (ok: bool)
      requires Valid()
      modifies this, stages, bin
      ensures ok && Valid() && Inputs() == old(Inputs())
      ensures Codes() == ReadCodes(a) && Ids() == old(Ids())
      ensures CachesFollow(old(UniformCaches()), old(AttributeCaches()), old(Codes()), old(Ids()))
      ensures CurrentSettings() == ReadSettings(old(CurrentSettings()), a)
      ensures ProgramState() == Edit(old(ProgramState()), ReadCodes(a) != old(Codes()))
      ensures bin.released == old(bin.released)
    {
      ReadShaders(a);
      ReadStoredSettings(a);
      ok := true;
    }
  }
}
