/**
  One GLSL shader stage: its source text, the GL name of its compiled
  shader, and the uniform and vertex-attribute declarations scanned from the
  source, cached until the source or the GL name changes.
 */
module Shaders {
  import opened Text
  import opened Gl

  /** The five stages, in the order of their integer values. */
  datatype ShaderType = Vertex | Geometry | Fragment | TessellationControl | TessellationEval

  /** The enum's integer value, which is also the stage's slot in a program. */
  function TypeIndex(t: ShaderType): (i: nat)
    ensures i < 5
  {
    match t
    case Vertex => 0
    case Geometry => 1
    case Fragment => 2
    case TessellationControl => 3
    case TessellationEval => 4
  }

  /** The cast `(ShaderType)i`. */
  function TypeAt(i: nat): (t: ShaderType)
    requires i < 5
    ensures TypeIndex(t) == i
  {
    if i == 0 then Vertex
    else if i == 1 then Geometry
    else if i == 2 then Fragment
    else if i == 3 then TessellationControl
    else TessellationEval
  }

  /** The enum member's name, as string interpolation prints it. */
  function TypeName(t: ShaderType): string {
    match t
    case Vertex => "Vertex"
    case Geometry => "Geometry"
    case Fragment => "Fragment"
    case TessellationControl => "TessellationControl"
    case TessellationEval => "TessellationEval"
  }

  /** The text Compile puts in front of every info-log line it reports. */
  function ErrorPrefix(t: ShaderType): string {
    "(" + TypeName(t) + " shader)"
  }

  datatype UniformDescription = UniformDescription(name: string, dataType: string)

  datatype AttributeDescription = AttributeDescription(location: int, dataType: string, name: string)

  const UniformKeyword: string := "uniform"
  const LayoutKeyword: string := "layout"
  const AttributeKeyword: string := "attribute"
  const InKeyword: string := "in "
  const UniformSeparators: set<char> := {' ', ';', '='}
  const AttributeSeparators: set<char> := {' ', ';'}
  /** The location an `attribute` line records: the C# default of an int property. */
  const DefaultAttributeLocation: int := 0

  // ---------------------------------------------------------------------
  // Uniform lines
  // ---------------------------------------------------------------------

  /** The first token at or after `from` that is not blank, or |tokens|. */
  function NextNonBlank(tokens: seq<string>, from: nat): (k: nat)
    requires from <= |tokens|
    ensures from <= k <= |tokens|
    ensures k < |tokens| ==> !IsBlank(tokens[k])
    ensures forall m :: from <= m < k ==> IsBlank(tokens[m])
    decreases |tokens| - from
  {
    if from == |tokens| || !IsBlank(tokens[from]) then from else NextNonBlank(tokens, from + 1)
  }

  /** NextNonBlank is the only position with its two properties. */
  lemma NextNonBlankUnique(tokens: seq<string>, from: nat, k: nat)
    requires from <= k <= |tokens|
    requires k < |tokens| ==> !IsBlank(tokens[k])
    requires forall m :: from <= m < k ==> IsBlank(tokens[m])
    ensures NextNonBlank(tokens, from) == k
  {
  }

  /** The declaration a line starting with `uniform` makes: the line is cut at
      spaces, semicolons and equals signs; the first non-blank piece after the
      keyword's own piece is the type and the next non-blank piece is the name,
      both trimmed. A line without both declares nothing. */
  function UniformLine(line: string): Option<UniformDescription>
  {
    if !StartsWith(line, UniformKeyword) then None
    else
      var tokens := Split(line, UniformSeparators);
      var j := NextNonBlank(tokens, 1);
      if j == |tokens| then None
      else
        var k := NextNonBlank(tokens, j + 1);
        if k == |tokens| then None
        else Some(UniformDescription(Trim(tokens[k]), Trim(tokens[j])))
  }

  /** Pieces `j` and `k` are the first two non-blank pieces after piece 0. */
  predicate FirstTwoNonBlank(tokens: seq<string>, j: nat, k: nat) {
    1 <= j < k < |tokens| && !IsBlank(tokens[j]) && !IsBlank(tokens[k])
    && (forall m :: 1 <= m < k && m != j ==> IsBlank(tokens[m]))
  }

  /** A line declares a uniform exactly when it starts with `uniform` and has
      two non-blank pieces after the first; the type is the first of them and
      the name the second. */
  lemma UniformLineMeaning(line: string, u: UniformDescription)
    ensures UniformLine(line) == Some(u) <==>
      StartsWith(line, UniformKeyword) &&
      exists j: nat, k: nat :: FirstTwoNonBlank(Split(line, UniformSeparators), j, k)
        && u == UniformDescription(Trim(Split(line, UniformSeparators)[k]), Trim(Split(line, UniformSeparators)[j]))
  {
    var tokens := Split(line, UniformSeparators);
    if UniformLine(line) == Some(u) {
      var j := NextNonBlank(tokens, 1);
      var k := NextNonBlank(tokens, j + 1);
      assert FirstTwoNonBlank(tokens, j, k);
    }
    if StartsWith(line, UniformKeyword) {
      forall j: nat, k: nat | FirstTwoNonBlank(tokens, j, k)
        ensures UniformLine(line) == Some(UniformDescription(Trim(tokens[k]), Trim(tokens[j])))
      {
        NextNonBlankUnique(tokens, 1, j);
        NextNonBlankUnique(tokens, j + 1, k);
      }
    }
  }

  /** The loop that walks the pieces of a `uniform` line: the type is the
      first non-blank piece after piece 0 and the name the next one. */
  method TypeAndName(tokens: seq<string>) returns (dataType: Option<string>, name: Option<string>)
    requires |tokens| >= 1
    ensures var j := NextNonBlank(tokens, 1);
      dataType == (if j < |tokens| then Some(Trim(tokens[j])) else None)
      && name == (if j < |tokens| && NextNonBlank(tokens, j + 1) < |tokens|
                  then Some(Trim(tokens[NextNonBlank(tokens, j + 1)])) else None)
  {
    dataType, name := None, None;
    ghost var first := |tokens|;
    var j := 1;
    while j < |tokens|
      invariant 1 <= j <= |tokens| && name.None?
      invariant dataType.None? ==> forall m :: 1 <= m < j ==> IsBlank(tokens[m])
      invariant dataType.Some? ==>
                  (&& 1 <= first < j && first == NextNonBlank(tokens, 1)
                   && dataType == Some(Trim(tokens[first]))
                   && forall m :: first < m < j ==> IsBlank(tokens[m]))
    {
      if IsBlank(tokens[j]) {
        j := j + 1;
        continue;
      }
      if dataType.None? {
        NextNonBlankUnique(tokens, 1, j);
        first := j;
        dataType := Some(Trim(tokens[j]));
        j := j + 1;
        continue;
      }
      NextNonBlankUnique(tokens, first + 1, j);
      name := Some(Trim(tokens[j]));
      break;
    }
    if dataType.None? {
      NextNonBlankUnique(tokens, 1, |tokens|);
    } else if name.None? {
      NextNonBlankUnique(tokens, first + 1, |tokens|);
    }
  }

  // ---------------------------------------------------------------------
  // Attribute lines
  // ---------------------------------------------------------------------

  /** What a line contributes to the attribute list: nothing, one
      declaration, or an exception that ends the scan (an index past the end
      of the pieces, or a substring start past the end of the line). */
  datatype LineAttribute = NoAttribute | Declared(attribute: AttributeDescription) | Fails

  /** Type and name are the first two pieces; fewer than two pieces throws. */
  function AttributeItems(items: seq<string>, location: int): (r: LineAttribute)
    ensures r != NoAttribute
    ensures r.Fails? <==> |items| < 2
    ensures r.Declared? ==> r.attribute == AttributeDescription(location, items[0], items[1])
  {
    if |items| < 2 then Fails else Declared(AttributeDescription(location, items[0], items[1]))
  }

  /** A line starting with `layout`, as in `layout(location = 0) in vec4 p;`.
      The decoding is written as four steps, one per test the scan makes. */
  function LayoutLine(line: string): LineAttribute
  {
    LayoutBrackets(line, IndexOf(line, '='), IndexOf(line, ')'))
  }

  /** Step 1: the first `=` must stand after index 6 and the first `)` after
      it; the text between them, trimmed, is parsed as the location. */
  function LayoutBrackets(line: string, start: int, end: int): LineAttribute
    requires -1 <= start < |line| && -1 <= end < |line|
  {
    if start > |LayoutKeyword| && end > start then
      LayoutLocation(line, end, ParseInt32(Trim(line[start + 1..end])))
    else NoAttribute
  }

  /** Step 2: the location must parse and be non-negative; `in ` is then
      searched for from the `)` on. */
  function LayoutLocation(line: string, end: nat, location: Option<int>): LineAttribute
    requires end <= |line|
  {
    if location.Some? && location.value >= 0 then
      LayoutIn(line, end, IndexOfStringFrom(line, InKeyword, end), location.value)
    else NoAttribute
  }

  /** Step 3: `in ` must occur after the `)`; the rest of the line, trimmed,
      is cut at spaces and semicolons into type and name. */
  function LayoutIn(line: string, end: nat, inAt: int, location: int): LineAttribute
    requires inAt == -1 || (0 <= inAt && inAt + |InKeyword| <= |line|)
  {
    if inAt > end then
      AttributeItems(Split(Trim(line[inAt + |InKeyword|..]), AttributeSeparators), location)
    else NoAttribute
  }

  lemma LayoutLineStep(line: string, s: nat, e: nat)
    requires IndexOf(line, '=') == s && IndexOf(line, ')') == e
    ensures LayoutLine(line) == LayoutBrackets(line, s, e)
  {
  }

  lemma LayoutBracketsStep(line: string, s: nat, e: nat, location: Option<int>)
    requires |LayoutKeyword| < s < e < |line|
    requires ParseInt32(Trim(line[s + 1..e])) == location
    ensures LayoutBrackets(line, s, e) == LayoutLocation(line, e, location)
  {
  }

  lemma LayoutLocationStep(line: string, e: nat, k: nat, location: int)
    requires e < |line| && IndexOfStringFrom(line, InKeyword, e) == k && location >= 0
    ensures LayoutLocation(line, e, Some(location)) == LayoutIn(line, e, k, location)
  {
  }

  lemma LayoutInStep(line: string, e: nat, k: nat, location: int)
    requires e < k && k + |InKeyword| <= |line|
    ensures LayoutIn(line, e, k, location)
         == AttributeItems(Split(Trim(line[k + |InKeyword|..]), AttributeSeparators), location)
  {
  }

  /** The shape of a `layout` line that declares an attribute: the first `=`
      stands after index 6, the first `)` after it, the text between them is a
      non-negative integer `location`, and `in ` first occurs at `k`, after the
      `)`. */
  predicate LayoutShape(line: string, s: nat, e: nat, k: nat, location: int) {
    && |LayoutKeyword| < s < e < k && k + |InKeyword| <= |line|
    && CharAt(line, s) == '=' && (forall i :: 0 <= i < s ==> CharAt(line, i) != '=')
    && CharAt(line, e) == ')' && (forall i :: 0 <= i < e ==> CharAt(line, i) != ')')
    && ParseInt32(Trim(line[s + 1..e])) == Some(location) && location >= 0
    && OccursAt(line, InKeyword, k)
    && (forall m :: e <= m < k ==> !OccursAt(line, InKeyword, m))
  }

  /** A line of that shape records the integer between `=` and `)` as the
      location and takes type and name from the pieces after `in `. */
  lemma LayoutLineResult(line: string, s: nat, e: nat, k: nat, location: int)
    requires LayoutShape(line, s, e, k, location)
    ensures LayoutLine(line)
         == AttributeItems(Split(Trim(line[k + |InKeyword|..]), AttributeSeparators), location)
  {
    assert IndexOf(line, '=') == s;
    assert IndexOf(line, ')') == e;
    LayoutLineStep(line, s, e);
    LayoutBracketsStep(line, s, e, Some(location));
    assert IndexOfStringFrom(line, InKeyword, e) == k;
    LayoutLocationStep(line, e, k, location);
    LayoutInStep(line, e, k, location);
  }

  /** A `layout` line that contributes something has that shape, at the
      positions of the first `=`, the first `)` and the first `in ` after it. */
  lemma LayoutLineShape(line: string) returns (s: nat, e: nat, k: nat, location: int)
    requires LayoutLine(line) != NoAttribute
    ensures LayoutShape(line, s, e, k, location)
    ensures s == IndexOf(line, '=') && e == IndexOf(line, ')') && k == IndexOfStringFrom(line, InKeyword, e)
  {
    var start, end := IndexOf(line, '='), IndexOf(line, ')');
    assert LayoutBrackets(line, start, end) != NoAttribute;
    s, e := start, end;
    var parsed := ParseInt32(Trim(line[s + 1..e]));
    assert LayoutLocation(line, e, parsed) != NoAttribute;
    location := parsed.value;
    var inAt := IndexOfStringFrom(line, InKeyword, e);
    assert LayoutIn(line, e, inAt, location) != NoAttribute;
    k := inAt;
  }

  /** A `layout` line contributes something exactly when it has that shape. */
  lemma LayoutLineMeaning(line: string)
    ensures LayoutLine(line) != NoAttribute <==>
      exists s: nat, e: nat, k: nat, location: int :: LayoutShape(line, s, e, k, location)
  {
    if LayoutLine(line) != NoAttribute {
      var s, e, k, location := LayoutLineShape(line);
    }
    forall s: nat, e: nat, k: nat, location: int | LayoutShape(line, s, e, k, location)
      ensures LayoutLine(line) != NoAttribute
    {
      LayoutLineResult(line, s, e, k, location);
    }
  }

  /** A line starting with `attribute`: the text after `attribute ` is cut at
      spaces and semicolons, dropping empty pieces. */
  function AttributeLine(line: string): (r: LineAttribute)
    ensures r != NoAttribute
    ensures r.Fails? <==>
      |line| < |AttributeKeyword| + 1
      || |SplitRemoveEmpty(line[|AttributeKeyword| + 1..], AttributeSeparators)| < 2
    ensures r.Declared? ==>
      var items := SplitRemoveEmpty(line[|AttributeKeyword| + 1..], AttributeSeparators);
      && r.attribute == AttributeDescription(DefaultAttributeLocation, items[0], items[1])
      && r.attribute.dataType != [] && r.attribute.name != []
  {
    if |line| < |AttributeKeyword| + 1 then Fails
    else AttributeItems(SplitRemoveEmpty(line[|AttributeKeyword| + 1..], AttributeSeparators), DefaultAttributeLocation)
  }

  /** The type and name an `attribute` line declares hold no space or semicolon. */
  lemma AttributeLinePieces(line: string)
    ensures AttributeLine(line).Declared? ==>
      && Free(AttributeLine(line).attribute.dataType, AttributeSeparators)
      && Free(AttributeLine(line).attribute.name, AttributeSeparators)
  {
    if |line| >= |AttributeKeyword| + 1 {
      SplitRemoveEmptyFree(line[|AttributeKeyword| + 1..], AttributeSeparators);
    }
  }

  /** What a line contributes to the attribute list. */
  function LineAttributeOf(line: string): LineAttribute
  {
    if StartsWith(line, LayoutKeyword) then LayoutLine(line)
    else if StartsWith(line, AttributeKeyword) then AttributeLine(line)
    else NoAttribute
  }

  /** The three keywords exclude each other at the start of a line. */
  lemma KeywordsExclusive(line: string)
    ensures LineAttributeOf(line) != NoAttribute ==> UniformLine(line) == None
    ensures StartsWith(line, LayoutKeyword) ==> !StartsWith(line, AttributeKeyword)
  {
    assert UniformKeyword[0] == 'u' && LayoutKeyword[0] == 'l' && AttributeKeyword[0] == 'a';
    if StartsWith(line, UniformKeyword) {
      assert line[0] == 'u';
    }
    if StartsWith(line, LayoutKeyword) {
      assert line[0] == 'l';
    }
  }

  /** The uniform test of one line (the `uniform` branch of the scan). */
  method UniformOfLine(line: string) returns (u: Option<UniformDescription>)
    ensures u == UniformLine(line)
  {
    u := None;
    if StartsWith(line, UniformKeyword) {
      var tokens := Split(line, UniformSeparators);
      var dataType, name := TypeAndName(tokens);
      if dataType.Some? && name.Some? {
        u := Some(UniformDescription(name.value, dataType.value));
      }
    }
  }

  // ---------------------------------------------------------------------
  // The scan over the lines of the source
  // ---------------------------------------------------------------------

  /** What one line contributes: a uniform, if it declares one, and its
      effect on the attribute list. */
  datatype LineFacts = LineFacts(uniform: Option<UniformDescription>, attribute: LineAttribute)

  function FactsOf(line: string): (f: LineFacts)
    ensures f.attribute != NoAttribute ==> f.uniform == None
  {
    KeywordsExclusive(line);
    LineFacts(UniformLine(line), LineAttributeOf(line))
  }

  /** A line never both declares a uniform and touches the attribute list. */
  predicate Exclusive(fs: seq<LineFacts>) {
    forall i :: 0 <= i < |fs| && fs[i].attribute != NoAttribute ==> fs[i].uniform == None
  }

  /** The facts of each line, in order. */
  function FactsOfLines(lines: seq<string>): (fs: seq<LineFacts>)
    ensures |fs| == |lines|
    ensures forall i :: 0 <= i < |lines| ==> fs[i] == FactsOf(lines[i])
  {
    if lines == [] then []
    else FactsOfLines(lines[..|lines| - 1]) + [FactsOf(lines[|lines| - 1])]
  }

  lemma FactsOfLinesExclusive(lines: seq<string>)
    ensures Exclusive(FactsOfLines(lines))
  {
    var fs := FactsOfLines(lines);
    forall i | 0 <= i < |fs| && fs[i].attribute != NoAttribute
      ensures fs[i].uniform == None
    {
      assert fs[i] == FactsOf(lines[i]);
    }
  }

  /** The two lists the scan fills and whether it ended in an exception. */
  datatype Scan = Scan(uniforms: seq<UniformDescription>, attributes: seq<AttributeDescription>, threw: bool)

  /** One line of the scan: the uniform test, then the attribute tests. */
  function ScanLine(acc: Scan, f: LineFacts): Scan
  {
    var withUniform := if f.uniform.Some? then acc.(uniforms := acc.uniforms + [f.uniform.value]) else acc;
    match f.attribute
    case NoAttribute => withUniform
    case Declared(a) => withUniform.(attributes := withUniform.attributes + [a])
    case Fails => withUniform.(threw := true)
  }

  /** The scan over the lines, line after line, stopping at an exception. */
  function ScanLines(fs: seq<LineFacts>): Scan
  {
    if fs == [] then Scan([], [], false)
    else
      var prev := ScanLines(fs[..|fs| - 1]);
      if prev.threw then prev else ScanLine(prev, fs[|fs| - 1])
  }

  /** One more line extends the scan by that line, unless it already threw. */
  lemma ScanLinesStep(fs: seq<LineFacts>, i: nat)
    requires i < |fs|
    ensures ScanLines(fs[..i + 1]) == if ScanLines(fs[..i]).threw then ScanLines(fs[..i]) else ScanLine(ScanLines(fs[..i]), fs[i])
  {
    assert fs[..i + 1][..i] == fs[..i];
  }

  /** The lines of `code`, as Split('\n') cuts them. */
  function Lines(code: string): seq<string> {
    Split(code, {'\n'})
  }

  /** What ParseUniformsAndAttributes leaves in the two lists for `code`:
      nothing for blank code, otherwise the scan of its lines. */
  function ParseCode(code: string): Scan
  {
    if IsBlank(code) then Scan([], [], false) else ScanLines(FactsOfLines(Lines(code)))
  }

  /** The uniforms the lines declare, in line order. */
  function DeclaredUniforms(fs: seq<LineFacts>): seq<UniformDescription>
  {
    if fs == [] then []
    else (match fs[0].uniform case Some(u) => [u] case None => []) + DeclaredUniforms(fs[1..])
  }

  /** The attributes the lines declare, in line order. */
  function DeclaredAttributes(fs: seq<LineFacts>): seq<AttributeDescription>
  {
    if fs == [] then []
    else (match fs[0].attribute case Declared(a) => [a] case _ => []) + DeclaredAttributes(fs[1..])
  }

  /** The index of the first line that throws, or the number of lines. */
  function FirstFailure(fs: seq<LineFacts>): (k: nat)
    ensures k <= |fs|
    ensures k < |fs| ==> fs[k].attribute.Fails?
    ensures forall m :: 0 <= m < k ==> !fs[m].attribute.Fails?
  {
    if fs == [] then 0
    else if fs[0].attribute.Fails? then 0
    else 1 + FirstFailure(fs[1..])
  }

  lemma {:induction false} DeclaredUniformsAppend(fs: seq<LineFacts>, f: LineFacts)
    ensures DeclaredUniforms(fs + [f])
         == DeclaredUniforms(fs) + (match f.uniform case Some(u) => [u] case None => [])
  {
    if fs != [] {
      assert (fs + [f])[1..] == fs[1..] + [f];
      DeclaredUniformsAppend(fs[1..], f);
    }
  }

  lemma {:induction false} DeclaredAttributesAppend(fs: seq<LineFacts>, f: LineFacts)
    ensures DeclaredAttributes(fs + [f])
         == DeclaredAttributes(fs) + (match f.attribute case Declared(a) => [a] case _ => [])
  {
    if fs != [] {
      assert (fs + [f])[1..] == fs[1..] + [f];
      DeclaredAttributesAppend(fs[1..], f);
    }
  }

  lemma FirstFailureUnique(fs: seq<LineFacts>, k: nat)
    requires k <= |fs|
    requires k < |fs| ==> fs[k].attribute.Fails?
    requires forall m :: 0 <= m < k ==> !fs[m].attribute.Fails?
    ensures FirstFailure(fs) == k
  {
  }

  /** The scan throws exactly when some line throws; it then holds what the
      lines before the first such line declare, and otherwise what all lines
      declare, each list in line order. */
  lemma {:induction false} ScanMeaning(fs: seq<LineFacts>)
    requires Exclusive(fs)
    ensures var k := FirstFailure(fs);
      && ScanLines(fs).threw == (k < |fs|)
      && ScanLines(fs).uniforms == DeclaredUniforms(fs[..k])
      && ScanLines(fs).attributes == DeclaredAttributes(fs[..k])
  {
    if fs != [] {
      var n := |fs|;
      var init := fs[..n - 1];
      var f := fs[n - 1];
      assert fs == init + [f];
      ScanMeaning(init);
      var k := FirstFailure(init);
      if k < n - 1 {
        FirstFailureUnique(fs, k);
        assert fs[..k] == init[..k];
      } else {
        assert init[..k] == init;
        DeclaredUniformsAppend(init, f);
        DeclaredAttributesAppend(init, f);
        if f.attribute.Fails? {
          FirstFailureUnique(fs, n - 1);
        } else {
          FirstFailureUnique(fs, n);
          assert fs[..n] == fs;
        }
      }
    }
  }

  /** Blank code declares nothing; other code yields what its lines declare
      up to the first line that throws. */
  lemma ParseCodeMeaning(code: string)
    ensures IsBlank(code) ==> ParseCode(code) == Scan([], [], false)
    ensures !IsBlank(code) ==>
      var fs := FactsOfLines(Lines(code));
      var k := FirstFailure(fs);
      && ParseCode(code).threw == (k < |fs|)
      && ParseCode(code).uniforms == DeclaredUniforms(fs[..k])
      && ParseCode(code).attributes == DeclaredAttributes(fs[..k])
  {
    if !IsBlank(code) {
      FactsOfLinesExclusive(Lines(code));
      ScanMeaning(FactsOfLines(Lines(code)));
    }
  }

  /** Once the scan has thrown, later lines change nothing. */
  lemma {:induction false} ScanStopsAtThrow(fs: seq<LineFacts>, i: nat)
    requires i <= |fs| && ScanLines(fs[..i]).threw
    ensures ScanLines(fs) == ScanLines(fs[..i])
    decreases |fs| - i
  {
    if i < |fs| {
      assert fs[..i + 1][..i] == fs[..i];
      ScanStopsAtThrow(fs, i + 1);
    } else {
      assert fs[..i] == fs;
    }
  }

  // ---------------------------------------------------------------------
  // Compilation
  // ---------------------------------------------------------------------

  /** The reported lines of an info log, each behind the stage's prefix. */
  function InfoLogErrors(prefix: string, lines: seq<string>): (r: seq<string>)
    ensures forall i :: 0 <= i < |r| ==> StartsWith(r[i], prefix)
  {
    if lines == [] then []
    else
      var last := lines[|lines| - 1];
      InfoLogErrors(prefix, lines[..|lines| - 1]) + (if IsBlank(last) then [] else [prefix + last])
  }

  /** The messages of an info log are those of its lines in turn... */
  lemma {:induction false} InfoLogErrorsAppend(prefix: string, a: seq<string>, b: seq<string>)
    ensures InfoLogErrors(prefix, a + b) == InfoLogErrors(prefix, a) + InfoLogErrors(prefix, b)
    decreases |b|
  {
    if b == [] {
      assert a + b == a;
    } else {
      var init := b[..|b| - 1];
      assert (a + b)[..|a + b| - 1] == a + init && (a + b)[|a + b| - 1] == b[|b| - 1];
      InfoLogErrorsAppend(prefix, a, init);
    }
  }

  /** ...where a blank line reports nothing and any other line one message
      behind the prefix. */
  lemma InfoLogErrorsOne(prefix: string, line: string)
    ensures InfoLogErrors(prefix, [line]) == if IsBlank(line) then [] else [prefix + line]
  {
    assert [line][..0] == [];
  }

  /** Exactly the lines that are not blank are reported, behind the prefix. */
  lemma {:induction false} InfoLogErrorsMeaning(prefix: string, lines: seq<string>)
    ensures forall m :: m in InfoLogErrors(prefix, lines) ==> exists l :: l in lines && !IsBlank(l) && m == prefix + l
    ensures forall l :: l in lines && !IsBlank(l) ==> prefix + l in InfoLogErrors(prefix, lines)
  {
    if lines != [] {
      var init := lines[..|lines| - 1];
      assert lines == init + [lines[|lines| - 1]];
      InfoLogErrorsMeaning(prefix, init);
    }
  }

  /** The effect of Compile on one stage: its result, the stage's new GL
      name, the messages it appends and the names it queues for deletion. */
  datatype Compilation = Compilation(ok: bool, id: uint32, errors: seq<string>, queued: seq<GLObject>)

  /** What Compile does for a stage of type `t` holding `code` and `oldId`
      when the driver behaves as `gl` says. */
  function Compiled(t: ShaderType, code: string, oldId: uint32, gl: ShaderCompilation): (c: Compilation)
    ensures IsBlank(code) ==> c == Compilation(true, oldId, [], [])
    ensures !IsBlank(code) ==> (c.ok <==> c.id != 0)
    ensures !IsBlank(code) ==> (c.id != 0 <==> gl.compiled && gl.handle != 0)
    ensures c.id != 0 && c.id != oldId ==> c.id == gl.handle
    ensures c.errors != [] ==> !c.ok && c.id == 0
    ensures forall m :: m in c.errors ==> StartsWith(m, ErrorPrefix(t))
    ensures c.queued == if c.id != oldId then [ShaderObject(oldId)] else []
    ensures !IsBlank(code) ==> c.id == if gl.compiled then gl.handle else 0
    ensures !IsBlank(code) && !gl.compiled ==> c.errors == InfoLogErrors(ErrorPrefix(t), Split(gl.infoLog, {'\n'}))
    ensures gl.compiled ==> c.errors == []
  {
    if IsBlank(code) then Compilation(true, oldId, [], [])
    else
      var rc: uint32 := if gl.compiled then gl.handle else 0;
      var errors := if gl.compiled then [] else InfoLogErrors(ErrorPrefix(t), Split(gl.infoLog, {'\n'}));
      Compilation(rc != 0, rc, errors, if rc != oldId then [ShaderObject(oldId)] else [])
  }

  // ---------------------------------------------------------------------
  // The shader object
  // ---------------------------------------------------------------------

  /** A call that either returns a value or throws. */
  datatype Outcome<T> = Returned(value: T) | Threw

  /** What GetUniforms returns for `code` when the uniform cache holds
      `cache`: a filled cache answers; an empty one is filled by a scan of
      the code, which may throw. */
  function UniformsAnswer(cache: Option<seq<UniformDescription>>, code: string): Outcome<seq<UniformDescription>> {
    if cache.None? && ParseCode(code).threw then Threw else Returned(ParseCode(code).uniforms)
  }

  /** What GetVertexAttributes returns for `code` when the attribute cache
      holds `cache`. */
  function AttributesAnswer(cache: Option<seq<AttributeDescription>>, code: string): Outcome<seq<AttributeDescription>> {
    if cache.None? && ParseCode(code).threw then Threw else Returned(ParseCode(code).attributes)
  }

  class Shader {
    const shaderType: ShaderType
    /** The process-wide recycle bin the shader hands its old GL names to. */
    const bin: RecycleBin
    var shaderId: uint32
    var code: string
    var uniforms: Option<seq<UniformDescription>>
    var vertexAttributes: Option<seq<AttributeDescription>>

    /** The two caches are filled and cleared together, and a filled cache
        holds exactly what scanning the current code leaves in it. */
    ghost predicate Valid()
      reads this
    {
      && (uniforms.Some? <==> vertexAttributes.Some?)
      && (uniforms.Some? ==> uniforms.value == ParseCode(code).uniforms)
      && (vertexAttributes.Some? ==> vertexAttributes.value == ParseCode(code).attributes)
    }

    /** What GetUniforms returns in this state. */
    ghost function UniformsQuery(): Outcome<seq<UniformDescription>>
      reads this
    {
      UniformsAnswer(uniforms, code)
    }

    /** What GetVertexAttributes returns in this state. */
    ghost function AttributesQuery(): Outcome<seq<AttributeDescription>>
      reads this
    {
      AttributesAnswer(vertexAttributes, code)
    }

    /** The caches as edits leave them since a moment when the code was
        `c`, the GL name `id` and the caches `u` and `a`: kept while code and
        name are as they were, cleared otherwise. */
    ghost predicate Follows(u: Option<seq<UniformDescription>>, a: Option<seq<AttributeDescription>>, c: string, id: uint32)
      reads this
    {
      if code == c && shaderId == id
      then uniforms == u && vertexAttributes == a
      else uniforms.None? && vertexAttributes.None?
    }

    constructor (t: ShaderType, bin: RecycleBin)
      ensures Valid() && shaderType == t && this.bin == bin
      ensures shaderId == 0 && code == "" && uniforms.None? && vertexAttributes.None?
    {
      shaderType := t;
      this.bin := bin;
      shaderId := 0;
      code := "";
      uniforms := None;
      vertexAttributes := None;
    }

    /** The ShaderId setter: a different name sends the old one to the
        recycle bin and drops both caches; the same name changes nothing. */
    method SetShaderId(value: uint32)
      requires Valid()
      modifies this, bin
      ensures Valid() && shaderId == value && code == old(code)
      ensures old(shaderId) == value ==>
        uniforms == old(uniforms) && vertexAttributes == old(vertexAttributes) && bin.queued == old(bin.queued)
      ensures old(shaderId) != value ==>
        uniforms.None? && vertexAttributes.None? && bin.queued == old(bin.queued) + [ShaderObject(old(shaderId))]
      ensures bin.released == old(bin.released)
    {
      if shaderId != value {
        bin.Add(ShaderObject(shaderId));
        shaderId := value;
        uniforms := None;
        vertexAttributes := None;
      }
    }

    /** The Code setter: an ordinally different string is stored and drops
        both caches; an equal string changes nothing. Seen from any earlier
        moment `(u0, a0, code0, id0)` that the stage follows and whose code
        and name it still has, it follows that moment afterwards too. */
    method SetCode(value: string, ghost u0: Option<seq<UniformDescription>>,
                   ghost a0: Option<seq<AttributeDescription>>, ghost code0: string, ghost id0: uint32)
      requires Valid()
      modifies this
      ensures old(Follows(u0, a0, code0, id0) && code == code0 && shaderId == id0) ==> Follows(u0, a0, code0, id0)
      ensures Valid() && code == value && shaderId == old(shaderId)
      ensures old(code) == value ==> uniforms == old(uniforms) && vertexAttributes == old(vertexAttributes)
      ensures old(code) != value ==> uniforms.None? && vertexAttributes.None?
    {
      if code != value {
        code := value;
        uniforms := None;
        vertexAttributes := None;
      }
    }

    /** Compile: blank code is accepted as it is; otherwise the driver
        compiles it, a failure reports the info log and leaves the stage with
        name 0, and a success stores the new name. A changed name drops both
        caches, so the stage keeps following any earlier moment
        `(u0, a0, code0, id0)` as SetCode does. */
    method Compile(errors: seq<string>, gl: ShaderCompilation, ghost u0: Option<seq<UniformDescription>>,
                   ghost a0: Option<seq<AttributeDescription>>, ghost code0: string, ghost id0: uint32)
      returns (ok: bool, errorsOut: seq<string>)
      requires Valid()
      modifies this, bin
      ensures old(Follows(u0, a0, code0, id0) && code == code0 && shaderId == id0) ==> Follows(u0, a0, code0, id0)
      ensures Valid() && code == old(code)
      ensures var c := Compiled(shaderType, old(code), old(shaderId), gl);
        ok == c.ok && shaderId == c.id && errorsOut == errors + c.errors && bin.queued == old(bin.queued) + c.queued
      ensures shaderId == old(shaderId) ==> uniforms == old(uniforms) && vertexAttributes == old(vertexAttributes)
      ensures shaderId != old(shaderId) ==> uniforms.None? && vertexAttributes.None?
      ensures bin.released == old(bin.released)
    {
      errorsOut := errors;
      if IsBlank(code) {
        return true, errorsOut;
      }
      var rc: uint32 := 0;
      if !gl.compiled {
        var prefix := ErrorPrefix(shaderType);
        var lines := Split(gl.infoLog, {'\n'});
        for i := 0 to |lines|
          invariant errorsOut == errors + InfoLogErrors(prefix, lines[..i])
        {
          assert lines[..i + 1][..i] == lines[..i];
          if IsBlank(lines[i]) {
            continue;
          }
          errorsOut := errorsOut + [prefix + lines[i]];
        }
        assert lines[..|lines|] == lines;
        // glDeleteShader on the failed name is a driver call outside the model
      } else {
        rc := gl.handle;
      }
      SetShaderId(rc);
      ok := rc != 0;
    }

    /** ParseUniformsAndAttributes: both lists start empty and are filled line
        by line; an exception leaves the lines scanned so far in them. */
    method ParseUniformsAndAttributes() returns (threw: bool)
      requires Valid()
      modifies this
      ensures Valid() && code == old(code) && shaderId == old(shaderId)
      ensures uniforms == Some(ParseCode(code).uniforms)
      ensures vertexAttributes == Some(ParseCode(code).attributes)
      ensures threw == ParseCode(code).threw
    {
      uniforms := Some([]);
      vertexAttributes := Some([]);
      threw := false;
      if IsBlank(code) {
        return;
      }
      var lines := Lines(code);
      ghost var fs := FactsOfLines(lines);
      var i := 0;
      while i < |lines|
        invariant 0 <= i <= |lines|
        invariant code == old(code) && shaderId == old(shaderId)
        invariant !ScanLines(fs[..i]).threw
        invariant uniforms == Some(ScanLines(fs[..i]).uniforms)
        invariant vertexAttributes == Some(ScanLines(fs[..i]).attributes)
      {
        ScanLinesStep(fs, i);
        assert fs[i] == FactsOf(lines[i]);
        threw := ParseLine(lines[i]);
        if threw {
          ScanStopsAtThrow(fs, i + 1);
          return;
        }
        i := i + 1;
      }
      assert fs[..i] == fs;
    }

    /** One pass of the scan loop: the uniform test, then the two attribute
        tests, appending to the lists; `threw` reports an exception. */
    method ParseLine(line: string) returns (threw: bool)
      requires uniforms.Some? && vertexAttributes.Some?
      modifies this
      ensures code == old(code) && shaderId == old(shaderId)
      ensures uniforms.Some? && vertexAttributes.Some?
      ensures Scan(uniforms.value, vertexAttributes.value, threw)
           == ScanLine(Scan(old(uniforms.value), old(vertexAttributes.value), false), FactsOf(line))
    {
      threw := false;
      KeywordsExclusive(line);
      var u := UniformOfLine(line);
      if u.Some? {
        uniforms := Some(uniforms.value + [u.value]);
      }
      if StartsWith(line, LayoutKeyword) {
        var a := LayoutLine(line);
        if a.Fails? {
          threw := true;
          return;
        }
        if a.Declared? {
          vertexAttributes := Some(vertexAttributes.value + [a.attribute]);
        }
      }
      if StartsWith(line, AttributeKeyword) {
        var a := AttributeLine(line);
        if a.Fails? {
          threw := true;
          return;
        }
        vertexAttributes := Some(vertexAttributes.value + [a.attribute]);
      }
    }

    /** GetUniforms: scans only when the cache is empty. */
    method GetUniforms() returns (r: Outcome<seq<UniformDescription>>)
      requires Valid()
      modifies this
      ensures Valid() && code == old(code) && shaderId == old(shaderId)
      ensures r == old(UniformsQuery())
      ensures uniforms.Some? && vertexAttributes.Some?
      ensures old(uniforms).Some? ==> uniforms == old(uniforms) && vertexAttributes == old(vertexAttributes)
    {
      if uniforms.None? {
        var threw := ParseUniformsAndAttributes();
        if threw {
          return Threw;
        }
      }
      r := Returned(uniforms.value);
    }

    /** GetVertexAttributes: scans only when the cache is empty. */
    method GetVertexAttributes() returns (r: Outcome<seq<AttributeDescription>>)
      requires Valid()
      modifies this
      ensures Valid() && code == old(code) && shaderId == old(shaderId)
      ensures r == old(AttributesQuery())
      ensures uniforms.Some? && vertexAttributes.Some?
      ensures old(vertexAttributes).Some? ==> uniforms == old(uniforms) && vertexAttributes == old(vertexAttributes)
    {
      if vertexAttributes.None? {
        var threw := ParseUniformsAndAttributes();
        if threw {
          return Threw;
        }
      }
      r := Returned(vertexAttributes.value);
    }
  }

  /** Two calls of GetUniforms with no change in between: once a call has
      returned, the next returns the same list, and a second call never
      throws, because the first one filled the cache. */
  method RepeatedGetUniforms(s: Shader) returns (first: Outcome<seq<UniformDescription>>, second: Outcome<seq<UniformDescription>>)
    requires s.Valid()
    modifies s
    ensures s.Valid() && s.code == old(s.code) && s.shaderId == old(s.shaderId)
    ensures second == Returned(ParseCode(s.code).uniforms)
    ensures first.Returned? ==> second == first
  {
    first := s.GetUniforms();
    second := s.GetUniforms();
  }

  /** The same for GetVertexAttributes. */
  method RepeatedGetVertexAttributes(s: Shader) returns (first: Outcome<seq<AttributeDescription>>, second: Outcome<seq<AttributeDescription>>)
    requires s.Valid()
    modifies s
    ensures s.Valid() && s.code == old(s.code) && s.shaderId == old(s.shaderId)
    ensures second == Returned(ParseCode(s.code).attributes)
    ensures first.Returned? ==> second == first
  {
    first := s.GetVertexAttributes();
    second := s.GetVertexAttributes();
  }
}
