/** What the loop of `Run` guarantees, proved about `GeometryStep`,
    `GeometryFrom` and `Convert`. */
module RunProperties {
  import opened Results
  import opened Text
  import opened Geometry
  import opened ParserSpec
  import opened ParserProperties

  // =====================================================================
  // Dispatch
  // =====================================================================

  /** Empty lines and comment lines change nothing. */
  lemma SkippedLines(st: ParserState, active: Option<Material>, line: string,
                     files: map<string, seq<string>>)
    requires line == "" || line[0] == '#'
    ensures GeometryStep(st, active, line, files) == Ok((st, active))
  {
  }

  /** A line that starts with none of `mtllib`, `v`, `usemtl` and `f` changes
      nothing. */
  lemma UnknownDirective(st: ParserState, active: Option<Material>, line: string,
                         files: map<string, seq<string>>)
    requires !StartsWith(line, "mtllib") && !StartsWith(line, "v")
    requires !StartsWith(line, "usemtl") && !StartsWith(line, "f")
    ensures GeometryStep(st, active, line, files) == Ok((st, active))
  {
  }

  lemma FirstChar(line: string, prefix: string)
    requires |prefix| >= 1 && StartsWith(line, prefix)
    ensures line != "" && line[0] == prefix[0]
  {
    assert line[..|prefix|][0] == prefix[0];
  }

  /** Prefixes that begin with different characters exclude each other. */
  lemma OtherPrefix(line: string, prefix: string, other: string)
    requires |prefix| >= 1 && |other| >= 1 && prefix[0] != other[0] && StartsWith(line, prefix)
    ensures !StartsWith(line, other)
  {
    FirstChar(line, prefix);
    if StartsWith(line, other) {
      FirstChar(line, other);
    }
  }

  /** An `mtllib` line only ever loads materials: it is dispatched before the
      `v` test, adds no vertex and no face and keeps the active material; a
      line with no second field fails. */
  lemma MtllibLine(st: ParserState, active: Option<Material>, line: string,
                   files: map<string, seq<string>>)
    requires StartsWith(line, "mtllib")
    ensures |Split(line)| < 2 ==> GeometryStep(st, active, line, files) == Err(IndexOutOfRange)
    ensures |Split(line)| >= 2 ==>
              GeometryStep(st, active, line, files)
              == (var lib :- MaterialsOf(st.Lib(), Split(line)[1], files); Ok((st.WithLib(lib), active)))
    ensures GeometryStep(st, active, line, files).Ok? ==>
              GeometryStep(st, active, line, files).value.0.vertices == st.vertices
              && GeometryStep(st, active, line, files).value.0.faces == st.faces
              && GeometryStep(st, active, line, files).value.1 == active
  {
    FirstChar(line, "mtllib");
  }

  /** An `mtllib` line whose path field is blank does nothing. */
  lemma BlankMtllib(st: ParserState, active: Option<Material>, line: string,
                    files: map<string, seq<string>>)
    requires StartsWith(line, "mtllib") && |Split(line)| >= 2 && Split(line)[1] == ""
    ensures GeometryStep(st, active, line, files) == Ok((st, active))
  {
    FirstChar(line, "mtllib");
    assert st.WithLib(st.Lib()) == st;
  }

  // =====================================================================
  // Vertices
  // =====================================================================

  /** A `v` line appends the vertex its text after the first two characters
      gives, or fails. */
  lemma VertexLine(st: ParserState, active: Option<Material>, line: string,
                   files: map<string, seq<string>>)
    requires StartsWith(line, "v")
    ensures |line| < 2 ==> GeometryStep(st, active, line, files) == Err(ArgumentOutOfRange)
    ensures |line| >= 2 ==>
              GeometryStep(st, active, line, files)
              == (var v :- VertexOf(line[2..]); Ok((st.(vertices := st.vertices + [v]), active)))
  {
    FirstChar(line, "v");
  }

  /** `Vertex.ToString` and `ParseVertex` are inverse: the text of a vertex
      whose coordinates are space-free numbers parses back to it. */
  lemma VertexRoundTrip(v: Vertex)
    requires IsFloatText(v.x) && IsFloatText(v.y) && IsFloatText(v.z)
    requires ' ' !in v.x && ' ' !in v.y && ' ' !in v.z
    ensures VertexOf(VertexText(v)) == Ok(v)
  {
    VertexTextSplits(v);
  }

  /** Since the `v` test looks at one character only, `vn` and `vt` lines
      (and a `v` line with two spaces) reach `ParseVertex` with a leading
      space, whose empty first field `Single.Parse` rejects. */
  lemma SpacedVertexLineFails(st: ParserState, active: Option<Material>, line: string,
                              files: map<string, seq<string>>)
    requires StartsWith(line, "v") && |line| >= 3 && line[2] == ' '
    ensures GeometryStep(st, active, line, files) == Err(BadFormat(""))
  {
    FirstChar(line, "v");
    var text := line[2..];
    assert text[0] == ' ';
    assert Split(text)[0] == "";
    assert !IsFloatText("");
  }

  /** The vertex-normal line of the usual OBJ export fails. */
  lemma NormalLineFails(st: ParserState, active: Option<Material>, files: map<string, seq<string>>)
    ensures GeometryStep(st, active, "vn 0 1 0", files) == Err(BadFormat(""))
  {
    assert StartsWith("vn 0 1 0", "v");
    SpacedVertexLineFails(st, active, "vn 0 1 0", files);
  }

  // =====================================================================
  // Faces
  // =====================================================================

  /** Field `k` is present and is a 32-bit integer. */
  predicate IndexField(fields: seq<string>, k: nat) {
    k < |fields| && ParseInt32(fields[k]).Ok?
  }

  /** The 0-based index field `k` gives: one less than its value, in 32-bit
      arithmetic. */
  function IndexAt(fields: seq<string>, k: nat): int
    requires IndexField(fields, k)
  {
    Decrement(ParseInt32(fields[k]).value)
  }

  /** A face line succeeds exactly when there is an active material and
      the first three fields (four, when there are exactly four) are
      integers; its indices are those fields less one, and a triangle
      repeats its third index. */
  lemma FaceIndices(text: string, table: map<string, int>, active: Option<Material>)
    ensures active.None? ==> FaceOf(text, table, active) == Err(NullReference)
    ensures FaceOf(text, table, active).Ok?
            <==> active.Some? && IndexField(Split(text), 0) && IndexField(Split(text), 1)
                 && IndexField(Split(text), 2) && (|Split(text)| == 4 ==> IndexField(Split(text), 3))
    ensures FaceOf(text, table, active).Ok? ==>
              var f := FaceOf(text, table, active).value;
              var fields := Split(text);
              |fields| >= 3
              && f.v1 == IndexAt(fields, 0) && f.v2 == IndexAt(fields, 1) && f.v3 == IndexAt(fields, 2)
              && f.v4 == (if |fields| == 4 then IndexAt(fields, 3) else f.v3)
              && f.material == TryGetValue(table, active.value.id)
  {
  }

  /** The material index stored with a face is the position of the active
      material in the list, the only position holding a material with that
      id. */
  lemma FaceMaterialIsActive(lib: Library, active: Material)
    requires ValidLibrary(lib) && active in lib.materials
    ensures 0 <= TryGetValue(lib.materialIdTable, active.id) < |lib.materials|
    ensures lib.materials[TryGetValue(lib.materialIdTable, active.id)] == active
    ensures forall i :: 0 <= i < |lib.materials| && lib.materials[i].id == active.id ==>
              i == TryGetValue(lib.materialIdTable, active.id)
  {
    var i :| 0 <= i < |lib.materials| && lib.materials[i] == active;
    assert lib.materialIdTable[lib.materials[i].id] == i;
  }

  /** An `f` line appends one face whose material is the active one, and
      leaves the rest of the state as it was. */
  lemma FaceLine(st: ParserState, active: Option<Material>, line: string,
                 files: map<string, seq<string>>)
    requires StartsWith(line, "f")
    ensures |line| < 2 ==> GeometryStep(st, active, line, files) == Err(ArgumentOutOfRange)
    ensures |line| >= 2 ==>
              GeometryStep(st, active, line, files)
              == (var f :- FaceOf(line[2..], st.materialIdTable, active);
                  Ok((st.(faces := st.faces + [f]), active)))
  {
    FirstChar(line, "f");
    OtherPrefix(line, "f", "mtllib");
    OtherPrefix(line, "f", "v");
    OtherPrefix(line, "f", "usemtl");
  }

  /** A face with no active material dereferences null. */
  lemma FaceWithoutMaterialFails(st: ParserState, line: string, files: map<string, seq<string>>)
    requires StartsWith(line, "f")
    ensures GeometryStep(st, None, line, files).Err?
  {
    FaceLine(st, None, line, files);
  }

  /** No line other than `usemtl` changes the active material. */
  lemma OnlyUsemtlSelects(st: ParserState, active: Option<Material>, line: string,
                          files: map<string, seq<string>>)
    requires !StartsWith(line, "usemtl") && GeometryStep(st, active, line, files).Ok?
    ensures GeometryStep(st, active, line, files).value.1 == active
  {
  }

  /** An `f` line that comes before every `usemtl` line makes the run fail. */
  lemma {:induction false} FaceBeforeUsemtlFails(st: ParserState, pre: seq<string>, line: string,
                                                rest: seq<string>, files: map<string, seq<string>>)
    requires forall k :: 0 <= k < |pre| ==> !StartsWith(pre[k], "usemtl")
    requires StartsWith(line, "f")
    ensures GeometryFrom(st, None, pre + [line] + rest, files).Err?
    decreases |pre|
  {
    var lines := pre + [line] + rest;
    if pre == [] {
      assert lines[0] == line;
      FaceWithoutMaterialFails(st, line, files);
    } else {
      assert lines[0] == pre[0] && lines[1..] == pre[1..] + [line] + rest;
      if GeometryStep(st, None, pre[0], files).Ok? {
        OnlyUsemtlSelects(st, None, pre[0], files);
        var next := GeometryStep(st, None, pre[0], files).value;
        FaceBeforeUsemtlFails(next.0, pre[1..], line, rest, files);
      }
    }
  }

  // =====================================================================
  // usemtl
  // =====================================================================

  /** With a consistent table, `TryGetValue` never leaves -1 behind, so the
      `!= -1` guard of the `usemtl` branch never skips the selection. */
  lemma GuardNeverFires(lib: Library, key: string)
    requires ValidLibrary(lib)
    ensures TryGetValue(lib.materialIdTable, key) >= 0
  {
  }

  /** A `usemtl` line selects the material whose id is the text after
      `usemtl `; an unknown id selects the first material (the dictionary
      miss leaves 0), and with no materials at all that indexing fails, as
      does a line too short to hold the key. */
  lemma UsemtlLine(st: ParserState, active: Option<Material>, line: string,
                   files: map<string, seq<string>>)
    requires StartsWith(line, "usemtl") && ValidLibrary(st.Lib())
    ensures |line| < 7 ==> GeometryStep(st, active, line, files) == Err(ArgumentOutOfRange)
    ensures |line| >= 7 && line[7..] in st.materialIdTable ==>
              var i := st.materialIdTable[line[7..]];
              0 <= i < |st.materials| && st.materials[i].id == line[7..]
              && GeometryStep(st, active, line, files) == Ok((st, Some(st.materials[i])))
    ensures |line| >= 7 && line[7..] !in st.materialIdTable && st.materials != [] ==>
              GeometryStep(st, active, line, files) == Ok((st, Some(st.materials[0])))
    ensures |line| >= 7 && line[7..] !in st.materialIdTable && st.materials == [] ==>
              GeometryStep(st, active, line, files) == Err(ArgumentOutOfRange)
  {
    FirstChar(line, "usemtl");
    assert !StartsWith(line, "f");
  }

  // =====================================================================
  // The run invariant
  // =====================================================================

  /** The table is consistent, every material has the emission the `Light`
      rule gives its id, the active material is one of the list's and every
      face's material index points into the list. */
  predicate RunInvariant(st: ParserState, active: Option<Material>) {
    ValidLibrary(st.Lib())
    && AllWellLit(st.materials)
    && (active.Some? ==> active.value in st.materials)
    && forall k :: 0 <= k < |st.faces| ==> 0 <= st.faces[k].material < |st.materials|
  }

  lemma EmptyStateInvariant()
    ensures RunInvariant(EmptyState, None)
  {
  }

  lemma MtllibKeepsInvariant(st: ParserState, active: Option<Material>, line: string,
                             files: map<string, seq<string>>)
    requires RunInvariant(st, active) && StartsWith(line, "mtllib")
    requires GeometryStep(st, active, line, files).Ok?
    ensures RunInvariant(GeometryStep(st, active, line, files).value.0,
                         GeometryStep(st, active, line, files).value.1)
  {
    MtllibLine(st, active, line, files);
    var path := Split(line)[1];
    var lib' := MaterialsOf(st.Lib(), path, files).value;
    MaterialsOfKeepsLibrary(st.Lib(), path, files);
    MaterialsOfExtends(st.Lib(), path, files);
    MaterialsOfEmission(st.Lib(), path, files);
    assert AllWellLit(lib'.materials) by {
      forall i | 0 <= i < |lib'.materials|
        ensures WellLit(lib'.materials[i])
      {
        assert lib'.materials[i] in lib'.materials;
      }
    }
    var next := st.WithLib(lib');
    assert GeometryStep(st, active, line, files).value == (next, active);
    if active.Some? {
      var i :| 0 <= i < |st.materials| && st.materials[i] == active.value;
      assert lib'.materials[i] == lib'.materials[..|st.materials|][i];
    }
  }

  /** Appending a face whose material is in range keeps every face's
      material in range. */
  lemma AppendFaceInRange(faces: seq<Face>, f: Face, count: int)
    requires forall k :: 0 <= k < |faces| ==> 0 <= faces[k].material < count
    requires 0 <= f.material < count
    ensures forall k :: 0 <= k < |faces + [f]| ==> 0 <= (faces + [f])[k].material < count
  {
    forall k | 0 <= k < |faces + [f]|
      ensures 0 <= (faces + [f])[k].material < count
    {
      if k < |faces| {
        assert (faces + [f])[k] == faces[k];
      }
    }
  }

  lemma FaceKeepsInvariant(st: ParserState, active: Option<Material>, line: string,
                           files: map<string, seq<string>>)
    requires RunInvariant(st, active) && StartsWith(line, "f")
    requires GeometryStep(st, active, line, files).Ok?
    ensures RunInvariant(GeometryStep(st, active, line, files).value.0,
                         GeometryStep(st, active, line, files).value.1)
  {
    FaceLine(st, active, line, files);
    var f := FaceOf(line[2..], st.materialIdTable, active).value;
    assert active.Some? && f.material == TryGetValue(st.materialIdTable, active.value.id) by {
      FaceIndices(line[2..], st.materialIdTable, active);
    }
    FaceMaterialIsActive(st.Lib(), active.value);
    AppendFaceInRange(st.faces, f, |st.materials|);
    assert GeometryStep(st, active, line, files).value == (st.(faces := st.faces + [f]), active);
  }

  lemma UsemtlKeepsInvariant(st: ParserState, active: Option<Material>, line: string,
                             files: map<string, seq<string>>)
    requires RunInvariant(st, active) && StartsWith(line, "usemtl")
    requires GeometryStep(st, active, line, files).Ok?
    ensures RunInvariant(GeometryStep(st, active, line, files).value.0,
                         GeometryStep(st, active, line, files).value.1)
  {
    UsemtlLine(st, active, line, files);
  }

  /** Each successful line keeps the invariant. */
  lemma StepKeepsInvariant(st: ParserState, active: Option<Material>, line: string,
                           files: map<string, seq<string>>)
    requires RunInvariant(st, active)
    requires GeometryStep(st, active, line, files).Ok?
    ensures RunInvariant(GeometryStep(st, active, line, files).value.0,
                         GeometryStep(st, active, line, files).value.1)
  {
    if StartsWith(line, "mtllib") {
      MtllibKeepsInvariant(st, active, line, files);
    } else if StartsWith(line, "v") {
      VertexLine(st, active, line, files);
    } else if StartsWith(line, "usemtl") {
      UsemtlKeepsInvariant(st, active, line, files);
    } else if StartsWith(line, "f") {
      FaceKeepsInvariant(st, active, line, files);
    } else {
      UnknownDirective(st, active, line, files);
    }
  }

  /** The invariant holds all along a successful run. */
  lemma {:induction false} RunKeepsInvariant(st: ParserState, active: Option<Material>,
                                            lines: seq<string>, files: map<string, seq<string>>)
    requires RunInvariant(st, active)
    requires GeometryFrom(st, active, lines, files).Ok?
    ensures RunInvariant(GeometryFrom(st, active, lines, files).value, None)
    decreases |lines|
  {
    if lines != [] {
      StepKeepsInvariant(st, active, lines[0], files);
      var next := GeometryStep(st, active, lines[0], files).value;
      RunKeepsInvariant(next.0, next.1, lines[1..], files);
    }
  }

  // =====================================================================
  // Counts
  // =====================================================================

  /** How many of the lines start with `prefix`. */
  function CountPrefixed(lines: seq<string>, prefix: string): nat {
    if lines == [] then 0
    else (if StartsWith(lines[0], prefix) then 1 else 0) + CountPrefixed(lines[1..], prefix)
  }

  /** The vertex a successful `v` line describes, as a list of zero or one. */
  function VertexOfLine(line: string): seq<Vertex> {
    if StartsWith(line, "v") && |line| >= 2 && VertexOf(line[2..]).Ok? then [VertexOf(line[2..]).value]
    else []
  }

  /** The vertices the lines describe, in file order. */
  function VerticesOf(lines: seq<string>): seq<Vertex> {
    if lines == [] then [] else VertexOfLine(lines[0]) + VerticesOf(lines[1..])
  }

  lemma StepCounts(st: ParserState, active: Option<Material>, line: string,
                   files: map<string, seq<string>>)
    requires GeometryStep(st, active, line, files).Ok?
    ensures var next := GeometryStep(st, active, line, files).value.0;
            next.vertices == st.vertices + VertexOfLine(line)
            && |VertexOfLine(line)| == (if StartsWith(line, "v") then 1 else 0)
            && |next.faces| == |st.faces| + (if StartsWith(line, "f") then 1 else 0)
  {
    if StartsWith(line, "mtllib") {
      MtllibLine(st, active, line, files);
      FirstChar(line, "mtllib");
      assert !StartsWith(line, "v") && !StartsWith(line, "f");
    } else if StartsWith(line, "v") {
      VertexLine(st, active, line, files);
      FirstChar(line, "v");
      assert !StartsWith(line, "f");
    } else if StartsWith(line, "f") {
      FaceLine(st, active, line, files);
    } else {
      assert st.vertices + [] == st.vertices;
    }
  }

  lemma GeometryFromUnfold(st: ParserState, active: Option<Material>, lines: seq<string>,
                           files: map<string, seq<string>>)
    requires lines != [] && GeometryFrom(st, active, lines, files).Ok?
    ensures GeometryStep(st, active, lines[0], files).Ok?
    ensures GeometryFrom(GeometryStep(st, active, lines[0], files).value.0,
                         GeometryStep(st, active, lines[0], files).value.1, lines[1..], files)
            == GeometryFrom(st, active, lines, files)
  {
  }

  /** A successful run appends the vertices of its `v` lines, in file order. */
  lemma {:induction false} RunVertices(st: ParserState, active: Option<Material>, lines: seq<string>,
                                      files: map<string, seq<string>>)
    requires GeometryFrom(st, active, lines, files).Ok?
    ensures GeometryFrom(st, active, lines, files).value.vertices == st.vertices + VerticesOf(lines)
    decreases |lines|
  {
    if lines == [] {
      assert st.vertices + [] == st.vertices;
    } else {
      GeometryFromUnfold(st, active, lines, files);
      StepCounts(st, active, lines[0], files);
      var next := GeometryStep(st, active, lines[0], files).value;
      RunVertices(next.0, next.1, lines[1..], files);
      AppendAssoc(st.vertices, VertexOfLine(lines[0]), VerticesOf(lines[1..]));
    }
  }

  /** In a successful run every `v` line gives exactly one vertex. */
  lemma {:induction false} RunVertexCount(st: ParserState, active: Option<Material>, lines: seq<string>,
                                         files: map<string, seq<string>>)
    requires GeometryFrom(st, active, lines, files).Ok?
    ensures |VerticesOf(lines)| == CountPrefixed(lines, "v")
    decreases |lines|
  {
    if lines != [] {
      GeometryFromUnfold(st, active, lines, files);
      StepCounts(st, active, lines[0], files);
      var next := GeometryStep(st, active, lines[0], files).value;
      RunVertexCount(next.0, next.1, lines[1..], files);
      assert |VerticesOf(lines)| == |VertexOfLine(lines[0])| + |VerticesOf(lines[1..])|;
    }
  }

  /** A successful run appends one face per `f` line. */
  lemma {:induction false} RunFaces(st: ParserState, active: Option<Material>, lines: seq<string>,
                                   files: map<string, seq<string>>)
    requires GeometryFrom(st, active, lines, files).Ok?
    ensures |GeometryFrom(st, active, lines, files).value.faces| == |st.faces| + CountPrefixed(lines, "f")
    decreases |lines|
  {
    if lines != [] {
      GeometryFromUnfold(st, active, lines, files);
      StepCounts(st, active, lines[0], files);
      var next := GeometryStep(st, active, lines[0], files).value;
      RunFaces(next.0, next.1, lines[1..], files);
    }
  }

  // =====================================================================
  // The whole conversion
  // =====================================================================

  /** A fresh parser converting `fileName`: the output goes to
      `fileName.parserout` and has the layout of the final state, which holds
      one vertex per `v` line in file order, one face per `f` line, distinct
      material ids, a consistent table and face material indices that point
      into the material list. */
  lemma ConversionSummary(fileName: string, files: map<string, seq<string>>)
    requires Convert(EmptyState, fileName, files).Ok?
    ensures fileName in files
    ensures var st := GeometryFrom(EmptyState, None, files[fileName], files);
            st.Ok?
            && Convert(EmptyState, fileName, files).value
               == OutputFile(fileName + ".parserout", Layout(st.value))
            && st.value.vertices == VerticesOf(files[fileName])
            && |st.value.vertices| == CountPrefixed(files[fileName], "v")
            && |st.value.faces| == CountPrefixed(files[fileName], "f")
            && RunInvariant(st.value, None)
            && NoDuplicates(Ids(st.value.materials))
  {
    var lines := files[fileName];
    EmptyStateInvariant();
    RunKeepsInvariant(EmptyState, None, lines, files);
    RunVertices(EmptyState, None, lines, files);
    RunVertexCount(EmptyState, None, lines, files);
    RunFaces(EmptyState, None, lines, files);
    var st := GeometryFrom(EmptyState, None, lines, files).value;
    assert [] + VerticesOf(lines) == VerticesOf(lines);
    ValidLibraryHasDistinctIds(st.Lib());
  }

  /** A `Kd` line printed from a colour of space-free numbers gives that
      colour to the material under construction and changes nothing else. */
  lemma KdRoundTrip(lib: Library, m: Material, c: Color)
    requires IsFloatText(c.r) && IsFloatText(c.g) && IsFloatText(c.b)
    requires ' ' !in c.r && ' ' !in c.g && ' ' !in c.b
    ensures MaterialStep(lib, Some(m), "Kd " + ColorText(c)) == Ok((lib, Some(m.(diffuse := c))))
  {
    var line := "Kd " + ColorText(c);
    var fields := ["Kd", c.r, c.g, c.b];
    ColorTextSplits(c);
    assert Join([c.r, c.g, c.b]) == ColorText(c) by {
      SplitJoin([c.r, c.g, c.b]);
    }
    assert fields[1..] == [c.r, c.g, c.b];
    assert Join(fields) == line;
    SplitJoin(fields);
    assert line[..2] == "Kd";
    assert !StartsWith(line, "newmtl") by {
      assert line[0] == 'K';
    }
  }
}
