/** A whole conversion worked through on a small scene: two vertices, a
    material file with one red material, and one triangle that uses it.
    The lemmas take the scene's constants as parameters pinned by `requires`,
    so that the verifier unfolds the functions on symbols rather than on
    literal lines, on which it would evaluate them eagerly and at great cost. */
module Scenarios {
  import opened Results
  import opened Text
  import opened Geometry
  import opened ParserSpec
  import opened ParserProperties
  import opened RunProperties

  const SceneLines: seq<string> := ["v 1 2 3", "v 4 5 6", "mtllib mat.mtl", "usemtl Red", "f 1 2 2"]
  const MaterialFileLines: seq<string> := ["newmtl Red", "Kd 1 0 0"]
  const SceneFiles: map<string, seq<string>> := map["scene.obj" := SceneLines, "mat.mtl" := MaterialFileLines]

  const RedColor: Color := Color("1", "0", "0")
  const Red: Material := Material("Red", RedColor, Black)
  const Triangle: Face := Face(0, 1, 1, 1, 0)

  /** The lines the converter writes for the scene. */
  const SceneOutput: seq<string> :=
    ["# Number of vertices", "2", ""] + ["1 2 3", "4 5 6"] + [""]
    + ["# Number of material", "1", ""] + ["# Red", "1 0 0", "0 0 0", ""] + [""]
    + ["# Number of faces", "1", ""] + ["0", "1", "0 1 1 1", ""] + [""]

  /** A step that succeeds hands its result to the rest of the loop. */
  lemma GeometryCons(st: ParserState, active: Option<Material>, lines: seq<string>,
                     files: map<string, seq<string>>, st': ParserState, active': Option<Material>)
    requires lines != [] && GeometryStep(st, active, lines[0], files) == Ok((st', active'))
    ensures GeometryFrom(st, active, lines, files) == GeometryFrom(st', active', lines[1..], files)
  {
  }

  lemma MaterialsCons(lib: Library, current: Option<Material>, lines: seq<string>,
                      lib': Library, current': Option<Material>)
    requires lines != [] && MaterialStep(lib, current, lines[0]) == Ok((lib', current'))
    ensures MaterialsFrom(lib, current, lines) == MaterialsFrom(lib', current', lines[1..])
  {
  }

  lemma SmallNumbers()
    ensures IntToString(0) == "0" && IntToString(1) == "1" && IntToString(2) == "2"
  {
  }

  lemma SmallParses()
    ensures ParseInt32("1") == Ok(1) && ParseInt32("2") == Ok(2)
  {
    SmallNumbers();
    ParseIntToString(1);
    ParseIntToString(2);
  }

  lemma Digits()
    ensures IsFloatText("0") && IsFloatText("1") && IsFloatText("2") && IsFloatText("3")
    ensures IsFloatText("4") && IsFloatText("5") && IsFloatText("6")
  {
  }

  /** The first material-file line is a `newmtl` line naming `Red`. */
  lemma NewmtlSplit(line: string)
    requires line == MaterialFileLines[0]
    ensures StartsWith(line, "newmtl") && Split(line) == ["newmtl", "Red"]
  {
    var fields := ["newmtl", "Red"];
    assert fields[1..] == ["Red"];
    assert Join(fields) == line;
    SplitJoin(fields);
  }

  /** `newmtl Red` starts a material with black diffuse and emissive colours. */
  lemma NewmtlRed(lib: Library, line: string)
    requires StartsWith(line, "newmtl") && Split(line) == ["newmtl", "Red"]
    ensures MaterialStep(lib, None, line) == Ok((lib, Some(Material("Red", Black, Black))))
  {
    assert Split(line)[1] == "Red";
    assert !StartsWith("Red", "Light");
  }

  /** `Kd 1 0 0` makes it red. */
  lemma KdRed(lib: Library, line: string)
    requires line == MaterialFileLines[1]
    ensures MaterialStep(lib, Some(Material("Red", Black, Black)), line) == Ok((lib, Some(Red)))
  {
    Digits();
    assert line == "Kd " + ColorText(RedColor);
    KdRoundTrip(lib, Material("Red", Black, Black), RedColor);
  }

  /** The end of the material file saves the red material at position 0. */
  lemma FinalizeRed(lib: Library)
    requires lib == Library([], map[])
    ensures Finalize(lib, Some(Red)) == Ok(Library([Red], map["Red" := 0]))
  {
    assert Red.id == "Red" && Red.id !in lib.materialIdTable;
    assert lib.materials + [Red] == [Red];
    var table := lib.materialIdTable[Red.id := 0];
    assert table.Keys == {"Red"} && table["Red"] == 0;
    assert table == map["Red" := 0];
  }

  lemma MaterialFile(lib: Library, lines: seq<string>)
    requires lib == Library([], map[]) && lines == MaterialFileLines
    ensures MaterialsFrom(lib, None, lines) == Ok(Library([Red], map["Red" := 0]))
  {
    var black := Material("Red", Black, Black);
    NewmtlSplit(lines[0]);
    NewmtlRed(lib, lines[0]);
    MaterialsCons(lib, None, lines, lib, Some(black));
    KdRed(lib, lines[1..][0]);
    MaterialsCons(lib, Some(black), lines[1..], lib, Some(Red));
    assert lines[1..][1..] == [];
    FinalizeRed(lib);
  }

  /** The text `1 2 2` after `f ` names the first vertex once and the second
      twice; the indices become 0-based. */
  lemma FaceStep(text: string, table: map<string, int>, m: Material)
    requires Split(text) == ["1", "2", "2"]
    ensures FaceOf(text, table, Some(m)) == Ok(Face(0, 1, 1, 1, TryGetValue(table, m.id)))
  {
    var fields := Split(text);
    assert |fields| == 3 && fields[0] == "1" && fields[1] == "2" && fields[2] == "2";
    SmallParses();
    assert IndexField(fields, 0) && IndexField(fields, 1) && IndexField(fields, 2);
    assert IndexAt(fields, 0) == 0 && IndexAt(fields, 1) == 1 && IndexAt(fields, 2) == 1;
    FaceIndices(text, table, Some(m));
  }

  /** Coordinates the vertex text round trip applies to. */
  predicate PlainVertex(v: Vertex) {
    IsFloatText(v.x) && IsFloatText(v.y) && IsFloatText(v.z)
    && ' ' !in v.x && ' ' !in v.y && ' ' !in v.z
  }

  lemma VertexStep(st: ParserState, line: string, v: Vertex, files: map<string, seq<string>>)
    requires line == "v " + VertexText(v) && PlainVertex(v)
    ensures GeometryStep(st, None, line, files) == Ok((st.(vertices := st.vertices + [v]), None))
  {
    assert StartsWith(line, "v") && |line| >= 2 && line[2..] == VertexText(v);
    VertexLine(st, None, line, files);
    VertexRoundTrip(v);
  }

  lemma MtllibSplit(line: string)
    requires line == SceneLines[2]
    ensures StartsWith(line, "mtllib") && Split(line) == ["mtllib", "mat.mtl"]
  {
    var fields := ["mtllib", "mat.mtl"];
    assert fields[1..] == ["mat.mtl"];
    assert Join(fields) == line;
    SplitJoin(fields);
  }

  /** `mtllib mat.mtl` loads the red material into an empty library. */
  lemma MtllibStep(vs: seq<Vertex>, line: string, files: map<string, seq<string>>)
    requires StartsWith(line, "mtllib") && Split(line) == ["mtllib", "mat.mtl"]
    requires "mat.mtl" in files && files["mat.mtl"] == MaterialFileLines
    ensures GeometryStep(ParserState([], vs, [], map[]), None, line, files)
            == Ok((ParserState([], vs, [Red], map["Red" := 0]), None))
  {
    var st := ParserState([], vs, [], map[]);
    MaterialFile(st.Lib(), files["mat.mtl"]);
    MtllibLine(st, None, line, files);
  }

  /** `usemtl Red` selects the material stored at position 0. */
  lemma UsemtlStep(vs: seq<Vertex>, line: string, files: map<string, seq<string>>)
    requires line == SceneLines[3]
    ensures GeometryStep(ParserState([], vs, [Red], map["Red" := 0]), None, line, files)
            == Ok((ParserState([], vs, [Red], map["Red" := 0]), Some(Red)))
  {
    var st := ParserState([], vs, [Red], map["Red" := 0]);
    assert ValidLibrary(st.Lib()) by {
      assert NoDuplicates(Ids(st.materials)) by {
        assert Ids(st.materials) == ["Red"];
      }
    }
    assert line[7..] == "Red";
    UsemtlLine(st, None, line, files);
  }

  /** `f 1 2 2` adds the triangle with material 0. */
  lemma FaceLineStep(vs: seq<Vertex>, line: string, files: map<string, seq<string>>)
    requires line == SceneLines[4]
    ensures GeometryStep(ParserState([], vs, [Red], map["Red" := 0]), Some(Red), line, files)
            == Ok((ParserState([Triangle], vs, [Red], map["Red" := 0]), Some(Red)))
  {
    var st := ParserState([], vs, [Red], map["Red" := 0]);
    var fields := ["1", "2", "2"];
    assert Split(line[2..]) == fields by {
      assert fields[1..] == ["2", "2"] && fields[1..][1..] == ["2"];
      assert Join(fields) == line[2..];
      SplitJoin(fields);
    }
    FaceLine(st, Some(Red), line, files);
    FaceStep(line[2..], st.materialIdTable, Red);
    assert st.faces + [Triangle] == [Triangle];
  }

  const V1: Vertex := Vertex("1", "2", "3")
  const V2: Vertex := Vertex("4", "5", "6")

  lemma SceneVertices()
    ensures PlainVertex(V1) && PlainVertex(V2)
  {
    Digits();
  }

  lemma SceneVertexLines(l0: string, l1: string)
    requires l0 == SceneLines[0] && l1 == SceneLines[1]
    ensures l0 == "v " + VertexText(V1) && l1 == "v " + VertexText(V2)
  {
  }

  lemma FirstVertexStep(st: ParserState, line: string, files: map<string, seq<string>>)
    requires st == EmptyState && line == "v " + VertexText(V1)
    ensures GeometryStep(st, None, line, files) == Ok((ParserState([], [V1], [], map[]), None))
  {
    SceneVertices();
    VertexStep(st, line, V1, files);
    assert st.vertices + [V1] == [V1];
  }

  lemma SecondVertexStep(line: string, files: map<string, seq<string>>)
    requires line == "v " + VertexText(V2)
    ensures GeometryStep(ParserState([], [V1], [], map[]), None, line, files)
            == Ok((ParserState([], [V1, V2], [], map[]), None))
  {
    SceneVertices();
    VertexStep(ParserState([], [V1], [], map[]), line, V2, files);
    assert [V1] + [V2] == [V1, V2];
  }

  /** The last three lines: the material file, its selection and the face. */
  lemma SceneMaterialStage(vs: seq<Vertex>, lines: seq<string>, files: map<string, seq<string>>)
    requires lines == SceneLines[2..] && "mat.mtl" in files && files["mat.mtl"] == MaterialFileLines
    ensures GeometryFrom(ParserState([], vs, [], map[]), None, lines, files)
            == Ok(ParserState([Triangle], vs, [Red], map["Red" := 0]))
  {
    var l4, l5 := lines[1..], lines[2..];
    assert l4[1..] == l5 && l5[1..] == [];
    var st2 := ParserState([], vs, [], map[]);
    var st3 := ParserState([], vs, [Red], map["Red" := 0]);
    var st4 := ParserState([Triangle], vs, [Red], map["Red" := 0]);
    MtllibSplit(lines[0]);
    MtllibStep(vs, lines[0], files);
    GeometryCons(st2, None, lines, files, st3, None);
    UsemtlStep(vs, l4[0], files);
    GeometryCons(st3, None, l4, files, st3, Some(Red));
    FaceLineStep(vs, l5[0], files);
    GeometryCons(st3, Some(Red), l5, files, st4, Some(Red));
  }

  /** The state after the scene's five lines. */
  lemma SceneParse(st: ParserState, l1: seq<string>, files: map<string, seq<string>>)
    requires st == EmptyState && l1 == SceneLines && "mat.mtl" in files && files["mat.mtl"] == MaterialFileLines
    ensures GeometryFrom(st, None, l1, files)
            == Ok(ParserState([Triangle], [V1, V2], [Red], map["Red" := 0]))
  {
    var l2, l3 := l1[1..], l1[2..];
    assert l2[1..] == l3;
    var st1 := ParserState([], [V1], [], map[]);
    var st2 := ParserState([], [V1, V2], [], map[]);
    SceneVertexLines(l1[0], l2[0]);
    FirstVertexStep(st, l1[0], files);
    GeometryCons(st, None, l1, files, st1, None);
    SecondVertexStep(l2[0], files);
    GeometryCons(st1, None, l2, files, st2, None);
    SceneMaterialStage([V1, V2], l3, files);
  }

  lemma SceneVertexRows(vs: seq<Vertex>)
    requires vs == [V1, V2]
    ensures VertexRows(vs) == ["1 2 3", "4 5 6"]
  {
    assert vs[..1] == [V1] && [V1][..0] == [];
    assert VertexText(V1) == "1 2 3" && VertexText(V2) == "4 5 6";
    assert VertexRows([V1]) == [] + ["1 2 3"];
    assert VertexRows(vs) == VertexRows([V1]) + ["4 5 6"];
  }

  lemma SceneMaterialRows(ms: seq<Material>)
    requires ms == [Red]
    ensures MaterialRows(ms) == ["# Red", "1 0 0", "0 0 0", ""]
  {
    assert ms[..0] == [];
    assert MaterialRows(ms) == MaterialLines(Red);
    assert "# " + Red.id == "# Red";
    assert ColorText(RedColor) == "1 0 0" && ColorText(Black) == "0 0 0";
  }

  lemma SceneFaceRows(fs: seq<Face>, f: Face)
    requires fs == [f] && f == Triangle
    ensures FaceRows(fs) == ["0", "1", "0 1 1 1", ""]
  {
    assert fs[..0] == [];
    assert FaceRows(fs) == FaceLines(f);
    assert f.v1 == 0 && f.v2 == 1 && f.v3 == 1 && f.v4 == 1 && f.material == 0;
    SmallNumbers();
    assert IntToString(f.material) == "0";
    assert FaceText(f) == "0 1 1 1" by {
      assert FaceText(f) == "0" + " " + "1" + " " + "1" + " " + "1";
    }
  }

  /** The lines written for the parsed scene. */
  lemma SceneLayout(parsed: ParserState)
    requires parsed == ParserState([Triangle], [V1, V2], [Red], map["Red" := 0])
    ensures Layout(parsed) == SceneOutput
  {
    SmallNumbers();
    SceneVertexRows(parsed.vertices);
    SceneMaterialRows(parsed.materials);
    SceneFaceRows(parsed.faces, Triangle);
  }

  /** The file the scene converts to. */
  lemma SceneConversion(st: ParserState, fileName: string, files: map<string, seq<string>>)
    requires st == EmptyState && fileName == "scene.obj" && files == SceneFiles
    ensures Convert(st, fileName, files) == Ok(OutputFile(fileName + ".parserout", SceneOutput))
  {
    assert files[fileName] == SceneLines && files["mat.mtl"] == MaterialFileLines;
    var parsed := ParserState([Triangle], [V1, V2], [Red], map["Red" := 0]);
    SceneParse(st, files[fileName], files);
    SceneLayout(parsed);
  }
}
