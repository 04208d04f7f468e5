/** What each step of the `Parser` class computes, as functions of the state
    before the step. The methods of `ObjParser.Parser` are proved to compute
    exactly these; `ParserProperties` proves what they mean. Files are passed
    as a map from path to the file's lines. */
module ParserSpec {
  import opened Results
  import opened Text
  import opened Geometry

  /** The materials list and the id-to-position dictionary, which the material
      parser always updates together. */
  datatype Library = Library(materials: seq<Material>, materialIdTable: map<string, int>)

  /** The four fields of a `Parser` object. */
  datatype ParserState = ParserState(
    faces: seq<Face>,
    vertices: seq<Vertex>,
    materials: seq<Material>,
    materialIdTable: map<string, int>)
  {
    function Lib(): Library {
      Library(materials, materialIdTable)
    }

    function WithLib(lib: Library): ParserState {
      this.(materials := lib.materials, materialIdTable := lib.materialIdTable)
    }
  }

  /** The state of `new Parser()`. */
  const EmptyState: ParserState := ParserState([], [], [], map[])

  /** The file the converter writes: its path and its lines. */
  datatype OutputFile = OutputFile(path: string, lines: seq<string>)

  /** `table.TryGetValue(key, out id)` as the converter reads `id` afterwards:
      the stored value on a hit, `default(int)` (0) on a miss. */
  function TryGetValue(table: map<string, int>, key: string): int {
    if key in table then table[key] else 0
  }

  /** `float.Parse(fields[k])`. */
  function FloatField(fields: seq<string>, k: nat): Result<string> {
    if k >= |fields| then Err(IndexOutOfRange)
    else if IsFloatText(fields[k]) then Ok(fields[k])
    else Err(BadFormat(fields[k]))
  }

  /** `int.Parse(fields[k])`. */
  function IntField(fields: seq<string>, k: nat): Result<int> {
    if k >= |fields| then Err(IndexOutOfRange) else ParseInt32(fields[k])
  }

  /** `n - 1` in C#'s default unchecked 32-bit arithmetic. */
  function Decrement(n: int): (r: int)
    requires IsInt32(n)
    ensures IsInt32(r) && (n - 1 - r) % 0x1_0000_0000 == 0
  {
    if n == MinInt32 then MaxInt32 else n - 1
  }

  // ---------------------------------------------------------------------
  // Vertices and faces
  // ---------------------------------------------------------------------

  /** `ParseVertex(text)`: the first three space-separated fields, each of
      which must be a number; further fields are ignored. */
  function VertexOf(text: string): (r: Result<Vertex>)
    ensures r.Ok? <==> |Split(text)| >= 3 && IsFloatText(Split(text)[0])
                       && IsFloatText(Split(text)[1]) && IsFloatText(Split(text)[2])
    ensures r.Ok? ==> r.value == Vertex(Split(text)[0], Split(text)[1], Split(text)[2])
  {
    var fields := Split(text);
    var x :- FloatField(fields, 0);
    var y :- FloatField(fields, 1);
    var z :- FloatField(fields, 2);
    Ok(Vertex(x, y, z))
  }

  /** `ParseFace(text, active)`: the material is looked up through the active
      material's id (a null active material throws); four fields give a
      quadrilateral, any other number a triangle whose third index is
      repeated. Every index is decremented from 1-based to 0-based. */
  function FaceOf(text: string, table: map<string, int>, active: Option<Material>): Result<Face> {
    var fields := Split(text);
    if active.None? then Err(NullReference)
    else
      var materialID := TryGetValue(table, active.value.id);
      if |fields| == 4 then
        var a :- IntField(fields, 0);
        var b :- IntField(fields, 1);
        var c :- IntField(fields, 2);
        var d :- IntField(fields, 3);
        Ok(Face(Decrement(a), Decrement(b), Decrement(c), Decrement(d), materialID))
      else
        var a :- IntField(fields, 0);
        var b :- IntField(fields, 1);
        var c :- IntField(fields, 2);
        // the source parses the third field a second time, which gives the same value
        Ok(Face(Decrement(a), Decrement(b), Decrement(c), Decrement(c), materialID))
  }

  // ---------------------------------------------------------------------
  // Materials
  // ---------------------------------------------------------------------

  /** Saving the material under construction: `materials.Add` and then
      `materialIdTable.Add(id, materials.Count - 1)`, which throws on an id
      that is already a key. */
  function Finalize(lib: Library, current: Option<Material>): Result<Library> {
    if current.None? then Ok(lib)
    else
      var materials := lib.materials + [current.value];
      if current.value.id in lib.materialIdTable then Err(DuplicateKey(current.value.id))
      else Ok(Library(materials, lib.materialIdTable[current.value.id := |materials| - 1]))
  }

  /** One line of a material file, given the material under construction. */
  function MaterialStep(lib: Library, current: Option<Material>, line: string)
    : Result<(Library, Option<Material>)>
  {
    if StartsWith(line, "newmtl") then
      var saved :- Finalize(lib, current);
      var fields := Split(line);
      if |fields| < 2 then Err(IndexOutOfRange)
      else
        var m := NewMaterial(fields[1]);
        Ok((saved, Some(if StartsWith(m.id, "Light") then m.(emissive := LightEmission) else m)))
    else if StartsWith(line, "Kd") then
      var colors := Split(line);
      // the colour is built before it is stored through the (possibly null) material
      var r :- FloatField(colors, 1);
      var g :- FloatField(colors, 2);
      var b :- FloatField(colors, 3);
      if current.None? then Err(NullReference)
      else Ok((lib, Some(current.value.(diffuse := Color(r, g, b)))))
    else
      Ok((lib, current))
  }

  /** The loop of `ParseMaterials` over the remaining lines, then the save of
      the last material. */
  function MaterialsFrom(lib: Library, current: Option<Material>, lines: seq<string>): Result<Library>
    decreases |lines|
  {
    if lines == [] then Finalize(lib, current)
    else
      var next :- MaterialStep(lib, current, lines[0]);
      MaterialsFrom(next.0, next.1, lines[1..])
  }

  /** `ParseMaterials(fileName)`: a blank name is skipped. */
  function MaterialsOf(lib: Library, fileName: string, files: map<string, seq<string>>): Result<Library> {
    if fileName == "" then Ok(lib)
    else if fileName !in files then Err(FileNotFound(fileName))
    else MaterialsFrom(lib, None, files[fileName])
  }

  // ---------------------------------------------------------------------
  // The geometry file
  // ---------------------------------------------------------------------

  /** The `usemtl` branch of `Run`: the key after the seven-character prefix
      is looked up; a miss leaves the id at 0, not -1, so the list is indexed
      on a miss too. */
  function UseMaterial(lib: Library, line: string, active: Option<Material>): Result<Option<Material>> {
    var key :- Substring(line, 7);
    var materialID := TryGetValue(lib.materialIdTable, key);
    if materialID != -1 then
      if 0 <= materialID < |lib.materials| then Ok(Some(lib.materials[materialID]))
      else Err(ArgumentOutOfRange)
    else Ok(active)
  }

  /** One iteration of the loop of `Run`: the new state and active material. */
  function GeometryStep(st: ParserState, active: Option<Material>, line: string,
                        files: map<string, seq<string>>): Result<(ParserState, Option<Material>)>
  {
    if line == "" then Ok((st, active))
    else if line[0] == '#' then Ok((st, active))
    else if StartsWith(line, "mtllib") then
      var fields := Split(line);
      if |fields| < 2 then Err(IndexOutOfRange)
      else
        var lib :- MaterialsOf(st.Lib(), fields[1], files);
        Ok((st.WithLib(lib), active))
    else if StartsWith(line, "v") then
      var text :- Substring(line, 2);
      var v :- VertexOf(text);
      Ok((st.(vertices := st.vertices + [v]), active))
    else
      // no `continue` after the usemtl branch: the `f` test follows it
      var selected :- if StartsWith(line, "usemtl") then UseMaterial(st.Lib(), line, active) else Ok(active);
      if StartsWith(line, "f") then
        var text :- Substring(line, 2);
        var face :- FaceOf(text, st.materialIdTable, selected);
        Ok((st.(faces := st.faces + [face]), selected))
      else
        Ok((st, selected))
  }

  /** The loop of `Run` over the remaining lines. */
  function GeometryFrom(st: ParserState, active: Option<Material>, lines: seq<string>,
                        files: map<string, seq<string>>): Result<ParserState>
    decreases |lines|
  {
    if lines == [] then Ok(st)
    else
      var next :- GeometryStep(st, active, lines[0], files);
      GeometryFrom(next.0, next.1, lines[1..], files)
  }

  // ---------------------------------------------------------------------
  // Output
  // ---------------------------------------------------------------------

  /** The rows `WriteToFile` writes for the vertices, one per vertex. */
  function VertexRows(vs: seq<Vertex>): seq<string> {
    if vs == [] then [] else VertexRows(vs[..|vs| - 1]) + [VertexText(vs[|vs| - 1])]
  }

  /** The four rows of one material: its id after `# `, the diffuse colour,
      the emissive colour and a blank line. */
  function MaterialLines(m: Material): seq<string> {
    ["# " + m.id, ColorText(m.diffuse), ColorText(m.emissive), ""]
  }

  function MaterialRows(ms: seq<Material>): seq<string> {
    if ms == [] then [] else MaterialRows(ms[..|ms| - 1]) + MaterialLines(ms[|ms| - 1])
  }

  /** The four rows of one face: its material's position, the patch count 1,
      its four indices and a blank line. */
  function FaceLines(f: Face): seq<string> {
    [IntToString(f.material), "1", FaceText(f), ""]
  }

  function FaceRows(fs: seq<Face>): seq<string> {
    if fs == [] then [] else FaceRows(fs[..|fs| - 1]) + FaceLines(fs[|fs| - 1])
  }

  /** The lines `WriteToFile` writes. */
  function Layout(st: ParserState): seq<string> {
    ["# Number of vertices", IntToString(|st.vertices|), ""] + VertexRows(st.vertices) + [""]
    + ["# Number of material", IntToString(|st.materials|), ""] + MaterialRows(st.materials) + [""]
    + ["# Number of faces", IntToString(|st.faces|), ""] + FaceRows(st.faces) + [""]
  }

  /** `Run(fileName)` on a parser in state `st`. */
  function Convert(st: ParserState, fileName: string, files: map<string, seq<string>>): Result<OutputFile> {
    if fileName !in files then Err(FileNotFound(fileName))
    else
      var parsed :- GeometryFrom(st, None, files[fileName], files);
      Ok(OutputFile(fileName + ".parserout", Layout(parsed)))
  }
}
