/** The `Parser` class: its four collections are fields that its methods grow
    in place, and each method is proved to compute what `ParserSpec` says the
    corresponding step of the converter computes. */
module ObjParser {
  import opened Results
  import opened Text
  import opened Geometry
  import opened ParserSpec

  class Parser {
    var faces: seq<Face>
    var vertices: seq<Vertex>
    var materials: seq<Material>
    var materialIdTable: map<string, int>

    function State(): ParserState
      reads this
    {
      ParserState(faces, vertices, materials, materialIdTable)
    }

    constructor ()
      ensures State() == EmptyState
    {
      faces := [];
      vertices := [];
      materials := [];
      materialIdTable := map[];
    }

    /** Converts the geometry file `fileName`, reading material files from
        `files` too, and returns the file it would write. */
    method Run(fileName: string, files: map<string, seq<string>>) returns (r: Result<OutputFile>)
      modifies this
      ensures r == Convert(old(State()), fileName, files)
      ensures r.Ok? ==> fileName in files
                        && GeometryFrom(old(State()), None, files[fileName], files) == Ok(State())
    {
      var currentActiveMaterial: Option<Material> := None;
      if fileName !in files {
        return Err(FileNotFound(fileName));
      }
      var lines := files[fileName];
      ghost var start := State();
      for i := 0 to |lines|
        invariant GeometryFrom(start, None, lines, files)
                  == GeometryFrom(State(), currentActiveMaterial, lines[i..], files)
      {
        var line := lines[i];
        assert lines[i..][0] == line && lines[i..][1..] == lines[i + 1..];
        if line == "" {
          continue;
        }
        if line[0] == '#' {
          continue;
        }
        if StartsWith(line, "mtllib") {
          var fields := Split(line);
          if |fields| < 2 {
            return Err(IndexOutOfRange);
          }
          var o := ParseMaterials(fields[1], files);
          if o.Fail? {
            return Err(o.error);
          }
          continue;
        }
        if StartsWith(line, "v") {
          var text := Substring(line, 2);
          if text.Err? {
            return Err(text.error);
          }
          var o := ParseVertex(text.value);
          if o.Fail? {
            return Err(o.error);
          }
          continue;
        }
        if StartsWith(line, "usemtl") {
          var materialKey := Substring(line, 7);
          if materialKey.Err? {
            return Err(materialKey.error);
          }
          var materialID := TryGetValue(materialIdTable, materialKey.value);
          if materialID != -1 {
            if !(0 <= materialID < |materials|) {
              return Err(ArgumentOutOfRange);
            }
            currentActiveMaterial := Some(materials[materialID]);
          }
        }
        if StartsWith(line, "f") {
          var text := Substring(line, 2);
          if text.Err? {
            return Err(text.error);
          }
          var o := ParseFace(text.value, currentActiveMaterial);
          if o.Fail? {
            return Err(o.error);
          }
        }
      }
      var output := WriteToFile(fileName + ".parserout");
      return Ok(output);
    }

    /** Appends the vertex given by the text after `v `. */
    method ParseVertex(text: string) returns (o: Outcome)
      modifies this
      ensures o == StatusOf(VertexOf(text))
      ensures o.Pass? ==> State() == old(State()).(vertices := old(vertices) + [VertexOf(text).value])
      ensures o.Fail? ==> State() == old(State())
    {
      var substring := Split(text);
      var x := FloatField(substring, 0);
      if x.Err? {
        return Fail(x.error);
      }
      var y := FloatField(substring, 1);
      if y.Err? {
        return Fail(y.error);
      }
      var z := FloatField(substring, 2);
      if z.Err? {
        return Fail(z.error);
      }
      vertices := vertices + [Vertex(x.value, y.value, z.value)];
      return Pass;
    }

    /** Appends the face given by the text after `f `, with the material
        `currentActiveMaterial` refers to. */
    method ParseFace(text: string, currentActiveMaterial: Option<Material>) returns (o: Outcome)
      modifies this
      ensures o == StatusOf(FaceOf(text, old(materialIdTable), currentActiveMaterial))
      ensures o.Pass? ==> State() == old(State()).(faces := old(faces)
                            + [FaceOf(text, old(materialIdTable), currentActiveMaterial).value])
      ensures o.Fail? ==> State() == old(State())
    {
      var substring := Split(text);
      if currentActiveMaterial.None? {
        return Fail(NullReference);
      }
      var materialID := TryGetValue(materialIdTable, currentActiveMaterial.value.id);
      var a := IntField(substring, 0);
      if a.Err? {
        return Fail(a.error);
      }
      var b := IntField(substring, 1);
      if b.Err? {
        return Fail(b.error);
      }
      var c := IntField(substring, 2);
      if c.Err? {
        return Fail(c.error);
      }
      if |substring| == 4 {
        var d := IntField(substring, 3);
        if d.Err? {
          return Fail(d.error);
        }
        faces := faces + [Face(Decrement(a.value), Decrement(b.value), Decrement(c.value),
                               Decrement(d.value), materialID)];
      } else {
        faces := faces + [Face(Decrement(a.value), Decrement(b.value), Decrement(c.value),
                               Decrement(c.value), materialID)];
      }
      return Pass;
    }

    /** Reads the material file `fileName` and appends its materials to the
        list and to the dictionary. After a failure the state is left as the
        exception found it and is not described. */
    method ParseMaterials(fileName: string, files: map<string, seq<string>>) returns (o: Outcome)
      modifies this
      ensures o == StatusOf(MaterialsOf(old(State()).Lib(), fileName, files))
      ensures o.Pass? ==> State() == old(State()).WithLib(MaterialsOf(old(State()).Lib(), fileName, files).value)
      ensures faces == old(faces) && vertices == old(vertices)
    {
      if fileName == "" {
        return Pass;
      }
      if fileName !in files {
        return Fail(FileNotFound(fileName));
      }
      var currentMaterial: Option<Material> := None;
      var lines := files[fileName];
      for i := 0 to |lines|
        invariant MaterialsFrom(old(State()).Lib(), None, lines)
                  == MaterialsFrom(State().Lib(), currentMaterial, lines[i..])
        invariant faces == old(faces) && vertices == old(vertices)
      {
        var line := lines[i];
        assert lines[i..][0] == line && lines[i..][1..] == lines[i + 1..];
        if StartsWith(line, "newmtl") {
          if currentMaterial.Some? {
            materials := materials + [currentMaterial.value];
            if currentMaterial.value.id in materialIdTable {
              return Fail(DuplicateKey(currentMaterial.value.id));
            }
            materialIdTable := materialIdTable[currentMaterial.value.id := |materials| - 1];
          }
          var fields := Split(line);
          if |fields| < 2 {
            return Fail(IndexOutOfRange);
          }
          currentMaterial := Some(NewMaterial(fields[1]));
          if StartsWith(currentMaterial.value.id, "Light") {
            currentMaterial := Some(currentMaterial.value.(emissive := LightEmission));
          }
          continue;
        }
        if StartsWith(line, "Kd") {
          var colors := Split(line);
          var r := FloatField(colors, 1);
          if r.Err? {
            return Fail(r.error);
          }
          var g := FloatField(colors, 2);
          if g.Err? {
            return Fail(g.error);
          }
          var b := FloatField(colors, 3);
          if b.Err? {
            return Fail(b.error);
          }
          if currentMaterial.None? {
            return Fail(NullReference);
          }
          currentMaterial := Some(currentMaterial.value.(diffuse := Color(r.value, g.value, b.value)));
          continue;
        }
      }
      if currentMaterial.Some? {
        materials := materials + [currentMaterial.value];
        if currentMaterial.value.id in materialIdTable {
          return Fail(DuplicateKey(currentMaterial.value.id));
        }
        materialIdTable := materialIdTable[currentMaterial.value.id := |materials| - 1];
      }
      return Pass;
    }

    /** The file `WriteToFile(outputName)` writes: its name and its lines. */
    method WriteToFile(outputName: string) returns (output: OutputFile)
      ensures output == OutputFile(outputName, Layout(State()))
    {
      var vertexRows: seq<string> := [];
      for i := 0 to |vertices|
        invariant vertexRows == VertexRows(vertices[..i])
      {
        assert vertices[..i + 1][..i] == vertices[..i];
        vertexRows := vertexRows + [VertexText(vertices[i])];
      }
      assert vertices[..|vertices|] == vertices;

      var materialRows: seq<string> := [];
      for i := 0 to |materials|
        invariant materialRows == MaterialRows(materials[..i])
      {
        assert materials[..i + 1][..i] == materials[..i];
        var m := materials[i];
        materialRows := materialRows + ["# " + m.id, ColorText(m.diffuse), ColorText(m.emissive), ""];
      }
      assert materials[..|materials|] == materials;

      var faceRows: seq<string> := [];
      for i := 0 to |faces|
        invariant faceRows == FaceRows(faces[..i])
      {
        assert faces[..i + 1][..i] == faces[..i];
        var f := faces[i];
        faceRows := faceRows + [IntToString(f.material), "1", FaceText(f), ""];
      }
      assert faces[..|faces|] == faces;

      var lines := ["# Number of vertices", IntToString(|vertices|), ""] + vertexRows + [""]
        + ["# Number of material", IntToString(|materials|), ""] + materialRows + [""]
        + ["# Number of faces", IntToString(|faces|), ""] + faceRows + [""];
      output := OutputFile(outputName, lines);
    }
  }
}
