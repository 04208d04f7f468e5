/** The passive data holders of the converter (`Vertex`, `Face`, `Color`,
    `Material`) and their text forms. Floating-point values are kept as the
    text `Single.Parse` accepted (see README). */
module Geometry {
  import opened Results
  import opened Text

  /** A vertex position. */
  datatype Vertex = Vertex(x: string, y: string, z: string)

  /** `Vertex.ToString()`: the coordinates separated by single spaces. */
  function VertexText(v: Vertex): string {
    v.x + " " + v.y + " " + v.z
  }

  /** A colour; `default(Color)` is all zeros. */
  datatype Color = Color(r: string, g: string, b: string)

  /** `default(Color)`, as `Single.ToString` prints 0. */
  const Black: Color := Color("0", "0", "0")

  /** The emissive colour given to every material whose id starts with `Light`,
      as `Single.ToString` prints 20, 12 and 10. */
  const LightEmission: Color := Color("20", "12", "10")

  /** `Color.ToString()`. */
  function ColorText(c: Color): string {
    c.r + " " + c.g + " " + c.b
  }

  datatype Material = Material(id: string, diffuse: Color, emissive: Color)

  /** `new Material(id)`: both colours are left at their default. */
  function NewMaterial(id: string): Material {
    Material(id, Black, Black)
  }

  /** A quadrilateral (a triangle repeats its third index) and the position of
      its material in the materials list. */
  datatype Face = Face(v1: int, v2: int, v3: int, v4: int, material: int)

  /** `Face.GetVertexString()`: the four indices separated by single spaces. */
  function FaceText(f: Face): string {
    IntToString(f.v1) + " " + IntToString(f.v2) + " " + IntToString(f.v3) + " " + IntToString(f.v4)
  }

  lemma NoSpaceInIntToString(n: int)
    ensures ' ' !in IntToString(n)
  {
    var s := IntToString(n);
    var digits := NatToString(if n < 0 then -n else n);
    NatToStringDigits(if n < 0 then -n else n);
    assert forall k :: 0 <= k < |digits| ==> digits[k] != ' ';
    if n < 0 {
      assert forall k :: 1 <= k < |s| ==> s[k] == digits[k - 1];
    }
  }

  /** Splitting a vertex's text at its spaces gives its three coordinates. */
  lemma VertexTextSplits(v: Vertex)
    requires ' ' !in v.x && ' ' !in v.y && ' ' !in v.z
    ensures Split(VertexText(v)) == [v.x, v.y, v.z]
  {
    assert Join([v.x, v.y, v.z]) == VertexText(v) by {
      assert [v.x, v.y, v.z][1..] == [v.y, v.z];
      assert [v.y, v.z][1..] == [v.z];
      assert Join([v.y, v.z]) == v.y + " " + v.z;
      assert Join([v.x, v.y, v.z]) == v.x + " " + (v.y + " " + v.z);
    }
    SplitJoin([v.x, v.y, v.z]);
  }

  /** Splitting a colour's text at its spaces gives its three channels. */
  lemma ColorTextSplits(c: Color)
    requires ' ' !in c.r && ' ' !in c.g && ' ' !in c.b
    ensures Split(ColorText(c)) == [c.r, c.g, c.b]
  {
    VertexTextSplits(Vertex(c.r, c.g, c.b));
  }

  /** The four fields of a face's index text read back, with `Int32.Parse`,
      as its four indices. */
  lemma FaceTextRoundTrip(f: Face)
    requires IsInt32(f.v1) && IsInt32(f.v2) && IsInt32(f.v3) && IsInt32(f.v4)
    ensures |Split(FaceText(f))| == 4
    ensures ParseInt32(Split(FaceText(f))[0]) == Ok(f.v1)
    ensures ParseInt32(Split(FaceText(f))[1]) == Ok(f.v2)
    ensures ParseInt32(Split(FaceText(f))[2]) == Ok(f.v3)
    ensures ParseInt32(Split(FaceText(f))[3]) == Ok(f.v4)
  {
    var fields := [IntToString(f.v1), IntToString(f.v2), IntToString(f.v3), IntToString(f.v4)];
    NoSpaceInIntToString(f.v1);
    NoSpaceInIntToString(f.v2);
    NoSpaceInIntToString(f.v3);
    NoSpaceInIntToString(f.v4);
    assert Join(fields) == FaceText(f) by {
      assert fields[1..] == [fields[1], fields[2], fields[3]];
      assert fields[1..][1..] == [fields[2], fields[3]];
      assert fields[1..][1..][1..] == [fields[3]];
      assert Join(fields[1..][1..]) == fields[2] + " " + fields[3];
      assert Join(fields[1..]) == fields[1] + " " + (fields[2] + " " + fields[3]);
      assert Join(fields) == fields[0] + " " + (fields[1] + " " + (fields[2] + " " + fields[3]));
    }
    SplitJoin(fields);
    ParseIntToString(f.v1);
    ParseIntToString(f.v2);
    ParseIntToString(f.v3);
    ParseIntToString(f.v4);
  }
}
