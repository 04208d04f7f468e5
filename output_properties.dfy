/** The exact layout of the file `WriteToFile` writes, line by line. */
module OutputProperties {
  import opened Results
  import opened Text
  import opened Geometry
  import opened ParserSpec

  lemma {:induction false} VertexRowsLength(vs: seq<Vertex>)
    ensures |VertexRows(vs)| == |vs|
    decreases |vs|
  {
    if vs != [] {
      VertexRowsLength(vs[..|vs| - 1]);
    }
  }

  lemma {:induction false} MaterialRowsLength(ms: seq<Material>)
    ensures |MaterialRows(ms)| == 4 * |ms|
    decreases |ms|
  {
    if ms != [] {
      MaterialRowsLength(ms[..|ms| - 1]);
    }
  }

  lemma {:induction false} FaceRowsLength(fs: seq<Face>)
    ensures |FaceRows(fs)| == 4 * |fs|
    decreases |fs|
  {
    if fs != [] {
      FaceRowsLength(fs[..|fs| - 1]);
    }
  }

  /** Row `i` of the vertex rows is the text of vertex `i`. */
  lemma {:induction false} VertexRowAt(vs: seq<Vertex>, i: int)
    requires 0 <= i < |vs|
    ensures |VertexRows(vs)| == |vs| && VertexRows(vs)[i] == VertexText(vs[i])
    decreases |vs|
  {
    var init := vs[..|vs| - 1];
    var rows := VertexRows(init);
    var last := [VertexText(vs[|vs| - 1])];
    VertexRowsLength(init);
    VertexRowsLength(vs);
    assert VertexRows(vs) == rows + last;
    ConcatAt(rows, last, i);
    if i < |init| {
      VertexRowAt(init, i);
      assert init[i] == vs[i];
      assert VertexRows(vs)[i] == rows[i];
    } else {
      assert i == |vs| - 1 && i - |rows| == 0;
      assert VertexRows(vs)[i] == last[0];
    }
  }

  /** Rows `4j` to `4j + 3` of the material rows are those of material `j`. */
  lemma {:induction false} MaterialRowAt(ms: seq<Material>, j: int, r: int)
    requires 0 <= j < |ms| && 0 <= r < 4
    ensures |MaterialRows(ms)| == 4 * |ms| && MaterialRows(ms)[4 * j + r] == MaterialLines(ms[j])[r]
    decreases |ms|
  {
    var init := ms[..|ms| - 1];
    var rows := MaterialRows(init);
    var last := MaterialLines(ms[|ms| - 1]);
    MaterialRowsLength(init);
    MaterialRowsLength(ms);
    assert MaterialRows(ms) == rows + last;
    ConcatAt(rows, last, 4 * j + r);
    if j < |init| {
      MaterialRowAt(init, j, r);
      assert init[j] == ms[j];
      assert MaterialRows(ms)[4 * j + r] == rows[4 * j + r];
    } else {
      assert j == |ms| - 1 && 4 * j + r - |rows| == r;
      assert MaterialRows(ms)[4 * j + r] == last[r];
    }
  }

  /** Rows `4j` to `4j + 3` of the face rows are those of face `j`. */
  lemma {:induction false} FaceRowAt(fs: seq<Face>, j: int, r: int)
    requires 0 <= j < |fs| && 0 <= r < 4
    ensures |FaceRows(fs)| == 4 * |fs| && FaceRows(fs)[4 * j + r] == FaceLines(fs[j])[r]
    decreases |fs|
  {
    var init := fs[..|fs| - 1];
    var rows := FaceRows(init);
    var last := FaceLines(fs[|fs| - 1]);
    FaceRowsLength(init);
    FaceRowsLength(fs);
    assert FaceRows(fs) == rows + last;
    ConcatAt(rows, last, 4 * j + r);
    if j < |init| {
      FaceRowAt(init, j, r);
      assert init[j] == fs[j];
      assert FaceRows(fs)[4 * j + r] == rows[4 * j + r];
    } else {
      assert j == |fs| - 1 && 4 * j + r - |rows| == r;
      assert FaceRows(fs)[4 * j + r] == last[r];
    }
  }

  /** Element `i` of a concatenation. */
  lemma ConcatAt<T>(a: seq<T>, b: seq<T>, i: int)
    requires 0 <= i < |a| + |b|
    ensures (a + b)[i] == if i < |a| then a[i] else b[i - |a|]
  {
  }

  /** A section of the output: a header, a count, a blank line, the rows and
      a closing blank line. */
  function Section(header: string, count: string, rows: seq<string>): seq<string> {
    [header, count, ""] + rows + [""]
  }

  lemma Regroup(a1: seq<string>, a2: seq<string>, a3: seq<string>, a4: seq<string>, a5: seq<string>,
                 a6: seq<string>, a7: seq<string>, a8: seq<string>, a9: seq<string>)
    ensures a1 + a2 + a3 + a4 + a5 + a6 + a7 + a8 + a9 == (a1 + a2 + a3) + (a4 + a5 + a6) + (a7 + a8 + a9)
  {
  }

  /** The output is the vertex section, the material section and the face
      section, in that order. */
  lemma LayoutSections(st: ParserState)
    ensures Layout(st)
            == Section("# Number of vertices", IntToString(|st.vertices|), VertexRows(st.vertices))
               + Section("# Number of material", IntToString(|st.materials|), MaterialRows(st.materials))
               + Section("# Number of faces", IntToString(|st.faces|), FaceRows(st.faces))
  {
    Regroup(["# Number of vertices", IntToString(|st.vertices|), ""], VertexRows(st.vertices), [""],
            ["# Number of material", IntToString(|st.materials|), ""], MaterialRows(st.materials), [""],
            ["# Number of faces", IntToString(|st.faces|), ""], FaceRows(st.faces), [""]);
  }

  lemma FirstAt(a: seq<string>, b: seq<string>, c: seq<string>, k: int)
    requires 0 <= k < |a|
    ensures (a + b + c)[k] == a[k]
  {
  }

  lemma SecondAt(a: seq<string>, b: seq<string>, c: seq<string>, k: int)
    requires 0 <= k < |b|
    ensures (a + b + c)[|a| + k] == b[k]
  {
  }

  lemma ThirdAt(a: seq<string>, b: seq<string>, c: seq<string>, k: int)
    requires 0 <= k < |c|
    ensures (a + b + c)[|a| + |b| + k] == c[k]
  {
  }

  lemma SectionRowAt(header: string, count: string, rows: seq<string>, i: int)
    requires 0 <= i < |rows|
    ensures |Section(header, count, rows)| == |rows| + 4
    ensures Section(header, count, rows)[3 + i] == rows[i]
  {
  }

  /** The fixed lines: the three headers, the three counts, the blank lines
      around them, and the final blank line, which is the last line. */
  lemma LayoutFixedLines(st: ParserState)
    ensures var n := |st.vertices|; var m := |st.materials|; var k := |st.faces|; var L := Layout(st);
            |L| == 12 + n + 4 * m + 4 * k
            && L[0] == "# Number of vertices" && L[1] == IntToString(n) && L[2] == "" && L[3 + n] == ""
            && L[4 + n] == "# Number of material" && L[5 + n] == IntToString(m) && L[6 + n] == ""
            && L[7 + n + 4 * m] == ""
            && L[8 + n + 4 * m] == "# Number of faces" && L[9 + n + 4 * m] == IntToString(k)
            && L[10 + n + 4 * m] == "" && L[11 + n + 4 * m + 4 * k] == ""
  {
    var n := |st.vertices|;
    var m := |st.materials|;
    VertexRowsLength(st.vertices);
    MaterialRowsLength(st.materials);
    FaceRowsLength(st.faces);
    var V := Section("# Number of vertices", IntToString(n), VertexRows(st.vertices));
    var M := Section("# Number of material", IntToString(m), MaterialRows(st.materials));
    var F := Section("# Number of faces", IntToString(|st.faces|), FaceRows(st.faces));
    LayoutSections(st);
    assert |V| == n + 4 && |M| == 4 * m + 4;
    FirstAt(V, M, F, 0);
    FirstAt(V, M, F, 1);
    FirstAt(V, M, F, 2);
    FirstAt(V, M, F, n + 3);
    SecondAt(V, M, F, 0);
    SecondAt(V, M, F, 1);
    SecondAt(V, M, F, 2);
    SecondAt(V, M, F, 4 * m + 3);
    ThirdAt(V, M, F, 0);
    ThirdAt(V, M, F, 1);
    ThirdAt(V, M, F, 2);
    ThirdAt(V, M, F, |F| - 1);
  }

  /** Line `3 + i` is vertex `i`, in list order. */
  lemma LayoutVertexAt(st: ParserState, i: int)
    requires 0 <= i < |st.vertices|
    ensures 3 + i < |Layout(st)| && Layout(st)[3 + i] == VertexText(st.vertices[i])
  {
    var rows := VertexRows(st.vertices);
    VertexRowAt(st.vertices, i);
    var V := Section("# Number of vertices", IntToString(|st.vertices|), rows);
    var M := Section("# Number of material", IntToString(|st.materials|), MaterialRows(st.materials));
    var F := Section("# Number of faces", IntToString(|st.faces|), FaceRows(st.faces));
    LayoutSections(st);
    SectionRowAt("# Number of vertices", IntToString(|st.vertices|), rows, i);
    FirstAt(V, M, F, 3 + i);
  }

  /** Lines `7 + n + 4j` to `10 + n + 4j`, `n` being the number of vertices,
      are material `j`'s: `# id`, diffuse, emissive, blank. */
  lemma LayoutMaterialAt(st: ParserState, j: int, r: int)
    requires 0 <= j < |st.materials| && 0 <= r < 4
    ensures var at := 7 + |st.vertices| + 4 * j + r;
            at < |Layout(st)| && Layout(st)[at] == MaterialLines(st.materials[j])[r]
  {
    var n := |st.vertices|;
    var rows := MaterialRows(st.materials);
    VertexRowsLength(st.vertices);
    MaterialRowAt(st.materials, j, r);
    var V := Section("# Number of vertices", IntToString(n), VertexRows(st.vertices));
    var M := Section("# Number of material", IntToString(|st.materials|), rows);
    var F := Section("# Number of faces", IntToString(|st.faces|), FaceRows(st.faces));
    LayoutSections(st);
    assert |V| == n + 4;
    SectionRowAt("# Number of material", IntToString(|st.materials|), rows, 4 * j + r);
    SecondAt(V, M, F, 3 + 4 * j + r);
  }

  /** Lines `11 + n + 4m + 4j` to `14 + n + 4m + 4j`, `n` and `m` being the
      numbers of vertices and materials, are face `j`'s: its material's
      position, `1`, its four indices, blank. */
  lemma LayoutFaceAt(st: ParserState, j: int, r: int)
    requires 0 <= j < |st.faces| && 0 <= r < 4
    ensures var at := 11 + |st.vertices| + 4 * |st.materials| + 4 * j + r;
            at < |Layout(st)| && Layout(st)[at] == FaceLines(st.faces[j])[r]
  {
    LayoutSections(st);
    SectionsFaceAt(st, Layout(st), j, r);
  }

  lemma SectionsFaceAt(st: ParserState, L: seq<string>, j: int, r: int)
    requires 0 <= j < |st.faces| && 0 <= r < 4
    requires L == Section("# Number of vertices", IntToString(|st.vertices|), VertexRows(st.vertices))
                  + Section("# Number of material", IntToString(|st.materials|), MaterialRows(st.materials))
                  + Section("# Number of faces", IntToString(|st.faces|), FaceRows(st.faces))
    ensures var at := 11 + |st.vertices| + 4 * |st.materials| + 4 * j + r;
            at < |L| && L[at] == FaceLines(st.faces[j])[r]
  {
    var n := |st.vertices|;
    var m := |st.materials|;
    var rows := FaceRows(st.faces);
    VertexRowsLength(st.vertices);
    MaterialRowsLength(st.materials);
    FaceRowAt(st.faces, j, r);
    var V := Section("# Number of vertices", IntToString(n), VertexRows(st.vertices));
    var M := Section("# Number of material", IntToString(m), MaterialRows(st.materials));
    var F := Section("# Number of faces", IntToString(|st.faces|), rows);
    assert |V| + |M| == 8 + n + 4 * m;
    SectionRowAt("# Number of faces", IntToString(|st.faces|), rows, 4 * j + r);
    ThirdAt(V, M, F, 3 + 4 * j + r);
  }

  /** Each count line reads back, with `Int32.Parse`, as the length of its
      list. */
  lemma LayoutCountsReadBack(st: ParserState)
    requires |st.vertices| <= MaxInt32 && |st.materials| <= MaxInt32 && |st.faces| <= MaxInt32
    ensures var n := |st.vertices|; var m := |st.materials|; var L := Layout(st);
            |L| > 9 + n + 4 * m
            && ParseInt32(L[1]) == Ok(n)
            && ParseInt32(L[5 + n]) == Ok(m)
            && ParseInt32(L[9 + n + 4 * m]) == Ok(|st.faces|)
  {
    LayoutFixedLines(st);
    ParseIntToString(|st.vertices|);
    ParseIntToString(|st.materials|);
    ParseIntToString(|st.faces|);
  }
}
