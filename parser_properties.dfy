/** What the converter guarantees, proved about the functions of `ParserSpec`
    (and so, through the methods' postconditions, about the `Parser` class). */
module ParserProperties {
  import opened Results
  import opened Text
  import opened Geometry
  import opened ParserSpec

  // =====================================================================
  // The material table
  // =====================================================================

  /** The dictionary and the list agree: each material sits at the position
      the dictionary gives for its id, and each key is a material's id. */
  predicate ValidLibrary(lib: Library) {
    (forall i :: 0 <= i < |lib.materials| ==>
       lib.materials[i].id in lib.materialIdTable && lib.materialIdTable[lib.materials[i].id] == i)
    && (forall key :: key in lib.materialIdTable ==>
       0 <= lib.materialIdTable[key] < |lib.materials| && lib.materials[lib.materialIdTable[key]].id == key)
  }

  /** The ids of a list of materials, in order. */
  function Ids(ms: seq<Material>): (ids: seq<string>)
    ensures |ids| == |ms|
  {
    if ms == [] then [] else [ms[0].id] + Ids(ms[1..])
  }

  lemma {:induction false} IdsAt(ms: seq<Material>, k: int)
    requires 0 <= k < |ms|
    ensures Ids(ms)[k] == ms[k].id
  {
    if k > 0 {
      IdsAt(ms[1..], k - 1);
    }
  }

  predicate NoDuplicates(s: seq<string>) {
    forall i, j :: 0 <= i < j < |s| ==> s[i] != s[j]
  }

  lemma ValidLibraryHasDistinctIds(lib: Library)
    requires ValidLibrary(lib)
    ensures NoDuplicates(Ids(lib.materials))
  {
    forall i, j | 0 <= i < j < |lib.materials|
      ensures Ids(lib.materials)[i] != Ids(lib.materials)[j]
    {
      IdsAt(lib.materials, i);
      IdsAt(lib.materials, j);
      assert lib.materialIdTable[lib.materials[i].id] == i;
    }
  }

  /** The id a `newmtl` line declares. */
  function NewmtlId(line: string): string {
    var fields := Split(line);
    if |fields| >= 2 then fields[1] else ""
  }

  /** The ids the `newmtl` lines of a material file declare, in file order. */
  function DeclaredIds(lines: seq<string>): seq<string> {
    if lines == [] then []
    else (if StartsWith(lines[0], "newmtl") then [NewmtlId(lines[0])] else []) + DeclaredIds(lines[1..])
  }

  /** The material under construction, as a list of zero or one. */
  function Pending(current: Option<Material>): seq<Material> {
    if current.Some? then [current.value] else []
  }

  /** The id of the material under construction, as a list of zero or one. */
  function PendingId(current: Option<Material>): seq<string> {
    if current.Some? then [current.value.id] else []
  }

  lemma FinalizeAppends(lib: Library, current: Option<Material>, lib': Library)
    requires Finalize(lib, current) == Ok(lib')
    ensures lib'.materials == lib.materials + Pending(current)
    ensures Ids(lib'.materials) == Ids(lib.materials) + PendingId(current)
  {
    IdsOfAppend(lib.materials, Pending(current));
    assert Ids(Pending(current)) == PendingId(current);
  }

  lemma FinalizeKeepsLibrary(lib: Library, current: Option<Material>, lib': Library)
    requires ValidLibrary(lib)
    requires Finalize(lib, current) == Ok(lib')
    ensures ValidLibrary(lib')
  {
    if current.Some? {
      var m := current.value;
      assert m.id !in lib.materialIdTable;
      forall i | 0 <= i < |lib'.materials|
        ensures lib'.materials[i].id in lib'.materialIdTable
        ensures lib'.materialIdTable[lib'.materials[i].id] == i
      {
        if i < |lib.materials| {
          assert lib'.materials[i] == lib.materials[i];
          assert lib.materials[i].id != m.id;
        }
      }
    }
  }

  lemma {:induction false} IdsOfAppend(a: seq<Material>, b: seq<Material>)
    ensures Ids(a + b) == Ids(a) + Ids(b)
  {
    if a == [] {
      assert a + b == b;
    } else {
      assert (a + b)[1..] == a[1..] + b;
      IdsOfAppend(a[1..], b);
    }
  }

  lemma MaterialStepKeepsLibrary(lib: Library, current: Option<Material>, line: string,
                                 next: (Library, Option<Material>))
    requires ValidLibrary(lib)
    requires MaterialStep(lib, current, line) == Ok(next)
    ensures ValidLibrary(next.0)
  {
    if StartsWith(line, "newmtl") {
      FinalizeKeepsLibrary(lib, current, Finalize(lib, current).value);
    }
  }

  lemma MaterialStepIds(lib: Library, current: Option<Material>, line: string,
                        next: (Library, Option<Material>))
    requires MaterialStep(lib, current, line) == Ok(next)
    ensures Ids(next.0.materials) + PendingId(next.1)
            == Ids(lib.materials) + PendingId(current)
               + (if StartsWith(line, "newmtl") then [NewmtlId(line)] else [])
  {
    if StartsWith(line, "newmtl") {
      FinalizeAppends(lib, current, Finalize(lib, current).value);
      assert next.0 == Finalize(lib, current).value;
      assert next.1.Some? && next.1.value.id == NewmtlId(line);
    } else if StartsWith(line, "Kd") {
      assert next.0 == lib && next.1.Some? && current.Some? && next.1.value.id == current.value.id;
    } else {
      assert next == (lib, current);
    }
  }

  lemma AppendAssoc<T>(x: seq<T>, a: seq<T>, b: seq<T>)
    ensures x + a + b == x + (a + b)
  {
  }

  lemma MaterialsFromUnfold(lib: Library, current: Option<Material>, lines: seq<string>, lib': Library)
    requires lines != []
    requires MaterialsFrom(lib, current, lines) == Ok(lib')
    ensures MaterialStep(lib, current, lines[0]).Ok?
    ensures MaterialsFrom(MaterialStep(lib, current, lines[0]).value.0,
                          MaterialStep(lib, current, lines[0]).value.1, lines[1..]) == Ok(lib')
  {
  }

  /** A successful pass over the rest of a material file keeps the table
      invariant. */
  lemma {:induction false} MaterialsFromKeepsLibrary(lib: Library, current: Option<Material>,
                                                    lines: seq<string>, lib': Library)
    requires ValidLibrary(lib)
    requires MaterialsFrom(lib, current, lines) == Ok(lib')
    ensures ValidLibrary(lib')
    decreases |lines|
  {
    if lines == [] {
      FinalizeKeepsLibrary(lib, current, lib');
    } else {
      MaterialsFromUnfold(lib, current, lines, lib');
      var next := MaterialStep(lib, current, lines[0]).value;
      MaterialStepKeepsLibrary(lib, current, lines[0], next);
      MaterialsFromKeepsLibrary(next.0, next.1, lines[1..], lib');
    }
  }

  /** A successful pass over the rest of a material file adds the material
      under construction and then one material per `newmtl` line, in the
      order of those lines. */
  lemma {:induction false} MaterialsFromIds(lib: Library, current: Option<Material>,
                                           lines: seq<string>, lib': Library)
    requires MaterialsFrom(lib, current, lines) == Ok(lib')
    ensures Ids(lib'.materials) == Ids(lib.materials) + PendingId(current) + DeclaredIds(lines)
    decreases |lines|
  {
    if lines == [] {
      FinalizeAppends(lib, current, lib');
      assert Ids(lib.materials) + PendingId(current) + [] == Ids(lib.materials) + PendingId(current);
    } else {
      MaterialsFromUnfold(lib, current, lines, lib');
      var next := MaterialStep(lib, current, lines[0]).value;
      MaterialStepIds(lib, current, lines[0], next);
      MaterialsFromIds(next.0, next.1, lines[1..], lib');
      var before := Ids(lib.materials) + PendingId(current);
      var declared := if StartsWith(lines[0], "newmtl") then [NewmtlId(lines[0])] else [];
      var later := DeclaredIds(lines[1..]);
      assert DeclaredIds(lines) == declared + later;
      assert Ids(lib'.materials) == before + declared + later;
      AppendAssoc(before, declared, later);
    }
  }

  /** After every successful `ParseMaterials` the dictionary maps each
      material's id to its position, and the new materials are those the
      file's `newmtl` lines declare, in order, the last one included. */
  lemma MaterialsOfKeepsLibrary(lib: Library, fileName: string, files: map<string, seq<string>>)
    requires ValidLibrary(lib)
    requires MaterialsOf(lib, fileName, files).Ok?
    ensures ValidLibrary(MaterialsOf(lib, fileName, files).value)
    ensures fileName == "" ==> MaterialsOf(lib, fileName, files).value == lib
    ensures fileName != "" ==>
              (fileName in files &&
               Ids(MaterialsOf(lib, fileName, files).value.materials)
               == Ids(lib.materials) + DeclaredIds(files[fileName]))
  {
    if fileName != "" {
      MaterialsFromKeepsLibrary(lib, None, files[fileName], MaterialsOf(lib, fileName, files).value);
      MaterialsFromIds(lib, None, files[fileName], MaterialsOf(lib, fileName, files).value);
      assert Ids(lib.materials) + PendingId(None) == Ids(lib.materials);
    }
  }

  /** `ParseMaterials` only appends: the earlier materials stay in place. */
  lemma MaterialsOfExtends(lib: Library, fileName: string, files: map<string, seq<string>>)
    requires MaterialsOf(lib, fileName, files).Ok?
    ensures var lib' := MaterialsOf(lib, fileName, files).value;
            |lib.materials| <= |lib'.materials| && lib'.materials[..|lib.materials|] == lib.materials
  {
    if fileName != "" {
      MaterialsFromExtends(lib, None, files[fileName], MaterialsOf(lib, fileName, files).value);
    }
  }

  /** An id declared twice, in one file or across two `mtllib` files, makes
      `Dictionary.Add` throw: a successful pass declares only fresh ids. */
  lemma MaterialsOfIdsAreFresh(lib: Library, fileName: string, files: map<string, seq<string>>)
    requires ValidLibrary(lib)
    requires fileName != "" && MaterialsOf(lib, fileName, files).Ok?
    ensures fileName in files && NoDuplicates(Ids(lib.materials) + DeclaredIds(files[fileName]))
  {
    MaterialsOfKeepsLibrary(lib, fileName, files);
    ValidLibraryHasDistinctIds(MaterialsOf(lib, fileName, files).value);
  }

  // =====================================================================
  // The Light and Kd rules
  // =====================================================================

  /** The emissive colour a material with id `id` ends up with. */
  function EmissionFor(id: string): Color {
    if StartsWith(id, "Light") then LightEmission else Black
  }

  predicate WellLit(m: Material) {
    m.emissive == EmissionFor(m.id)
  }

  predicate AllWellLit(ms: seq<Material>) {
    forall i :: 0 <= i < |ms| ==> WellLit(ms[i])
  }

  predicate PendingWellLit(current: Option<Material>) {
    current.Some? ==> WellLit(current.value)
  }

  lemma MaterialStepKeepsEmission(lib: Library, current: Option<Material>, line: string,
                                  next: (Library, Option<Material>))
    requires AllWellLit(lib.materials) && PendingWellLit(current)
    requires MaterialStep(lib, current, line) == Ok(next)
    ensures AllWellLit(next.0.materials) && PendingWellLit(next.1)
  {
    if StartsWith(line, "newmtl") {
      FinalizeAppends(lib, current, Finalize(lib, current).value);
    }
  }

  /** Every material a successful pass saves has the emissive colour its id
      calls for. */
  lemma {:induction false} MaterialsFromKeepsEmission(lib: Library, current: Option<Material>,
                                                     lines: seq<string>, lib': Library)
    requires AllWellLit(lib.materials) && PendingWellLit(current)
    requires MaterialsFrom(lib, current, lines) == Ok(lib')
    ensures AllWellLit(lib'.materials)
    decreases |lines|
  {
    if lines == [] {
      FinalizeAppends(lib, current, lib');
    } else {
      MaterialsFromUnfold(lib, current, lines, lib');
      var next := MaterialStep(lib, current, lines[0]).value;
      MaterialStepKeepsEmission(lib, current, lines[0], next);
      MaterialsFromKeepsEmission(next.0, next.1, lines[1..], lib');
    }
  }

  /** A material whose id starts with `Light` is emissive (20, 12, 10); every
      other material is not emissive. */
  lemma MaterialsOfEmission(lib: Library, fileName: string, files: map<string, seq<string>>)
    requires AllWellLit(lib.materials)
    requires MaterialsOf(lib, fileName, files).Ok?
    ensures forall m :: m in MaterialsOf(lib, fileName, files).value.materials ==>
              m.emissive == (if StartsWith(m.id, "Light") then LightEmission else Black)
  {
    var lib' := MaterialsOf(lib, fileName, files).value;
    if fileName != "" {
      MaterialsFromKeepsEmission(lib, None, files[fileName], lib');
    }
    forall m | m in lib'.materials
      ensures m.emissive == (if StartsWith(m.id, "Light") then LightEmission else Black)
    {
      var i :| 0 <= i < |lib'.materials| && lib'.materials[i] == m;
      assert WellLit(lib'.materials[i]);
    }
  }

  /** The colour a `Kd` line gives, read off its fields 1 to 3. */
  function KdColor(line: string): Color {
    var fields := Split(line);
    if |fields| >= 4 then Color(fields[1], fields[2], fields[3]) else Black
  }

  /** The diffuse colour after the lines `body`, starting from `c`: that of the
      last `Kd` line, or `c` when there is none. */
  function DiffuseAfter(c: Color, body: seq<string>): Color
    decreases |body|
  {
    if body == [] then c
    else if StartsWith(body[|body| - 1], "Kd") then KdColor(body[|body| - 1])
    else DiffuseAfter(c, body[..|body| - 1])
  }

  predicate NoNewmtl(lines: seq<string>) {
    forall k :: 0 <= k < |lines| ==> !StartsWith(lines[k], "newmtl")
  }

  lemma DiffuseAfterSnoc(c: Color, body: seq<string>, line: string)
    ensures DiffuseAfter(c, body + [line])
            == if StartsWith(line, "Kd") then KdColor(line) else DiffuseAfter(c, body)
  {
    assert (body + [line])[..|body|] == body;
  }

  /** Walking the lines of one material block: the saved materials stay as
      they are, and the material under construction only has its diffuse
      colour replaced, by the last `Kd` line. */
  lemma {:induction false} BlockBody(lib: Library, m: Material, done: seq<string>, body: seq<string>,
                                     rest: seq<string>, lib': Library)
    requires NoNewmtl(body)
    requires MaterialsFrom(lib, Some(m.(diffuse := DiffuseAfter(m.diffuse, done))), body + rest) == Ok(lib')
    ensures MaterialsFrom(lib, Some(m.(diffuse := DiffuseAfter(m.diffuse, done + body))), rest) == Ok(lib')
    decreases |body|
  {
    if body == [] {
      assert body + rest == rest && done + body == done;
    } else {
      var line := body[0];
      var current := Some(m.(diffuse := DiffuseAfter(m.diffuse, done)));
      assert (body + rest)[0] == line && (body + rest)[1..] == body[1..] + rest;
      MaterialsFromUnfold(lib, current, body + rest, lib');
      var next := MaterialStep(lib, current, line).value;
      DiffuseAfterSnoc(m.diffuse, done, line);
      assert !StartsWith(line, "newmtl");
      assert next == (lib, Some(m.(diffuse := DiffuseAfter(m.diffuse, done + [line]))));
      assert NoNewmtl(body[1..]);
      BlockBody(lib, m, done + [line], body[1..], rest, lib');
      assert done + [line] + body[1..] == done + body;
    }
  }

  /** A successful pass never removes or changes a saved material. */
  lemma {:induction false} MaterialsFromExtends(lib: Library, current: Option<Material>,
                                               lines: seq<string>, lib': Library)
    requires MaterialsFrom(lib, current, lines) == Ok(lib')
    ensures |lib.materials| <= |lib'.materials| && lib'.materials[..|lib.materials|] == lib.materials
    decreases |lines|
  {
    if lines == [] {
      FinalizeAppends(lib, current, lib');
    } else {
      MaterialsFromUnfold(lib, current, lines, lib');
      var next := MaterialStep(lib, current, lines[0]).value;
      if StartsWith(lines[0], "newmtl") {
        FinalizeAppends(lib, current, next.0);
      }
      MaterialsFromExtends(next.0, next.1, lines[1..], lib');
      assert lib'.materials[..|lib.materials|] == next.0.materials[..|lib.materials|];
    }
  }

  /** A `newmtl` line saves the material under construction and starts a
      new one, black, with the emissive colour of the Light rule. */
  lemma NewmtlStep(lib: Library, current: Option<Material>, line: string,
                   next: (Library, Option<Material>))
    requires StartsWith(line, "newmtl")
    requires MaterialStep(lib, current, line) == Ok(next)
    ensures next.0.materials == lib.materials + Pending(current)
    ensures next.1 == Some(Material(NewmtlId(line), Black, EmissionFor(NewmtlId(line))))
  {
    FinalizeAppends(lib, current, next.0);
  }

  /** The end of the file, or the next `newmtl` line, saves the material
      under construction right after the saved ones. */
  lemma BlockClose(lib: Library, m: Material, rest: seq<string>, lib': Library)
    requires rest == [] || StartsWith(rest[0], "newmtl")
    requires MaterialsFrom(lib, Some(m), rest) == Ok(lib')
    ensures |lib.materials| < |lib'.materials| && lib'.materials[|lib.materials|] == m
  {
    var k := |lib.materials|;
    if rest == [] {
      FinalizeAppends(lib, Some(m), lib');
    } else {
      MaterialsFromUnfold(lib, Some(m), rest, lib');
      var after := MaterialStep(lib, Some(m), rest[0]).value;
      NewmtlStep(lib, Some(m), rest[0], after);
      MaterialsFromExtends(after.0, after.1, rest[1..], lib');
      assert lib'.materials[k] == lib'.materials[..k + 1][k];
    }
  }

  /** One `newmtl` block, followed by the end of the file or by the next
      `newmtl` line, saves the material `Material(id, diffuse, emissive)` where
      `id` is the word after `newmtl`, `diffuse` the colour of the block's last
      `Kd` line (black if there is none) and `emissive` as the Light rule
      says; it is saved after the materials already in the list and the one
      that was under construction. */
  lemma NewmtlBlock(lib: Library, current: Option<Material>, line: string, body: seq<string>,
                    rest: seq<string>, lib': Library)
    requires StartsWith(line, "newmtl") && NoNewmtl(body)
    requires rest == [] || StartsWith(rest[0], "newmtl")
    requires MaterialsFrom(lib, current, [line] + body + rest) == Ok(lib')
    ensures |lib.materials| + |Pending(current)| < |lib'.materials|
    ensures lib'.materials[|lib.materials| + |Pending(current)|]
            == Material(NewmtlId(line), DiffuseAfter(Black, body), EmissionFor(NewmtlId(line)))
  {
    assert [line] + body + rest == [line] + (body + rest);
    NewmtlUnfold(lib, current, line, body + rest, lib');
    var id := NewmtlId(line);
    var saved: Library :| saved.materials == lib.materials + Pending(current)
                 && MaterialsFrom(saved, Some(Material(id, Black, EmissionFor(id))), body + rest) == Ok(lib');
    BlockAfterNewmtl(saved, id, body, rest, lib');
  }

  /** The pass over a file that starts with a `newmtl` line goes on from the
      saved materials and the new black material. */
  lemma NewmtlUnfold(lib: Library, current: Option<Material>, line: string, tail: seq<string>, lib': Library)
    requires StartsWith(line, "newmtl")
    requires MaterialsFrom(lib, current, [line] + tail) == Ok(lib')
    ensures exists saved: Library :: saved.materials == lib.materials + Pending(current)
              && MaterialsFrom(saved, Some(Material(NewmtlId(line), Black, EmissionFor(NewmtlId(line)))), tail)
                 == Ok(lib')
  {
    var lines := [line] + tail;
    assert lines[0] == line && lines[1..] == tail;
    MaterialsFromUnfold(lib, current, lines, lib');
    var next := MaterialStep(lib, current, line).value;
    NewmtlStep(lib, current, line, next);
    assert MaterialsFrom(next.0, next.1, tail) == Ok(lib');
  }

  lemma BlockAfterNewmtl(lib: Library, id: string, body: seq<string>, rest: seq<string>, lib': Library)
    requires NoNewmtl(body)
    requires rest == [] || StartsWith(rest[0], "newmtl")
    requires MaterialsFrom(lib, Some(Material(id, Black, EmissionFor(id))), body + rest) == Ok(lib')
    ensures |lib.materials| < |lib'.materials|
    ensures lib'.materials[|lib.materials|] == Material(id, DiffuseAfter(Black, body), EmissionFor(id))
  {
    var m := Material(id, Black, EmissionFor(id));
    assert m.(diffuse := DiffuseAfter(m.diffuse, [])) == m;
    BlockBody(lib, m, [], body, rest, lib');
    assert [] + body == body;
    BlockClose(lib, Material(id, DiffuseAfter(Black, body), EmissionFor(id)), rest, lib');
  }

  /** A `Kd` line before any `newmtl` line has nothing to colour: the pass
      fails. */
  lemma {:induction false} KdBeforeNewmtlFails(lib: Library, pre: seq<string>, kd: string,
                                              rest: seq<string>)
    requires NoNewmtl(pre) && StartsWith(kd, "Kd")
    ensures MaterialsFrom(lib, None, pre + [kd] + rest).Err?
    decreases |pre|
  {
    var lines := pre + [kd] + rest;
    if pre == [] {
      assert lines[0] == kd;
    } else {
      assert lines[0] == pre[0] && lines[1..] == pre[1..] + [kd] + rest;
      assert !StartsWith(pre[0], "newmtl");
      assert NoNewmtl(pre[1..]);
      if MaterialStep(lib, None, pre[0]).Ok? {
        KdBeforeNewmtlFails(lib, pre[1..], kd, rest);
      }
    }
  }
}
