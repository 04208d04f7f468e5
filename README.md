# ObjToCS4247 converter: a Dafny model of the `Parser` class

ObjToCS4247 turns a Wavefront OBJ file, together with the MTL material
files it names with `mtllib`, into a flat text format. The format lists
three things:

- the vertices;
- the materials, each with a diffuse and an emissive colour;
- the faces, each as four 0-based vertex indices and a material position.

This project models the `Parser` class that does the conversion, with its
four collections (`faces`, `vertices`, `materials`, `materialIdTable`) and
its five steps:

- `Run`: dispatching the geometry lines;
- `ParseVertex`;
- `ParseFace`;
- `ParseMaterials`: building materials from a material file;
- `WriteToFile`: laying out the output lines.

It also models the value classes `Vertex`, `Face`, `Color` and `Material`.

Modules, one per file:

- `Results` (`results.dfy`): the .NET exceptions the converter can raise (a
  missing file, an index past the end, a null reference, a duplicate
  dictionary key, a malformed or out-of-range number), as `Result` and
  `Outcome` values.
- `Text` (`text.dfy`): the .NET primitives used:
  - ordinal `StartsWith` and `Substring`;
  - an exact `Split(' ')` that keeps empty fields;
  - `Int32.Parse` with white space, sign and 32-bit range checks;
  - `Int32.ToString`;
  - a scanner for the decimal text `Single.Parse` accepts.
- `Geometry` (`geometry.dfy`): the value classes and their `ToString` /
  `GetVertexString` texts.
- `ParserSpec` (`parser_spec.dfy`): each step as a pure function of the state
  before it. Examples are `GeometryStep` and `GeometryFrom` for the loop of
  `Run`, `MaterialStep` and `MaterialsFrom` for the loop of
  `ParseMaterials`, and `Layout` for `WriteToFile`.
- `ObjParser` (`parser.dfy`): the class `Parser`. Its fields are reassigned in
  place, and each method is proved to compute exactly what `ParserSpec` says.
- `ParserProperties` (`parser_properties.dfy`): what the material parser
  guarantees:
  - the table invariant `materialIdTable[materials[i].id] == i`, with ids
    unique;
  - materials appear in `newmtl` order;
  - the `Light` emission rule;
  - the last `Kd` wins;
  - a `Kd` line before any `newmtl` fails.
- `RunProperties` (`run_properties.dfy`): what the geometry dispatcher
  guarantees, line kind by line kind:
  - skipped lines;
  - `mtllib` tested before `v`;
  - `usemtl` resolution;
  - face indices and face material;
  - the invariant the whole run keeps;
  - vertices in file order, one per `v` line.
- `OutputProperties` (`output_properties.dfy`): the exact position of every
  output line.
- `Scenarios` (`scenarios.dfy`): a complete conversion of a two-vertex,
  one-material, one-triangle scene, stated as its exact output.

Files are given to the model as a map from path to the file's lines.
`File.ReadAllLines` becomes a lookup, and a missing path is `FileNotFound`.
`Run` returns the file it would write: its path `fileName + ".parserout"` and
its lines. Floating-point numbers are kept as the text they were read from;
see "Left out".

Behaviour of the code worth knowing, which the model keeps:

- **Unknown `usemtl` key.** `TryGetValue` writes `default(int)` (0) on a
  miss, so the `!= -1` guard never fires and `materials[0]` is selected;
  with no materials the indexer throws. See `RunProperties.UsemtlLine` and
  `RunProperties.GuardNeverFires`.
- **Duplicate material id.** `Dictionary.Add` throws on an id that is
  already a key, whether it repeats within one file or across two `mtllib`
  lines. See `ParserSpec.Finalize` and
  `ParserProperties.MaterialsOfIdsAreFresh`.
- **`vn` and `vt` lines.** The vertex test is a bare `StartsWith("v")`, so
  these lines reach `ParseVertex`, where the empty field before the first
  space fails to parse. See `RunProperties.SpacedVertexLineFails` and
  `RunProperties.NormalLineFails`.
- **Triangles.** A triangle is written with four indices, the third
  repeated (`0 1 1 1`). See `Scenarios.SceneConversion`.

## Model

| member | source | states |
|---|---|---|
| Text.Substring | ObjToCS4247/Program.cs:142 | succeeds exactly when the start is within the string; the prefix plus the result is the string; past the end it is `ArgumentOutOfRange` |
| Text.Split | ObjToCS4247/Program.cs:170 | at least one field, no field holds a space, and joining the fields with single spaces gives the input back |
| Text.SplitJoin | ObjToCS4247/Program.cs:221 | splitting space-free fields joined by single spaces gives exactly those fields, empty ones included |
| Text.ParseInt32 | ObjToCS4247/Program.cs:181 | a parsed value lies in the 32-bit range; a failure is a format error or an overflow on that text; success needs a digit or sign first once white space is trimmed |
| Text.ParseIntToString | ObjToCS4247/Program.cs:181-183 | parsing the text `Int32.ToString` prints for any 32-bit value gives back that value |
| Geometry.NoSpaceInIntToString | ObjToCS4247/Program.cs:38-41 | the text of an integer holds no space |
| Geometry.VertexTextSplits | ObjToCS4247/Program.cs:18-21 | splitting a vertex's text gives back its three coordinates |
| Geometry.ColorTextSplits | ObjToCS4247/Program.cs:59-62 | splitting a colour's text gives back its three components |
| Geometry.FaceTextRoundTrip | ObjToCS4247/Program.cs:38-41 | a face's vertex string splits into four fields that parse back to `v1`..`v4` |
| ParserSpec.Decrement | ObjToCS4247/Program.cs:181-183 | `n - 1` stays in 32 bits and equals the mathematical `n - 1` modulo 2^32, so `Int32.MinValue` wraps |
| ParserSpec.VertexOf | ObjToCS4247/Program.cs:168-172 | succeeds exactly when there are at least three fields and the first three are numbers; the vertex is those three fields and any further fields are ignored |
| ObjParser.Parser.constructor | ObjToCS4247/Program.cs:109-115 | a new parser has four empty collections |
| ObjParser.Parser.Run | ObjToCS4247/Program.cs:117-166 | the result is the conversion of the geometry file from the state before the call; on success the parser's new state is what the line loop computes |
| ObjParser.Parser.ParseVertex | ObjToCS4247/Program.cs:168-172 | on success exactly the parsed vertex is appended and nothing else changes; on failure nothing changes |
| ObjParser.Parser.ParseFace | ObjToCS4247/Program.cs:174-184 | on success exactly the face `FaceOf` describes is appended, using the table before the call; on failure nothing changes |
| ObjParser.Parser.ParseMaterials | ObjToCS4247/Program.cs:186-234 | the outcome is that of the material file's parse; on success the materials and the table are the parsed library; faces and vertices never change |
| ObjParser.Parser.WriteToFile | ObjToCS4247/Program.cs:236-287 | the file written has the given name and exactly the lines of `Layout` of the current state |
| ParserProperties.ValidLibraryHasDistinctIds | ObjToCS4247/Program.cs:205 | when the table maps every material's id to its position, no two materials share an id |
| ParserProperties.FinalizeAppends | ObjToCS4247/Program.cs:228-233 | saving the material under construction appends it, and only it, to the list |
| ParserProperties.FinalizeKeepsLibrary | ObjToCS4247/Program.cs:228-233 | saving a material keeps `materialIdTable[materials[i].id] == i` for every i, and every key pointing at its material |
| ParserProperties.MaterialStepKeepsLibrary | ObjToCS4247/Program.cs:199-224 | one material-file line keeps the table invariant |
| ParserProperties.MaterialStepIds | ObjToCS4247/Program.cs:200-217 | one line adds exactly the `newmtl` id, if any, to the ids saved or under construction |
| ParserProperties.MaterialsFromKeepsLibrary | ObjToCS4247/Program.cs:197-233 | the whole loop plus the final save keeps the table invariant |
| ParserProperties.MaterialsFromIds | ObjToCS4247/Program.cs:197-233 | after a material file, the ids are the earlier ids, then the pending one, then the `newmtl` ids in file order |
| ParserProperties.MaterialsFromExtends | ObjToCS4247/Program.cs:204 | a material file only appends: the earlier materials stay in place as a prefix |
| ParserProperties.MaterialsOfKeepsLibrary | ObjToCS4247/Program.cs:186-234 | a successful `ParseMaterials` keeps the table invariant; a blank name changes nothing; otherwise the ids grow by the file's `newmtl` ids in order |
| ParserProperties.MaterialsOfExtends | ObjToCS4247/Program.cs:186-234 | `ParseMaterials` keeps the earlier materials as a prefix |
| ParserProperties.MaterialsOfIdsAreFresh | ObjToCS4247/Program.cs:205 | a successful `ParseMaterials` means the file's ids are distinct and new, so a repeated id, in one file or across two `mtllib` lines, fails |
| ParserProperties.MaterialStepKeepsEmission | ObjToCS4247/Program.cs:208-214 | every line keeps each material's emission equal to the `Light` rule's colour for its id |
| ParserProperties.MaterialsFromKeepsEmission | ObjToCS4247/Program.cs:197-233 | across a material file, every material keeps the emission the `Light` rule gives it |
| ParserProperties.MaterialsOfEmission | ObjToCS4247/Program.cs:211-214 | after `ParseMaterials`, a material's emission is (20 12 10) when its id starts with `Light` and (0 0 0) otherwise, whatever `Kd` lines say |
| ParserProperties.DiffuseAfterSnoc | ObjToCS4247/Program.cs:219-224 | a further `Kd` line overrides the diffuse colour; any other line keeps it |
| ParserProperties.BlockBody | ObjToCS4247/Program.cs:219-224 | the lines of a material's block set its diffuse colour to that of the last `Kd` among them |
| ParserProperties.NewmtlStep | ObjToCS4247/Program.cs:200-217 | a `newmtl` line saves the pending material and starts `new Material(id)` with the line's id: diffuse left at its default (0 0 0), emission set by the `Light` rule |
| ParserProperties.NewmtlUnfold | ObjToCS4247/Program.cs:200-217 | after a `newmtl` line, the rest of the file is parsed from the saved list and the fresh material |
| ParserProperties.BlockClose | ObjToCS4247/Program.cs:228-233 | the material under construction is saved at the next position when its block ends, at the next `newmtl` or the end of the file |
| ParserProperties.BlockAfterNewmtl | ObjToCS4247/Program.cs:200-224 | a fresh material followed by its block is saved with the last `Kd` colour of the block, or (0 0 0) when there is none |
| ParserProperties.NewmtlBlock | ObjToCS4247/Program.cs:200-233 | a `newmtl` block is saved right after the earlier and pending materials, with the block's id, last `Kd` colour (0 0 0 without one) and `Light` emission |
| ParserProperties.KdBeforeNewmtlFails | ObjToCS4247/Program.cs:219-222 | a `Kd` line before any `newmtl` makes the material file fail |
| RunProperties.SkippedLines | ObjToCS4247/Program.cs:128-132 | an empty line or one starting with `#` changes neither the state nor the active material |
| RunProperties.UnknownDirective | ObjToCS4247/Program.cs:134-161 | a line with none of the prefixes `mtllib`, `v`, `usemtl`, `f` changes nothing |
| RunProperties.MtllibLine | ObjToCS4247/Program.cs:134-138 | an `mtllib` line, tested before `v`, fails without a second field and otherwise parses that material file, leaving vertices, faces and the active material alone |
| RunProperties.BlankMtllib | ObjToCS4247/Program.cs:188-192 | an `mtllib` line whose second field is empty changes nothing |
| RunProperties.VertexLine | ObjToCS4247/Program.cs:140-144 | a `v` line shorter than two characters fails; otherwise it appends the vertex parsed from the text after its first two characters |
| RunProperties.VertexRoundTrip | ObjToCS4247/Program.cs:168-172 | parsing a vertex's text gives that vertex back |
| RunProperties.SpacedVertexLineFails | ObjToCS4247/Program.cs:140-144 | a `v` line whose third character is a space, as in `vn 0 1 0`, fails on the empty first field |
| RunProperties.NormalLineFails | ObjToCS4247/Program.cs:140-144 | a vertex-normal line `vn 0 1 0` makes the run fail |
| RunProperties.FaceIndices | ObjToCS4247/Program.cs:174-184 | a face fails without an active material; it succeeds exactly when the fields it reads parse; four fields give `v1..v4` = field − 1; otherwise `v1..v3` = field − 1 and `v4 = v3`; the material is the table's value for the active id |
| RunProperties.FaceMaterialIsActive | ObjToCS4247/Program.cs:177-178 | with the table invariant, the position looked up for an active material is the one material with its id |
| RunProperties.FaceLine | ObjToCS4247/Program.cs:158-161 | an `f` line shorter than two characters fails; otherwise it appends the face parsed from the rest and keeps the active material |
| RunProperties.FaceWithoutMaterialFails | ObjToCS4247/Program.cs:178 | an `f` line with no active material fails |
| RunProperties.OnlyUsemtlSelects | ObjToCS4247/Program.cs:146-156 | only a `usemtl` line changes the active material |
| RunProperties.FaceBeforeUsemtlFails | ObjToCS4247/Program.cs:120-161 | a face line before any `usemtl` line makes the run fail |
| RunProperties.GuardNeverFires | ObjToCS4247/Program.cs:149-152 | the id `TryGetValue` leaves behind is never negative, so the `-1` test never skips the indexer |
| RunProperties.UsemtlLine | ObjToCS4247/Program.cs:146-156 | a known key selects the material with that id; an unknown key selects `materials[0]`, or fails when there are no materials; a line shorter than seven characters fails |
| RunProperties.EmptyStateInvariant | ObjToCS4247/Program.cs:109-120 | the run invariant holds for a new parser with no active material |
| RunProperties.MtllibKeepsInvariant | ObjToCS4247/Program.cs:134-138 | an `mtllib` line keeps the run invariant |
| RunProperties.FaceKeepsInvariant | ObjToCS4247/Program.cs:158-161 | an `f` line keeps the run invariant: the new face's material is a valid position |
| RunProperties.UsemtlKeepsInvariant | ObjToCS4247/Program.cs:146-161 | a `usemtl` line keeps the run invariant: the selected material is in the list |
| RunProperties.StepKeepsInvariant | ObjToCS4247/Program.cs:126-161 | every geometry line keeps the table invariant, the `Light`-rule emission of every material, an active material in the list, and every face's material a valid position |
| RunProperties.RunKeepsInvariant | ObjToCS4247/Program.cs:124-162 | the whole line loop keeps the run invariant |
| RunProperties.StepCounts | ObjToCS4247/Program.cs:140-161 | a line appends its own vertex; a `v` line adds one vertex and an `f` line one face; other lines add neither |
| RunProperties.RunVertices | ObjToCS4247/Program.cs:140-143 | the vertices after the loop are the earlier ones followed by the file's vertices in file order |
| RunProperties.RunVertexCount | ObjToCS4247/Program.cs:140-143 | after a successful loop, there is one vertex per line starting with `v` |
| RunProperties.RunFaces | ObjToCS4247/Program.cs:158-161 | after a successful loop, there is one more face per line starting with `f` |
| RunProperties.ConversionSummary | ObjToCS4247/Program.cs:117-166 | a successful conversion from a new parser writes `fileName.parserout` with the layout of the parsed state; the vertices are the file's in order, one per `v` line; there is one face per `f` line; the table is consistent, ids are distinct, every face's material is a valid position, and every material written out has emission (20 12 10) when its id starts with `Light` and (0 0 0) otherwise |
| RunProperties.KdRoundTrip | ObjToCS4247/Program.cs:219-223 | a `Kd` line printed from a colour sets exactly that diffuse colour |
| OutputProperties.VertexRowsLength | ObjToCS4247/Program.cs:247-250 | one output row per vertex |
| OutputProperties.MaterialRowsLength | ObjToCS4247/Program.cs:260-266 | four output rows per material |
| OutputProperties.FaceRowsLength | ObjToCS4247/Program.cs:276-282 | four output rows per face |
| OutputProperties.VertexRowAt | ObjToCS4247/Program.cs:247-250 | row i of the vertex rows is vertex i's text |
| OutputProperties.MaterialRowAt | ObjToCS4247/Program.cs:260-266 | rows 4j..4j+3 are material j's `# id`, diffuse, emissive and blank line |
| OutputProperties.FaceRowAt | ObjToCS4247/Program.cs:276-282 | rows 4j..4j+3 are face j's material position, `1`, vertex string and blank line |
| OutputProperties.LayoutSections | ObjToCS4247/Program.cs:241-284 | the output is three sections, each a header, a count, a blank line, its rows and a blank line |
| OutputProperties.LayoutFixedLines | ObjToCS4247/Program.cs:242-284 | the output has 12 + n + 4m + 4k lines, with its headers, counts and blank lines at fixed positions |
| OutputProperties.LayoutVertexAt | ObjToCS4247/Program.cs:247-250 | output line 3 + i is vertex i's text |
| OutputProperties.LayoutMaterialAt | ObjToCS4247/Program.cs:260-266 | output line 7 + n + 4j + r is row r of material j |
| OutputProperties.LayoutFaceAt | ObjToCS4247/Program.cs:276-282 | output line 11 + n + 4m + 4j + r is row r of face j |
| OutputProperties.LayoutCountsReadBack | ObjToCS4247/Program.cs:243 | each count line parses back to the length of its list |
| Scenarios.MaterialFile | ObjToCS4247/Program.cs:197-233 | the material file `newmtl Red`, `Kd 1 0 0` gives the one material Red (diffuse 1 0 0, emissive 0 0 0) at position 0 |
| Scenarios.SceneParse | ObjToCS4247/Program.cs:124-162 | the sample scene parses to two vertices, the material Red and the face (0 1 1 1) using material 0 |
| Scenarios.SceneLayout | ObjToCS4247/Program.cs:236-287 | the sample scene's parsed state is written as exactly the expected 22 lines |
| Scenarios.SceneConversion | ObjToCS4247/Program.cs:117-166 | converting the sample scene from a new parser writes `scene.obj.parserout` with exactly the expected lines |

## Left out

- `Program.Main` (Program.cs:83-99): command-line handling and the
  `Console.ReadLine` prompt, which are glue outside the parser.
- The `Console.WriteLine` messages (Program.cs:165, 190, 238): diagnostics
  only.
- File access (Program.cs:122, 195, 239). Reading is a lookup in the map
  passed in. Writing returns the path and lines of the file. Resolving paths
  against the working directory and I/O errors other than a missing file are
  left out.
- The unused `Color(float v)` constructor (Program.cs:54-57).
- Floating point. `Vertex` and `Color` hold the text of each number as read,
  and `Text.IsFloatText` recognises plain decimal text with an optional sign,
  point and exponent. `Single.Parse`'s culture-dependent forms are left out:
  thousands separators, `Infinity`, `NaN` and a culture's decimal separator.
  Rounding to single precision is left out too.
- Number text is parsed and printed as in the invariant culture, by
  `Text.ParseInt32`, `Text.IsFloatText` and `Text.IntToString`. A culture's
  own sign symbols are left out, such as the U+2212 minus sign some cultures
  print for the face index -1. The trailing NUL characters that .NET's
  `Int32.Parse` and `Single.Parse` skip are rejected, so `f 1 2 3\0` and
  `v 1 2 3\0` fail in the model where .NET appends a face or a vertex.
- Geometry.VertexText: prints each coordinate as it was read, not as
  `Single.ToString` reformats it, so `1.50` is written back as `1.50` rather
  than `1.5`.
- Geometry.ColorText: prints the components as read, in the same way. The
  constants `Black` and `LightEmission` are the texts `Single.ToString` gives
  for 0 and for 20, 12 and 10.
- `StartsWith`: modelled as the ordinal comparison, not the culture-sensitive
  one .NET uses by default. The two agree on printable ASCII text in
  cultures without contractions, such as the invariant culture or en-US.
  Culture-sensitive matching ignores NUL and the other ignorable control
  characters, so in .NET a line such as `"\0v 1 2 3"` counts as a `v` line
  (and then fails in `ParseVertex`), while the model skips it as an unknown
  directive. Contractions such as Welsh `ff` against the prefix `f` differ
  too.
- Strings are sequences of Unicode scalar values, not of UTF-16 code units
  as in .NET. So `line[0]`, `Substring(2)` and `Substring(7)` differ from
  .NET when a character outside the Basic Multilingual Plane is among a
  line's first seven characters; on every other line they agree.
- ObjParser.Parser.Run: on failure, the contract says which exception ends
  the run but not the state it leaves behind, which the program never uses
  afterwards.
- ObjParser.Parser.ParseMaterials: on failure, the state left behind is not
  described. The code may already have appended a material whose id then
  proves a duplicate.
- ObjParser.Parser.WriteToFile: builds each section's rows in a list and
  returns all lines at once, rather than streaming them to a `StreamWriter`.
- Concurrency and resource disposal (`using`) have no counterpart.
