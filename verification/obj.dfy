/**
  `Obj::load` over lines already split at whitespace: `v`, `vn` and `vt`
  lines fill three tables, every `f` line appends three vertices assembled
  from its first three corner tokens and three sequential indices, and any
  other line is ignored. A number that does not parse aborts the whole
  load; a face index of 0 underflows `- 1`, which panics in a debug build.
 */
module ObjLoader {
  import opened Numeric
  import opened Vectors
  import opened Colors
  import opened VertexStage
  import opened Render

  /**
    The two number parsers the loader calls, `str::parse::<f32>` and
    `str::parse::<usize>`: None when the text is not a number.
   */
  datatype Parsers = Parsers(float: string -> Option<real>, index: string -> Option<nat>)

  /** How a load, or a step of it, ends: with a value, with a parse error, or with the `- 1` underflow panic. */
  datatype Outcome<T> = Ok(value: T) | ParseError | Underflow

  /** The loader's five growing arrays. */
  datatype Loader = Loader(
    positions: seq<Vec3>,
    normals: seq<Vec3>,
    texCoords: seq<Vec2>,
    vertices: seq<Vertex>,
    indices: seq<U32>)

  const Empty := Loader([], [], [], [], [])

  /** The loaded mesh. */
  datatype Obj = Obj(vertices: seq<Vertex>, indices: seq<U32>)

  /** The normal a corner gets when it names none, or one that does not exist. */
  const DefaultNormal := Vec3(0.0, 1.0, 0.0)

  /** The texture coordinate a corner gets when it names none, or one that does not exist. */
  const DefaultTex := Vec2(0.0, 0.0)

  /** `split('/')`: the pieces between the slashes, empty ones included. */
  function Split(s: string): (parts: seq<string>)
    ensures |parts| >= 1
    ensures forall p <- parts :: '/' !in p
  {
    if s == [] then [""]
    else
      var rest := Split(s[1..]);
      if s[0] == '/' then [""] + rest else [[s[0]] + rest[0]] + rest[1..]
  }

  /** The pieces put back together with a slash between neighbours. */
  function Join(parts: seq<string>): string
    requires |parts| >= 1
  {
    if |parts| == 1 then parts[0] else parts[0] + "/" + Join(parts[1..])
  }

  /** Splitting loses nothing: the pieces, slash-free, join back to the token. */
  lemma {:induction false} SplitJoin(s: string)
    ensures Join(Split(s)) == s
  {
    if s != [] {
      var rest := Split(s[1..]);
      SplitJoin(s[1..]);
      if s[0] == '/' {
        assert Split(s) == [""] + rest;
        assert s == "/" + s[1..];
      } else {
        JoinCons(s[0], rest);
        assert s == [s[0]] + s[1..];
      }
    }
  }

  /** A character put in front of the first piece is put in front of the join. */
  lemma JoinCons(c: char, parts: seq<string>)
    requires |parts| >= 1
    ensures Join([[c] + parts[0]] + parts[1..]) == [c] + Join(parts)
  {
    if |parts| == 1 {
      assert [[c] + parts[0]] + parts[1..] == [[c] + parts[0]];
    } else {
      var head, rest := parts[0], parts[1..];
      assert parts == [head] + rest;
      JoinFront([c] + head, rest);
      JoinFront(head, rest);
      AppendAssoc([c], head, "/" + Join(rest));
    }
  }

  /** Joining a piece in front of at least one more puts a slash after it. */
  lemma JoinFront(head: string, rest: seq<string>)
    requires |rest| >= 1
    ensures Join([head] + rest) == head + ("/" + Join(rest))
  {
    assert ([head] + rest)[1..] == rest;
  }

  lemma AppendAssoc<T>(a: seq<T>, b: seq<T>, c: seq<T>)
    ensures (a + b) + c == a + (b + c)
  {
  }

  /** `t.get(k - 1)` for a one-based index k, with the default when it is missing. */
  function Fetch<T>(table: seq<T>, k: nat, default: T): (r: T)
    requires 1 <= k
    ensures k <= |table| ==> r == table[k - 1]
    ensures |table| < k ==> r == default
  {
    if k - 1 < |table| then table[k - 1] else default
  }

  /**
    The optional piece at position i of a corner (the normal at 2, the
    texture coordinate at 1): absent or empty gives the default, otherwise
    it is parsed, made zero-based and looked up.
   */
  function Optional<T>(p: Parsers, data: seq<string>, i: nat, table: seq<T>, default: T): (r: Outcome<T>)
    ensures !(|data| > i && data[i] != "") ==> r == Ok(default)
    ensures |data| > i && data[i] != "" ==>
      match p.index(data[i])
      case None => r == ParseError
      case Some(k) => (k == 0 ==> r == Underflow) && (1 <= k ==> r == Ok(Fetch(table, k, default)))
  {
    if |data| > i && data[i] != "" then
      match p.index(data[i])
      case None => ParseError
      case Some(k) => if k == 0 then Underflow else Ok(Fetch(table, k, default))
    else Ok(default)
  }

  /**
    One corner token of a face, `pos/tex/normal`: the position index is
    parsed first and must be at least 1, then the normal, then the texture
    coordinate; a missing table entry falls back to the origin, (0, 1, 0)
    and (0, 0) respectively.
   */
  function Corner(p: Parsers, st: Loader, token: string): (r: Outcome<Vertex>)
    ensures p.index(Split(token)[0]) == None ==> r == ParseError
    ensures p.index(Split(token)[0]) == Some(0) ==> r == Underflow
    ensures r.Ok? ==>
      (exists k: nat :: 1 <= k && p.index(Split(token)[0]) == Some(k) && r.value.position == Fetch(st.positions, k, Origin))
    ensures r.Ok? ==> Optional(p, Split(token), 2, st.normals, DefaultNormal) == Ok(r.value.normal)
    ensures r.Ok? ==> Optional(p, Split(token), 1, st.texCoords, DefaultTex) == Ok(r.value.texCoords)
    ensures r.Ok? ==> r.value.color == Black && r.value.transformedPosition == r.value.position
    ensures r.Ok? ==> r.value.transformedNormal == r.value.normal
  {
    var data := Split(token);
    match p.index(data[0])
    case None => ParseError
    case Some(k) =>
      if k == 0 then Underflow
      else
        var position := Fetch(st.positions, k, Origin);
        match Optional(p, data, 2, st.normals, DefaultNormal)
        case ParseError => ParseError
        case Underflow => Underflow
        case Ok(normal) =>
          match Optional(p, data, 1, st.texCoords, DefaultTex)
          case ParseError => ParseError
          case Underflow => Underflow
          case Ok(tex) => Ok(NewVertex(position, normal, tex))
  }

  /** A bare `f` index with no texture or normal piece takes both defaults. */
  lemma CornerDefaults(p: Parsers, st: Loader, token: string)
    requires |Split(token)| == 1
    requires Corner(p, st, token).Ok?
    ensures Corner(p, st, token).value.normal == DefaultNormal
    ensures Corner(p, st, token).value.texCoords == DefaultTex
  {
  }

  /**
    `vertices.push(v); indices.push(vertices.len() as u32 - 1)`. The length
    is cut to 32 bits by `as u32`, so the index wraps, and underflows at
    2^32 vertices.
   */
  function Push(st: Loader, v: Vertex): (r: Outcome<Loader>)
    ensures r.Ok? ==> r.value == st.(vertices := st.vertices + [v], indices := st.indices + [|st.vertices| % 0x1_0000_0000])
    ensures r.Underflow? <==> (|st.vertices| + 1) % 0x1_0000_0000 == 0
  {
    var n := (|st.vertices| + 1) % 0x1_0000_0000;
    if n == 0 then Underflow
    else Ok(st.(vertices := st.vertices + [v], indices := st.indices + [n - 1]))
  }

  /** One corner assembled and pushed, stopping at the first error. */
  function AddCorner(p: Parsers, st: Outcome<Loader>, token: string): (r: Outcome<Loader>) {
    match st
    case Ok(s) =>
      (match Corner(p, s, token)
       case Ok(v) => Push(s, v)
       case ParseError => ParseError
       case Underflow => Underflow)
    case ParseError => ParseError
    case Underflow => Underflow
  }

  /** An `f` line: tokens 1, 2 and 3, in order. */
  function Face(p: Parsers, st: Loader, t1: string, t2: string, t3: string): Outcome<Loader> {
    AddCorner(p, AddCorner(p, AddCorner(p, Ok(st), t1), t2), t3)
  }

  /** The three numbers of a `v` or `vn` line, or a parse error at the first that fails. */
  function Triple(p: Parsers, a: string, b: string, c: string): (r: Outcome<Vec3>)
    ensures r.Ok? <==> p.float(a).Some? && p.float(b).Some? && p.float(c).Some?
    ensures !r.Underflow?
  {
    match (p.float(a), p.float(b), p.float(c))
    case (Some(x), Some(y), Some(z)) => Ok(Vec3(x, y, z))
    case _ => ParseError
  }

  /** The two numbers of a `vt` line. */
  function Pair(p: Parsers, a: string, b: string): (r: Outcome<Vec2>)
    ensures r.Ok? <==> p.float(a).Some? && p.float(b).Some?
    ensures !r.Underflow?
  {
    match (p.float(a), p.float(b))
    case (Some(u), Some(v)) => Ok(Vec2(u, v))
    case _ => ParseError
  }

  /** The line is a face the loader reads: keyword `f` and at least three corners. */
  predicate IsFace(parts: seq<string>) {
    |parts| >= 4 && parts[0] == "f"
  }

  /** The line is one the loader skips: empty, an unknown keyword, or a known one with too few tokens. */
  predicate Ignored(parts: seq<string>) {
    || parts == []
    || (parts[0] !in {"v", "vn", "vt", "f"})
    || (parts[0] in {"v", "vn", "f"} && |parts| < 4)
    || (parts[0] == "vt" && |parts| < 3)
  }

  /**
    The arrays agree: one vertex per index, and index k is k. The count
    stays below 2^32, since the push that would reach it underflows.
   */
  predicate Counted(st: Loader) {
    && |st.vertices| == |st.indices| < 0x1_0000_0000
    && forall k :: 0 <= k < |st.indices| ==> st.indices[k] == k
  }

  /** Between lines the arrays also hold whole triangles. */
  predicate WellIndexed(st: Loader) {
    Counted(st) && |st.indices| % 3 == 0
  }

  /** A push keeps the arrays in step. */
  lemma PushCounted(st: Loader, v: Vertex)
    requires Counted(st)
    ensures Push(st, v).Ok? ==> Counted(Push(st, v).value) && |Push(st, v).value.vertices| == |st.vertices| + 1
    ensures Push(st, v).Ok? ==> Push(st, v).value.(vertices := st.vertices, indices := st.indices) == st
  {
  }

  /** A successful corner adds one vertex and one index and touches nothing else. */
  lemma AddCornerCounted(p: Parsers, st: Outcome<Loader>, token: string)
    requires st.Ok? ==> Counted(st.value)
    ensures AddCorner(p, st, token).Ok? ==> st.Ok? && Counted(AddCorner(p, st, token).value)
    ensures AddCorner(p, st, token).Ok? ==> |AddCorner(p, st, token).value.vertices| == |st.value.vertices| + 1
    ensures AddCorner(p, st, token).Ok? ==>
      AddCorner(p, st, token).value.(vertices := st.value.vertices, indices := st.value.indices) == st.value
  {
    if st.Ok? {
      var c := Corner(p, st.value, token);
      if c.Ok? {
        PushCounted(st.value, c.value);
      }
    }
  }

  /** A face adds three vertices and three indices, keeps whole triangles, and leaves the tables alone. */
  lemma FaceShape(p: Parsers, st: Loader, t1: string, t2: string, t3: string)
    ensures WellIndexed(st) && Face(p, st, t1, t2, t3).Ok? ==>
      var r := Face(p, st, t1, t2, t3).value;
      && WellIndexed(r)
      && |r.vertices| == |st.vertices| + 3
      && r.positions == st.positions && r.normals == st.normals && r.texCoords == st.texCoords
  {
    if WellIndexed(st) {
      var s1 := AddCorner(p, Ok(st), t1);
      AddCornerCounted(p, Ok(st), t1);
      var s2 := AddCorner(p, s1, t2);
      AddCornerCounted(p, s1, t2);
      var s3 := AddCorner(p, s2, t3);
      AddCornerCounted(p, s2, t3);
      assert Face(p, st, t1, t2, t3) == s3;
    }
  }

  /**
    The per-line dispatch of `Obj::load`. A `v`, `vn` or `vt` line appends
    to its table, an `f` line to the vertices and indices, anything else is
    skipped; a bad number ends the load.
   */
  function Line(p: Parsers, st: Loader, parts: seq<string>): (r: Outcome<Loader>)
    ensures Ignored(parts) ==> r == Ok(st)
    ensures r.Ok? && !IsFace(parts) ==> r.value.vertices == st.vertices && r.value.indices == st.indices
    ensures WellIndexed(st) && r.Ok? ==> WellIndexed(r.value)
    ensures WellIndexed(st) && r.Ok? && IsFace(parts) ==>
      |r.value.vertices| == |st.vertices| + 3 && r.value.positions == st.positions
  {
    if parts == [] then Ok(st)
    else if parts[0] == "v" && |parts| >= 4 then
      match Triple(p, parts[1], parts[2], parts[3])
      case Ok(v) => Ok(st.(positions := st.positions + [v]))
      case _ => ParseError
    else if parts[0] == "vn" && |parts| >= 4 then
      match Triple(p, parts[1], parts[2], parts[3])
      case Ok(v) => Ok(st.(normals := st.normals + [v]))
      case _ => ParseError
    else if parts[0] == "vt" && |parts| >= 3 then
      match Pair(p, parts[1], parts[2])
      case Ok(t) => Ok(st.(texCoords := st.texCoords + [t]))
      case _ => ParseError
    else if parts[0] == "f" && |parts| >= 4 then
      FaceShape(p, st, parts[1], parts[2], parts[3]);
      Face(p, st, parts[1], parts[2], parts[3])
    else Ok(st)
  }

  /** Only the first three corners of a face are read: a quad or larger face is cut to its first triangle. */
  lemma FaceUsesThreeCorners(p: Parsers, st: Loader, parts: seq<string>)
    requires IsFace(parts)
    ensures Line(p, st, parts) == Line(p, st, parts[..4])
  {
  }

  /** The state after a run of lines, stopping at the first failing line. */
  function Lines(p: Parsers, lines: seq<seq<string>>): (r: Outcome<Loader>)
    ensures r.Ok? ==> WellIndexed(r.value)
  {
    if lines == [] then Ok(Empty)
    else
      match Lines(p, lines[..|lines| - 1])
      case Ok(st) => Line(p, st, lines[|lines| - 1])
      case ParseError => ParseError
      case Underflow => Underflow
  }

  /** A failed load stays failed whatever lines follow: `?` returns at once. */
  lemma {:induction false} FailureIsFinal(p: Parsers, lines: seq<seq<string>>, more: seq<seq<string>>)
    requires !Lines(p, lines).Ok?
    ensures Lines(p, lines + more) == Lines(p, lines)
    decreases |more|
  {
    if more != [] {
      var init := more[..|more| - 1];
      FailureIsFinal(p, lines, init);
      assert (lines + more)[..|lines + more| - 1] == lines + init;
    } else {
      assert lines + more == lines;
    }
  }

  /** `Obj::load` on the lines of a file: the mesh, or the way it failed. */
  function Load(p: Parsers, lines: seq<seq<string>>): (r: Outcome<Obj>)
    ensures r.Ok? <==> Lines(p, lines).Ok?
    ensures r.Ok? ==> |r.value.vertices| == |r.value.indices| && |r.value.indices| % 3 == 0
    ensures r.Ok? ==> forall k :: 0 <= k < |r.value.indices| ==> r.value.indices[k] == k
  {
    match Lines(p, lines)
    case Ok(st) => Ok(Obj(st.vertices, st.indices))
    case ParseError => ParseError
    case Underflow => Underflow
  }

  /** The loop of `Obj::load`, returning at the first error. */
  method LoadLines(p: Parsers, lines: seq<seq<string>>) returns (r: Outcome<Obj>)
    ensures r == Load(p, lines)
  {
    var st := Empty;
    for n := 0 to |lines|
      invariant Lines(p, lines[..n]) == Ok(st)
    {
      assert lines[..n + 1][..n] == lines[..n];
      var next := Line(p, st, lines[n]);
      if !next.Ok? {
        FailureIsFinal(p, lines[..n + 1], lines[n + 1..]);
        assert lines[..n + 1] + lines[n + 1..] == lines;
        return if next.ParseError? then ParseError else Underflow;
      }
      st := next.value;
    }
    assert lines[..|lines|] == lines;
    r := Ok(Obj(st.vertices, st.indices));
  }

  /** `get_vertex_and_index_arrays`: copies of the two arrays. */
  function Arrays(obj: Obj): (r: (seq<Vertex>, seq<U32>))
    ensures |r.0| == |obj.vertices| && |r.1| == |obj.indices|
    ensures forall k :: 0 <= k < |r.1| ==> r.1[k] == obj.indices[k]
  {
    (obj.vertices, obj.indices)
  }

  /** Every face of a loaded mesh is drawn: its indices name existing vertices, three per triangle. */
  lemma LoadedMeshFullyDrawn(p: Parsers, lines: seq<seq<string>>)
    requires Load(p, lines).Ok?
    ensures var arrays := Arrays(Load(p, lines).value);
      |Groups(arrays.1, |arrays.0|)| == |arrays.1| / 3
  {
    var arrays := Arrays(Load(p, lines).value);
    var vs, ix := arrays.0, arrays.1;
    forall i <- ix
      ensures i < |vs|
    {
      var k :| 0 <= k < |ix| && ix[k] == i;
    }
    FullyDrawn(ix, |vs|);
  }
}
