/** The Wavefront OBJ loader: the word loop that fills the attribute pools and the face
    index lists (ProcessFile), de-indexing into per-corner attributes (ProcessData), and
    interleaving them into a buffer of eight floats per corner (CreateVertices). */
module ObjParser {
  import opened Geometry
  import opened Wrappers

  /** A whitespace-delimited word of the file as the loader's conversions see it. Every
      token is a word to "%s"; a `Number` is also a word "%f" converts, and an
      `IndexTriple` is a word "%d/%d/%d" converts in full. */
  datatype Token =
    | Word(text: string)
    | Number(value: real)
    | IndexTriple(p: int, t: int, n: int)

  /** The two kinds of conversion the loader applies after a keyword. */
  datatype Conversion = Float | Triple

  predicate Converts(t: Token, c: Conversion) {
    match c
    case Float => t.Number?
    case Triple => t.IndexTriple?
  }

  /** The three attribute pools and the three index lists the word loop fills. */
  datatype Pools = Pools(
    positions: seq<Vec3>,
    textures: seq<Vec2>,
    normals: seq<Vec3>,
    posIndices: seq<int>,
    texIndices: seq<int>,
    norIndices: seq<int>)

  const EmptyPools := Pools([], [], [], [], [], [])

  /** The index lists grow together, three entries per accepted face. */
  predicate Shaped(p: Pools) {
    && |p.texIndices| == |p.posIndices|
    && |p.norIndices| == |p.posIndices|
    && |p.posIndices| % 3 == 0
  }

  /** How many conversions of kind `c` succeed in a row from position `from`, at most `k`:
      the run of words a scanf with `k` such conversions consumes before it stops. */
  function Converted(toks: seq<Token>, from: nat, k: nat, c: Conversion): (n: nat)
    decreases k
    ensures n <= k
    ensures from + n <= |toks| || n == 0
    ensures forall j :: from <= j < from + n ==> Converts(toks[j], c)
    ensures n < k && from + n < |toks| ==> !Converts(toks[from + n], c)
  {
    if k == 0 || from >= |toks| || !Converts(toks[from], c) then 0
    else 1 + Converted(toks, from + 1, k - 1, c)
  }

  /** Component `j` of a vector read by up to three "%f" conversions from `from`; a
      component the conversions did not reach is 0. */
  function FloatAt(toks: seq<Token>, from: nat, k: nat, j: nat): real {
    var n := Converted(toks, from, k, Float);
    if j < n then toks[from + j].value else 0.0
  }

  /** The "%d/%d/%d %d/%d/%d %d/%d/%d" conversion after an "f" at position `i`: the number
      of integers it stores. */
  function FaceMatches(toks: seq<Token>, i: nat): nat {
    3 * Converted(toks, i + 1, 3, Triple)
  }

  /** The outcome of one pass of the word loop at position `i`: the position of the next
      word and the updated pools, or the early return on a malformed face. */
  datatype Pass = Continue(next: nat, pools: Pools) | Halt

  function Step(toks: seq<Token>, i: nat, s: Pools): (r: Pass)
    requires i < |toks|
    ensures r.Continue? ==> i < r.next <= |toks|
  {
    if toks[i] == Word("v") then
      var n := Converted(toks, i + 1, 3, Float);
      var v := Vec3(FloatAt(toks, i + 1, 3, 0), FloatAt(toks, i + 1, 3, 1), FloatAt(toks, i + 1, 3, 2));
      Continue(i + 1 + n, s.(positions := s.positions + [v]))
    else if toks[i] == Word("vt") then
      var n := Converted(toks, i + 1, 2, Float);
      var vt := Vec2(FloatAt(toks, i + 1, 2, 0), FloatAt(toks, i + 1, 2, 1));
      Continue(i + 1 + n, s.(textures := s.textures + [vt]))
    else if toks[i] == Word("vn") then
      var n := Converted(toks, i + 1, 3, Float);
      var vn := Vec3(FloatAt(toks, i + 1, 3, 0), FloatAt(toks, i + 1, 3, 1), FloatAt(toks, i + 1, 3, 2));
      Continue(i + 1 + n, s.(normals := s.normals + [vn]))
    else if toks[i] == Word("f") then
      if FaceMatches(toks, i) != 9 then Halt
      else
        var a, b, c := toks[i + 1], toks[i + 2], toks[i + 3];
        Continue(i + 4, s.(posIndices := s.posIndices + [a.p, b.p, c.p],
                           texIndices := s.texIndices + [a.t, b.t, c.t],
                           norIndices := s.norIndices + [a.n, b.n, c.n]))
    else
      Continue(i + 1, s)
  }

  /** The pools the word loop holds at the end of the file (or at the early return), having
      started at position `i` with `s`. */
  function Scan(toks: seq<Token>, i: nat, s: Pools): Pools
    requires i <= |toks|
    decreases |toks| - i
  {
    if i == |toks| then s
    else match Step(toks, i, s)
      case Halt => s
      case Continue(next, s') => Scan(toks, next, s')
  }

  /** The pools after reading `file` into empty pools; a file that cannot be opened adds
      nothing. */
  function ReadFile(file: Option<seq<Token>>): Pools {
    if file.None? then EmptyPools else Scan(file.value, 0, EmptyPools)
  }

  /** Every index in `idx` names an element of a pool of `size` elements (indices are 1-based). */
  predicate InRange(idx: seq<int>, size: nat) {
    forall k :: 0 <= k < |idx| ==> 1 <= idx[k] <= size
  }

  predicate IndicesInRange(p: Pools) {
    && InRange(p.posIndices, |p.positions|)
    && InRange(p.texIndices, |p.textures|)
    && InRange(p.norIndices, |p.normals|)
  }

  /** The pool elements the 1-based indices name, in index order. */
  function Gather<T>(pool: seq<T>, idx: seq<int>): (r: seq<T>)
    requires InRange(idx, |pool|)
    ensures |r| == |idx|
  {
    if idx == [] then []
    else Gather(pool, idx[..|idx| - 1]) + [pool[idx[|idx| - 1] - 1]]
  }

  /** The eight floats of one corner: position, texture coordinate, normal. */
  function CornerFloats(p: Vec3, t: Vec2, n: Vec3): seq<real> {
    [p.x, p.y, p.z, t.x, t.y, n.x, n.y, n.z]
  }

  /** The corners' attributes laid out one after another, eight floats each. */
  function Interleave(ps: seq<Vec3>, ts: seq<Vec2>, ns: seq<Vec3>): (r: seq<real>)
    requires |ts| == |ps| && |ns| == |ps|
    ensures |r| == 8 * |ps|
  {
    if ps == [] then []
    else
      var k := |ps| - 1;
      Interleave(ps[..k], ts[..k], ns[..k]) + CornerFloats(ps[k], ts[k], ns[k])
  }

  /** The vertex buffer for the pools `p`: each corner's attributes, looked up by its indices. */
  function VertexBuffer(p: Pools): seq<real>
    requires Shaped(p) && IndicesInRange(p)
  {
    Interleave(Gather(p.positions, p.posIndices), Gather(p.textures, p.texIndices), Gather(p.normals, p.norIndices))
  }

  /** The result of parse_OBJ: the buffer and the number of corners, or the rejection of a
      face index that names no element. */
  datatype ParseResult = Loaded(vertices: array<real>, count: nat) | IndexOutOfRange

  /** The nine vectors of the loader, which persist between calls. */
  class ObjLoader {
    var tempPositions: seq<Vec3>
    var tempTextures: seq<Vec2>
    var tempNormals: seq<Vec3>
    var posIndices: seq<int>
    var texIndices: seq<int>
    var norIndices: seq<int>
    var positions: seq<Vec3>
    var textures: seq<Vec2>
    var normals: seq<Vec3>

    /** The pools and index lists the word loop fills. */
    function Working(): Pools
      reads this
    {
      Pools(tempPositions, tempTextures, tempNormals, posIndices, texIndices, norIndices)
    }

    predicate Valid()
      reads this
    {
      && Shaped(Working())
      && |textures| == |positions|
      && |normals| == |positions|
    }

    predicate IsCleared()
      reads this
    {
      && tempPositions == [] && tempTextures == [] && tempNormals == []
      && posIndices == [] && texIndices == [] && norIndices == []
      && positions == [] && textures == [] && normals == []
    }

    constructor ()
      ensures IsCleared()
    {
      tempPositions, tempTextures, tempNormals := [], [], [];
      posIndices, texIndices, norIndices := [], [], [];
      positions, textures, normals := [], [], [];
    }

    /** Reads the words of `file`, appending to the pools and index lists, and returns early
        on the first face whose corners do not convert in full. */
    method ProcessFile(file: Option<seq<Token>>)
      requires Valid()
      modifies this
      ensures Valid()
      ensures Working() == (if file.None? then old(Working()) else Scan(file.value, 0, old(Working())))
      ensures positions == old(positions) && textures == old(textures) && normals == old(normals)
    {
      if file.None? {
        return;
      }
      var toks := file.value;
      ScanShape(toks, 0, Working());
      var i := 0;
      while i < |toks|
        invariant 0 <= i <= |toks|
        invariant Scan(toks, i, Working()) == Scan(toks, 0, old(Working()))
        invariant positions == old(positions) && textures == old(textures) && normals == old(normals)
        decreases |toks| - i
      {
        var next, stop := ProcessWord(toks, i);
        if stop {
          return;
        }
        i := next;
      }
    }

    /** One pass of the word loop: reads the word at `i` and what its keyword asks for. */
    method ProcessWord(toks: seq<Token>, i: nat) returns (next: nat, stop: bool)
      requires i < |toks|
      modifies this
      ensures stop <==> Step(toks, i, old(Working())).Halt?
      ensures stop ==> Working() == old(Working())
      ensures !stop ==> Step(toks, i, old(Working())) == Continue(next, Working())
      ensures positions == old(positions) && textures == old(textures) && normals == old(normals)
    {
      var word := toks[i];
      stop := false;
      if word == Word("v") {
        var n := Converted(toks, i + 1, 3, Float);
        tempPositions := tempPositions + [Vec3(FloatAt(toks, i + 1, 3, 0), FloatAt(toks, i + 1, 3, 1), FloatAt(toks, i + 1, 3, 2))];
        next := i + 1 + n;
      } else if word == Word("vt") {
        var n := Converted(toks, i + 1, 2, Float);
        tempTextures := tempTextures + [Vec2(FloatAt(toks, i + 1, 2, 0), FloatAt(toks, i + 1, 2, 1))];
        next := i + 1 + n;
      } else if word == Word("vn") {
        var n := Converted(toks, i + 1, 3, Float);
        tempNormals := tempNormals + [Vec3(FloatAt(toks, i + 1, 3, 0), FloatAt(toks, i + 1, 3, 1), FloatAt(toks, i + 1, 3, 2))];
        next := i + 1 + n;
      } else if word == Word("f") {
        var matches := FaceMatches(toks, i);
        if matches != 9 {
          return i, true;
        }
        var a, b, c := toks[i + 1], toks[i + 2], toks[i + 3];
        posIndices := posIndices + [a.p, b.p, c.p];
        texIndices := texIndices + [a.t, b.t, c.t];
        norIndices := norIndices + [a.n, b.n, c.n];
        next := i + 4;
      } else {
        next := i + 1;
      }
    }

    /** Appends, for every corner, the position, texture coordinate and normal its indices
        name. An index that names no element is reported and nothing is appended. */
    method ProcessData() returns (inRange: bool)
      requires Valid()
      modifies this
      ensures Valid()
      ensures Working() == old(Working())
      ensures inRange <==> IndicesInRange(Working())
      ensures inRange ==> && positions == old(positions) + Gather(tempPositions, posIndices)
                          && textures == old(textures) + Gather(tempTextures, texIndices)
                          && normals == old(normals) + Gather(tempNormals, norIndices)
      ensures !inRange ==> positions == old(positions) && textures == old(textures) && normals == old(normals)
    {
      inRange := IndicesInRange(Working());
      if !inRange {
        return;
      }
      positions := AppendGathered(positions, tempPositions, posIndices);
      textures := AppendGathered(textures, tempTextures, texIndices);
      normals := AppendGathered(normals, tempNormals, norIndices);
    }

    /** Empties all nine vectors. */
    method Clear()
      modifies this
      ensures IsCleared()
    {
      tempPositions, tempTextures, tempNormals := [], [], [];
      posIndices, texIndices, norIndices := [], [], [];
      positions, textures, normals := [], [], [];
    }

    /** Writes the ordered attributes into a new buffer, eight floats per corner, and
        empties all nine vectors. */
    method CreateVertices() returns (vertices: array<real>)
      requires Valid()
      modifies this
      ensures fresh(vertices)
      ensures vertices[..] == Interleave(old(positions), old(textures), old(normals))
      ensures IsCleared()
    {
      // The ordered vectors; the loop only reads them.
      var ps, ts, ns := positions, textures, normals;
      ghost var flat := Interleave(ps, ts, ns);
      vertices := new real[|positions| * 8];
      var i := 0;
      ghost var c := 0;
      while i < |ps| * 8
        modifies vertices
        invariant 0 <= c <= |ps| && i == 8 * c
        invariant forall k :: 0 <= k < i ==> vertices[k] == flat[k]
      {
        for j := 0 to 3
          modifies vertices
          invariant i == 8 * c + j
          invariant forall k :: 0 <= k < i ==> vertices[k] == flat[k]
        {
          InterleaveSlot(ps, ts, ns, c, j);
          vertices[i] := ps[i / 8].At(j);
          i := i + 1;
        }
        for j := 0 to 2
          modifies vertices
          invariant i == 8 * c + 3 + j
          invariant forall k :: 0 <= k < i ==> vertices[k] == flat[k]
        {
          InterleaveSlot(ps, ts, ns, c, 3 + j);
          vertices[i] := ts[i / 8].At(j);
          i := i + 1;
        }
        for j := 0 to 3
          modifies vertices
          invariant i == 8 * c + 5 + j
          invariant forall k :: 0 <= k < i ==> vertices[k] == flat[k]
        {
          InterleaveSlot(ps, ts, ns, c, 5 + j);
          vertices[i] := ns[i / 8].At(j);
          i := i + 1;
        }
        c := c + 1;
      }
      assert vertices[..] == flat;
      Clear();
    }

    /** Loads `file` into a vertex buffer: the words are read, de-indexed and interleaved,
        and the loader is left empty for the next call. */
    method ParseObj(file: Option<seq<Token>>) returns (r: ParseResult)
      requires IsCleared()
      modifies this
      ensures IsCleared()
      ensures r.Loaded? <==> IndicesInRange(ReadFile(file))
      ensures r.Loaded? ==> && fresh(r.vertices)
                            && r.count == |ReadFile(file).posIndices|
                            && r.count % 3 == 0
                            && r.vertices.Length == 8 * r.count
                            && Shaped(ReadFile(file))
                            && r.vertices[..] == VertexBuffer(ReadFile(file))
      ensures file.None? ==> r.Loaded? && r.count == 0 && r.vertices.Length == 0
    {
      ProcessFile(file);
      assert Working() == ReadFile(file);
      var ok := ProcessData();
      if !ok {
        Clear();
        return IndexOutOfRange;
      }
      var count := |positions|;
      ghost var read := Working();
      assert positions == Gather(read.positions, read.posIndices);
      assert textures == Gather(read.textures, read.texIndices);
      assert normals == Gather(read.normals, read.norIndices);
      var vertices := CreateVertices();
      return Loaded(vertices, count);
    }
  }

  /** One de-indexing loop: appends to `acc`, for each 1-based index in order, the pool
      element it names. */
  method AppendGathered<T>(acc: seq<T>, pool: seq<T>, idx: seq<int>) returns (r: seq<T>)
    requires InRange(idx, |pool|)
    ensures r == acc + Gather(pool, idx)
  {
    r := acc;
    for i := 0 to |idx|
      invariant r == acc + Gather(pool, idx[..i])
    {
      GatherSnoc(pool, idx, i);
      r := r + [pool[idx[i] - 1]];
    }
    assert idx[..|idx|] == idx;
  }

  /** Float 8c + j of the layout is slot `j` of corner `c`: the component the loader writes
      there. */
  lemma InterleaveSlot(ps: seq<Vec3>, ts: seq<Vec2>, ns: seq<Vec3>, c: nat, j: nat)
    requires |ts| == |ps| && |ns| == |ps| && c < |ps| && j < 8
    ensures (8 * c + j) / 8 == c
    ensures j < 3 ==> Interleave(ps, ts, ns)[8 * c + j] == ps[c].At(j)
    ensures 3 <= j < 5 ==> Interleave(ps, ts, ns)[8 * c + j] == ts[c].At(j - 3)
    ensures 5 <= j ==> Interleave(ps, ts, ns)[8 * c + j] == ns[c].At(j - 5)
  {
    InterleaveAt(ps, ts, ns, c);
    assert Interleave(ps, ts, ns)[8 * c + j] == Interleave(ps, ts, ns)[8 * c .. 8 * c + 8][j];
  }

  /** Gathering one more index appends the element it names. */
  lemma GatherSnoc<T>(pool: seq<T>, idx: seq<int>, i: nat)
    requires InRange(idx, |pool|) && i < |idx|
    ensures InRange(idx[..i], |pool|) && InRange(idx[..i + 1], |pool|)
    ensures Gather(pool, idx[..i + 1]) == Gather(pool, idx[..i]) + [pool[idx[i] - 1]]
  {
    var longer := idx[..i + 1];
    assert longer[..i] == idx[..i];
    assert longer[i] == idx[i];
    assert InRange(longer, |pool|) by {
      forall k | 0 <= k < |longer| ensures 1 <= longer[k] <= |pool| {
        assert longer[k] == idx[k];
      }
    }
  }

  /** Element `k` of a gathered sequence is the pool element index `k` names. */
  lemma {:induction false} GatherAt<T>(pool: seq<T>, idx: seq<int>, k: nat)
    requires InRange(idx, |pool|) && k < |idx|
    ensures Gather(pool, idx)[k] == pool[idx[k] - 1]
  {
    var last := |idx| - 1;
    if k < last {
      assert idx[..last][k] == idx[k];
      GatherAt(pool, idx[..last], k);
    }
  }

  /** Corner `k` occupies floats 8k .. 8k+7 of the interleaved layout. */
  lemma {:induction false} InterleaveAt(ps: seq<Vec3>, ts: seq<Vec2>, ns: seq<Vec3>, k: nat)
    requires |ts| == |ps| && |ns| == |ps| && k < |ps|
    ensures Interleave(ps, ts, ns)[8 * k .. 8 * k + 8] == CornerFloats(ps[k], ts[k], ns[k])
  {
    var last := |ps| - 1;
    var front := Interleave(ps[..last], ts[..last], ns[..last]);
    assert Interleave(ps, ts, ns) == front + CornerFloats(ps[last], ts[last], ns[last]);
    if k < last {
      InterleaveAt(ps[..last], ts[..last], ns[..last], k);
      assert Interleave(ps, ts, ns)[8 * k .. 8 * k + 8] == front[8 * k .. 8 * k + 8];
    }
  }

  /** Each pass of the word loop keeps the index lists in step, three entries per face. */
  lemma {:induction false} ScanShape(toks: seq<Token>, i: nat, s: Pools)
    requires i <= |toks| && Shaped(s)
    ensures Shaped(Scan(toks, i, s))
    decreases |toks| - i
  {
    if i < |toks| {
      match Step(toks, i, s)
      case Halt =>
      case Continue(next, s') =>
        ScanShape(toks, next, s');
    }
  }

  /** Every pool and index list of `r` starts with the corresponding one of `s`. */
  predicate Extends(s: Pools, r: Pools) {
    && s.positions <= r.positions && s.textures <= r.textures && s.normals <= r.normals
    && s.posIndices <= r.posIndices && s.texIndices <= r.texIndices && s.norIndices <= r.norIndices
  }

  /** The loader only appends: what was read before is never changed or removed. */
  lemma {:induction false} ScanExtends(toks: seq<Token>, i: nat, s: Pools)
    requires i <= |toks|
    ensures Extends(s, Scan(toks, i, s))
    decreases |toks| - i
  {
    if i < |toks| {
      match Step(toks, i, s)
      case Halt =>
      case Continue(next, s') =>
        ScanExtends(toks, next, s');
    }
  }

  /** One pass of the word loop: a "v", "vt" or "vn" appends one vector to its own pool and
      changes nothing else; a face either ends the read or appends one entry per corner to
      each index list and changes nothing else; any other word is skipped. */
  lemma StepEffects(toks: seq<Token>, i: nat, s: Pools)
    requires i < |toks|
    ensures toks[i] == Word("v") ==>
      (Step(toks, i, s).Continue? &&
       var r := Step(toks, i, s).pools;
       |r.positions| == |s.positions| + 1 && r.positions[..|s.positions|] == s.positions && r.(positions := s.positions) == s)
    ensures toks[i] == Word("vt") ==>
      (Step(toks, i, s).Continue? &&
       var r := Step(toks, i, s).pools;
       |r.textures| == |s.textures| + 1 && r.textures[..|s.textures|] == s.textures && r.(textures := s.textures) == s)
    ensures toks[i] == Word("vn") ==>
      (Step(toks, i, s).Continue? &&
       var r := Step(toks, i, s).pools;
       |r.normals| == |s.normals| + 1 && r.normals[..|s.normals|] == s.normals && r.(normals := s.normals) == s)
    ensures toks[i] == Word("f") ==> (Step(toks, i, s).Halt? <==> FaceMatches(toks, i) != 9)
    ensures toks[i] == Word("f") && FaceMatches(toks, i) == 9 ==>
      (var r := Step(toks, i, s).pools;
       && |r.posIndices| == |s.posIndices| + 3 && r.posIndices[..|s.posIndices|] == s.posIndices
       && |r.texIndices| == |s.texIndices| + 3 && r.texIndices[..|s.texIndices|] == s.texIndices
       && |r.norIndices| == |s.norIndices| + 3 && r.norIndices[..|s.norIndices|] == s.norIndices
       && r.(posIndices := s.posIndices, texIndices := s.texIndices, norIndices := s.norIndices) == s)
    ensures toks[i] != Word("v") && toks[i] != Word("vt") && toks[i] != Word("vn") && toks[i] != Word("f") ==>
      Step(toks, i, s) == Continue(i + 1, s)
  {
  }

  /** At an "f", the read ends there with the pools as they are exactly when its three
      corners do not all convert: a well-formed face always adds to the index lists. */
  lemma MalformedFaceEndsRead(toks: seq<Token>, i: nat, s: Pools)
    requires i < |toks| && toks[i] == Word("f")
    ensures Scan(toks, i, s) == s <==> FaceMatches(toks, i) != 9
  {
    if FaceMatches(toks, i) == 9 {
      var s' := Step(toks, i, s).pools;
      ScanExtends(toks, i + 4, s');
      assert |Scan(toks, i, s).posIndices| >= |s'.posIndices| > |s.posIndices|;
    }
  }

  /** When the conversions find `k` convertible words in a row they make all `k`. */
  lemma {:induction false} ConvertedAll(toks: seq<Token>, from: nat, k: nat, c: Conversion)
    requires from + k <= |toks|
    requires forall j :: from <= j < from + k ==> Converts(toks[j], c)
    ensures Converted(toks, from, k, c) == k
    decreases k
  {
    if k > 0 {
      ConvertedAll(toks, from + 1, k - 1, c);
    }
  }

  /** Conversions do not look behind their starting word. */
  lemma {:induction false} ConvertedShift(a: seq<Token>, b: seq<Token>, from: nat, k: nat, c: Conversion)
    ensures Converted(a + b, |a| + from, k, c) == Converted(b, from, k, c)
    decreases k
  {
    if k > 0 && from < |b| {
      assert (a + b)[|a| + from] == b[from];
      ConvertedShift(a, b, from + 1, k - 1, c);
    }
  }

  lemma FloatAtShift(a: seq<Token>, b: seq<Token>, from: nat, k: nat, j: nat)
    ensures FloatAt(a + b, |a| + from, k, j) == FloatAt(b, from, k, j)
  {
    ConvertedShift(a, b, from, k, Float);
    if j < Converted(b, from, k, Float) {
      assert (a + b)[|a| + from + j] == b[from + j];
    }
  }

  /** One pass of the word loop only looks at the words from its own position on. */
  lemma StepShift(a: seq<Token>, b: seq<Token>, i: nat, s: Pools)
    requires i < |b|
    ensures Step(a + b, |a| + i, s) ==
      match Step(b, i, s)
      case Halt => Halt
      case Continue(next, s') => Continue(|a| + next, s')
  {
    assert (a + b)[|a| + i] == b[i];
    if b[i] == Word("v") {
      VertexStepShift(a, b, i, s, "v");
    } else if b[i] == Word("vn") {
      VertexStepShift(a, b, i, s, "vn");
    } else if b[i] == Word("vt") {
      TexCoordStepShift(a, b, i, s);
    } else if b[i] == Word("f") {
      FaceStepShift(a, b, i, s);
    }
  }

  lemma VertexStepShift(a: seq<Token>, b: seq<Token>, i: nat, s: Pools, keyword: string)
    requires i < |b| && (keyword == "v" || keyword == "vn") && b[i] == Word(keyword)
    ensures Step(b, i, s).Continue?
    ensures Step(a + b, |a| + i, s) == Continue(|a| + Step(b, i, s).next, Step(b, i, s).pools)
  {
    var t, j := a + b, |a| + i;
    assert t[j] == b[i];
    ConvertedShift(a, b, i + 1, 3, Float);
    FloatAtShift(a, b, i + 1, 3, 0);
    FloatAtShift(a, b, i + 1, 3, 1);
    FloatAtShift(a, b, i + 1, 3, 2);
    var n := Converted(b, i + 1, 3, Float);
    var v := Vec3(FloatAt(b, i + 1, 3, 0), FloatAt(b, i + 1, 3, 1), FloatAt(b, i + 1, 3, 2));
    assert Converted(t, j + 1, 3, Float) == n;
    assert Vec3(FloatAt(t, j + 1, 3, 0), FloatAt(t, j + 1, 3, 1), FloatAt(t, j + 1, 3, 2)) == v;
  }

  lemma TexCoordStepShift(a: seq<Token>, b: seq<Token>, i: nat, s: Pools)
    requires i < |b| && b[i] == Word("vt")
    ensures Step(b, i, s).Continue?
    ensures Step(a + b, |a| + i, s) == Continue(|a| + Step(b, i, s).next, Step(b, i, s).pools)
  {
    assert (a + b)[|a| + i] == b[i];
    ConvertedShift(a, b, i + 1, 2, Float);
    FloatAtShift(a, b, i + 1, 2, 0);
    FloatAtShift(a, b, i + 1, 2, 1);
  }

  lemma FaceStepShift(a: seq<Token>, b: seq<Token>, i: nat, s: Pools)
    requires i < |b| && b[i] == Word("f")
    ensures Step(a + b, |a| + i, s) ==
      match Step(b, i, s)
      case Halt => Halt
      case Continue(next, s') => Continue(|a| + next, s')
  {
    var t, j := a + b, |a| + i;
    assert t[j] == b[i];
    ConvertedShift(a, b, i + 1, 3, Triple);
    if FaceMatches(b, i) == 9 {
      assert t[j + 1] == b[i + 1] && t[j + 2] == b[i + 2] && t[j + 3] == b[i + 3];
    }
  }

  /** Reading from position |a| + i of a + b is reading from position i of b. */
  lemma {:induction false} ScanShift(a: seq<Token>, b: seq<Token>, i: nat, s: Pools)
    requires i <= |b|
    ensures Scan(a + b, |a| + i, s) == Scan(b, i, s)
    decreases |b| - i
  {
    if i < |b| {
      StepShift(a, b, i, s);
      match Step(b, i, s)
      case Halt =>
      case Continue(next, s') =>
        ScanShift(a, b, next, s');
    }
  }

  /** One line of an OBJ file the loader understands. */
  datatype Corner = Corner(p: int, t: int, n: int)
  datatype Line =
    | Position(v: Vec3)
    | TexCoord(vt: Vec2)
    | Normal(vn: Vec3)
    | Face(a: Corner, b: Corner, c: Corner)

  function CornerToken(c: Corner): Token {
    IndexTriple(c.p, c.t, c.n)
  }

  /** The words of a line as a writer of OBJ files emits them. */
  function LineTokens(l: Line): seq<Token> {
    match l
    case Position(v) => [Word("v"), Number(v.x), Number(v.y), Number(v.z)]
    case TexCoord(vt) => [Word("vt"), Number(vt.x), Number(vt.y)]
    case Normal(vn) => [Word("vn"), Number(vn.x), Number(vn.y), Number(vn.z)]
    case Face(a, b, c) => [Word("f"), CornerToken(a), CornerToken(b), CornerToken(c)]
  }

  function Render(lines: seq<Line>): seq<Token> {
    if lines == [] then [] else LineTokens(lines[0]) + Render(lines[1..])
  }

  /** What a line means: its vector joins the end of its pool, or its face's corners join
      the ends of the index lists. */
  function Apply(s: Pools, l: Line): Pools {
    match l
    case Position(v) => s.(positions := s.positions + [v])
    case TexCoord(vt) => s.(textures := s.textures + [vt])
    case Normal(vn) => s.(normals := s.normals + [vn])
    case Face(a, b, c) =>
      s.(posIndices := s.posIndices + [a.p, b.p, c.p],
         texIndices := s.texIndices + [a.t, b.t, c.t],
         norIndices := s.norIndices + [a.n, b.n, c.n])
  }

  function ApplyAll(s: Pools, lines: seq<Line>): Pools
    decreases |lines|
  {
    if lines == [] then s else ApplyAll(Apply(s, lines[0]), lines[1..])
  }

  /** A whole line is one pass of the word loop, whatever words follow it. */
  lemma LineStep(l: Line, rest: seq<Token>, s: Pools)
    ensures Step(LineTokens(l) + rest, 0, s) == Continue(|LineTokens(l)|, Apply(s, l))
  {
    var t := LineTokens(l) + rest;
    match l
    case Position(v) =>
      ConvertedAll(t, 1, 3, Float);
      assert t[1] == Number(v.x) && t[2] == Number(v.y) && t[3] == Number(v.z);
    case TexCoord(vt) =>
      ConvertedAll(t, 1, 2, Float);
      assert t[1] == Number(vt.x) && t[2] == Number(vt.y);
    case Normal(vn) =>
      ConvertedAll(t, 1, 3, Float);
      assert t[1] == Number(vn.x) && t[2] == Number(vn.y) && t[3] == Number(vn.z);
    case Face(a, b, c) =>
      ConvertedAll(t, 1, 3, Triple);
      assert t[1] == CornerToken(a) && t[2] == CornerToken(b) && t[3] == CornerToken(c);
  }

  /** Round trip: the loader reads back exactly the lines written, in order. */
  lemma {:induction false} RenderReadsBack(lines: seq<Line>, s: Pools)
    ensures Scan(Render(lines), 0, s) == ApplyAll(s, lines)
  {
    if lines != [] {
      var line := LineTokens(lines[0]);
      var rest := Render(lines[1..]);
      assert Render(lines) == line + rest;
      LineStep(lines[0], rest, s);
      ScanShift(line, rest, 0, Apply(s, lines[0]));
      RenderReadsBack(lines[1..], Apply(s, lines[0]));
    }
  }

  /** Corner `k` of the buffer holds, in order, the position, the texture coordinate and
      the normal that its three 1-based indices name. */
  lemma VertexBufferLayout(p: Pools, k: nat)
    requires Shaped(p) && IndicesInRange(p) && k < |p.posIndices|
    ensures |VertexBuffer(p)| == 8 * |p.posIndices|
    ensures VertexBuffer(p)[8 * k .. 8 * k + 8] ==
      CornerFloats(p.positions[p.posIndices[k] - 1], p.textures[p.texIndices[k] - 1], p.normals[p.norIndices[k] - 1])
  {
    GatherAt(p.positions, p.posIndices, k);
    GatherAt(p.textures, p.texIndices, k);
    GatherAt(p.normals, p.norIndices, k);
    InterleaveAt(Gather(p.positions, p.posIndices), Gather(p.textures, p.texIndices), Gather(p.normals, p.norIndices), k);
  }
}
