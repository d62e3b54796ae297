/** Nintendo KCL collision files (src/file_format/kcl.py): the byte layout of
    the file and model headers, the vertex, normal and triangle sections, the
    reconstruction of each triangle from its prism record, and the queries the
    generator asks of the result. */
module Kcl {
  import opened Wrappers
  import opened Vec
  import opened Aabb
  import opened Rng

  type byte = b: int | 0 <= b < 256
  type NonNeg = r: real | r >= 0.0

  /** The magic number, stored big-endian at the start of the file. */
  const Magic: int := 0x0202_0000
  /** A vertex and a normal are three little-endian 32-bit floats. */
  const VertexSize: int := 12
  const NormalSize: int := 12
  /** A triangle record: f32 length, u16 vertex, u16 direction, three u16
      normals, u16 flags and u32 global index. */
  const TriangleSize: int := 0x14
  /** Bytes of a model header a parse must be able to unpack (the last four
      are skipped with a read that may come back short). */
  const ModelHeaderRead: int := 56
  /** Number of draws `get_random_standable_pos` attempts. */
  const StandableTries: nat := 10000

  lemma RecordSize()
    ensures TriangleSize == 4 + 2 + 2 + 2 * 3 + 2 + 4
  {
  }

  // ---------------------------------------------------------------- integers

  /** `struct.unpack('<H', ...)` of the two bytes at `i`. */
  function U16LE(bs: seq<byte>, i: nat): (n: nat)
    requires i + 2 <= |bs|
    ensures n < 0x1_0000
  {
    bs[i] as int + 0x100 * bs[i + 1] as int
  }

  /** `struct.unpack('<I', ...)` of the four bytes at `i`. */
  function U32LE(bs: seq<byte>, i: nat): (n: nat)
    requires i + 4 <= |bs|
    ensures n < 0x1_0000_0000
  {
    bs[i] as int + 0x100 * bs[i + 1] as int + 0x1_0000 * bs[i + 2] as int + 0x100_0000 * bs[i + 3] as int
  }

  /** `struct.unpack('>I', ...)`: the same four bytes in the opposite order. */
  function U32BE(bs: seq<byte>, i: nat): nat
    requires i + 4 <= |bs|
  {
    U32LE([bs[i + 3], bs[i + 2], bs[i + 1], bs[i]], 0)
  }

  /** `struct.unpack('<i', ...)`: two's complement. */
  function I32LE(bs: seq<byte>, i: nat): (v: int)
    requires i + 4 <= |bs|
    ensures -0x8000_0000 <= v < 0x8000_0000
    ensures v >= 0 <==> bs[i + 3] < 0x80
  {
    var u := U32LE(bs, i);
    if u < 0x8000_0000 then u else u - 0x1_0000_0000
  }

  function EncodeU32LE(n: nat): (bs: seq<byte>)
    requires n < 0x1_0000_0000
    ensures |bs| == 4
  {
    [n % 0x100, (n / 0x100) % 0x100, (n / 0x1_0000) % 0x100, n / 0x100_0000]
  }

  lemma DecodeEncodeU32(n: nat)
    requires n < 0x1_0000_0000
    ensures U32LE(EncodeU32LE(n), 0) == n
  {
    var b0, q0 := n % 0x100, n / 0x100;
    var b1, q1 := q0 % 0x100, q0 / 0x100;
    var b2, b3 := q1 % 0x100, q1 / 0x100;
    assert n == b0 + 0x100 * q0;
    assert q0 == b1 + 0x100 * q1;
    assert q1 == b2 + 0x100 * b3;
    assert n / 0x1_0000 == q1;
    assert n / 0x100_0000 == b3;
  }

  lemma EncodeDecodeU32(bs: seq<byte>)
    requires |bs| == 4
    ensures EncodeU32LE(U32LE(bs, 0)) == bs
  {
    var n := U32LE(bs, 0);
    var q0: int := bs[1] as int + 0x100 * bs[2] as int + 0x1_0000 * bs[3] as int;
    assert n == bs[0] as int + 0x100 * q0;
    assert n % 0x100 == bs[0] && n / 0x100 == q0;
    var q1: int := bs[2] as int + 0x100 * bs[3] as int;
    assert q0 == bs[1] as int + 0x100 * q1;
    assert n / 0x1_0000 == q1;
    assert n / 0x100_0000 == bs[3];
  }

  /** The four bytes that spell the magic number: read little-endian they do not. */
  lemma MagicBytes()
    ensures U32BE([0x02, 0x02, 0x00, 0x00], 0) == Magic
    ensures U32LE([0x02, 0x02, 0x00, 0x00], 0) != Magic
  {
  }


  // ------------------------------------------------------------ file reading

  /** What `file.read(n)` returns at offset `pos`: fewer bytes at the end of
      the file, none past it. */
  function Slice(data: seq<byte>, pos: nat, n: nat): (bs: seq<byte>)
    ensures |bs| <= n
    ensures pos + n > |data| && n > 0 ==> |bs| < n
    ensures |bs| < n ==> pos + |bs| >= |data|
    ensures pos + n <= |data| ==> bs == data[pos..pos + n]
  {
    if pos >= |data| then [] else if pos + n <= |data| then data[pos..pos + n] else data[pos..]
  }

  /** A binary file opened for reading: its bytes, the float decoder standing in
      for IEEE single precision, and the current offset. */
  class Reader {
    const data: seq<byte>
    const f32: seq<byte> -> real
    var pos: nat

    constructor(data: seq<byte>, f32: seq<byte> -> real)
      ensures this.data == data && this.f32 == f32 && pos == 0
    {
      this.data := data;
      this.f32 := f32;
      pos := 0;
    }

    /** `file.read(n)`. */
    method Read(n: nat) returns (bs: seq<byte>)
      modifies this
      ensures bs == Slice(data, old(pos), n)
      ensures pos == old(pos) + |bs|
    {
      bs := Slice(data, pos, n);
      pos := pos + |bs|;
    }

    /** `file.seek(p)`: a negative offset is refused. */
    method Seek(p: int) returns (ok: bool)
      modifies this
      ensures ok <==> p >= 0
      ensures pos == if ok then p else old(pos)
    {
      ok := p >= 0;
      if ok {
        pos := p;
      }
    }

    /** `struct.unpack(ENDIAN + 'f'*3, file.read(12))`. */
    method ReadVec() returns (r: Result<Vec3>)
      modifies this
      ensures r == VecAt(data, f32, old(pos))
      ensures r.Ok? ==> pos == old(pos) + VertexSize
    {
      var bs := Read(12);
      if |bs| < 12 {
        r := Err(StructError);
      } else {
        r := Ok(DecodeVec(f32, bs));
      }
    }
  }

  /** Three consecutive floats. */
  function DecodeVec(f32: seq<byte> -> real, bs: seq<byte>): Vec3
    requires |bs| == 12
  {
    Vec3(f32(bs[0..4]), f32(bs[4..8]), f32(bs[8..12]))
  }

  /** Three floats at offset `p`, or StructError on a short read. */
  function VecAt(data: seq<byte>, f32: seq<byte> -> real, p: nat): Result<Vec3>
  {
    if p + 12 <= |data| then Ok(DecodeVec(f32, data[p..p + 12])) else Err(StructError)
  }

  // ----------------------------------------------------------- file header

  datatype FileHeader = FileHeader(octreeOffset: nat, modelOffset: nat, modelCount: nat, box: Box)

  /** Bytes 4 to 52 of the header: three little-endian u32s (octree offset,
      model offset, model count), the two box corners and the coordinate
      shift, which is unpacked and then unused. */
  function DecodeFileHeader(f32: seq<byte> -> real, hd: seq<byte>): FileHeader
    requires |hd| == 52
  {
    FileHeader(U32LE(hd, 4), U32LE(hd, 8), U32LE(hd, 12),
               Box(DecodeVec(f32, hd[16..28]), DecodeVec(f32, hd[28..40])))
  }

  /** The first 52 bytes: the magic, which must be 0x02020000 read
      big-endian, then the rest of the header. */
  function FileHeaderAt(data: seq<byte>, f32: seq<byte> -> real): (r: Result<FileHeader>)
    ensures r.Ok? <==> |data| >= 52 && U32BE(data, 0) == Magic
    ensures |data| >= 4 && U32BE(data, 0) != Magic ==> r == Err(AssertionError)
    ensures r.Err? && (|data| < 4 || U32BE(data, 0) == Magic) ==> r == Err(StructError)
  {
    if |data| < 4 then Err(StructError)
    else if U32BE(data, 0) != Magic then Err(AssertionError)
    else if |data| < 52 then Err(StructError)
    else Ok(DecodeFileHeader(f32, data[..52]))
  }

  // ---------------------------------------------------------- model layout

  datatype ModelHeader = ModelHeader(offVerts: int, offNormals: int, offTriangles: int, offSpatial: int)

  /** The four signed section offsets at the start of a model header. Parsing
      the header also unpacks the coordinate mask and shift, so it fails unless
      56 bytes are present. */
  function ModelHeaderAt(data: seq<byte>, base: nat): (r: Result<ModelHeader>)
    ensures r.Ok? <==> base + ModelHeaderRead <= |data|
  {
    if base + ModelHeaderRead <= |data| then
      Ok(ModelHeader(I32LE(data, base), I32LE(data, base + 4), I32LE(data, base + 8), I32LE(data, base + 12)))
    else Err(StructError)
  }

  /** `(hi - lo) // size` as `range()` sees it: a negative count is no iterations. */
  function SectionCount(lo: int, hi: int, size: int): nat
    requires size > 0
  {
    if hi - lo < 0 then 0 else (hi - lo) / size
  }

  /** The count is the number of whole elements between the two offsets. */
  lemma SectionCountBounds(lo: int, hi: int, size: int)
    requires size > 0
    ensures hi - lo < size ==> SectionCount(lo, hi, size) == 0
    ensures hi - lo >= 0 ==> SectionCount(lo, hi, size) * size <= hi - lo < (SectionCount(lo, hi, size) + 1) * size
  {
  }

  /** `n` consecutive vectors read after a seek to `start`: a negative
      offset is refused by the seek. */
  function VecsAt(data: seq<byte>, f32: seq<byte> -> real, start: int, n: nat): Result<seq<Vec3>>
  {
    if start < 0 then Err(SeekError) else VecsFrom(data, f32, start, n)
  }

  /** The list comprehension of lines 58 and 62: `n` reads of three floats
      from `start`, the first short one raising StructError. */
  function VecsFrom(data: seq<byte>, f32: seq<byte> -> real, start: nat, n: nat): (r: Result<seq<Vec3>>)
    ensures r.Ok? ==> |r.value| == n
    ensures r.Err? ==> r.error == StructError
    ensures r.Ok? <==> n == 0 || start + 12 * n <= |data|
    decreases n
  {
    if n == 0 then Ok([])
    else
      var init :- VecsFrom(data, f32, start, n - 1);
      var v :- VecAt(data, f32, start + 12 * (n - 1));
      Ok(init + [v])
  }

  /** Element `i` is the vector at `start + 12 * i`. */
  lemma {:induction false} VecsFromIndex(data: seq<byte>, f32: seq<byte> -> real, start: nat, n: nat)
    requires VecsFrom(data, f32, start, n).Ok?
    ensures forall i :: 0 <= i < n ==> VecAt(data, f32, start + 12 * i) == Ok(VecsFrom(data, f32, start, n).value[i])
    decreases n
  {
    if n > 0 {
      VecsFromIndex(data, f32, start, n - 1);
    }
  }

  datatype Record = Record(length: real, vertIndex: nat, dirIndex: nat,
                           normalA: nat, normalB: nat, normalC: nat, flags: nat, globalIndex: nat)

  /** A 20-byte triangle record. */
  function DecodeRecord(f32: seq<byte> -> real, bs: seq<byte>): Record
    requires |bs| == TriangleSize
  {
    Record(f32(bs[..4]), U16LE(bs, 4), U16LE(bs, 6), U16LE(bs, 8), U16LE(bs, 10),
           U16LE(bs, 12), U16LE(bs, 14), U32LE(bs, 16))
  }

  /** The triangle record at `p`. */
  function RecordAt(data: seq<byte>, f32: seq<byte> -> real, p: nat): Record
    requires p + TriangleSize <= |data|
  {
    DecodeRecord(f32, data[p..p + TriangleSize])
  }

  datatype Triangle = Triangle(v1: Vec3, v2: Vec3, v3: Vec3)

  /** `tri.vertex(i)`. */
  function Vertex(t: Triangle, i: nat): Vec3
    requires i < 3
  {
    if i == 0 then t.v1 else if i == 1 then t.v2 else t.v3
  }

  /** The conversion from a prism (vertex, direction, three edge normals and a
      height) to the triangle's corners. Each division by zero raises. */
  function Reconstruct(position: Vec3, direction: Vec3, normalA: Vec3, normalB: Vec3, normalC: Vec3,
                       length: real): (r: Result<Triangle>)
    ensures r.Err? <==> Dot(Cross(normalB, direction), normalC) == 0.0 || Dot(Cross(normalA, direction), normalC) == 0.0
    ensures r.Err? ==> r.error == ZeroDivisionError
    ensures r.Ok? ==> r.value.v1 == position
  {
    var crossA := Cross(normalA, direction);
    var crossB := Cross(normalB, direction);
    var dB := Dot(crossB, normalC);
    var dA := Dot(crossA, normalC);
    if dB == 0.0 || dA == 0.0 then Err(ZeroDivisionError)
    else
      var v2 := Add(position, Scale(crossB, length / dB));
      var v3 := Add(position, Scale(crossA, length / dA));
      Ok(Triangle(position, v2, v3))
  }

  /** The reconstructed edge `v2 - v1` lies in the planes of normal B and of
      the direction, and `v3 - v1` in those of normal A and of the direction;
      both reach `length` along normal C: the prism the record describes. */
  lemma ReconstructEdges(position: Vec3, direction: Vec3, normalA: Vec3, normalB: Vec3, normalC: Vec3,
                         length: real)
    requires Reconstruct(position, direction, normalA, normalB, normalC, length).Ok?
    ensures var t := Reconstruct(position, direction, normalA, normalB, normalC, length).value;
            var e2, e3 := Sub(t.v2, t.v1), Sub(t.v3, t.v1);
            Dot(e2, normalB) == 0.0 && Dot(e2, direction) == 0.0 && Dot(e2, normalC) == length &&
            Dot(e3, normalA) == 0.0 && Dot(e3, direction) == 0.0 && Dot(e3, normalC) == length
  {
    EdgeIdentities(position, Cross(normalB, direction), normalB, direction, normalC, length);
    EdgeIdentities(position, Cross(normalA, direction), normalA, direction, normalC, length);
  }

  /** The edge `cross * (length / dot(cross, c))` from `p`, with `cross` the
      cross product of `n` and `d`. */
  lemma EdgeIdentities(p: Vec3, cross: Vec3, n: Vec3, d: Vec3, c: Vec3, length: real)
    requires cross == Cross(n, d) && Dot(cross, c) != 0.0
    ensures var e := Sub(Add(p, Scale(cross, length / Dot(cross, c))), p);
            Dot(e, n) == 0.0 && Dot(e, d) == 0.0 && Dot(e, c) == length
  {
    var k := length / Dot(cross, c);
    var e := Sub(Add(p, Scale(cross, k)), p);
    assert e == Scale(cross, k);
    CrossPerpendicular(n, d);
    DotScale(cross, k, n);
    DotScale(cross, k, d);
    DotScale(cross, k, c);
    DivideThenScale(length, Dot(cross, c));
    assert k * Dot(cross, c) == length;
  }

  /** Lines 77-89 for one record: the five table lookups (IndexError when an
      index is past the end), the reconstruction, and the face normal, which
      is the record's direction normal. */
  function Face(rec: Record, verts: seq<Vec3>, normals: seq<Vec3>): (r: Result<(Triangle, Vec3)>)
    ensures (rec.vertIndex >= |verts| || rec.dirIndex >= |normals| || rec.normalA >= |normals| ||
             rec.normalB >= |normals| || rec.normalC >= |normals|) ==> r == Err(IndexError)
    ensures r.Ok? ==> (rec.vertIndex < |verts| && rec.dirIndex < |normals| &&
                       rec.normalA < |normals| && rec.normalB < |normals| && rec.normalC < |normals| &&
                       r.value.1 == normals[rec.dirIndex] &&
                       Reconstruct(verts[rec.vertIndex], normals[rec.dirIndex], normals[rec.normalA],
                                   normals[rec.normalB], normals[rec.normalC], rec.length) == Ok(r.value.0))
  {
    if rec.vertIndex >= |verts| || rec.dirIndex >= |normals| || rec.normalA >= |normals| ||
       rec.normalB >= |normals| || rec.normalC >= |normals| then Err(IndexError)
    else
      var direction := normals[rec.dirIndex];
      match Reconstruct(verts[rec.vertIndex], direction, normals[rec.normalA],
                        normals[rec.normalB], normals[rec.normalC], rec.length)
      case Ok(t) => Ok((t, direction))
      case Err(e) => Err(e)
  }

  /** The record at `p` and its face; StructError when it is cut short. */
  function FaceAt(data: seq<byte>, f32: seq<byte> -> real, verts: seq<Vec3>, normals: seq<Vec3>, p: nat)
    : Result<(Triangle, Vec3)>
  {
    if p + TriangleSize > |data| then Err(StructError) else Face(RecordAt(data, f32, p), verts, normals)
  }

  /** The triangle loop after `i` records, starting at offset `start`. */
  function FacesUpTo(data: seq<byte>, f32: seq<byte> -> real, verts: seq<Vec3>, normals: seq<Vec3>,
                     start: nat, i: nat): (r: Result<(seq<Triangle>, seq<Vec3>)>)
    ensures r.Ok? ==> |r.value.0| == i && |r.value.1| == i
    ensures r.Ok? && i > 0 ==> start + 20 * i <= |data|
    decreases i
  {
    if i == 0 then Ok(([], []))
    else Extend(FacesUpTo(data, f32, verts, normals, start, i - 1), FaceAt(data, f32, verts, normals, start + 20 * (i - 1)))
  }

  /** One iteration of the triangle loop: the first error stops it, otherwise
      the face and its normal are appended. */
  function Extend(acc: Result<(seq<Triangle>, seq<Vec3>)>, face: Result<(Triangle, Vec3)>)
    : (r: Result<(seq<Triangle>, seq<Vec3>)>)
    ensures acc.Err? ==> r == Err(acc.error)
    ensures acc.Ok? && face.Err? ==> r == Err(face.error)
    ensures r.Ok? ==> acc.Ok? && face.Ok? && r.value == (acc.value.0 + [face.value.0], acc.value.1 + [face.value.1])
  {
    match acc
    case Err(e) => Err(e)
    case Ok(a) =>
      match face
      case Err(e) => Err(e)
      case Ok(f) => Ok((a.0 + [f.0], a.1 + [f.1]))
  }

  /** One more record extends a run by the face at offset `p`. */
  lemma FacesUpToStep(data: seq<byte>, f32: seq<byte> -> real, verts: seq<Vec3>, normals: seq<Vec3>,
                      start: nat, i: nat, n: nat, p: nat)
    requires n == i + 1 && p == start + 20 * i
    ensures FacesUpTo(data, f32, verts, normals, start, n) ==
            Extend(FacesUpTo(data, f32, verts, normals, start, i), FaceAt(data, f32, verts, normals, p))
  {
    FacesUpToSame(data, f32, verts, normals, start, n - 1, i);
    FaceAtSame(data, f32, verts, normals, start + 20 * (n - 1), p);
  }

  lemma FacesUpToSame(data: seq<byte>, f32: seq<byte> -> real, verts: seq<Vec3>, normals: seq<Vec3>,
                      start: nat, i: nat, j: nat)
    requires i == j
    ensures FacesUpTo(data, f32, verts, normals, start, i) == FacesUpTo(data, f32, verts, normals, start, j)
  {
  }

  lemma FaceAtSame(data: seq<byte>, f32: seq<byte> -> real, verts: seq<Vec3>, normals: seq<Vec3>, p: nat, q: nat)
    requires p == q
    ensures FaceAt(data, f32, verts, normals, p) == FaceAt(data, f32, verts, normals, q)
  {
  }

  /** A successful run holds, at position `j`, the face of record `j`. */
  lemma {:induction false} FacesUpToRecord(data: seq<byte>, f32: seq<byte> -> real, verts: seq<Vec3>,
                                           normals: seq<Vec3>, start: nat, i: nat, j: nat)
    requires FacesUpTo(data, f32, verts, normals, start, i).Ok? && j < i
    ensures var r := FacesUpTo(data, f32, verts, normals, start, i).value;
            FaceAt(data, f32, verts, normals, start + 20 * j) == Ok((r.0[j], r.1[j]))
    decreases i
  {
    FacesUpToStep(data, f32, verts, normals, start, i - 1, i, start + 20 * (i - 1));
    if j < i - 1 {
      FacesUpToRecord(data, f32, verts, normals, start, i - 1, j);
    } else {
      FaceAtSame(data, f32, verts, normals, start + 20 * j, start + 20 * (i - 1));
    }
  }

  /** Once a record fails, every longer run fails with the same error. */
  lemma {:induction false} FacesUpToErrStays(data: seq<byte>, f32: seq<byte> -> real, verts: seq<Vec3>,
                                             normals: seq<Vec3>, start: nat, i: nat, n: nat)
    requires i <= n && FacesUpTo(data, f32, verts, normals, start, i).Err?
    ensures FacesUpTo(data, f32, verts, normals, start, n) == FacesUpTo(data, f32, verts, normals, start, i)
    decreases n - i
  {
    if i < n {
      FacesUpToErrStays(data, f32, verts, normals, start, i + 1, n);
    }
  }

  // ------------------------------------------------------------------ models

  /** `KCL.Model`: the triangle soup, one face normal per triangle, the
      bounding box of every corner, and the squared distance to the soup that
      the CGAL AABB tree answers. */
  datatype Model = Model(verts: seq<Vec3>, triangles: seq<Triangle>, faceNormals: seq<Vec3>,
                         box: Box, sqDist: Vec3 -> NonNeg)
  {
    /** `intersects`: `sqrt(sqd) <= r`, written without the square root. */
    predicate Intersects(center: Vec3, radius: real)
    {
      radius >= 0.0 && sqDist(center) <= radius * radius
    }

    /** `try_get_random_standable_pos`, given the value drawn by `randrange`
        and `cosThreshold = cos(angle_threshold_degrees * pi / 180)`. */
    function TryStandable(u: Unit, target: Vec3, cosThreshold: real): (r: Result<Option<(Vec3, Vec3)>>)
      ensures |triangles| == 0 ==> r == Err(ValueError)
      ensures r.Ok? ==> var k := BelowOf(|triangles|, u);
        k < |faceNormals| &&
        (r.value.None? <==> Dot(faceNormals[k], target) < cosThreshold) &&
        (r.value.Some? ==> r.value.value == (Centroid(triangles[k]), faceNormals[k]))
    {
      if |triangles| == 0 then Err(ValueError)
      else
        var k := BelowOf(|triangles|, u);
        if k >= |faceNormals| then Err(IndexError)
        else
          var normal := faceNormals[k];
          if Dot(normal, target) < cosThreshold then Ok(None)
          else Ok(Some((Centroid(triangles[k]), normal)))
    }
  }

  /** `sum([tri.vertex(v) for v in range(3)]) / 3`. */
  function Centroid(t: Triangle): (c: Vec3)
    ensures PySum([t.v1, t.v2, t.v3]).Ok? && PySum([t.v1, t.v2, t.v3]).value.VecArg?
    ensures Divide(PySum([t.v1, t.v2, t.v3]).value.v, IntArg(3)) == Ok(c)
  {
    PySumThree(t.v1, t.v2, t.v3);
    var s := Add(Add(t.v1, t.v2), t.v3);
    assert OperandAt(IntArg(3), 0) == 3.0 && OperandAt(IntArg(3), 1) == 3.0 && OperandAt(IntArg(3), 2) == 3.0;
    assert Divide(s, IntArg(3)) == Ok(Vec3(s.x / 3.0, s.y / 3.0, s.z / 3.0));
    Vec3((t.v1.x + t.v2.x + t.v3.x) / 3.0, (t.v1.y + t.v2.y + t.v3.y) / 3.0, (t.v1.z + t.v2.z + t.v3.z) / 3.0)
  }

  /** `Model.intersects` is `sqrt(d) <= r`: for the non-negative root `s` of
      `d`, that comparison is exactly the predicate. */
  lemma SqrtComparison(s: real, d: real, r: real)
    requires s >= 0.0 && s * s == d
    ensures s <= r <==> (r >= 0.0 && d <= r * r)
  {
    if s <= r {
      SquareMonotone(s, r);
    } else if r >= 0.0 {
      SquareStrict(r, s);
    }
  }

  lemma SquareStrict(a: real, b: real)
    requires 0.0 <= a < b
    ensures a * a < b * b
  {
    MulPositive(b - a, b + a);
    assert (b - a) * (b + a) == b * b - a * a;
  }

  /** A hit at radius `r` is a hit at every larger radius. */
  lemma IntersectsMonotone(m: Model, c: Vec3, r: real, r': real)
    requires m.Intersects(c, r) && r <= r'
    ensures m.Intersects(c, r')
  {
    SquareMonotone(r, r');
  }

  /** The corners of every triangle, in the order the comprehension lists them. */
  function Corners(ts: seq<Triangle>): (ps: seq<Vec3>)
    ensures |ps| == 3 * |ts|
  {
    if ts == [] then [] else Corners(ts[..|ts| - 1]) + [ts[|ts| - 1].v1, ts[|ts| - 1].v2, ts[|ts| - 1].v3]
  }

  /** Corner `i` of triangle `k` sits at position `3 * k + i`. */
  lemma {:induction false} CornersIndex(ts: seq<Triangle>)
    ensures forall k, i :: 0 <= k < |ts| && 0 <= i < 3 ==> Corners(ts)[3 * k + i] == Vertex(ts[k], i)
  {
    if ts != [] {
      var init := ts[..|ts| - 1];
      CornersIndex(init);
      forall k, i | 0 <= k < |ts| && 0 <= i < 3
        ensures Corners(ts)[3 * k + i] == Vertex(ts[k], i)
      {
        if k < |init| {
          assert Corners(ts)[3 * k + i] == Corners(init)[3 * k + i];
          assert ts[k] == init[k];
        }
      }
    }
  }

  function MinVec(a: Vec3, b: Vec3): Vec3 { Vec3(Min(a.x, b.x), Min(a.y, b.y), Min(a.z, b.z)) }
  function MaxVec(a: Vec3, b: Vec3): Vec3 { Vec3(Max(a.x, b.x), Max(a.y, b.y), Max(a.z, b.z)) }

  /** `reduce(min-lambda, ps)`. */
  function FoldMin(ps: seq<Vec3>): Vec3
    requires |ps| > 0
    decreases |ps|
  {
    if |ps| == 1 then ps[0] else MinVec(FoldMin(ps[..|ps| - 1]), ps[|ps| - 1])
  }

  /** `reduce(max-lambda, ps)`. */
  function FoldMax(ps: seq<Vec3>): Vec3
    requires |ps| > 0
    decreases |ps|
  {
    if |ps| == 1 then ps[0] else MaxVec(FoldMax(ps[..|ps| - 1]), ps[|ps| - 1])
  }

  /** The fold is the componentwise minimum: below every point, and each
      component is some point's. */
  lemma {:induction false} FoldMinBounds(ps: seq<Vec3>)
    requires |ps| > 0
    ensures var m := FoldMin(ps);
            (forall k :: 0 <= k < |ps| ==> m.x <= ps[k].x && m.y <= ps[k].y && m.z <= ps[k].z) &&
            (exists k :: 0 <= k < |ps| && m.x == ps[k].x) && (exists k :: 0 <= k < |ps| && m.y == ps[k].y) &&
            (exists k :: 0 <= k < |ps| && m.z == ps[k].z)
    decreases |ps|
  {
    if |ps| > 1 {
      var init, last := ps[..|ps| - 1], ps[|ps| - 1];
      FoldMinBounds(init);
      var m0 := FoldMin(init);
      assert forall k :: 0 <= k < |init| ==> init[k] == ps[k];
      var kx :| 0 <= kx < |init| && m0.x == init[kx].x;
      var ky :| 0 <= ky < |init| && m0.y == init[ky].y;
      var kz :| 0 <= kz < |init| && m0.z == init[kz].z;
      assert ps[kx] == init[kx] && ps[ky] == init[ky] && ps[kz] == init[kz];
    }
  }

  /** The fold is the componentwise maximum. */
  lemma {:induction false} FoldMaxBounds(ps: seq<Vec3>)
    requires |ps| > 0
    ensures var m := FoldMax(ps);
            (forall k :: 0 <= k < |ps| ==> ps[k].x <= m.x && ps[k].y <= m.y && ps[k].z <= m.z) &&
            (exists k :: 0 <= k < |ps| && m.x == ps[k].x) && (exists k :: 0 <= k < |ps| && m.y == ps[k].y) &&
            (exists k :: 0 <= k < |ps| && m.z == ps[k].z)
    decreases |ps|
  {
    if |ps| > 1 {
      var init, last := ps[..|ps| - 1], ps[|ps| - 1];
      FoldMaxBounds(init);
      var m0 := FoldMax(init);
      assert forall k :: 0 <= k < |init| ==> init[k] == ps[k];
      var kx :| 0 <= kx < |init| && m0.x == init[kx].x;
      var ky :| 0 <= ky < |init| && m0.y == init[ky].y;
      var kz :| 0 <= kz < |init| && m0.z == init[kz].z;
      assert ps[kx] == init[kx] && ps[ky] == init[ky] && ps[kz] == init[kz];
    }
  }

  /** `KCL.Model(verts, triangles, normals)`: `reduce` of an empty list raises
      TypeError, so a model needs a triangle. */
  function MakeModel(verts: seq<Vec3>, triangles: seq<Triangle>, faceNormals: seq<Vec3>,
                     sqDist: Vec3 -> NonNeg): (r: Result<Model>)
    ensures r.Err? <==> triangles == []
    ensures r.Err? ==> r.error == TypeError
    ensures r.Ok? ==> r.value.verts == verts && r.value.triangles == triangles &&
                      r.value.faceNormals == faceNormals && r.value.sqDist == sqDist
  {
    if triangles == [] then Err(TypeError)
    else
      var ps := Corners(triangles);
      Ok(Model(verts, triangles, faceNormals, Box(FoldMin(ps), FoldMax(ps)), sqDist))
  }

  /** Each face of `b` passes through one of the points. */
  predicate Touches(b: Box, ps: seq<Vec3>)
  {
    (exists k :: 0 <= k < |ps| && b.minpt.x == ps[k].x) && (exists k :: 0 <= k < |ps| && b.maxpt.x == ps[k].x) &&
    (exists k :: 0 <= k < |ps| && b.minpt.y == ps[k].y) && (exists k :: 0 <= k < |ps| && b.maxpt.y == ps[k].y) &&
    (exists k :: 0 <= k < |ps| && b.minpt.z == ps[k].z) && (exists k :: 0 <= k < |ps| && b.maxpt.z == ps[k].z)
  }

  /** The model's box holds every corner of every triangle, and each of its
      six faces touches a corner: it is the smallest such box. */
  lemma ModelBox(verts: seq<Vec3>, triangles: seq<Triangle>, faceNormals: seq<Vec3>, sqDist: Vec3 -> NonNeg)
    requires triangles != []
    ensures forall k, i :: 0 <= k < |triangles| && 0 <= i < 3 ==>
              InBox(MakeModel(verts, triangles, faceNormals, sqDist).value.box, Vertex(triangles[k], i))
    ensures Touches(MakeModel(verts, triangles, faceNormals, sqDist).value.box, Corners(triangles))
  {
    var ps := Corners(triangles);
    assert MakeModel(verts, triangles, faceNormals, sqDist).value.box == Box(FoldMin(ps), FoldMax(ps));
    CornersIndex(triangles);
    FoldMinBounds(ps);
    FoldMaxBounds(ps);
    var lo, hi := FoldMin(ps), FoldMax(ps);
    var ax :| 0 <= ax < |ps| && lo.x == ps[ax].x;
    var bx :| 0 <= bx < |ps| && hi.x == ps[bx].x;
    var ay :| 0 <= ay < |ps| && lo.y == ps[ay].y;
    var yb :| 0 <= yb < |ps| && hi.y == ps[yb].y;
    var az :| 0 <= az < |ps| && lo.z == ps[az].z;
    var bz :| 0 <= bz < |ps| && hi.z == ps[bz].z;
    var m := MakeModel(verts, triangles, faceNormals, sqDist).value.box;
    forall k, i | 0 <= k < |triangles| && 0 <= i < 3
      ensures InBox(Box(FoldMin(ps), FoldMax(ps)), Vertex(triangles[k], i))
    {
      assert ps[3 * k + i] == Vertex(triangles[k], i);
    }
  }

  /** What the model header and the two vector sections yield: the vertex
      and normal tables, where the triangle records start and how many
      there are. */
  datatype Sections = Sections(verts: seq<Vec3>, normals: seq<Vec3>, start: nat, count: nat)

  /** Lines 45-65 of `__parse_model` read from offset `base`: every offset
      in the header is relative to `base`, and each section's count is its
      length divided by the element size. */
  function SectionsAt(data: seq<byte>, f32: seq<byte> -> real, base: nat): (r: Result<Sections>)
    ensures r.Ok? ==> ModelHeaderAt(data, base).Ok?
    ensures r.Ok? ==> var h := ModelHeaderAt(data, base).value;
      |r.value.verts| == SectionCount(h.offVerts, h.offNormals, VertexSize) &&
      |r.value.normals| == SectionCount(h.offNormals, h.offTriangles, NormalSize) &&
      r.value.start == base + h.offTriangles &&
      r.value.count == SectionCount(h.offTriangles, h.offSpatial, TriangleSize)
    ensures ModelHeaderAt(data, base).Err? ==> r == Err(StructError)
  {
    var h :- ModelHeaderAt(data, base);
    var verts :- VecsAt(data, f32, base + h.offVerts, SectionCount(h.offVerts, h.offNormals, VertexSize));
    var normals :- VecsAt(data, f32, base + h.offNormals, SectionCount(h.offNormals, h.offTriangles, NormalSize));
    var start := base + h.offTriangles;
    if start < 0 then Err(SeekError)
    else Ok(Sections(verts, normals, start, SectionCount(h.offTriangles, h.offSpatial, TriangleSize)))
  }

  /** `__parse_model` read from offset `base`: the model and the offset the
      file is left at. */
  function ParseModelAt(data: seq<byte>, f32: seq<byte> -> real, query: seq<Triangle> -> Vec3 -> NonNeg,
                        base: nat): (r: Result<(Model, nat)>)
    ensures r.Ok? ==> SectionsAt(data, f32, base).Ok? && r.value.0.triangles != []
    ensures r.Ok? ==> var s := SectionsAt(data, f32, base).value;
                      r.value.1 == s.start + 20 * s.count
  {
    var s :- SectionsAt(data, f32, base);
    var faces :- FacesUpTo(data, f32, s.verts, s.normals, s.start, s.count);
    var m :- MakeModel(s.verts, faces.0, faces.1, query(faces.0));
    Ok((m, s.start + 20 * s.count))
  }

  /** A successful parse is the model built from the sections and the faces:
      its triangles and face normals are the output of the triangle loop, so
      (by `FacesUpToRecord`) triangle `j` is the face of record `j`. */
  lemma ParseModelParts(data: seq<byte>, f32: seq<byte> -> real, query: seq<Triangle> -> Vec3 -> NonNeg, base: nat)
    requires ParseModelAt(data, f32, query, base).Ok?
    ensures SectionsAt(data, f32, base).Ok?
    ensures var s := SectionsAt(data, f32, base).value;
            FacesUpTo(data, f32, s.verts, s.normals, s.start, s.count).Ok?
    ensures var s := SectionsAt(data, f32, base).value;
            var faces := FacesUpTo(data, f32, s.verts, s.normals, s.start, s.count).value;
            MakeModel(s.verts, faces.0, faces.1, query(faces.0)).Ok? &&
            ParseModelAt(data, f32, query, base).value.0 == MakeModel(s.verts, faces.0, faces.1, query(faces.0)).value
    ensures var s := SectionsAt(data, f32, base).value;
            var faces := FacesUpTo(data, f32, s.verts, s.normals, s.start, s.count).value;
            var m := ParseModelAt(data, f32, query, base).value.0;
            m.triangles == faces.0 && m.faceNormals == faces.1
  {
  }

  /** What a parse promises: the vertex table is the vertex section, there is
      one triangle and one face normal per record, the box holds every
      corner, and distances are answered for exactly these triangles. */
  lemma ParseModelShape(data: seq<byte>, f32: seq<byte> -> real, query: seq<Triangle> -> Vec3 -> NonNeg, base: nat)
    requires ParseModelAt(data, f32, query, base).Ok?
    ensures var s := SectionsAt(data, f32, base).value;
            var m := ParseModelAt(data, f32, query, base).value.0;
            s.count > 0 && m.verts == s.verts && m.sqDist == query(m.triangles) &&
            |m.triangles| == s.count && |m.faceNormals| == s.count && s.start + 20 * s.count <= |data|
    ensures var m := ParseModelAt(data, f32, query, base).value.0;
            forall k, i :: 0 <= k < |m.triangles| && 0 <= i < 3 ==> InBox(m.box, Vertex(m.triangles[k], i))
  {
    ParseModelParts(data, f32, query, base);
    var s := SectionsAt(data, f32, base).value;
    var faces := FacesUpTo(data, f32, s.verts, s.normals, s.start, s.count).value;
    ModelBox(s.verts, faces.0, faces.1, query(faces.0));
  }

  /** The reads of lines 46-51: sixteen bytes of offsets, two skips, the
      mask and the shift (each unpacked, so each must be complete), and a
      last skip. */
  method ReadModelHeader(rd: Reader) returns (r: Result<ModelHeader>)
    modifies rd
    ensures r == ModelHeaderAt(rd.data, old(rd.pos))
  {
    var base := rd.pos;
    var offsets := rd.Read(16);
    if |offsets| < 16 {
      return Err(StructError);
    }
    var skip := rd.Read(4);
    var grid := rd.Read(12);
    var mask := rd.Read(12);
    if |mask| < 12 {
      return Err(StructError);
    }
    var shift := rd.Read(12);
    if |shift| < 12 {
      return Err(StructError);
    }
    var tail := rd.Read(4);
    assert |skip| == 4 && |grid| == 12;
    r := Ok(ModelHeader(I32LE(offsets, 0), I32LE(offsets, 4), I32LE(offsets, 8), I32LE(offsets, 12)));
  }

  /** A seek to `start` and `n` reads of three floats. */
  method ReadVecs(rd: Reader, start: int, n: nat) returns (r: Result<seq<Vec3>>)
    modifies rd
    ensures r == VecsAt(rd.data, rd.f32, start, n)
    ensures r.Ok? ==> rd.pos == start + 12 * n
  {
    var ok := rd.Seek(start);
    if !ok {
      return Err(SeekError);
    }
    var vs: seq<Vec3> := [];
    var i := 0;
    while i < n
      invariant 0 <= i <= n
      invariant rd.pos == start + 12 * i
      invariant VecsFrom(rd.data, rd.f32, start, i) == Ok(vs)
    {
      var v := rd.ReadVec();
      if v.Err? {
        return Err(StructError);
      }
      vs := vs + [v.value];
      i := i + 1;
    }
    r := Ok(vs);
  }

  /** Lines 45-65: the header, the vertex and normal loops, and the seek to
      the triangle records. */
  method ReadSections(rd: Reader) returns (r: Result<Sections>)
    modifies rd
    ensures r == SectionsAt(rd.data, rd.f32, old(rd.pos))
    ensures r.Ok? ==> rd.pos == r.value.start
  {
    var base := rd.pos;
    var hr := ReadModelHeader(rd);
    if hr.Err? {
      return Err(hr.error);
    }
    var h := hr.value;
    var verts := ReadVecs(rd, base + h.offVerts, SectionCount(h.offVerts, h.offNormals, VertexSize));
    if verts.Err? {
      return Err(verts.error);
    }
    var normals := ReadVecs(rd, base + h.offNormals, SectionCount(h.offNormals, h.offTriangles, NormalSize));
    if normals.Err? {
      return Err(normals.error);
    }
    var ok := rd.Seek(base + h.offTriangles);
    if !ok {
      return Err(SeekError);
    }
    r := Ok(Sections(verts.value, normals.value, base + h.offTriangles,
                     SectionCount(h.offTriangles, h.offSpatial, TriangleSize)));
  }

  /** One record of the triangle loop, from the current offset. */
  method ReadFace(rd: Reader, verts: seq<Vec3>, normals: seq<Vec3>) returns (r: Result<(Triangle, Vec3)>)
    modifies rd
    ensures r == FaceAt(rd.data, rd.f32, verts, normals, old(rd.pos))
    ensures r.Ok? ==> rd.pos == old(rd.pos) + TriangleSize
  {
    ghost var p := rd.pos;
    var bs := rd.Read(TriangleSize);
    if |bs| < TriangleSize {
      return Err(StructError);
    }
    assert bs == rd.data[p..p + TriangleSize];
    r := Face(DecodeRecord(rd.f32, bs), verts, normals);
  }

  /** The triangle loop of lines 68-89, from the current offset. */
  method ReadFaces(rd: Reader, verts: seq<Vec3>, normals: seq<Vec3>, count: nat)
    returns (r: Result<(seq<Triangle>, seq<Vec3>)>)
    modifies rd
    ensures r == FacesUpTo(rd.data, rd.f32, verts, normals, old(rd.pos), count)
    ensures r.Ok? ==> rd.pos == old(rd.pos) + 20 * count
  {
    var start := rd.pos;
    var triangles: seq<Triangle> := [];
    var faceNormals: seq<Vec3> := [];
    var i := 0;
    while i < count
      invariant 0 <= i <= count
      invariant rd.pos == start + 20 * i
      invariant FacesUpTo(rd.data, rd.f32, verts, normals, start, i) == Ok((triangles, faceNormals))
    {
      FacesUpToStep(rd.data, rd.f32, verts, normals, start, i, i + 1, rd.pos);
      var face := ReadFace(rd, verts, normals);
      if face.Err? {
        FacesUpToErrStays(rd.data, rd.f32, verts, normals, start, i + 1, count);
        return Err(face.error);
      }
      triangles := triangles + [face.value.0];
      faceNormals := faceNormals + [face.value.1];
      i := i + 1;
    }
    r := Ok((triangles, faceNormals));
  }

  /** `__parse_model`, leaving the file just after the last record. The
      outcome is `ParseModelAt` at the starting offset, stated through a
      `parse` that answers for it (see `ParsesAs`), so that callers reason
      about the file loop without unfolding the parse. */
  method ParseModel(rd: Reader, query: seq<Triangle> -> Vec3 -> NonNeg, ghost parse: nat -> Result<(Model, nat)>)
    returns (r: Result<Model>)
    requires ParsesAs(parse, rd.data, rd.f32, query)
    modifies rd
    ensures var spec := parse(old(rd.pos));
            (spec.Err? ==> r == Err(spec.error)) &&
            (spec.Ok? ==> r == Ok(spec.value.0) && rd.pos == spec.value.1)
  {
    assert parse(rd.pos) == ParseModelAt(rd.data, rd.f32, query, rd.pos);
    var sr := ReadSections(rd);
    if sr.Err? {
      return Err(sr.error);
    }
    var s := sr.value;
    var fr := ReadFaces(rd, s.verts, s.normals, s.count);
    if fr.Err? {
      return Err(fr.error);
    }
    r := MakeModel(s.verts, fr.value.0, fr.value.1, query(fr.value.0));
  }

  // --------------------------------------------------------- collision data

  /** `KCL.CollisionData`: the models of one or more files and the box read
      from the (first) file header. */
  datatype CollisionData = CollisionData(models: seq<Model>, box: Box)
  {
    /** `union`: a new value; neither operand changes. */
    function Union(other: CollisionData): (u: CollisionData)
      ensures |u.models| == |models| + |other.models|
      ensures u.models[..|models|] == models && u.models[|models|..] == other.models
      ensures Encloses(u.box, box) && Encloses(u.box, other.box)
    {
      CollisionData(models + other.models, Aabb.Union(box, other.box))
    }

    /** Some model intersects the sphere. */
    predicate Hits(center: Vec3, radius: real)
    {
      exists k :: 0 <= k < |models| && models[k].Intersects(center, radius)
    }
  }

  lemma HitsUnion(a: CollisionData, b: CollisionData, c: Vec3, r: real)
    ensures a.Union(b).Hits(c, r) <==> a.Hits(c, r) || b.Hits(c, r)
  {
    var u := a.Union(b);
    if u.Hits(c, r) {
      var k :| 0 <= k < |u.models| && u.models[k].Intersects(c, r);
      if k < |a.models| {
        assert a.models[k] == u.models[k];
      } else {
        assert b.models[k - |a.models|] == u.models[k];
      }
    }
    if a.Hits(c, r) {
      var k :| 0 <= k < |a.models| && a.models[k].Intersects(c, r);
      assert u.models[k] == a.models[k];
    }
    if b.Hits(c, r) {
      var k :| 0 <= k < |b.models| && b.models[k].Intersects(c, r);
      assert u.models[|a.models| + k] == b.models[k];
    }
  }

  lemma HitsMonotone(cd: CollisionData, c: Vec3, r: real, r': real)
    requires cd.Hits(c, r) && r <= r'
    ensures cd.Hits(c, r')
  {
    var k :| 0 <= k < |cd.models| && cd.models[k].Intersects(c, r);
    IntersectsMonotone(cd.models[k], c, r, r');
  }

  /** `CollisionData.intersects`: the first model that reports a hit ends the loop. */
  method Intersects(cd: CollisionData, center: Vec3, radius: real) returns (hit: bool)
    ensures hit <==> cd.Hits(center, radius)
  {
    for k := 0 to |cd.models|
      invariant forall j :: 0 <= j < k ==> !cd.models[j].Intersects(center, radius)
    {
      if cd.models[k].Intersects(center, radius) {
        return true;
      }
    }
    return false;
  }

  /** Where an actor of the given radius would stand on `pos` with surface normal `n`. */
  function ActorCenter(pos: Vec3, n: Vec3, radius: real): Vec3
  {
    Add(pos, Scale(n, radius + 1.0))
  }

  /** `pos` is the centroid of an upward enough face of some model, and the
      actor standing on it touches nothing. */
  predicate Standable(cd: CollisionData, pos: Vec3, radius: real, target: Vec3, cosThreshold: real)
  {
    exists k, j :: 0 <= k < |cd.models| && 0 <= j < |cd.models[k].triangles| && j < |cd.models[k].faceNormals| &&
      pos == Centroid(cd.models[k].triangles[j]) &&
      Dot(cd.models[k].faceNormals[j], target) >= cosThreshold &&
      !cd.Hits(ActorCenter(pos, cd.models[k].faceNormals[j], radius), radius)
  }

  /** The retry loop of `get_random_standable_pos` with `tries` attempts left,
      reading the random stream from `cursor`: each attempt draws a model
      (`random.choice`) and a triangle (`randrange`). Returns the outcome and
      the cursor after it. */
  function Search(cd: CollisionData, stream: nat -> Unit, cursor: nat, tries: nat,
                  radius: real, target: Vec3, cosThreshold: real): (r: (Result<Vec3>, nat))
    ensures r.0.Ok? ==> Standable(cd, r.0.value, radius, target, cosThreshold)
    decreases tries
  {
    if tries == 0 then (Err(SearchExhausted), cursor)
    else if cd.models == [] then (Err(IndexError), cursor)
    else
      var k := BelowOf(|cd.models|, stream(cursor));
      var m := cd.models[k];
      match m.TryStandable(stream(cursor + 1), target, cosThreshold)
      case Err(e) => (Err(e), cursor + 2)
      case Ok(None) => Search(cd, stream, cursor + 2, tries - 1, radius, target, cosThreshold)
      case Ok(Some(found)) =>
        var pos := found.0;
        if cd.Hits(ActorCenter(pos, found.1, radius), radius) then
          Search(cd, stream, cursor + 2, tries - 1, radius, target, cosThreshold)
        else
          var j := BelowOf(|m.triangles|, stream(cursor + 1));
          assert pos == Centroid(m.triangles[j]);
          (Ok(pos), cursor + 2)
  }

  /** `get_random_standable_pos`. */
  method GetRandomStandablePos(cd: CollisionData, rng: Random, radius: real, target: Vec3, cosThreshold: real)
    returns (r: Result<Vec3>)
    modifies rng
    ensures var spec := Search(cd, rng.stream, old(rng.cursor), StandableTries, radius, target, cosThreshold);
            r == spec.0 && rng.cursor == spec.1
    ensures r.Ok? ==> Standable(cd, r.value, radius, target, cosThreshold)
  {
    var tries: nat := StandableTries;
    while tries > 0
      invariant Search(cd, rng.stream, old(rng.cursor), StandableTries, radius, target, cosThreshold)
             == Search(cd, rng.stream, rng.cursor, tries, radius, target, cosThreshold)
    {
      var choice := rng.Choice(cd.models);
      if choice.Err? {
        return Err(IndexError);
      }
      var m := choice.value;
      var u := rng.Random();
      var output := m.TryStandable(u, target, cosThreshold);
      if output.Err? {
        return Err(output.error);
      }
      tries := tries - 1;
      if output.value.None? {
        continue;
      }
      var pos := output.value.value.0;
      var hit := Intersects(cd, ActorCenter(pos, output.value.value.1, radius), radius);
      if hit {
        continue;
      }
      return Ok(pos);
    }
    r := Err(SearchExhausted);
  }

  /** `count` models parsed one after another by `parse`, starting at
      offset `pos`: each parse starts where the previous one left the file. */
  function ModelsBy(parse: nat -> Result<(Model, nat)>, pos: nat, count: nat): (r: Result<seq<Model>>)
    ensures r.Ok? ==> |r.value| == count
    decreases count
  {
    if count == 0 then Ok([])
    else
      var first :- parse(pos);
      var rest :- ModelsBy(parse, first.1, count - 1);
      Ok([first.0] + rest)
  }

  /** `__parse_model` on the bytes of a file, as a function of the offset it starts at. */
  function ParserOf(data: seq<byte>, f32: seq<byte> -> real,
                    query: seq<Triangle> -> Vec3 -> NonNeg): nat -> Result<(Model, nat)>
  {
    p => ParseModelAt(data, f32, query, p)
  }

  /** `count` models of a file parsed one after another from offset `pos`. */
  function ModelsFrom(data: seq<byte>, f32: seq<byte> -> real, query: seq<Triangle> -> Vec3 -> NonNeg,
                      pos: nat, count: nat): (r: Result<seq<Model>>)
    ensures r.Ok? ==> |r.value| == count
  {
    ModelsBy(ParserOf(data, f32, query), pos, count)
  }

  /** When every successful parse yields a model with a triangle, so does
      every model of a successful run. */
  lemma {:induction false} ModelsByNonEmpty(parse: nat -> Result<(Model, nat)>, pos: nat, count: nat)
    requires forall p :: parse(p).Ok? ==> parse(p).value.0.triangles != []
    requires ModelsBy(parse, pos, count).Ok?
    ensures forall k :: 0 <= k < count ==> ModelsBy(parse, pos, count).value[k].triangles != []
    decreases count
  {
    if count > 0 {
      var first := parse(pos).value;
      ModelsByNonEmpty(parse, first.1, count - 1);
      assert ModelsBy(parse, pos, count).value == [first.0] + ModelsBy(parse, first.1, count - 1).value;
    }
  }

  /** Every model of a successful run over a file has a triangle. */
  lemma ModelsFromNonEmpty(data: seq<byte>, f32: seq<byte> -> real,
                           query: seq<Triangle> -> Vec3 -> NonNeg, pos: nat, count: nat)
    requires ModelsFrom(data, f32, query, pos, count).Ok?
    ensures forall k :: 0 <= k < count ==> ModelsFrom(data, f32, query, pos, count).value[k].triangles != []
  {
    var parse := ParserOf(data, f32, query);
    forall p | parse(p).Ok?
      ensures parse(p).value.0.triangles != []
    {
      assert parse(p) == ParseModelAt(data, f32, query, p);
    }
    ModelsByNonEmpty(parse, pos, count);
  }

  /** `models + rest`, carried through a result. */
  function Prepend(models: seq<Model>, r: Result<seq<Model>>): Result<seq<Model>>
  {
    match r
    case Ok(rest) => Ok(models + rest)
    case Err(e) => Err(e)
  }

  /** `KCL.get_collision_data` on the bytes of a file. */
  function CollisionDataAt(data: seq<byte>, f32: seq<byte> -> real,
                           query: seq<Triangle> -> Vec3 -> NonNeg): (r: Result<CollisionData>)
    ensures FileHeaderAt(data, f32).Err? ==> r == Err(FileHeaderAt(data, f32).error)
    ensures r.Ok? ==> var h := FileHeaderAt(data, f32);
      h.Ok? && r.value.box == h.value.box && |r.value.models| == h.value.modelCount &&
      forall k :: 0 <= k < |r.value.models| ==> r.value.models[k].triangles != []
  {
    var h := FileHeaderAt(data, f32);
    if h.Err? then Err(h.error)
    else
      var models := ModelsFrom(data, f32, query, h.value.modelOffset + 4, h.value.modelCount);
      if models.Err? then Err(models.error)
      else
        ModelsFromNonEmpty(data, f32, query, h.value.modelOffset + 4, h.value.modelCount);
        Ok(CollisionData(models.value, h.value.box))
  }

  /** Once the header is read, the collision data is the models that follow it. */
  lemma CollisionDataAfterHeader(data: seq<byte>, f32: seq<byte> -> real, query: seq<Triangle> -> Vec3 -> NonNeg)
    requires FileHeaderAt(data, f32).Ok?
    ensures var h := FileHeaderAt(data, f32).value;
            var ms := ModelsFrom(data, f32, query, h.modelOffset + 4, h.modelCount);
            CollisionDataAt(data, f32, query) == if ms.Ok? then Ok(CollisionData(ms.value, h.box)) else Err(ms.error)
  {
  }

  /** Lines 27-33: the magic, then the rest of the header. */
  method ReadFileHeader(rd: Reader) returns (r: Result<FileHeader>)
    requires rd.pos == 0
    modifies rd
    ensures r == FileHeaderAt(rd.data, rd.f32)
  {
    var magic := rd.Read(4);
    if |magic| < 4 {
      return Err(StructError);
    }
    if U32BE(magic, 0) != Magic {
      return Err(AssertionError);
    }
    var rest := rd.Read(48);
    if |rest| < 48 {
      return Err(StructError);
    }
    assert magic + rest == rd.data[..52];
    r := Ok(DecodeFileHeader(rd.f32, magic + rest));
  }

  /** `parse` answers for `__parse_model` on these bytes: at every offset
      where the model parse is asked about, it gives the same outcome. */
  ghost predicate ParsesAs(parse: nat -> Result<(Model, nat)>, data: seq<byte>, f32: seq<byte> -> real,
                           query: seq<Triangle> -> Vec3 -> NonNeg)
  {
    forall p {:trigger ParseModelAt(data, f32, query, p)} :: parse(p) == ParseModelAt(data, f32, query, p)
  }

  lemma ParserOfParses(data: seq<byte>, f32: seq<byte> -> real, query: seq<Triangle> -> Vec3 -> NonNeg)
    ensures ParsesAs(ParserOf(data, f32, query), data, f32, query)
  {
  }

  /** One step of `ModelsBy`: the first model, then the rest from where it ends. */
  lemma ModelsByStep(parse: nat -> Result<(Model, nat)>, pos: nat, count: nat)
    requires count > 0
    ensures parse(pos).Err? ==> ModelsBy(parse, pos, count) == Err(parse(pos).error)
    ensures parse(pos).Ok? ==>
              ModelsBy(parse, pos, count) == Prepend([parse(pos).value.0], ModelsBy(parse, parse(pos).value.1, count - 1))
  {
  }

  lemma ModelsBySame(parse: nat -> Result<(Model, nat)>, p: nat, n: nat, q: nat, m: nat)
    requires p == q && n == m
    ensures ModelsBy(parse, p, n) == ModelsBy(parse, q, m)
  {
  }

  lemma PrependNil(r: Result<seq<Model>>)
    ensures Prepend([], r) == r
  {
    if r.Ok? {
      assert [] + r.value == r.value;
    }
  }

  lemma PrependPrepend(models: seq<Model>, m: Model, r: Result<seq<Model>>)
    ensures Prepend(models, Prepend([m], r)) == Prepend(models + [m], r)
  {
    if r.Ok? {
      assert models + ([m] + r.value) == (models + [m]) + r.value;
    }
  }

  /** Lines 37-39: `count` models parsed one after another. `parse` is the
      parse of this file (`ParserOf`); the loop relies on it only where
      `ParseModel` runs. */
  method ReadModels(rd: Reader, query: seq<Triangle> -> Vec3 -> NonNeg, count: nat,
                    ghost parse: nat -> Result<(Model, nat)>) returns (r: Result<seq<Model>>)
    requires ParsesAs(parse, rd.data, rd.f32, query)
    modifies rd
    ensures r == ModelsBy(parse, old(rd.pos), count)
  {
    ghost var all := ModelsBy(parse, rd.pos, count);
    var models: seq<Model> := [];
    var i := 0;
    PrependNil(all);
    while i < count
      invariant 0 <= i <= count
      invariant all == Prepend(models, ModelsBy(parse, rd.pos, count - i))
    {
      ModelsByStep(parse, rd.pos, count - i);
      var m := ParseModel(rd, query, parse);
      if m.Err? {
        return Err(m.error);
      }
      ghost var next := count - i - 1;
      PrependPrepend(models, m.value, ModelsBy(parse, rd.pos, count - i - 1));
      ModelsBySame(parse, rd.pos, count - i - 1, rd.pos, next);
      models := models + [m.value];
      i := i + 1;
      ModelsBySame(parse, rd.pos, count - i, rd.pos, next);
    }
    assert models + [] == models;
    r := Ok(models);
  }

  /** `KCL.get_collision_data`: the file header, then `model_count` models read
      one after another from `model_offset + 4`. */
  method GetCollisionData(rd: Reader, query: seq<Triangle> -> Vec3 -> NonNeg) returns (r: Result<CollisionData>)
    requires rd.pos == 0
    modifies rd
    ensures r == CollisionDataAt(rd.data, rd.f32, query)
  {
    var h := ReadFileHeader(rd);
    if h.Err? {
      return Err(h.error);
    }
    CollisionDataAfterHeader(rd.data, rd.f32, query);
    var ok := rd.Seek(h.value.modelOffset + 4);
    ParserOfParses(rd.data, rd.f32, query);
    var models := ReadModels(rd, query, h.value.modelCount, ParserOf(rd.data, rd.f32, query));
    if models.Err? {
      return Err(models.error);
    }
    r := Ok(CollisionData(models.value, h.value.box));
  }
}
