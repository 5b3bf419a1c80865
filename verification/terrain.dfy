/** The integer parts of packages/client/app/components/Terrain.tsx: the
    31-multiplier string hash that seeds the noise, the chunk a position
    falls in, and the window of chunks kept around the player. */
module Terrain {
  import opened Wrappers
  import opened Geometry
  import Decimal

  /** 2^32, the modulus of JavaScript's 32-bit integer operations. */
  const Modulus: int := 0x1_0000_0000

  /** A UTF-16 code unit, what `charCodeAt` returns. */
  type CodeUnit = c: int | 0 <= c < 0x1_0000

  /** JavaScript's ToInt32 (`x | 0`, and the result of `Math.imul`): the
      signed 32-bit integer congruent to `x` modulo 2^32. */
  function ToInt32(x: int): (r: int)
    ensures -0x8000_0000 <= r < 0x8000_0000
    ensures r % Modulus == x % Modulus
  {
    var m := x % Modulus;
    if m >= 0x8000_0000 then m - Modulus else m
  }

  /** One loop iteration: `h = (Math.imul(31, h) + str.charCodeAt(i)) | 0`. */
  function HashStep(h: int, c: CodeUnit): int {
    ToInt32(ToInt32(31 * h) + c)
  }

  /** `hash(str)`, folding HashStep over the code units from the left. */
  function Hash(s: seq<CodeUnit>): (h: int)
    ensures -0x8000_0000 <= h < 0x8000_0000
    decreases |s|
  {
    if |s| == 0 then 0 else HashStep(Hash(s[..|s| - 1]), s[|s| - 1])
  }

  /** The loop as written: `h` starts at 0 and absorbs one code unit per
      iteration. */
  method ComputeHash(s: seq<CodeUnit>) returns (h: int)
    ensures h == Hash(s)
    ensures -0x8000_0000 <= h < 0x8000_0000
    ensures s == [] ==> h == 0
  {
    h := 0;
    var i := 0;
    while i < |s|
      invariant 0 <= i <= |s|
      invariant h == Hash(s[..i])
    {
      assert s[..i + 1][..i] == s[..i];
      h := HashStep(h, s[i]);
      i := i + 1;
    }
    assert s[..i] == s;
  }

  /** The polynomial the hash approximates, in exact integers:
      the sum of `s[i] * 31^(n-1-i)`, by Horner's rule. */
  function Poly(s: seq<CodeUnit>): int
    decreases |s|
  {
    if |s| == 0 then 0 else 31 * Poly(s[..|s| - 1]) + s[|s| - 1]
  }

  lemma ToInt32Congruent(a: int, b: int)
    requires a % Modulus == b % Modulus
    ensures ToInt32(a) == ToInt32(b)
  {
  }

  /** Numbers congruent modulo 2^32 differ by a multiple of 2^32. */
  lemma CongruentDiffer(a: int, b: int)
    requires a % Modulus == b % Modulus
    ensures a - b == Modulus * (a / Modulus - b / Modulus)
  {
  }

  lemma ShiftMod(x: int, q: int)
    ensures (x + Modulus * q) % Modulus == x % Modulus
  {
  }

  /** Congruence modulo 2^32 survives `31 * _ + c`. */
  lemma CongruentStep(a: int, b: int, c: int)
    requires a % Modulus == b % Modulus
    ensures (31 * a + c) % Modulus == (31 * b + c) % Modulus
  {
    var q := a / Modulus - b / Modulus;
    CongruentDiffer(a, b);
    assert 31 * a + c == (31 * b + c) + Modulus * (31 * q);
    ShiftMod(31 * b + c, 31 * q);
  }

  /** Wrapping the product before adding the code unit changes nothing
      modulo 2^32. */
  lemma HashStepWraps(a: int, c: CodeUnit)
    ensures HashStep(a, c) == ToInt32(31 * a + c)
  {
    var b := ToInt32(31 * a);
    CongruentDiffer(b, 31 * a);
    ShiftMod(31 * a + c, b / Modulus - (31 * a) / Modulus);
    assert b + c == (31 * a + c) + Modulus * (b / Modulus - (31 * a) / Modulus);
    ToInt32Congruent(b + c, 31 * a + c);
  }

  /** Wrapping after every step loses nothing: the hash is the exact
      polynomial reduced once to a signed 32-bit integer. */
  lemma {:induction false} HashIsWrappedPolynomial(s: seq<CodeUnit>)
    ensures Hash(s) == ToInt32(Poly(s))
    decreases |s|
  {
    if |s| > 0 {
      var p, c := s[..|s| - 1], s[|s| - 1];
      HashIsWrappedPolynomial(p);
      var a, P := Hash(p), Poly(p);
      HashStepWraps(a, c);
      CongruentStep(a, P, c);
      ToInt32Congruent(31 * a + c, 31 * P + c);
    }
  }

  /** The code units of an ASCII string. */
  function AsciiUnits(s: string): (u: seq<CodeUnit>)
    requires forall i :: 0 <= i < |s| ==> s[i] as int < 128
    ensures |u| == |s| && forall i :: 0 <= i < |s| ==> u[i] == s[i] as int
  {
    seq(|s|, i requires 0 <= i < |s| => s[i] as int)
  }

  /** `hash(seed)` for an integer seed: the hash of `seed.toString()`. */
  function SeedHash(seed: int): int {
    var text := Decimal.FromInt(seed);
    assert forall i :: 0 <= i < |text| ==> text[i] == '-' || Decimal.IsDigit(text[i]);
    Hash(AsciiUnits(text))
  }

  /** The terrain's default seed 42 hashes "42" to 31 * 52 + 50. */
  lemma DefaultSeedHash()
    ensures SeedHash(42) == 1662
  {
    assert Decimal.FromInt(42) == "42";
    var u := AsciiUnits("42");
    assert u == [52, 50];
    assert u[..1] == [52];
    assert [52][..0] == [];
  }

  /** The side of a square chunk in world units. */
  const ChunkSize: int := 64

  /** `Math.floor(v / CHUNK_SIZE)`: the chunk index a coordinate falls in. */
  function ChunkIndex(v: real): (c: int)
    ensures (c * 64) as real <= v < ((c + 1) * 64) as real
  {
    (v / ChunkSize as real).Floor
  }

  /** The chunk under the player: from x and z only; y plays no part. */
  function PlayerChunk(p: Vec3): (c: (int, int))
    ensures (c.0 * 64) as real <= p.x < ((c.0 + 1) * 64) as real
    ensures (c.1 * 64) as real <= p.z < ((c.1 + 1) * 64) as real
  {
    (ChunkIndex(p.x), ChunkIndex(p.z))
  }

  /** One active chunk: its indices and its React key. */
  datatype Chunk = Chunk(x: int, z: int, key: string)

  /** The key `${cx},${cz}`. */
  function ChunkKey(x: int, z: int): string {
    Decimal.FromInt(x) + "," + Decimal.FromInt(z)
  }

  /** Split a key at its first comma. */
  function SplitAtComma(s: string): Option<(string, string)>
    decreases |s|
  {
    if |s| == 0 then None
    else if s[0] == ',' then Some(([], s[1..]))
    else match SplitAtComma(s[1..])
      case None => None
      case Some(parts) => Some(([s[0]] + parts.0, parts.1))
  }

  /** Read the indices back from a key. */
  function ParseChunkKey(key: string): Option<(int, int)> {
    match SplitAtComma(key)
    case None => None
    case Some(parts) =>
      match (Decimal.ParseInt(parts.0), Decimal.ParseInt(parts.1))
      case (Some(x), Some(z)) => Some((x, z))
      case _ => None
  }

  lemma {:induction false} SplitAtFirstComma(a: string, b: string)
    requires ',' !in a
    ensures SplitAtComma(a + "," + b) == Some((a, b))
    decreases |a|
  {
    if |a| > 0 {
      assert (a + "," + b)[0] == a[0] && a[0] != ',';
      assert (a + "," + b)[1..] == a[1..] + "," + b;
      assert [a[0]] + a[1..] == a;
      SplitAtFirstComma(a[1..], b);
    }
  }

  /** A key names its chunk: the indices read back from it. */
  lemma ChunkKeyRoundTrip(x: int, z: int)
    ensures ParseChunkKey(ChunkKey(x, z)) == Some((x, z))
  {
    SplitAtFirstComma(Decimal.FromInt(x), Decimal.FromInt(z));
    Decimal.FromIntRoundTrip(x);
    Decimal.FromIntRoundTrip(z);
  }

  /** Distinct chunks get distinct keys. */
  lemma ChunkKeyInjective(x1: int, z1: int, x2: int, z2: int)
    requires ChunkKey(x1, z1) == ChunkKey(x2, z2)
    ensures x1 == x2 && z1 == z2
  {
    ChunkKeyRoundTrip(x1, z1);
    ChunkKeyRoundTrip(x2, z2);
  }

  /** The loop order: `dx` outer, `dz` inner, both ascending. */
  predicate Before(a: Chunk, b: Chunk) {
    a.x < b.x || (a.x == b.x && a.z < b.z)
  }

  /** Within Chebyshev distance `r` of the chunk `(cx, cz)`. */
  predicate InWindow(x: int, z: int, cx: int, cz: int, r: int) {
    cx - r <= x <= cx + r && cz - r <= z <= cz + r
  }

  /** `activeChunks`: every chunk within `r` of `(cx, cz)` with its key,
      each exactly once, in loop order; `(2r+1)^2` of them, none when
      `r` is negative. */
  method ActiveChunks(cx: int, cz: int, r: int) returns (chunks: seq<Chunk>)
    ensures r < 0 ==> chunks == []
    ensures r >= 0 ==> |chunks| == (2 * r + 1) * (2 * r + 1)
    ensures forall c :: c in chunks <==> InWindow(c.x, c.z, cx, cz, r) && c.key == ChunkKey(c.x, c.z)
    ensures forall i, j :: 0 <= i < j < |chunks| ==> Before(chunks[i], chunks[j])
    ensures forall i, j :: 0 <= i < j < |chunks| ==> chunks[i].key != chunks[j].key
  {
    chunks := [];
    var dx := -r;
    while dx <= r
      invariant r >= 0 ==> -r <= dx <= r + 1
      invariant r < 0 ==> chunks == []
      invariant r >= 0 ==> |chunks| == (dx + r) * (2 * r + 1)
      invariant forall c :: c in chunks <==>
        InWindow(c.x, c.z, cx, cz, r) && c.x < cx + dx && c.key == ChunkKey(c.x, c.z)
      invariant forall i, j :: 0 <= i < j < |chunks| ==> Before(chunks[i], chunks[j])
      invariant forall i :: 0 <= i < |chunks| ==> chunks[i].x < cx + dx
    {
      var dz := -r;
      while dz <= r
        invariant -r <= dz <= r + 1
        invariant |chunks| == (dx + r) * (2 * r + 1) + (dz + r)
        invariant forall c :: c in chunks <==>
          InWindow(c.x, c.z, cx, cz, r) && c.key == ChunkKey(c.x, c.z)
          && (c.x < cx + dx || (c.x == cx + dx && c.z < cz + dz))
        invariant forall i, j :: 0 <= i < j < |chunks| ==> Before(chunks[i], chunks[j])
        invariant forall i :: 0 <= i < |chunks| ==> Before(chunks[i], Chunk(cx + dx, cz + dz, ""))
      {
        var x, z := cx + dx, cz + dz;
        chunks := chunks + [Chunk(x, z, ChunkKey(x, z))];
        dz := dz + 1;
      }
      assert (dx + r) * (2 * r + 1) + (2 * r + 1) == (dx + 1 + r) * (2 * r + 1);
      dx := dx + 1;
    }
    forall i, j | 0 <= i < j < |chunks|
      ensures chunks[i].key != chunks[j].key
    {
      assert chunks[i] in chunks && chunks[j] in chunks;
      if chunks[i].key == chunks[j].key {
        ChunkKeyInjective(chunks[i].x, chunks[i].z, chunks[j].x, chunks[j].z);
      }
    }
  }

  /** `ChunkManager`: the window around the chunk under the player, with
      every guarantee of `ActiveChunks` at that chunk. */
  method ChunkManager(playerPosition: Vec3, renderDistance: int) returns (chunks: seq<Chunk>)
    ensures renderDistance < 0 ==> chunks == []
    ensures renderDistance >= 0 ==> |chunks| == (2 * renderDistance + 1) * (2 * renderDistance + 1)
    ensures forall c :: c in chunks <==>
      && InWindow(c.x, c.z, PlayerChunk(playerPosition).0, PlayerChunk(playerPosition).1, renderDistance)
      && c.key == ChunkKey(c.x, c.z)
    ensures forall i, j :: 0 <= i < j < |chunks| ==> Before(chunks[i], chunks[j])
    ensures forall i, j :: 0 <= i < j < |chunks| ==> chunks[i].key != chunks[j].key
    ensures renderDistance >= 0 ==> Chunk(PlayerChunk(playerPosition).0, PlayerChunk(playerPosition).1,
      ChunkKey(PlayerChunk(playerPosition).0, PlayerChunk(playerPosition).1)) in chunks
  {
    var (px, pz) := PlayerChunk(playerPosition);
    chunks := ActiveChunks(px, pz, renderDistance);
  }

  /** `<Terrain />`: render distance 1 around the default position
      `[0, 0, 0]`, the nine chunks from (-1, -1) to (1, 1). */
  method DefaultTerrain() returns (chunks: seq<Chunk>)
    ensures |chunks| == 9
    ensures forall c :: c in chunks <==> -1 <= c.x <= 1 && -1 <= c.z <= 1 && c.key == ChunkKey(c.x, c.z)
  {
    assert PlayerChunk(Origin) == (0, 0);
    chunks := ActiveChunks(0, 0, 1);
  }
}
