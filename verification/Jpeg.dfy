/**
 JPEG marker segments (section B.1.1.4 of ITU-T T.81): reading and rewriting the JFIF
 density, and looking for EXIF.  The browser and the server each have a rewriter.
 */
module Jpeg {
  import opened Basics

  datatype Density = Density(units: byte, x: nat, y: nat)

  datatype Kind = Jfif | Exif

  const JFIF_ID: Bytes := [0x4a, 0x46, 0x49, 0x46, 0x00]
  const EXIF_ID: Bytes := [0x45, 0x78, 0x69, 0x66]

  function Pair(high: byte, low: byte): nat {
    high as int * 256 + low as int
  }

  function Word(b: Bytes, i: nat): nat
    requires i + 1 < |b|
  {
    Pair(b[i], b[i + 1])
  }

  /** A marker segment starts at `off` and lies within the bytes. */
  predicate SegmentAt(b: Bytes, off: nat) {
    && off + 4 <= |b| && b[off] == 0xff && b[off + 1] != 0xd9 && b[off + 1] != 0xda
    && 2 <= Word(b, off + 2) && off + 2 + Word(b, off + 2) <= |b|
  }

  function Next(b: Bytes, off: nat): (next: nat)
    requires SegmentAt(b, off)
    ensures off + 4 <= next <= |b|
  {
    off + 2 + Word(b, off + 2)
  }

  predicate IsKind(b: Bytes, off: nat, kind: Kind)
    requires SegmentAt(b, off)
  {
    match kind
    case Jfif => b[off + 1] == 0xe0 && Word(b, off + 2) >= 14 && b[off + 4..off + 9] == JFIF_ID
    case Exif => b[off + 1] == 0xe1 && Word(b, off + 2) >= 8 && b[off + 4..off + 8] == EXIF_ID
  }

  /** The first segment of the kind on the walk from `off`. */
  function Find(b: Bytes, off: nat, kind: Kind): (found: Option<nat>)
    ensures found.Some? ==>
      off <= found.value && SegmentAt(b, found.value) && IsKind(b, found.value, kind)
      && (kind == Jfif ==> found.value + 16 <= |b|)
    decreases |b| - off
  {
    if !SegmentAt(b, off) then None
    else if IsKind(b, off, kind) then Some(off)
    else Find(b, Next(b, off), kind)
  }

  /** The offsets of all segments on the walk from `off`. */
  function Walk(b: Bytes, off: nat): seq<nat>
    decreases |b| - off
  {
    if SegmentAt(b, off) then [off] + Walk(b, Next(b, off)) else []
  }

  /** A search finds the first segment of its kind on the walk, and nothing only if the walk has none. */
  lemma {:induction false} FindsTheFirst(b: Bytes, at: nat, kind: Kind)
    ensures forall off <- Walk(b, at) :: SegmentAt(b, off)
    ensures
      var walk := Walk(b, at);
      match Find(b, at, kind)
      case None => forall off <- walk :: !IsKind(b, off, kind)
      case Some(found) =>
        exists k :: 0 <= k < |walk| && walk[k] == found && IsKind(b, found, kind)
                    && forall j :: 0 <= j < k ==> !IsKind(b, walk[j], kind)
    decreases |b| - at
  {
    if SegmentAt(b, at) {
      var rest := Walk(b, Next(b, at));
      FindsTheFirst(b, Next(b, at), kind);
      if !IsKind(b, at, kind) && Find(b, at, kind).Some? {
        var k :| 0 <= k < |rest| && rest[k] == Find(b, at, kind).value && IsKind(b, rest[k], kind)
                 && forall j :: 0 <= j < k ==> !IsKind(b, rest[j], kind);
        assert Walk(b, at)[k + 1] == rest[k];
      } else if IsKind(b, at, kind) {
        assert Walk(b, at)[0] == at;
      }
    }
  }

  function DensityAt(b: Bytes, off: nat): Density
    requires off + 16 <= |b|
  {
    Density(b[off + 11], Word(b, off + 12), Word(b, off + 14))
  }

  function DensityOf(b: Bytes): Option<Density> {
    match Find(b, 2, Jfif)
    case None => None
    case Some(off) => Some(DensityAt(b, off))
  }

  function High(ppi: nat): byte {
    (ppi / 256) % 256
  }

  function Low(ppi: nat): byte {
    ppi % 256
  }

  function WithDensity(b: Bytes, off: nat, ppi: nat): (r: Bytes)
    requires off + 16 <= |b|
    ensures |r| == |b| && forall i | 0 <= i < |b| && !(off + 11 <= i < off + 16) :: r[i] == b[i]
  {
    b[off + 11 := 1][off + 12 := High(ppi)][off + 13 := Low(ppi)][off + 14 := High(ppi)][off + 15 := Low(ppi)]
  }

  function Rewritten(b: Bytes, ppi: nat): Option<Bytes> {
    match Find(b, 2, Jfif)
    case None => None
    case Some(off) => Some(WithDensity(b, off, ppi))
  }

  // ----- the browser's walkers -----

  method ReadJpegDensity(bytes: array<byte>) returns (density: Option<Density>)
    ensures density == DensityOf(bytes[..])
  {
    var off := 2;
    while off + 4 <= bytes.Length
      invariant Find(bytes[..], 2, Jfif) == Find(bytes[..], off, Jfif)
    {
      if bytes[off] != 0xff {
        return None;
      }
      var marker := bytes[off + 1];
      if marker == 0xd9 || marker == 0xda {
        return None;
      }
      var len := Pair(bytes[off + 2], bytes[off + 3]);
      if len < 2 || off + 2 + len > bytes.Length {
        return None;
      }
      if marker == 0xe0 && len >= 14 {
        var p := off + 4;
        if bytes[p..p + 5] == JFIF_ID {
          assert IsKind(bytes[..], off, Jfif);
          return Some(Density(bytes[p + 7], Pair(bytes[p + 8], bytes[p + 9]), Pair(bytes[p + 10], bytes[p + 11])));
        }
      }
      off := off + 2 + len;
    }
    return None;
  }

  /** Writes units and both densities into the APP0 payload at `p`. */
  method PutDensity(out: array<byte>, p: nat, ppi: nat)
    requires 4 <= p && p + 12 <= out.Length
    modifies out
    ensures out[..] == WithDensity(old(out[..]), p - 4, ppi)
  {
    out[p + 7] := 1;
    out[p + 8] := High(ppi);
    out[p + 9] := Low(ppi);
    out[p + 10] := High(ppi);
    out[p + 11] := Low(ppi);
  }

  method RewriteJfifDensityBytes(bytes: array<byte>, ppi: nat) returns (rewritten: Option<array<byte>>)
    ensures rewritten.Some? <==> Rewritten(bytes[..], ppi).Some?
    ensures rewritten.Some? ==> fresh(rewritten.value) && rewritten.value[..] == Rewritten(bytes[..], ppi).value
  {
    var out := new byte[bytes.Length](i requires 0 <= i < bytes.Length reads bytes => bytes[i]);
    assert out[..] == bytes[..];
    var off := 2;
    while off + 4 <= out.Length
      invariant out[..] == bytes[..]
      invariant Find(bytes[..], 2, Jfif) == Find(bytes[..], off, Jfif)
    {
      if out[off] != 0xff {
        break;
      }
      var marker := out[off + 1];
      if marker == 0xd9 || marker == 0xda {
        break;
      }
      var len := Pair(out[off + 2], out[off + 3]);
      if len < 2 || off + 2 + len > out.Length {
        break;
      }
      assert SegmentAt(bytes[..], off);
      if marker == 0xe0 && len >= 14 {
        var p := off + 4;
        if out[p..p + 5] == JFIF_ID {
          assert IsKind(bytes[..], off, Jfif);
          PutDensity(out, p, ppi);
          return Some(out);
        }
      }
      off := off + 2 + len;
    }
    return None;
  }

  method HasExifSegment(bytes: array<byte>) returns (found: bool)
    ensures found <==> Find(bytes[..], 2, Exif).Some?
  {
    var off := 2;
    while off + 4 <= bytes.Length
      invariant Find(bytes[..], 2, Exif) == Find(bytes[..], off, Exif)
    {
      if bytes[off] != 0xff {
        return false;
      }
      var marker := bytes[off + 1];
      if marker == 0xd9 || marker == 0xda {
        return false;
      }
      var len := Pair(bytes[off + 2], bytes[off + 3]);
      if len < 2 || off + 2 + len > bytes.Length {
        return false;
      }
      if marker == 0xe1 && len >= 8 {
        var p := off + 4;
        if bytes[p..p + 4] == EXIF_ID {
          assert IsKind(bytes[..], off, Exif);
          return true;
        }
      }
      off := off + 2 + len;
    }
    return false;
  }

  // ----- the server's rewriter -----

  datatype WriteError = CorruptHeader | NoJfif | DensityOverflow

  predicate StartsImage(b: Bytes) {
    |b| >= 4 && b[0] == 0xff && b[1] == 0xd8
  }

  function ServerRewritten(b: Bytes, ppi: nat): Result<Bytes, WriteError> {
    if !StartsImage(b) then Err(CorruptHeader)
    else
      match Find(b, 2, Jfif)
      case None => Err(NoJfif)
      case Some(off) => if ppi >= 0x1_0000 then Err(DensityOverflow) else Ok(WithDensity(b, off, ppi))
  }

  /** Assignment to a slice of two bytes. */
  function Splice(b: Bytes, at: nat, word: Bytes): (r: Bytes)
    requires at + 2 <= |b| && |word| == 2
    ensures r == b[at := word[0]][at + 1 := word[1]]
  {
    b[..at] + word + b[at + 2..]
  }

  method WriteJfifDensity(data: Bytes, ppi: nat) returns (written: Result<Bytes, WriteError>)
    ensures written == ServerRewritten(data, ppi)
  {
    if |data| < 4 || data[..2] != [0xff, 0xd8] {
      return Err(CorruptHeader);
    }
    var off := 2;
    while off + 4 <= |data|
      invariant Find(data, 2, Jfif) == Find(data, off, Jfif)
    {
      if data[off] != 0xff {
        break;
      }
      var marker := data[off + 1];
      if marker == 0xd9 || marker == 0xda {
        break;
      }
      var len := Pair(data[off + 2], data[off + 3]);
      if len < 2 || off + 2 + len > |data| {
        break;
      }
      if marker == 0xe0 && len >= 14 && data[off + 4..off + 9] == JFIF_ID {
        assert IsKind(data, off, Jfif);
        var p := off + 4;
        if ppi >= 0x1_0000 {
          return Err(DensityOverflow);
        }
        var word: Bytes := [ppi / 256, ppi % 256];
        var out := data[p + 7 := 1];
        out := Splice(out, p + 8, word);
        out := Splice(out, p + 10, word);
        return Ok(out);
      }
      off := off + 2 + len;
    }
    return Err(NoJfif);
  }

  // ----- what rewriting keeps and what it achieves -----

  /** The bytes agree outside the density field of the JFIF segment at `off`. */
  predicate AgreeOutside(b: Bytes, c: Bytes, off: nat) {
    |b| == |c| && forall i :: 0 <= i < |b| && !(off + 11 <= i < off + 16) ==> b[i] == c[i]
  }

  lemma SameSegment(b: Bytes, c: Bytes, at: nat, off: nat, kind: Kind)
    requires AgreeOutside(b, c, off) && (SegmentAt(b, at) && at < off ==> Next(b, at) <= off)
    requires SegmentAt(b, off) && Word(b, off + 2) >= 14
    requires at <= off || off + 16 <= at
    ensures SegmentAt(b, at) <==> SegmentAt(c, at)
    ensures SegmentAt(b, at) ==> Next(b, at) == Next(c, at) && (IsKind(b, at, kind) <==> IsKind(c, at, kind))
  {
    if SegmentAt(b, at) && Word(b, at + 2) >= 8 {
      assert b[at + 4..at + 8] == c[at + 4..at + 8];
      if Word(b, at + 2) >= 14 {
        assert b[at + 4..at + 9] == c[at + 4..at + 9];
      }
    }
  }

  /** The walk meets the same segments, of the same lengths and kinds, before and after. */
  lemma {:induction false} SameWalk(b: Bytes, c: Bytes, at: nat, off: nat, kind: Kind)
    requires AgreeOutside(b, c, off) && SegmentAt(b, off) && Word(b, off + 2) >= 14
    requires off in Walk(b, at) || off + 16 <= at
    ensures Walk(c, at) == Walk(b, at) && Find(c, at, kind) == Find(b, at, kind)
    decreases |b| - at
  {
    hide AgreeOutside, IsKind, Word;
    WalkIsAhead(b, at);
    if SegmentAt(b, at) {
      WalkIsAhead(b, Next(b, at));
      SegmentIsLong(b, off);
    }
    SameSegment(b, c, at, off, kind);
    if SegmentAt(b, at) {
      SameLength(b, c, off);
      SameWalk(b, c, Next(b, at), off, kind);
    }
  }

  lemma SegmentIsLong(b: Bytes, off: nat)
    requires SegmentAt(b, off) && Word(b, off + 2) >= 14
    ensures off + 16 <= Next(b, off)
  {
  }

  lemma SameLength(b: Bytes, c: Bytes, off: nat)
    requires AgreeOutside(b, c, off)
    ensures |b| == |c|
  {
  }

  lemma {:induction false} WalkIsAhead(b: Bytes, at: nat)
    ensures forall off <- Walk(b, at) :: at <= off
    decreases |b| - at
  {
    if SegmentAt(b, at) {
      WalkIsAhead(b, Next(b, at));
    }
  }

  /** What a search finds lies on the walk. */
  lemma {:induction false} FoundOnWalk(b: Bytes, at: nat, kind: Kind)
    ensures Find(b, at, kind).Some? ==> Find(b, at, kind).value in Walk(b, at)
    decreases |b| - at
  {
    if SegmentAt(b, at) && !IsKind(b, at, kind) {
      FoundOnWalk(b, Next(b, at), kind);
    }
  }

  lemma WordOf(ppi: nat)
    ensures Pair(High(ppi), Low(ppi)) == ppi % 0x1_0000
  {
    TwoDigits(ppi, ppi / 256, ppi % 256, (ppi / 256) / 256, (ppi / 256) % 256);
  }

  lemma TwoDigits(n: nat, q: nat, low: nat, rest: nat, high: nat)
    requires n == 256 * q + low && low < 256 && q == 256 * rest + high && high < 256
    ensures n % 0x1_0000 == high * 256 + low
  {
  }

  /**
   Rewriting succeeds exactly when there is a density to read; what is read afterwards is
   the new density in dots per inch; length, segments and the EXIF verdict stay, and a
   later rewrite leaves nothing of an earlier one.
   */
  lemma RewriteThenRead(b: Bytes, ppi: nat)
    ensures Rewritten(b, ppi).Some? <==> DensityOf(b).Some?
    ensures Rewritten(b, ppi).Some? ==>
      var r := Rewritten(b, ppi).value;
      && |r| == |b|
      && DensityOf(r) == Some(Density(1, ppi % 0x1_0000, ppi % 0x1_0000))
      && Walk(r, 2) == Walk(b, 2) && (forall kind :: Find(r, 2, kind) == Find(b, 2, kind))
      && forall other :: Rewritten(r, other) == Rewritten(b, other)
  {
    if Find(b, 2, Jfif).Some? {
      var off := Find(b, 2, Jfif).value;
      var r := WithDensity(b, off, ppi);
      FoundOnWalk(b, 2, Jfif);
      forall kind ensures Walk(r, 2) == Walk(b, 2) && Find(r, 2, kind) == Find(b, 2, kind) {
        SameWalk(b, r, 2, off, kind);
      }
      assert Find(r, 2, Jfif) == Find(b, 2, Jfif);
      WordOf(ppi);
      forall other ensures WithDensity(r, off, other) == WithDensity(b, off, other) {
      }
    }
  }

  /** The density survives exactly when it fits in two bytes. */
  lemma DensityRoundTrips(b: Bytes, ppi: nat)
    requires DensityOf(b).Some?
    ensures Rewritten(b, ppi).Some?
    ensures DensityOf(Rewritten(b, ppi).value) == Some(Density(1, ppi, ppi)) <==> ppi < 0x1_0000
  {
    RewriteThenRead(b, ppi);
  }

  /** What the server writes reads back as the density it was given, in bytes of the same number. */
  lemma ServerRewriteThenRead(b: Bytes, ppi: nat)
    ensures
      match ServerRewritten(b, ppi)
      case Ok(r) => |r| == |b| && DensityOf(r) == Some(Density(1, ppi, ppi))
      case Err(_) => true
  {
    hide DensityAt, WithDensity;
    RewriteThenRead(b, ppi);
  }

  /**
   Both sides write the same bytes, or both refuse, exactly when the input starts an image and
   the density fits, or when there is no JFIF segment.
   */
  lemma BrowserAndServerAgree(b: Bytes, ppi: nat)
    ensures
      (match ServerRewritten(b, ppi)
       case Ok(r) => Rewritten(b, ppi) == Some(r)
       case Err(_) => Rewritten(b, ppi) == None)
      <==> DensityOf(b) == None || (StartsImage(b) && ppi < 0x1_0000)
  {
  }
}
