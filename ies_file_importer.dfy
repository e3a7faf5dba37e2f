/** The importer: the Point/Spot dispatch, and the part of the spot path that
    is not GPU plumbing, namely the packing of the parsed [horizontal, vertical] grid
    into a flat colour buffer (vertical-outer, horizontal-inner) and the
    angle-range vector handed to the compute shader. */
module IESFileImporter {
  import opened Wrappers
  import opened Tokenizer
  import opened IESFormat
  import opened IESFormatProperties
  import P = IESParser

  datatype CookieType = Point | Spot

  /** A C# float quotient: x / y when y is not 0, otherwise NaN (0 / 0) or a
      signed infinity. */
  datatype Quotient = Finite(value: real) | NaN | Infinity(negative: bool)

  /** UnityEngine.Color: r, g, b, a. */
  datatype Color = Color(r: real, g: real, b: Quotient, a: real)

  /** UnityEngine.Vector4. */
  datatype Vector4 = Vector4(x: real, y: real, z: real, w: real)

  /** The texture an import produces: an empty cubemap of the configured size,
      or the spot cookie described by the data the shader is given. */
  datatype Texture =
    | Cubemap(size: int)
    | SpotCookie(size: int, data: seq<Color>, dataSize: Vector4, angleRanges: Vector4)

  /** The exceptions an import can raise, as values: the parser's, and the
      spot path reading samples[0, 0] of a missing or empty grid. */
  datatype ImportError = ParseFailed(error: ParseError) | NoSamples | EmptyGrid

  // ---------------------------------------------------------------- division

  /** Float division: exact when the divisor is not 0; otherwise NaN when the
      dividend is also 0, and an infinity of the dividend's sign. */
  function Divide(x: real, y: real): (q: Quotient)
    ensures q.Finite? <==> y != 0.0
    ensures q.Finite? ==> q.value * y == x
    ensures q.NaN? <==> x == 0.0 && y == 0.0
    ensures q.Infinity? ==> q.negative == (x < 0.0)
  {
    if y != 0.0 then Finite(x / y)
    else if x == 0.0 then NaN
    else Infinity(x < 0.0)
  }

  // ---------------------------------------------------------------- packing

  /** The colour written for one sample: (V, H, I / maxIntensity, 0). */
  function Pixel(s: Sample, maxIntensity: real): (c: Color)
    ensures c.r == s.verticalAngle && c.g == s.horizontalAngle && c.a == 0.0
    ensures maxIntensity != 0.0 ==> c.b.Finite? && c.b.value * maxIntensity == s.intensity
  {
    Color(s.verticalAngle, s.horizontalAngle, Divide(s.intensity, maxIntensity), 0.0)
  }

  /** `grid` has `hc` rows of `vc` samples. */
  predicate Shaped(grid: seq<seq<Sample>>, hc: nat, vc: nat) {
    |grid| == hc && forall h :: 0 <= h < hc ==> |grid[h]| == vc
  }

  /** The buffer position of cell [h, v]: the counter `i` when the inner loop
      reaches h in pass v, that is hCount for each earlier pass, plus h
      (BufferIndexIsProduct). */
  function BufferIndex(hc: nat, v: nat, h: nat): nat {
    if v == 0 then h else BufferIndex(hc, v - 1, hc) + h
  }

  /** The position is v * hCount + h. */
  lemma {:induction false} BufferIndexIsProduct(hc: nat, v: nat, h: nat)
    ensures BufferIndex(hc, v, h) == v * hc + h
  {
    if v > 0 {
      BufferIndexIsProduct(hc, v - 1, hc);
    }
  }

  /** Pass v of the outer loop over its first h cells: the pixels of
      (0, v), ..., (h - 1, v). */
  function Column(grid: seq<seq<Sample>>, v: nat, h: nat, maxIntensity: real): (r: seq<Color>)
    requires h <= |grid| && forall i :: 0 <= i < h ==> v < |grid[i]|
    ensures |r| == h
  {
    if h == 0 then []
    else Column(grid, v, h - 1, maxIntensity) + [Pixel(grid[h - 1][v], maxIntensity)]
  }

  /** The buffer after the first n passes of the outer loop. */
  function Packed(grid: seq<seq<Sample>>, hc: nat, n: nat, maxIntensity: real): (r: seq<Color>)
    requires |grid| == hc && forall h :: 0 <= h < hc ==> n <= |grid[h]|
    ensures |r| == BufferIndex(hc, n, 0)
  {
    if n == 0 then []
    else Packed(grid, hc, n - 1, maxIntensity) + Column(grid, n - 1, hc, maxIntensity)
  }

  /** Entry i of a pass is the pixel of row i. */
  lemma {:induction false} ColumnAt(grid: seq<seq<Sample>>, v: nat, h: nat, maxIntensity: real, i: nat)
    requires h <= |grid| && forall j :: 0 <= j < h ==> v < |grid[j]|
    requires i < h
    ensures Column(grid, v, h, maxIntensity)[i] == Pixel(grid[i][v], maxIntensity)
  {
    if i < h - 1 {
      ColumnAt(grid, v, h - 1, maxIntensity, i);
    }
  }

  /** Cells of earlier passes come first. */
  lemma {:induction false} BufferIndexBefore(hc: nat, v: nat, h: nat, n: nat)
    requires v < n && h < hc
    ensures BufferIndex(hc, v, h) < BufferIndex(hc, n, 0)
    decreases n
  {
    if v < n - 1 {
      BufferIndexBefore(hc, v, h, n - 1);
      BufferIndexBefore(hc, n - 2, hc - 1, n - 1);
    }
  }

  /** Buffer element v * hCount + h is the pixel of cell [h, v]. */
  lemma {:induction false} PackedAt(grid: seq<seq<Sample>>, hc: nat, n: nat, maxIntensity: real, h: nat, v: nat)
    requires |grid| == hc && forall i :: 0 <= i < hc ==> n <= |grid[i]|
    requires h < hc && v < n
    ensures BufferIndex(hc, v, h) < |Packed(grid, hc, n, maxIntensity)|
    ensures Packed(grid, hc, n, maxIntensity)[BufferIndex(hc, v, h)] == Pixel(grid[h][v], maxIntensity)
  {
    var prev := Packed(grid, hc, n - 1, maxIntensity);
    if v < n - 1 {
      BufferIndexBefore(hc, v, h, n - 1);
      PackedAt(grid, hc, n - 1, maxIntensity, h, v);
    } else {
      assert BufferIndex(hc, v, h) == |prev| + h;
      ColumnAt(grid, n - 1, hc, maxIntensity, h);
    }
  }

  /** Every buffer index is written: index i is the position of a cell
      [h, v] of the grid, and holds its pixel. */
  lemma {:induction false} PackedCovers(grid: seq<seq<Sample>>, hc: nat, vc: nat, maxIntensity: real, i: nat)
    returns (v: nat, h: nat)
    requires |grid| == hc && forall j :: 0 <= j < hc ==> vc <= |grid[j]|
    requires i < |Packed(grid, hc, vc, maxIntensity)|
    ensures v < vc && h < hc && i == BufferIndex(hc, v, h)
    ensures Packed(grid, hc, vc, maxIntensity)[i] == Pixel(grid[h][v], maxIntensity)
    decreases vc
  {
    var base := BufferIndex(hc, vc - 1, 0);
    if i < base {
      v, h := PackedCovers(grid, hc, vc - 1, maxIntensity, i);
      assert Packed(grid, hc, vc, maxIntensity)[i] == Packed(grid, hc, vc - 1, maxIntensity)[i];
    } else {
      v, h := vc - 1, i - base;
      PackedAt(grid, hc, vc, maxIntensity, h, v);
    }
  }

  /** ... and only once: no two cells share a position. */
  lemma BufferIndexInjective(hc: nat, v1: nat, h1: nat, v2: nat, h2: nat)
    requires h1 < hc && h2 < hc
    requires BufferIndex(hc, v1, h1) == BufferIndex(hc, v2, h2)
    ensures v1 == v2 && h1 == h2
  {
    if v1 < v2 {
      BufferIndexBefore(hc, v1, h1, v2);
      assert false;
    } else if v2 < v1 {
      BufferIndexBefore(hc, v2, h2, v1);
      assert false;
    }
  }

  /** With a positive maximum and no negative intensity, intensity / max lies
      in [0, 1], and is 1 exactly at the cells that attain the maximum. */
  lemma PixelNormalized(s: Sample, maxIntensity: real)
    requires 0.0 < maxIntensity && 0.0 <= s.intensity <= maxIntensity
    ensures var b := Pixel(s, maxIntensity).b;
      && b.Finite? && 0.0 <= b.value <= 1.0
      && (b.value == 1.0 <==> s.intensity == maxIntensity)
  {
    var b := Pixel(s, maxIntensity).b;
    assert b.value * maxIntensity == s.intensity;
  }

  /** The packed buffer of a grid whose maximum is `maxIntensity` holds
      normalized intensities in [0, 1], and 1 at every cell attaining it. */
  lemma PackedNormalized(grid: seq<seq<Sample>>, hc: nat, vc: nat, maxIntensity: real)
    requires Shaped(grid, hc, vc) && IsMaxIntensity(maxIntensity, grid) && 0.0 < maxIntensity
    requires forall h, v :: 0 <= h < hc && 0 <= v < vc ==> 0.0 <= grid[h][v].intensity
    ensures var buffer := Packed(grid, hc, vc, maxIntensity);
      forall i :: 0 <= i < |buffer| ==> buffer[i].b.Finite? && 0.0 <= buffer[i].b.value <= 1.0
    ensures forall h, v :: 0 <= h < hc && 0 <= v < vc && grid[h][v].intensity == maxIntensity ==>
      var k := BufferIndex(hc, v, h);
      k < |Packed(grid, hc, vc, maxIntensity)| && Packed(grid, hc, vc, maxIntensity)[k].b == Finite(1.0)
  {
    var buffer := Packed(grid, hc, vc, maxIntensity);
    forall i | 0 <= i < |buffer|
      ensures buffer[i].b.Finite? && 0.0 <= buffer[i].b.value <= 1.0
    {
      var v, h := PackedCovers(grid, hc, vc, maxIntensity, i);
      PixelNormalized(grid[h][v], maxIntensity);
    }
    forall h, v | 0 <= h < hc && 0 <= v < vc && grid[h][v].intensity == maxIntensity
      ensures BufferIndex(hc, v, h) < |buffer| && buffer[BufferIndex(hc, v, h)].b == Finite(1.0)
    {
      PackedAt(grid, hc, vc, maxIntensity, h, v);
      PixelNormalized(grid[h][v], maxIntensity);
    }
  }

  // ---------------------------------------------------------------- angle ranges

  /** The range vector as the importer writes it: its fourth component reads
      the vertical angle of cell [hCount - 1, 0]. */
  function AngleRangesAsWritten(grid: seq<seq<Sample>>, hc: nat, vc: nat): Vector4
    requires Shaped(grid, hc, vc) && 0 < hc && 0 < vc
  {
    Vector4(grid[0][0].verticalAngle, grid[0][vc - 1].verticalAngle,
            grid[0][0].horizontalAngle, grid[hc - 1][0].verticalAngle)
  }

  /** The range vector with the horizontal angle in its fourth component. */
  function AngleRanges(grid: seq<seq<Sample>>, hc: nat, vc: nat): Vector4
    requires Shaped(grid, hc, vc) && 0 < hc && 0 < vc
  {
    Vector4(grid[0][0].verticalAngle, grid[0][vc - 1].verticalAngle,
            grid[0][0].horizontalAngle, grid[hc - 1][0].horizontalAngle)
  }

  /** On a parsed grid the range vector holds the first and last vertical
      angles and the first and last horizontal angles. */
  lemma AngleRangesSpan(hs: seq<real>, vs: seq<real>, intensities: seq<seq<real>>)
    requires 0 < |hs| == |intensities| && 0 < |vs|
    requires forall h :: 0 <= h < |intensities| ==> |intensities[h]| == |vs|
    ensures var grid := Grid(hs, vs, intensities);
      && Shaped(grid, |hs|, |vs|)
      && AngleRanges(grid, |hs|, |vs|) == Vector4(vs[0], vs[|vs| - 1], hs[0], hs[|hs| - 1])
  {
  }

  /** As written, the fourth component of a parsed grid's range vector is the
      first vertical angle again, whatever the horizontal angles are. */
  lemma AngleRangesAsWrittenRepeats(hs: seq<real>, vs: seq<real>, intensities: seq<seq<real>>)
    requires 0 < |hs| == |intensities| && 0 < |vs|
    requires forall h :: 0 <= h < |intensities| ==> |intensities[h]| == |vs|
    ensures var grid := Grid(hs, vs, intensities);
      && Shaped(grid, |hs|, |vs|)
      && AngleRangesAsWritten(grid, |hs|, |vs|).w == vs[0]
      && AngleRangesAsWritten(grid, |hs|, |vs|).w == AngleRangesAsWritten(grid, |hs|, |vs|).x
  {
  }

  /** A 2 x 2 grid with horizontal angles 0 and 90: the range vector as
      written ends in 0, not in the last horizontal angle 90. */
  lemma AngleRangesAsWrittenMissesLastHorizontal()
    ensures var grid := Grid([0.0, 90.0], [0.0, 90.0], [[1.0, 1.0], [1.0, 1.0]]);
      && Shaped(grid, 2, 2)
      && AngleRangesAsWritten(grid, 2, 2).w == 0.0
      && AngleRanges(grid, 2, 2).w == 90.0
  {
    var grid := Grid([0.0, 90.0], [0.0, 90.0], [[1.0, 1.0], [1.0, 1.0]]);
    assert grid[1][0] == Sample(90.0, 0.0, 1.0);
  }

  // ---------------------------------------------------------------- import

  /** The spot path on a parsed photometry: the packed buffer, the data size
      and the range vector as the importer builds it; reading cell [0, 0] of
      an empty grid fails. */
  function SpotTexture(p: Photometry, size: int): (r: Result<Texture, ImportError>)
    requires Shaped(p.samples, p.horizontalAngleCount, p.verticalAngleCount)
  {
    var hc, vc := p.horizontalAngleCount, p.verticalAngleCount;
    if hc == 0 || vc == 0 then Failure(EmptyGrid)
    else Success(SpotCookie(size, Packed(p.samples, hc, vc, p.maxIntensity),
      Vector4(hc as real, vc as real, 0.0, 0.0), AngleRangesAsWritten(p.samples, hc, vc)))
  }

  /** A parsed data block is an hCount by vCount grid. */
  lemma ParsedShaped(s: string, pos: nat, num: Numerics)
    requires pos <= |s|
    requires ParseSpec(s, pos, num).Success? && ParseSpec(s, pos, num).value.data.Some?
    ensures var p := ParseSpec(s, pos, num).value.data.value;
      Shaped(p.samples, p.horizontalAngleCount, p.verticalAngleCount)
  {
    var initial := HeaderScan(s, NextToken(s, pos).next).value;
    DataBlockParts(Tokens(s, initial.next), num);
  }

  /** OnImportAsset on a text: the parse, then the cube path for Point and
      the spot path for any other cookie type. */
  function ImportSpec(s: string, num: Numerics, cookieType: CookieType, size: int): Result<Texture, ImportError> {
    match ParseSpec(s, 0, num)
    case Failure(e) => Failure(ParseFailed(e))
    case Success(doc) =>
      if cookieType == Point then Success(Cubemap(size))
      else match doc.data
        case None => Failure(NoSamples)
        case Some(p) =>
          ParsedShaped(s, 0, num);
          SpotTexture(p, size)
  }

  /** A spot cookie's buffer has one pixel per cell, at v * hCount + h, and
      its range vector is read from the corner cells. */
  lemma SpotTextureLayout(p: Photometry, size: int)
    requires Shaped(p.samples, p.horizontalAngleCount, p.verticalAngleCount)
    requires 0 < p.horizontalAngleCount && 0 < p.verticalAngleCount
    ensures var hc, vc := p.horizontalAngleCount, p.verticalAngleCount;
      var t := SpotTexture(p, size);
      && t.Success? && t.value.SpotCookie?
      && |t.value.data| == CellCount(vc, hc)
      && (forall h, v :: 0 <= h < hc && 0 <= v < vc ==>
            var k := BufferIndex(hc, v, h);
            k < |t.value.data| && t.value.data[k] == Pixel(p.samples[h][v], p.maxIntensity))
      && t.value.angleRanges == AngleRangesAsWritten(p.samples, hc, vc)
  {
    var hc, vc := p.horizontalAngleCount, p.verticalAngleCount;
    BufferIndexIsProduct(hc, vc, 0);
    forall h, v | 0 <= h < hc && 0 <= v < vc
      ensures var k := BufferIndex(hc, v, h);
        k < |Packed(p.samples, hc, vc, p.maxIntensity)| &&
        Packed(p.samples, hc, vc, p.maxIntensity)[k] == Pixel(p.samples[h][v], p.maxIntensity)
    {
      PackedAt(p.samples, hc, vc, p.maxIntensity, h, v);
    }
  }

  /** When the maximum is that of the grid and positive and no intensity is
      negative, the spot cookie's normalized intensities lie in [0, 1]. */
  lemma SpotTextureNormalized(p: Photometry, size: int)
    requires Shaped(p.samples, p.horizontalAngleCount, p.verticalAngleCount)
    requires 0 < p.horizontalAngleCount && 0 < p.verticalAngleCount
    requires IsMaxIntensity(p.maxIntensity, p.samples) && 0.0 < p.maxIntensity
    requires forall h, v :: 0 <= h < p.horizontalAngleCount && 0 <= v < p.verticalAngleCount ==>
      0.0 <= p.samples[h][v].intensity
    ensures SpotTexture(p, size).Success?
    ensures var data := SpotTexture(p, size).value.data;
      forall i :: 0 <= i < |data| ==> data[i].b.Finite? && 0.0 <= data[i].b.value <= 1.0
  {
    var hc, vc := p.horizontalAngleCount, p.verticalAngleCount;
    PackedNormalized(p.samples, hc, vc, p.maxIntensity);
    assert SpotTexture(p, size).value.data == Packed(p.samples, hc, vc, p.maxIntensity);
  }

  /** After a parse that reached a data block, the spot path works on that
      block, an hCount by vCount grid whose maxIntensity is its maximum, and
      the cube path ignores it. */
  lemma ImportedPhotometry(s: string, num: Numerics, size: int)
    requires ParseSpec(s, 0, num).Success? && ParseSpec(s, 0, num).value.data.Some?
    ensures var p := ParseSpec(s, 0, num).value.data.value;
      && Shaped(p.samples, p.horizontalAngleCount, p.verticalAngleCount)
      && IsMaxIntensity(p.maxIntensity, p.samples)
      && ImportSpec(s, num, Spot, size) == SpotTexture(p, size)
      && ImportSpec(s, num, Point, size) == Success(Cubemap(size))
  {
    ParsedShaped(s, 0, num);
    var initial := HeaderScan(s, NextToken(s, 0).next).value;
    DataMaxIntensity(Tokens(s, initial.next), num);
  }

  /** The importer: a cookie type (Point by default) and a texture size (512
      by default). */
  class IESFileImporter {
    var cookieType: CookieType
    var textureSize: int

    constructor ()
      ensures cookieType == Point && textureSize == 512
    {
      cookieType := Point;
      textureSize := 512;
    }

    /** Reads the file, then generates the cookie the cookie type selects. */
    method OnImportAsset(text: string, num: Numerics) returns (r: Result<Texture, ImportError>)
      ensures r == ImportSpec(text, num, cookieType, textureSize)
    {
      var iesFile := ReadIESFile(text, num);
      if iesFile.Failure? {
        return Failure(ParseFailed(iesFile.error));
      }
      if cookieType == Point {
        var tex := GenerateCubeTexture(iesFile.value);
        return Success(tex);
      } else {
        r := GenerateSpotTexture(iesFile.value);
        if iesFile.value.Doc().data.Some? {
          ParsedShaped(text, 0, num);
        }
      }
    }

    /** The cube path: an empty cubemap of the configured size; the data is not read. */
    method GenerateCubeTexture(iesData: P.IESParser) returns (tex: Texture)
      ensures tex == Cubemap(textureSize)
    {
      tex := Cubemap(textureSize);
    }

    /** The parser run over the file's text from its start. */
    method ReadIESFile(text: string, num: Numerics) returns (r: Result<P.IESParser, ParseError>)
      ensures r.Success? ==> fresh(r.value) && r.value.Valid()
      ensures r.Success? ==> ParseSpec(text, 0, num) == Success(r.value.Doc())
      ensures r.Failure? ==> ParseSpec(text, 0, num) == Failure(r.error)
    {
      var reader := new StreamReader(text);
      r := P.IESParser.Read(reader, num);
    }

    /** The spot path: packs the grid vertical-outer, horizontal-inner into a
        buffer of hCount * vCount colours with a running counter, then builds
        the range vector from the corner cells as the importer does
        (AngleRangesAsWritten). */
    method GenerateSpotTexture(iesData: P.IESParser) returns (r: Result<Texture, ImportError>)
      requires iesData.Valid()
      ensures iesData.Doc().data.None? ==> r == Failure(NoSamples)
      ensures iesData.Doc().data.Some? ==>
        var p := iesData.Doc().data.value;
        Shaped(p.samples, p.horizontalAngleCount, p.verticalAngleCount) && r == SpotTexture(p, textureSize)
    {
      if iesData.samples == null {
        return Failure(NoSamples);
      }
      var a := iesData.samples;
      var hc: nat, vc: nat := iesData.horizontalAngleCount, iesData.verticalAngleCount;
      var bufferData := Pack(a, iesData.maxIntensity);
      if hc == 0 || vc == 0 {
        return Failure(EmptyGrid);
      }
      var angleRanges := Vector4(a[0, 0].verticalAngle, a[0, vc - 1].verticalAngle,
                                 a[0, 0].horizontalAngle, a[hc - 1, 0].verticalAngle);
      r := Success(SpotCookie(textureSize, bufferData[..], Vector4(hc as real, vc as real, 0.0, 0.0), angleRanges));
    }

    /** The packing loop: vertical-outer, horizontal-inner, each cell's pixel
        written at the running counter `i`. */
    static method Pack(a: array2<Sample>, maxIntensity: real) returns (bufferData: array<Color>)
      ensures fresh(bufferData)
      ensures bufferData[..] == Packed(P.Rows(a), a.Length0, a.Length1, maxIntensity)
    {
      var hc, vc := a.Length0, a.Length1;
      ghost var grid := P.Rows(a);
      bufferData := new Color[hc * vc](_ => Color(0.0, 0.0, Finite(0.0), 0.0));
      BufferIndexIsProduct(hc, vc, 0);
      var i := 0;
      var v := 0;
      while v < vc
        invariant v <= vc && i == BufferIndex(hc, v, 0) <= bufferData.Length
        invariant bufferData[..i] == Packed(grid, hc, v, maxIntensity)
      {
        if hc > 0 {
          BufferIndexBefore(hc, v, hc - 1, vc);
        }
        i := PackPass(a, v, maxIntensity, bufferData, i);
        v := v + 1;
      }
      assert bufferData[..] == bufferData[..i];
    }

    /** One pass of the outer loop: the pixels of column v, rows 0 to
        hCount - 1, from position i0 on. */
    static method PackPass(a: array2<Sample>, v: nat, maxIntensity: real, bufferData: array<Color>, i0: nat)
      returns (i: nat)
      requires v < a.Length1 && i0 + a.Length0 <= bufferData.Length
      modifies bufferData
      ensures i == i0 + a.Length0
      ensures bufferData[..i] == old(bufferData[..i0]) + Column(P.Rows(a), v, a.Length0, maxIntensity)
    {
      ghost var grid := P.Rows(a);
      i := i0;
      var h := 0;
      while h < a.Length0
        invariant h <= a.Length0 && i == i0 + h
        invariant bufferData[..i] == old(bufferData[..i0]) + Column(grid, v, h, maxIntensity)
      {
        ghost var written := bufferData[..i];
        var sample := a[h, v];
        bufferData[i] := Color(sample.verticalAngle, sample.horizontalAngle, Divide(sample.intensity, maxIntensity), 0.0);
        assert bufferData[..i + 1] == written + [Pixel(grid[h][v], maxIntensity)];
        i := i + 1;
        h := h + 1;
      }
    }
  }
}
