/** The IES LM-63 photometric file as the parser reads it: the version line,
    header lines, and the positional data block (LM-63-1995, with the 1991
    variant also accepted).  Everything here is a function of the text and a
    cursor into it; the IESParser class is proved to compute these results. */
module IESFormat {
  import opened Wrappers
  import opened Tokenizer

  datatype Version = IESNA91 | IESNA95

  /** One angular measurement of the photometric web. */
  datatype Sample = Sample(horizontalAngle: real, verticalAngle: real, intensity: real)

  /** The positional fields of the data block, for error reports. */
  datatype Field =
    | RatedLumens | CandelaMultiplier | VerticalAngleCount | HorizontalAngleCount
    | UnitsType | LuminousOpeningWidth | LuminousOpeningLength | LuminousOpeningHeight
    | LightWatts | VerticalAngle | HorizontalAngle | Intensity

  /** The exceptions the parser can raise, as values. */
  datatype ParseError =
    | UnknownVersion(token: string)             // the switch on the first token
    | UnexpectedEndOfStream(field: Field)       // float.Parse("") / int.Parse("")
    | FormatError(field: Field, token: string)  // float.Parse / int.Parse rejects the token
    | NegativeAngleCount                        // new SampleData[h, v] with h < 0 or v < 0

  /** float.Parse and int.Parse: culture-specific number syntax is not modelled,
      so the parsers are parameters; None stands for a FormatException. */
  datatype Numerics = Numerics(parseFloat: string -> Option<real>, parseInt: string -> Option<int>)

  /** A value read from the text and the cursor after it. */
  datatype Scan<T> = Scan(value: T, next: nat)

  /** The scalar fields at the head of the data block. */
  datatype Scalars = Scalars(
    ratedLumens: real,
    candelaMultiplier: real,
    verticalAngleCount: nat,
    horizontalAngleCount: nat,
    usingMetres: bool,
    luminousOpeningWidth: real,
    luminousOpeningLength: real,
    luminousOpeningHeight: real,
    lightWatts: real)

  /** Everything ParseData sets; `samples` is indexed [horizontal][vertical]. */
  datatype Photometry = Photometry(
    ratedLumens: real,
    candelaMultiplier: real,
    verticalAngleCount: nat,
    horizontalAngleCount: nat,
    usingMetres: bool,
    luminousOpeningWidth: real,
    luminousOpeningLength: real,
    luminousOpeningHeight: real,
    lightWatts: real,
    maxIntensity: real,
    samples: seq<seq<Sample>>)

  /** A parsed file; `data` is None when the stream ended before a data block. */
  datatype Document = Document(version: Version, data: Option<Photometry>)

  // ---------------------------------------------------------------- version

  function VersionToken(v: Version): string {
    match v
    case IESNA91 => "IESNA91"
    case IESNA95 => "IESNA:LM-63-1995"
  }

  /** The switch on the first token: exactly the two version tokens are known. */
  function VersionOf(token: string): (v: Option<Version>)
    ensures v.Some? <==> token == VersionToken(IESNA91) || token == VersionToken(IESNA95)
    ensures v.Some? ==> VersionToken(v.value) == token
  {
    if token == "IESNA91" then Some(IESNA91)
    else if token == "IESNA:LM-63-1995" then Some(IESNA95)
    else None
  }

  lemma VersionRoundTrip(v: Version)
    ensures VersionOf(VersionToken(v)) == Some(v)
  {
  }

  // ---------------------------------------------------------------- header

  /** The digit test on a header token's first character. */
  predicate StartsWithDigit(token: string): (b: bool)
    ensures b <==> |token| > 0 && '0' <= token[0] <= '9'
  {
    token != "" && IsDigit(token[0])
  }

  /** The header loop: while the stream is not at its end, read a token; the
      first one that starts with a digit opens the data block (returned with the
      cursor after it); after any other token the rest of the line is skipped.
      None when the stream ends first. */
  function HeaderScan(s: string, pos: nat): (r: Option<Scan<string>>)
    requires pos <= |s|
    ensures r.Some? ==> StartsWithDigit(r.value.value) && pos < r.value.next <= |s|
    decreases |s| - pos
  {
    if pos == |s| then None
    else
      var t := NextToken(s, pos);
      if StartsWithDigit(t.token) then Some(Scan(t.token, t.next))
      else HeaderScan(s, LineEnd(s, t.next))
  }

  // ---------------------------------------------------------------- data block

  /* The data block is read token after token from the cursor just after its
     initial token.  Its fields are described by their index in the token list
     that follows that cursor (Tokens); ParseData is proved to read them in this
     order. */

  /** float.Parse of token `i`: "" (the stream has ended) and a rejected token
      are the two ways it throws. */
  function FloatAt(toks: seq<string>, i: nat, field: Field, num: Numerics)
    : (r: Result<real, ParseError>)
    ensures r == Failure(UnexpectedEndOfStream(field)) <==> i >= |toks| || toks[i] == ""
    ensures r.Success? <==> i < |toks| && toks[i] != "" && num.parseFloat(toks[i]).Some?
    ensures r.Success? ==> num.parseFloat(toks[i]) == Some(r.value)
    ensures r.Failure? ==> (r.error.UnexpectedEndOfStream? || r.error.FormatError?) && r.error.field == field
    ensures r.Failure? && r.error.FormatError? ==> i < |toks| && r.error.token == toks[i]
  {
    var t := TokenAt(toks, i);
    if t == "" then Failure(UnexpectedEndOfStream(field))
    else match num.parseFloat(t)
      case None => Failure(FormatError(field, t))
      case Some(x) => Success(x)
  }

  /** int.Parse of token `i`. */
  function IntAt(toks: seq<string>, i: nat, field: Field, num: Numerics)
    : (r: Result<int, ParseError>)
    ensures r == Failure(UnexpectedEndOfStream(field)) <==> i >= |toks| || toks[i] == ""
    ensures r.Success? <==> i < |toks| && toks[i] != "" && num.parseInt(toks[i]).Some?
    ensures r.Success? ==> num.parseInt(toks[i]) == Some(r.value)
    ensures r.Failure? ==> (r.error.UnexpectedEndOfStream? || r.error.FormatError?) && r.error.field == field
    ensures r.Failure? && r.error.FormatError? ==> i < |toks| && r.error.token == toks[i]
  {
    var t := TokenAt(toks, i);
    if t == "" then Failure(UnexpectedEndOfStream(field))
    else match num.parseInt(t)
      case None => Failure(FormatError(field, t))
      case Some(x) => Success(x)
  }

  /** The floats at tokens start, ..., start + n - 1, read in that order; the
      first token that fails to parse decides the error.  FloatsAtElement says
      which token each entry is. */
  function FloatsAt(toks: seq<string>, start: nat, n: nat, field: Field, num: Numerics)
    : (r: Result<seq<real>, ParseError>)
    ensures r.Success? ==> |r.value| == n
  {
    if n == 0 then Success([])
    else
      var prev :- FloatsAt(toks, start, n - 1, field, num);
      var x :- FloatAt(toks, start + (n - 1), field, num);
      Success(prev + [x])
  }

  /** The first token of row `h` when rows of `width` tokens start at `start`. */
  function RowStart(start: nat, h: nat, width: nat): nat {
    start + h * width
  }

  /** `n` rows of `width` floats each, row after row from token `start`.
      RowsAtCell says which token each entry is. */
  function RowsAt(toks: seq<string>, start: nat, n: nat, width: nat, field: Field, num: Numerics)
    : (r: Result<seq<seq<real>>, ParseError>)
    ensures r.Success? ==> |r.value| == n
    ensures r.Success? ==> forall h :: 0 <= h < n ==> |r.value[h]| == width
  {
    if n == 0 then Success([])
    else
      var prev :- RowsAt(toks, start, n - 1, width, field, num);
      var row :- FloatsAt(toks, RowStart(start, n - 1, width), width, field, num);
      Success(prev + [row])
  }

  /** Tokens 0 to 11: lumens, multiplier, the two counts, one ignored token, the
      units code (2 means metres), the three opening dimensions, two ignored
      tokens and the input watts.  The counts are checked as soon as both are
      read, where the C# code allocates the sample array. */
  function ReadScalars(toks: seq<string>, num: Numerics): (r: Result<Scalars, ParseError>)
    ensures r.Success? ==>
      && FloatAt(toks, 0, RatedLumens, num) == Success(r.value.ratedLumens)
      && FloatAt(toks, 1, CandelaMultiplier, num) == Success(r.value.candelaMultiplier)
      && IntAt(toks, 2, VerticalAngleCount, num) == Success(r.value.verticalAngleCount as int)
      && IntAt(toks, 3, HorizontalAngleCount, num) == Success(r.value.horizontalAngleCount as int)
      && IntAt(toks, 5, UnitsType, num).Success?
      && (r.value.usingMetres <==> IntAt(toks, 5, UnitsType, num).value == 2)
      && FloatAt(toks, 6, LuminousOpeningWidth, num) == Success(r.value.luminousOpeningWidth)
      && FloatAt(toks, 7, LuminousOpeningLength, num) == Success(r.value.luminousOpeningLength)
      && FloatAt(toks, 8, LuminousOpeningHeight, num) == Success(r.value.luminousOpeningHeight)
      && FloatAt(toks, 11, LightWatts, num) == Success(r.value.lightWatts)
    ensures r == Failure(NegativeAngleCount) <==>
      && FloatAt(toks, 0, RatedLumens, num).Success? && FloatAt(toks, 1, CandelaMultiplier, num).Success?
      && IntAt(toks, 2, VerticalAngleCount, num).Success? && IntAt(toks, 3, HorizontalAngleCount, num).Success?
      && (IntAt(toks, 2, VerticalAngleCount, num).value < 0 || IntAt(toks, 3, HorizontalAngleCount, num).value < 0)
  {
    var lumens :- FloatAt(toks, 0, RatedLumens, num);
    var multiplier :- FloatAt(toks, 1, CandelaMultiplier, num);
    var vCount :- IntAt(toks, 2, VerticalAngleCount, num);
    var hCount :- IntAt(toks, 3, HorizontalAngleCount, num);
    if vCount < 0 || hCount < 0 then Failure(NegativeAngleCount)
    else
      var units :- IntAt(toks, 5, UnitsType, num);
      var width :- FloatAt(toks, 6, LuminousOpeningWidth, num);
      var length :- FloatAt(toks, 7, LuminousOpeningLength, num);
      var height :- FloatAt(toks, 8, LuminousOpeningHeight, num);
      var watts :- FloatAt(toks, 11, LightWatts, num);
      Success(Scalars(lumens, multiplier, vCount, hCount, units == 2, width, length, height, watts))
  }

  /** Where the vertical angles, the horizontal angles and the intensities start. */
  function VerticalStart(): nat { 12 }

  function HorizontalStart(vc: nat): nat { VerticalStart() + vc }

  function IntensityStart(vc: nat, hc: nat): nat { HorizontalStart(vc) + hc }

  /** The token of intensity [h][v]: column v of row h. */
  function IntensityIndex(vc: nat, hc: nat, h: nat, v: nat): nat {
    RowStart(IntensityStart(vc, hc), h, vc) + v
  }

  /** The number of cells of the photometric web. */
  function CellCount(vc: nat, hc: nat): nat {
    hc * vc
  }

  /** The number of tokens the data block occupies after its initial token. */
  function DataTokenCount(vc: nat, hc: nat): nat {
    IntensityStart(vc, hc) + CellCount(vc, hc)
  }

  // ---------------------------------------------------------------- the grid

  /** A raw intensity in candela: the token's value times the candela multiplier. */
  function Scaled(x: real, multiplier: real): real {
    x * multiplier
  }

  /** A row of raw intensity tokens times the candela multiplier. */
  function ScaleRow(row: seq<real>, multiplier: real): (r: seq<real>)
    ensures |r| == |row|
    ensures forall v :: 0 <= v < |row| ==> r[v] == Scaled(row[v], multiplier)
  {
    seq(|row|, v requires 0 <= v < |row| => Scaled(row[v], multiplier))
  }

  function Scale(rows: seq<seq<real>>, multiplier: real): (r: seq<seq<real>>)
    ensures |r| == |rows|
    ensures forall h :: 0 <= h < |rows| ==> r[h] == ScaleRow(rows[h], multiplier)
  {
    seq(|rows|, h requires 0 <= h < |rows| => ScaleRow(rows[h], multiplier))
  }

  /** The grid the two passes of ParseData leave: cell [h][v] holds the h-th
      horizontal angle, the v-th vertical angle and intensity [h][v]. */
  function Grid(hs: seq<real>, vs: seq<real>, intensities: seq<seq<real>>): (g: seq<seq<Sample>>)
    requires |intensities| == |hs|
    requires forall h :: 0 <= h < |intensities| ==> |intensities[h]| == |vs|
    ensures |g| == |hs|
    ensures forall h :: 0 <= h < |g| ==> |g[h]| == |vs|
    ensures forall h, v :: 0 <= h < |hs| && 0 <= v < |vs| ==>
      g[h][v] == Sample(hs[h], vs[v], intensities[h][v])
  {
    seq(|hs|, h requires 0 <= h < |hs| =>
      seq(|vs|, v requires 0 <= v < |vs| => Sample(hs[h], vs[v], intensities[h][v])))
  }

  function Raise(m: real, x: real): real {
    if x > m then x else m
  }

  /** The running maximum over one row, in reading order, raised only by a
      strictly greater value. */
  function RowMax(m: real, row: seq<real>): real
    decreases |row|
  {
    if row == [] then m
    else Raise(RowMax(m, row[..|row| - 1]), row[|row| - 1])
  }

  /** The running maximum over the rows, row after row: the value maxIntensity
      has after the intensity pass when it was `m` before. */
  function GridMax(m: real, rows: seq<seq<real>>): real
    decreases |rows|
  {
    if rows == [] then m
    else RowMax(GridMax(m, rows[..|rows| - 1]), rows[|rows| - 1])
  }

  /** `m` is max(0, the largest intensity in the grid). */
  ghost predicate IsMaxIntensity(m: real, grid: seq<seq<Sample>>) {
    && 0.0 <= m
    && (forall h, v :: 0 <= h < |grid| && 0 <= v < |grid[h]| ==> grid[h][v].intensity <= m)
    && (m == 0.0 || exists h, v :: 0 <= h < |grid| && 0 <= v < |grid[h]| && grid[h][v].intensity == m)
  }

  /** The data block over its token list: the scalars, `vCount` vertical
      angles, `hCount` horizontal angles, then `hCount` rows of `vCount`
      intensities, each scaled by the multiplier. */
  function DataBlock(toks: seq<string>, num: Numerics): (r: Result<Photometry, ParseError>) {
    var c :- ReadScalars(toks, num);
    DataLists(toks, num, c)
  }

  /** The rest of the data block once the scalars `c` are read: the three
      lists and the photometry made of them. */
  function DataLists(toks: seq<string>, num: Numerics, c: Scalars): (r: Result<Photometry, ParseError>) {
    var vc, hc := c.verticalAngleCount, c.horizontalAngleCount;
    var vs :- FloatsAt(toks, VerticalStart(), vc, VerticalAngle, num);
    var hs :- FloatsAt(toks, HorizontalStart(vc), hc, HorizontalAngle, num);
    var rows :- RowsAt(toks, IntensityStart(vc, hc), hc, vc, Intensity, num);
    var intensities := Scale(rows, c.candelaMultiplier);
    Success(Photometry(
      c.ratedLumens, c.candelaMultiplier, vc, hc,
      c.usingMetres, c.luminousOpeningWidth, c.luminousOpeningLength, c.luminousOpeningHeight,
      c.lightWatts,
      GridMax(0.0, intensities),
      Grid(hs, vs, intensities)))
  }

  /** The data block read from the cursor `pos`, and the cursor after its last token. */
  function DataSpec(s: string, pos: nat, num: Numerics): (r: Result<Scan<Photometry>, ParseError>)
    requires pos <= |s|
  {
    var d :- DataBlock(Tokens(s, pos), num);
    Success(Scan(d, Advance(s, pos, DataTokenCount(d.verticalAngleCount, d.horizontalAngleCount))))
  }

  /** The whole parse from `pos`: the version token, the header scan, and the
      data block after the digit-leading token that opens it (that token itself,
      the lamp count, is not used). */
  function ParseSpec(s: string, pos: nat, num: Numerics): (r: Result<Document, ParseError>)
    requires pos <= |s|
  {
    var v := NextToken(s, pos);
    match VersionOf(v.token)
    case None => Failure(UnknownVersion(v.token))
    case Some(version) =>
      match HeaderScan(s, v.next)
      case None => Success(Document(version, None))
      case Some(initial) =>
        var data :- DataSpec(s, initial.next, num);
        Success(Document(version, Some(data.value)))
  }
}
