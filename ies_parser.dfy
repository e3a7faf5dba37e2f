/** The IESParser class: reads an IES file from a StreamReader into its fields
    and a [horizontal, vertical] array of samples.  Each method is proved to
    compute the functions of the IESFormat module. */
module IESParser {
  import opened Wrappers
  import opened Tokenizer
  import opened IESFormat
  import opened IESFormatProperties

  class IESParser {
    var ratedLumens: real
    var candelaMultiplier: real
    var verticalAngleCount: int
    var horizontalAngleCount: int
    var usingMetres: bool
    var luminousOpeningWidth: real
    var luminousOpeningLength: real
    var luminousOpeningHeight: real
    var lightWatts: real
    var maxIntensity: real
    /** Allocated by ParseData once both counts are known; null until then. */
    var samples: array2?<Sample>
    var version: Version

    /** The sample array, when there is one, is hCount by vCount. */
    ghost predicate Valid()
      reads this
    {
      samples != null ==>
        && 0 <= verticalAngleCount && 0 <= horizontalAngleCount
        && samples.Length0 == horizontalAngleCount && samples.Length1 == verticalAngleCount
    }

    /** The state of a parser before ParseData: no samples yet and a zero maximum. */
    ghost predicate Unparsed()
      reads this
    {
      samples == null && maxIntensity == 0.0
    }

    /** The parsed file the fields describe. */
    ghost function Doc(): Document
      reads this, samples
      requires Valid()
    {
      Document(version,
        if samples == null then None
        else Some(Photometry(
          ratedLumens, candelaMultiplier, verticalAngleCount, horizontalAngleCount,
          usingMetres, luminousOpeningWidth, luminousOpeningLength, luminousOpeningHeight,
          lightWatts, maxIntensity, Rows(samples))))
    }

    constructor ()
      ensures Valid() && Unparsed()
    {
      samples := null;
      maxIntensity := 0.0;
    }

    /** Reads a file: the version line, the header, and the data block.  The
        result is the parser when ParseSpec succeeds, with ParseSpec's error
        otherwise. */
    static method Read(reader: StreamReader, num: Numerics) returns (r: Result<IESParser, ParseError>)
      requires reader.Valid()
      modifies reader
      ensures reader.Valid()
      ensures r.Success? ==> fresh(r.value) && r.value.Valid()
      ensures r.Success? <==> ParseSpec(reader.text, old(reader.pos), num).Success?
      ensures r.Success? ==> ParseSpec(reader.text, old(reader.pos), num).value == r.value.Doc()
      ensures r.Failure? ==> ParseSpec(reader.text, old(reader.pos), num) == Failure(r.error)
    {
      var parser := new IESParser();
      var outcome := parser.ParseHeader(reader, num);
      if outcome.Fail? {
        return Failure(outcome.error);
      }
      return Success(parser);
    }

    /** The version switch, then the header loop: at each line read a token; the
        first one that starts with a digit opens the data block, otherwise the
        rest of the line is dropped.  Reaching the end of the stream first is
        not an error. */
    method ParseHeader(reader: StreamReader, num: Numerics) returns (outcome: Outcome<ParseError>)
      requires reader.Valid() && Valid() && Unparsed()
      modifies this, reader
      ensures reader.Valid() && Valid()
      ensures outcome.Pass? ==> ParseSpec(reader.text, old(reader.pos), num) == Success(Doc())
      ensures outcome.Fail? ==> ParseSpec(reader.text, old(reader.pos), num) == Failure(outcome.error)
    {
      var token := GetNextToken(reader);
      var known := VersionOf(token);
      if known.None? {
        return Fail(UnknownVersion(token));
      }
      version := known.value;
      ghost var start := reader.pos;
      while !reader.EndOfStream()
        invariant reader.Valid() && Valid() && Unparsed() && version == known.value
        invariant start <= |reader.text| && HeaderScan(reader.text, start) == HeaderScan(reader.text, reader.pos)
        decreases |reader.text| - reader.pos
      {
        token := GetNextToken(reader);
        if token != "" && IsDigit(token[0]) {
          outcome := ParseData(reader, token, num);
          return;
        }
        reader.ReadLine();
      }
      return Pass;
    }

    /** The data block, its initial token already read (and not used): the
        scalar fields, the vertical angles, the horizontal pass and the
        intensity pass, each token read in order. */
    method ParseData(reader: StreamReader, initialToken: string, num: Numerics) returns (outcome: Outcome<ParseError>)
      requires reader.Valid() && Unparsed()
      modifies this, reader
      ensures reader.Valid() && Valid() && version == old(version)
      ensures outcome.Pass? ==>
        (samples != null && DataSpec(reader.text, old(reader.pos), num) == Success(Scan(Doc().data.value, reader.pos)))
      ensures outcome.Fail? ==> DataSpec(reader.text, old(reader.pos), num) == Failure(outcome.error)
    {
      ghost var p0 := reader.pos;
      ghost var toks := Tokens(reader.text, p0);
      ghost var head := Cursors(reader.text, p0, VerticalStart());
      CursorsChain(reader.text, p0, VerticalStart());
      var sr := ReadScalarFields(reader, num, head, toks);
      if sr.Failure? {
        return Fail(sr.error);
      }
      var c := sr.value;
      DataBlockOfScalars(toks, num, c);
      var a := new Sample[c.horizontalAngleCount, c.verticalAngleCount]((h, v) => Sample(0.0, 0.0, 0.0));
      var m;
      outcome, m := ReadBlock(reader, a, c, num, p0, toks);
      Store(c, a, m);
    }

    /** The field assignments of the data block: the scalars, the array and
        the maximum. */
    method Store(c: Scalars, a: array2<Sample>, m: real)
      requires a.Length0 == c.horizontalAngleCount && a.Length1 == c.verticalAngleCount
      modifies this
      ensures Valid() && version == old(version) && samples == a
      ensures Doc().data == Some(Photometry(
        c.ratedLumens, c.candelaMultiplier, c.verticalAngleCount, c.horizontalAngleCount,
        c.usingMetres, c.luminousOpeningWidth, c.luminousOpeningLength, c.luminousOpeningHeight,
        c.lightWatts, m, Rows(a)))
    {
      ratedLumens, candelaMultiplier := c.ratedLumens, c.candelaMultiplier;
      verticalAngleCount, horizontalAngleCount := c.verticalAngleCount, c.horizontalAngleCount;
      usingMetres, lightWatts := c.usingMetres, c.lightWatts;
      luminousOpeningWidth, luminousOpeningLength, luminousOpeningHeight :=
        c.luminousOpeningWidth, c.luminousOpeningLength, c.luminousOpeningHeight;
      samples, maxIntensity := a, m;
    }

    /** Tokens 12 onwards, once the scalars `c` are read and the array is
        allocated: the vertical angles, the horizontal pass and the intensity
        pass.  On success the array and the returned maximum are the data
        block's. */
    static method ReadBlock(reader: StreamReader, a: array2<Sample>, c: Scalars, num: Numerics,
                            ghost p0: nat, ghost toks: seq<string>)
      returns (outcome: Outcome<ParseError>, maxIntensity: real)
      requires reader.Valid() && p0 <= |reader.text| && toks == Tokens(reader.text, p0)
      requires reader.pos == Advance(reader.text, p0, VerticalStart())
      requires a.Length0 == c.horizontalAngleCount && a.Length1 == c.verticalAngleCount
      modifies reader, a
      ensures reader.Valid()
      ensures outcome.Pass? ==>
        && DataLists(toks, num, c) == Success(Photometry(
             c.ratedLumens, c.candelaMultiplier, c.verticalAngleCount, c.horizontalAngleCount,
             c.usingMetres, c.luminousOpeningWidth, c.luminousOpeningLength, c.luminousOpeningHeight,
             c.lightWatts, maxIntensity, Rows(a)))
        && reader.pos == Advance(reader.text, p0, DataTokenCount(c.verticalAngleCount, c.horizontalAngleCount))
      ensures outcome.Fail? ==> DataLists(toks, num, c) == Failure(outcome.error)
    {
      ghost var cs := Cursors(reader.text, p0, DataTokenCount(c.verticalAngleCount, c.horizontalAngleCount));
      CursorsChain(reader.text, p0, DataTokenCount(c.verticalAngleCount, c.horizontalAngleCount));
      var vr := ReadAngles(reader, VerticalStart(), c.verticalAngleCount, VerticalAngle, num, cs, toks);
      if vr.Failure? {
        DataBlockSteps(toks, num, c);
        return Fail(vr.error), 0.0;
      }
      var verticalAngles := vr.value;
      ghost var horizontalAngles, rows;
      outcome, horizontalAngles := FillAngles(reader, a, verticalAngles, num, cs, toks);
      if outcome.Fail? {
        DataBlockSteps(toks, num, c);
        return outcome, 0.0;
      }
      IntensityPassStart(reader, a, horizontalAngles, verticalAngles, c.candelaMultiplier, num, cs, toks);
      outcome, maxIntensity, rows := ReadIntensities(reader, a, verticalAngles, horizontalAngles, c.candelaMultiplier, num, cs, toks);
      DataBlockSteps(toks, num, c);
      if outcome.Pass? {
        IntensityPassEnd(reader, a, horizontalAngles, verticalAngles, c.candelaMultiplier, num, cs, toks, rows, maxIntensity);
      }
    }

    /** Tokens 0 to 11 of the data block: the scalar fields, with the counts
        checked as soon as both are read. */
    static method ReadScalarFields(reader: StreamReader, num: Numerics, ghost cs: seq<nat>, ghost toks: seq<string>)
      returns (r: Result<Scalars, ParseError>)
      requires reader.Valid() && TokenChain(reader.text, cs, toks)
      requires |cs| == VerticalStart() + 1 && reader.pos == cs[0]
      modifies reader
      ensures reader.Valid()
      ensures r == ReadScalars(toks, num)
      ensures r.Success? ==> reader.pos == cs[VerticalStart()]
    {
      var lumens := ReadFloat(reader, RatedLumens, num, cs, toks, 0);
      if lumens.Failure? { return Failure(lumens.error); }
      var multiplier := ReadFloat(reader, CandelaMultiplier, num, cs, toks, 1);
      if multiplier.Failure? { return Failure(multiplier.error); }
      var vCount := ReadInt(reader, VerticalAngleCount, num, cs, toks, 2);
      if vCount.Failure? { return Failure(vCount.error); }
      var hCount := ReadInt(reader, HorizontalAngleCount, num, cs, toks, 3);
      if hCount.Failure? { return Failure(hCount.error); }
      if vCount.value < 0 || hCount.value < 0 {
        return Failure(NegativeAngleCount);
      }
      SkipToken(reader, cs, toks, 4);
      var units := ReadInt(reader, UnitsType, num, cs, toks, 5);
      if units.Failure? { return Failure(units.error); }
      var width := ReadFloat(reader, LuminousOpeningWidth, num, cs, toks, 6);
      if width.Failure? { return Failure(width.error); }
      var length := ReadFloat(reader, LuminousOpeningLength, num, cs, toks, 7);
      if length.Failure? { return Failure(length.error); }
      var height := ReadFloat(reader, LuminousOpeningHeight, num, cs, toks, 8);
      if height.Failure? { return Failure(height.error); }
      SkipToken(reader, cs, toks, 9);
      SkipToken(reader, cs, toks, 10);
      var watts := ReadFloat(reader, LightWatts, num, cs, toks, 11);
      if watts.Failure? { return Failure(watts.error); }
      return Success(Scalars(lumens.value, multiplier.value, vCount.value, hCount.value, units.value == 2,
        width.value, length.value, height.value, watts.value));
    }

    /** The List.Add loop: `n` floats from token `start`. */
    static method ReadAngles(reader: StreamReader, start: nat, n: nat, field: Field, num: Numerics,
                             ghost cs: seq<nat>, ghost toks: seq<string>)
      returns (r: Result<seq<real>, ParseError>)
      requires reader.Valid() && TokenChain(reader.text, cs, toks)
      requires start + n < |cs| && reader.pos == cs[start]
      modifies reader
      ensures reader.Valid()
      ensures r == FloatsAt(toks, start, n, field, num)
      ensures r.Success? ==> reader.pos == cs[start + n]
    {
      var angles := [];
      var y := 0;
      while y < n
        invariant reader.Valid() && y <= n
        invariant FloatsAt(toks, start, y, field, num) == Success(angles)
        invariant reader.pos == cs[start + y]
      {
        var x := ReadFloat(reader, field, num, cs, toks, start + y);
        if x.Failure? {
          FloatsAtFirstFailure(toks, start, y, n, field, num);
          return Failure(x.error);
        }
        FloatsAtSnoc(toks, start, y, field, num, angles, x.value);
        angles := angles + [x.value];
        y := y + 1;
      }
      return Success(angles);
    }

    /** The horizontal pass over the [h, v] array `a`: for each horizontal
        angle read, row h gets that angle and the vertical angles, with
        intensity 0. */
    static method FillAngles(reader: StreamReader, a: array2<Sample>, verticalAngles: seq<real>, num: Numerics,
                             ghost cs: seq<nat>, ghost toks: seq<string>)
      returns (outcome: Outcome<ParseError>, ghost angles: seq<real>)
      requires reader.Valid() && TokenChain(reader.text, cs, toks)
      requires |verticalAngles| == a.Length1
      requires IntensityStart(a.Length1, a.Length0) < |cs|
      requires reader.pos == cs[HorizontalStart(a.Length1)]
      modifies reader, a
      ensures reader.Valid()
      ensures outcome.Fail? ==>
        FloatsAt(toks, HorizontalStart(a.Length1), a.Length0, HorizontalAngle, num) == Failure(outcome.error)
      ensures outcome.Pass? ==>
        FloatsAt(toks, HorizontalStart(a.Length1), a.Length0, HorizontalAngle, num) == Success(angles)
      ensures outcome.Pass? ==> reader.pos == cs[IntensityStart(a.Length1, a.Length0)]
      ensures outcome.Pass? ==> forall h, v :: 0 <= h < a.Length0 && 0 <= v < a.Length1 ==>
        a[h, v] == Sample(angles[h], verticalAngles[v], 0.0)
    {
      ghost var start := HorizontalStart(a.Length1);
      angles := [];
      var h := 0;
      while h < a.Length0
        invariant reader.Valid() && h <= a.Length0
        invariant FloatsAt(toks, start, h, HorizontalAngle, num) == Success(angles)
        invariant reader.pos == cs[start + h]
        invariant forall i, j :: 0 <= i < h && 0 <= j < a.Length1 ==> a[i, j] == Sample(angles[i], verticalAngles[j], 0.0)
      {
        var x := ReadFloat(reader, HorizontalAngle, num, cs, toks, start + h);
        if x.Failure? {
          FloatsAtFirstFailure(toks, start, h, a.Length0, HorizontalAngle, num);
          return Fail(x.error), angles;
        }
        FillRow(a, h, x.value, verticalAngles);
        FloatsAtSnoc(toks, start, h, HorizontalAngle, num, angles, x.value);
        angles := angles + [x.value];
        h := h + 1;
      }
      return Pass, angles;
    }

    /** The inner loop of the horizontal pass: row h gets horizontal angle
        `hAngle`, the vertical angles and intensity 0; no other row changes. */
    static method FillRow(a: array2<Sample>, h: nat, hAngle: real, verticalAngles: seq<real>)
      requires h < a.Length0 && |verticalAngles| == a.Length1
      modifies a
      ensures forall i, j :: 0 <= i < a.Length0 && 0 <= j < a.Length1 ==>
        a[i, j] == if i == h then Sample(hAngle, verticalAngles[j], 0.0) else old(a[i, j])
    {
      var v := 0;
      while v < a.Length1
        invariant v <= a.Length1
        invariant forall i, j :: 0 <= i < a.Length0 && 0 <= j < a.Length1 ==>
          a[i, j] == if i == h && j < v then Sample(hAngle, verticalAngles[j], 0.0) else old(a[i, j])
      {
        a[h, v] := Sample(hAngle, verticalAngles[v], 0.0);
        v := v + 1;
      }
    }

    /** The intensity pass over the [h, v] array `a`: cell [h, v] gets the next
        token times the candela multiplier; `maxIntensity` is the running
        maximum, from 0. */
    static method ReadIntensities(reader: StreamReader, a: array2<Sample>, verticalAngles: seq<real>,
                                  ghost horizontalAngles: seq<real>, candelaMultiplier: real,
                                  num: Numerics, ghost cs: seq<nat>, ghost toks: seq<string>)
      returns (outcome: Outcome<ParseError>, maxIntensity: real, ghost rows: seq<seq<real>>)
      requires TokenChain(reader.text, cs, toks)
      requires RowsRead(reader, a, horizontalAngles, verticalAngles, candelaMultiplier, num, cs, toks, [], 0, 0.0)
      modifies reader, a
      ensures reader.Valid()
      ensures outcome.Fail? ==>
        RowsAt(toks, IntensityStart(a.Length1, a.Length0), a.Length0, a.Length1, Intensity, num) == Failure(outcome.error)
      ensures outcome.Pass? ==>
        RowsRead(reader, a, horizontalAngles, verticalAngles, candelaMultiplier, num, cs, toks, rows, a.Length0, maxIntensity)
    {
      maxIntensity := 0.0;
      rows := [];
      var h := 0;
      while h < a.Length0
        invariant RowsRead(reader, a, horizontalAngles, verticalAngles, candelaMultiplier, num, cs, toks, rows, h, maxIntensity)
      {
        outcome, maxIntensity, rows :=
          IntensityRow(reader, a, h, verticalAngles, horizontalAngles, candelaMultiplier, maxIntensity, num, cs, toks, rows);
        if outcome.Fail? {
          return;
        }
        h := h + 1;
      }
      return Pass, maxIntensity, rows;
    }

    /** One turn of the outer loop of the intensity pass: row h is read by
        ReadRow, and the rows read so far, the running maximum and the cursor
        move on by one row; a failing row fails the whole pass. */
    static method IntensityRow(reader: StreamReader, a: array2<Sample>, h: nat, verticalAngles: seq<real>,
                               ghost horizontalAngles: seq<real>, candelaMultiplier: real, m0: real,
                               num: Numerics, ghost cs: seq<nat>, ghost toks: seq<string>, ghost rows0: seq<seq<real>>)
      returns (outcome: Outcome<ParseError>, maxIntensity: real, ghost rows: seq<seq<real>>)
      requires TokenChain(reader.text, cs, toks) && h < a.Length0
      requires RowsRead(reader, a, horizontalAngles, verticalAngles, candelaMultiplier, num, cs, toks, rows0, h, m0)
      modifies reader, a
      ensures reader.Valid()
      ensures outcome.Fail? ==>
        RowsAt(toks, IntensityStart(a.Length1, a.Length0), a.Length0, a.Length1, Intensity, num) == Failure(outcome.error)
      ensures outcome.Pass? ==>
        RowsRead(reader, a, horizontalAngles, verticalAngles, candelaMultiplier, num, cs, toks, rows, h + 1, maxIntensity)
    {
      ghost var start := IntensityStart(a.Length1, a.Length0);
      NextRowStart(start, h, a.Length0, a.Length1);
      RowsEnd(a.Length1, a.Length0);
      ghost var row;
      outcome, maxIntensity, row :=
        ReadRow(reader, a, h, horizontalAngles[h], verticalAngles, candelaMultiplier, m0, num, cs, toks,
                RowStart(start, h, a.Length1));
      if outcome.Fail? {
        RowsAtRowFailure(toks, start, h, a.Length0, a.Length1, Intensity, num);
        return outcome, maxIntensity, rows0;
      }
      GridMaxStep(0.0, rows0, row, candelaMultiplier);
      RowsAtSnoc(toks, start, h, a.Length1, Intensity, num, rows0, row);
      rows := rows0 + [row];
    }

    /** The inner loop of the intensity pass over row h, whose tokens start at
        token `k`: each cell's intensity is set, the other rows do not change,
        and the running maximum goes from `m0` to the row's largest scaled
        value when that is greater. */
    static method ReadRow(reader: StreamReader, a: array2<Sample>, h: nat, ghost hAngle: real,
                          verticalAngles: seq<real>, candelaMultiplier: real, m0: real,
                          num: Numerics, ghost cs: seq<nat>, ghost toks: seq<string>, ghost k: nat)
      returns (outcome: Outcome<ParseError>, maxIntensity: real, ghost row: seq<real>)
      requires reader.Valid() && TokenChain(reader.text, cs, toks)
      requires h < a.Length0 && |verticalAngles| == a.Length1
      requires k + a.Length1 < |cs| && reader.pos == cs[k]
      requires forall j :: 0 <= j < a.Length1 ==> a[h, j] == Sample(hAngle, verticalAngles[j], 0.0)
      modifies reader, a
      ensures reader.Valid()
      ensures outcome.Fail? ==> FloatsAt(toks, k, a.Length1, Intensity, num) == Failure(outcome.error)
      ensures outcome.Pass? ==> FloatsAt(toks, k, a.Length1, Intensity, num) == Success(row)
      ensures outcome.Pass? ==> reader.pos == cs[k + a.Length1]
      ensures outcome.Pass? ==> maxIntensity == RowMax(m0, ScaleRow(row, candelaMultiplier))
      ensures outcome.Pass? ==> forall i, j :: 0 <= i < a.Length0 && 0 <= j < a.Length1 ==>
        a[i, j] == if i == h then Sample(hAngle, verticalAngles[j], Scaled(row[j], candelaMultiplier))
                   else old(a[i, j])
    {
      maxIntensity := m0;
      row := [];
      var v := 0;
      while v < a.Length1
        invariant reader.Valid() && v <= a.Length1 && |row| == v
        invariant FloatsAt(toks, k, v, Intensity, num) == Success(row)
        invariant reader.pos == cs[k + v]
        invariant maxIntensity == RowMax(m0, ScaleRow(row, candelaMultiplier))
        invariant forall i, j :: 0 <= i < a.Length0 && 0 <= j < a.Length1 ==>
          a[i, j] == if i == h && j < v then Sample(hAngle, verticalAngles[j], Scaled(row[j], candelaMultiplier))
                     else old(a[i, j])
      {
        ghost var x;
        outcome, maxIntensity, x :=
          ReadCell(reader, a, h, v, hAngle, verticalAngles, candelaMultiplier, m0, maxIntensity, num, cs, toks, k, row);
        if outcome.Fail? {
          return;
        }
        row := row + [x];
        v := v + 1;
      }
      return Pass, maxIntensity, row;
    }

    /** One turn of the inner loop of the intensity pass: cell [h, v] gets
        token k + v times the multiplier, and the running maximum is raised to
        it; a token that does not parse fails the row. */
    static method ReadCell(reader: StreamReader, a: array2<Sample>, h: nat, v: nat, ghost hAngle: real,
                           verticalAngles: seq<real>, candelaMultiplier: real, ghost m0: real, m: real,
                           num: Numerics, ghost cs: seq<nat>, ghost toks: seq<string>, ghost k: nat,
                           ghost row: seq<real>)
      returns (outcome: Outcome<ParseError>, maxIntensity: real, ghost x: real)
      requires reader.Valid() && TokenChain(reader.text, cs, toks)
      requires h < a.Length0 && v < a.Length1 && |verticalAngles| == a.Length1
      requires k + a.Length1 < |cs| && reader.pos == cs[k + v]
      requires FloatsAt(toks, k, v, Intensity, num) == Success(row)
      requires m == RowMax(m0, ScaleRow(row, candelaMultiplier))
      requires a[h, v] == Sample(hAngle, verticalAngles[v], 0.0)
      modifies reader, a
      ensures reader.Valid()
      ensures outcome.Fail? ==> FloatsAt(toks, k, a.Length1, Intensity, num) == Failure(outcome.error)
      ensures outcome.Pass? ==> FloatsAt(toks, k, v + 1, Intensity, num) == Success(row + [x])
      ensures outcome.Pass? ==> reader.pos == cs[k + v + 1]
      ensures outcome.Pass? ==> maxIntensity == RowMax(m0, ScaleRow(row + [x], candelaMultiplier))
      ensures outcome.Pass? ==> a[h, v] == Sample(hAngle, verticalAngles[v], Scaled(x, candelaMultiplier))
      ensures forall i, j :: 0 <= i < a.Length0 && 0 <= j < a.Length1 && (i != h || j != v) ==> a[i, j] == old(a[i, j])
    {
      maxIntensity := m;
      var sample := a[h, v];
      var r := ReadFloat(reader, Intensity, num, cs, toks, k + v);
      if r.Failure? {
        FloatsAtFirstFailure(toks, k, v, a.Length1, Intensity, num);
        return Fail(r.error), maxIntensity, 0.0;
      }
      x := r.value;
      sample := sample.(intensity := Scaled(r.value, candelaMultiplier));
      RunningMaxStep(m0, row, r.value, candelaMultiplier);
      if sample.intensity > maxIntensity {
        maxIntensity := sample.intensity;
      }
      a[h, v] := sample;
      FloatsAtSnoc(toks, k, v, Intensity, num, row, r.value);
      return Pass, maxIntensity, x;
    }

    /** The whitespace tokenizer: skips leading whitespace, then collects
        characters up to the next whitespace character, which it consumes;
        returns "" at the end of the stream. */
    static method GetNextToken(reader: StreamReader) returns (token: string)
      requires reader.Valid()
      modifies reader
      ensures reader.Valid()
      ensures Lexeme(token, reader.pos) == NextToken(reader.text, old(reader.pos))
    {
      var sb := "";
      while true
        invariant reader.Valid()
        invariant sb == "" ==> NextToken(reader.text, old(reader.pos)) == NextToken(reader.text, reader.pos)
        invariant sb != "" ==>
          (NextToken(reader.text, old(reader.pos)) ==
           Lexeme(sb + RestOfToken(reader.text, reader.pos).token, RestOfToken(reader.text, reader.pos).next))
        decreases |reader.text| - reader.pos
      {
        ghost var before := reader.pos;
        var chr := reader.Read();
        if chr.None? {
          break;
        }
        var character := chr.value;
        if IsWhiteSpace(character) {
          if |sb| > 0 {
            break;
          }
        } else {
          assert RestOfToken(reader.text, before) ==
            Lexeme([character] + RestOfToken(reader.text, reader.pos).token, RestOfToken(reader.text, reader.pos).next);
          sb := sb + [character];
        }
      }
      token := sb;
    }

    /** float.Parse(GetNextToken(reader)) as token k of the chain. */
    static method ReadFloat(reader: StreamReader, field: Field, num: Numerics,
                            ghost cs: seq<nat>, ghost toks: seq<string>, ghost k: nat)
      returns (r: Result<real, ParseError>)
      requires reader.Valid() && TokenChain(reader.text, cs, toks)
      requires k < |cs| - 1 && reader.pos == cs[k]
      modifies reader
      ensures reader.Valid() && reader.pos == cs[k + 1]
      ensures r == FloatAt(toks, k, field, num)
    {
      var token := GetNextToken(reader);
      if token == "" {
        return Failure(UnexpectedEndOfStream(field));
      }
      match num.parseFloat(token)
      case None => return Failure(FormatError(field, token));
      case Some(x) => return Success(x);
    }

    /** int.Parse(GetNextToken(reader)) as token k of the chain. */
    static method ReadInt(reader: StreamReader, field: Field, num: Numerics,
                          ghost cs: seq<nat>, ghost toks: seq<string>, ghost k: nat)
      returns (r: Result<int, ParseError>)
      requires reader.Valid() && TokenChain(reader.text, cs, toks)
      requires k < |cs| - 1 && reader.pos == cs[k]
      modifies reader
      ensures reader.Valid() && reader.pos == cs[k + 1]
      ensures r == IntAt(toks, k, field, num)
    {
      var token := GetNextToken(reader);
      if token == "" {
        return Failure(UnexpectedEndOfStream(field));
      }
      match num.parseInt(token)
      case None => return Failure(FormatError(field, token));
      case Some(x) => return Success(x);
    }

    /** Skips token k of the chain (the fields the parser ignores). */
    static method SkipToken(reader: StreamReader, ghost cs: seq<nat>, ghost toks: seq<string>, ghost k: nat)
      requires reader.Valid() && TokenChain(reader.text, cs, toks)
      requires k < |cs| - 1 && reader.pos == cs[k]
      modifies reader
      ensures reader.Valid() && reader.pos == cs[k + 1]
    {
      var _ := GetNextToken(reader);
    }
  }

  /** A [h, v] array as a sequence of rows. */
  ghost function Rows(a: array2<Sample>): (g: seq<seq<Sample>>)
    reads a
    ensures |g| == a.Length0
    ensures forall h :: 0 <= h < a.Length0 ==> |g[h]| == a.Length1
    ensures forall h, v :: 0 <= h < a.Length0 && 0 <= v < a.Length1 ==> g[h][v] == a[h, v]
  {
    seq(a.Length0, h requires 0 <= h < a.Length0 reads a =>
      seq(a.Length1, v requires 0 <= v < a.Length1 reads a => a[h, v]))
  }

  /** The intensity pass has read rows 0 .. h - 1 of the [h, v] array `a`:
      those cells hold their angles and scaled intensities, the others their
      angles and intensity 0. */
  ghost predicate SamplesRead(a: array2<Sample>, hs: seq<real>, vs: seq<real>, multiplier: real,
                              rows: seq<seq<real>>, h: nat)
    reads a
  {
    && |hs| == a.Length0 && |vs| == a.Length1 && h <= a.Length0 && |rows| == h
    && (forall i :: 0 <= i < h ==> |rows[i]| == a.Length1)
    && forall i, j :: 0 <= i < a.Length0 && 0 <= j < a.Length1 ==>
         a[i, j] == Sample(hs[i], vs[j], if i < h then Scaled(rows[i][j], multiplier) else 0.0)
  }

  /** The state of the intensity pass after h rows: the reader is at the
      first token of row h, `rows` are the rows read, `maxIntensity` is their
      running maximum and the array holds them (SamplesRead). */
  ghost predicate RowsRead(reader: StreamReader, a: array2<Sample>, hs: seq<real>, vs: seq<real>, multiplier: real,
                           num: Numerics, cs: seq<nat>, toks: seq<string>, rows: seq<seq<real>>, h: nat, maxIntensity: real)
    reads reader, a
  {
    var start := IntensityStart(a.Length1, a.Length0);
    && reader.Valid()
    && DataTokenCount(a.Length1, a.Length0) < |cs|
    && RowStart(start, h, a.Length1) <= DataTokenCount(a.Length1, a.Length0)
    && reader.pos == cs[RowStart(start, h, a.Length1)]
    && RowsAt(toks, start, h, a.Length1, Intensity, num) == Success(rows)
    && maxIntensity == GridMax(0.0, Scale(rows, multiplier))
    && SamplesRead(a, hs, vs, multiplier, rows, h)
  }

  /** The horizontal pass leaves the intensity pass at its start. */
  lemma IntensityPassStart(reader: StreamReader, a: array2<Sample>, hs: seq<real>, vs: seq<real>, multiplier: real,
                           num: Numerics, cs: seq<nat>, toks: seq<string>)
    requires reader.Valid() && |hs| == a.Length0 && |vs| == a.Length1
    requires DataTokenCount(a.Length1, a.Length0) < |cs|
    requires reader.pos == cs[IntensityStart(a.Length1, a.Length0)]
    requires forall h, v :: 0 <= h < a.Length0 && 0 <= v < a.Length1 ==> a[h, v] == Sample(hs[h], vs[v], 0.0)
    ensures RowsRead(reader, a, hs, vs, multiplier, num, cs, toks, [], 0, 0.0)
  {
    RowsEnd(a.Length1, a.Length0);
    assert RowStart(IntensityStart(a.Length1, a.Length0), 0, a.Length1) == IntensityStart(a.Length1, a.Length0);
  }

  /** After the last row, the reader is at the end of the block, the rows are
      the block's and the array holds the grid. */
  lemma IntensityPassEnd(reader: StreamReader, a: array2<Sample>, hs: seq<real>, vs: seq<real>, multiplier: real,
                         num: Numerics, cs: seq<nat>, toks: seq<string>, rows: seq<seq<real>>, maxIntensity: real)
    requires RowsRead(reader, a, hs, vs, multiplier, num, cs, toks, rows, a.Length0, maxIntensity)
    ensures reader.pos == cs[DataTokenCount(a.Length1, a.Length0)]
    ensures RowsAt(toks, IntensityStart(a.Length1, a.Length0), a.Length0, a.Length1, Intensity, num) == Success(rows)
    ensures maxIntensity == GridMax(0.0, Scale(rows, multiplier))
    ensures Rows(a) == Grid(hs, vs, Scale(rows, multiplier))
  {
    RowsEnd(a.Length1, a.Length0);
    SamplesReadIsGrid(a, hs, vs, multiplier, rows);
  }

  /** Once every row is read, the array holds the grid of the angles and the
      scaled intensities. */
  lemma SamplesReadIsGrid(a: array2<Sample>, hs: seq<real>, vs: seq<real>, multiplier: real, rows: seq<seq<real>>)
    requires SamplesRead(a, hs, vs, multiplier, rows, a.Length0)
    ensures Rows(a) == Grid(hs, vs, Scale(rows, multiplier))
  {
    var g, r := Grid(hs, vs, Scale(rows, multiplier)), Rows(a);
    forall h | 0 <= h < |hs|
      ensures r[h] == g[h]
    {
    }
  }
}
