/** What the data block specification promises: which token each field comes
    from, that the first failing token decides the error, that a successful
    parse needs every token it covers, and that maxIntensity is the maximum
    over the grid. */
module IESFormatProperties {
  import opened Wrappers
  import opened Tokenizer
  import opened IESFormat

  // ---------------------------------------------------------------- header

  /** One turn of the header loop from `pos` when its token does not open the
      data block: the token is read, then ReadLine. */
  function HeaderStep(s: string, pos: nat): (k: nat)
    requires pos <= |s|
    ensures pos <= k <= |s|
    ensures pos < |s| ==> pos < k
  {
    LineEnd(s, NextToken(s, pos).next)
  }

  /** The cursor after n turns of the header loop from `pos`. */
  function ScanCursor(s: string, pos: nat, n: nat): (k: nat)
    requires pos <= |s|
    ensures pos <= k <= |s|
  {
    if n == 0 then pos else HeaderStep(s, ScanCursor(s, pos, n - 1))
  }

  /** The loop runs at cursor `q` (the stream has not ended) and the token it
      reads there starts with a digit. */
  predicate OpensData(s: string, q: nat)
    requires q <= |s|
  {
    q < |s| && StartsWithDigit(NextToken(s, q).token)
  }

  /** Turn n + 1 from `pos` is turn n from the cursor after the first turn. */
  lemma {:induction false} ScanCursorShift(s: string, pos: nat, n: nat)
    requires pos <= |s|
    ensures ScanCursor(s, pos, n + 1) == ScanCursor(s, HeaderStep(s, pos), n)
    decreases n
  {
    if n > 0 {
      ScanCursorShift(s, pos, n - 1);
    }
  }

  /** Turn n is the first turn of the loop from `pos` that reads a
      digit-leading token. */
  ghost predicate FirstOpening(s: string, pos: nat, n: nat)
    requires pos <= |s|
  {
    && (forall i: nat :: i < n ==> !OpensData(s, ScanCursor(s, pos, i)))
    && OpensData(s, ScanCursor(s, pos, n))
  }

  /** The header scan finds nothing exactly when no turn of the loop reads a
      digit-leading token, and otherwise it returns the token of the first
      turn that does, with the cursor after it. */
  lemma {:induction false} HeaderScanFirstDigit(s: string, pos: nat)
    requires pos <= |s|
    ensures HeaderScan(s, pos).None? <==> forall n: nat :: !OpensData(s, ScanCursor(s, pos, n))
    ensures HeaderScan(s, pos).Some? ==> exists n: nat ::
      && FirstOpening(s, pos, n)
      && HeaderScan(s, pos).value == Scan(NextToken(s, ScanCursor(s, pos, n)).token, NextToken(s, ScanCursor(s, pos, n)).next)
    decreases |s| - pos
  {
    if pos == |s| {
    } else if OpensData(s, pos) {
      assert ScanCursor(s, pos, 0) == pos;
      assert FirstOpening(s, pos, 0);
    } else {
      var q := HeaderStep(s, pos);
      assert HeaderScan(s, pos) == HeaderScan(s, q);
      HeaderScanFirstDigit(s, q);
      if HeaderScan(s, q).Some? {
        var n: nat :| && FirstOpening(s, q, n)
                      && HeaderScan(s, q).value == Scan(NextToken(s, ScanCursor(s, q, n)).token, NextToken(s, ScanCursor(s, q, n)).next);
        FirstOpeningShift(s, pos, n);
        ScanCursorShift(s, pos, n);
      } else {
        forall n: nat
          ensures !OpensData(s, ScanCursor(s, pos, n))
        {
          if n > 0 {
            ScanCursorShift(s, pos, n - 1);
          }
        }
      }
    }
  }

  /** A first opening at turn n after a first turn that reads no
      digit-leading token is a first opening at turn n + 1. */
  lemma FirstOpeningShift(s: string, pos: nat, n: nat)
    requires pos <= |s| && !OpensData(s, pos)
    requires FirstOpening(s, HeaderStep(s, pos), n)
    ensures FirstOpening(s, pos, n + 1)
  {
    forall i: nat | i < n + 1
      ensures !OpensData(s, ScanCursor(s, pos, i))
    {
      if i > 0 {
        ScanCursorShift(s, pos, i - 1);
      }
    }
    ScanCursorShift(s, pos, n);
  }

  /** Where the scan resumes after a header token that does not start with a
      digit, ending at position e.  The tokenizer has already consumed the
      whitespace at e, so ReadLine starts at e + 1.  When that whitespace is
      a bare line break, e + 1 starts the next line, and all of that line is
      dropped.  After "\r\n" only the "\n" is left, and the scan resumes at the
      next line.  When the stream ends at e, the scan is over. */
  lemma HeaderTokenLineEnd(s: string, pos: nat)
    requires pos < |s| && !StartsWithDigit(NextToken(s, pos).token)
    ensures var e := SkipWhiteSpace(s, pos) + |NextToken(s, pos).token|;
      && e <= |s|
      && (e < |s| && s[e] == '\r' && e + 1 < |s| && s[e + 1] == '\n' ==> HeaderScan(s, pos) == HeaderScan(s, e + 2))
      && (e < |s| && !(s[e] == '\r' && e + 1 < |s| && s[e + 1] == '\n') ==> HeaderScan(s, pos) == HeaderScan(s, LineEnd(s, e + 1)))
      && (e == |s| ==> HeaderScan(s, pos) == None)
  {
    NextTokenIsMaximalRun(s, pos);
    var e := SkipWhiteSpace(s, pos) + |NextToken(s, pos).token|;
    if e + 1 < |s| && s[e + 1] == '\n' {
      assert LineBreakAt(s, e + 1) == e + 1;
    }
  }

  /** The tokenizer consumes the whitespace that ends a header token, so when
      that is a bare "\n" the ReadLine after it drops the next line, here the
      one that opens the data block; after "\r\n" only the "\n" is left for
      ReadLine and the data block is found. */
  lemma HeaderLineEndings()
    ensures HeaderScan("A\n1\n", 0) == None
    ensures HeaderScan("A\r\n1\n", 0) == Some(Scan("1", 5))
  {
    assert NextToken("A\n1\n", 0) == Lexeme("A", 2);
    assert LineEnd("A\n1\n", 2) == 4;
    assert NextToken("A\r\n1\n", 0) == Lexeme("A", 2);
    assert LineEnd("A\r\n1\n", 2) == 3;
    assert NextToken("A\r\n1\n", 3) == Lexeme("1", 5);
  }

  // ---------------------------------------------------------------- layout

  /** Entry `i` of the floats is the float at token start + i. */
  lemma {:induction false} FloatsAtElement(toks: seq<string>, start: nat, n: nat, field: Field, num: Numerics, i: nat)
    requires i < n
    requires FloatsAt(toks, start, n, field, num).Success?
    ensures FloatAt(toks, start + i, field, num) == Success(FloatsAt(toks, start, n, field, num).value[i])
  {
    if i < n - 1 {
      FloatsAtElement(toks, start, n - 1, field, num, i);
    }
  }

  /** `d` is the photometry DataBlock assembles from the scalars `c` and the
      three lists that follow them. */
  ghost predicate Assembled(toks: seq<string>, num: Numerics, c: Scalars, d: Photometry) {
    var vc, hc := c.verticalAngleCount, c.horizontalAngleCount;
    var vs := FloatsAt(toks, VerticalStart(), vc, VerticalAngle, num);
    var hs := FloatsAt(toks, HorizontalStart(vc), hc, HorizontalAngle, num);
    var rows := RowsAt(toks, IntensityStart(vc, hc), hc, vc, Intensity, num);
    && vs.Success? && hs.Success? && rows.Success?
    && var intensities := Scale(rows.value, c.candelaMultiplier);
    d == Photometry(
      c.ratedLumens, c.candelaMultiplier, vc, hc,
      c.usingMetres, c.luminousOpeningWidth, c.luminousOpeningLength, c.luminousOpeningHeight,
      c.lightWatts,
      GridMax(0.0, intensities),
      Grid(hs.value, vs.value, intensities))
  }

  /** The pieces a successful DataBlock is made of. */
  lemma DataBlockParts(toks: seq<string>, num: Numerics)
    requires DataBlock(toks, num).Success?
    ensures ReadScalars(toks, num).Success?
    ensures Assembled(toks, num, ReadScalars(toks, num).value, DataBlock(toks, num).value)
  {
  }

  /** Row `h` is the `width` floats from token RowStart(start, h, width). */
  lemma {:induction false} RowsAtRow(toks: seq<string>, start: nat, n: nat, width: nat, field: Field, num: Numerics, h: nat)
    requires h < n
    requires RowsAt(toks, start, n, width, field, num).Success?
    ensures FloatsAt(toks, RowStart(start, h, width), width, field, num) == Success(RowsAt(toks, start, n, width, field, num).value[h])
  {
    if h < n - 1 {
      RowsAtRow(toks, start, n - 1, width, field, num, h);
    }
  }

  /** Entry [h][v] of the rows is the float at token RowStart(start, h, width) + v. */
  lemma RowsAtCell(toks: seq<string>, start: nat, n: nat, width: nat, field: Field, num: Numerics, h: nat, v: nat)
    requires h < n && v < width
    requires RowsAt(toks, start, n, width, field, num).Success?
    ensures FloatAt(toks, RowStart(start, h, width) + v, field, num) == Success(RowsAt(toks, start, n, width, field, num).value[h][v])
  {
    RowsAtRow(toks, start, n, width, field, num, h);
    FloatsAtElement(toks, RowStart(start, h, width), width, field, num, v);
  }

  /** Cell [h][v] holds the h-th horizontal angle, the v-th vertical angle and
      the intensity token of row h, column v, times the candela multiplier. */
  lemma DataCell(toks: seq<string>, num: Numerics, h: nat, v: nat)
    requires DataBlock(toks, num).Success?
    requires var d := DataBlock(toks, num).value;
      h < d.horizontalAngleCount && v < d.verticalAngleCount
    ensures var d := DataBlock(toks, num).value;
      var vc, hc := d.verticalAngleCount, d.horizontalAngleCount;
      var cell, x := d.samples[h][v], FloatAt(toks, IntensityIndex(vc, hc, h, v), Intensity, num);
      && FloatAt(toks, HorizontalStart(vc) + h, HorizontalAngle, num) == Success(cell.horizontalAngle)
      && FloatAt(toks, VerticalStart() + v, VerticalAngle, num) == Success(cell.verticalAngle)
      && x.Success? && cell.intensity == Scaled(x.value, d.candelaMultiplier)
  {
    DataBlockParts(toks, num);
    PhotometryCell(toks, num, ReadScalars(toks, num).value, DataBlock(toks, num).value, h, v);
  }

  /** DataCell for a photometry assembled from the lists of the block. */
  lemma PhotometryCell(toks: seq<string>, num: Numerics, c: Scalars, d: Photometry, h: nat, v: nat)
    requires Assembled(toks, num, c, d)
    requires h < d.horizontalAngleCount && v < d.verticalAngleCount
    ensures var vc, hc := d.verticalAngleCount, d.horizontalAngleCount;
      var cell, x := d.samples[h][v], FloatAt(toks, IntensityIndex(vc, hc, h, v), Intensity, num);
      && FloatAt(toks, HorizontalStart(vc) + h, HorizontalAngle, num) == Success(cell.horizontalAngle)
      && FloatAt(toks, VerticalStart() + v, VerticalAngle, num) == Success(cell.verticalAngle)
      && x.Success? && cell.intensity == Scaled(x.value, d.candelaMultiplier)
  {
    var vc, hc := c.verticalAngleCount, c.horizontalAngleCount;
    FloatsAtElement(toks, VerticalStart(), vc, VerticalAngle, num, v);
    FloatsAtElement(toks, HorizontalStart(vc), hc, HorizontalAngle, num, h);
    RowsAtCell(toks, IntensityStart(vc, hc), hc, vc, Intensity, num, h, v);
  }

  /** A successful parse needs every token it covers: the token list holds at
      least DataTokenCount tokens (the stream did not run out early). */
  lemma DataBlockFitsTokens(toks: seq<string>, num: Numerics)
    requires DataBlock(toks, num).Success?
    ensures var d := DataBlock(toks, num).value;
      DataTokenCount(d.verticalAngleCount, d.horizontalAngleCount) <= |toks|
  {
    DataBlockParts(toks, num);
    ScalarsFitTokens(toks, num);
    PhotometryFitsTokens(toks, num, ReadScalars(toks, num).value, DataBlock(toks, num).value);
  }

  /** The twelve scalar tokens are all in the list when they parse. */
  lemma ScalarsFitTokens(toks: seq<string>, num: Numerics)
    requires ReadScalars(toks, num).Success?
    ensures 12 <= |toks|
  {
    ParsedTokenIsListed(toks, 11, LightWatts, num);
  }

  /** Tokens 4, 9 and 10 (photometric type, ballast factor and a future-use
      field) are read and dropped: the scalars do not depend on them. */
  lemma ScalarsIgnoreDiscarded(toks: seq<string>, num: Numerics, i: nat, t: string)
    requires i == 4 || i == 9 || i == 10
    requires i < |toks|
    ensures ReadScalars(toks[i := t], num) == ReadScalars(toks, num)
  {
    var u := toks[i := t];
    forall j: nat | j != i
      ensures TokenAt(u, j) == TokenAt(toks, j)
    {
    }
  }

  /** DataBlockFitsTokens for a photometry assembled from the lists of the block. */
  lemma PhotometryFitsTokens(toks: seq<string>, num: Numerics, c: Scalars, d: Photometry)
    requires 12 <= |toks|
    requires Assembled(toks, num, c, d)
    ensures DataTokenCount(d.verticalAngleCount, d.horizontalAngleCount) <= |toks|
  {
    var vc, hc := c.verticalAngleCount, c.horizontalAngleCount;
    TokenCountCases(vc, hc);
    // the last token of the block is parsed, so it is in the list
    if hc > 0 && vc > 0 {
      RowsAtCell(toks, IntensityStart(vc, hc), hc, vc, Intensity, num, hc - 1, vc - 1);
      ParsedTokenIsListed(toks, IntensityIndex(vc, hc, hc - 1, vc - 1), Intensity, num);
    } else if hc > 0 {
      FloatsAtElement(toks, HorizontalStart(vc), hc, HorizontalAngle, num, hc - 1);
      ParsedTokenIsListed(toks, HorizontalStart(vc) + (hc - 1), HorizontalAngle, num);
    } else if vc > 0 {
      FloatsAtElement(toks, VerticalStart(), vc, VerticalAngle, num, vc - 1);
      ParsedTokenIsListed(toks, VerticalStart() + (vc - 1), VerticalAngle, num);
    }
  }

  /** A token that parses is one of the list's: the stream had not ended. */
  lemma ParsedTokenIsListed(toks: seq<string>, i: nat, field: Field, num: Numerics)
    requires FloatAt(toks, i, field, num).Success?
    ensures i < |toks|
  {
  }

  /** Where the last token of the block is, by which of the three lists is
      non-empty. */
  lemma TokenCountCases(vc: nat, hc: nat)
    ensures hc == 0 || vc == 0 ==> DataTokenCount(vc, hc) == IntensityStart(vc, hc)
    ensures hc > 0 && vc > 0 ==> DataTokenCount(vc, hc) == IntensityIndex(vc, hc, hc - 1, vc - 1) + 1
  {
    if hc > 0 && vc > 0 {
      assert hc * vc == (hc - 1) * vc + vc;
    }
  }

  /** The rows of the intensity block end where the block ends. */
  lemma RowsEnd(vc: nat, hc: nat)
    ensures RowStart(IntensityStart(vc, hc), hc, vc) == DataTokenCount(vc, hc)
  {
  }

  /** Once the scalars parse, the data block is what the lists make of them. */
  lemma DataBlockOfScalars(toks: seq<string>, num: Numerics, c: Scalars)
    requires ReadScalars(toks, num) == Success(c)
    ensures DataBlock(toks, num) == DataLists(toks, num, c)
  {
  }

  /** DataLists as its steps: the first failing list decides the error, and
      otherwise the photometry is built from the lists. */
  lemma DataBlockSteps(toks: seq<string>, num: Numerics, c: Scalars)
    ensures var vc, hc := c.verticalAngleCount, c.horizontalAngleCount;
      var vs := FloatsAt(toks, VerticalStart(), vc, VerticalAngle, num);
      var hs := FloatsAt(toks, HorizontalStart(vc), hc, HorizontalAngle, num);
      var rows := RowsAt(toks, IntensityStart(vc, hc), hc, vc, Intensity, num);
      && (vs.Failure? ==> DataLists(toks, num, c) == Failure(vs.error))
      && (vs.Success? && hs.Failure? ==> DataLists(toks, num, c) == Failure(hs.error))
      && (vs.Success? && hs.Success? && rows.Failure? ==> DataLists(toks, num, c) == Failure(rows.error))
      && (vs.Success? && hs.Success? && rows.Success? ==>
            var intensities := Scale(rows.value, c.candelaMultiplier);
            DataLists(toks, num, c) == Success(Photometry(
              c.ratedLumens, c.candelaMultiplier, vc, hc,
              c.usingMetres, c.luminousOpeningWidth, c.luminousOpeningLength, c.luminousOpeningHeight,
              c.lightWatts, GridMax(0.0, intensities), Grid(hs.value, vs.value, intensities))))
  {
  }

  /** One more float read. */
  lemma FloatsAtSnoc(toks: seq<string>, start: nat, n: nat, field: Field, num: Numerics, prev: seq<real>, x: real)
    requires FloatsAt(toks, start, n, field, num) == Success(prev)
    requires FloatAt(toks, start + n, field, num) == Success(x)
    ensures FloatsAt(toks, start, n + 1, field, num) == Success(prev + [x])
  {
  }

  /** One more row read. */
  lemma RowsAtSnoc(toks: seq<string>, start: nat, n: nat, width: nat, field: Field, num: Numerics,
                   prev: seq<seq<real>>, row: seq<real>)
    requires RowsAt(toks, start, n, width, field, num) == Success(prev)
    requires FloatsAt(toks, RowStart(start, n, width), width, field, num) == Success(row)
    ensures RowsAt(toks, start, n + 1, width, field, num) == Success(prev + [row])
  {
  }

  // ---------------------------------------------------------------- errors

  /** Once a prefix of the floats fails, the whole read fails with that error. */
  lemma {:induction false} FloatsAtFailureSticks(toks: seq<string>, start: nat, k: nat, n: nat, field: Field, num: Numerics)
    requires k <= n
    requires FloatsAt(toks, start, k, field, num).Failure?
    ensures FloatsAt(toks, start, n, field, num) == FloatsAt(toks, start, k, field, num)
    decreases n
  {
    if k < n {
      FloatsAtFailureSticks(toks, start, k, n - 1, field, num);
    }
  }

  /** Once a prefix of the rows fails, the whole read fails with that error. */
  lemma {:induction false} RowsAtFailureSticks(toks: seq<string>, start: nat, k: nat, n: nat, width: nat, field: Field, num: Numerics)
    requires k <= n
    requires RowsAt(toks, start, k, width, field, num).Failure?
    ensures RowsAt(toks, start, n, width, field, num) == RowsAt(toks, start, k, width, field, num)
    decreases n
  {
    if k < n {
      RowsAtFailureSticks(toks, start, k, n - 1, width, field, num);
    }
  }

  /** The first failing float decides the error: if the floats before token
      start + k parse and that one does not, reading any n > k of them fails
      with its error. */
  lemma FloatsAtFirstFailure(toks: seq<string>, start: nat, k: nat, n: nat, field: Field, num: Numerics)
    requires k < n
    requires FloatsAt(toks, start, k, field, num).Success?
    requires FloatAt(toks, start + k, field, num).Failure?
    ensures FloatsAt(toks, start, n, field, num) == Failure(FloatAt(toks, start + k, field, num).error)
  {
    FloatsAtFailureSticks(toks, start, k + 1, n, field, num);
  }

  /** The first failing row decides the error: rows 0 .. h - 1 parse and
      row h does not. */
  lemma RowsAtRowFailure(toks: seq<string>, start: nat, h: nat, n: nat, width: nat, field: Field, num: Numerics)
    requires h < n
    requires RowsAt(toks, start, h, width, field, num).Success?
    requires FloatsAt(toks, RowStart(start, h, width), width, field, num).Failure?
    ensures RowsAt(toks, start, n, width, field, num) == Failure(FloatsAt(toks, RowStart(start, h, width), width, field, num).error)
  {
    var row := FloatsAt(toks, RowStart(start, h, width), width, field, num);
    assert RowsAt(toks, start, h + 1, width, field, num) == Failure(row.error);
    RowsAtFailureSticks(toks, start, h + 1, n, width, field, num);
  }

  /** The same within the rows: rows 0 .. h - 1 parse, the first v floats of
      row h parse and float v of row h does not. */
  lemma RowsAtFirstFailure(toks: seq<string>, start: nat, h: nat, v: nat, n: nat, width: nat, field: Field, num: Numerics)
    requires h < n && v < width
    requires RowsAt(toks, start, h, width, field, num).Success?
    requires FloatsAt(toks, RowStart(start, h, width), v, field, num).Success?
    requires FloatAt(toks, RowStart(start, h, width) + v, field, num).Failure?
    ensures RowsAt(toks, start, n, width, field, num) == Failure(FloatAt(toks, RowStart(start, h, width) + v, field, num).error)
  {
    FloatsAtFirstFailure(toks, RowStart(start, h, width), v, width, field, num);
    RowsAtRowFailure(toks, start, h, n, width, field, num);
  }

  // ---------------------------------------------------------------- maximum

  /** One row's running maximum is at least its start value and every entry,
      and it is the start value or one of the entries. */
  lemma {:induction false} RowMaxBounds(m: real, row: seq<real>)
    ensures var r := RowMax(m, row);
      && m <= r
      && (forall v :: 0 <= v < |row| ==> row[v] <= r)
      && (r == m || exists v :: 0 <= v < |row| && row[v] == r)
    decreases |row|
  {
    if row != [] {
      var init := row[..|row| - 1];
      RowMaxBounds(m, init);
      var r0 := RowMax(m, init);
      if r0 != m {
        var v :| 0 <= v < |init| && init[v] == r0;
        assert row[v] == init[v];
      }
      forall v | 0 <= v < |row| - 1
        ensures row[v] <= RowMax(m, row)
      {
        assert row[v] == init[v];
      }
    }
  }

  /** The running maximum over all rows is at least its start value and every
      entry, and it is the start value or one of the entries. */
  lemma {:induction false} GridMaxBounds(m: real, rows: seq<seq<real>>)
    ensures var r := GridMax(m, rows);
      && m <= r
      && (forall h, v :: 0 <= h < |rows| && 0 <= v < |rows[h]| ==> rows[h][v] <= r)
      && (r == m || exists h, v :: 0 <= h < |rows| && 0 <= v < |rows[h]| && rows[h][v] == r)
    decreases |rows|
  {
    if rows != [] {
      var n := |rows|;
      var init, last := rows[..n - 1], rows[n - 1];
      GridMaxBounds(m, init);
      var r0 := GridMax(m, init);
      RowMaxBounds(r0, last);
      var r := GridMax(m, rows);
      assert r == RowMax(r0, last);
      if r != r0 {
        var v :| 0 <= v < |last| && last[v] == r;
        assert rows[n - 1][v] == r;
      } else if r0 != m {
        var h, v :| 0 <= h < |init| && 0 <= v < |init[h]| && init[h][v] == r0;
        assert rows[h][v] == r;
      }
      forall h, v | 0 <= h < n && 0 <= v < |rows[h]|
        ensures rows[h][v] <= r
      {
        if h < n - 1 {
          assert rows[h] == init[h];
        }
      }
    }
  }

  /** One more cell of the intensity pass: the running maximum is raised by
      the scaled value when that is greater. */
  lemma RunningMaxStep(m: real, row: seq<real>, x: real, multiplier: real)
    ensures RowMax(m, ScaleRow(row + [x], multiplier)) == Raise(RowMax(m, ScaleRow(row, multiplier)), Scaled(x, multiplier))
  {
    var r := ScaleRow(row + [x], multiplier);
    assert r[..|r| - 1] == ScaleRow(row, multiplier);
  }

  /** One more row of the intensity pass. */
  lemma GridMaxStep(m: real, rows: seq<seq<real>>, row: seq<real>, multiplier: real)
    ensures GridMax(m, Scale(rows + [row], multiplier)) == RowMax(GridMax(m, Scale(rows, multiplier)), ScaleRow(row, multiplier))
  {
    var g := Scale(rows + [row], multiplier);
    assert g[..|g| - 1] == Scale(rows, multiplier);
  }

  /** Where the next row starts, and that it is within the block. */
  lemma NextRowStart(start: nat, h: nat, n: nat, width: nat)
    requires h < n
    ensures RowStart(start, h, width) + width == RowStart(start, h + 1, width) <= RowStart(start, n, width)
  {
    assert (h + 1) * width <= n * width;
  }

  /** maxIntensity is max(0, largest intensity of the grid): it bounds every
      cell, is never negative, and is 0 or attained by some cell. */
  lemma DataMaxIntensity(toks: seq<string>, num: Numerics)
    requires DataBlock(toks, num).Success?
    ensures var d := DataBlock(toks, num).value;
      IsMaxIntensity(d.maxIntensity, d.samples)
  {
    DataBlockParts(toks, num);
    PhotometryMaxIntensity(toks, num, ReadScalars(toks, num).value, DataBlock(toks, num).value);
  }

  /** DataMaxIntensity for a photometry assembled from the lists of the block. */
  lemma PhotometryMaxIntensity(toks: seq<string>, num: Numerics, c: Scalars, d: Photometry)
    requires Assembled(toks, num, c, d)
    ensures IsMaxIntensity(d.maxIntensity, d.samples)
  {
    var vc, hc := c.verticalAngleCount, c.horizontalAngleCount;
    var rows := RowsAt(toks, IntensityStart(vc, hc), hc, vc, Intensity, num).value;
    GridMaxIsMax(FloatsAt(toks, HorizontalStart(vc), hc, HorizontalAngle, num).value,
      FloatsAt(toks, VerticalStart(), vc, VerticalAngle, num).value, Scale(rows, c.candelaMultiplier));
  }

  /** The maximum over a grid's intensities is its maxIntensity. */
  lemma GridMaxIsMax(hs: seq<real>, vs: seq<real>, intensities: seq<seq<real>>)
    requires |hs| == |intensities|
    requires forall h :: 0 <= h < |intensities| ==> |intensities[h]| == |vs|
    ensures IsMaxIntensity(GridMax(0.0, intensities), Grid(hs, vs, intensities))
  {
    var m := GridMax(0.0, intensities);
    var g: seq<seq<Sample>> := Grid(hs, vs, intensities);
    GridMaxBounds(0.0, intensities);
    if m != 0.0 {
      var h: nat, v: nat :| h < |intensities| && v < |intensities[h]| && intensities[h][v] == m;
      assert g[h][v].intensity == m;
    }
  }
}
