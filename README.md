# IES importer: a Dafny model of the LM-63 parser and the spot-cookie packing

This project models the core of a Unity asset importer for IES photometric
files (ANSI/IESNA LM-63-1995, the 1991 variant also accepted). It proves
properties of that model:

- **Tokenizer.** The whitespace tokenizer `GetNextToken` over a character
  stream. At the end of the stream it returns `""` and does not fail.
- **Header reader.** `ParseHeader` accepts exactly the two version tokens.
  It then scans the header lines. The first token that starts with a digit
  opens the data block. After any other token the rest of the line is
  skipped.
- **Data reader.** `ParseData` reads the positional fields of the data
  block in this order:
  1. the scalars;
  2. the vertical angles;
  3. the horizontal angles, filling the `[h, v]` sample array with angle
     pairs as it goes;
  4. the intensities, each scaled by the candela multiplier, with a running
     maximum.
- **Importer.** The Point/Spot dispatch. The spot path packs the
  `[h, v]` grid into a flat colour buffer, vertical-outer and
  horizontal-inner. It also builds the angle-range vector for the compute
  shader.
- **`IndexOf`.** The extension method with its default result.

## How the model is organised

The model follows the source. The C# code is imperative, so its operations
are Dafny methods.

- **`IESParser.IESParser`** is a class with the parser's fields and a
  `samples: array2?<Sample>` that is allocated and filled in place.
- **`Tokenizer.StreamReader`** is a class holding a text and a cursor.
- **Loops stay loops.** Every C# loop is a Dafny `while` loop:
  - the `StringBuilder` loop of `GetNextToken`;
  - the header loop;
  - the `List.Add` loop;
  - both nested passes over the array;
  - the packing loop with its running counter;
  - the `foreach` of `IndexOf`.

Each method is proved against a function of the text and a cursor:

- `NextToken`, in module `Tokenizer`, is what one tokenizer call returns.
- `HeaderScan`, in module `IESFormat`, is the header loop.
- `DataBlock`, in module `IESFormat`, is the data block, positional field by
  positional field.
- `ParseSpec`, in module `IESFormat`, is the whole parse.

The properties the format promises are proved about those functions, in
`IESFormatProperties`:

- which token each field and each cell comes from;
- that the first failing token decides the error;
- how many tokens a successful parse consumes;
- that `maxIntensity` is max(0, the largest intensity).

Exceptions are values. `ParseError` holds the exceptions the parser can
raise; `ImportError` adds those of the spot path.

The error behaviour is the code's own, and the model keeps it:

- **Header reaching the end of the stream.** When the stream ends before a
  digit-leading token, the header loop just stops. It raises no error:
  `ParseSpec` succeeds with `data == None`, and `samples` stays null. The
  failure comes only later: the spot path then reads `samples[0, 0]` of a
  null array, which is `ImportError.NoSamples`.
- **maxIntensity == 0.** There is no error for an all-zero grid. The spot
  path divides by 0 as C# floats do: NaN for 0 / 0, and an infinity
  otherwise. `Divide` models this with a `Quotient` datatype.
- **Negative angle counts.** These make the array allocation throw, which
  is `ParseError.NegativeAngleCount`. The error is raised right after the
  fourth token, as in the code.
- **Empty token.** `float.Parse("")` and `int.Parse("")` throw at the end
  of the stream. This is modelled as `UnexpectedEndOfStream(field)`. Any
  other rejected token is `FormatError(field, token)`.

## Model

| member | source | states |
|---|---|---|
| Tokenizer.SkipWhiteSpace | Editor/Parser/IESParser.cs:137-147 | the first non-whitespace position at or after the cursor; everything skipped is whitespace |
| Tokenizer.TokenEnd | Editor/Parser/IESParser.cs:137-148 | the end of the whitespace-free run from the cursor: every character before it is non-whitespace and the one at it is whitespace (or the stream ends) |
| Tokenizer.RestOfToken | Editor/Parser/IESParser.cs:137-149 | once a token has started, the loop appends characters until whitespace or the end of the stream; the cursor never moves back and stays within the text (RestOfTokenIsRun states what it reads) |
| Tokenizer.NextToken | Editor/Parser/IESParser.cs:132-152 | one tokenizer call never moves the cursor back, and moves it whenever the stream has not ended |
| Tokenizer.RestOfTokenIsRun | Editor/Parser/IESParser.cs:141-149 | once a token has started, the rest of it is the maximal whitespace-free run, and the cursor ends one past the whitespace that closes it |
| Tokenizer.NextTokenIsMaximalRun | Editor/Parser/IESParser.cs:134-151 | leading whitespace is skipped; the token is the maximal whitespace-free run after it; exactly one trailing whitespace character is consumed; the token is "" exactly when only whitespace remains |
| Tokenizer.EmptyTokenAtEnd | Editor/Parser/IESParser.cs:137-151 | at the end of the stream the token is "" and the cursor stays put; an empty token leaves the cursor at the end |
| Tokenizer.AdvanceAdd | Editor/Parser/IESParser.cs:132-152 | reading m tokens and then n more leaves the cursor where reading m + n tokens does |
| Tokenizer.ExhaustedStaysExhausted | Editor/Parser/IESParser.cs:137-151 | once the tokenizer returns "", every later call returns "" too and the cursor stays at the end |
| Tokenizer.Tokens | Editor/Parser/IESParser.cs:132-152 | the token list of the rest of the stream holds no empty token |
| Tokenizer.NthTokenIsTokenAt | Editor/Parser/IESParser.cs:132-152 | the i-th tokenizer call returns entry i of the token list, and "" once the list is exhausted |
| Tokenizer.CursorsChain | Editor/Parser/IESParser.cs:132-152 | the cursors of successive calls are chained: the call at cursor j returns token j and leaves cursor j + 1 |
| Tokenizer.LineBreakAt | Editor/Parser/IESParser.cs:69 | the first "\n" or "\r" at or after the cursor |
| Tokenizer.LineEnd | Editor/Parser/IESParser.cs:69 | ReadLine's new cursor: just past the next "\n", "\r" or "\r\n", with no other line break before it and never between the "\r" and "\n" of "\r\n"; or the end of the stream |
| Tokenizer.StreamReader.Read | Editor/Parser/IESParser.cs:137 | returns the next character and advances by one, or None (C#'s -1) at the end without moving |
| Tokenizer.StreamReader.EndOfStream | Editor/Parser/IESParser.cs:60 | `reader.EndOfStream`: true exactly when the cursor is at the end of the text |
| Tokenizer.StreamReader.ReadLine | Editor/Parser/IESParser.cs:69 | moves the cursor to LineEnd of the old cursor |
| IESFormat.VersionOf | Editor/Parser/IESParser.cs:52-58 | a version is recognised exactly for "IESNA91" and "IESNA:LM-63-1995", and it is the one whose token was read |
| IESFormat.VersionRoundTrip | Editor/Parser/IESParser.cs:17-21 | each enum value's token maps back to that value |
| IESFormat.StartsWithDigit | Editor/Parser/IESParser.cs:63 | a header token opens the data block exactly when it is non-empty and its first character is a digit |
| IESFormat.HeaderScan | Editor/Parser/IESParser.cs:60-70 | the token that opens the data block starts with a digit, and the cursor after it lies past the scan's start |
| IESFormat.ParseSpec | Editor/Parser/IESParser.cs:50-130 | the whole parse: an unknown version token is an error; a header that reaches the end of the stream gives a document without data; otherwise the data block after the first digit-leading token, whose own value is not used (Read and ParseHeader are proved to compute it) |
| IESFormat.DataSpec | Editor/Parser/IESParser.cs:73-130 | the data block read from the cursor, and the cursor after its DataTokenCount tokens (ParseData is proved to compute it; DataBlockFitsTokens shows all those tokens are present) |
| IESFormat.DataBlock | Editor/Parser/IESParser.cs:73-130 | the scalars, then the three lists; DataCell states which token every cell comes from and DataMaxIntensity what its maximum is |
| IESFormat.DataLists | Editor/Parser/IESParser.cs:99-129 | the vertical list, the horizontal list and the intensity rows after the scalars, in that order, with the grid scaled by the multiplier (ReadBlock is proved to compute it) |
| IESFormat.ReadScalars | Editor/Parser/IESParser.cs:75-97 | each scalar field comes from its token (0, 1, 2, 3, 5, 6, 7, 8, 11), metres exactly when the units token is 2, and the negative-count error exactly when the first four parse and a count is negative |
| IESFormat.FloatAt | Editor/Parser/IESParser.cs:75-97 | float.Parse of token i: UnexpectedEndOfStream exactly when the token list has no token i (GetNextToken returned ""); success exactly when token i exists and parses, with its value; any other failure is FormatError of that field and that token |
| IESFormat.IntAt | Editor/Parser/IESParser.cs:77-85 | int.Parse of token i, with the same two errors decided in the same way |
| IESFormat.FloatsAt | Editor/Parser/IESParser.cs:100-104 | a successful list read holds exactly n values |
| IESFormat.RowsAt | Editor/Parser/IESParser.cs:118-129 | a successful intensity read holds hCount rows of vCount values |
| IESFormatProperties.HeaderScanFirstDigit | Editor/Parser/IESParser.cs:60-70 | the scan finds no data block exactly when no turn of the header loop reads a digit-leading token; otherwise it returns the token of the first turn that does, and the cursor after it |
| IESFormatProperties.HeaderTokenLineEnd | Editor/Parser/IESParser.cs:60-70 | after a non-digit header token the scan resumes at the next line when the token ended with "\r\n", and otherwise where ReadLine stops after the consumed whitespace; after a bare line break that drops the whole next line; at the end of the stream the scan is over |
| IESFormatProperties.HeaderLineEndings | Editor/Parser/IESParser.cs:60-70 | two example texts: a header token ending with a bare "\n" makes ReadLine drop the data line; after "\r\n" the data line is found |
| IESFormat.RowMax | Editor/Parser/IESParser.cs:120-128 | the running maximum over one row, raised only by a strictly greater value (RowMaxBounds and RunningMaxStep state its properties) |
| IESFormat.GridMax | Editor/Parser/IESParser.cs:118-129 | the running maximum row after row (GridMaxBounds and GridMaxIsMax state its properties) |
| IESFormatProperties.FloatsAtElement | Editor/Parser/IESParser.cs:100-104 | entry i of a list read is float.Parse of token start + i |
| IESFormatProperties.RowsAtRow | Editor/Parser/IESParser.cs:118-129 | intensity row h is the vCount floats from token start + h * vCount |
| IESFormatProperties.RowsAtCell | Editor/Parser/IESParser.cs:120-127 | intensity entry [h][v] is float.Parse of token start + h * vCount + v |
| IESFormatProperties.DataCell | Editor/Parser/IESParser.cs:105-129 | cell [h, v] holds the h-th horizontal token, the v-th vertical token and intensity token h * vCount + v times the multiplier |
| IESFormatProperties.PhotometryCell | Editor/Parser/IESParser.cs:105-129 | the same cell layout for a photometry assembled from the block's lists |
| IESFormatProperties.DataBlockFitsTokens | Editor/Parser/IESParser.cs:73-130 | a successful parse reads 12 + vCount + hCount + hCount * vCount tokens, all of them present in the stream |
| IESFormatProperties.ScalarsIgnoreDiscarded | Editor/Parser/IESParser.cs:82-92 | tokens 4, 9 and 10 are read and dropped: replacing any of them leaves the scalars unchanged |
| IESFormatProperties.ScalarsFitTokens | Editor/Parser/IESParser.cs:75-97 | when the scalar fields parse, the stream holds all twelve of their tokens |
| IESFormatProperties.PhotometryFitsTokens | Editor/Parser/IESParser.cs:100-129 | when the three lists parse, the last token the block reads is present in the stream |
| IESFormatProperties.ParsedTokenIsListed | Editor/Parser/IESParser.cs:75 | a token that float.Parse accepts came from the stream, not from its end |
| IESFormatProperties.TokenCountCases | Editor/Parser/IESParser.cs:100-129 | the block's last token is the last intensity when both counts are positive; otherwise the intensity pass reads nothing |
| IESFormatProperties.FloatsAtFailureSticks | Editor/Parser/IESParser.cs:100-104 | once a prefix of a list fails, the whole list fails with that error |
| IESFormatProperties.RowsAtFailureSticks | Editor/Parser/IESParser.cs:118-129 | once a prefix of the rows fails, the whole pass fails with that error |
| IESFormatProperties.FloatsAtFirstFailure | Editor/Parser/IESParser.cs:100-104 | the first token that fails to parse decides the list's error |
| IESFormatProperties.RowsAtRowFailure | Editor/Parser/IESParser.cs:118-129 | the first failing row decides the intensity pass's error |
| IESFormatProperties.RowsAtFirstFailure | Editor/Parser/IESParser.cs:118-129 | the first failing intensity token, at row h and column v, decides the pass's error |
| IESFormatProperties.RowMaxBounds | Editor/Parser/IESParser.cs:120-128 | a row's running maximum is at least its start and every entry, and is the start or one of the entries |
| IESFormatProperties.GridMaxBounds | Editor/Parser/IESParser.cs:118-129 | the running maximum over all rows is at least its start and every entry, and is the start or one of the entries |
| IESFormatProperties.RunningMaxStep | Editor/Parser/IESParser.cs:122-125 | one more cell raises the running maximum to its scaled intensity exactly when that is strictly greater |
| IESFormatProperties.GridMaxStep | Editor/Parser/IESParser.cs:118-129 | one more row continues the running maximum over that row |
| IESFormatProperties.NextRowStart | Editor/Parser/IESParser.cs:118-129 | row h + 1 starts vCount tokens after row h, and no later than the end of the block |
| IESFormatProperties.DataMaxIntensity | Editor/Parser/IESParser.cs:118-129 | maxIntensity is max(0, the largest cell intensity): it is at least 0, bounds every cell, and is 0 or attained by some cell |
| IESFormatProperties.PhotometryMaxIntensity | Editor/Parser/IESParser.cs:118-129 | the same for a photometry assembled from the block's lists |
| IESFormatProperties.GridMaxIsMax | Editor/Parser/IESParser.cs:118-129 | the running maximum from 0 over a grid's intensities is max(0, its largest intensity) |
| IESParser.IESParser.constructor | Editor/Parser/IESParser.cs:39-48 | a new parser has no samples and a zero maximum |
| IESParser.IESParser.Read | Editor/Parser/IESParser.cs:23-26 | succeeds exactly when ParseSpec does; the fields then describe ParseSpec's document; otherwise the error is ParseSpec's |
| IESParser.IESParser.ParseHeader | Editor/Parser/IESParser.cs:50-71 | the version switch, then the header loop: the fields describe ParseSpec's document, or the error is ParseSpec's; the end of the stream leaves no samples |
| IESParser.IESParser.ParseData | Editor/Parser/IESParser.cs:73-130 | on success the fields and the array are the data block read from the cursor, and the cursor is after its last token; otherwise the error is DataSpec's |
| IESParser.IESParser.Store | Editor/Parser/IESParser.cs:28-43 | the fields and the sample array are those of the data block, and the version is unchanged |
| IESParser.IESParser.ReadBlock | Editor/Parser/IESParser.cs:99-129 | after the scalars, the array and the returned maximum are the data block's, and the cursor is after the block; or the error is the block's |
| IESParser.IESParser.ReadScalarFields | Editor/Parser/IESParser.cs:75-97 | reads tokens 0 to 11 in order with the two counts checked, exactly as ReadScalars, and leaves the cursor at token 12 |
| IESParser.IESParser.ReadAngles | Editor/Parser/IESParser.cs:100-104 | the vertical angle list is the n floats from token `start`, or the first failure among them |
| IESParser.IESParser.FillAngles | Editor/Parser/IESParser.cs:105-115 | cell [h, v] holds the h-th horizontal angle read, the v-th vertical angle and intensity 0; or the first failing horizontal token decides the error |
| IESParser.IESParser.FillRow | Editor/Parser/IESParser.cs:110-114 | row h gets the horizontal angle and the vertical angles; no other row changes |
| IESParser.IESParser.ReadIntensities | Editor/Parser/IESParser.cs:118-129 | after the pass every cell holds its angles and its token times the multiplier, maxIntensity is the running maximum from 0, and the cursor is after the last row; or the first failing token decides the error |
| IESParser.IESParser.IntensityRow | Editor/Parser/IESParser.cs:118-129 | one outer turn: the rows read, the array, the running maximum and the cursor move on by one row; a failing row fails the pass |
| IESParser.IESParser.ReadRow | Editor/Parser/IESParser.cs:120-128 | row h gets its scaled intensities, the other rows do not change, and the running maximum is continued over the row |
| IESParser.IESParser.ReadCell | Editor/Parser/IESParser.cs:122-127 | cell [h, v] keeps its angles and gets token k + v times the multiplier, the maximum is raised only by a strictly greater value, and no other cell changes |
| IESParser.IESParser.GetNextToken | Editor/Parser/IESParser.cs:132-152 | the token and the new cursor are NextToken of the old cursor |
| IESParser.IESParser.ReadFloat | Editor/Parser/IESParser.cs:75 | float.Parse of the next token: the float, or an error for the end of the stream or a rejected token; the cursor moves one token |
| IESParser.IESParser.ReadInt | Editor/Parser/IESParser.cs:77 | int.Parse of the next token, in the same way |
| IESParser.IESParser.SkipToken | Editor/Parser/IESParser.cs:83 | a discarded token moves the cursor by one token |
| IESParser.IntensityPassEnd | Editor/Parser/IESParser.cs:118-129 | after the last row the cursor is at the end of the block, and the array holds the grid of the angles and the scaled intensities |
| IESParser.SamplesReadIsGrid | Editor/Parser/IESParser.cs:105-129 | once every row is read, the array is the grid of the angles and the scaled intensities |
| IESFileImporter.Divide | Editor/IESFileImporter.cs:74 | float division: exact when the divisor is not 0; NaN for 0 / 0; otherwise an infinity with the dividend's sign |
| IESFileImporter.Pixel | Editor/IESFileImporter.cs:73-74 | the colour of a sample is (V, H, I / maxIntensity, 0), and the third channel times maxIntensity gives back the intensity when maxIntensity is not 0 |
| IESFileImporter.BufferIndex | Editor/IESFileImporter.cs:67-77 | the counter `i` when the inner loop reaches h in pass v (BufferIndexIsProduct: it is v * hCount + h) |
| IESFileImporter.BufferIndexIsProduct | Editor/IESFileImporter.cs:67-77 | the counter when the inner loop reaches h in pass v is v * hCount + h |
| IESFileImporter.Column | Editor/IESFileImporter.cs:71-76 | one pass of the outer loop writes one pixel per row |
| IESFileImporter.Packed | Editor/IESFileImporter.cs:67-77 | after n passes the buffer holds n * hCount pixels |
| IESFileImporter.ColumnAt | Editor/IESFileImporter.cs:71-76 | entry h of pass v is the pixel of cell [h, v] |
| IESFileImporter.BufferIndexBefore | Editor/IESFileImporter.cs:67-77 | cells of earlier passes come first in the buffer |
| IESFileImporter.PackedAt | Editor/IESFileImporter.cs:67-77 | buffer element v * hCount + h is (V, H, I / maxIntensity, 0) of cell [h, v] |
| IESFileImporter.PackedCovers | Editor/IESFileImporter.cs:67-77 | every buffer index is the position of some cell and holds that cell's pixel |
| IESFileImporter.BufferIndexInjective | Editor/IESFileImporter.cs:67-77 | no two cells share a buffer position, so each index is written once |
| IESFileImporter.PixelNormalized | Editor/IESFileImporter.cs:74 | with a positive maximum and 0 <= intensity <= maximum, the quotient lies in [0, 1] and is 1 exactly at the maximum |
| IESFileImporter.PackedNormalized | Editor/IESFileImporter.cs:67-77 | with a positive grid maximum and no negative intensity, every normalized component lies in [0, 1], and it is 1 at every cell attaining the maximum |
| IESFileImporter.AngleRangesAsWritten | Editor/IESFileImporter.cs:89-93 | the range vector as the importer builds it: (V of [0, 0], V of [0, vCount - 1], H of [0, 0], V of [hCount - 1, 0]) (AngleRangesAsWrittenRepeats states what it gives on a parsed grid) |
| IESFileImporter.AngleRanges | Editor/IESFileImporter.cs:89-93 | the corrected range vector, with the last horizontal angle in its fourth component (AngleRangesSpan: on a parsed grid it is (first V, last V, first H, last H)) |
| IESFileImporter.AngleRangesSpan | Editor/IESFileImporter.cs:89-93 | the corrected range vector of a parsed grid is (first V, last V, first H, last H) |
| IESFileImporter.AngleRangesAsWrittenRepeats | Editor/IESFileImporter.cs:89-93 | as written, the fourth component of a parsed grid's range vector is always its first vertical angle, equal to the first component |
| IESFileImporter.AngleRangesAsWrittenMissesLastHorizontal | Editor/IESFileImporter.cs:89-93 | on a 2 x 2 grid with horizontal angles 0 and 90 the vector as written ends in 0, and the corrected one in 90 |
| IESFileImporter.ParsedShaped | Editor/Parser/IESParser.cs:80 | a parsed data block is an hCount by vCount grid |
| IESFileImporter.SpotTexture | Editor/IESFileImporter.cs:62-93 | the spot path's result: an empty grid is an error, otherwise the packed buffer, the data size (hCount, vCount) and the range vector as written (SpotTextureLayout states its layout) |
| IESFileImporter.SpotTextureLayout | Editor/IESFileImporter.cs:64-93 | the spot cookie's buffer has hCount * vCount pixels, cell [h, v] at v * hCount + h, and the range vector is the one the importer builds |
| IESFileImporter.SpotTextureNormalized | Editor/IESFileImporter.cs:67-77 | when maxIntensity is the grid's maximum and positive, and no intensity is negative, the cookie's normalized intensities lie in [0, 1] |
| IESFileImporter.ImportSpec | Editor/IESFileImporter.cs:36-49 | the import: a parse error is an error; Point gives the empty cubemap of the configured size; any other cookie type takes the spot path, which fails when there is no data (ImportedPhotometry states what it works on) |
| IESFileImporter.ImportedPhotometry | Editor/IESFileImporter.cs:36-49 | after a parse with data, Spot packs that grid, whose maximum is its maxIntensity, and Point yields the empty cubemap without reading it |
| IESFileImporter.IESFileImporter.constructor | Editor/IESFileImporter.cs:30-34 | the cookie type is Point and the texture size 512 by default |
| IESFileImporter.IESFileImporter.OnImportAsset | Editor/IESFileImporter.cs:36-49 | the parse, then the cube path for Point and the spot path otherwise, exactly as ImportSpec |
| IESFileImporter.IESFileImporter.GenerateCubeTexture | Editor/IESFileImporter.cs:107-111 | an empty cubemap of the configured size; the data is not read |
| IESFileImporter.IESFileImporter.ReadIESFile | Editor/IESFileImporter.cs:113-117 | the parser over the file's text from its start: its document is ParseSpec's, or the error is ParseSpec's |
| IESFileImporter.IESFileImporter.GenerateSpotTexture | Editor/IESFileImporter.cs:62-93 | the packed buffer, the data size (hCount, vCount) and the range vector as the importer builds it, exactly as SpotTexture; no samples or an empty grid is an error |
| IESFileImporter.IESFileImporter.Pack | Editor/IESFileImporter.cs:64-77 | the buffer written by the nested loops is Packed of the grid, vertical-outer and horizontal-inner |
| IESFileImporter.IESFileImporter.PackPass | Editor/IESFileImporter.cs:71-76 | one outer pass appends the pixels of column v, rows 0 to hCount - 1, at the running counter |
| LinqExtensions.IndexOf | Editor/LinqExtensions.cs:7-21 | if the item occurs, the index of its first occurrence (in range, and every earlier element differs); otherwise defaultValue |
| LinqExtensions.IndexOfOrMinusOne | Editor/LinqExtensions.cs:7 | with the default left out, a missing item gives -1 |

## Left out

- Unity plumbing in GenerateSpotTexture is not modelled: the textures, the render texture, `SetPixelData`, the compute shader's `SetTexture`/`SetVector`/`Dispatch`, `ReadPixels` and the EXR/TGA file writes (Editor/IESFileImporter.cs:53-63, 78-88, 95-104). It is GPU and file I/O. The model returns the three values handed to the shader: the packed buffer, `DataSize` and the range vector as written (`AngleRangesAsWritten`).
- IESFileImporter.IESFileImporter.OnImportAsset: returns the texture it computes. The C# method assigns its texture to a local and drops it, and reaches the importer context only through Unity.
- IESFileImporter.IESFileImporter.ReadIESFile: `File.OpenText(assetPath)` is I/O. The file's text is a parameter, and the stream reader is an in-memory cursor over it.
- The resampling the compute shader performs, and a real cube projection, are not modelled. Neither exists in the source beyond the cube stub.
- IESParser.IESParser.Store: the parser sets all its fields at once after the data block has been read; the C# code sets each one as its token is read (Editor/Parser/IESParser.cs:75-97). Any failure throws out of the constructor, so no caller sees the partly set fields.
- Float semantics: `float` is modelled as `real`. IEEE rounding, `float.Parse` overflow and NaN or infinite inputs are not modelled. The one division of the core has its NaN and infinity results (`Divide`).
- `float.Parse` and `int.Parse` are modelled as the `Numerics` parameter, partial functions to `Option`. Their culture-specific number syntax is not modelled. `int` is unbounded, so the 32-bit range check of `int.Parse` belongs to that parameter.
- Tokenizer.IsWhiteSpace: covers only space, tab, "\n", "\v", "\f" and "\r", not every Unicode whitespace character that `char.IsWhiteSpace` accepts.
- Tokenizer.IsDigit: covers only '0' to '9', not every Unicode decimal digit that `char.IsDigit` accepts.
- `SampleData` and the `CookieType` enum are declared outside the core files. The model uses a `Sample` datatype with the three fields the code uses, and a two-value `CookieType`.
- The `Tooltips` strings and the `ScriptedImporter` attributes of the importer are not part of this model.
- LinqExtensions.IndexOf: works on a sequence, so `e.Equals(item)` is Dafny equality. A C# `Equals` override and the null receiver that throws are not modelled.
- Editor/IESFileImporterEditor.cs (the inspector UI) and Editor/ImportedIESData.cs (an unused property bag) are not part of this model.

## Findings

| source | as written | input that shows it | evidently intended | confidence | as-written member | corrected member |
|---|---|---|---|---|---|---|
| Editor/IESFileImporter.cs:89-93 | the fourth component of `AngleRanges` is `samples[hCount - 1, 0].VerticalAngle`, which is always the first vertical angle again | horizontal angles 0 and 90, vertical angles 0 and 90: the vector ends in 0 | `samples[hCount - 1, 0].HorizontalAngle`, the last horizontal angle, so that the vector is (min V, max V, min H, max H) | not executed | IESFileImporter.AngleRangesAsWrittenMissesLastHorizontal | IESFileImporter.AngleRanges |

The spot path (`GenerateSpotTexture`, `SpotTexture`) builds
`AngleRangesAsWritten`, the vector as the code builds it.
`AngleRanges` is the corrected vector, and `AngleRangesSpan` proves that it
spans the first and last angles of both lists.
