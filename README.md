# QR-code generator options and dispatch, in Dafny

This project models the part of the `QRCodeGenerator` class that the
package implements itself. The code builds its default options, merges the
caller's options over them, and maps the error-correction level and
round-block-size mode names to their values without regard to letter case,
with a fallback for unknown names. It advertises the supported names, checks
the data to encode, and picks an output writer (PNG, SVG, HTML, JPG) from a
format name. Saving writes the rendered bytes to a file. The QR matrix and
the image writers belong to an external library. They appear here as
parameters: a `Library` value holding `file_exists` and one writer per format.

Modules:

- `Wrappers`: `Option` and `Result`.
- `PhpStrings`: byte strings, `empty()` of a string, `strtolower` / `strtoupper` (which fold ASCII letters only), and PHP's integer-to-decimal-string conversion with its read-back.
- `PhpOptions`: option values (`int`, string, RGB list, `null`), PHP's `empty()`, reads of a missing key as null, coercion to a `string` parameter, and `array_merge` on string-keyed arrays.
- `QRCode`: the defaults, the two lookups, the advertised tables, `isValidData`, format dispatch, `createQRCode`, the `QRCodeGenerator` class with `Generate` and `Save`, and a `FileSystem` class standing for the target of `file_put_contents`.

The data to encode is a byte sequence, because `strlen` counts bytes.
Option values and format names are character strings, because they are
only compared with ASCII names.

## Model

| member | source | states |
|---|---|---|
| `PhpStrings.ToLower` | src/QRCodeGenerator.php:175 | the lower-cased name has the same length, and each character is the input's with only `A`-`Z` folded |
| `PhpStrings.ToUpper` | src/QRCodeGenerator.php:117 | the upper-cased format has the same length, and each character is the input's with only `a`-`z` folded |
| `PhpStrings.IntToString` | src/QRCodeGenerator.php:158-159 | an integer passed as a level or mode becomes its decimal form: digits after a `-` exactly for negative numbers, no leading zero except for `0` itself, and it reads back as the same integer |
| `PhpOptions.CoerceToString` | src/QRCodeGenerator.php:173 | a string option reaches the `string` parameter unchanged, an integer as its decimal form (which reads back as that integer), and null or a list is refused |
| `PhpOptions.IsEmpty` | src/QRCodeGenerator.php:162 | `empty()` holds of exactly null, `0`, `""` and `"0"`, never of a colour list |
| `PhpOptions.Merge` | src/QRCodeGenerator.php:44 | the merged options hold every default key and every caller key; caller keys take the caller's value, omitted keys keep the default |
| `PhpOptions.MergeNothing` | src/QRCodeGenerator.php:44 | merging no caller options gives exactly the defaults |
| `QRCode.DefaultOptions` | src/QRCodeGenerator.php:26-36 | the defaults have the nine keys with size 300, margin 10, black on white, level `medium`, mode `margin`, no logo path, logo size 100, position `center` |
| `QRCode.DefaultKeyCount` | src/QRCodeGenerator.php:26-36 | the defaults have exactly nine distinct keys |
| `QRCode.MergedOptionsHaveDefaultKeys` | src/QRCodeGenerator.php:26-44 | for any caller options the merge contains all nine default keys, and each omitted one keeps its default value |
| `QRCode.GetErrorCorrectionLevel` | src/QRCodeGenerator.php:173-187 | the level returned is the one whose name is the lower-cased input, or Medium when the lower-cased input names no level |
| `QRCode.LevelIgnoresCase` | src/QRCodeGenerator.php:175-183 | `low`, `medium`, `high`, `quartile` in any mix of letter cases select Low, Medium, High, Quartile |
| `QRCode.LevelFallback` | src/QRCodeGenerator.php:184-185 | a string that spells none of the four names, in any case, selects Medium |
| `QRCode.LevelSelectedOnlyByName` | src/QRCodeGenerator.php:175-185 | Low, High and Quartile are selected if and only if the string spells that level's name in some letter case |
| `QRCode.IntegerLevelIsMedium` | src/QRCodeGenerator.php:158 | an integer level option, coerced to its decimal string, always selects Medium |
| `QRCode.LevelNameRoundTrip` | src/QRCodeGenerator.php:175-183 | looking up a level's own name gives that level back |
| `QRCode.ModeNameRoundTrip` | src/QRCodeGenerator.php:194-200 | looking up a mode's own name gives that mode back |
| `QRCode.GetRoundBlockSizeMode` | src/QRCodeGenerator.php:192-204 | the mode returned is the one whose name is the lower-cased input, or Margin when the lower-cased input names no mode |
| `QRCode.ModeIgnoresCase` | src/QRCodeGenerator.php:194-200 | `margin`, `enlarge`, `shrink` in any mix of letter cases select Margin, Enlarge, Shrink |
| `QRCode.ModeFallback` | src/QRCodeGenerator.php:201-202 | a string that spells none of the three names, in any case, selects Margin |
| `QRCode.ModeSelectedOnlyByName` | src/QRCodeGenerator.php:194-203 | Enlarge and Shrink are selected if and only if the string spells that mode's name in some letter case |
| `QRCode.IntegerModeIsMargin` | src/QRCodeGenerator.php:159 | an integer mode option, coerced to its decimal string, always selects Margin |
| `QRCode.SupportedErrorCorrectionLevels` | src/QRCodeGenerator.php:209-217 | four levels are advertised, each under a key already in lower case |
| `QRCode.SupportedRoundBlockSizeModes` | src/QRCodeGenerator.php:222-229 | three modes are advertised, each under a key already in lower case |
| `QRCode.AdvertisedLevelsAgree` | src/QRCodeGenerator.php:209-216 | every advertised level key selects the level it names, the four keys select four distinct levels, and every level is advertised |
| `QRCode.AdvertisedModesAgree` | src/QRCodeGenerator.php:222-228 | every advertised mode key selects the mode it names, the three keys select three distinct modes, and every mode is advertised |
| `QRCode.IsValidData` | src/QRCodeGenerator.php:236 | data is valid exactly when it is neither `""` nor `"0"` and has at most 2953 bytes |
| `QRCode.AdvertisedLabelsSwapHighAndQuartile` | src/QRCodeGenerator.php:211-216 | the labels of Low and Medium state their recovery rate, while High is labelled 25% and Quartile 30%, each other's rate |
| `QRCode.CorrectedErrorCorrectionLevels` | src/QRCodeGenerator.php:211-216 | the corrected table has the advertised table's keys in the same order |
| `QRCode.CorrectedLabelsMatchLevels` | src/QRCodeGenerator.php:211-216 | every corrected label states the recovery rate of the level its key selects |
| `QRCode.ValidDataIsNonEmptyOption` | src/QRCodeGenerator.php:236 | the data check is `!empty()` of the same string, as an option value would be judged, plus the 2953-byte limit |
| `QRCode.SelectFormat` | src/QRCodeGenerator.php:117-132 | a selected format is one whose name is the upper-cased input; a refusal carries the format as given and happens only when the upper-cased input names no format |
| `QRCode.SelectFormatIgnoresCase` | src/QRCodeGenerator.php:117-129 | a format selects PNG, SVG, HTML or JPG exactly when its upper-case form is that name |
| `QRCode.SelectFormatRejects` | src/QRCodeGenerator.php:130-131 | a format that spells none of the four names is refused with `UnsupportedFormat` carrying the format as given |
| `QRCode.LogoOption` | src/QRCodeGenerator.php:162-165 | a logo is set exactly when `logo_path` is not PHP-empty and names an existing file; its width and height are `logo_size`; only a list path is an error |
| `QRCode.CreateQrCode` | src/QRCodeGenerator.php:143-168 | building succeeds exactly when both colours are lists, level and mode are strings or integers, and the logo path is not a list; the code then carries the data, size, margin, colours, looked-up level and mode, and the logo condition's result; a failure names the first offending key in the order foreground colour, background colour, level, mode, logo path |
| `QRCode.DefaultQrCode` | src/QRCodeGenerator.php:145-167 | with no caller options the configured code is 300 wide, margin 10, black on white, Medium, Margin, without logo |
| `QRCode.CallerLevelWins` | src/QRCodeGenerator.php:158 | a level string the caller passes decides the configured level |
| `QRCode.CallerModeWins` | src/QRCodeGenerator.php:159 | a mode string the caller passes decides the configured mode |
| `QRCode.CallerGeometryAndColorsWin` | src/QRCodeGenerator.php:146-157 | size, margin and colours the caller passes reach the code unchanged, and a caller colour that is not a list makes the build fail |
| `QRCode.OmittedLevelIsMedium` | src/QRCodeGenerator.php:158 | a caller who passes no level gets Medium |
| `QRCode.OmittedModeIsMargin` | src/QRCodeGenerator.php:159 | a caller who passes no mode gets Margin |
| `QRCode.QRCodeGenerator.Generate` | src/QRCodeGenerator.php:42-109 | the caller's options are merged over the generator's defaults; a failed build returns its error, a failed writer `WriterFailed`, and otherwise the writer's bytes unchanged |
| `QRCode.NewGeneratorUsesDefaults` | src/QRCodeGenerator.php:42-55 | a new generator with no options hands the writer the default code and returns the writer's bytes unchanged, or an error if the writer fails |
| `QRCode.QRCodeGenerator.constructor` | src/QRCodeGenerator.php:24-36 | a new generator's default options are the nine defaults |
| `QRCode.FileSystem.PutContents` | src/QRCodeGenerator.php:134 | a write succeeds exactly when the path is writable and then replaces that file's content; otherwise nothing changes |
| `QRCode.QRCodeGenerator.Save` | src/QRCodeGenerator.php:114-138 | an unsupported format or a failed generation returns its error and leaves every file untouched; otherwise the generated bytes are written to the path and the result says whether the write succeeded |

## Left out

- `src/BarcodeGenerator.php`: a fixed style array passed to TCPDF's 1-D barcode writer, plus PDF page and output calls. No encoding happens in this package.
- `create_banner.php`: GD image drawing with a floating-point colour gradient, written to a PNG file.
- QR matrix construction, error-correction coding and the four writers are library code. They are the `write` function of `Library`, and any of them may fail.
- `file_exists` is the `fileExists` function of `Library`. It is independent of `FileSystem`, so the model cannot state that a file `save` wrote is then found as a logo. `file_put_contents` is `FileSystem.PutContents`; a failed write is modelled only as a path in `unwritable`.
- The exception messages built at lines 53, 71, 89, 107, 131 and 136 are not modelled. An error carries only its kind and the format or option key involved. PHP's `Exception` and `TypeError` are the same `Failure` here.
- `QRCodeGenerator.Generate` is one function, parameterised by the format, for the four `generate*` methods. They differ only in the writer they call and the text of their error message.
- Option values are integers, strings, three-integer RGB lists and null. Floats, booleans and other arrays are not modelled.
- `CreateQrCode` accepts a colour option only as an RGB list. PHP would also read the first three characters of a string through `[0]`, `[1]`, `[2]`, and coerce them when they are digits.
- `size`, `margin` and `logo_size` are passed to the library as given. Whether the library accepts their type is the library's concern.
- `Merge` handles string keys only. `array_merge` renumbers integer keys, and the options never use them.
- `ToLower` and `ToUpper` fold ASCII letters only. This is PHP 8.2 behaviour; older versions depended on the locale.
- `logo_position` is a default key that nothing reads. The model keeps it in the defaults and nowhere else.
- `isValidData` is not called by `generate*` or `save`, and the model does not call `IsValidData` there either.

## Findings

| source | as written | input that shows it | evidently intended | confidence | as-written member | corrected member |
|---|---|---|---|---|---|---|
| src/QRCodeGenerator.php:214-215 | `'high' => 'High (25%)'`, `'quartile' => 'Quartile (30%)'` | `getSupportedErrorCorrectionLevels()`, entries `high` and `quartile` | the recovery rates of ISO/IEC 18004: Quartile 25%, High 30%, so `High (30%)` and `Quartile (25%)` | medium, from reading the text; not executed | `QRCode.AdvertisedLabelsSwapHighAndQuartile` | `QRCode.CorrectedLabelsMatchLevels` |

`SupportedErrorCorrectionLevels` keeps the labels as written, because it models the method. `CorrectedErrorCorrectionLevels` has the same keys in the same order, so `AdvertisedLevelsAgree` describes its keys too. Nothing else in the model reads the labels.

