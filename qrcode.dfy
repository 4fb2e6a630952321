/**
 * The option handling and dispatch of the QR-code generator: default
 * options, the two case-insensitive lookup tables, the advertised option
 * lists, the data check, the choice of output writer by format name, the
 * assembly of the QR-code description handed to the rendering library,
 * and saving the rendered bytes to a file.
 */
module QRCode {
  import opened Wrappers
  import opened PhpStrings
  import opened PhpOptions

  datatype ErrorCorrectionLevel = Low | Medium | High | Quartile

  datatype RoundBlockSizeMode = Margin | Enlarge | Shrink

  datatype Format = Png | Svg | Html | Jpg

  datatype Error =
    | UnsupportedFormat(format: string)
    | InvalidOption(key: string)
    | WriterFailed(writer: Format)

  datatype Color = Color(red: int, green: int, blue: int)

  datatype Logo = Logo(path: OptVal, width: OptVal, height: OptVal)

  /** What the renderer receives: the configured QR code. */
  datatype QrCode = QrCode(
    data: Bytes,
    size: OptVal,
    margin: OptVal,
    foreground: Color,
    background: Color,
    level: ErrorCorrectionLevel,
    mode: RoundBlockSizeMode,
    logo: Option<Logo>)

  /**
   * The code this package calls but does not contain: `file_exists`, and
   * the rendering library's writer for each format, which may fail.
   */
  datatype Library = Library(fileExists: string -> bool, write: (Format, QrCode) -> Option<Bytes>)

  // ---------------------------------------------------------------- defaults

  function DefaultKeys(): set<string> {
    {"size", "margin", "foreground_color", "background_color", "error_correction_level",
     "round_block_size_mode", "logo_path", "logo_size", "logo_position"}
  }

  /** The options every generator starts from. */
  function DefaultOptions(): (d: Options)
    ensures d.Keys == DefaultKeys()
    ensures d["size"] == IntVal(300) && d["margin"] == IntVal(10)
    ensures d["foreground_color"] == Rgb(0, 0, 0) && d["background_color"] == Rgb(255, 255, 255)
    ensures d["error_correction_level"] == StrVal("medium")
    ensures d["round_block_size_mode"] == StrVal("margin")
    ensures d["logo_path"] == Null && d["logo_size"] == IntVal(100)
    ensures d["logo_position"] == StrVal("center")
  {
    map[
      "size" := IntVal(300),
      "margin" := IntVal(10),
      "foreground_color" := Rgb(0, 0, 0),
      "background_color" := Rgb(255, 255, 255),
      "error_correction_level" := StrVal("medium"),
      "round_block_size_mode" := StrVal("margin"),
      "logo_path" := Null,
      "logo_size" := IntVal(100),
      "logo_position" := StrVal("center")
    ]
  }

  /** The nine default keys are distinct. */
  lemma DefaultKeyCount()
    ensures |DefaultOptions()| == 9
  {
  }

  /** Whatever the caller passes, the merged options keep every default key. */
  lemma MergedOptionsHaveDefaultKeys(opts: Options)
    ensures DefaultKeys() <= Merge(DefaultOptions(), opts).Keys
    ensures forall k :: k in DefaultKeys() && k !in opts ==> Merge(DefaultOptions(), opts)[k] == DefaultOptions()[k]
  {
  }

  // ------------------------------------------------- error-correction level

  function LevelName(l: ErrorCorrectionLevel): string {
    match l
    case Low => "low"
    case Medium => "medium"
    case High => "high"
    case Quartile => "quartile"
  }

  /** `getErrorCorrectionLevel`: case-insensitive lookup, unknown names give Medium. */
  function GetErrorCorrectionLevel(level: string): (r: ErrorCorrectionLevel)
    ensures ToLower(level) == LevelName(r) || (r == Medium && forall l :: ToLower(level) != LevelName(l))
  {
    var l := ToLower(level);
    if l == "low" then Low
    else if l == "medium" then Medium
    else if l == "high" then High
    else if l == "quartile" then Quartile
    else Medium
  }

  lemma LevelNameIsLower(l: ErrorCorrectionLevel)
    ensures ToLower(LevelName(l)) == LevelName(l)
  {
    ToLowerOfLower(LevelName(l));
  }

  /** Each level's name, in any mix of letter cases, selects that level. */
  lemma LevelIgnoresCase(s: string, l: ErrorCorrectionLevel)
    requires SameIgnoringCase(s, LevelName(l))
    ensures GetErrorCorrectionLevel(s) == l
  {
    ToLowerEqualIff(s, LevelName(l));
    LevelNameIsLower(l);
  }

  /** A string that names no level, in any case, falls back to Medium. */
  lemma LevelFallback(s: string)
    requires forall l :: !SameIgnoringCase(s, LevelName(l))
    ensures GetErrorCorrectionLevel(s) == Medium
  {
    forall l | true ensures ToLower(s) != LevelName(l) {
      ToLowerEqualIff(s, LevelName(l));
      LevelNameIsLower(l);
    }
    assert ToLower(s) != LevelName(Low) && ToLower(s) != LevelName(High) && ToLower(s) != LevelName(Quartile);
  }

  /** Low, High and Quartile are selected by their own name and nothing else. */
  lemma LevelSelectedOnlyByName(s: string, l: ErrorCorrectionLevel)
    requires l != Medium
    ensures GetErrorCorrectionLevel(s) == l <==> SameIgnoringCase(s, LevelName(l))
  {
    LevelNameIsLower(l);
    ToLowerEqualIff(s, LevelName(l));
  }

  /** An integer option value, read as its decimal string, names no level. */
  lemma IntegerLevelIsMedium(n: int)
    ensures GetErrorCorrectionLevel(IntToString(n)) == Medium
  {
    IntToStringHasNoLetters(n);
  }

  // ------------------------------------------------- round block size mode

  function ModeName(m: RoundBlockSizeMode): string {
    match m
    case Margin => "margin"
    case Enlarge => "enlarge"
    case Shrink => "shrink"
  }

  /** `getRoundBlockSizeMode`: case-insensitive lookup, unknown names give Margin. */
  function GetRoundBlockSizeMode(mode: string): (r: RoundBlockSizeMode)
    ensures ToLower(mode) == ModeName(r) || (r == Margin && forall m :: ToLower(mode) != ModeName(m))
  {
    var m := ToLower(mode);
    if m == "margin" then Margin
    else if m == "enlarge" then Enlarge
    else if m == "shrink" then Shrink
    else Margin
  }

  lemma ModeNameIsLower(m: RoundBlockSizeMode)
    ensures ToLower(ModeName(m)) == ModeName(m)
  {
    ToLowerOfLower(ModeName(m));
  }

  /** Each mode's name, in any mix of letter cases, selects that mode. */
  lemma ModeIgnoresCase(s: string, m: RoundBlockSizeMode)
    requires SameIgnoringCase(s, ModeName(m))
    ensures GetRoundBlockSizeMode(s) == m
  {
    ToLowerEqualIff(s, ModeName(m));
    ModeNameIsLower(m);
  }

  /** A string that names no mode, in any case, falls back to Margin. */
  lemma ModeFallback(s: string)
    requires forall m :: !SameIgnoringCase(s, ModeName(m))
    ensures GetRoundBlockSizeMode(s) == Margin
  {
    forall m | true ensures ToLower(s) != ModeName(m) {
      ToLowerEqualIff(s, ModeName(m));
      ModeNameIsLower(m);
    }
    assert ToLower(s) != ModeName(Enlarge) && ToLower(s) != ModeName(Shrink);
  }

  /** Enlarge and Shrink are selected by their own name and nothing else. */
  lemma ModeSelectedOnlyByName(s: string, m: RoundBlockSizeMode)
    requires m != Margin
    ensures GetRoundBlockSizeMode(s) == m <==> SameIgnoringCase(s, ModeName(m))
  {
    ModeNameIsLower(m);
    ToLowerEqualIff(s, ModeName(m));
  }

  /** An integer option value, read as its decimal string, names no mode. */
  lemma IntegerModeIsMargin(n: int)
    ensures GetRoundBlockSizeMode(IntToString(n)) == Margin
  {
    IntToStringHasNoLetters(n);
  }

  // ------------------------------------------------------ advertised tables

  /** `getSupportedErrorCorrectionLevels`, in its listed order. */
  function SupportedErrorCorrectionLevels(): (t: seq<(string, string)>)
    ensures |t| == 4
    ensures forall i :: 0 <= i < |t| ==> ToLower(t[i].0) == t[i].0
  {
    [("low", "Low (7%)"), ("medium", "Medium (15%)"), ("high", "High (25%)"), ("quartile", "Quartile (30%)")]
  }

  /** `getSupportedRoundBlockSizeModes`, in its listed order. */
  function SupportedRoundBlockSizeModes(): (t: seq<(string, string)>)
    ensures |t| == 3
    ensures forall i :: 0 <= i < |t| ==> ToLower(t[i].0) == t[i].0
  {
    [("margin", "Margin"), ("enlarge", "Enlarge"), ("shrink", "Shrink")]
  }

  /** Looking up a level's own name gives that level back. */
  lemma LevelNameRoundTrip(l: ErrorCorrectionLevel)
    ensures GetErrorCorrectionLevel(LevelName(l)) == l
  {
    LevelNameIsLower(l);
  }

  /** Looking up a mode's own name gives that mode back. */
  lemma ModeNameRoundTrip(m: RoundBlockSizeMode)
    ensures GetRoundBlockSizeMode(ModeName(m)) == m
  {
    ModeNameIsLower(m);
  }

  /**
   * Every advertised level key selects the level it names, no two keys
   * select the same level, and every level's name is advertised.
   */
  lemma AdvertisedLevelsAgree()
    ensures var t := SupportedErrorCorrectionLevels();
      && (forall i :: 0 <= i < |t| ==> LevelName(GetErrorCorrectionLevel(t[i].0)) == t[i].0)
      && (forall i, j :: 0 <= i < j < |t| ==> GetErrorCorrectionLevel(t[i].0) != GetErrorCorrectionLevel(t[j].0))
      && (forall l :: exists i :: 0 <= i < |t| && t[i].0 == LevelName(l))
  {
    var t := SupportedErrorCorrectionLevels();
    var levels := [Low, Medium, High, Quartile];
    forall i | 0 <= i < |t|
      ensures t[i].0 == LevelName(levels[i]) && GetErrorCorrectionLevel(t[i].0) == levels[i]
    {
      LevelNameRoundTrip(levels[i]);
    }
    assert t[0].0 == LevelName(Low) && t[1].0 == LevelName(Medium) && t[2].0 == LevelName(High)
      && t[3].0 == LevelName(Quartile);
  }

  /**
   * Every advertised mode key selects the mode it names, no two keys
   * select the same mode, and every mode's name is advertised.
   */
  lemma AdvertisedModesAgree()
    ensures var t := SupportedRoundBlockSizeModes();
      && (forall i :: 0 <= i < |t| ==> ModeName(GetRoundBlockSizeMode(t[i].0)) == t[i].0)
      && (forall i, j :: 0 <= i < j < |t| ==> GetRoundBlockSizeMode(t[i].0) != GetRoundBlockSizeMode(t[j].0))
      && (forall m :: exists i :: 0 <= i < |t| && t[i].0 == ModeName(m))
  {
    var t := SupportedRoundBlockSizeModes();
    var modes := [Margin, Enlarge, Shrink];
    forall i | 0 <= i < |t|
      ensures t[i].0 == ModeName(modes[i]) && GetRoundBlockSizeMode(t[i].0) == modes[i]
    {
      ModeNameRoundTrip(modes[i]);
    }
    assert t[0].0 == ModeName(Margin) && t[1].0 == ModeName(Enlarge) && t[2].0 == ModeName(Shrink);
  }

  /**
   * The share of damaged codewords each level can recover, as the QR code
   * standard (ISO/IEC 18004) gives it: 7, 15, 25 and 30 percent for L, M, Q
   * and H.
   */
  function RecoveryPercent(l: ErrorCorrectionLevel): nat {
    match l
    case Low => 7
    case Medium => 15
    case Quartile => 25
    case High => 30
  }

  function DisplayName(l: ErrorCorrectionLevel): string {
    match l
    case Low => "Low"
    case Medium => "Medium"
    case High => "High"
    case Quartile => "Quartile"
  }

  /** The label a level's recovery rate calls for, in the advertised table's layout. */
  function LevelLabel(l: ErrorCorrectionLevel): string {
    DisplayName(l) + " (" + IntToString(RecoveryPercent(l)) + "%)"
  }

  /** The label each level's recovery rate calls for, written out. */
  lemma LevelLabelsSpelled()
    ensures LevelLabel(Low) == "Low (7%)" && LevelLabel(Medium) == "Medium (15%)"
    ensures LevelLabel(High) == "High (30%)" && LevelLabel(Quartile) == "Quartile (25%)"
  {
    assert IntToString(7) == "7";
    assert IntToString(15) == "15";
    assert IntToString(25) == "25";
    assert IntToString(30) == "30";
  }

  /**
   * The advertised labels of High and Quartile carry each other's recovery
   * rate, while those of Low and Medium are right.
   */
  lemma AdvertisedLabelsSwapHighAndQuartile()
    ensures var t := SupportedErrorCorrectionLevels();
      && t[0].1 == LevelLabel(Low) && t[1].1 == LevelLabel(Medium)
      && t[2].1 != LevelLabel(High) && t[3].1 != LevelLabel(Quartile)
      && t[2].1 == "High (25%)" && t[3].1 == "Quartile (30%)"
  {
    LevelLabelsSpelled();
    var t := SupportedErrorCorrectionLevels();
    assert t[2].1[6] != LevelLabel(High)[6];
    assert t[3].1[10] != LevelLabel(Quartile)[10];
  }

  /** The advertised levels with each label stating that level's own recovery rate. */
  function CorrectedErrorCorrectionLevels(): (t: seq<(string, string)>)
    ensures |t| == |SupportedErrorCorrectionLevels()|
    ensures forall i :: 0 <= i < |t| ==> t[i].0 == SupportedErrorCorrectionLevels()[i].0
  {
    [("low", LevelLabel(Low)), ("medium", LevelLabel(Medium)),
     ("high", LevelLabel(High)), ("quartile", LevelLabel(Quartile))]
  }

  /** Every corrected label states the recovery rate of the level its key selects. */
  lemma CorrectedLabelsMatchLevels()
    ensures var t := CorrectedErrorCorrectionLevels();
      forall i :: 0 <= i < |t| ==> t[i].1 == LevelLabel(GetErrorCorrectionLevel(t[i].0))
  {
    AdvertisedLevelsAgree();
    var t := CorrectedErrorCorrectionLevels();
    LevelNameRoundTrip(Low);
    LevelNameRoundTrip(Medium);
    LevelNameRoundTrip(High);
    LevelNameRoundTrip(Quartile);
    assert t[0].0 == LevelName(Low) && t[1].0 == LevelName(Medium) && t[2].0 == LevelName(High)
      && t[3].0 == LevelName(Quartile);
  }

  // ------------------------------------------------------------ data check

  /** The largest payload, in bytes, a QR code can hold. */
  const MaxDataLength := 2953

  /** `isValidData`: not PHP-empty and at most 2953 bytes. */
  function IsValidData(data: Bytes): (ok: bool)
    ensures ok <==> data != [] && data != ['0' as int] && |data| <= 2953
  {
    assert ByteChars(data) == "0" <==> data == ['0' as int] by {
      if ByteChars(data) == "0" {
        assert data[0] == ByteChars(data)[0] as int;
      }
    }
    !IsEmptyString(ByteChars(data)) && |data| <= MaxDataLength
  }

  /** The data check is PHP's `empty()` of the same string, with the 2953-byte limit. */
  lemma ValidDataIsNonEmptyOption(data: Bytes)
    ensures IsValidData(data) <==> !IsEmpty(StrVal(ByteChars(data))) && |data| <= 2953
  {
  }

  // ------------------------------------------------------- format dispatch

  function FormatName(f: Format): string {
    match f
    case Png => "PNG"
    case Svg => "SVG"
    case Html => "HTML"
    case Jpg => "JPG"
  }

  /** The `switch (strtoupper($format))` of `save`. */
  function SelectFormat(format: string): (r: Result<Format, Error>)
    ensures r.Success? ==> ToUpper(format) == FormatName(r.value)
    ensures r.Failure? ==> r.error == UnsupportedFormat(format) && forall f :: ToUpper(format) != FormatName(f)
  {
    var f := ToUpper(format);
    if f == "PNG" then Success(Png)
    else if f == "SVG" then Success(Svg)
    else if f == "HTML" then Success(Html)
    else if f == "JPG" then Success(Jpg)
    else Failure(UnsupportedFormat(format))
  }

  lemma FormatNameIsUpper(f: Format)
    ensures ToUpper(FormatName(f)) == FormatName(f)
  {
    ToUpperOfUpper(FormatName(f));
  }

  /** A format is selected exactly when the name is spelled, in any case. */
  lemma SelectFormatIgnoresCase(format: string, f: Format)
    ensures SelectFormat(format) == Success(f) <==> SameIgnoringCase(format, FormatName(f))
  {
    ToUpperEqualIff(format, FormatName(f));
    FormatNameIsUpper(f);
    assert SelectFormat(format) == Success(f) <==> ToUpper(format) == FormatName(f);
  }

  /** A name that spells no format, in any case, is refused with that name. */
  lemma SelectFormatRejects(format: string)
    ensures SelectFormat(format).Failure? <==> forall f :: !SameIgnoringCase(format, FormatName(f))
    ensures SelectFormat(format).Failure? ==> SelectFormat(format).error == UnsupportedFormat(format)
  {
    SelectFormatIgnoresCase(format, Png);
    SelectFormatIgnoresCase(format, Svg);
    SelectFormatIgnoresCase(format, Html);
    SelectFormatIgnoresCase(format, Jpg);
  }

  // ------------------------------------------------------ building the code

  function ColorOption(o: Options, key: string): Result<Color, Error> {
    match Get(o, key)
    case Rgb(r, g, b) => Success(Color(r, g, b))
    case _ => Failure(InvalidOption(key))
  }

  function StringOption(o: Options, key: string): Result<string, Error> {
    match CoerceToString(Get(o, key))
    case Some(s) => Success(s)
    case None => Failure(InvalidOption(key))
  }

  /**
   * The logo condition: a logo is set when `logo_path` is not PHP-empty and
   * names an existing file; it then gets `logo_size` as width and height.
   */
  function LogoOption(o: Options, fileExists: string -> bool): (r: Result<Option<Logo>, Error>)
    ensures var path := Get(o, "logo_path");
      r.Failure? <==> path.Rgb?
    ensures var path := Get(o, "logo_path");
      r.Success? ==> (r.value.Some? <==> !IsEmpty(path) && fileExists(CoerceToString(path).value))
    ensures r.Success? && r.value.Some? ==>
      r.value.value == Logo(Get(o, "logo_path"), Get(o, "logo_size"), Get(o, "logo_size"))
  {
    var path := Get(o, "logo_path");
    if IsEmpty(path) then Success(None)
    else match CoerceToString(path)
      case None => Failure(InvalidOption("logo_path"))
      case Some(p) =>
        if fileExists(p) then Success(Some(Logo(path, Get(o, "logo_size"), Get(o, "logo_size"))))
        else Success(None)
  }

  /** `createQRCode`: the QR code configured from already merged options. */
  function CreateQrCode(data: Bytes, o: Options, fileExists: string -> bool): (r: Result<QrCode, Error>)
    ensures r.Success? <==>
      && Get(o, "foreground_color").Rgb? && Get(o, "background_color").Rgb?
      && CoerceToString(Get(o, "error_correction_level")).Some?
      && CoerceToString(Get(o, "round_block_size_mode")).Some?
      && !Get(o, "logo_path").Rgb?
    ensures r.Failure? ==> r.error.InvalidOption?
    ensures !Get(o, "foreground_color").Rgb? ==> r == Failure(InvalidOption("foreground_color"))
    ensures (Get(o, "foreground_color").Rgb? && !Get(o, "background_color").Rgb?) ==>
      r == Failure(InvalidOption("background_color"))
    ensures (&& Get(o, "foreground_color").Rgb? && Get(o, "background_color").Rgb?
             && CoerceToString(Get(o, "error_correction_level")).None?) ==>
      r == Failure(InvalidOption("error_correction_level"))
    ensures (&& Get(o, "foreground_color").Rgb? && Get(o, "background_color").Rgb?
             && CoerceToString(Get(o, "error_correction_level")).Some?
             && CoerceToString(Get(o, "round_block_size_mode")).None?) ==>
      r == Failure(InvalidOption("round_block_size_mode"))
    ensures (&& Get(o, "foreground_color").Rgb? && Get(o, "background_color").Rgb?
             && CoerceToString(Get(o, "error_correction_level")).Some?
             && CoerceToString(Get(o, "round_block_size_mode")).Some?
             && Get(o, "logo_path").Rgb?) ==>
      r == Failure(InvalidOption("logo_path"))
    ensures r.Success? ==>
      var fg, bg := Get(o, "foreground_color"), Get(o, "background_color");
      && r.value.data == data
      && r.value.size == Get(o, "size")
      && r.value.margin == Get(o, "margin")
      && r.value.foreground == Color(fg.red, fg.green, fg.blue)
      && r.value.background == Color(bg.red, bg.green, bg.blue)
      && r.value.level == GetErrorCorrectionLevel(CoerceToString(Get(o, "error_correction_level")).value)
      && r.value.mode == GetRoundBlockSizeMode(CoerceToString(Get(o, "round_block_size_mode")).value)
      && r.value.logo == LogoOption(o, fileExists).value
  {
    var fg :- ColorOption(o, "foreground_color");
    var bg :- ColorOption(o, "background_color");
    var level :- StringOption(o, "error_correction_level");
    var mode :- StringOption(o, "round_block_size_mode");
    var logo :- LogoOption(o, fileExists);
    Success(QrCode(data, Get(o, "size"), Get(o, "margin"), fg, bg,
                   GetErrorCorrectionLevel(level), GetRoundBlockSizeMode(mode), logo))
  }

  /** With no caller options the code is 300 wide, margin 10, black on white, Medium, Margin, no logo. */
  lemma DefaultQrCode(data: Bytes, fileExists: string -> bool)
    ensures CreateQrCode(data, Merge(DefaultOptions(), map[]), fileExists)
      == Success(QrCode(data, IntVal(300), IntVal(10), Color(0, 0, 0), Color(255, 255, 255), Medium, Margin, None))
  {
    LevelNameIsLower(Medium);
    ModeNameIsLower(Margin);
    assert GetErrorCorrectionLevel("medium") == Medium;
    assert GetRoundBlockSizeMode("margin") == Margin;
  }

  /** A level the caller passes as a string decides the code's level. */
  lemma CallerLevelWins(data: Bytes, opts: Options, fileExists: string -> bool, s: string)
    requires "error_correction_level" in opts && opts["error_correction_level"] == StrVal(s)
    ensures var r := CreateQrCode(data, Merge(DefaultOptions(), opts), fileExists);
      r.Success? ==> r.value.level == GetErrorCorrectionLevel(s)
  {
  }

  /** A mode the caller passes as a string decides the code's mode. */
  lemma CallerModeWins(data: Bytes, opts: Options, fileExists: string -> bool, s: string)
    requires "round_block_size_mode" in opts && opts["round_block_size_mode"] == StrVal(s)
    ensures var r := CreateQrCode(data, Merge(DefaultOptions(), opts), fileExists);
      r.Success? ==> r.value.mode == GetRoundBlockSizeMode(s)
  {
  }

  /**
   * Size, margin and colours the caller passes reach the code unchanged;
   * a colour that is not a list makes the build fail.
   */
  lemma CallerGeometryAndColorsWin(data: Bytes, opts: Options, fileExists: string -> bool)
    ensures var r := CreateQrCode(data, Merge(DefaultOptions(), opts), fileExists);
      && ("size" in opts && r.Success? ==> r.value.size == opts["size"])
      && ("margin" in opts && r.Success? ==> r.value.margin == opts["margin"])
      && ("foreground_color" in opts && r.Success? ==>
            opts["foreground_color"] == Rgb(r.value.foreground.red, r.value.foreground.green, r.value.foreground.blue))
      && ("background_color" in opts && r.Success? ==>
            opts["background_color"] == Rgb(r.value.background.red, r.value.background.green, r.value.background.blue))
      && ("foreground_color" in opts && !opts["foreground_color"].Rgb? ==> r.Failure?)
      && ("background_color" in opts && !opts["background_color"].Rgb? ==> r.Failure?)
  {
  }

  /** A caller who does not pass a level gets Medium. */
  lemma OmittedLevelIsMedium(data: Bytes, opts: Options, fileExists: string -> bool)
    requires "error_correction_level" !in opts
    ensures var r := CreateQrCode(data, Merge(DefaultOptions(), opts), fileExists);
      r.Success? ==> r.value.level == Medium
  {
  }

  /** A caller who does not pass a mode gets Margin. */
  lemma OmittedModeIsMargin(data: Bytes, opts: Options, fileExists: string -> bool)
    requires "round_block_size_mode" !in opts
    ensures var r := CreateQrCode(data, Merge(DefaultOptions(), opts), fileExists);
      r.Success? ==> r.value.mode == Margin
  {
  }

  // ---------------------------------------------------------- the generator

  /** The file system `save` writes to; writes to the paths in `unwritable` fail. */
  class FileSystem {
    var files: map<string, Bytes>
    var unwritable: set<string>

    constructor (files: map<string, Bytes>, unwritable: set<string>)
      ensures this.files == files && this.unwritable == unwritable
    {
      this.files := files;
      this.unwritable := unwritable;
    }

    /** `file_put_contents($path, $content) !== false`. */
    method PutContents(path: string, content: Bytes) returns (ok: bool)
      modifies this`files
      ensures ok == (path !in unwritable)
      ensures files == if ok then old(files)[path := content] else old(files)
    {
      ok := path !in unwritable;
      if ok {
        files := files[path := content];
      }
    }
  }

  class QRCodeGenerator {
    var defaultOptions: Options

    constructor ()
      ensures defaultOptions == DefaultOptions()
    {
      defaultOptions := DefaultOptions();
    }

    /**
     * `generatePNG`, `generateSVG`, `generateHTML` and `generateJPG`: merge
     * the caller's options over the defaults, configure the code and hand
     * it to the writer for `format`.
     */
    function Generate(lib: Library, format: Format, data: Bytes, options: Options := map[]): (r: Result<Bytes, Error>)
      reads this
      ensures var qr := CreateQrCode(data, Merge(defaultOptions, options), lib.fileExists);
        && (qr.Failure? ==> r == Failure(qr.error))
        && (qr.Success? && lib.write(format, qr.value).None? ==> r == Failure(WriterFailed(format)))
        && (qr.Success? && lib.write(format, qr.value).Some? ==> r == Success(lib.write(format, qr.value).value))
    {
      var qr :- CreateQrCode(data, Merge(defaultOptions, options), lib.fileExists);
      match lib.write(format, qr)
      case Some(bytes) => Success(bytes)
      case None => Failure(WriterFailed(format))
    }

    /**
     * `save`: pick the writer by the upper-cased format name, generate the
     * content, and write it to `filepath`. A refused format or a failed
     * generation leaves the file system untouched.
     */
    method Save(fs: FileSystem, lib: Library, data: Bytes, filepath: string, format: string := "PNG",
                options: Options := map[]) returns (r: Result<bool, Error>)
      modifies fs
      ensures SelectFormat(format).Failure? ==>
        r == Failure(UnsupportedFormat(format)) && unchanged(fs)
      ensures SelectFormat(format).Success? && Generate(lib, SelectFormat(format).value, data, options).Failure? ==>
        r == Failure(Generate(lib, SelectFormat(format).value, data, options).error) && unchanged(fs)
      ensures SelectFormat(format).Success? && Generate(lib, SelectFormat(format).value, data, options).Success? ==>
        && r == Success(filepath !in fs.unwritable)
        && fs.unwritable == old(fs.unwritable)
        && fs.files == if r.value then old(fs.files)[filepath := Generate(lib, SelectFormat(format).value, data, options).value]
                       else old(fs.files)
    {
      var upper := ToUpper(format);
      var content: Result<Bytes, Error>;
      if upper == "PNG" {
        content := Generate(lib, Png, data, options);
      } else if upper == "SVG" {
        content := Generate(lib, Svg, data, options);
      } else if upper == "HTML" {
        content := Generate(lib, Html, data, options);
      } else if upper == "JPG" {
        content := Generate(lib, Jpg, data, options);
      } else {
        return Failure(UnsupportedFormat(format));
      }
      if content.Failure? {
        return Failure(content.error);
      }
      var ok := fs.PutContents(filepath, content.value);
      r := Success(ok);
    }
  }

  /**
   * A new generator called without options hands its writer the default
   * code (300 wide, margin 10, black on white, Medium, Margin, no logo) and
   * returns exactly what the writer produced.
   */
  lemma NewGeneratorUsesDefaults(g: QRCodeGenerator, lib: Library, format: Format, data: Bytes)
    requires g.defaultOptions == DefaultOptions()
    ensures var qr := QrCode(data, IntVal(300), IntVal(10), Color(0, 0, 0), Color(255, 255, 255), Medium, Margin, None);
      g.Generate(lib, format, data) == if lib.write(format, qr).Some? then Success(lib.write(format, qr).value)
                                       else Failure(WriterFailed(format))
  {
    DefaultQrCode(data, lib.fileExists);
  }
}
