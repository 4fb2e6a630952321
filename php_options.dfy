/**
 * The options array the generator receives: a PHP array with string keys,
 * whose values are integers, strings, three-component colour lists or null.
 */
module PhpOptions {
  import opened Wrappers
  import opened PhpStrings

  datatype OptVal =
    | IntVal(n: int)
    | StrVal(s: string)
    | Rgb(red: int, green: int, blue: int)
    | Null

  type Options = map<string, OptVal>

  /** PHP's `empty()` of an option value; a non-empty colour list is never empty. */
  predicate IsEmpty(v: OptVal): (b: bool)
    ensures b <==> v == Null || v == IntVal(0) || v == StrVal("") || v == StrVal("0")
  {
    match v
    case Null => true
    case IntVal(n) => n == 0
    case StrVal(s) => IsEmptyString(s)
    case Rgb(_, _, _) => false
  }

  /** `$options[$key]`: a missing key reads as null. */
  function Get(o: Options, key: string): (v: OptVal)
    ensures key !in o ==> v == Null
    ensures key in o ==> v == o[key]
  {
    if key in o then o[key] else Null
  }

  /**
   * PHP's coercion of a value passed to a `string` parameter: a string
   * stays as it is, an integer becomes its decimal form, and null or an
   * array raise a TypeError (None).
   */
  function CoerceToString(v: OptVal): (r: Option<string>)
    ensures v.StrVal? ==> r == Some(v.s)
    ensures v.IntVal? ==> r == Some(IntToString(v.n)) && DecimalValue(r.value) == v.n
    ensures (v.Null? || v.Rgb?) ==> r.None?
  {
    match v
    case StrVal(s) => Some(s)
    case IntVal(n) => Some(IntToString(n))
    case _ => None
  }

  /**
   * `array_merge($defaults, $opts)` on string-keyed arrays: every key of
   * either array is present, and the caller's value wins.
   */
  function Merge(defaults: Options, opts: Options): (r: Options)
    ensures r.Keys == defaults.Keys + opts.Keys
    ensures forall k :: k in opts ==> r[k] == opts[k]
    ensures forall k :: k in defaults && k !in opts ==> r[k] == defaults[k]
  {
    defaults + opts
  }

  /** Merging nothing over the defaults gives the defaults back. */
  lemma MergeNothing(defaults: Options)
    ensures Merge(defaults, map[]) == defaults
  {
  }
}
