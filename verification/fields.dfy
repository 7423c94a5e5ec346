/**
 * Reading numbered fields out of a tokenised `/proc` line. Indexing a `Vec`
 * past its end panics in Rust, and `v.len() - 2` on a `usize` below 2
 * overflows; here both are explicit outcomes, next to the parse errors that
 * the readers return through `?`.
 */
module Fields {
  import opened Wrappers
  import opened Decimal
  import opened Text

  /** Why reading a record out of a line stops. */
  datatype ReadError =
    | ParseFailed(kind: ParseIntError)    // `parse::<u64>()` / `parse::<usize>()` returned `Err`
    | IndexOutOfBounds(index: nat, len: nat)  // `v[index]` with `index >= v.len()` (a panic)
    | LengthUnderflow                     // `v.len() - 2` with `v.len() < 2` (a panic)

  /** `ts[i]`, cloned. */
  function Field(ts: seq<string>, i: nat): (r: Result<string, ReadError>)
    ensures r.Ok? <==> i < |ts|
    ensures r.Ok? ==> r.value == ts[i]
    ensures r.Err? ==> r.error == IndexOutOfBounds(i, |ts|)
  {
    if i < |ts| then Ok(ts[i]) else Err(IndexOutOfBounds(i, |ts|))
  }

  /** `ts[i].parse::<u64>()?`: the index is checked first, then the text. */
  function ParseField(ts: seq<string>, i: nat): (r: Result<u64, ReadError>)
    ensures r.Ok? <==> i < |ts| && IsU64Text(ts[i])
    ensures r.Ok? ==> r.value as int == DecimalValue(Unsigned(ts[i]))
    ensures i >= |ts| ==> r == Err(IndexOutOfBounds(i, |ts|))
    ensures i < |ts| && r.Err? ==> r == Err(ParseFailed(ParseU64(ts[i]).error))
  {
    var text :- Field(ts, i);
    match ParseU64(text)
    case Ok(v) => Ok(v)
    case Err(kind) => Err(ParseFailed(kind))
  }

  /** A field holding the decimal text of a number reads back as that number. */
  lemma ParseFieldOfDecimal(ts: seq<string>, i: nat, n: u64)
    requires i < |ts| && ts[i] == ToDecimal(n as int)
    ensures ParseField(ts, i) == Ok(n)
  {
    ParseToDecimal(n);
  }

  /** The decimal texts of some numbers, as `n.to_string()` writes them. */
  function Decimals(ns: seq<u64>): (r: seq<string>)
    ensures |r| == |ns|
    ensures forall k :: 0 <= k < |ns| ==> r[k] == ToDecimal(ns[k] as int) && IsToken(r[k])
  {
    seq(|ns|, k requires 0 <= k < |ns| => DigitsAreToken(ToDecimal(ns[k] as int)); ToDecimal(ns[k] as int))
  }

  /** Digits are never spaces, so a non-empty digit string is a token. */
  lemma DigitsAreToken(s: string)
    requires s != [] && AllDigits(s)
    ensures IsToken(s)
  {
    assert forall k :: 0 <= k < |s| ==> s[k] != ' ';
  }
}
