/** internal/common/ops.go: parsing of query-string values. */
module Ops {
  import opened Wrappers
  import opened Text

  /** ParseBoolean: "true"/"false" in any letter case; nil for anything else. */
  function ParseBoolean(value: string): (r: Option<bool>)
    ensures r == Some(true) <==> ToLower(value) == "true"
    ensures r == Some(false) <==> ToLower(value) == "false"
    ensures value == "" ==> r == None
  {
    if value == "" then None
    else
      var lower := ToLower(value);
      if lower == "true" then Some(true)
      else if lower == "false" then Some(false)
      else None
  }

  /** The pieces that survive ParseArray's filter, in order. */
  function DropEmpty(pieces: seq<string>): seq<string> {
    if |pieces| == 0 then []
    else (if pieces[0] == "" then [] else [pieces[0]]) + DropEmpty(pieces[1..])
  }

  /** What ParseArray returns: the comma-separated pieces, empty ones dropped. */
  function ArrayOf(value: string): seq<string> {
    if value == "" then [] else DropEmpty(Split(value, ','))
  }

  /** ParseArray, with the source's append loop. */
  method ParseArray(value: string) returns (out: seq<string>)
    ensures out == ArrayOf(value)
    ensures forall i :: 0 <= i < |out| ==> out[i] != "" && ',' !in out[i]
  {
    if value == "" {
      return [];
    }
    var parts := Split(value, ',');
    out := [];
    var i := 0;
    while i < |parts|
      invariant 0 <= i <= |parts|
      invariant out + DropEmpty(parts[i..]) == DropEmpty(parts)
    {
      assert parts[i..] == [parts[i]] + parts[i + 1..];
      if parts[i] != "" {
        out := out + [parts[i]];
      }
      i := i + 1;
    }
    assert parts[i..] == [];
    ArrayOfPieces(value);
  }

  lemma {:induction false} DropEmptyElements(pieces: seq<string>)
    ensures forall x :: x in DropEmpty(pieces) <==> x in pieces && x != ""
  {
    if |pieces| > 0 {
      DropEmptyElements(pieces[1..]);
      assert pieces == [pieces[0]] + pieces[1..];
    }
  }

  lemma {:induction false} DropEmptyKeepsAll(pieces: seq<string>)
    requires forall i :: 0 <= i < |pieces| ==> pieces[i] != ""
    ensures DropEmpty(pieces) == pieces
  {
    if |pieces| > 0 {
      DropEmptyKeepsAll(pieces[1..]);
      assert pieces == [pieces[0]] + pieces[1..];
    }
  }

  /** No element of ParseArray's result is empty or holds a comma. */
  lemma ArrayOfPieces(value: string)
    ensures forall i :: 0 <= i < |ArrayOf(value)| ==> ArrayOf(value)[i] != "" && ',' !in ArrayOf(value)[i]
  {
    if value != "" {
      var parts := Split(value, ',');
      SplitPiecesFree(value, ',');
      DropEmptyElements(parts);
      forall i | 0 <= i < |ArrayOf(value)|
        ensures ArrayOf(value)[i] != "" && ',' !in ArrayOf(value)[i]
      {
        assert ArrayOf(value)[i] in DropEmpty(parts);
      }
    }
  }

  /** When no comma-separated piece is empty, joining the result with "," restores the input. */
  lemma ArrayOfJoin(value: string)
    requires forall i :: 0 <= i < |Split(value, ',')| ==> Split(value, ',')[i] != ""
    ensures Join(ArrayOf(value), ",") == value
  {
    assert value != "" by {
      if value == "" { assert Split(value, ',')[0] == ""; }
    }
    DropEmptyKeepsAll(Split(value, ','));
    JoinSplit(value, ',');
  }

  /** A float64 argument: NaN or a finite value. */
  datatype Float = NaN | Num(value: real)

  /** ClampValue: NaN and values below `min` give `min`, values above `max` give `max`. */
  function ClampValue(number: Float, min: real, max: real): (r: real)
    ensures number.NaN? ==> r == min
    ensures number.Num? && number.value < min ==> r == min
    ensures number.Num? && min <= number.value <= max ==> r == number.value
    ensures number.Num? && min <= number.value && max < number.value ==> r == max
    ensures min <= max ==> min <= r <= max
  {
    if number.NaN? then min
    else if number.value < min then min
    else if number.value > max then max
    else number.value
  }

  const Int64Min: int := -0x8000_0000_0000_0000
  const Int64Max: int := 0x7FFF_FFFF_FFFF_FFFF

  predicate AllDigits(s: string) {
    forall i :: 0 <= i < |s| ==> IsDigit(s[i])
  }

  /** The value strconv.Atoi reads from `value`, when it is an optionally signed run of digits. */
  function SignedValue(value: string): Option<int> {
    if value == "" then None
    else
      var negative := value[0] == '-';
      var digits := if value[0] == '-' || value[0] == '+' then value[1..] else value;
      if |digits| == 0 || !AllDigits(digits) then None
      else Some(if negative then 0 - (DecimalValue(digits) as int) else DecimalValue(digits) as int)
  }

  /** ParseInt: strconv.Atoi on a 64-bit platform; (0, false) on any error, range errors included. */
  function ParseInt(value: string): (r: (int, bool))
    ensures r.1 ==> Int64Min <= r.0 <= Int64Max && SignedValue(value) == Some(r.0)
    ensures !r.1 ==> r.0 == 0
    ensures SignedValue(value).Some? && Int64Min <= SignedValue(value).value <= Int64Max ==> r == (SignedValue(value).value, true)
    ensures value == "" ==> !r.1
  {
    match SignedValue(value)
    case None => (0, false)
    case Some(v) => if Int64Min <= v <= Int64Max then (v, true) else (0, false)
  }

  /** Every 64-bit integer written with `%d` parses back to itself. */
  lemma ParseIntFormatInt(n: int)
    requires Int64Min <= n <= Int64Max
    ensures ParseInt(FormatInt(n)) == (n, true)
  {
    SignedValueFormatInt(n);
  }

  /** Reading back the digits `%d` writes gives the number. */
  lemma SignedValueFormatInt(n: int)
    ensures SignedValue(FormatInt(n)) == Some(n)
  {
    var s := FormatInt(n);
    if n < 0 {
      assert s[1..] == NatToDecimal(-n);
      DecimalValueOfNat(-n);
    } else {
      DecimalValueOfNat(n);
      assert s[0] != '-' && s[0] != '+';
    }
  }
}
