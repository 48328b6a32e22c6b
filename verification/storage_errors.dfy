/**
  Classification of the exceptions the table client raises (`IsError413`,
  `IsError`) and the lookup of the operation a batch error names
  (`GetFaultyOperation`).
 */
module StorageErrors {
  import opened Basics

  /** The service's extended error details; either string may be null. */
  datatype ExtendedInfo = ExtendedInfo(errorCode: Option<string>, errorMessage: Option<string>)

  datatype RequestInfo = RequestInfo(httpStatusCode: int, extended: Option<ExtendedInfo>)

  /** An exception as seen by the indexer: a storage exception or anything else. */
  datatype Exn =
    | OtherException
    | StorageException(requestInformation: Option<RequestInfo>)

  /** The exceptions `GetFaultyOperation` itself can raise. */
  datatype Fault =
    | NullMessage           // Regex.Match on a null message
    | FormatError           // int.Parse of an empty digit run
    | Overflow              // int.Parse of a run above int.MaxValue
    | IndexOutOfRange(index: int)

  const EntityTooLarge: string := "EntityTooLarge"
  const Int32Max: int := 2147483647

  /** The extended error details, when the exception carries them. */
  function Extended(ex: Exn): Option<ExtendedInfo> {
    if ex.StorageException? && ex.requestInformation.Some? then ex.requestInformation.value.extended
    else None
  }

  /** The request was rejected as too large (HTTP 413). */
  predicate IsError413(ex: Exn) {
    ex.StorageException? && ex.requestInformation.Some? && ex.requestInformation.value.httpStatusCode == 413
  }

  /** The service reported error code `code`. */
  predicate IsError(ex: Exn, code: string) {
    Extended(ex).Some? && Extended(ex).value.errorCode == Some(code)
  }

  /** The two tests read nothing but storage exceptions, and one exception carries at most one code. */
  lemma ClassifyStorageOnly(ex: Exn, a: string, b: string)
    ensures IsError413(ex) || IsError(ex, a) ==> ex.StorageException? && ex.requestInformation.Some?
    ensures IsError(ex, a) && IsError(ex, b) ==> a == b
    ensures IsError(ex, a) ==> Extended(ex).Some?
  {
  }

  predicate IsDigit(c: char) {
    '0' <= c <= '9'
  }

  /** The match of `[0-9]*` at the start of `s`: the regex always matches, possibly empty. */
  function LeadingDigits(s: string): (r: string)
    ensures r <= s
    ensures forall i | 0 <= i < |r| :: IsDigit(r[i])
    ensures r == s || !IsDigit(s[|r|])
    decreases |s|
  {
    if s == [] || !IsDigit(s[0]) then []
    else
      var rest := LeadingDigits(s[1..]);
      assert s == [s[0]] + s[1..];
      [s[0]] + rest
  }

  function DigitValue(c: char): (r: int)
    requires IsDigit(c)
    ensures 0 <= r <= 9
  {
    c as int - '0' as int
  }

  /** The number a run of decimal digits spells. */
  function DigitsValue(s: string): (r: int)
    requires forall i | 0 <= i < |s| :: IsDigit(s[i])
    ensures r >= 0
    decreases |s|
  {
    if s == [] then 0 else DigitsValue(s[..|s| - 1]) * 10 + DigitValue(s[|s| - 1])
  }

  /** `int.Parse` of a digit run: empty fails to parse, above `int.MaxValue` overflows. */
  function ParseInt32(s: string): (r: Result<int, Fault>)
    requires forall i | 0 <= i < |s| :: IsDigit(s[i])
    ensures r.Success? ==> 0 <= r.value <= Int32Max
    ensures r.Failure? ==> r.error == FormatError || r.error == Overflow
    ensures r.Success? <==> s != [] && DigitsValue(s) <= Int32Max
  {
    if s == [] then Failure(FormatError)
    else if DigitsValue(s) > Int32Max then Failure(Overflow)
    else Success(DigitsValue(s))
  }

  /**
    The operation of `batch` the error message names by its leading index.
    `None` stands for the null the source returns when the exception carries
    no extended details; an exception escaping the lookup is a `Failure`.
   */
  function GetFaultyOperation<T>(ex: Exn, batch: seq<T>): (r: Result<Option<T>, Fault>)
    ensures r.Success? && r.value.Some? ==> r.value.value in batch
    ensures Extended(ex).None? ==> r == Success(None)
    ensures Extended(ex).Some? ==> r.Failure? || r.value.Some?
  {
    match Extended(ex)
    case None => Success(None)
    case Some(info) =>
      match info.errorMessage
      case None => Failure(NullMessage)
      case Some(msg) =>
        match ParseInt32(LeadingDigits(msg))
        case Failure(f) => Failure(f)
        case Success(k) =>
          if k < |batch| then Success(Some(batch[k])) else Failure(IndexOutOfRange(k))
  }

  /** The canonical decimal spelling of `n`. */
  function Decimal(n: nat): (r: string)
    ensures r != [] && forall i | 0 <= i < |r| :: IsDigit(r[i])
    decreases n
  {
    var d := ['0' + (n % 10) as char];
    if n < 10 then d else Decimal(n / 10) + d
  }

  /** Reading back a decimal spelling gives the number. */
  lemma {:induction false} DecimalValue(n: nat)
    ensures DigitsValue(Decimal(n)) == n
    decreases n
  {
    var s := Decimal(n);
    if n >= 10 {
      DecimalValue(n / 10);
      assert s[..|s| - 1] == Decimal(n / 10);
    }
  }

  /** The leading-digit match of a number followed by a non-digit is that number's spelling. */
  lemma {:induction false} LeadingDigitsOfNumber(digits: string, rest: string)
    requires forall i | 0 <= i < |digits| :: IsDigit(digits[i])
    requires rest == [] || !IsDigit(rest[0])
    ensures LeadingDigits(digits + rest) == digits
    decreases |digits|
  {
    if digits == [] {
      assert digits + rest == rest;
    } else {
      assert (digits + rest)[1..] == digits[1..] + rest;
      LeadingDigitsOfNumber(digits[1..], rest);
      assert digits == [digits[0]] + digits[1..];
    }
  }

  /**
    A message that opens with index `k` followed by a non-digit (the
    service's `"k:reason"`) names operation `k` of the batch when the batch
    has one, and the lookup fails with an out-of-range index otherwise; a
    message opening with a non-digit fails to parse, and an index above
    `int.MaxValue` overflows.
   */
  lemma FaultyOperationByIndex<T>(code: Option<string>, status: int, k: nat, rest: string, batch: seq<T>)
    requires rest == [] || !IsDigit(rest[0])
    ensures var ex := StorageException(Some(RequestInfo(status, Some(ExtendedInfo(code, Some(Decimal(k) + rest))))));
      GetFaultyOperation(ex, batch)
        == if k > Int32Max then Failure(Overflow)
           else if k < |batch| then Success(Some(batch[k]))
           else Failure(IndexOutOfRange(k))
    ensures var ex := StorageException(Some(RequestInfo(status, Some(ExtendedInfo(code, Some(rest))))));
      GetFaultyOperation(ex, batch) == Failure(FormatError)
  {
    LeadingDigitsOfNumber(Decimal(k), rest);
    DecimalValue(k);
    LeadingDigitsOfNumber([], rest);
    assert [] + rest == rest;
  }
}
