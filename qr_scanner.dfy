/**
 * The check-in scanner: the member id read back from a scanned QR code with
 * JavaScript's `parseInt`, the lookup request's flags and alert, the scan
 * toggle and the colours of the status chips.
 */
module QrScanner {
  import opened Wrappers
  import opened Http
  import opened Text
  import Dashboard
  import Registration

  /** A JavaScript number as `parseInt` produces it: an integer or NaN. */
  datatype JsNumber = Num(value: int) | NaN

  // ---------------------------------------------------------------------
  // parseInt(string) with no radix argument
  // ---------------------------------------------------------------------

  predicate IsHexLetter(c: char) {
    ('a' <= c <= 'f') || ('A' <= c <= 'F')
  }

  /** A digit of radix 10 or 16 (the only radixes `parseInt` picks without an argument). */
  predicate IsRadixDigit(c: char, radix: nat) {
    IsDigit(c) || (radix == 16 && IsHexLetter(c))
  }

  function RadixDigitValue(c: char, radix: nat): (d: nat)
    requires IsRadixDigit(c, radix)
    ensures d < radix || radix < 10
  {
    if IsDigit(c) then DigitValue(c)
    else if 'a' <= c <= 'f' then c as int - 'a' as int + 10
    else c as int - 'A' as int + 10
  }

  predicate AllRadixDigits(s: string, radix: nat) {
    forall i :: 0 <= i < |s| ==> IsRadixDigit(s[i], radix)
  }

  /** The value of a string of radix digits, most significant first. */
  function RadixValue(s: string, radix: nat): nat
    requires AllRadixDigits(s, radix)
  {
    if s == [] then 0 else RadixValue(s[..|s| - 1], radix) * radix + RadixDigitValue(s[|s| - 1], radix)
  }

  /** The longest prefix of `s` made of radix digits. */
  function DigitPrefix(s: string, radix: nat): (r: string)
    ensures |r| <= |s| && r == s[..|r|]
    ensures AllRadixDigits(r, radix)
    ensures |r| < |s| ==> !IsRadixDigit(s[|r|], radix)
  {
    if s != [] && IsRadixDigit(s[0], radix) then
      var rest := DigitPrefix(s[1..], radix);
      assert [s[0]] + rest == s[..|rest| + 1];
      [s[0]] + rest
    else
      []
  }

  /**
   * The magnitude `parseInt` reads once white space and sign are gone: an
   * optional `0x`/`0X` prefix switches to radix 16, the longest run of
   * digits that follows is the value, and no digit at all is NaN.
   */
  function ParseMagnitude(u: string): Option<nat> {
    var hex := |u| >= 2 && u[0] == '0' && (u[1] == 'x' || u[1] == 'X');
    var radix := if hex then 16 else 10;
    var digits := DigitPrefix(if hex then u[2..] else u, radix);
    if digits == [] then None else Some(RadixValue(digits, radix))
  }

  /**
   * `parseInt(s)`: leading white space is skipped, then an optional sign,
   * then the magnitude. Anything after the digits is ignored.
   */
  function ParseInt(s: string): JsNumber {
    var t := TrimStart(s);
    var sign := if t != [] && t[0] == '-' then -1 else 1;
    var u := if t != [] && (t[0] == '-' || t[0] == '+') then t[1..] else t;
    match ParseMagnitude(u)
    case None => NaN
    case Some(m) => Num(sign * m)
  }

  /** In radix 10 the radix value is the decimal value. */
  lemma {:induction false} RadixValueDecimal(d: string)
    requires AllDigits(d)
    ensures AllRadixDigits(d, 10) && RadixValue(d, 10) == DigitsValue(d)
  {
    if d != [] {
      RadixValueDecimal(d[..|d| - 1]);
    }
  }

  /** The decimal digits at the head of `d + rest` are `d` when `rest` does not go on with a digit. */
  lemma {:induction false} DecimalPrefix(d: string, rest: string)
    requires AllDigits(d)
    requires rest == [] || !IsDigit(rest[0])
    ensures DigitPrefix(d + rest, 10) == d
  {
    if d != [] {
      assert (d + rest)[1..] == d[1..] + rest;
      DecimalPrefix(d[1..], rest);
    } else {
      assert d + rest == rest;
    }
  }

  /** A decimal numeral followed by neither a digit nor an `x` has its own value as magnitude. */
  lemma {:induction false} DecimalMagnitude(d: string, rest: string)
    requires |d| >= 1 && AllDigits(d)
    requires rest == [] || !(IsDigit(rest[0]) || rest[0] == 'x' || rest[0] == 'X')
    ensures ParseMagnitude(d + rest) == Some(DigitsValue(d))
  {
    var s := d + rest;
    assert !(|s| >= 2 && s[0] == '0' && (s[1] == 'x' || s[1] == 'X')) by {
      if |d| >= 2 {
        assert s[1] == d[1];
      } else if |s| >= 2 {
        assert s[1] == rest[0];
      }
    }
    DecimalPrefix(d, rest);
    RadixValueDecimal(d);
  }

  /**
   * `parseInt` of a decimal numeral followed by text that starts with
   * neither a digit nor an `x` reads the numeral.
   */
  lemma {:induction false} ParseIntDecimal(d: string, rest: string)
    requires |d| >= 1 && AllDigits(d)
    requires rest == [] || !(IsDigit(rest[0]) || rest[0] == 'x' || rest[0] == 'X')
    ensures ParseInt(d + rest) == Num(DigitsValue(d))
  {
    var s := d + rest;
    assert s[0] == d[0] && IsDigit(s[0]);
    assert TrimStart(s) == s by {
      assert !IsWhitespace(s[0]);
    }
    assert !(s[0] == '-' || s[0] == '+');
    DecimalMagnitude(d, rest);
  }

  /** A decimal numeral after a minus sign reads as its negation. */
  lemma {:induction false} ParseIntMinus(d: string, rest: string)
    requires |d| >= 1 && AllDigits(d)
    requires rest == [] || !(IsDigit(rest[0]) || rest[0] == 'x' || rest[0] == 'X')
    ensures ParseInt("-" + d + rest) == Num(-(DigitsValue(d) as int))
  {
    var n := "-" + d + rest;
    assert TrimStart(n) == n;
    assert n[1..] == d + rest;
    DecimalMagnitude(d, rest);
  }

  /** A negative integer's rendering reads back as itself. */
  lemma {:induction false} ParseIntNegative(i: int, rest: string)
    requires i < 0
    requires rest == [] || !(IsDigit(rest[0]) || rest[0] == 'x' || rest[0] == 'X')
    ensures ParseInt(IntToString(i) + rest) == Num(i)
  {
    var d := NatToString(-i);
    assert IntToString(i) == "-" + d;
    NatToStringValue(-i);
    ParseIntMinus(d, rest);
  }

  /** Any integer's decimal rendering reads back as itself, whatever non-digit text follows it. */
  lemma {:induction false} ParseIntRendered(i: int, rest: string)
    requires rest == [] || !(IsDigit(rest[0]) || rest[0] == 'x' || rest[0] == 'X')
    ensures ParseInt(IntToString(i) + rest) == Num(i)
  {
    if i < 0 {
      ParseIntNegative(i, rest);
    } else {
      NatToStringValue(i);
      ParseIntDecimal(NatToString(i), rest);
    }
  }

  /**
   * The id read back from the code a registration produces is the member's
   * id, whatever the year and the time stamp.
   */
  lemma {:induction false} QrPayloadRoundTrip(id: int, year: int, time: int)
    ensures ParseInt(Registration.QrPayload(id, year, time)) == Num(id)
  {
    var payload := Registration.QrPayload(id, year, time);
    var n := |IntToString(id)|;
    assert payload == IntToString(id) + payload[n..];
    assert payload[n..][0] == '_';
    ParseIntRendered(id, payload[n..]);
  }

  // ---------------------------------------------------------------------
  // Chip colours
  // ---------------------------------------------------------------------

  datatype ChipColor = Primary | Success | Error | Warning

  /** The member status chip: paid is green, active is blue, everything else red. */
  function StatusChipColor(s: Dashboard.Status): (c: ChipColor)
    ensures c == Success <==> s == Dashboard.Paid
    ensures c == Primary <==> s == Dashboard.Active
    ensures c == Error <==> s != Dashboard.Paid && s != Dashboard.Active
  {
    if s == Dashboard.Paid then Success
    else if s == Dashboard.Active then Primary
    else Error
  }

  /** The captured-status chip: valid is green, invalid red, anything else amber. */
  function CapturedChipColor(s: Dashboard.CapturedStatus): (c: ChipColor)
    ensures c == Success <==> s == Dashboard.Valid
    ensures c == Error <==> s == Dashboard.Invalid
    ensures c == Warning <==> s != Dashboard.Valid && s != Dashboard.Invalid
  {
    if s == Dashboard.Valid then Success
    else if s == Dashboard.Invalid then Error
    else Warning
  }

  // ---------------------------------------------------------------------
  // The component
  // ---------------------------------------------------------------------

  datatype Severity = ErrorSeverity | WarningSeverity | InfoSeverity | SuccessSeverity
  datatype AlertMessage = AlertMessage(message: string, severity: Severity)

  const ScannedAlert := AlertMessage("Scanned results:", SuccessSeverity)
  const FetchFailedAlert := AlertMessage("Failed to fetch data.", ErrorSeverity)

  /** The alert shown after a lookup that did not succeed. */
  function FailureAlert(response: Response<seq<Dashboard.Member>>): (a: AlertMessage)
    requires !response.Ok?
    ensures a.severity == ErrorSeverity
    ensures response.Failed? && response.status == 403 ==> a.message == response.message
    ensures !(response.Failed? && response.status == 403) ==> a == FetchFailedAlert
  {
    if response.Failed? && response.status == 403 then AlertMessage(response.message, ErrorSeverity)
    else FetchFailedAlert
  }

  class Scanner {
    var results: seq<Dashboard.Member>
    var fetching: bool
    var alert: AlertMessage
    var scanned: bool
    var onScan: bool

    constructor ()
      ensures results == [] && !fetching && !scanned && !onScan
      ensures alert == AlertMessage("Something went wrong!", WarningSeverity)
    {
      results := [];
      fetching := false;
      alert := AlertMessage("Something went wrong!", WarningSeverity);
      scanned := false;
      onScan := false;
    }

    /** `fetchResults` up to the request: busy, and the previous results hidden. */
    method BeginFetch()
      modifies this`fetching, this`scanned
      ensures fetching && !scanned
    {
      fetching := true;
      scanned := false;
    }

    /**
     * `fetchResults` after the request. Success replaces the results; a 403
     * shows the server's message and any other failure a fixed one, both
     * keeping the previous results. Either way the lookup ends not busy
     * and with the results shown.
     */
    method EndFetch(response: Response<seq<Dashboard.Member>>)
      modifies this`results, this`alert, this`fetching, this`scanned
      ensures !fetching && scanned
      ensures response.Ok? ==> results == response.data && alert == ScannedAlert
      ensures !response.Ok? ==> results == old(results) && alert == FailureAlert(response)
    {
      if response.Ok? {
        results := response.data;
        alert := ScannedAlert;
      } else {
        alert := FailureAlert(response);
      }
      fetching := false;
      scanned := true;
    }

    /**
     * `onResult`: the first detected code's raw text is read with
     * `parseInt` and looked up; the returned id is the one requested.
     * With no code detected the handler fails before any change.
     */
    method OnResult(codes: seq<string>) returns (requested: Option<JsNumber>)
      modifies this`fetching, this`scanned
      ensures codes == [] ==> requested == None && fetching == old(fetching) && scanned == old(scanned)
      ensures codes != [] ==> requested == Some(ParseInt(codes[0])) && fetching && !scanned
    {
      if codes == [] {
        requested := None;
      } else {
        var id := ParseInt(codes[0]);
        BeginFetch();
        requested := Some(id);
      }
    }

    /** `handleScan`: starts or stops the camera. */
    method HandleScan()
      modifies this`onScan
      ensures onScan == !old(onScan)
    {
      onScan := !onScan;
    }
  }
}
