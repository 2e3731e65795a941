/** The WAGO datagram parser (`calaos_protocol.rs`): combinators that thread the remaining input. */
module CalaosProtocol {
  import opened Basics
  import opened Decimal

  const U32_MAX: nat := 0xFFFF_FFFF

  datatype WagoData = WagoData(pin: nat, value: nat)

  datatype Request = WagoInt(data: WagoData) | Discover

  /** A parse result: what is left of the input and what was read. */
  datatype Parsed<T> = Failed | Parsed(rest: string, value: T)

  const WAGO_INT := "WAGO INT "

  const DISCOVER := "CALAOS_DISCOVER"

  function Tag(tag: string, input: string): Parsed<()>
  {
    if tag <= input then Parsed(input[|tag|..], ()) else Failed
  }

  /** The longest run of digits at the front. */
  function DigitRun(input: string): (n: nat)
    ensures n <= |input|
    ensures AllDigits(input[..n])
    ensures n < |input| ==> !IsDigit(input[n])
  {
    if input == [] || !IsDigit(input[0]) then 0
    else
      var n := 1 + DigitRun(input[1..]);
      assert input[..n] == [input[0]] + input[1..][..n - 1];
      n
  }

  /** `map_res(digit1, str::parse::<u32>)`: at least one digit, and a number that fits. */
  function Number(input: string): Parsed<nat>
  {
    var n := DigitRun(input);
    if n == 0 then Failed
    else match ParseUnsigned(input[..n], U32_MAX)
      case None => Failed
      case Some(v) => Parsed(input[n..], v)
  }

  function GetWagoInt(input: string): Parsed<WagoData>
  {
    match Tag(WAGO_INT, input)
    case Failed => Failed
    case Parsed(rest, _) =>
      match Number(rest)
      case Failed => Failed
      case Parsed(rest, pin) =>
        match Tag(" ", rest)
        case Failed => Failed
        case Parsed(rest, _) =>
          match Number(rest)
          case Failed => Failed
          case Parsed(rest, value) => Parsed(rest, WagoData(pin, value))
  }

  /** The first alternative that succeeds; what follows it in the datagram is ignored. */
  function ParseRequest(input: string): Option<Request>
  {
    match GetWagoInt(input)
    case Parsed(_, data) => Some(WagoInt(data))
    case Failed =>
      match Tag(DISCOVER, input)
      case Parsed(_, _) => Some(Discover)
      case Failed => None
  }

  ghost predicate EndsDigits(rest: string)
  {
    rest == [] || !IsDigit(rest[0])
  }

  /** A number was spelled by `digits`: leading zeros are allowed, a value over 32 bits is not. */
  ghost predicate Spells(digits: string, n: nat)
  {
    digits != [] && AllDigits(digits) && Value(digits) == n && n <= U32_MAX
  }

  lemma {:induction false} RunOfDigits(digits: string, rest: string)
    requires AllDigits(digits) && EndsDigits(rest)
    ensures DigitRun(digits + rest) == |digits|
  {
    if digits == [] {
      assert digits + rest == rest;
    } else {
      assert (digits + rest)[1..] == digits[1..] + rest;
      RunOfDigits(digits[1..], rest);
    }
  }

  /** A number is read exactly from a maximal run of digits that spells it. */
  lemma NumberIff(input: string, rest: string, n: nat)
    ensures Number(input) == Parsed(rest, n) <==>
            EndsDigits(rest) && exists digits :: Spells(digits, n) && input == digits + rest
  {
    var k := DigitRun(input);
    if Number(input) == Parsed(rest, n) {
      assert IsDigit(input[..k][0]);
      assert Spells(input[..k], n) && input == input[..k] + input[k..];
    }
    if EndsDigits(rest) && exists digits :: Spells(digits, n) && input == digits + rest {
      var digits :| Spells(digits, n) && input == digits + rest;
      RunOfDigits(digits, rest);
      assert input[..k] == digits && input[k..] == rest;
      assert IsDigit(digits[0]);
    }
  }

  /** The datagrams that are accepted, with what they mean: the tag, a maximal digit run, one space, a maximal digit run; then
      anything that is not a digit. */
  ghost predicate Denotes(input: string, pin: string, value: string, rest: string, data: WagoData)
  {
    && input == WAGO_INT + pin + " " + value + rest
    && Spells(pin, data.pin) && Spells(value, data.value) && EndsDigits(rest)
  }

  lemma ParsedImpliesDenotes(input: string) returns (pin: string, value: string)
    requires GetWagoInt(input).Parsed?
    ensures Denotes(input, pin, value, GetWagoInt(input).rest, GetWagoInt(input).value)
  {
    hide Number;
    var afterTag := Tag(WAGO_INT, input).rest;
    var first := Number(afterTag);
    NumberIff(afterTag, first.rest, first.value);
    pin :| Spells(pin, first.value) && afterTag == pin + first.rest;
    var afterSpace := Tag(" ", first.rest).rest;
    var second := Number(afterSpace);
    NumberIff(afterSpace, second.rest, second.value);
    value :| Spells(value, second.value) && afterSpace == value + second.rest;
    assert input == WAGO_INT + afterTag;
    assert first.rest == " " + afterSpace;
    assert WAGO_INT + (pin + (" " + (value + second.rest))) == WAGO_INT + pin + " " + value + second.rest;
  }

  lemma DenotesImpliesParsed(input: string, pin: string, value: string, rest: string, data: WagoData)
    requires Denotes(input, pin, value, rest, data)
    ensures GetWagoInt(input) == Parsed(rest, data)
  {
    hide Number;
    var afterTag := pin + (" " + (value + rest));
    assert input == WAGO_INT + afterTag;
    assert input[|WAGO_INT|..] == afterTag;
    NumberIff(afterTag, " " + (value + rest), data.pin);
    assert (" " + (value + rest))[1..] == value + rest;
    NumberIff(value + rest, rest, data.value);
  }

  /** The parser accepts exactly these datagrams, and reads exactly what they denote. */
  lemma GetWagoIntIff(input: string, rest: string, data: WagoData)
    ensures GetWagoInt(input) == Parsed(rest, data) <==> exists pin, value :: Denotes(input, pin, value, rest, data)
  {
    if GetWagoInt(input) == Parsed(rest, data) {
      var pin, value := ParsedImpliesDenotes(input);
    }
    if pin, value :| Denotes(input, pin, value, rest, data) {
      DenotesImpliesParsed(input, pin, value, rest, data);
    }
  }

  /** The parser inverts the printer, whatever follows, as long as it is not a digit. */
  lemma ParseUndoesPrint(data: WagoData, suffix: string)
    requires data.pin <= U32_MAX && data.value <= U32_MAX && EndsDigits(suffix)
    ensures ParseRequest(WAGO_INT + Print(data.pin) + " " + Print(data.value) + suffix) == Some(WagoInt(data))
  {
    ValueOfPrint(data.pin);
    ValueOfPrint(data.value);
    DenotesImpliesParsed(WAGO_INT + Print(data.pin) + " " + Print(data.value) + suffix, Print(data.pin), Print(data.value), suffix,
                         data);
  }

  /** A number that does not fit in 32 bits is refused, not truncated. */
  lemma OversizeIsRefused(pin: nat, value: nat, suffix: string)
    requires (pin > U32_MAX || value > U32_MAX) && EndsDigits(suffix)
    ensures ParseRequest(WAGO_INT + Print(pin) + " " + Print(value) + suffix) == None
  {
    hide Number;
    var input := WAGO_INT + Print(pin) + " " + Print(value) + suffix;
    var afterTag := Print(pin) + (" " + (Print(value) + suffix));
    assert input == WAGO_INT + afterTag && input[|WAGO_INT|..] == afterTag;
    assert input[0] != DISCOVER[0];
    NumberOfPrint(pin, " " + (Print(value) + suffix));
    assert (" " + (Print(value) + suffix))[1..] == Print(value) + suffix;
    NumberOfPrint(value, suffix);
  }

  lemma NumberOfPrint(n: nat, rest: string)
    requires EndsDigits(rest)
    ensures Number(Print(n) + rest) == if n <= U32_MAX then Parsed(rest, n) else Failed
  {
    ValueOfPrint(n);
    RunOfDigits(Print(n), rest);
    assert (Print(n) + rest)[..|Print(n)|] == Print(n) && (Print(n) + rest)[|Print(n)|..] == rest;
    assert IsDigit(Print(n)[0]);
  }

  /** The datagrams in plain letters: the tags as clients and controllers send them. */
  lemma PlainDatagrams(pin: nat, value: nat, suffix: string)
    requires pin <= 4_294_967_295 && value <= 4_294_967_295 && EndsDigits(suffix)
    ensures ParseRequest("WAGO INT " + Print(pin) + " " + Print(value) + suffix) == Some(WagoInt(WagoData(pin, value)))
    ensures ParseRequest("CALAOS_DISCOVER" + suffix) == Some(Discover)
  {
    ParseUndoesPrint(WagoData(pin, value), suffix);
    var discover := "CALAOS_DISCOVER" + suffix;
    assert discover[0] != WAGO_INT[0];
  }

  /** Discovery is what begins with its tag, and nothing else. */
  lemma DiscoverIff(input: string)
    ensures ParseRequest(input) == Some(Discover) <==> "CALAOS_DISCOVER" <= input
  {
    if "CALAOS_DISCOVER" <= input {
      assert input[0] == "CALAOS_DISCOVER"[0];
      assert input[0] != WAGO_INT[0];
    }
  }
}
