/** Values and actions (`io_value.rs`): toggling, ordering, and the textual form used in configuration and protocols. */
module IoValues {
  import opened Basics
  import Decimal

  const I32_BOUND: int := 0x8000_0000

  type i32 = i: int | -I32_BOUND <= i < I32_BOUND

  datatype ShutterState = Up | Down | MovingUp | MovingDown

  datatype IOValue =
    | Bool(b: bool)
    | Int(i: i32)
    | Text(s: string)
    | Shutter(state: ShutterState)

  datatype IOAction = Toggle | Stop | SetValue(value: IOValue)

  datatype IOData = IOData(id: Id, value: IOValue)

  datatype IODataAction = IODataAction(id: Id, action: IOAction)

  /** Cells by id, each with a value or none yet. */
  type Values = map<Id, Option<IOValue>>

  function ToggleValue(value: IOValue): Option<IOValue>
  {
    match value
    case Bool(b) => Some(Bool(!b))
    case Int(i) => Some(Int(-1 - i))
    case Text(_) => None
    case Shutter(Up) => Some(Shutter(Down))
    case Shutter(Down) => Some(Shutter(Up))
    case Shutter(MovingUp) => Some(Shutter(Down))
    case Shutter(MovingDown) => Some(Shutter(Up))
  }

  datatype Ordering = Less | Equal | Greater

  function PartialCompare(v: IOValue, w: IOValue): Option<Ordering>
  {
    if v.Int? && w.Int? then
      Some(if v.i < w.i then Less else if v.i == w.i then Equal else Greater)
    else
      None
  }

  function ParseValue(s: string): IOValue
  {
    match Decimal.ParseSigned(s, I32_BOUND)
    case Some(i) => Int(i)
    case None =>
      if s == "false" then Bool(false)
      else if s == "true" then Bool(true)
      else if s == "up" then Shutter(Up)
      else if s == "down" then Shutter(Down)
      else Text(s)
  }

  function PrintValue(v: IOValue): string
  {
    match v
    case Bool(b) => if b then "true" else "false"
    case Int(i) => Decimal.PrintSigned(i)
    case Text(s) => s
    case Shutter(Up) => "up"
    case Shutter(MovingUp) => "up"
    case Shutter(MovingDown) => "up"
    case Shutter(Down) => "down"
  }

  function ParseAction(s: string): IOAction
  {
    if s == "toggle" then Toggle
    else if s == "stop" then Stop
    else SetValue(ParseValue(s))
  }

  function PrintAction(a: IOAction): string
  {
    match a
    case Toggle => "toggle"
    case Stop => "stop"
    case SetValue(v) => PrintValue(v)
  }

  /** `s` spells a 32-bit integer, but not the way the printer does. */
  predicate OddSpelling(s: string)
  {
    Decimal.ParseSigned(s, I32_BOUND).Some? && !Decimal.CanonicalSigned(s)
  }

  predicate Keyword(s: string)
  {
    s in {"false", "true", "up", "down"}
  }

  /** What a text is read as, exactly: an integer of 32 bits, one of the four words, or itself. */
  lemma ReadsAs(s: string)
    ensures forall b :: ParseValue(s) == Bool(b) <==> s == if b then "true" else "false"
    ensures forall state :: ParseValue(s) == Shutter(state) <==> (state.Up? && s == "up") || (state.Down? && s == "down")
    ensures ParseValue(s).Int? <==> Decimal.ParseSigned(s, 2_147_483_648).Some?
    ensures ParseValue(s).Int? ==> Decimal.ParseSigned(s, 2_147_483_648) == Some(ParseValue(s).i)
    ensures ParseValue(s).Text? ==> ParseValue(s) == Text(s)
    ensures ParseAction(s) == Toggle <==> s == "toggle"
    ensures ParseAction(s) == Stop <==> s == "stop"
    ensures s != "toggle" && s != "stop" ==> ParseAction(s) == SetValue(ParseValue(s))
  {
    if s in {"true", "false", "up", "down"} {
      WordsAreNotIntegers(s);
    }
  }

  /** The words of the value grammar are not integers. */
  lemma WordsAreNotIntegers(s: string)
    requires Keyword(s) || s == "toggle" || s == "stop"
    ensures Decimal.ParseSigned(s, I32_BOUND) == None
  {
    assert !Decimal.IsDigit(s[0]) && s[0] != '-' && s[0] != '+';
  }

  /** The text survives a trip through a value except when it is an odd spelling of an integer. */
  lemma PrintUndoesParse(s: string)
    ensures PrintValue(ParseValue(s)) == s <==> !OddSpelling(s)
    ensures PrintAction(ParseAction(s)) == s <==> !OddSpelling(s)
  {
    if Decimal.ParseSigned(s, I32_BOUND).Some? {
      Decimal.PrintUndoesParse(s, I32_BOUND);
    }
    if s == "toggle" || s == "stop" {
      WordsAreNotIntegers(s);
    }
  }

  /** One trip reaches a fixed point: parsing the printed form of a parsed text changes nothing. */
  lemma ReparseIsStable(s: string)
    ensures ParseValue(PrintValue(ParseValue(s))) == ParseValue(s)
    ensures ParseAction(PrintAction(ParseAction(s))) == ParseAction(s)
    ensures ParseValue(s).Shutter? ==> ParseValue(s).state in {Up, Down}
  {
    PrintUndoesParse(s);
    if OddSpelling(s) {
      var i := Decimal.ParseSigned(s, I32_BOUND).value;
      Decimal.ParseUndoesPrint(i, I32_BOUND);
      IntegersAreNotActions(i);
      if s == "toggle" || s == "stop" {
        WordsAreNotIntegers(s);
      }
    }
  }

  lemma IntegersAreNotActions(i: i32)
    ensures Decimal.PrintSigned(i) != "toggle" && Decimal.PrintSigned(i) != "stop"
  {
    Decimal.ParseUndoesPrint(i, I32_BOUND);
    WordsAreNotIntegers("toggle");
    WordsAreNotIntegers("stop");
  }

  /** A value survives a trip through text unless it is a moving shutter, or a text that reads as something else.
      Both directions of travel print as "up", the downward one included. */
  lemma ParseUndoesPrint(v: IOValue)
    ensures ParseValue(PrintValue(v)) == v <==>
            && !(v.Shutter? && v.state in {MovingUp, MovingDown})
            && !(v.Text? && (Keyword(v.s) || Decimal.ParseSigned(v.s, I32_BOUND).Some?))
  {
    match v
    case Bool(b) =>
      WordsAreNotIntegers(PrintValue(v));
    case Int(i) =>
      Decimal.ParseUndoesPrint(i, I32_BOUND);
    case Text(s) =>
    case Shutter(_) =>
      WordsAreNotIntegers(PrintValue(v));
  }

  /** The side a shutter is on, or moves to. */
  predicate Upward(state: ShutterState)
  {
    state in {Up, MovingUp}
  }

  /** Toggling a shutter asks for the side opposite to where it is or where it is going; a boolean is negated, an integer
      complemented bit by bit; only text cannot be toggled. */
  lemma ToggleReverses(v: IOValue)
    ensures ToggleValue(v).None? <==> v.Text?
    ensures v.Bool? ==> exists b :: ToggleValue(v) == Some(Bool(b)) && b != v.b
    ensures v.Int? ==> exists i :: ToggleValue(v) == Some(Int(i)) && v.i + i == -1
    ensures v.Shutter? ==>
              exists state :: ToggleValue(v) == Some(Shutter(state)) && state in {Up, Down} && (Upward(state) <==> !Upward(v.state))
  {
    match v
    case Bool(b) => assert ToggleValue(v) == Some(Bool(!b));
    case Int(i) => assert ToggleValue(v) == Some(Int(-1 - i));
    case Text(_) =>
    case Shutter(state) => assert ToggleValue(v) == Some(Shutter(if Upward(state) then Down else Up));
  }
}
