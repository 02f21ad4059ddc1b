/** A parameter the user can tune at run time (Xcode/ESP/src/tuneable.h).
    A Tuneable refers, without owning it, to an int, double or bool that
    lives elsewhere; it serialises that value as one line "<KIND> <value>"
    and writes a parsed line back through the same reference. */
module Tuneables {
  import opened Wrappers
  import opened TextFormat

  /** The C++ int that an INT_RANGE tuneable refers to. */
  newtype int32 = x: int | IsInt32(x)

  predicate IsInt32(n: int) { -0x8000_0000 <= n < 0x8000_0000 }

  /** Tuneable::Type. SET is declared, but no constructor produces it. */
  datatype Type = SET | INT_RANGE | DOUBLE_RANGE | BOOL

  /** Storage owned by someone else: what value_ptr_ points at. */
  class Cell<T> {
    var value: T

    constructor (v: T)
      ensures value == v
    {
      value := v;
    }
  }

  /** Names a caller-supplied std::function; what it does is outside the model.
      An empty std::function (nullptr) is None. */
  type Handler = nat

  /** What fromString takes from a line: the value it stores, by kind. */
  datatype Assignment =
    | AssignInt(i: int32)
    | AssignDouble(d: real)
    | AssignBool(b: bool)
    | NoAssignment

  /** What a change made by the user through the tuneable's control leads to. */
  datatype Reaction =
    | CallInt(intHandler: Handler, i: int32)
    | CallDouble(doubleHandler: Handler, d: real)
    | CallBool(boolHandler: Handler, b: bool)
    | ReloadPipeline

  /** The value word after an INT or DOUBLE tag is one the stream extraction
      reads without failing: a decimal integer in the int range, or a plain
      decimal fraction. Other lines are unrestricted. */
  predicate WellFormedLine(line: string)
  {
    match NextWord(line, 0)
    case None => true
    case Some((tag, e)) =>
      && (tag == "INT" ==>
            NextWord(line, e).Some? && ParseDecimal(NextWord(line, e).value.0).Some?
            && IsInt32(ParseDecimal(NextWord(line, e).value.0).value))
      && (tag == "DOUBLE" ==>
            NextWord(line, e).Some? && ParseFixed(NextWord(line, e).value.0).Some?)
  }

  predicate FirstWordIs(line: string, tag: string)
  {
    NextWord(line, 0).Some? && NextWord(line, 0).value.0 == tag
  }

  /** What fromString stores for a line. The first word selects the kind;
      a line whose first word is no known tag, the empty line included,
      stores nothing. After BOOL a missing second word leaves the word
      variable holding "BOOL", so the value is false. */
  function Decode(line: string): Assignment
    requires WellFormedLine(line)
  {
    match NextWord(line, 0)
    case None => NoAssignment
    case Some((tag, e)) =>
      if tag == "INT" then
        AssignInt(ParseDecimal(NextWord(line, e).value.0).value as int32)
      else if tag == "DOUBLE" then
        AssignDouble(ParseFixed(NextWord(line, e).value.0).value)
      else if tag == "BOOL" then
        var word := if NextWord(line, e).Some? then NextWord(line, e).value.0 else tag;
        AssignBool(word == "true")
      else
        NoAssignment
  }

  /** The first word alone selects the kind of what is stored. */
  lemma DecodeKind(line: string)
    requires WellFormedLine(line)
    ensures Decode(line).AssignInt? <==> FirstWordIs(line, "INT")
    ensures Decode(line).AssignDouble? <==> FirstWordIs(line, "DOUBLE")
    ensures Decode(line).AssignBool? <==> FirstWordIs(line, "BOOL")
    ensures Decode(line) == NoAssignment <==>
      !(FirstWordIs(line, "INT") || FirstWordIs(line, "DOUBLE") || FirstWordIs(line, "BOOL"))
  {
  }

  function IntLine(v: int32): string { "INT " + Decimal(v as int) }

  function BoolLine(b: bool): string { "BOOL " + (if b then "true" else "false") }

  function DoubleLine(x: real): string { "DOUBLE " + FixedPoint6(x) }

  /** An int line reads back as the same int, whatever range the tuneable has. */
  lemma IntLineRoundTrip(v: int32)
    ensures WellFormedLine(IntLine(v))
    ensures Decode(IntLine(v)) == AssignInt(v)
  {
    DecimalRoundTrip(v as int);
    NextWordOfPair("INT", Decimal(v as int));
    assert IntLine(v) == "INT" + " " + Decimal(v as int);
  }

  lemma BoolLineRoundTrip(b: bool)
    ensures WellFormedLine(BoolLine(b))
    ensures Decode(BoolLine(b)) == AssignBool(b)
  {
    var w := if b then "true" else "false";
    NextWordOfPair("BOOL", w);
    assert BoolLine(b) == "BOOL" + " " + w;
  }

  /** A double line reads back to within 5e-7 only: "%f" keeps six decimals. */
  lemma DoubleLineClose(x: real)
    ensures WellFormedLine(DoubleLine(x))
    ensures Decode(DoubleLine(x)).AssignDouble?
    ensures Abs(Decode(DoubleLine(x)).d - x) <= 0.0000005
  {
    FixedPoint6Close(x);
    DoubleWordDecode(FixedPoint6(x));
  }

  /** Digits past the sixth decimal are lost, so a double line need not read
      back as the same value: 0.0000001 is written "DOUBLE 0.000000" and reads
      back as 0. */
  lemma DoubleLineDropsDigits()
    ensures WellFormedLine(DoubleLine(0.0000001))
    ensures Decode(DoubleLine(0.0000001)) == AssignDouble(0.0)
  {
    TinyScalesToZero();
    VanishingDoubleLine(0.0000001);
  }

  /** A non-negative double that rounds to no millionths is stored as 0. */
  lemma VanishingDoubleLine(x: real)
    requires x >= 0.0 && ScaledMagnitude(x) == 0
    ensures WellFormedLine(DoubleLine(x))
    ensures Decode(DoubleLine(x)) == AssignDouble(0.0)
  {
    var n := ScaledMagnitude(x);
    var q, r := n / Micro, n % Micro;
    var w := NatDigits(q) + "." + Padded(r, 6);
    assert FixedPoint6(x) == w;
    assert n == q * 1000000 + r;
    UnsignedRendering(n, q, r);
    NatDigitsRoundTrip(q);
    assert w[0] == NatDigits(q)[0];
    assert ParseFixed(w) == Some(0.0);
    DoubleLineDecode(x);
  }

  /** A double line stores exactly what its rendering parses to. */
  lemma DoubleLineDecode(x: real)
    ensures ParseFixed(FixedPoint6(x)).Some? && WellFormedLine(DoubleLine(x))
    ensures Decode(DoubleLine(x)) == AssignDouble(ParseFixed(FixedPoint6(x)).value)
  {
    var w := FixedPoint6(x);
    FixedPoint6Close(x);
    DoubleWordDecode(w);
    assert DoubleLine(x) == "DOUBLE " + w;
  }

  lemma TinyScalesToZero()
    ensures ScaledMagnitude(0.0000001) == 0
  {
    assert Abs(0.0000001) * 1000000.0 == 0.1;
  }

  lemma DoubleWordDecode(w: string)
    requires IsWord(w) && ParseFixed(w).Some?
    ensures WellFormedLine("DOUBLE " + w)
    ensures Decode("DOUBLE " + w) == AssignDouble(ParseFixed(w).value)
  {
    var line := "DOUBLE " + w;
    NextWordOfPair("DOUBLE", w);
    assert line == "DOUBLE" + " " + w;
    assert NextWord(line, 0) == Some(("DOUBLE", 6));
    assert NextWord(line, 6) == Some((w, |line|));
    assert "DOUBLE" != "INT";
  }

  /** After the BOOL tag the value is true exactly when the next word is
      "true"; any other word, or none, gives false. */
  lemma BoolLineParse(line: string, e: nat)
    requires WellFormedLine(line)
    requires NextWord(line, 0) == Some(("BOOL", e))
    ensures Decode(line) == AssignBool(NextWord(line, e).Some? && NextWord(line, e).value.0 == "true")
  {
  }

  /** A line whose first word is not INT, DOUBLE or BOOL stores nothing. */
  lemma UnknownTagStoresNothing(line: string)
    requires WellFormedLine(line)
    requires NextWord(line, 0).None? || NextWord(line, 0).value.0 !in {"INT", "DOUBLE", "BOOL"}
    ensures Decode(line) == NoAssignment
  {
  }

  class Tuneable {
    const kind: Type
    /** value_ptr_, by kind: exactly the reference of the tuneable's kind is set. */
    const intValue: Cell?<int32>
    const doubleValue: Cell?<real>
    const boolValue: Cell?<bool>
    const title: string
    const description: string
    /** min_ and max_; the bool constructor leaves them uninitialised. */
    const range: Option<(real, real)>
    const intCallback: Option<Handler>
    const doubleCallback: Option<Handler>
    const boolCallback: Option<Handler>

    /** What every constructor establishes: the reference and the callback of
        the tuneable's own kind may be set, those of the other kinds are not. */
    ghost predicate Valid()
    {
      && (intValue != null <==> kind == INT_RANGE)
      && (doubleValue != null <==> kind == DOUBLE_RANGE)
      && (boolValue != null <==> kind == BOOL)
      && (intCallback.Some? ==> kind == INT_RANGE)
      && (doubleCallback.Some? ==> kind == DOUBLE_RANGE)
      && (boolCallback.Some? ==> kind == BOOL)
      && (kind == INT_RANGE || kind == DOUBLE_RANGE <==> range.Some?)
    }

    /** Range tuneable (int). */
    constructor IntRange(value: Cell<int32>, min: int32, max: int32,
                         title: string, description: string, cb: Option<Handler>)
      ensures Valid() && kind == INT_RANGE && intValue == value
      ensures range == Some((min as real, max as real))
      ensures this.title == title && this.description == description
      ensures intCallback == cb && doubleCallback == None && boolCallback == None
    {
      kind := INT_RANGE;
      intValue, doubleValue, boolValue := value, null, null;
      this.title, this.description := title, description;
      range := Some((min as real, max as real));
      intCallback, doubleCallback, boolCallback := cb, None, None;
    }

    /** Range tuneable (double). */
    constructor DoubleRange(value: Cell<real>, min: real, max: real,
                            title: string, description: string, cb: Option<Handler>)
      ensures Valid() && kind == DOUBLE_RANGE && doubleValue == value
      ensures range == Some((min, max))
      ensures this.title == title && this.description == description
      ensures intCallback == None && doubleCallback == cb && boolCallback == None
    {
      kind := DOUBLE_RANGE;
      intValue, doubleValue, boolValue := null, value, null;
      this.title, this.description := title, description;
      range := Some((min, max));
      intCallback, doubleCallback, boolCallback := None, cb, None;
    }

    /** Boolean tuneable. */
    constructor Boolean(value: Cell<bool>, title: string, description: string, cb: Option<Handler>)
      ensures Valid() && kind == BOOL && boolValue == value
      ensures range == None
      ensures this.title == title && this.description == description
      ensures intCallback == None && doubleCallback == None && boolCallback == cb
    {
      kind := BOOL;
      intValue, doubleValue, boolValue := null, null, value;
      this.title, this.description := title, description;
      range := None;
      intCallback, doubleCallback, boolCallback := None, None, cb;
    }

    /** getType: the kind, which tells which bound reference is live. */
    function GetType(): (t: Type)
      requires Valid()
      ensures t == INT_RANGE <==> intValue != null
      ensures t == DOUBLE_RANGE <==> doubleValue != null
      ensures t == BOOL <==> boolValue != null
    {
      kind
    }

    /** The current bound value, in the form fromString stores it. */
    ghost function Bound(): Assignment
      requires Valid()
      reads intValue, doubleValue, boolValue
    {
      match kind
      case INT_RANGE => AssignInt(intValue.value)
      case DOUBLE_RANGE => AssignDouble(doubleValue.value)
      case BOOL => AssignBool(boolValue.value)
      case SET => NoAssignment
    }

    /** toString: "<KIND> <value>" for the three value kinds, "" for SET.
        The int and bool lines read back as the bound value exactly, the
        double line to within 5e-7. */
    function ToString(): (s: string)
      requires Valid()
      reads intValue, doubleValue, boolValue
      ensures WellFormedLine(s)
      ensures kind == INT_RANGE ==> s == IntLine(intValue.value) && Decode(s) == AssignInt(intValue.value)
      ensures kind == BOOL ==> s == BoolLine(boolValue.value) && Decode(s) == AssignBool(boolValue.value)
      ensures kind == DOUBLE_RANGE ==> s == DoubleLine(doubleValue.value) && Decode(s).AssignDouble? && Abs(Decode(s).d - doubleValue.value) <= 0.0000005
      ensures kind == SET ==> s == ""
    {
      match kind
      case INT_RANGE =>
        IntLineRoundTrip(intValue.value);
        IntLine(intValue.value)
      case DOUBLE_RANGE =>
        DoubleLineClose(doubleValue.value);
        DoubleLine(doubleValue.value)
      case BOOL =>
        BoolLineRoundTrip(boolValue.value);
        BoolLine(boolValue.value)
      case SET => ""
    }

    /** fromString dispatches on the line's tag, not on kind: a tag of another
        kind would write through a reference of the wrong type, so the tag
        must match. */
    predicate TagMatches(a: Assignment)
    {
      match a
      case AssignInt(_) => kind == INT_RANGE
      case AssignDouble(_) => kind == DOUBLE_RANGE
      case AssignBool(_) => kind == BOOL
      case NoAssignment => true
    }

    /** fromString: reads the tag word, then the value, and stores the value
        through the bound reference as read, with no clamping to the range.
        It reports false on every path. */
    method FromString(str: string) returns (ok: bool)
      requires Valid() && WellFormedLine(str) && TagMatches(Decode(str))
      modifies intValue, doubleValue, boolValue
      ensures !ok
      ensures Decode(str) == NoAssignment ==> Bound() == old(Bound())
      ensures Decode(str) != NoAssignment ==> Bound() == Decode(str)
    {
      var word := "";
      var found, w, pos := ExtractWord(str, 0);
      if found {
        word := w;
      }
      if word == "INT" {
        var n, _ := ExtractInt(str, pos);
        intValue.value := n as int32;
      } else if word == "DOUBLE" {
        var _, v, _ := ExtractWord(str, pos);
        doubleValue.value := ParseFixed(v).value;
      } else if word == "BOOL" {
        var more, v, _ := ExtractWord(str, pos);
        if more {
          word := v;
        }
        boolValue.value := word == "true";
      }
      return false;
    }

    /** The callback supplied for the tuneable's own kind, if any. */
    function Callback(): Option<Handler>
    {
      match kind
      case INT_RANGE => intCallback
      case DOUBLE_RANGE => doubleCallback
      case BOOL => boolCallback
      case SET => None
    }

    /** The documented rule for a user change: a supplied callback is called
        with the new value; without one, the pipeline is reloaded instead. */
    function Dispatch(a: Assignment): (r: Reaction)
      requires Valid() && a != NoAssignment && TagMatches(a)
      ensures r == ReloadPipeline <==> Callback() == None
      ensures r != ReloadPipeline ==>
        match a
        case AssignInt(v) => r == CallInt(intCallback.value, v)
        case AssignDouble(v) => r == CallDouble(doubleCallback.value, v)
        case AssignBool(v) => r == CallBool(boolCallback.value, v)
        case NoAssignment => false
    {
      match a
      case AssignInt(v) => if intCallback.Some? then CallInt(intCallback.value, v) else ReloadPipeline
      case AssignDouble(v) => if doubleCallback.Some? then CallDouble(doubleCallback.value, v) else ReloadPipeline
      case AssignBool(v) => if boolCallback.Some? then CallBool(boolCallback.value, v) else ReloadPipeline
    }

    /** The values the tuneable's control offers: a slider stays within
        [min, max]; a toggle offers both bools. */
    predicate InRange(a: Assignment)
    {
      match a
      case AssignInt(v) => range.Some? && range.value.0 <= v as real <= range.value.1
      case AssignDouble(v) => range.Some? && range.value.0 <= v <= range.value.1
      case AssignBool(_) => true
      case NoAssignment => true
    }

    /** A change made through the control: the bound variable takes the new
        value, then the dispatch rule decides between callback and reload. */
    method UserChanged(a: Assignment) returns (r: Reaction)
      requires Valid() && a != NoAssignment && TagMatches(a) && InRange(a)
      modifies intValue, doubleValue, boolValue
      ensures Bound() == a
      ensures r == Dispatch(a)
    {
      match a {
        case AssignInt(v) => intValue.value := v;
        case AssignDouble(v) => doubleValue.value := v;
        case AssignBool(v) => boolValue.value := v;
      }
      r := Dispatch(a);
    }
  }
}
