/** A parcel held at the depot: its identifier, dimensions, weight, dwell time and collected flag. */
module ParcelModel {
  import opened JavaStrings

  datatype Parcel = Parcel(
    id: string,
    length: real,
    width: real,
    height: real,
    weight: real,
    daysInDepot: int,
    collected: bool)

  /** The six-argument constructor: every argument is stored as given and the parcel starts uncollected. */
  function NewParcel(id: string, length: real, width: real, height: real, weight: real, daysInDepot: int): (p: Parcel)
    ensures p.id == id && p.length == length && p.width == width && p.height == height
    ensures p.weight == weight && p.daysInDepot == daysInDepot
    ensures !p.collected
  {
    Parcel(id, length, width, height, weight, daysInDepot, false)
  }

  /** The seven fields a setter can write, and the value a getter reads back. */
  datatype Field = Id | Length | Width | Height | Weight | Days | Collected

  datatype Value = Text(s: string) | Number(r: real) | Count(n: int) | Flag(b: bool)

  /** One setter call. */
  datatype Update =
    | SetParcelId(s: string)
    | SetLength(r: real)
    | SetWidth(r: real)
    | SetHeight(r: real)
    | SetWeight(r: real)
    | SetDaysInDepot(n: int)
    | SetCollected(b: bool)
  {
    function Target(): Field {
      match this
      case SetParcelId(_) => Id
      case SetLength(_) => Length
      case SetWidth(_) => Width
      case SetHeight(_) => Height
      case SetWeight(_) => Weight
      case SetDaysInDepot(_) => Days
      case SetCollected(_) => Collected
    }

    function Written(): Value {
      match this
      case SetParcelId(s) => Text(s)
      case SetLength(r) => Number(r)
      case SetWidth(r) => Number(r)
      case SetHeight(r) => Number(r)
      case SetWeight(r) => Number(r)
      case SetDaysInDepot(n) => Count(n)
      case SetCollected(b) => Flag(b)
    }
  }

  /** The getter for field `f`. */
  function Get(p: Parcel, f: Field): Value {
    match f
    case Id => Text(p.id)
    case Length => Number(p.length)
    case Width => Number(p.width)
    case Height => Number(p.height)
    case Weight => Number(p.weight)
    case Days => Count(p.daysInDepot)
    case Collected => Flag(p.collected)
  }

  /** One setter call: its own field reads back the value written, every other field is untouched. */
  function Apply(p: Parcel, u: Update): (r: Parcel)
    ensures Get(r, u.Target()) == u.Written()
    ensures forall f :: f != u.Target() ==> Get(r, f) == Get(p, f)
  {
    match u
    case SetParcelId(s) => p.(id := s)
    case SetLength(x) => p.(length := x)
    case SetWidth(x) => p.(width := x)
    case SetHeight(x) => p.(height := x)
    case SetWeight(x) => p.(weight := x)
    case SetDaysInDepot(n) => p.(daysInDepot := n)
    case SetCollected(b) => p.(collected := b)
  }

  /** A sequence of setter calls, in order. */
  function ApplyAll(p: Parcel, us: seq<Update>): Parcel
    decreases |us|
  {
    if |us| == 0 then p else ApplyAll(Apply(p, us[0]), us[1..])
  }

  predicate Writes(us: seq<Update>, f: Field) {
    exists i :: 0 <= i < |us| && us[i].Target() == f
  }

  /** A field no setter call writes keeps its value. */
  lemma {:induction false} UnwrittenFieldKept(p: Parcel, us: seq<Update>, f: Field)
    requires !Writes(us, f)
    ensures Get(ApplyAll(p, us), f) == Get(p, f)
    decreases |us|
  {
    if |us| > 0 {
      assert us[0].Target() != f;
      UnwrittenFieldKept(Apply(p, us[0]), us[1..], f);
    }
  }

  lemma {:induction false} ApplyAllAppend(p: Parcel, a: seq<Update>, b: seq<Update>)
    ensures ApplyAll(p, a + b) == ApplyAll(ApplyAll(p, a), b)
    decreases |a|
  {
    if |a| > 0 {
      assert (a + b)[0] == a[0];
      assert (a + b)[1..] == a[1..] + b;
      ApplyAllAppend(Apply(p, a[0]), a[1..], b);
    } else {
      assert a + b == b;
    }
  }

  /** Each getter returns the value of the last setter call on its field. */
  lemma LastWriteWins(p: Parcel, before: seq<Update>, u: Update, after: seq<Update>)
    requires !Writes(after, u.Target())
    ensures Get(ApplyAll(p, before + [u] + after), u.Target()) == u.Written()
  {
    ApplyAllAppend(p, before + [u], after);
    ApplyAllAppend(p, before, [u]);
    var q := ApplyAll(p, before);
    assert ApplyAll(q, [u]) == Apply(q, u);
    UnwrittenFieldKept(ApplyAll(p, before + [u]), after, u.Target());
  }

  /** A fresh parcel reads as collected only once `setCollected(true)` has been called. */
  lemma StaysUncollected(id: string, length: real, width: real, height: real, weight: real,
                         days: int, us: seq<Update>)
    requires SetCollected(true) !in us
    ensures !ApplyAll(NewParcel(id, length, width, height, weight, days), us).collected
  {
    var p := NewParcel(id, length, width, height, weight, days);
    CollectedFlagFalse(p, us);
  }

  lemma {:induction false} CollectedFlagFalse(p: Parcel, us: seq<Update>)
    requires !p.collected
    requires SetCollected(true) !in us
    ensures !ApplyAll(p, us).collected
    decreases |us|
  {
    if |us| > 0 {
      assert us[0] != SetCollected(true);
      assert Get(Apply(p, us[0]), Collected) == Flag(false);
      CollectedFlagFalse(Apply(p, us[0]), us[1..]);
    }
  }

  predicate IsAsciiDigit(c: char) {
    '0' <= c <= '9'
  }

  /** `^[XC]\d+$`: an upper-case X or C followed by one or more ASCII digits, and nothing else. */
  predicate IsValidId(id: string) {
    && |id| >= 2
    && (id[0] == 'X' || id[0] == 'C')
    && forall i :: 1 <= i < |id| ==> IsAsciiDigit(id[i])
  }

  /** The states of the matcher for `^[XC]\d+$`. */
  datatype MatchState = Start | AfterPrefix | InDigits | Rejected

  function NextState(m: MatchState, c: char): MatchState {
    match m
    case Start => if c == 'X' || c == 'C' then AfterPrefix else Rejected
    case AfterPrefix => if IsAsciiDigit(c) then InDigits else Rejected
    case InDigits => if IsAsciiDigit(c) then InDigits else Rejected
    case Rejected => Rejected
  }

  /** `parcelID.matches("^[XC]\\d+$")`, run as a left-to-right matcher over the characters. */
  method MatchesIdPattern(id: string) returns (ok: bool)
    ensures ok <==> IsValidId(id)
  {
    var m := Start;
    var i := 0;
    while i < |id|
      invariant 0 <= i <= |id|
      invariant i == 0 <==> m == Start
      invariant m == AfterPrefix <==> (i == 1 && (id[0] == 'X' || id[0] == 'C'))
      invariant m == InDigits <==> (i >= 2 && IsValidId(id[..i]))
    {
      assert id[..i + 1][..i] == id[..i];
      m := NextState(m, id[i]);
      i := i + 1;
    }
    assert id[..i] == id;
    ok := m == InDigits;
  }

  /** Identifiers the pattern turns away: empty, a prefix with no digits, a lower-case prefix, a trailing letter. */
  lemma InvalidIdExamples()
    ensures !IsValidId("") && !IsValidId("X") && !IsValidId("C")
    ensures !IsValidId("x12") && !IsValidId("X1a")
    ensures IsValidId("X12") && IsValidId("C200")
  {
    assert !IsAsciiDigit("X1a"[2]);
  }

  /** `Parcel.toString()`, with `Double.toString` given as `decimal`. */
  function ParcelText(p: Parcel, decimal: real -> string): string {
    "Parcel{ID='" + p.id + "'"
      + ", dim=" + decimal(p.length) + "x" + decimal(p.width) + "x" + decimal(p.height)
      + ", weight=" + decimal(p.weight)
      + ", daysInDepot=" + IntText(p.daysInDepot)
      + ", collected=" + (if p.collected then "true" else "false")
      + "}"
  }
}
