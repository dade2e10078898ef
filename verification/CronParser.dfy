/** The five-field cron parser on tokens: a field is a list of comma parts, a
    part a range with an optional step, a value a number or a name.  Numbers
    are 64-bit, and so is the loop variable that walks a stepped range. */
module CronParser {
  import opened Wrappers
  import opened Cron
  import opened Division

  const MAX_INT: int := 0x7FFF_FFFF_FFFF_FFFF
  const TWO_64: int := 0x1_0000_0000_0000_0000

  type Int64 = n: int | -MAX_INT - 1 <= n <= MAX_INT

  datatype Value = Number(n: Int64) | Word(w: string)
  datatype Range = Star | Span(lo: Value, hi: Value) | One(v: Value)
  datatype Step = NoStep | Every(n: Int64) | BadStep
  datatype Part = Part(range: Range, step: Step)

  datatype Error = FieldCount | InvalidStep | InvalidValue | OutOfRange | Inverted

  const MONTHS: map<string, int> := map["jan" := 1, "feb" := 2, "mar" := 3, "apr" := 4, "may" := 5, "jun" := 6,
    "jul" := 7, "aug" := 8, "sep" := 9, "oct" := 10, "nov" := 11, "dec" := 12]
  const WEEKDAYS: map<string, int> := map["sun" := 0, "mon" := 1, "tue" := 2, "wed" := 3, "thu" := 4,
    "fri" := 5, "sat" := 6]

  function ParseValue(v: Value, min: int, max: int, names: map<string, int>): Result<int, Error> {
    match v
    case Word(w) => if w in names then Ok(names[w]) else Err(InvalidValue)
    case Number(n) => if n < min || n > max then Err(OutOfRange) else Ok(n)
  }

  /** The bounds and the step of a part, or its error. */
  function PartBounds(part: Part, min: int, max: int, names: map<string, int>): Result<(int, int, int), Error> {
    if part.step.BadStep? || (part.step.Every? && part.step.n <= 0) then Err(InvalidStep) else
    var step := if part.step.Every? then part.step.n else 1;
    match part.range
    case Star => Ok((min, max, step))
    case Span(a, b) =>
      var lo := ParseValue(a, min, max, names);
      if lo.Err? then Err(lo.error) else
      var hi := ParseValue(b, min, max, names);
      if hi.Err? then Err(hi.error)
      else if lo.value > hi.value then Err(Inverted)
      else Ok((lo.value, hi.value, step))
    case One(a) =>
      var v := ParseValue(a, min, max, names);
      if v.Err? then Err(v.error) else Ok((v.value, v.value, step))
  }

  // ------------------------------------------------------- the stepped walk

  /** 64-bit addition of a positive step. */
  function Add64(v: int, step: int): int {
    if v + step > MAX_INT then v + step - TWO_64 else v + step
  }

  /** Steps this close to the largest integer overflow on the first addition
      that does not leave the range. */
  predicate HugeStep(step: int) {
    step > MAX_INT - 60
  }

  /** The values the loop variable takes: small, or just wrapped around. */
  predicate Walking(v: int, hi: int, step: int) {
    && 0 <= hi <= 59 && 1 <= step <= MAX_INT && v <= MAX_INT
    && (if HugeStep(step) then v >= -62 || (v < -1000 && -62 <= v + step <= 59) else v >= 0)
  }

  function WalkMeasure(v: int, hi: int, step: int): int
    requires Walking(v, hi, step)
  {
    if v > hi then 0
    else if !HugeStep(step) then hi - v + 1
    else if v >= -62 then 2 * (v + 1000)
    else 2 * (v + step + 1000) + 1
  }

  lemma WalkAdvances(v: int, hi: int, step: int)
    requires Walking(v, hi, step) && v <= hi
    ensures Walking(Add64(v, step), hi, step)
    ensures 0 <= WalkMeasure(Add64(v, step), hi, step) < WalkMeasure(v, hi, step)
  {
  }

  /** The values inserted by the loop from v on. */
  function Walk(v: int, hi: int, step: int): set<int>
    requires Walking(v, hi, step)
    decreases WalkMeasure(v, hi, step)
  {
    if v > hi then {} else
    WalkAdvances(v, hi, step);
    {v} + Walk(Add64(v, step), hi, step)
  }

  predicate OnStep(v: int, lo: int, step: int)
    requires step > 0
  {
    (v - lo) % step == 0
  }

  /** The values a part denotes. */
  function Denoted(lo: int, hi: int, step: int): set<int>
    requires step > 0
  {
    set v | lo <= v <= hi && OnStep(v, lo, step)
  }

  /** The last denoted value. */
  function LastValue(lo: int, hi: int, step: int): int
    requires step > 0
  {
    lo + (hi - lo) / step * step
  }

  lemma DenotedFrom(lo: int, hi: int, step: int)
    requires step > 0 && lo <= hi
    ensures Denoted(lo, hi, step) == {lo} + Denoted(lo + step, hi, step)
  {
    forall v | lo <= v <= hi
      ensures v in Denoted(lo, hi, step) <==> v in {lo} + Denoted(lo + step, hi, step)
    {
      assert v - lo == (v - (lo + step)) + step;
      AddModulus(v - (lo + step), step);
      if v < lo + step {
        SmallRemainder(v - lo, step);
      }
    }
  }

  lemma AddModulus(a: int, k: int)
    requires k > 0
    ensures (a + k) % k == a % k
  {
    Quotient(a + k, k, a / k + 1, a % k);
  }

  lemma SmallRemainder(a: int, k: int)
    requires 0 <= a < k
    ensures a % k == a && a / k == 0
  {
    Quotient(a, k, 0, a);
  }

  lemma LastFrom(lo: int, hi: int, step: int)
    requires step > 0 && lo <= hi
    ensures LastValue(lo, hi, step) == if lo + step <= hi then LastValue(lo + step, hi, step) else lo
  {
    if lo + step <= hi {
      var a := hi - lo - step;
      Quotient(a + step, step, a / step + 1, a % step);
      assert (a / step + 1) * step == a / step * step + step;
    } else {
      SmallRemainder(hi - lo, step);
    }
  }

  /** The walk inserts exactly the denoted values if and only if the addition
      that leaves the range does not overflow. */
  lemma {:induction false} WalkIsDenoted(lo: int, hi: int, step: int)
    requires 0 <= lo <= hi <= 59 && 1 <= step <= MAX_INT
    ensures Walk(lo, hi, step) == Denoted(lo, hi, step) <==> LastValue(lo, hi, step) + step <= MAX_INT
    ensures LastValue(lo, hi, step) + step > MAX_INT ==> exists v :: v in Walk(lo, hi, step) && v < 0
    decreases hi - lo
  {
    DenotedFrom(lo, hi, step);
    LastFrom(lo, hi, step);
    WalkAdvances(lo, hi, step);
    var v := Add64(lo, step);
    assert v in Walk(v, hi, step) || v > hi;
    if lo + step <= hi {
      WalkIsDenoted(lo + step, hi, step);
      assert lo !in Denoted(lo + step, hi, step);
      if lo in Walk(lo + step, hi, step) {
        WalkStaysAbove(lo + step, hi, step);
      }
    } else {
      assert Denoted(lo + step, hi, step) == {};
    }
  }

  /** Without overflow the walk only goes up. */
  lemma {:induction false} WalkStaysAbove(lo: int, hi: int, step: int)
    requires Walking(lo, hi, step) && !HugeStep(step)
    ensures forall v :: v in Walk(lo, hi, step) ==> v >= lo
    decreases WalkMeasure(lo, hi, step)
  {
    if lo <= hi {
      WalkAdvances(lo, hi, step);
      WalkStaysAbove(lo + step, hi, step);
    }
  }

  // ---------------------------------------------------------------- fields

  /** The ranges of the five fields and their names. */
  predicate FieldRange(min: int, max: int, names: map<string, int>) {
    0 <= min <= max <= 59 && forall w :: w in names ==> min <= names[w] <= max
  }

  lemma BoundsInRange(part: Part, min: int, max: int, names: map<string, int>)
    requires FieldRange(min, max, names)
    ensures var b := PartBounds(part, min, max, names);
            b.Ok? ==> min <= b.value.0 <= b.value.1 <= max && 1 <= b.value.2 <= MAX_INT
  {
  }

  /** Every value of the parts up to the first error. */
  function PartsValues(parts: seq<Part>, min: int, max: int, names: map<string, int>): Result<set<int>, Error>
    requires FieldRange(min, max, names)
  {
    if parts == [] then Ok({}) else
    var k := |parts| - 1;
    var before := PartsValues(parts[..k], min, max, names);
    if before.Err? then before else
    var b := PartBounds(parts[k], min, max, names);
    if b.Err? then Err(b.error) else
    BoundsInRange(parts[k], min, max, names);
    Ok(before.value + Walk(b.value.0, b.value.1, b.value.2))
  }

  predicate PlainStar(parts: seq<Part>) {
    parts == [Part(Star, NoStep)]
  }

  function FieldOf(parts: seq<Part>, min: int, max: int, names: map<string, int>): Result<Field, Error>
    requires FieldRange(min, max, names)
  {
    if PlainStar(parts) then Ok(Field(Denoted(min, max, 1), true)) else
    match PartsValues(parts, min, max, names)
    case Ok(values) => Ok(Field(values, false))
    case Err(e) => Err(e)
  }

  /** 7 is Sunday as well. */
  function FoldSunday(f: Field): Field {
    if 7 in f.values then f.(values := f.values + {0} - {7}) else f
  }

  function CronOf(fields: seq<seq<Part>>): Result<Expr, Error> {
    if |fields| != 5 then Err(FieldCount) else
    var minute := FieldOf(fields[0], 0, 59, map[]);
    if minute.Err? then Err(minute.error) else
    var hour := FieldOf(fields[1], 0, 23, map[]);
    if hour.Err? then Err(hour.error) else
    var dom := FieldOf(fields[2], 1, 31, map[]);
    if dom.Err? then Err(dom.error) else
    var month := FieldOf(fields[3], 1, 12, MONTHS);
    if month.Err? then Err(month.error) else
    var dow := FieldOf(fields[4], 0, 7, WEEKDAYS);
    if dow.Err? then Err(dow.error) else
    Ok(Expr(minute.value, hour.value, dom.value, month.value, FoldSunday(dow.value)))
  }

  /** The field under construction, filled part by part. */
  class FieldBuilder {
    const min: int
    const max: int
    var values: set<int>
    var star: bool

    constructor (min: int, max: int)
      ensures this.min == min && this.max == max && values == {} && !star
    {
      this.min, this.max, values, star := min, max, {}, false;
    }

    method AddPart(part: Part, names: map<string, int>) returns (err: Option<Error>)
      requires FieldRange(min, max, names)
      modifies this`values
      ensures var b := PartBounds(part, min, max, names);
              if b.Err? then err == Some(b.error) && values == old(values)
              else Walking(b.value.0, b.value.1, b.value.2) && err.None?
                   && values == old(values) + Walk(b.value.0, b.value.1, b.value.2)
    {
      var b := PartBounds(part, min, max, names);
      if b.Err? {
        return Some(b.error);
      }
      BoundsInRange(part, min, max, names);
      var (lo, hi, step) := b.value;
      var v := lo;
      while v <= hi
        invariant Walking(v, hi, step)
        invariant values + Walk(v, hi, step) == old(values) + Walk(lo, hi, step)
        decreases WalkMeasure(v, hi, step)
      {
        if v > max {
          break;
        }
        WalkAdvances(v, hi, step);
        values := values + {v};
        v := Add64(v, step);
      }
      return None;
    }

    method AddRange()
      modifies this`values
      ensures values == old(values) + Denoted(min, max, 1)
    {
      var v := min;
      while v <= max
        invariant min <= v <= max + 1 || v == min
        invariant values == old(values) + Denoted(min, v - 1, 1)
      {
        assert Denoted(min, v, 1) == Denoted(min, v - 1, 1) + {v} by {
          assert OnStep(v, min, 1);
        }
        values := values + {v};
        v := v + 1;
      }
    }
  }

  method ParseField(parts: seq<Part>, min: int, max: int, names: map<string, int>)
    returns (r: Result<Field, Error>)
    requires FieldRange(min, max, names)
    ensures r == FieldOf(parts, min, max, names)
  {
    var f := new FieldBuilder(min, max);
    if PlainStar(parts) {
      f.star := true;
      f.AddRange();
      assert f.values == Denoted(min, max, 1);
      return Ok(Field(f.values, f.star));
    }
    for i := 0 to |parts|
      invariant f.min == min && f.max == max && !f.star
      invariant PartsValues(parts[..i], min, max, names) == Ok(f.values)
    {
      assert parts[..i + 1][..i] == parts[..i];
      var err := f.AddPart(parts[i], names);
      if err.Some? {
        FirstErrorWins(parts, i + 1, min, max, names);
        return Err(err.value);
      }
    }
    assert parts[..|parts|] == parts;
    return Ok(Field(f.values, f.star));
  }

  lemma {:induction false} FirstErrorWins(parts: seq<Part>, i: nat, min: int, max: int, names: map<string, int>)
    requires FieldRange(min, max, names) && i <= |parts|
    requires PartsValues(parts[..i], min, max, names).Err?
    ensures PartsValues(parts, min, max, names) == PartsValues(parts[..i], min, max, names)
    decreases |parts|
  {
    if i == |parts| {
      assert parts[..i] == parts;
    } else {
      var k := |parts| - 1;
      assert parts[..k][..i] == parts[..i];
      FirstErrorWins(parts[..k], i, min, max, names);
    }
  }

  // ---------------------------------------------------------------- meaning

  /** A number in the range of the field or a known name. */
  predicate Readable(v: Value, min: int, max: int, names: map<string, int>) {
    match v
    case Number(n) => min <= n <= max
    case Word(w) => w in names
  }

  function Meaning(v: Value, names: map<string, int>): int {
    match v
    case Number(n) => n
    case Word(w) => if w in names then names[w] else 0
  }

  function Stride(step: Step): int {
    if step.Every? then step.n else 1
  }

  /** The part is well-formed for the field. */
  predicate Legal(part: Part, min: int, max: int, names: map<string, int>) {
    && !part.step.BadStep? && Stride(part.step) > 0
    && match part.range
       case Star => true
       case Span(a, b) =>
         Readable(a, min, max, names) && Readable(b, min, max, names) && Meaning(a, names) <= Meaning(b, names)
       case One(a) => Readable(a, min, max, names)
  }

  /** The part denotes the value: every step-th one of its range, or its single
      value. */
  predicate PartDenotes(part: Part, min: int, max: int, names: map<string, int>, v: int) {
    Legal(part, min, max, names) &&
    match part.range
    case Star => min <= v <= max && OnStep(v, min, Stride(part.step))
    case Span(a, b) => Meaning(a, names) <= v <= Meaning(b, names) && OnStep(v, Meaning(a, names), Stride(part.step))
    case One(a) => v == Meaning(a, names)
  }

  /** The bounds are found exactly for a well-formed part. */
  lemma BoundsLegal(part: Part, min: int, max: int, names: map<string, int>)
    ensures PartBounds(part, min, max, names).Ok? <==> Legal(part, min, max, names)
    ensures PartBounds(part, min, max, names).Ok? ==> PartBounds(part, min, max, names).value.2 == Stride(part.step) > 0
  {
  }

  /** The bounds lead to the values the part denotes. */
  lemma BoundsMean(part: Part, min: int, max: int, names: map<string, int>, v: int)
    requires PartBounds(part, min, max, names).Ok?
    ensures var b := PartBounds(part, min, max, names).value;
            b.2 > 0 && (v in Denoted(b.0, b.1, b.2) <==> PartDenotes(part, min, max, names, v))
  {
    BoundsLegal(part, min, max, names);
    hide OnStep;
    match part.range
    case One(a) => ZeroOnStep(Meaning(a, names), Stride(part.step));
    case _ =>
  }

  lemma ZeroOnStep(v: int, step: int)
    requires step > 0
    ensures OnStep(v, v, step)
  {
  }

  lemma {:induction false} PartsFailIff(parts: seq<Part>, min: int, max: int, names: map<string, int>)
    requires FieldRange(min, max, names)
    ensures PartsValues(parts, min, max, names).Err?
            <==> exists i :: 0 <= i < |parts| && !Legal(parts[i], min, max, names)
  {
    if parts != [] {
      var k := |parts| - 1;
      PartsFailIff(parts[..k], min, max, names);
      BoundsLegal(parts[k], min, max, names);
      assert forall i :: 0 <= i < k ==> parts[..k][i] == parts[i];
      if PartsValues(parts[..k], min, max, names).Err? {
        var i :| 0 <= i < k && !Legal(parts[..k][i], min, max, names);
        assert !Legal(parts[i], min, max, names);
      }
    }
  }

  /** A field is refused exactly when one of its parts is not well-formed. */
  lemma FieldRefusedIff(parts: seq<Part>, min: int, max: int, names: map<string, int>)
    requires FieldRange(min, max, names)
    ensures FieldOf(parts, min, max, names).Err? <==> exists i :: 0 <= i < |parts| && !Legal(parts[i], min, max, names)
  {
    PartsFailIff(parts, min, max, names);
    assert PlainStar(parts) ==> Legal(parts[0], min, max, names);
  }

  /** The step of the part leaves the range without overflow. */
  predicate PartFits(part: Part, min: int, max: int, names: map<string, int>)
    requires FieldRange(min, max, names)
  {
    var b := PartBounds(part, min, max, names);
    BoundsInRange(part, min, max, names);
    b.Ok? ==> LastValue(b.value.0, b.value.1, b.value.2) + b.value.2 <= MAX_INT
  }

  ghost predicate FieldDenotes(parts: seq<Part>, min: int, max: int, names: map<string, int>, v: int)
    requires FieldRange(min, max, names)
  {
    exists i :: 0 <= i < |parts| && PartDenotes(parts[i], min, max, names, v)
  }

  /** The values a part inserts are those it denotes when its step fits, and
      include a negative one when it does not. */
  lemma PartInserts(part: Part, min: int, max: int, names: map<string, int>)
    requires FieldRange(min, max, names) && PartBounds(part, min, max, names).Ok?
    ensures var b := PartBounds(part, min, max, names).value;
            && min <= b.0 <= max && Walking(b.0, b.1, b.2) && b.0 in Walk(b.0, b.1, b.2)
            && (if PartFits(part, min, max, names)
                then forall v :: v in Walk(b.0, b.1, b.2) <==> PartDenotes(part, min, max, names, v)
                else exists v :: v in Walk(b.0, b.1, b.2) && v < 0)
  {
    BoundsInRange(part, min, max, names);
    var (lo, hi, step) := PartBounds(part, min, max, names).value;
    forall v
      ensures v in Denoted(lo, hi, step) <==> PartDenotes(part, min, max, names, v)
    {
      BoundsMean(part, min, max, names, v);
    }
    WalkIsDenoted(lo, hi, step);
  }

  ghost predicate AllFit(parts: seq<Part>, min: int, max: int, names: map<string, int>)
    requires FieldRange(min, max, names)
  {
    forall i :: 0 <= i < |parts| ==> PartFits(parts[i], min, max, names)
  }

  lemma FitSplits(parts: seq<Part>, min: int, max: int, names: map<string, int>)
    requires FieldRange(min, max, names) && parts != []
    ensures var k := |parts| - 1;
            AllFit(parts, min, max, names)
            <==> AllFit(parts[..k], min, max, names) && PartFits(parts[k], min, max, names)
  {
    var k := |parts| - 1;
    assert forall i :: 0 <= i < k ==> parts[..k][i] == parts[i];
    if AllFit(parts[..k], min, max, names) && PartFits(parts[k], min, max, names) {
      forall i | 0 <= i < |parts|
        ensures PartFits(parts[i], min, max, names)
      {
        assert i < k ==> parts[i] == parts[..k][i];
      }
    }
  }

  /** A parsed list of parts selects exactly the union of what its parts
      denote, if and only if no step overflows. */
  lemma {:induction false} PartsAreUnion(parts: seq<Part>, min: int, max: int, names: map<string, int>)
    requires FieldRange(min, max, names) && PartsValues(parts, min, max, names).Ok?
    ensures var values := PartsValues(parts, min, max, names).value;
            && (parts != [] ==> exists v :: min <= v <= max && v in values)
            && (if AllFit(parts, min, max, names)
                then forall v :: v in values <==> FieldDenotes(parts, min, max, names, v)
                else exists v :: v in values && v < 0)
    decreases |parts|
  {
    if parts != [] {
      var k := |parts| - 1;
      PartsAreUnion(parts[..k], min, max, names);
      PartInserts(parts[k], min, max, names);
      UnionSplits(parts, min, max, names);
      FitSplits(parts, min, max, names);
    }
  }

  /** A field selects exactly the union of what its parts denote if and only
      if no step overflows. */
  lemma FieldSelectsUnion(parts: seq<Part>, min: int, max: int, names: map<string, int>)
    requires FieldRange(min, max, names) && FieldOf(parts, min, max, names).Ok?
    ensures var f := FieldOf(parts, min, max, names).value;
            (forall v :: v in f.values <==> FieldDenotes(parts, min, max, names, v))
            <==> AllFit(parts, min, max, names)
  {
    if PlainStar(parts) {
      var f := FieldOf(parts, min, max, names).value;
      assert PartBounds(parts[0], min, max, names) == Ok((min, max, 1));
      assert PartDenotes(parts[0], min, max, names, min);
      assert forall v :: v in f.values <==> PartDenotes(parts[0], min, max, names, v);
    } else {
      PartsAreUnion(parts, min, max, names);
      assert forall v :: FieldDenotes(parts, min, max, names, v) ==> v >= min;
    }
  }

  lemma UnionSplits(parts: seq<Part>, min: int, max: int, names: map<string, int>)
    requires FieldRange(min, max, names) && parts != []
    ensures var k := |parts| - 1;
            forall v :: FieldDenotes(parts, min, max, names, v)
                        <==> FieldDenotes(parts[..k], min, max, names, v) || PartDenotes(parts[k], min, max, names, v)
  {
    var k := |parts| - 1;
    forall v
      ensures FieldDenotes(parts, min, max, names, v)
              <==> FieldDenotes(parts[..k], min, max, names, v) || PartDenotes(parts[k], min, max, names, v)
    {
      if FieldDenotes(parts[..k], min, max, names, v) {
        var i :| 0 <= i < k && PartDenotes(parts[..k][i], min, max, names, v);
        assert PartDenotes(parts[i], min, max, names, v);
      }
      if FieldDenotes(parts, min, max, names, v) && !PartDenotes(parts[k], min, max, names, v) {
        var i :| 0 <= i < |parts| && PartDenotes(parts[i], min, max, names, v);
        assert parts[..k][i] == parts[i];
      }
    }
  }

  /** The text fields the parser is given have at least one comma part. */
  predicate Split(fields: seq<seq<Part>>) {
    forall i :: 0 <= i < |fields| ==> fields[i] != []
  }

  lemma FieldHasValue(parts: seq<Part>, min: int, max: int, names: map<string, int>)
    requires FieldRange(min, max, names) && parts != [] && FieldOf(parts, min, max, names).Ok?
    ensures exists v :: min <= v <= max && v in FieldOf(parts, min, max, names).value.values
  {
    if PlainStar(parts) {
      assert min in FieldOf(parts, min, max, names).value.values;
    } else {
      PartsAreUnion(parts, min, max, names);
    }
  }

  /** Every field of a parsed expression has a value in its range, a weekday
      one below 7; only a plain "*" leaves its field unrestricted. */
  lemma ParsedIsUsable(fields: seq<seq<Part>>)
    requires Split(fields) && CronOf(fields).Ok?
    ensures Usable(CronOf(fields).value) && 7 !in CronOf(fields).value.dow.values
    ensures CronOf(fields).value.dom.star <==> PlainStar(fields[2])
    ensures CronOf(fields).value.dow.star <==> PlainStar(fields[4])
  {
    FieldHasValue(fields[0], 0, 59, map[]);
    FieldHasValue(fields[1], 0, 23, map[]);
    FieldHasValue(fields[2], 1, 31, map[]);
    FieldHasValue(fields[3], 1, 12, MONTHS);
    FieldHasValue(fields[4], 0, 7, WEEKDAYS);
    var dow := FieldOf(fields[4], 0, 7, WEEKDAYS).value;
    var v :| 0 <= v <= 7 && v in dow.values;
    assert (if v == 7 then 0 else v) in FoldSunday(dow).values;
  }

  /** A parsed expression fires from every start time exactly when it is live. */
  lemma ParsedFires(fields: seq<seq<Part>>)
    requires Split(fields) && CronOf(fields).Ok?
    ensures (forall from :: NextTime(CronOf(fields).value, from).Some?) <==> Live(CronOf(fields).value)
  {
    ParsedIsUsable(fields);
    FiresFromEveryStart(CronOf(fields).value);
  }
}
