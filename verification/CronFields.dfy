/** Parsing of cron fields: `_parse_field` and the five-field expression. */
module CronFields {
  import opened Wrappers
  import opened Decimal
  import Cron

  datatype ParseError =
    | EmptyPart
    | InvalidStep
    | StepTooSmall
    | InvalidRange
    | InvalidValue
    | OutOfRange
    | Reversed
    | FieldCount(count: nat)

  /** What one comma-separated part of a field denotes. */
  datatype Part = Part(start: int, end: int, step: int)

  /** The k-th value of `range(start, end + 1, step)`, its end apart. */
  function Term(p: Part, k: nat): int {
    p.start + k * p.step
  }

  ghost predicate Denotes(p: Part, v: int) {
    v <= p.end && exists k: nat :: Term(p, k) == v
  }

  // ---- Python string primitives ----

  /** Position of the first `c` in `s`, or |s|. */
  function FirstIndex(s: string, c: char): (i: nat)
    ensures i <= |s|
    ensures i < |s| ==> s[i] == c
    ensures forall j :: 0 <= j < i ==> s[j] != c
  {
    if s == "" || s[0] == c then 0 else 1 + FirstIndex(s[1..], c)
  }

  /** Position of the last `c` in `s`, or |s|. */
  function LastIndex(s: string, c: char): (i: nat)
    ensures i <= |s|
    ensures i < |s| ==> s[i] == c
    ensures i == |s| ==> c !in s
    ensures i < |s| ==> forall j :: i < j < |s| ==> s[j] != c
  {
    if s == "" then 0
    else if s[|s| - 1] == c then |s| - 1
    else
      var i := LastIndex(s[..|s| - 1], c);
      if i == |s| - 1 then |s| else i
  }

  /** `s.split(c)`: the pieces between the separators. */
  function Split(s: string, c: char): (pieces: seq<string>)
    ensures pieces != []
    decreases |s|
  {
    var i := FirstIndex(s, c);
    if i == |s| then [s] else [s[..i]] + Split(s[i + 1..], c)
  }

  /** `c.join(pieces)`. */
  function Join(pieces: seq<string>, c: char): string
    requires pieces != []
  {
    if |pieces| == 1 then pieces[0] else pieces[0] + [c] + Join(pieces[1..], c)
  }

  /** `s.split()`: the maximal runs without whitespace. */
  function Words(s: string): (words: seq<string>)
    decreases |s|
  {
    var rest := StripLeft(s);
    LeftStripped(s);
    if rest == "" then []
    else
      var n := WordLength(rest);
      [rest[..n]] + Words(rest[n..])
  }

  function WordLength(s: string): (n: nat)
    ensures n <= |s|
    ensures s != "" && !IsSpace(s[0]) ==> 0 < n
  {
    if s == "" || IsSpace(s[0]) then 0 else 1 + WordLength(s[1..])
  }

  lemma {:induction false} LeftStripped(s: string)
    ensures |StripLeft(s)| <= |s|
    ensures StripLeft(s) != "" ==> !IsSpace(StripLeft(s)[0])
  {
    if s != "" && IsSpace(s[0]) {
      LeftStripped(s[1..]);
    }
  }

  // ---- one part ----

  /** The bounds of a part without its step. */
  function ParseBounds(part: string, lo: int, hi: int): Result<(int, int), ParseError> {
    if part == "*" then Success((lo, hi))
    else if '-' in part then
      var i := FirstIndex(part, '-');
      match (ParseInt(part[..i]), ParseInt(if i < |part| then part[i + 1..] else ""))
      case (Some(start), Some(end)) => Success((start, end))
      case _ => Failure(InvalidRange)
    else
      match ParseInt(part)
      case Some(v) => Success((v, v))
      case None => Failure(InvalidValue)
  }

  function CheckedPart(part: string, step: int, lo: int, hi: int): Result<Part, ParseError> {
    match ParseBounds(part, lo, hi)
    case Failure(e) => Failure(e)
    case Success((start, end)) =>
      if start < lo || end > hi then Failure(OutOfRange)
      else if start > end then Failure(Reversed)
      else Success(Part(start, end, step))
  }

  /** One turn of the loop over the comma-separated parts. */
  function ParsePart(raw: string, lo: int, hi: int): (r: Result<Part, ParseError>)
    ensures r.Success? ==> lo <= r.value.start <= r.value.end <= hi && 1 <= r.value.step
  {
    var part := Strip(raw);
    if part == "" then Failure(EmptyPart)
    else
      var slash := LastIndex(part, '/');
      if slash < |part| then
        match ParseInt(part[slash + 1..])
        case None => Failure(InvalidStep)
        case Some(step) =>
          if step < 1 then Failure(StepTooSmall) else CheckedPart(part[..slash], step, lo, hi)
      else CheckedPart(part, 1, lo, hi)
  }

  /** The parts of a field as the loop reads them. */
  function Parts(spec: string, lo: int, hi: int): (parts: seq<Result<Part, ParseError>>)
    ensures parts != []
    ensures |parts| == |Split(spec, ',')|
    ensures forall i :: 0 <= i < |parts| ==> parts[i] == ParsePart(Split(spec, ',')[i], lo, hi)
    ensures forall i :: 0 <= i < |parts| && parts[i].Success? ==>
      lo <= parts[i].value.start <= parts[i].value.end <= hi && 1 <= parts[i].value.step
  {
    var texts := Split(spec, ',');
    seq(|texts|, i requires 0 <= i < |texts| => ParsePart(texts[i], lo, hi))
  }

  /** Some part among the first `n` denotes `v`. */
  ghost predicate DenotedBy(parts: seq<Result<Part, ParseError>>, n: nat, v: int)
    requires n <= |parts|
  {
    exists i :: 0 <= i < n && parts[i].Success? && Denotes(parts[i].value, v)
  }

  /** The first `n` parts all parse. */
  predicate AllParse(parts: seq<Result<Part, ParseError>>, n: nat)
    requires n <= |parts|
  {
    forall i :: 0 <= i < n ==> parts[i].Success?
  }

  /** Every comma-separated part of the field parses. */
  predicate FieldParses(spec: string, lo: int, hi: int) {
    AllParse(Parts(spec, lo, hi), |Parts(spec, lo, hi)|)
  }

  /** The error of the first part that does not parse. */
  ghost predicate FirstBadPart(spec: string, lo: int, hi: int, error: ParseError) {
    exists i :: 0 <= i < |Parts(spec, lo, hi)| && AllParse(Parts(spec, lo, hi), i)
                && Parts(spec, lo, hi)[i] == Failure(error)
  }

  /** Some part of the field denotes `v`. */
  ghost predicate FieldDenotes(spec: string, lo: int, hi: int, v: int) {
    var parts := Parts(spec, lo, hi);
    DenotedBy(parts, |parts|, v)
  }

  // ---- one field ----

  /** `range(start, end + 1, step)` added to `values`. */
  method AddRange(values: set<int>, p: Part) returns (r: set<int>)
    requires 1 <= p.step
    ensures forall v :: v in r <==> v in values || Denotes(p, v)
  {
    r := values;
    var v := p.start;
    ghost var k: nat := 0;
    while v <= p.end
      invariant v == Term(p, k)
      invariant forall x :: x in r <==> x in values || (x <= p.end && exists j: nat :: j < k && Term(p, j) == x)
      decreases p.end - v
    {
      assert Term(p, k + 1) == Term(p, k) + p.step;
      ghost var before := r;
      r := r + {v};
      forall x
        ensures x in r <==> x in values || (x <= p.end && exists j: nat :: j < k + 1 && Term(p, j) == x)
      {
        if exists j: nat :: j < k + 1 && Term(p, j) == x {
          var j: nat :| j < k + 1 && Term(p, j) == x;
          assert j < k || x == v;
        }
      }
      v := v + p.step;
      k := k + 1;
    }
    forall x | Denotes(p, x)
      ensures x in r
    {
      var j: nat :| Term(p, j) == x;
      if k <= j {
        TermsGrow(p, k, j);
      }
    }
  }

  lemma {:induction false} TermsGrow(p: Part, k: nat, j: nat)
    requires 1 <= p.step && k <= j
    ensures Term(p, k) <= Term(p, j)
    decreases j
  {
    if k < j {
      TermsGrow(p, k, j - 1);
      assert Term(p, j) == Term(p, j - 1) + p.step;
    }
  }

  lemma OneMorePart(parts: seq<Result<Part, ParseError>>, i: nat, v: int)
    requires i < |parts| && parts[i].Success?
    ensures DenotedBy(parts, i + 1, v) <==> DenotedBy(parts, i, v) || Denotes(parts[i].value, v)
  {
    if DenotedBy(parts, i + 1, v) {
      var j :| 0 <= j < i + 1 && parts[j].Success? && Denotes(parts[j].value, v);
      assert j < i || j == i;
    }
  }

  lemma FieldIsWithin(spec: string, lo: int, hi: int, v: int)
    requires FieldDenotes(spec, lo, hi, v)
    ensures lo <= v <= hi
  {
    var parts := Parts(spec, lo, hi);
    var j :| 0 <= j < |parts| && parts[j].Success? && Denotes(parts[j].value, v);
    var k: nat :| Term(parts[j].value, k) == v;
    TermsGrow(parts[j].value, 0, k);
  }

  lemma FieldIsNotEmpty(spec: string, lo: int, hi: int)
    requires FieldParses(spec, lo, hi)
    ensures FieldDenotes(spec, lo, hi, Parts(spec, lo, hi)[0].value.start)
  {
    var p := Parts(spec, lo, hi)[0].value;
    assert Term(p, 0) == p.start;
    assert Denotes(p, p.start);
  }

  /** `_parse_field`: the set denoted by the comma-separated parts, or the error of the first bad part. */
  method ParseField(spec: string, lo: int, hi: int) returns (r: Result<set<int>, ParseError>)
    ensures r.Success? <==> FieldParses(spec, lo, hi)
    ensures r.Success? ==> forall v :: v in r.value <==> FieldDenotes(spec, lo, hi, v)
    ensures r.Success? ==> Cron.FieldWithin(r.value, lo, hi)
    ensures r.Failure? ==> FirstBadPart(spec, lo, hi, r.error)
  {
    var texts := Split(spec, ',');
    ghost var parts := Parts(spec, lo, hi);
    var values: set<int> := {};
    var i := 0;
    while i < |texts|
      invariant 0 <= i <= |texts|
      invariant AllParse(parts, i)
      invariant forall v :: v in values <==> DenotedBy(parts, i, v)
    {
      var part := ParsePart(texts[i], lo, hi);
      assert part == parts[i];
      if part.Failure? {
        return Failure(part.error);
      }
      values := AddRange(values, part.value);
      forall v
        ensures v in values <==> DenotedBy(parts, i + 1, v)
      {
        OneMorePart(parts, i, v);
      }
      i := i + 1;
    }
    FieldIsNotEmpty(spec, lo, hi);
    forall v | v in values
      ensures lo <= v <= hi
    {
      FieldIsWithin(spec, lo, hi, v);
    }
    return Success(values);
  }

  // ---- the expression ----

  /** The bounds of the five fields, in order. */
  function Lowest(k: nat): int {
    if k == 2 || k == 3 then 1 else 0
  }

  function Highest(k: nat): int {
    match k
    case 0 => 59
    case 1 => 23
    case 2 => 31
    case 3 => 12
    case _ => 6
  }

  /** The first `n` fields parse. */
  predicate FieldsParse(w: seq<string>, n: nat)
    requires n <= |w|
  {
    forall k :: 0 <= k < n ==> FieldParses(w[k], Lowest(k), Highest(k))
  }

  /** The `k`-th field is the first that does not parse, with this error. */
  ghost predicate FirstBadField(w: seq<string>, k: nat, error: ParseError)
    requires k < |w|
  {
    FieldsParse(w, k) && !FieldParses(w[k], Lowest(k), Highest(k)) && FirstBadPart(w[k], Lowest(k), Highest(k), error)
  }

  /** The five sets are what the five fields denote. */
  ghost predicate HasFields(spec: Cron.CronSpec, w: seq<string>)
    requires |w| == 5
  {
    && (forall v :: v in spec.minutes <==> FieldDenotes(w[0], 0, 59, v))
    && (forall v :: v in spec.hours <==> FieldDenotes(w[1], 0, 23, v))
    && (forall v :: v in spec.daysOfMonth <==> FieldDenotes(w[2], 1, 31, v))
    && (forall v :: v in spec.months <==> FieldDenotes(w[3], 1, 12, v))
    && (forall v :: v in spec.daysOfWeek <==> FieldDenotes(w[4], 0, 6, v))
  }

  /** `CronSpec(expression)`: accepted exactly when there are five whitespace-separated fields and each parses
      within its own bounds; otherwise the error of the first bad part of the first bad field. */
  method ParseCron(expression: string) returns (r: Result<Cron.CronSpec, ParseError>)
    ensures r.Success? <==> |Words(expression)| == 5 && FieldsParse(Words(expression), 5)
    ensures r.Success? ==> Cron.WellFormed(r.value) && HasFields(r.value, Words(expression))
    ensures |Words(expression)| != 5 ==> r == Failure(FieldCount(|Words(expression)|))
    ensures |Words(expression)| == 5 && r.Failure? ==>
      exists k :: 0 <= k < 5 && FirstBadField(Words(expression), k, r.error)
  {
    hide Words, FieldParses, FirstBadPart, FieldDenotes;
    var w := Words(expression);
    if |w| != 5 {
      return Failure(FieldCount(|w|));
    }
    var minutes := ParseField(w[0], 0, 59);
    if minutes.Failure? {
      assert FirstBadField(w, 0, minutes.error);
      return Failure(minutes.error);
    }
    var hours := ParseField(w[1], 0, 23);
    if hours.Failure? {
      assert FirstBadField(w, 1, hours.error);
      return Failure(hours.error);
    }
    var daysOfMonth := ParseField(w[2], 1, 31);
    if daysOfMonth.Failure? {
      assert FirstBadField(w, 2, daysOfMonth.error);
      return Failure(daysOfMonth.error);
    }
    var months := ParseField(w[3], 1, 12);
    if months.Failure? {
      assert FirstBadField(w, 3, months.error);
      return Failure(months.error);
    }
    var daysOfWeek := ParseField(w[4], 0, 6);
    if daysOfWeek.Failure? {
      assert FirstBadField(w, 4, daysOfWeek.error);
      return Failure(daysOfWeek.error);
    }
    return Success(Cron.CronSpec(minutes.value, hours.value, daysOfMonth.value, months.value, daysOfWeek.value));
  }

  // ---- every value set can be written, and reads back as itself ----

  function RenderField(values: seq<nat>): string
    requires values != []
  {
    Join(Numerals(values), ',')
  }

  function Numerals(values: seq<nat>): (r: seq<string>)
    ensures |r| == |values|
    ensures forall i :: 0 <= i < |values| ==> r[i] == Numeral(values[i])
  {
    seq(|values|, i requires 0 <= i < |values| => Numeral(values[i]))
  }

  lemma {:induction false} FirstIndexAtSeparator(a: string, c: char, b: string)
    requires c !in a
    ensures FirstIndex(a + [c] + b, c) == |a|
  {
    var s := a + [c] + b;
    var i := FirstIndex(s, c);
    assert s[|a|] == c;
    assert forall j :: 0 <= j < |a| ==> s[j] == a[j];
  }

  lemma {:induction false} SplitJoin(pieces: seq<string>, c: char)
    requires pieces != [] && forall i :: 0 <= i < |pieces| ==> c !in pieces[i]
    ensures Split(Join(pieces, c), c) == pieces
  {
    if |pieces| == 1 {
      assert FirstIndex(pieces[0], c) == |pieces[0]|;
      assert pieces == [pieces[0]];
    } else {
      hide *;
      SplitFirst(pieces[0], c, Join(pieces[1..], c));
      JoinFirst(pieces, c);
      SplitJoin(pieces[1..], c);
      assert pieces == [pieces[0]] + pieces[1..];
    }
  }

  lemma JoinFirst(pieces: seq<string>, c: char)
    requires |pieces| > 1
    ensures Join(pieces, c) == pieces[0] + [c] + Join(pieces[1..], c)
  {
  }

  lemma SplitFirst(a: string, c: char, b: string)
    requires c !in a
    ensures Split(a + [c] + b, c) == [a] + Split(b, c)
  {
    var s := a + [c] + b;
    FirstIndexAtSeparator(a, c, b);
    assert s[..|a|] == a && s[|a| + 1..] == b;
    hide FirstIndex;
  }

  /** A numeral parses as the single value it names. */
  lemma NumeralPart(n: nat, lo: int, hi: int)
    requires lo <= n <= hi
    ensures ParsePart(Numeral(n), lo, hi) == Success(Part(n, n, 1))
    ensures ',' !in Numeral(n)
  {
    var s := Numeral(n);
    IntReadsNumeral(n);
    assert IsDigit(s[0]) && IsDigit(s[|s| - 1]);
    assert Strip(s) == s;
    assert forall c: char :: c in s ==> IsDigit(c);
    assert s != "*";
  }

  lemma SingleDenotes(n: int, v: int)
    ensures Denotes(Part(n, n, 1), v) <==> v == n
  {
    assert Term(Part(n, n, 1), 0) == n;
  }

  /** Writing any non-empty list of in-range values as a comma list and parsing it gives those values. */
  lemma RenderedFieldReadsBack(values: seq<nat>, lo: int, hi: int)
    requires values != [] && forall i :: 0 <= i < |values| ==> lo <= values[i] <= hi
    ensures FieldParses(RenderField(values), lo, hi)
    ensures forall v :: FieldDenotes(RenderField(values), lo, hi, v) <==> v in values
  {
    var texts := Numerals(values);
    var parts := Parts(RenderField(values), lo, hi);
    forall i | 0 <= i < |texts|
      ensures ',' !in texts[i]
    {
      NumeralPart(values[i], lo, hi);
    }
    SplitJoin(texts, ',');
    forall i | 0 <= i < |parts|
      ensures parts[i] == Success(Part(values[i], values[i], 1))
    {
      NumeralPart(values[i], lo, hi);
    }
    forall v
      ensures FieldDenotes(RenderField(values), lo, hi, v) <==> v in values
    {
      SingletonPartsDenote(values, parts, v);
    }
  }

  lemma SingletonPartsDenote(values: seq<nat>, parts: seq<Result<Part, ParseError>>, v: int)
    requires |parts| == |values|
    requires forall i :: 0 <= i < |parts| ==> parts[i] == Success(Part(values[i], values[i], 1))
    ensures DenotedBy(parts, |parts|, v) <==> v in values
  {
    if v in values {
      var i :| 0 <= i < |values| && values[i] == v;
      SingleDenotes(v, v);
      assert Denotes(parts[i].value, v);
    }
    if DenotedBy(parts, |parts|, v) {
      var i :| 0 <= i < |parts| && Denotes(parts[i].value, v);
      SingleDenotes(values[i], v);
    }
  }

  lemma StarStepParses(n: nat, lo: int, hi: int)
    requires 1 <= n && lo <= hi
    ensures ParsePart("*/" + Numeral(n), lo, hi) == Success(Part(lo, hi, n))
  {
    var s := Numeral(n);
    var part := "*/" + s;
    IntReadsNumeral(n);
    assert IsDigit(s[|s| - 1]) && part[|part| - 1] == s[|s| - 1];
    assert StripLeft(part) == part && StripRight(part) == part;
    forall j | 1 < j < |part|
      ensures part[j] != '/'
    {
      assert part[j] == s[j - 2];
    }
    assert part[1] == '/';
    assert LastIndex(part, '/') == 1;
    assert part[..1] == "*" && part[2..] == s;
  }

  /** The values of a stepped range: those in bounds whose distance from the start is a multiple of the step. */
  lemma SteppedDenotes(p: Part, v: int)
    requires 1 <= p.step
    ensures Denotes(p, v) <==> p.start <= v <= p.end && (v - p.start) % p.step == 0
  {
    if p.start <= v && (v - p.start) % p.step == 0 {
      var k: nat := (v - p.start) / p.step;
      assert k * p.step == v - p.start;
      assert Term(p, k) == v;
    }
    if Denotes(p, v) {
      var k: nat :| Term(p, k) == v;
      TermsGrow(p, 0, k);
      var q, rest := (v - p.start) / p.step, (v - p.start) % p.step;
      assert k * p.step == q * p.step + rest;
      MultipleHasNoRest(k, p.step, q, rest);
    }
  }

  lemma MultipleHasNoRest(k: int, n: int, q: int, rest: int)
    requires 0 <= rest < n && k * n == q * n + rest
    ensures rest == 0
  {
    if k > q {
      MultipleGrows(q, k, n);
    } else if k < q {
      MultipleGrows(k, q, n);
    }
  }

  lemma {:induction false} MultipleGrows(a: int, b: int, n: nat)
    requires a < b
    ensures b * n >= a * n + n
    decreases b - a
  {
    assert b * n == (b - 1) * n + n;
    if a < b - 1 {
      MultipleGrows(a, b - 1, n);
    }
  }

  /** A field that is a star with a step denotes every step-th value from the lower bound. */
  lemma StarStepDenotes(n: nat, lo: int, hi: int)
    requires 1 <= n && lo <= hi
    ensures FieldParses("*/" + Numeral(n), lo, hi)
    ensures forall v :: FieldDenotes("*/" + Numeral(n), lo, hi, v) <==> lo <= v <= hi && (v - lo) % n == 0
  {
    StarStepParses(n, lo, hi);
    NumeralText(n);
    OnePart("*/" + Numeral(n), lo, hi, Part(lo, hi, n));
  }

  lemma NumeralText(n: nat)
    ensures Numeral(n) != "" && forall c: char :: c in Numeral(n) ==> IsDigit(c)
    ensures ParseInt(Numeral(n)) == Some(n)
  {
    IntReadsNumeral(n);
  }

  lemma FirstDash(a: string, b: string)
    requires forall c: char :: c in a ==> IsDigit(c)
    ensures FirstIndex(a + "-" + b, '-') == |a| && '-' in a + "-" + b
  {
    assert '-' !in a;
    FirstIndexAtSeparator(a, '-', b);
    assert (a + "-" + b)[|a|] == '-';
    assert a + ['-'] + b == a + "-" + b;
  }

  lemma LastSlash(a: string, b: string)
    requires '/' !in b
    ensures LastIndex(a + "/" + b, '/') == |a|
  {
    LastAt(a + "/" + b, '/', |a|, b);
  }

  lemma LastAt(s: string, c: char, n: nat, rest: string)
    requires n < |s| && s[n] == c && s[n + 1..] == rest && c !in rest
    ensures LastIndex(s, c) == n
  {
    hide LastIndex;
    assert s[n] in s;
    assert forall j :: n < j < |s| ==> s[j] == rest[j - n - 1];
  }

  /** Text that begins and ends with a digit is its own stripped text. */
  lemma DigitEnds(s: string)
    requires s != "" && IsDigit(s[0]) && IsDigit(s[|s| - 1])
    ensures Strip(s) == s
  {
    assert StripLeft(s) == s && StripRight(s) == s;
  }

  lemma RangeBounds(a: nat, b: nat, lo: int, hi: int)
    ensures ParseBounds(Numeral(a) + "-" + Numeral(b), lo, hi) == Success((a, b))
  {
    var x, y := Numeral(a), Numeral(b);
    NumeralText(a);
    NumeralText(b);
    FirstDash(x, y);
    assert (x + "-" + y)[..|x|] == x && (x + "-" + y)[|x| + 1..] == y;
    assert x + "-" + y != "*" by {
      assert |x + "-" + y| >= 3;
    }
    hide ParseInt, FirstIndex;
  }

  lemma RangeParses(a: nat, b: nat, n: nat, lo: int, hi: int)
    requires lo <= a <= b <= hi && 1 <= n
    ensures ParsePart(Numeral(a) + "-" + Numeral(b) + "/" + Numeral(n), lo, hi) == Success(Part(a, b, n))
  {
    var range, step := Numeral(a) + "-" + Numeral(b), Numeral(n);
    var part := range + "/" + step;
    NumeralText(a);
    NumeralText(n);
    RangeBounds(a, b, lo, hi);
    assert part[0] == Numeral(a)[0] && part[|part| - 1] == step[|step| - 1];
    DigitEnds(part);
    LastSlash(range, step);
    assert part[..|range|] == range && part[|range| + 1..] == step;
    hide ParseInt, ParseBounds, Strip, LastIndex;
  }

  /** A range with a step denotes every step-th value from its start up to its end, both in bounds. */
  lemma RangeStepDenotes(a: nat, b: nat, n: nat, lo: int, hi: int)
    requires lo <= a <= b <= hi && 1 <= n
    ensures var spec := Numeral(a) + "-" + Numeral(b) + "/" + Numeral(n);
      && FieldParses(spec, lo, hi)
      && forall v :: FieldDenotes(spec, lo, hi, v) <==> a <= v <= b && (v - a) % n == 0
  {
    hide *;
    RangeParses(a, b, n, lo, hi);
    RangeHasNoComma(a, b, n);
    OnePart(Numeral(a) + "-" + Numeral(b) + "/" + Numeral(n), lo, hi, Part(a, b, n));
  }

  lemma RangeHasNoComma(a: nat, b: nat, n: nat)
    ensures ',' !in Numeral(a) + "-" + Numeral(b) + "/" + Numeral(n)
  {
    NumeralText(a);
    NumeralText(b);
    NumeralText(n);
    hide ParseInt;
  }

  /** A field without a comma denotes what its one part denotes. */
  lemma OnePart(spec: string, lo: int, hi: int, p: Part)
    requires ',' !in spec && ParsePart(spec, lo, hi) == Success(p) && 1 <= p.step
    ensures FieldParses(spec, lo, hi)
    ensures forall v :: FieldDenotes(spec, lo, hi, v) <==> p.start <= v <= p.end && (v - p.start) % p.step == 0
  {
    assert FirstIndex(spec, ',') == |spec|;
    assert Split(spec, ',') == [spec];
    hide ParsePart, Split;
    forall v
      ensures FieldDenotes(spec, lo, hi, v) <==> p.start <= v <= p.end && (v - p.start) % p.step == 0
    {
      SteppedDenotes(p, v);
      assert Parts(spec, lo, hi)[0] == Success(p) && |Parts(spec, lo, hi)| == 1;
      hide Denotes;
    }
  }

  // ---- the words of an expression ----

  predicate IsWord(s: string) {
    s != "" && forall i :: 0 <= i < |s| ==> !IsSpace(s[i])
  }

  lemma {:induction false} WordLengthIs(word: string, rest: string)
    requires (forall i :: 0 <= i < |word| ==> !IsSpace(word[i])) && (rest == "" || IsSpace(rest[0]))
    ensures WordLength(word + rest) == |word|
  {
    if word == "" {
      assert word + rest == rest;
    } else {
      WordLengthIs(word[1..], rest);
      assert (word + rest)[1..] == word[1..] + rest;
    }
  }

  lemma SpaceThen(rest: string)
    ensures Words(" " + rest) == Words(rest)
  {
    assert (" " + rest)[1..] == rest && IsSpace(' ');
    assert StripLeft(" " + rest) == StripLeft(rest);
  }

  /** Words joined by blanks are read back, whatever blank text is before them. */
  lemma {:induction false} WordsReadBack(words: seq<string>)
    requires words != [] && forall i :: 0 <= i < |words| ==> IsWord(words[i])
    ensures Words(Join(words, ' ')) == words
  {
    var word := words[0];
    var rest := if |words| == 1 then "" else " " + Join(words[1..], ' ');
    var text := word + rest;
    assert Join(words, ' ') == text by {
      if |words| > 1 {
        assert word + [' '] + Join(words[1..], ' ') == word + (" " + Join(words[1..], ' '));
      }
    }
    WordLengthIs(word, rest);
    assert text[0] == word[0] && StripLeft(text) == text;
    assert text[..|word|] == word && text[|word|..] == rest;
    assert Words(text) == [word] + Words(rest);
    if |words| == 1 {
      assert Words("") == [];
    } else {
      SpaceThen(Join(words[1..], ' '));
      WordsReadBack(words[1..]);
      assert words == [word] + words[1..];
    }
  }

  // ---- the grammar of a part ----

  /** A text that ends with a slash and a step. */
  predicate Slashed(part: string, bounds: string, step: string) {
    part == bounds + "/" + step && '/' !in step
  }

  predicate Dashed(bounds: string, a: string, b: string) {
    bounds == a + "-" + b && '-' !in a
  }

  /** Bounds with an optional step; without one it is 1. */
  ghost predicate Stepped(part: string, bounds: string, step: int) {
    || ('/' !in part && bounds == part && step == 1)
    || exists t :: Slashed(part, bounds, t) && ParseInt(t) == Some(step)
  }

  /** A star, a range or a single number. */
  ghost predicate Bounded(bounds: string, lo: int, hi: int, start: int, end: int) {
    if bounds == "*" then start == lo && end == hi
    else
      || ('-' !in bounds && ParseInt(bounds) == Some(start) && end == start)
      || exists a, b :: Dashed(bounds, a, b) && ParseInt(a) == Some(start) && ParseInt(b) == Some(end)
  }

  lemma SlashSplits(part: string, bounds: string, step: string)
    requires Slashed(part, bounds, step)
    ensures LastIndex(part, '/') == |bounds| < |part|
    ensures part[..|bounds|] == bounds && part[|bounds| + 1..] == step
  {
    LastSlash(bounds, step);
  }

  lemma Apart(s: string, i: nat)
    requires i < |s|
    ensures s == s[..i] + [s[i]] + s[i + 1..] && s[i] in s
  {
  }

  lemma SlashIsThere(part: string)
    requires LastIndex(part, '/') < |part|
    ensures '/' in part
    ensures var i := LastIndex(part, '/'); Slashed(part, part[..i], part[i + 1..])
  {
    hide LastIndex;
    var i := LastIndex(part, '/');
    Apart(part, i);
    var t := part[i + 1..];
    assert forall j :: 0 <= j < |t| ==> t[j] == part[i + 1 + j];
  }

  lemma DashSplits(bounds: string, a: string, b: string)
    requires Dashed(bounds, a, b)
    ensures FirstIndex(bounds, '-') == |a| < |bounds| && '-' in bounds && bounds != "*"
    ensures bounds[..|a|] == a && bounds[|a| + 1..] == b
  {
    FirstIndexAtSeparator(a, '-', b);
    assert a + ['-'] + b == a + "-" + b;
    assert bounds[|a|] == '-';
  }

  lemma DashIsThere(bounds: string)
    requires '-' in bounds
    ensures var i := FirstIndex(bounds, '-'); i < |bounds| && Dashed(bounds, bounds[..i], bounds[i + 1..])
  {
    hide FirstIndex;
    var i := FirstIndex(bounds, '-');
    assert i < |bounds|;
    Apart(bounds, i);
    var a := bounds[..i];
    assert forall j :: 0 <= j < |a| ==> a[j] == bounds[j];
  }

  /** Bounds are read exactly as the grammar says. */
  lemma BoundsRead(bounds: string, lo: int, hi: int, start: int, end: int)
    ensures ParseBounds(bounds, lo, hi) == Success((start, end)) <==> Bounded(bounds, lo, hi, start, end)
  {
    hide FirstIndex, ParseInt;
    if '-' in bounds {
      DashIsThere(bounds);
      var i := FirstIndex(bounds, '-');
      assert Dashed(bounds, bounds[..i], bounds[i + 1..]);
      forall a, b | Dashed(bounds, a, b)
        ensures a == bounds[..i] && b == bounds[i + 1..]
      {
        DashSplits(bounds, a, b);
      }
    } else {
      forall a, b
        ensures !Dashed(bounds, a, b)
      {
        if Dashed(bounds, a, b) {
          DashSplits(bounds, a, b);
        }
      }
    }
  }

  /** The bounds of a part and the text of its step are determined. */
  lemma OneSlash(part: string, bounds: string, step: string, bounds': string, step': string)
    requires Slashed(part, bounds, step) && Slashed(part, bounds', step')
    ensures bounds == bounds' && step == step'
  {
    SlashSplits(part, bounds, step);
    SlashSplits(part, bounds', step');
  }

  lemma PartWithSlash(raw: string, lo: int, hi: int, bounds: string, t: string)
    requires Slashed(Strip(raw), bounds, t)
    ensures Strip(raw) != "" && '/' in Strip(raw)
    ensures ParsePart(raw, lo, hi) ==
      match ParseInt(t)
      case None => Failure(InvalidStep)
      case Some(step) => if step < 1 then Failure(StepTooSmall) else CheckedPart(bounds, step, lo, hi)
  {
    SlashSplits(Strip(raw), bounds, t);
    SlashIsThere(Strip(raw));
    hide ParseInt, LastIndex, Strip, CheckedPart;
  }

  lemma PartWithoutSlash(raw: string, lo: int, hi: int)
    requires Strip(raw) != "" && '/' !in Strip(raw)
    ensures ParsePart(raw, lo, hi) == CheckedPart(Strip(raw), 1, lo, hi)
  {
    if LastIndex(Strip(raw), '/') < |Strip(raw)| {
      SlashIsThere(Strip(raw));
    }
    hide ParseInt, Strip, CheckedPart;
  }

  /** Checking the bounds, against the grammar. */
  lemma CheckedMeans(bounds: string, step: int, lo: int, hi: int, p: Part)
    ensures CheckedPart(bounds, step, lo, hi) == Success(p) <==>
      p.step == step && Bounded(bounds, lo, hi, p.start, p.end) && lo <= p.start <= p.end <= hi
  {
    BoundsRead(bounds, lo, hi, p.start, p.end);
    hide ParseBounds, Bounded;
  }

  /** A part is read as `p` exactly when, stripped, it is bounds with an optional positive step, and the bounds are a
      star, a range or a number that lie within those of the field. */
  lemma PartParsesExactly(raw: string, lo: int, hi: int, p: Part)
    ensures ParsePart(raw, lo, hi) == Success(p) <==>
      && Strip(raw) != "" && 1 <= p.step && lo <= p.start <= p.end <= hi
      && exists bounds :: Stepped(Strip(raw), bounds, p.step) && Bounded(bounds, lo, hi, p.start, p.end)
  {
    var part := Strip(raw);
    hide ParseInt, Strip, CheckedPart, ParsePart, Bounded, LastIndex;
    if part == "" {
      BlankPart(raw, lo, hi);
    } else if '/' in part {
      SlashFound(part);
      var i := LastIndex(part, '/');
      var bounds, t := part[..i], part[i + 1..];
      SlashIsThere(part);
      PartWithSlash(raw, lo, hi, bounds, t);
      forall b, u | Slashed(part, b, u)
        ensures b == bounds && u == t
      {
        OneSlash(part, bounds, t, b, u);
      }
      CheckedMeans(bounds, p.step, lo, hi, p);
      if ParseInt(t).Some? {
        CheckedMeans(bounds, ParseInt(t).value, lo, hi, p);
        assert Stepped(part, bounds, ParseInt(t).value);
      }
    } else {
      PartWithoutSlash(raw, lo, hi);
      CheckedMeans(part, 1, lo, hi, p);
      NoSlash(part);
      assert Stepped(part, part, 1);
    }
  }

  lemma BlankPart(raw: string, lo: int, hi: int)
    requires Strip(raw) == ""
    ensures ParsePart(raw, lo, hi) == Failure(EmptyPart)
  {
  }

  lemma SlashFound(part: string)
    requires '/' in part
    ensures LastIndex(part, '/') < |part|
  {
  }

  lemma NoSlash(part: string)
    requires '/' !in part
    ensures forall b, u :: !Slashed(part, b, u)
  {
    forall b, u
      ensures !Slashed(part, b, u)
    {
      if Slashed(part, b, u) {
        SlashedHas(part, b, u);
      }
    }
  }

  lemma SlashedHas(part: string, bounds: string, step: string)
    requires Slashed(part, bounds, step)
    ensures '/' in part
  {
    assert part[|bounds|] == '/';
  }

  /** The error of a part says what is wrong with it: in this order its emptiness, its step, its bounds' text, and
      their place. */
  ghost predicate Blames(part: string, lo: int, hi: int, error: ParseError) {
    match error
    case EmptyPart => part == ""
    case InvalidStep => exists bounds, t :: Slashed(part, bounds, t) && ParseInt(t).None?
    case StepTooSmall => exists bounds, t :: Slashed(part, bounds, t) && ParseInt(t).Some? && ParseInt(t).value < 1
    case InvalidRange => exists bounds, step :: Stepped(part, bounds, step) && step >= 1
                                                && '-' in bounds && Boundless(bounds, lo, hi)
    case InvalidValue => exists bounds, step :: Stepped(part, bounds, step) && step >= 1
                                                && '-' !in bounds && Boundless(bounds, lo, hi)
    case OutOfRange => exists bounds, step, start, end ::
      Stepped(part, bounds, step) && step >= 1 && Bounded(bounds, lo, hi, start, end) && (start < lo || end > hi)
    case Reversed => exists bounds, step, start, end ::
      Stepped(part, bounds, step) && step >= 1 && Bounded(bounds, lo, hi, start, end) && lo <= start && end <= hi
      && start > end
    case FieldCount(_) => false
  }

  ghost predicate Boundless(bounds: string, lo: int, hi: int) {
    forall start, end :: !Bounded(bounds, lo, hi, start, end)
  }

  lemma CheckedBlames(part: string, bounds: string, step: int, lo: int, hi: int)
    requires Stepped(part, bounds, step) && step >= 1 && CheckedPart(bounds, step, lo, hi).Failure?
    ensures Blames(part, lo, hi, CheckedPart(bounds, step, lo, hi).error)
  {
    hide Stepped, Bounded, ParseInt, FirstIndex;
    var r := ParseBounds(bounds, lo, hi);
    if r.Success? {
      BoundsRead(bounds, lo, hi, r.value.0, r.value.1);
    } else {
      forall start, end
        ensures !Bounded(bounds, lo, hi, start, end)
      {
        BoundsRead(bounds, lo, hi, start, end);
      }
      assert Boundless(bounds, lo, hi);
    }
  }

  lemma PartFailsAsBlamed(raw: string, lo: int, hi: int)
    requires ParsePart(raw, lo, hi).Failure?
    ensures Blames(Strip(raw), lo, hi, ParsePart(raw, lo, hi).error)
  {
    var part := Strip(raw);
    hide ParseInt, Strip, CheckedPart, ParsePart, LastIndex, Bounded;
    if part == "" {
      BlankPart(raw, lo, hi);
    } else if '/' in part {
      SlashFound(part);
      var i := LastIndex(part, '/');
      SlashIsThere(part);
      PartWithSlash(raw, lo, hi, part[..i], part[i + 1..]);
      assert Slashed(part, part[..i], part[i + 1..]);
      var step := ParseInt(part[i + 1..]);
      if step.Some? && step.value >= 1 {
        assert Stepped(part, part[..i], step.value);
        CheckedBlames(part, part[..i], step.value, lo, hi);
      }
    } else {
      PartWithoutSlash(raw, lo, hi);
      CheckedBlames(part, part, 1, lo, hi);
    }
  }
}
