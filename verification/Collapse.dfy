/** Collapsing consecutive repeated patterns of messages: a compression that loses nothing but the copies. */
module Collapse {
  import opened Wrappers
  import opened Sequences

  /** `other` stands for the blocks that are not text. */
  datatype Message = Message(role: string, texts: seq<string>, other: seq<string>)

  datatype Error = DivisionByZero

  /** The role and text of each text block, joined by bars. */
  function Fingerprint(m: Message): string {
    JoinedTexts(m.role, m.texts, |m.texts|)
  }

  function JoinedTexts(role: string, texts: seq<string>, n: nat): string
    requires n <= |texts|
  {
    if n == 0 then ""
    else if n == 1 then role + ":" + texts[0]
    else JoinedTexts(role, texts, n - 1) + "|" + role + ":" + texts[n - 1]
  }

  function Fingerprints(messages: seq<Message>): (fps: seq<string>)
    ensures |fps| == |messages| && forall i :: 0 <= i < |fps| ==> fps[i] == Fingerprint(messages[i])
  {
    seq(|messages|, i requires 0 <= i < |messages| => Fingerprint(messages[i]))
  }

  // ---- repetitions ----

  /** The window of length `len` at `start` occurs again at `pos`. */
  predicate SameWindow(fps: seq<string>, start: nat, len: nat, pos: nat) {
    start + len <= |fps| && pos + len <= |fps| && fps[start..start + len] == fps[pos..pos + len]
  }

  /** How often the window occurs in a row from `pos` on. */
  function CopiesFrom(fps: seq<string>, start: nat, len: nat, pos: nat): (count: nat)
    requires len >= 1
    ensures pos <= |fps| ==> pos + count * len <= |fps|
    decreases |fps| - pos
  {
    if SameWindow(fps, start, len, pos)
    then
      var rest := CopiesFrom(fps, start, len, pos + len);
      assert pos + (rest + 1) * len == pos + len + rest * len;
      rest + 1
    else 0
  }

  /** How often the window at `start` occurs in a row, the first one included. */
  function Copies(fps: seq<string>, start: nat, len: nat): nat
    requires len >= 1
  {
    CopiesFrom(fps, start, len, start)
  }

  /** The greatest pattern length that can occur `least` times in `rest` messages, by Python's floor division. */
  function MaxPattern(rest: nat, least: int): nat
    requires least != 0
  {
    if least > 0 then rest / least else 0
  }

  /** A pattern length and how often the pattern stands in a row. */
  datatype Step = Step(len: nat, count: nat)

  /** What `_find_repeat` has found after trying lengths up to `tried`. */
  function BestRepeat(fps: seq<string>, start: nat, least: int, tried: nat): (best: Step)
    ensures best.len >= 1 && best.len <= tried + 1 && best.count >= 1
  {
    if tried == 0 then Step(1, 1)
    else
      var before := BestRepeat(fps, start, least, tried - 1);
      var count := Copies(fps, start, tried);
      if count >= least && tried >= before.len && count >= 1 then Step(tried, count) else before
  }

  /** At least `least` copies, in the whole list. */
  predicate Repeats(fps: seq<string>, start: nat, len: nat, least: int) {
    len >= 1 && Copies(fps, start, len) >= least
  }

  lemma {:induction false} BestIsLongest(fps: seq<string>, start: nat, least: int, tried: nat)
    requires least >= 1
    ensures var best := BestRepeat(fps, start, least, tried);
      && (best == Step(1, 1)
          || (best.len <= tried && Repeats(fps, start, best.len, least) && best.count == Copies(fps, start, best.len)))
      && (forall len :: 1 <= len <= tried && Repeats(fps, start, len, least) ==>
            len <= best.len && best.count == Copies(fps, start, best.len))
  {
    if tried > 0 {
      BestIsLongest(fps, start, least, tried - 1);
    }
  }

  lemma MulLe(a: nat, b: nat, c: nat)
    requires a <= b
    ensures a * c <= b * c
  {
  }

  lemma TooLong(rest: nat, least: nat, len: nat)
    requires least >= 1 && len >= rest / least + 1
    ensures least * len > rest
  {
    var q := rest / least;
    assert rest == q * least + rest % least;
    MulLe(q + 1, len, least);
  }

  /** A pattern with at least `least` copies is not longer than the search looks. */
  lemma LongPatternsDoNotRepeat(fps: seq<string>, start: nat, least: int, len: nat)
    requires least >= 1 && start <= |fps| && len > MaxPattern(|fps| - start, least)
    ensures !Repeats(fps, start, len, least)
  {
    var count := Copies(fps, start, len);
    TooLong(|fps| - start, least, len);
    if count >= least {
      MulLe(least, count, len);
      assert false;
    }
  }

  // ---- the search and the compression as they run ----

  /** `_find_repeat`: the longest pattern that occurs at least `least` times in a row from `start` on, and how
      often; (1, 1) when there is none. */
  method FindRepeat(fps: seq<string>, start: nat, least: int) returns (len: nat, count: nat)
    requires start < |fps| && least != 0
    ensures Step(len, count) == BestRepeat(fps, start, least, MaxPattern(|fps| - start, least))
  {
    len, count := 1, 1;
    var tried := 0;
    while tried < MaxPattern(|fps| - start, least)
      invariant 0 <= tried <= MaxPattern(|fps| - start, least)
      invariant Step(len, count) == BestRepeat(fps, start, least, tried)
    {
      tried := tried + 1;
      var n := CountCopies(fps, start, tried, least);
      if n >= least && tried >= len {
        len, count := tried, n;
      }
    }
  }

  /** The inner loop: the first window counts, then each further one. */
  method CountCopies(fps: seq<string>, start: nat, len: nat, least: int) returns (count: nat)
    requires start < |fps| && least != 0 && 1 <= len <= MaxPattern(|fps| - start, least)
    ensures count == Copies(fps, start, len) && count >= 1
  {
    FitsOnce(|fps| - start, least, len);
    count := 1;
    var pos := start + len;
    while pos + len <= |fps| && fps[pos..pos + len] == fps[start..start + len]
      invariant start + len <= pos <= |fps| && count >= 1
      invariant Copies(fps, start, len) == count + CopiesFrom(fps, start, len, pos)
      decreases |fps| - pos
    {
      count := count + 1;
      pos := pos + len;
    }
  }

  lemma FitsOnce(rest: nat, least: int, len: nat)
    requires least != 0 && 1 <= len <= MaxPattern(rest, least)
    ensures least >= 1 && len <= rest
  {
    if least >= 1 {
      MulLe(1, least, rest / least);
      assert rest == (rest / least) * least + rest % least;
    }
  }

  /** One step of the compression: `len` messages are kept, `len` * `count` are passed. */
  function StepAt(fps: seq<string>, i: nat, least: int): (step: Step)
    requires i < |fps| && least != 0
    ensures step.len >= 1 && step.count >= 1
  {
    var best := BestRepeat(fps, i, least, MaxPattern(|fps| - i, least));
    if best.count >= least then best else Step(1, 1)
  }

  /** How many messages a step passes. */
  function Passed(step: Step): nat {
    step.len * step.count
  }

  lemma StepFits(fps: seq<string>, i: nat, least: int)
    requires i < |fps| && least != 0
    ensures var step := StepAt(fps, i, least);
      && i + step.len <= i + Passed(step) <= |fps|
      && (step == Step(1, 1) || step.count == Copies(fps, i, step.len))
  {
    var step := StepAt(fps, i, least);
    StepIsCopies(fps, i, least);
    hide StepAt;
    if step != Step(1, 1) {
      CopiesFit(fps, i, step.len);
    }
    MulLe(1, step.count, step.len);
  }

  lemma StepIsCopies(fps: seq<string>, i: nat, least: int)
    requires i < |fps| && least != 0
    ensures var step := StepAt(fps, i, least); step == Step(1, 1) || step.count == Copies(fps, i, step.len)
  {
    if least >= 1 {
      BestIsLongest(fps, i, least, MaxPattern(|fps| - i, least));
    }
  }

  lemma CopiesFit(fps: seq<string>, start: nat, len: nat)
    requires len >= 1 && start <= |fps|
    ensures start + Passed(Step(len, Copies(fps, start, len))) <= |fps|
  {
    assert len * Copies(fps, start, len) == Copies(fps, start, len) * len;
  }

  /** A kept pattern and how often it stood in a row. */
  datatype Segment = Segment(pattern: seq<Message>, count: nat)

  /** The segments from message `i` on. */
  function SegmentsFrom(messages: seq<Message>, least: int, i: nat): seq<Segment>
    requires i <= |messages| && least != 0
    decreases |messages| - i
  {
    if i == |messages| then []
    else
      var fps := Fingerprints(messages);
      var step := StepAt(fps, i, least);
      StepFits(fps, i, least);
      [Segment(messages[i..i + step.len], step.count)] + SegmentsFrom(messages, least, i + Passed(step))
  }

  /** One copy of each pattern. */
  function Singles(segments: seq<Segment>): seq<Message> {
    if segments == [] then [] else segments[0].pattern + Singles(segments[1..])
  }

  /** `collapse`. */
  function Collapsed(messages: seq<Message>, least: int): Result<seq<Message>, Error> {
    if messages == [] then Success([])
    else if least == 0 then Failure(DivisionByZero)
    else Success(Singles(SegmentsFrom(messages, least, 0)))
  }

  lemma SinglesOfFirst(s: Segment, rest: seq<Segment>)
    ensures Singles([s] + rest) == s.pattern + Singles(rest)
  {
    assert ([s] + rest)[1..] == rest;
  }

  /** The segments from `i` on, one unfolded. */
  lemma SegmentStep(messages: seq<Message>, least: int, i: nat, step: Step)
    requires i < |messages| && least != 0 && step == StepAt(Fingerprints(messages), i, least)
    ensures step.len >= 1 && step.count >= 1 && i + step.len <= i + Passed(step) <= |messages|
    ensures SegmentsFrom(messages, least, i) ==
      [Segment(messages[i..i + step.len], step.count)] + SegmentsFrom(messages, least, i + Passed(step))
    ensures step.count == 1 || step.count >= least
  {
    StepFits(Fingerprints(messages), i, least);
  }

  /** What is done and what is to come make up the whole output. */
  predicate MakesUp(done: seq<Message>, rest: seq<Message>, whole: seq<Message>) {
    done + rest == whole
  }

  /** Keeping the next pattern moves one segment from what is to come to what is done. */
  lemma KeepStep(messages: seq<Message>, least: int, i: nat, done: seq<Message>, step: Step, whole: seq<Message>)
    requires i < |messages| && least != 0 && step == StepAt(Fingerprints(messages), i, least)
    requires MakesUp(done, Singles(SegmentsFrom(messages, least, i)), whole)
    ensures i + step.len <= i + Passed(step) <= |messages| && step.len >= 1
    ensures MakesUp(done + messages[i..i + step.len], Singles(SegmentsFrom(messages, least, i + Passed(step))), whole)
  {
    SegmentStep(messages, least, i, step);
    hide SegmentsFrom, StepAt, Singles, Passed, Fingerprints;
    var rest := SegmentsFrom(messages, least, i + Passed(step));
    SinglesOfFirst(Segment(messages[i..i + step.len], step.count), rest);
    Regroup(done, messages[i..i + step.len], Singles(rest));
  }

  lemma NothingKept(messages: seq<Message>, least: int, done: seq<Message>, whole: seq<Message>)
    requires least != 0 && MakesUp(done, Singles(SegmentsFrom(messages, least, |messages|)), whole)
    ensures done == whole
  {
    assert done + [] == done;
  }

  method CollapseMessages(messages: seq<Message>, least: int) returns (r: Result<seq<Message>, Error>)
    ensures r == Collapsed(messages, least)
    ensures r.Failure? <==> messages != [] && least == 0
  {
    if messages == [] {
      return Success([]);
    }
    if least == 0 {
      return Failure(DivisionByZero);
    }
    var result := KeepPatterns(messages, least);
    r := Success(result);
  }

  /** The loop over the messages. */
  method KeepPatterns(messages: seq<Message>, least: int) returns (result: seq<Message>)
    requires least != 0
    ensures result == Singles(SegmentsFrom(messages, least, 0))
  {
    hide Passed, SegmentsFrom, Singles, BestRepeat, MaxPattern, Fingerprint, JoinedTexts, Copies;
    var fps := Fingerprints(messages);
    ghost var whole := Singles(SegmentsFrom(messages, least, 0));
    result := [];
    var i := 0;
    assert MakesUp(result, whole, whole);
    while i < |messages|
      invariant 0 <= i <= |messages|
      invariant MakesUp(result, Singles(SegmentsFrom(messages, least, i)), whole)
      decreases |messages| - i
    {
      var len, count := FindRepeat(fps, i, least);
      var step := if count >= least then Step(len, count) else Step(1, 1);
      assert step == StepAt(fps, i, least);
      hide StepAt, Fingerprints, MakesUp;
      KeepStep(messages, least, i, result, step, whole);
      result := result + messages[i..i + step.len];
      i := i + Passed(step);
    }
    NothingKept(messages, least, result, whole);
  }

  // ---- nothing is lost but the copies ----

  function Repeated(pattern: seq<string>, count: nat): seq<string> {
    if count == 0 then [] else pattern + Repeated(pattern, count - 1)
  }

  /** The fingerprints the segments stand for, copies included. */
  function Expanded(segments: seq<Segment>): seq<string> {
    if segments == [] then []
    else Repeated(Fingerprints(segments[0].pattern), segments[0].count) + Expanded(segments[1..])
  }

  /** Copies in a row are the repeated window. */
  lemma {:induction false} CopiesAreRepeated(fps: seq<string>, start: nat, len: nat, pos: nat, count: nat)
    requires len >= 1 && start + len <= |fps| && pos <= |fps| && count <= CopiesFrom(fps, start, len, pos)
    ensures pos + len * count <= |fps|
    ensures fps[pos..pos + len * count] == Repeated(fps[start..start + len], count)
    decreases count
  {
    if count > 0 {
      CopiesAreRepeated(fps, start, len, pos + len, count - 1);
      assert len * count == len + len * (count - 1);
      assert fps[pos..pos + len * count] == fps[pos..pos + len] + fps[pos + len..pos + len + len * (count - 1)];
    } else {
      assert len * count == 0;
    }
  }

  lemma StepExpands(messages: seq<Message>, least: int, i: nat)
    requires i < |messages| && least != 0
    ensures var fps := Fingerprints(messages);
      var step := StepAt(fps, i, least);
      && i + step.len <= i + Passed(step) <= |messages|
      && Repeated(Fingerprints(messages[i..i + step.len]), step.count) == fps[i..i + Passed(step)]
  {
    var fps := Fingerprints(messages);
    var step := StepAt(fps, i, least);
    StepFits(fps, i, least);
    assert Fingerprints(messages[i..i + step.len]) == fps[i..i + step.len];
    if step == Step(1, 1) {
      assert Repeated(fps[i..i + 1], 1) == fps[i..i + 1] + [];
    } else {
      CopiesAreRepeated(fps, i, step.len, i, step.count);
    }
  }

  lemma NoSegments(messages: seq<Message>, least: int)
    requires least != 0
    ensures SegmentsFrom(messages, least, |messages|) == []
  {
  }

  lemma ExpandedOfFirst(s: Segment, rest: seq<Segment>)
    ensures Expanded([s] + rest) == Repeated(Fingerprints(s.pattern), s.count) + Expanded(rest)
  {
    assert ([s] + rest)[1..] == rest;
  }

  /** Lossless up to fingerprints: the segments, each standing once or at least `least` times, expand to the
      input, and one copy of each is the output. */
  lemma {:induction false} SegmentsExpand(messages: seq<Message>, least: int, i: nat)
    requires i <= |messages| && least != 0
    ensures var segments := SegmentsFrom(messages, least, i);
      && Expanded(segments) == Fingerprints(messages)[i..]
      && (forall j :: 0 <= j < |segments| ==>
            segments[j].pattern != [] && (segments[j].count == 1 || segments[j].count >= least))
    decreases |messages| - i
  {
    hide SegmentsFrom, StepAt, Passed, Expanded, Repeated;
    if i < |messages| {
      var fps := Fingerprints(messages);
      var step := StepAt(fps, i, least);
      SegmentStep(messages, least, i, step);
      StepExpands(messages, least, i);
      var next := i + Passed(step);
      SegmentsExpand(messages, least, next);
      ExpandedOfFirst(Segment(messages[i..i + step.len], step.count), SegmentsFrom(messages, least, next));
      assert fps[i..] == fps[i..next] + fps[next..];
    } else {
      NoSegments(messages, least);
      NothingExpands();
    }
  }

  lemma NothingExpands()
    ensures Expanded([]) == []
  {
  }

  lemma CollapseIsLossless(messages: seq<Message>, least: int)
    requires least != 0
    ensures Collapsed(messages, least).Success?
    ensures var segments := if messages == [] then [] else SegmentsFrom(messages, least, 0);
      && Expanded(segments) == Fingerprints(messages)
      && Singles(segments) == Collapsed(messages, least).value
      && (forall j :: 0 <= j < |segments| ==>
            segments[j].pattern != [] && (segments[j].count == 1 || segments[j].count >= least))
  {
    SegmentsExpand(messages, least, 0);
    assert Fingerprints(messages)[0..] == Fingerprints(messages);
  }

  // ---- the output is a subsequence, and every fingerprint survives ----

  /** `count` indices from `i` on. */
  function Range(i: nat, count: nat): (ns: seq<nat>)
    ensures |ns| == count && forall j :: 0 <= j < count ==> ns[j] == i + j
  {
    seq(count, j requires 0 <= j < count => i + j)
  }

  /** The indices of the messages kept from `i` on. */
  function KeptFrom(messages: seq<Message>, least: int, i: nat): seq<nat>
    requires i <= |messages| && least != 0
    decreases |messages| - i
  {
    if i == |messages| then []
    else
      var step := StepAt(Fingerprints(messages), i, least);
      StepFits(Fingerprints(messages), i, least);
      Range(i, step.len) + KeptFrom(messages, least, i + Passed(step))
  }

  /** The output consists of the messages at the rising indices `kept`, none before `i`. */
  ghost predicate PicksOut(messages: seq<Message>, kept: seq<nat>, output: seq<Message>, i: nat) {
    && Rising(kept, i, |messages|) && |kept| == |output|
    && forall j :: 0 <= j < |kept| ==> output[j] == messages[kept[j]]
  }

  lemma KeptStep(messages: seq<Message>, least: int, i: nat, step: Step)
    requires i < |messages| && least != 0 && step == StepAt(Fingerprints(messages), i, least)
    requires i + Passed(step) <= |messages|
    ensures KeptFrom(messages, least, i) ==
      Range(i, step.len) + KeptFrom(messages, least, i + Passed(step))
  {
  }

  /** The output is the messages at rising indices of the input. */
  lemma {:induction false} OutputIsSubsequence(messages: seq<Message>, least: int, i: nat)
    requires i <= |messages| && least != 0
    ensures PicksOut(messages, KeptFrom(messages, least, i), Singles(SegmentsFrom(messages, least, i)), i)
    decreases |messages| - i
  {
    hide Passed, StepAt, Fingerprints, Fingerprint, JoinedTexts, Singles, SegmentsFrom, KeptFrom, PicksOut, Range;
    if i < |messages| {
      var step := StepAt(Fingerprints(messages), i, least);
      SegmentStep(messages, least, i, step);
      KeptStep(messages, least, i, step);
      OutputIsSubsequence(messages, least, i + Passed(step));
      OneMorePicked(messages, least, i, step);
    } else {
      NothingPicked(messages, least);
    }
  }

  lemma NothingPicked(messages: seq<Message>, least: int)
    requires least != 0
    ensures PicksOut(messages, KeptFrom(messages, least, |messages|),
                     Singles(SegmentsFrom(messages, least, |messages|)), |messages|)
  {
  }

  lemma OneMorePicked(messages: seq<Message>, least: int, i: nat, step: Step)
    requires i < |messages| && least != 0 && step.len >= 1 && i + step.len <= i + Passed(step) <= |messages|
    requires var next := i + Passed(step);
      PicksOut(messages, KeptFrom(messages, least, next), Singles(SegmentsFrom(messages, least, next)), next)
    ensures var next := i + Passed(step);
      PicksOut(messages, Range(i, step.len) + KeptFrom(messages, least, next),
               Singles([Segment(messages[i..i + step.len], step.count)] + SegmentsFrom(messages, least, next)), i)
  {
    hide Passed, StepAt, Fingerprints, Fingerprint, JoinedTexts, Singles, SegmentsFrom, KeptFrom, PicksOut, Range;
    var next := i + Passed(step);
    SinglesOfFirst(Segment(messages[i..i + step.len], step.count), SegmentsFrom(messages, least, next));
    PicksJoin(messages, i, step.len, next, KeptFrom(messages, least, next),
              Singles(SegmentsFrom(messages, least, next)));
  }

  lemma PicksJoin(messages: seq<Message>, i: nat, count: nat, next: nat, kept: seq<nat>, output: seq<Message>)
    requires PicksOut(messages, kept, output, next) && i + count <= next <= |messages|
    ensures PicksOut(messages, Range(i, count) + kept, messages[i..i + count] + output, i)
  {
    var first := Range(i, count);
    assert forall j :: 0 <= j < count ==> messages[i..i + count][j] == messages[first[j]];
  }

  lemma {:induction false} InRepeated(pattern: seq<string>, count: nat, fp: string)
    ensures fp in Repeated(pattern, count) <==> count > 0 && fp in pattern
  {
    if count > 0 {
      InRepeated(pattern, count - 1, fp);
    }
  }

  lemma {:induction false} ExpandedSurvives(segments: seq<Segment>, fp: string)
    requires forall j :: 0 <= j < |segments| ==> segments[j].count >= 1
    ensures fp in Expanded(segments) <==> fp in Fingerprints(Singles(segments))
  {
    if segments != [] {
      ExpandedSurvives(segments[1..], fp);
      InRepeated(Fingerprints(segments[0].pattern), segments[0].count, fp);
      assert Fingerprints(Singles(segments)) ==
        Fingerprints(segments[0].pattern) + Fingerprints(Singles(segments[1..]));
    }
  }

  /** Collapsing keeps the messages in order and drops no fingerprint altogether. */
  lemma CollapseKeepsEveryFingerprint(messages: seq<Message>, least: int, fp: string)
    requires least != 0
    ensures Collapsed(messages, least).Success?
    ensures fp in Fingerprints(messages) <==> fp in Fingerprints(Collapsed(messages, least).value)
  {
    CollapseIsLossless(messages, least);
    var segments := if messages == [] then [] else SegmentsFrom(messages, least, 0);
    CountsPositive(messages, least, 0);
    ExpandedSurvives(segments, fp);
  }

  lemma {:induction false} CountsPositive(messages: seq<Message>, least: int, i: nat)
    requires i <= |messages| && least != 0
    ensures var segments := SegmentsFrom(messages, least, i);
      forall j :: 0 <= j < |segments| ==> segments[j].count >= 1
    decreases |messages| - i
  {
    hide Passed, StepAt, Fingerprints, SegmentsFrom;
    if i < |messages| {
      var step := StepAt(Fingerprints(messages), i, least);
      SegmentStep(messages, least, i, step);
      CountsPositive(messages, least, i + Passed(step));
    } else {
      NoSegments(messages, least);
    }
  }

  /** What is taken at each place: the longest pattern that occurs at least `least` times in a row, with all
      its copies; a single message exactly when there is no such pattern. */
  lemma TakesTheLongest(fps: seq<string>, i: nat, least: int)
    requires i < |fps| && least >= 2
    ensures var step := StepAt(fps, i, least);
      && (forall len :: 1 <= len && Repeats(fps, i, len, least) ==>
            len <= step.len && step.count == Copies(fps, i, step.len) && step.count >= least)
      && (step.count >= least ==> Repeats(fps, i, step.len, least) && step.count == Copies(fps, i, step.len))
      && (step.count < least ==> step == Step(1, 1) && forall len :: 1 <= len ==> !Repeats(fps, i, len, least))
  {
    var limit := MaxPattern(|fps| - i, least);
    BestIsLongest(fps, i, least, limit);
    forall len | 1 <= len && Repeats(fps, i, len, least)
      ensures len <= limit
    {
      if len > limit {
        LongPatternsDoNotRepeat(fps, i, least, len);
      }
    }
  }

  // ---- what a fingerprint tells ----

  predicate Plain(text: string) {
    '|' !in text && ':' !in text
  }

  predicate AllPlain(texts: seq<string>) {
    forall i :: 0 <= i < |texts| ==> Plain(texts[i])
  }

  /** A concrete fingerprint. */
  lemma FingerprintOfTwo(m: Message)
    requires |m.texts| == 2
    ensures Fingerprint(m) == m.role + ":" + m.texts[0] + "|" + m.role + ":" + m.texts[1]
  {
    assert JoinedTexts(m.role, m.texts, 1) == m.role + ":" + m.texts[0];
  }

  function Last(texts: seq<string>): string
    requires texts != []
  {
    texts[|texts| - 1]
  }

  /** The bars in a joined text are those between its parts. */
  lemma {:induction false} JoinedEnds(role: string, texts: seq<string>, n: nat)
    requires 0 < n <= |texts|
    ensures JoinedTexts(role, texts, n) ==
      (if n == 1 then "" else JoinedTexts(role, texts, n - 1) + "|") + (role + ":" + texts[n - 1])
  {
  }

  lemma LastBar(a: string, x: string, b: string, y: string)
    requires '|' !in x && '|' !in y && a + "|" + x == b + "|" + y
    ensures a == b && x == y
  {
    var s, t := a + "|" + x, b + "|" + y;
    assert s[|a|] == '|' && t[|b|] == '|';
    assert forall i :: |a| < i < |s| ==> s[i] == x[i - |a| - 1];
    assert forall i :: |b| < i < |t| ==> t[i] == y[i - |b| - 1];
    assert |a| == |b|;
    assert a == s[..|a|] && b == t[..|b|] && x == s[|a| + 1..] && y == t[|b| + 1..];
  }

  lemma FirstColon(a: string, x: string, b: string, y: string)
    requires ':' !in a && ':' !in b && a + ":" + x == b + ":" + y
    ensures a == b && x == y
  {
    var s, t := a + ":" + x, b + ":" + y;
    assert s[|a|] == ':' && t[|b|] == ':';
    assert forall i :: 0 <= i < |a| ==> s[i] == a[i];
    assert forall i :: 0 <= i < |b| ==> t[i] == b[i];
    assert |a| == |b|;
    assert a == s[..|a|] && b == t[..|b|] && x == s[|a| + 1..] && y == t[|b| + 1..];
  }

  lemma PartHasNoBar(role: string, text: string)
    requires Plain(role) && Plain(text)
    ensures '|' !in role + ":" + text
  {
  }

  lemma {:induction false} BarsInJoined(role: string, texts: seq<string>, n: nat)
    requires 0 < n <= |texts| && Plain(role) && AllPlain(texts)
    ensures '|' in JoinedTexts(role, texts, n) <==> n > 1
  {
    PartHasNoBar(role, texts[n - 1]);
    JoinedEnds(role, texts, n);
  }

  /** Messages without bars and colons in role and text have the same fingerprint exactly when they have the same
      role and the same texts, or no text at all. */
  lemma {:induction false} FingerprintTells(a: Message, b: Message)
    requires Plain(a.role) && Plain(b.role) && AllPlain(a.texts) && AllPlain(b.texts)
    ensures Fingerprint(a) == Fingerprint(b) <==> a.texts == b.texts && (a.texts == [] || a.role == b.role)
  {
    if Fingerprint(a) == Fingerprint(b) {
      JoinedTells(a.role, a.texts, |a.texts|, b.role, b.texts, |b.texts|);
      assert a.texts == a.texts[..|a.texts|] && b.texts == b.texts[..|b.texts|];
    }
  }

  lemma {:induction false} JoinedTells(r: string, a: seq<string>, m: nat, q: string, b: seq<string>, n: nat)
    requires m <= |a| && n <= |b| && Plain(r) && Plain(q) && AllPlain(a) && AllPlain(b)
    requires JoinedTexts(r, a, m) == JoinedTexts(q, b, n)
    ensures m == n && a[..m] == b[..n] && (m == 0 || r == q)
  {
    if m > 0 {
      JoinedEnds(r, a, m);
    }
    if n > 0 {
      JoinedEnds(q, b, n);
    }
    if m > 0 && n > 0 {
      BarsInJoined(r, a, m);
      BarsInJoined(q, b, n);
      PartHasNoBar(r, a[m - 1]);
      PartHasNoBar(q, b[n - 1]);
      assert Plain(a[m - 1]) && Plain(b[n - 1]);
      hide *;
      if m > 1 {
        LastBar(JoinedTexts(r, a, m - 1), r + ":" + a[m - 1], JoinedTexts(q, b, n - 1), q + ":" + b[n - 1]);
        JoinedTells(r, a, m - 1, q, b, n - 1);
        assert a[..m] == a[..m - 1] + [a[m - 1]] && b[..n] == b[..n - 1] + [b[n - 1]];
      }
      PlainParts(r, a[m - 1], q, b[n - 1]);
    }
  }

  lemma PlainParts(r: string, x: string, q: string, y: string)
    requires Plain(r) && Plain(q)
    ensures r + ":" + x == q + ":" + y ==> r == q && x == y
  {
    if r + ":" + x == q + ":" + y {
      FirstColon(r, x, q, y);
    }
  }
}
