/**
  The research-plan checklist that `create_research_plan` writes into the
  `research_plan` memory block (research_tools.py:25-27): a header line
  naming the topic, then one unchecked item `- [ ] Step N - <step>` per
  step, numbered from 1 in input order, every line ending in a newline.

  Besides the rendering, the module defines a parser for such checklists
  and proves the two inverse to each other, which pins down the exact
  layout: header text, numbering, order and number of step lines.
 */
module ResearchPlan {
  import opened Options
  import Decimal
  import opened Text

  const HeaderPrefix: string := "The plan of action is to research `"
  const HeaderSuffix: string := "` with the following steps: "
  const StepPrefix: string := "- [ ] Step "
  const StepSeparator: string := " - "

  /** The first line of a plan, without its newline; the topic appears verbatim. */
  function HeaderLine(topic: string): string {
    HeaderPrefix + (topic + HeaderSuffix)
  }

  /** The checklist item for step number `n`, without its newline. */
  function StepText(n: nat, step: string): string {
    StepPrefix + (Decimal.FromNat(n) + (StepSeparator + step))
  }

  /** Checklist items for `steps`, the first one numbered `first`. */
  function StepTexts(steps: seq<string>, first: nat): (items: seq<string>)
    ensures |items| == |steps|
  {
    seq(|steps|, i requires 0 <= i < |steps| => StepText(first + i, steps[i]))
  }

  /** The plan's lines: the header, then step `i` (0-based) as item number `i + 1`. */
  function PlanLines(topic: string, steps: seq<string>): seq<string> {
    [HeaderLine(topic)] + StepTexts(steps, 1)
  }

  /** The whole plan text, every line newline-terminated. */
  function RenderPlan(topic: string, steps: seq<string>): string {
    JoinLines(PlanLines(topic, steps))
  }

  /**
    The plan starts with exactly the header line and its newline, and an
    empty step list renders as that header alone.
   */
  lemma RenderPlanHeader(topic: string, steps: seq<string>)
    ensures var header := HeaderPrefix + topic + HeaderSuffix + "\n";
            |header| <= |RenderPlan(topic, steps)|
            && RenderPlan(topic, steps)[..|header|] == header
            && (steps == [] ==> RenderPlan(topic, steps) == header)
  {
    var lines := PlanLines(topic, steps);
    assert lines[1..] == StepTexts(steps, 1);
    assert RenderPlan(topic, steps) == HeaderLine(topic) + "\n" + JoinLines(StepTexts(steps, 1));
  }

  /**
    One more step appends exactly one item line, numbered one past the
    steps before it, and leaves the text rendered so far untouched.
   */
  lemma {:induction false} RenderPlanSnoc(topic: string, steps: seq<string>, step: string)
    ensures RenderPlan(topic, steps + [step])
         == RenderPlan(topic, steps) + StepText(|steps| + 1, step) + "\n"
  {
    var item := StepText(|steps| + 1, step);
    assert PlanLines(topic, steps + [step]) == PlanLines(topic, steps) + [item];
    JoinLinesAppend(PlanLines(topic, steps), [item]);
    assert JoinLines([item]) == item + "\n" by {
      assert [item][1..] == [];
    }
  }

  /**
    The rendering loop of research_tools.py:25-27: start from the header
    and append one item line per step, in input order.
   */
  method BuildPlanText(topic: string, steps: seq<string>) returns (text: string)
    ensures text == RenderPlan(topic, steps)
  {
    text := HeaderPrefix + topic + HeaderSuffix + "\n";
    RenderPlanHeader(topic, []);
    for i := 0 to |steps|
      invariant text == RenderPlan(topic, steps[..i])
    {
      RenderPlanSnoc(topic, steps[..i], steps[i]);
      assert steps[..i] + [steps[i]] == steps[..i + 1];
      text := text + StepPrefix + Decimal.FromNat(i + 1) + StepSeparator + steps[i] + "\n";
    }
    assert steps[..|steps|] == steps;
  }

  // ---------------------------------------------------------------------
  // Reading a checklist back

  datatype PlanData = PlanData(topic: string, steps: seq<string>)
  datatype StepEntry = StepEntry(number: nat, step: string)

  /** The topic named by a header line, if `line` is one. */
  function ParseHeaderLine(line: string): (r: Option<string>)
    ensures r.Some? ==> HeaderLine(r.value) == line
  {
    match StripPrefix(line, HeaderPrefix)
    case None => None
    case Some(rest) => StripSuffix(rest, HeaderSuffix)
  }

  /** The length of the run of digits at the start of `s`. */
  function DigitRun(s: string): (k: nat)
    ensures k <= |s|
    ensures Decimal.AllDigits(s[..k])
    ensures k < |s| ==> !Decimal.IsDigit(s[k])
    decreases |s|
  {
    if |s| == 0 || !Decimal.IsDigit(s[0]) then 0
    else
      var k := 1 + DigitRun(s[1..]);
      assert s[..k] == [s[0]] + s[1..][..k - 1];
      k
  }

  /**
    The number and step text of a checklist item, if `line` is one. The
    number must be a canonical numeral (no leading zero), as rendering
    produces it.
   */
  function ParseStepText(line: string): (r: Option<StepEntry>)
    ensures r.Some? ==> StepText(r.value.number, r.value.step) == line
  {
    match StripPrefix(line, StepPrefix)
    case None => None
    case Some(rest) =>
      var k := DigitRun(rest);
      var digits := rest[..k];
      if k == 0 || (k > 1 && digits[0] == '0') then
        None
      else
        match StripPrefix(rest[k..], StepSeparator)
        case None => None
        case Some(step) =>
          StepTextOfParts(digits, rest[k..], step);
          assert rest == digits + rest[k..];
          Some(StepEntry(Decimal.Value(digits), step))
  }

  /** A canonical numeral, the separator and a step text, after the item prefix, form that item. */
  lemma StepTextOfParts(digits: string, tail: string, step: string)
    requires |digits| >= 1 && Decimal.AllDigits(digits) && (|digits| == 1 || digits[0] != '0')
    requires tail == StepSeparator + step
    ensures StepText(Decimal.Value(digits), step) == StepPrefix + (digits + tail)
  {
    Decimal.FromNatOfValue(digits);
  }

  /** The steps of consecutive checklist items numbered `first`, `first + 1`, .... */
  function ParseSteps(lines: seq<string>, first: nat): (r: Option<seq<string>>)
    ensures r.Some? ==> StepTexts(r.value, first) == lines
    decreases |lines|
  {
    if |lines| == 0 then
      Some([])
    else
      match ParseStepText(lines[0])
      case None => None
      case Some(entry) =>
        if entry.number != first then
          None
        else
          match ParseSteps(lines[1..], first + 1)
          case None => None
          case Some(rest) =>
            var steps := [entry.step] + rest;
            assert steps[0] == entry.step && steps[1..] == rest;
            StepTextsCons(steps, first);
            assert StepText(first, entry.step) == lines[0];
            assert lines == [lines[0]] + lines[1..];
            Some(steps)
  }

  /** The topic and steps a plan text was rendered from, if it is a rendering. */
  function ParsePlan(text: string): (r: Option<PlanData>)
    ensures r.Some? ==> RenderPlan(r.value.topic, r.value.steps) == text
  {
    match SplitLines(text)
    case None => None
    case Some(lines) =>
      if |lines| == 0 then
        None
      else
        match ParseHeaderLine(lines[0])
        case None => None
        case Some(topic) =>
          match ParseSteps(lines[1..], 1)
          case None => None
          case Some(steps) =>
            JoinSplit(text);
            assert PlanLines(topic, steps) == lines;
            Some(PlanData(topic, steps))
  }

  /** Neither the topic nor any step holds a newline. */
  predicate SingleLinePlan(topic: string, steps: seq<string>) {
    '\n' !in topic && forall i :: 0 <= i < |steps| ==> '\n' !in steps[i]
  }

  lemma HeaderRoundTrip(topic: string)
    ensures ParseHeaderLine(HeaderLine(topic)) == Some(topic)
  {
    StripPrefixOf(HeaderPrefix, topic + HeaderSuffix);
    StripSuffixOf(topic, HeaderSuffix);
  }

  /** Digits followed by a non-digit: the digit run stops exactly there. */
  lemma {:induction false} DigitRunOfNumeral(digits: string, tail: string)
    requires Decimal.AllDigits(digits)
    requires |tail| > 0 && !Decimal.IsDigit(tail[0])
    ensures DigitRun(digits + tail) == |digits|
    decreases |digits|
  {
    if |digits| > 0 {
      assert (digits + tail)[1..] == digits[1..] + tail;
      DigitRunOfNumeral(digits[1..], tail);
    } else {
      assert digits + tail == tail;
    }
  }

  lemma StepRoundTrip(n: nat, step: string)
    ensures ParseStepText(StepText(n, step)) == Some(StepEntry(n, step))
  {
    var digits := Decimal.FromNat(n);
    var tail := StepSeparator + step;
    var rest := digits + tail;
    StripPrefixOf(StepPrefix, rest);
    DigitRunOfNumeral(digits, tail);
    assert rest[..|digits|] == digits;
    assert rest[|digits|..] == tail;
    StripPrefixOf(StepSeparator, step);
  }

  lemma StepTextsCons(steps: seq<string>, first: nat)
    requires |steps| > 0
    ensures StepTexts(steps, first) == [StepText(first, steps[0])] + StepTexts(steps[1..], first + 1)
  {
  }

  lemma {:induction false} StepsRoundTrip(steps: seq<string>, first: nat)
    ensures ParseSteps(StepTexts(steps, first), first) == Some(steps)
    decreases |steps|
  {
    if |steps| > 0 {
      var lines := StepTexts(steps, first);
      var line := StepText(first, steps[0]);
      var tail := StepTexts(steps[1..], first + 1);
      StepTextsCons(steps, first);
      assert lines == [line] + tail;
      assert lines[0] == line && lines[1..] == tail;
      StepRoundTrip(first, steps[0]);
      StepsRoundTrip(steps[1..], first + 1);
      assert ParseSteps(lines, first) == Some([steps[0]] + steps[1..]);
      assert steps == [steps[0]] + steps[1..];
    }
  }

  lemma HeaderSingleLine(topic: string)
    requires '\n' !in topic
    ensures '\n' !in HeaderLine(topic)
  {
    assert '\n' !in HeaderPrefix && '\n' !in HeaderSuffix;
  }

  lemma StepTextSingleLine(n: nat, step: string)
    requires '\n' !in step
    ensures '\n' !in StepText(n, step)
  {
    var digits := Decimal.FromNat(n);
    assert '\n' !in digits by {
      forall i | 0 <= i < |digits|
        ensures digits[i] != '\n'
      {
        assert Decimal.IsDigit(digits[i]);
      }
    }
    assert '\n' !in StepPrefix && '\n' !in StepSeparator;
  }

  /**
    Rendering then parsing recovers the topic and the steps, in order,
    when none of them holds a newline: the plan text is exactly one header
    line and one item per step, numbered 1, 2, ... in input order, with no
    extra or missing lines.
   */
  lemma PlanRoundTrip(topic: string, steps: seq<string>)
    requires SingleLinePlan(topic, steps)
    ensures ParsePlan(RenderPlan(topic, steps)) == Some(PlanData(topic, steps))
  {
    var lines := PlanLines(topic, steps);
    assert SingleLines(lines) by {
      forall i | 0 <= i < |lines|
        ensures '\n' !in lines[i]
      {
        if i == 0 {
          HeaderSingleLine(topic);
        } else {
          StepTextSingleLine(i, steps[i - 1]);
        }
      }
    }
    SplitJoin(lines);
    HeaderRoundTrip(topic);
    assert lines[1..] == StepTexts(steps, 1);
    StepsRoundTrip(steps, 1);
  }
}
