/**
 * The popup's own length checks and the H1 status line
 * (src/popup/popup.js). Both length checkers follow one rule with different
 * bounds and wording, so the rule is written once as `CheckLength` and the two
 * checkers fix its bounds. Each is related to the content script's issue lists
 * for the same text, with which it agrees except where noted.
 */
module Popup {
  import opened JsString
  import opened Content

  /** The `status` strings 'success', 'warning' and 'error'. */
  datatype Status = Success | Warning | Error

  datatype LengthVerdict = LengthVerdict(status: Status, lengthOk: bool, message: string)

  /** The subject named in the messages and the inclusive length bounds. */
  datatype LengthRule = LengthRule(subject: string, minLength: nat, maxLength: nat)

  const TitleRule := LengthRule("Title tag", 30, 60)
  const DescriptionRule := LengthRule("Meta description", 120, 155)

  /** What a length message tells the user to do. */
  datatype Advice = AddChars(missing: nat) | RemoveChars(excess: nat) | Optimal

  function ShortAdvice(subject: string, missing: nat): string
  {
    subject + " is too short. Add " + NatToString(missing) + " more characters."
  }

  function LongAdvice(subject: string, excess: nat): string
  {
    subject + " is too long. Remove " + NatToString(excess) + " characters."
  }

  function OptimalAdvice(subject: string): string
  {
    subject + " length is optimal."
  }

  /** The message text for an advice. */
  function AdviceMessage(subject: string, a: Advice): string
  {
    match a
    case AddChars(n) => ShortAdvice(subject, n)
    case RemoveChars(n) => LongAdvice(subject, n)
    case Optimal => OptimalAdvice(subject)
  }

  /** The advice for a text of `length` code units: following it lands exactly
      on the nearer bound. */
  function Advise(rule: LengthRule, length: nat): (a: Advice)
    ensures a.AddChars? <==> length < rule.minLength
    ensures a.AddChars? ==> length + a.missing == rule.minLength
    ensures a.RemoveChars? <==> rule.minLength <= length && length > rule.maxLength
    ensures a.RemoveChars? ==> length - a.excess == rule.maxLength
    ensures a.Optimal? <==> rule.minLength <= length <= rule.maxLength
  {
    if length < rule.minLength then AddChars(rule.minLength - length)
    else if length > rule.maxLength then RemoveChars(length - rule.maxLength)
    else Optimal
  }

  /** The shared shape of `analyzeTitleTag` and `analyzeMetaDescription`: the
      length is `.length` (UTF-16 code units), bounds are inclusive, and the
      message carries the advice. */
  function CheckLength(rule: LengthRule, text: string): (v: LengthVerdict)
    ensures v.lengthOk <==> rule.minLength <= Length(text) <= rule.maxLength
    ensures v.status == Success <==> v.lengthOk
    ensures v.status != Error
    ensures v.message == AdviceMessage(rule.subject, Advise(rule, Length(text)))
  {
    var length := Length(text);
    if length < rule.minLength then
      LengthVerdict(Warning, false, ShortAdvice(rule.subject, rule.minLength - length))
    else if length > rule.maxLength then
      LengthVerdict(Warning, false, LongAdvice(rule.subject, length - rule.maxLength))
    else
      LengthVerdict(Success, true, OptimalAdvice(rule.subject))
  }

  /** A message can be read back: it determines the advice, and so how many
      characters to add or remove. */
  lemma AdviceMessageInjective(subject: string, a: Advice, b: Advice)
    requires AdviceMessage(subject, a) == AdviceMessage(subject, b)
    ensures a == b
  {
    match a {
      case AddChars(m) =>
        match b {
          case AddChars(n) => ShortAdviceInjective(subject, m, n);
          case RemoveChars(n) => AdviceKindsDiffer(subject, m, n);
          case Optimal => OptimalIsNotShort(subject, m);
        }
      case RemoveChars(m) =>
        match b {
          case AddChars(n) => AdviceKindsDiffer(subject, n, m);
          case RemoveChars(n) => LongAdviceInjective(subject, m, n);
          case Optimal => OptimalIsNotLong(subject, m);
        }
      case Optimal =>
        match b {
          case AddChars(n) => OptimalIsNotShort(subject, n);
          case RemoveChars(n) => OptimalIsNotLong(subject, n);
          case Optimal =>
        }
    }
  }

  /** Adding the characters a "too short" message asks for lands exactly on
      the minimum; removing those a "too long" one asks for, on the maximum. */
  lemma MessageReachesBound(rule: LengthRule, text: string, n: nat)
    ensures CheckLength(rule, text).message == ShortAdvice(rule.subject, n) ==>
              Length(text) + n == rule.minLength
    ensures CheckLength(rule, text).message == LongAdvice(rule.subject, n) ==>
              Length(text) - n == rule.maxLength
  {
    var a := Advise(rule, Length(text));
    if CheckLength(rule, text).message == ShortAdvice(rule.subject, n) {
      AdviceMessageInjective(rule.subject, a, AddChars(n));
    }
    if CheckLength(rule, text).message == LongAdvice(rule.subject, n) {
      AdviceMessageInjective(rule.subject, a, RemoveChars(n));
    }
  }

  lemma MiddleEqual(p: string, x: string, y: string, q: string)
    requires p + x + q == p + y + q
    ensures x == y
  {
    assert |x| == |y|;
    assert x == (p + x + q)[|p|..|p| + |x|];
    assert y == (p + y + q)[|p|..|p| + |y|];
  }

  /** The number in a "too short" message determines it. */
  lemma ShortAdviceInjective(subject: string, m: nat, n: nat)
    requires ShortAdvice(subject, m) == ShortAdvice(subject, n)
    ensures m == n
  {
    MiddleEqual(subject + " is too short. Add ", NatToString(m), NatToString(n), " more characters.");
    NatToStringInjective(m, n);
  }

  /** The number in a "too long" message determines it. */
  lemma LongAdviceInjective(subject: string, m: nat, n: nat)
    requires LongAdvice(subject, m) == LongAdvice(subject, n)
    ensures m == n
  {
    MiddleEqual(subject + " is too long. Remove ", NatToString(m), NatToString(n), " characters.");
    NatToStringInjective(m, n);
  }

  /** The three kinds of message are told apart by the word after the subject. */
  lemma AdviceKindsDiffer(subject: string, m: nat, n: nat)
    ensures ShortAdvice(subject, m) != LongAdvice(subject, n)
  {
    var k := |subject| + 8;
    assert ShortAdvice(subject, m)[k] == 's';
    assert LongAdvice(subject, n)[k] == 'l';
  }

  lemma OptimalIsNotShort(subject: string, n: nat)
    ensures OptimalAdvice(subject) != ShortAdvice(subject, n)
  {
    var k := |subject| + 1;
    assert OptimalAdvice(subject)[k] == 'l';
    assert ShortAdvice(subject, n)[k] == 'i';
  }

  lemma OptimalIsNotLong(subject: string, n: nat)
    ensures OptimalAdvice(subject) != LongAdvice(subject, n)
  {
    var k := |subject| + 1;
    assert OptimalAdvice(subject)[k] == 'l';
    assert LongAdvice(subject, n)[k] == 'i';
  }

  /** `analyzeTitleTag`. */
  function AnalyzeTitleTag(title: string): (v: LengthVerdict)
    ensures v.lengthOk <==> 30 <= Length(title) <= 60
    ensures v.status == Success <==> v.lengthOk
    ensures v.message == AdviceMessage("Title tag", Advise(TitleRule, Length(title)))
  {
    CheckLength(TitleRule, title)
  }

  /** The popup's title check agrees with the content script's title issues:
      the length is fine exactly when neither length issue is raised. */
  lemma TitleAgrees(title: string)
    ensures AnalyzeTitleTag(title).lengthOk <==>
              TitleTooShort !in AnalyzeTitleIssues(title) && TitleTooLong !in AnalyzeTitleIssues(title)
  {
    var v := AnalyzeTitleTag(title);
    assert v.lengthOk <==> 30 <= Length(title) <= 60;
  }

  /** `analyzeMetaDescription`. */
  function AnalyzeMetaDescription(description: string): (v: LengthVerdict)
    ensures v.lengthOk <==> 120 <= Length(description) <= 155
    ensures v.status == Success <==> v.lengthOk
    ensures v.message == AdviceMessage("Meta description", Advise(DescriptionRule, Length(description)))
  {
    CheckLength(DescriptionRule, description)
  }

  /** For a non-empty description the popup agrees with the content script:
      the length is fine exactly when no issue is raised. For an empty one the
      popup asks for 120 characters where the content script reports the
      description as missing. */
  lemma DescriptionAgrees(description: string)
    ensures description != [] ==>
              (AnalyzeMetaDescription(description).lengthOk <==> AnalyzeDescriptionIssues(description) == [])
    ensures description == [] ==>
              !AnalyzeMetaDescription(description).lengthOk
              && AnalyzeMetaDescription(description).message == ShortAdvice("Meta description", 120)
              && AnalyzeDescriptionIssues(description) == [MissingDescription]
  {
    var v := AnalyzeMetaDescription(description);
    assert v.lengthOk <==> 120 <= Length(description) <= 155;
    if description == [] {
      assert Length(description) == 0;
    }
  }

  /** The H1 line of `generateHeadersAnalysis`: 'success' for exactly one H1,
      'error' otherwise. */
  function H1Status(headers: seq<Header>): (s: Status)
    ensures s == Success <==> H1Count(headers) == 1
    ensures s != Warning
  {
    if H1Count(headers) == 1 then Success else Error
  }

  /** The popup's H1 line and the content script's heading issues agree: the
      line is 'success' exactly when neither H1 issue is reported. */
  lemma H1StatusAgrees(headers: seq<Header>)
    ensures H1Status(headers) == Success <==>
              var issues := H1Issues(H1Count(headers)) + SkipIssues(headers);
              MissingH1 !in issues && MultipleH1 !in issues
  {
    HeaderIssuesH1(H1Count(headers), headers);
  }
}
