/** The fixed phrases of the chat's answers (backend/chat/answers.py 30-309): none of them holds a digit. */
module AnswerWording {
  import opened Grounding
  import opened AnswerTemplates
  import opened AnswersAreGrounded
  import opened AnswerFigures

  /** No ASCII digit, and below the other scripts' digits (which begin at U+0660) or general punctuation. */
  predicate Ordinary(c: char) {
    (c < '0' || '9' < c) && (c < '\U{0660}' || '\U{2000}' <= c < '\U{2070}')
  }

  type Words = s: string | s != "" && forall i :: 0 <= i < |s| ==> Ordinary(s[i]) witness " "

  function Both(a: Words, b: Words): Words {
    a + b
  }

  const TRACK_UNKNOWN_1: Words := "Whether it is on track is "
  const TRACK_UNKNOWN_2: Words := "not measured yet."
  const MERGED_LATELY_1: Words := " merged and checked in the "
  const MERGED_LATELY_2: Words := "last seven days, "
  const IS_WITHHELD_1: Words := ", is withheld: the factory's "
  const IS_WITHHELD_2: Words := "record was last read at "
  const NO_PLAN_1: Words := "No plan has been agreed yet, so "
  const NO_PLAN_2: Words := "nothing is shown as on target."
  const NOT_SPLIT_1: Words := "The plan and issue figures on the "
  const NOT_SPLIT_2: Words := "report cover every project, so they "
  const NOT_SPLIT_3: Words := "are not split out here; the project "
  const NOT_SPLIT_4: Words := "page lists its issues."
  const COST_UNMEASURED_1: Words := "Cost isn't measured yet. It is being "
  const COST_UNMEASURED_2: Words := "added to the dashboard; until then "
  const COST_UNMEASURED_3: Words := "every page shows cost as not "
  const COST_UNMEASURED_4: Words := "measured, never as zero."
  const TIME_UNMEASURED_1: Words := "Time split into machine time and waiting "
  const TIME_UNMEASURED_2: Words := "isn't measured yet. Each feature's "
  const TIME_UNMEASURED_3: Words := "elapsed time is on its page, and you can "
  const TIME_UNMEASURED_4: Words := "ask me about a feature by name."
  const FEATURE_UNTAGGED_1: Words := " feature sent before calls "
  const FEATURE_UNTAGGED_2: Words := "were tagged by feature."
  const FEATURES_UNTAGGED_1: Words := " features sent before calls "
  const FEATURES_UNTAGGED_2: Words := "were tagged by feature."
  const BAD_DATES_1: Words := "I couldn't tell which dates you mean. "
  const BAD_DATES_2: Words := "Try \U{201C}this week\U{201D}, \U{201C}last week\U{201D}, \U{201C}last "
  const BAD_DATES_3: Words := "month\U{201D}, or two dates such as the ones "
  const BAD_DATES_4: Words := "on the Delivered page."
  const WHICH_SCOPE_1: Words := "Which feature or project do you "
  const WHICH_SCOPE_2: Words := "mean? I can give the "

  // --- the phrases, a few at a time: each function words its own and hands the others on, and the last of a chain is
  // asked for no phrase but the one left ---

  function LatelyWords(p: Phrase): Words {
    Both(MERGED_LATELY_1, MERGED_LATELY_2)
  }

  function TrackWords(p: Phrase): Words {
    match p
    case TrackUnknown => Both(TRACK_UNKNOWN_1, TRACK_UNKNOWN_2)
    case InProgress => " in progress; "
    case InTotal => " in total."
    case _ => LatelyWords(p)
  }

  function EffortWords(p: Phrase): Words {
    match p
    case SentOn => "Sent "
    case ElapsedIs => "; elapsed "
    case BuildAttempt => " build attempt"
    case BuildAttempts => " build attempts"
    case OpenIssuesAre => "Open issues: "
    case _ => TrackWords(p)
  }

  function FeatureWords(p: Phrase): Words {
    match p
    case MergedOn => ": merged and checked on "
    case StoppedAt => "It stopped at the "
    case StepStop => " step."
    case HowFar => "How far: "
    case _ => EffortWords(p)
  }

  function MarksMoreWords(p: Phrase): Words {
    match p
    case And => " And "
    case Then => "; "
    case ThenAnd => "; and "
    case ThenOr => "; or "
    case Opening => " ("
    case Closing => ")"
    case MoreOnProject => " more on the project page."
    case MoreOnIssues => " more on the Issues page."
    case _ => FeatureWords(p)
  }

  function MarksWords(p: Phrase): Words {
    match p
    case Space => " "
    case Stop => "."
    case Colon => ": "
    case In => " in "
    case CommaIn => ", in "
    case Comma => ", "
    case NoteIs => "Note: "
    case AndNote => " Note: "
    case _ => MarksMoreWords(p)
  }

  function ReportWords(p: Phrase): Words {
    match p
    case WeeklyReportWord => "Weekly report"
    case For => " for "
    case OneFeature => " feature"
    case ManyFeatures => " features"
    case MergedComma => " merged and checked, "
    case _ => " in progress."
  }

  function WithheldWords(p: Phrase): Words {
    match p
    case IsWithheld => Both(IS_WITHHELD_1, IS_WITHHELD_2)
    case Outdated => ", so its figures could be out of date."
    case _ => ReportWords(p)
  }

  function MergedWords(p: Phrase): Words {
    match p
    case FeatureWas => " feature was"
    case FeaturesWere => " features were"
    case MergedAndChecked => " merged and checked"
    case OnDay => " on "
    case _ => WithheldWords(p)
  }

  function MoreListsWords(p: Phrase): Words {
    match p
    case MoreOnDelivered => " more on the Delivered page."
    case MoreOnReport => " more on the report."
    case NothingMerged => "Nothing was merged and checked"
    case _ => MergedWords(p)
  }

  function IssuesWords(p: Phrase): Words {
    match p
    case NoneOpen => "There are no open issues"
    case OpenFor => ", open "
    case ThereIs => "There is "
    case ThereAre => "There are "
    case _ => MoreListsWords(p)
  }

  function CountWords(p: Phrase): Words {
    match p
    case MergedIn => "Merged and checked "
    case NoOpenIssues => "No open issues."
    case OpenIssue => " open issue"
    case OpenIssues => " open issues"
    case _ => IssuesWords(p)
  }

  function CostWords(p: Phrase): Words {
    match p
    case CostFor => "Cost for "
    case Unavailable => " isn't available: "
    case Unmeasured => " isn't measured: "
    case _ => ": no model calls recorded."
  }

  function CostUnmeasuredWords(p: Phrase): Words {
    match p
    case CostUnmeasured => Both(COST_UNMEASURED_1, Both(COST_UNMEASURED_2, Both(COST_UNMEASURED_3, COST_UNMEASURED_4)))
    case TimeUnmeasured => Both(TIME_UNMEASURED_1, Both(TIME_UNMEASURED_2, Both(TIME_UNMEASURED_3, TIME_UNMEASURED_4)))
    case _ => CostWords(p)
  }

  function OldestWords(p: Phrase): Words {
    match p
    case OldestStill => "; the oldest still open is "
    case OldWord => " old"
    case NotSplit => Both(NOT_SPLIT_1, Both(NOT_SPLIT_2, Both(NOT_SPLIT_3, NOT_SPLIT_4)))
    case _ => CostUnmeasuredWords(p)
  }

  function PeriodWords(p: Phrase): Words {
    match p
    case DeliveredAre => "Delivered: "
    case IssuesAre => "Issues: "
    case OpenedAnd => " opened and "
    case ClosedInPeriod => " closed in the period"
    case _ => OldestWords(p)
  }

  function NoPlanWords(p: Phrase): Words {
    match p
    case NoPlan => Both(NO_PLAN_1, NO_PLAN_2)
    case _ => PeriodWords(p)
  }

  function PlanWords(p: Phrase): Words {
    match p
    case ReportThe => "The weekly report, "
    case AgainstPlan => "Against the plan: "
    case BehindComma => " behind, "
    case OnTargetComma => " on target, "
    case AheadStop => " ahead."
    case _ => NoPlanWords(p)
  }

  function ChoiceWords(p: Phrase): Words {
    match p
    case AndMore => " (and "
    case MoreClosing => " more)"
    case Quote => "\U{201C}"
    case Unquote => "\U{201D}"
    case ThatName => "that name"
    case QuoteExactly => "\U{201D} exactly."
    case _ => " matching that exactly."
  }

  function NotFoundWords(p: Phrase): Words {
    match p
    case CouldNotFind => "I couldn't find a "
    case Matching => " matching \U{201C}"
    case QuoteStop => "\U{201D}."
    case CouldNotFindThat => "I couldn't find that "
    case _ => ChoiceWords(p)
  }

  function MachineWords(p: Phrase): Words {
    match p
    case OfWhich => ", of which "
    case MachineTime => " machine time and "
    case WaitingStop => " waiting."
    case LongestWaits => "Longest waits: "
    case LeavesOut => "It leaves out "
    case _ => NotFoundWords(p)
  }

  function UntaggedManyWords(p: Phrase): Words {
    match p
    case FeaturesUntagged => Both(FEATURES_UNTAGGED_1, FEATURES_UNTAGGED_2)
    case TimeFor => "Time for "
    case SoFarWords => " so far"
    case Across => " across "
    case ElapsedWord => " elapsed"
    case _ => MachineWords(p)
  }

  function EstimateWords(p: Phrase): Words {
    match p
    case PartEstimated => " (part estimated from the tokens)"
    case FeatureUntagged => Both(FEATURE_UNTAGGED_1, FEATURE_UNTAGGED_2)
    case _ => UntaggedManyWords(p)
  }

  function CallsWords(p: Phrase): Words {
    match p
    case ModelCall => " model call"
    case ModelCalls => " model calls"
    case TokensInAnd => " tokens in and "
    case OutNominal => " out, nominal cost "
    case _ => EstimateWords(p)
  }

  function OtherWords(p: Phrase): Words {
    match p
    case RecordWord => "record"
    case CostWord => "cost"
    case TimeWord => "time"
    case _ => "None"
  }

  function BadDatesWords(p: Phrase): Words {
    match p
    case BadDates => Both(BAD_DATES_1, Both(BAD_DATES_2, Both(BAD_DATES_3, BAD_DATES_4)))
    case WhichScope => Both(WHICH_SCOPE_1, WHICH_SCOPE_2)
    case _ => OtherWords(p)
  }

  function QuestionWords(p: Phrase): Words {
    match p
    case DidYouMean => " Did you mean "
    case Question => "?"
    case SMatch => "s match "
    case WhichOne => ". Which one do you mean?"
    case OneAtATime => " of one at a time."
    case _ => BadDatesWords(p)
  }

  function Wording(p: Phrase): Words {
    match p
    case Space | Stop | Colon | In | CommaIn | Comma | NoteIs | AndNote | And | Then | ThenAnd | ThenOr | Opening |
      Closing | MoreOnProject | MoreOnIssues | MergedOn | StoppedAt | StepStop | HowFar | SentOn | ElapsedIs |
      BuildAttempt | BuildAttempts | OpenIssuesAre | TrackUnknown | InProgress | InTotal |
      MergedLately => MarksWords(p)
    case MergedIn | NoOpenIssues | OpenIssue | OpenIssues | NoneOpen | OpenFor | ThereIs | ThereAre |
      MoreOnDelivered | MoreOnReport | NothingMerged | FeatureWas | FeaturesWere | MergedAndChecked | OnDay |
      IsWithheld | Outdated | WeeklyReportWord | For | OneFeature | ManyFeatures | MergedComma |
      InProgressStop => CountWords(p)
    case ReportThe | AgainstPlan | BehindComma | OnTargetComma | AheadStop | NoPlan | DeliveredAre | IssuesAre |
      OpenedAnd | ClosedInPeriod | OldestStill | OldWord | NotSplit | CostUnmeasured | TimeUnmeasured | CostFor |
      Unavailable | Unmeasured | NoCalls => PlanWords(p)
    case ModelCall | ModelCalls | TokensInAnd | OutNominal | PartEstimated | FeatureUntagged | FeaturesUntagged |
      TimeFor | SoFarWords | Across | ElapsedWord | OfWhich | MachineTime | WaitingStop | LongestWaits | LeavesOut |
      CouldNotFind | Matching | QuoteStop | CouldNotFindThat | AndMore | MoreClosing | Quote | Unquote | ThatName |
      QuoteExactly | MatchingThat => CallsWords(p)
    case _ => QuestionWords(p)
  }

  /** Where Unicode's decimal digits are not. */
  ghost predicate DigitsElsewhere(u: Unicode) {
    forall c :: Ordinary(c) ==> !u.digit(c)
  }

  lemma WordsArePlain(u: Unicode, s: Words)
    requires DigitsElsewhere(u)
    ensures Plain(u, s)
  {
  }

  /** What the templates are written with. */
  function WrittenWith(u: Unicode, wording: Phrase -> Words): Style {
    Style(u, p => wording(p))
  }

  lemma WordsArePlainSpoken(u: Unicode, wording: Phrase -> Words)
    requires DigitsElsewhere(u)
    ensures PlainSpoken(WrittenWith(u, wording))
  {
    forall p ensures Plain(u, wording(p)) {
      WordsArePlain(u, wording(p));
    }
  }

  lemma WordsAddNoFigure(u: Unicode, wording: Phrase -> Words, query: Query, status: Status, f: Fields,
                         known: set<string>)
    requires Sane(u) && DigitsElsewhere(u) && RunsOf(u, f, known)
    ensures Ungrounded(u, Render(WrittenWith(u, wording), query, status, f), known) == []
  {
    WordsArePlainSpoken(u, wording);
    EveryAnswerIsGrounded(WrittenWith(u, wording), query, status, f, known);
  }

  /** `figures_grounded(render(result), result.fields)` for the answers as they are worded: whatever the record holds,
  no answer has a figure that is not one of its fields'. */
  lemma NoAnswerAddsAFigure(u: Unicode, query: Query, status: Status, f: Fields, known: set<string>)
    requires Sane(u) && DigitsElsewhere(u) && RunsOf(u, f, known)
    ensures Ungrounded(u, Render(WrittenWith(u, Wording), query, status, f), known) == []
  {
    WordsAddNoFigure(u, Wording, query, status, f, known);
  }

  lemma HeadHasNoDigits(u: Unicode)
    requires DigitsElsewhere(u)
    ensures NoDigits(u, OWN_HEAD)
  {
    forall i | 0 <= i < |OWN_HEAD| ensures Ordinary(OWN_HEAD[i]) {
    }
  }

  /** The answers as they are worded: the figures of an answer are exactly those of the fields it shows, in the order it
  shows them. */
  lemma AnswersShowTheirFigures(u: Unicode, query: Query, status: Status, f: Fields)
    requires Sane(u) && DigitsElsewhere(u)
    ensures FindAll(u, Render(WrittenWith(u, Wording), query, status, f)) == Figures(u, FieldsShown(query, status, f))
  {
    WordsArePlainSpoken(u, Wording);
    HeadHasNoDigits(u);
    FiguresAreThoseShown(WrittenWith(u, Wording), query, status, f);
  }
}
