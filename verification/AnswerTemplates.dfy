/** The chat's written answers (backend/chat/answers.py): one template a query, put together from the result's fields
and fixed phrases. The phrases' wording is a parameter; the names below follow it. */
module AnswerTemplates {
  import opened Basics
  import opened Grounding

  datatype Phrase =
    | Space | Stop | Colon | In | CommaIn | Comma | NoteIs | AndNote | And | Then | ThenAnd | ThenOr | Opening | Closing
    | MoreOnProject | MoreOnIssues | MoreOnDelivered | MoreOnReport
    | MergedOn | StoppedAt | StepStop | HowFar | TrackUnknown | SentOn | ElapsedIs | BuildAttempt | BuildAttempts
    | OpenIssuesAre | InProgress | MergedLately | InTotal | MergedIn | NoOpenIssues | OpenIssue | OpenIssues
    | NoneOpen | OpenFor | ThereIs | ThereAre | NothingMerged | FeatureWas | FeaturesWere | MergedAndChecked | OnDay
    | ReportThe | IsWithheld | Outdated | WeeklyReportWord | For | OneFeature | ManyFeatures | MergedComma
    | InProgressStop | DeliveredAre | AgainstPlan | BehindComma | OnTargetComma | AheadStop | NoPlan | IssuesAre
    | OpenedAnd | ClosedInPeriod | OldestStill | OldWord | NotSplit | CostUnmeasured | TimeUnmeasured
    | CostFor | TimeFor | Unavailable | Unmeasured | NoCalls | ModelCall | ModelCalls | TokensInAnd | OutNominal
    | PartEstimated | LeavesOut | FeatureUntagged | FeaturesUntagged | SoFarWords | Across | ElapsedWord | OfWhich
    | MachineTime | WaitingStop | LongestWaits
    | CouldNotFind | Matching | QuoteStop | CouldNotFindThat | AndMore | MoreClosing | Quote | Unquote | ThatName
    | QuoteExactly | MatchingThat | DidYouMean | Question | SMatch | WhichOne | BadDates | WhichScope | OneAtATime
    | RecordWord | CostWord | TimeWord | NoneWord

  datatype Key =
    | Project | Label | DeliveredOn | Station | Stopped | StatusText | Verdict | VerdictReason | Sent | Elapsed
    | Attempts | OpenIssueList | MissionLine | Cost | StaleNote | InProgressCount | DeliveredWeek | DeliveredTotal
    | PeriodLabel | PeriodDelivered | OpenIssueCount | MoreIssues | HiddenLine | Count | More | Kind | Subject | Detail
    | Age | HowSerious | OnDate | OtherEndings | Withheld | WithheldSince | DeliveredCount | InFlightCount
    | DeliveredList | MoreDelivered | PlanAgreed | Behind | OnTarget | Ahead | IssuesOpened | IssuesClosed | OldestOpen
    | What | Name | State | StaleText | Reason | Calls | TokensIn | TokensOut | Estimated | LeftOut | PriceLabel | SoFar
    | Scope | FeatureCount | Machine | Waiting | WaitingParts | Listed | Partial

  /** A result's fields: texts, lists of texts, and the rows under "rows" (a cell may be None). */
  datatype Fields = Fields(texts: map<Key, string>, lists: map<Key, seq<string>>, rows: seq<map<Key, Option<string>>>)

  /** What the templates are written with. */
  datatype Style = Style(u: Unicode, say: Phrase -> string)

  /** `_s` and `_list`. */
  function Text(f: Fields, key: Key): string {
    if key in f.texts then f.texts[key] else ""
  }

  function Items(f: Fields, key: Key): seq<string> {
    if key in f.lists then f.lists[key] else []
  }

  function Cell(v: Style, row: map<Key, Option<string>>, key: Key): string {
    if key in row && row[key].Some? then row[key].value else v.say(NoneWord)
  }

  function Add(parts: seq<string>, part: string): seq<string> {
    parts + [part]
  }

  function Listing(v: Style, items: seq<string>): string {
    Join(v.say(Then), v.say(ThenAnd), items)
  }

  function Choices(v: Style, items: seq<string>): string {
    Join(v.say(Then), v.say(ThenOr), items)
  }

  function Spaced(v: Style, parts: seq<string>): string {
    JoinAll(v.say(Space), parts)
  }

  function Fixed(v: Style, p: Phrase): string {
    End("", v.say(p))
  }

  function After(v: Style, p: Phrase, field: string): string {
    Put("", v.say(p), field)
  }

  function Plural(v: Style, count: string, one: Phrase, many: Phrase): string {
    End(count, v.say(if count == "1" then one else many))
  }

  /** Text followed by `_for_project`. */
  function InProject(v: Style, text: string, f: Fields): string {
    if Text(f, Project) == "" then text else Put(text, v.say(In), Text(f, Project))
  }

  /** Text followed by `_more`. */
  function AndMoreOn(v: Style, text: string, f: Fields, key: Key, where: Phrase): string {
    var left := Text(f, key);
    if left == "" || left == "0" then text else End(Put(text, v.say(And), left), v.say(where))
  }

  function Hidden(v: Style, f: Fields): string {
    Sentence(v.u, Text(f, HiddenLine))
  }

  /** `_stale` before a text. */
  function WithStale(v: Style, f: Fields, text: string): string {
    if Text(f, StaleNote) == "" then text
    else Put(After(v, NoteIs, Sentence(v.u, Text(f, StaleNote))), v.say(Space), text)
  }

  // --- one template per query ---

  function FeatureHead(v: Style, f: Fields): string {
    var title := StripStops(Text(f, Label));
    if Text(f, Project) == "" then title else Put(title, v.say(CommaIn), Text(f, Project))
  }

  function HowItStands(v: Style, f: Fields): seq<string> {
    if Text(f, DeliveredOn) != "" then
      [End(Put(FeatureHead(v, f), v.say(MergedOn), Text(f, DeliveredOn)), v.say(Stop))]
    else
      [Put(FeatureHead(v, f), v.say(Colon), Sentence(v.u, Text(f, StatusText))),
       if Text(f, Stopped) != "" then End(After(v, StoppedAt, Text(f, Station)), v.say(StepStop))
       else End(After(v, HowFar, Text(f, Station)), v.say(Stop))]
  }

  function VerdictText(v: Style, f: Fields): string {
    var verdict := Capital(v.u, Text(f, Verdict));
    if Text(f, Verdict) == "not measured yet" then Fixed(v, TrackUnknown)
    else if Text(f, VerdictReason) != "" then Put(verdict, v.say(Colon), Sentence(v.u, Text(f, VerdictReason)))
    else End(verdict, v.say(Stop))
  }

  function Effort(v: Style, f: Fields): string {
    End(Put(Put(After(v, SentOn, Text(f, Sent)), v.say(ElapsedIs), Text(f, Elapsed)), v.say(Then),
            Plural(v, Text(f, Attempts), BuildAttempt, BuildAttempts)), v.say(Stop))
  }

  function FeatureStatus(v: Style, f: Fields): string {
    var parts := Add(Add(HowItStands(v, f), VerdictText(v, f)), Effort(v, f));
    var issues := Items(f, OpenIssueList);
    var parts := if issues == [] then parts
                 else Add(parts, After(v, OpenIssuesAre, Sentence(v.u, Listing(v, issues))));
    var parts := if Text(f, MissionLine) == "" then parts else Add(parts, Sentence(v.u, Text(f, MissionLine)));
    WithStale(v, f, Spaced(v, Add(parts, Sentence(v.u, Text(f, Cost)))))
  }

  function ProjectIssues(v: Style, f: Fields): seq<string> {
    var count := Text(f, OpenIssueCount);
    if count == "0" then [Fixed(v, NoOpenIssues)]
    else
      var listed := Items(f, OpenIssueList);
      var open := Plural(v, count, OpenIssue, OpenIssues);
      [if listed == [] then End(open, v.say(Stop)) else Put(open, v.say(Colon), Sentence(v.u, Listing(v, listed))),
       Strip(v.u, AndMoreOn(v, "", f, MoreIssues, MoreOnProject)),
       Hidden(v, f)]
  }

  function ProjectParts(v: Style, f: Fields): seq<string> {
    var done := End(Put(Put(Put(Text(f, Project), v.say(Colon), Text(f, InProgressCount)), v.say(InProgress),
                            Text(f, DeliveredWeek)), v.say(MergedLately), Text(f, DeliveredTotal)), v.say(InTotal));
    if Text(f, PeriodLabel) == "" then [done]
    else [done, End(Put(After(v, MergedIn, Text(f, PeriodLabel)), v.say(Colon), Text(f, PeriodDelivered)),
                    v.say(Stop))]
  }

  function ProjectSummary(v: Style, f: Fields): string {
    var parts := Add(Both(ProjectParts(v, f), ProjectIssues(v, f)), Sentence(v.u, Text(f, Cost)));
    WithStale(v, f, Spaced(v, NonEmpty(parts)))
  }

  function Both(first: seq<string>, second: seq<string>): seq<string> {
    first + second
  }

  function IssueRow(v: Style, row: map<Key, Option<string>>): string {
    var subject := Put(Cell(v, row, Kind), v.say(Colon), Cell(v, row, Subject));
    var detailed := if Detail !in row || row[Detail] == None || row[Detail] == Some("") then subject
                    else End(Put(subject, v.say(Opening), Cell(v, row, Detail)), v.say(Closing));
    Put(Put(detailed, v.say(OpenFor), Cell(v, row, Age)), v.say(Comma), Cell(v, row, HowSerious))
  }

  function DeliveredRow(v: Style, row: map<Key, Option<string>>): string {
    Put(Cell(v, row, Label), v.say(OnDay), Cell(v, row, OnDate))
  }

  function IssueRows(v: Style, rows: seq<map<Key, Option<string>>>): seq<string> {
    seq(|rows|, i requires 0 <= i < |rows| => IssueRow(v, rows[i]))
  }

  function DeliveredRows(v: Style, rows: seq<map<Key, Option<string>>>): seq<string> {
    seq(|rows|, i requires 0 <= i < |rows| => DeliveredRow(v, rows[i]))
  }

  function IssuesHead(v: Style, f: Fields): string {
    var count := Text(f, Count);
    if count == "0" then InProject(v, Fixed(v, NoneOpen), f)
    else
      var open := Plural(v, count, OpenIssue, OpenIssues);
      InProject(v, After(v, if count == "1" then ThereIs else ThereAre, open), f)
  }

  function IssuesText(v: Style, f: Fields): string {
    var head, rows := IssuesHead(v, f), IssueRows(v, f.rows);
    if Text(f, Count) == "0" then End(head, v.say(Stop))
    else
      var all := if rows == [] then End(head, v.say(Stop))
                 else AndMoreOn(v, Put(head, v.say(Colon), Sentence(v.u, Listing(v, rows))), f, More, MoreOnIssues);
      if Hidden(v, f) == "" then all else Put(all, v.say(Space), Hidden(v, f))
  }

  function OpenIssuesAnswer(v: Style, f: Fields): string {
    WithStale(v, f, IssuesText(v, f))
  }

  function DeliveredAnswer(v: Style, f: Fields): string {
    var count, when := Text(f, Count), Text(f, PeriodLabel);
    var text :=
      if count == "0" then End(Put(InProject(v, Fixed(v, NothingMerged), f), v.say(Space), when), v.say(Stop))
      else
        var head := End(Plural(v, count, FeatureWas, FeaturesWere), v.say(MergedAndChecked));
        AndMoreOn(v, Put(Put(InProject(v, head, f), v.say(Space), when), v.say(Colon),
                         Sentence(v.u, Listing(v, DeliveredRows(v, f.rows)))), f, More, MoreOnDelivered);
    WithStale(v, f, if Text(f, OtherEndings) == "" then text
                    else Put(text, v.say(Space), Sentence(v.u, Text(f, OtherEndings))))
  }

  function PlanAndIssues(v: Style, f: Fields): seq<string> {
    if Text(f, Project) != "" then [Fixed(v, NotSplit)]
    else
      var plan :=
        if Text(f, PlanAgreed) == "" then Fixed(v, NoPlan)
        else End(Put(Put(After(v, AgainstPlan, Text(f, Behind)), v.say(BehindComma), Text(f, OnTarget)),
                     v.say(OnTargetComma), Text(f, Ahead)), v.say(AheadStop));
      var issues := End(Put(After(v, IssuesAre, Text(f, IssuesOpened)), v.say(OpenedAnd), Text(f, IssuesClosed)),
                        v.say(ClosedInPeriod));
      var oldest := if Text(f, OldestOpen) == "" then issues
                    else End(Put(issues, v.say(OldestStill), Text(f, OldestOpen)), v.say(OldWord));
      [plan, End(oldest, v.say(Stop))]
  }

  function WeeklyParts(v: Style, f: Fields): seq<string> {
    var scope := if Text(f, Project) == "" then Fixed(v, WeeklyReportWord)
                 else Put(Fixed(v, WeeklyReportWord), v.say(For), Text(f, Project));
    var done := Plural(v, Text(f, DeliveredCount), OneFeature, ManyFeatures);
    var head := End(Put(Put(Put(scope, v.say(Comma), Text(f, PeriodLabel)), v.say(Colon), done), v.say(MergedComma),
                        Text(f, InFlightCount)), v.say(InProgressStop));
    var delivered := Items(f, DeliveredList);
    if delivered == [] then [head]
    else [head, AndMoreOn(v, After(v, DeliveredAre, Sentence(v.u, Listing(v, delivered))), f, MoreDelivered,
                          MoreOnReport)]
  }

  function WeeklyReport(v: Style, f: Fields): string {
    if Text(f, Withheld) != "" then
      End(Put(After(v, ReportThe, Text(f, PeriodLabel)), v.say(IsWithheld), Text(f, WithheldSince)), v.say(Outdated))
    else Spaced(v, Add(Both(WeeklyParts(v, f), PlanAndIssues(v, f)), Sentence(v.u, Text(f, Cost))))
  }

  function ScopeHead(v: Style, f: Fields): string {
    var name := StripStops(Text(f, Name));
    if Text(f, PeriodLabel) == "" then name else Put(name, v.say(Comma), Text(f, PeriodLabel))
  }

  function WithCostNote(v: Style, f: Fields, text: string): string {
    if Text(f, StaleText) == "" then text else Put(text, v.say(AndNote), Sentence(v.u, Text(f, StaleText)))
  }

  function CostFirst(v: Style, f: Fields): string {
    var head := ScopeHead(v, f);
    var calls := Plural(v, Text(f, Calls), ModelCall, ModelCalls);
    var spent := Put(Put(Put(Put(head, v.say(Colon), calls), v.say(Comma), Text(f, TokensIn)), v.say(TokensInAnd),
                         Text(f, TokensOut)), v.say(OutNominal), Text(f, Cost));
    if Text(f, Calls) == "0" then End(head, v.say(NoCalls))
    else End(if Text(f, Estimated) == "" then spent else End(spent, v.say(PartEstimated)), v.say(Stop))
  }

  function CostParts(v: Style, f: Fields): seq<string> {
    var parts := [CostFirst(v, f)];
    var parts := if Text(f, Reason) == "" then parts else Add(parts, Sentence(v.u, Text(f, Reason)));
    var out := Text(f, LeftOut);
    var parts := if out == "" || out == "0" then parts
                 else Add(parts, End(After(v, LeavesOut, out),
                                     v.say(if out == "1" then FeatureUntagged else FeaturesUntagged)));
    if Text(f, PriceLabel) == "" then parts else Add(parts, Sentence(v.u, Text(f, PriceLabel)))
  }

  function CostSummary(v: Style, f: Fields): string {
    var why := Sentence(v.u, WithoutHead(v.u, Text(f, Reason)));
    var asked := After(v, CostFor, ScopeHead(v, f));
    if Text(f, State) == "not_available" then
      WithStale(v, f, WithCostNote(v, f, Put(asked, v.say(Unavailable), why)))
    else if Text(f, State) != "measured" then
      WithStale(v, f, WithCostNote(v, f, Put(asked, v.say(Unmeasured), why)))
    else WithStale(v, f, WithCostNote(v, f, Spaced(v, CostParts(v, f))))
  }

  function TimeFirst(v: Style, f: Fields): string {
    var head := if Text(f, Scope) != "project" then ScopeHead(v, f)
                else Put(ScopeHead(v, f), v.say(Across), Plural(v, Text(f, FeatureCount), OneFeature, ManyFeatures));
    var elapsed := End(Put(head, v.say(Colon), Text(f, Elapsed)), v.say(ElapsedWord));
    var soFar := if Text(f, SoFar) == "" then elapsed else End(elapsed, v.say(SoFarWords));
    End(Put(Put(soFar, v.say(OfWhich), Text(f, Machine)), v.say(MachineTime), Text(f, Waiting)), v.say(WaitingStop))
  }

  function TimeParts(v: Style, f: Fields): seq<string> {
    var first, waits := TimeFirst(v, f), Items(f, WaitingParts);
    var parts := if waits == [] then [first]
                 else Add([first], After(v, LongestWaits, Sentence(v.u, Listing(v, waits))));
    if Text(f, Reason) == "" then parts else Add(parts, Sentence(v.u, Text(f, Reason)))
  }

  function TimeSummary(v: Style, f: Fields): string {
    if Text(f, State) != "measured" then
      WithStale(v, f, Put(After(v, TimeFor, ScopeHead(v, f)), v.say(Unmeasured),
                          Sentence(v.u, WithoutHead(v.u, Text(f, Reason)))))
    else WithStale(v, f, Spaced(v, TimeParts(v, f)))
  }

  function NotFoundAnswer(v: Style, f: Fields): string {
    var kind := if Text(f, Kind) == "" then Fixed(v, RecordWord) else Text(f, Kind);
    if Text(f, Name) == "" then End(After(v, CouldNotFindThat, kind), v.say(Stop))
    else End(Put(After(v, CouldNotFind, kind), v.say(Matching), Text(f, Name)), v.say(QuoteStop))
  }

  function AmbiguousAnswer(v: Style, f: Fields): string {
    var more, name := Text(f, More), Text(f, Name);
    var kind := if Text(f, Kind) == "" then Fixed(v, RecordWord) else Text(f, Kind);
    if Text(f, Partial) != "" then
      var found := After(v, CouldNotFind, kind);
      var head := if name == "" then End(found, v.say(MatchingThat))
                  else End(Put(found, v.say(Matching), name), v.say(QuoteExactly));
      End(WithTail(v, f, Put(head, v.say(DidYouMean), Choices(v, Items(f, Listed)))), v.say(Question))
    else
      var what := if name == "" then Fixed(v, ThatName) else End(After(v, Quote, name), v.say(Unquote));
      var matched := Put(Put(Text(f, Count), v.say(Space), Text(f, Kind)), v.say(SMatch), what);
      End(WithTail(v, f, Put(matched, v.say(Colon), Listing(v, Items(f, Listed)))), v.say(WhichOne))
  }

  function WithTail(v: Style, f: Fields, text: string): string {
    var more := Text(f, More);
    if more == "" || more == "0" then text else End(Put(text, v.say(AndMore), more), v.say(MoreClosing))
  }

  datatype Status = Found | NotFound | Ambiguous | BadPeriod | NotMeasured | NoScope

  datatype Query =
    | FeatureStatusQuery | ProjectQuery | IssuesQuery | DeliveredQuery | WeeklyQuery | CostQuery | TimeQuery

  /** `render`. */
  function Render(v: Style, query: Query, status: Status, f: Fields): string {
    match status
    case NotFound => NotFoundAnswer(v, f)
    case Ambiguous => AmbiguousAnswer(v, f)
    case BadPeriod => Fixed(v, BadDates)
    case NotMeasured => Fixed(v, if Text(f, What) == "cost" then CostUnmeasured else TimeUnmeasured)
    case NoScope =>
      End(After(v, WhichScope, Fixed(v, if Text(f, What) == "cost" then CostWord else TimeWord)), v.say(OneAtATime))
    case Found =>
      match query
      case FeatureStatusQuery => FeatureStatus(v, f)
      case ProjectQuery => ProjectSummary(v, f)
      case IssuesQuery => OpenIssuesAnswer(v, f)
      case DeliveredQuery => DeliveredAnswer(v, f)
      case WeeklyQuery => WeeklyReport(v, f)
      case CostQuery => CostSummary(v, f)
      case TimeQuery => TimeSummary(v, f)
  }
}
