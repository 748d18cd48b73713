/** The figures of the chat's answers, in order (backend/chat/answers.py, backend/chat/grounding.py 152-175): an answer
holds the figures of the fields it shows, each where the field is shown, and no other. */
module AnswerFigures {
  import opened Basics
  import opened Grounding
  import opened AnswerTemplates
  import opened AnswersAreGrounded

  // --- the fields an answer shows, in order; one left empty shows nothing ---

  function Of(f: Fields, key: Key): seq<string> {
    [Text(f, key)]
  }

  /** How many more there are, unless that is "0". */
  function MoreOf(f: Fields, key: Key): seq<string> {
    if Text(f, key) == "0" then [] else [Text(f, key)]
  }

  function Names(f: Fields): seq<string> {
    Of(f, Label) + Of(f, Project)
  }

  function Standing(f: Fields): seq<string> {
    Names(f) + if Text(f, DeliveredOn) != "" then Of(f, DeliveredOn) else Of(f, StatusText) + Of(f, Station)
  }

  function Judged(f: Fields): seq<string> {
    if Text(f, Verdict) == "not measured yet" then [] else Of(f, Verdict) + Of(f, VerdictReason)
  }

  function FeatureShown(f: Fields): seq<string> {
    Of(f, StaleNote)
    + (Standing(f) + Judged(f) + (Of(f, Sent) + Of(f, Elapsed) + Of(f, Attempts)) + Items(f, OpenIssueList)
       + Of(f, MissionLine) + Of(f, Cost))
  }

  function ProjectFigures(f: Fields): seq<string> {
    Of(f, Project) + Of(f, InProgressCount) + Of(f, DeliveredWeek) + Of(f, DeliveredTotal)
    + if Text(f, PeriodLabel) == "" then [] else Of(f, PeriodLabel) + Of(f, PeriodDelivered)
  }

  function ProjectIssuesShown(f: Fields): seq<string> {
    if Text(f, OpenIssueCount) == "0" then []
    else Of(f, OpenIssueCount) + Items(f, OpenIssueList) + MoreOf(f, MoreIssues) + Of(f, HiddenLine)
  }

  function ProjectShown(f: Fields): seq<string> {
    Of(f, StaleNote) + (ProjectFigures(f) + ProjectIssuesShown(f) + Of(f, Cost))
  }

  type Cells = map<Key, Option<string>>

  function CellOf(row: Cells, key: Key): seq<string> {
    if key in row && row[key].Some? then [row[key].value] else []
  }

  function IssueCells(row: Cells): seq<string> {
    CellOf(row, Kind) + CellOf(row, Subject) + CellOf(row, Detail) + CellOf(row, Age) + CellOf(row, HowSerious)
  }

  function DeliveredCells(row: Cells): seq<string> {
    CellOf(row, Label) + CellOf(row, OnDate)
  }

  function RowsShown(rows: seq<Cells>, cells: Cells -> seq<string>): seq<string> {
    if rows == [] then [] else RowsShown(rows[..|rows| - 1], cells) + cells(rows[|rows| - 1])
  }

  function IssuesListed(f: Fields): seq<string> {
    if f.rows == [] then Of(f, Count) + Of(f, Project)
    else Of(f, Count) + Of(f, Project) + RowsShown(f.rows, IssueCells) + MoreOf(f, More)
  }

  function IssuesShown(f: Fields): seq<string> {
    Of(f, StaleNote) + if Text(f, Count) == "0" then Of(f, Project) else IssuesListed(f) + Of(f, HiddenLine)
  }

  function DeliveredListed(f: Fields): seq<string> {
    if Text(f, Count) == "0" then Of(f, Project) + Of(f, PeriodLabel)
    else Of(f, Count) + Of(f, Project) + Of(f, PeriodLabel) + RowsShown(f.rows, DeliveredCells) + MoreOf(f, More)
  }

  function DeliveredShown(f: Fields): seq<string> {
    Of(f, StaleNote) + (DeliveredListed(f) + Of(f, OtherEndings))
  }

  function WeeklyHead(f: Fields): seq<string> {
    Of(f, Project) + Of(f, PeriodLabel) + Of(f, DeliveredCount) + Of(f, InFlightCount)
    + if Items(f, DeliveredList) == [] then [] else Items(f, DeliveredList) + MoreOf(f, MoreDelivered)
  }

  function PlanShown(f: Fields): seq<string> {
    if Text(f, Project) != "" then []
    else (if Text(f, PlanAgreed) == "" then [] else Of(f, Behind) + Of(f, OnTarget) + Of(f, Ahead))
           + (Of(f, IssuesOpened) + Of(f, IssuesClosed) + Of(f, OldestOpen))
  }

  function WeeklyShown(f: Fields): seq<string> {
    if Text(f, Withheld) != "" then Of(f, PeriodLabel) + Of(f, WithheldSince)
    else WeeklyHead(f) + PlanShown(f) + Of(f, Cost)
  }

  function ScopeNames(f: Fields): seq<string> {
    Of(f, Name) + Of(f, PeriodLabel)
  }

  function CostFigures(f: Fields): seq<string> {
    if Text(f, Calls) == "0" then ScopeNames(f)
    else ScopeNames(f) + Of(f, Calls) + Of(f, TokensIn) + Of(f, TokensOut) + Of(f, Cost)
  }

  function CostShown(f: Fields): seq<string> {
    Of(f, StaleNote)
    + ((if Text(f, State) != "measured" then ScopeNames(f) + Of(f, Reason)
        else CostFigures(f) + Of(f, Reason) + MoreOf(f, LeftOut) + Of(f, PriceLabel))
       + Of(f, StaleText))
  }

  function TimeFigures(f: Fields): seq<string> {
    (if Text(f, Scope) == "project" then ScopeNames(f) + Of(f, FeatureCount) else ScopeNames(f))
    + Of(f, Elapsed) + Of(f, Machine) + Of(f, Waiting)
  }

  function TimeShown(f: Fields): seq<string> {
    Of(f, StaleNote)
    + if Text(f, State) != "measured" then ScopeNames(f) + Of(f, Reason)
      else TimeFigures(f) + Items(f, WaitingParts) + Of(f, Reason)
  }

  function AmbiguousShown(f: Fields): seq<string> {
    (if Text(f, Partial) != "" then Of(f, Kind) + Of(f, Name) else Of(f, Count) + Of(f, Kind) + Of(f, Name))
    + Items(f, Listed) + MoreOf(f, More)
  }

  function FieldsShown(query: Query, status: Status, f: Fields): seq<string> {
    match status
    case NotFound => Of(f, Kind) + Of(f, Name)
    case Ambiguous => AmbiguousShown(f)
    case BadPeriod | NotMeasured | NoScope => []
    case Found =>
      match query
      case FeatureStatusQuery => FeatureShown(f)
      case ProjectQuery => ProjectShown(f)
      case IssuesQuery => IssuesShown(f)
      case DeliveredQuery => DeliveredShown(f)
      case WeeklyQuery => WeeklyShown(f)
      case CostQuery => CostShown(f)
      case TimeQuery => TimeShown(f)
  }

  // --- figures ---

  /** The runs of digits of some texts, one text after the other. */
  function Figures(u: Unicode, texts: seq<string>): seq<string> {
    if texts == [] then [] else Figures(u, texts[..|texts| - 1]) + FindAll(u, texts[|texts| - 1])
  }

  lemma {:induction false} FiguresAdd(u: Unicode, a: seq<string>, b: seq<string>)
    ensures Figures(u, a + b) == Figures(u, a) + Figures(u, b)
  {
    if b == [] {
      assert a + b == a;
    } else {
      var n := |b| - 1;
      FiguresAdd(u, a, b[..n]);
      assert (a + b)[..|a + b| - 1] == a + b[..n];
    }
  }

  lemma OneFigure(u: Unicode, text: string)
    ensures Figures(u, [text]) == FindAll(u, text)
  {
    assert [text][..0] == [];
  }

  lemma {:induction false} NoneInPlain(u: Unicode, s: string)
    requires NoDigits(u, s)
    ensures FindAll(u, s) == []
  {
    if s != "" {
      NoneInPlain(u, s[1..]);
    }
  }

  lemma LeadingOf(u: Unicode, a: string, b: string)
    requires a != "" && u.digit(a[0]) && Apart(u, a, b)
    ensures Leading(u, a + b) == Leading(u, a)
  {
    var n, m, s := Leading(u, a), Leading(u, a + b), a + b;
    forall k | 0 <= k < n ensures u.digit(s[k]) {
      assert s[k] == a[k];
    }
    if n < |a| {
      assert s[n] == a[n];
    } else if b != "" {
      assert a[n - 1] == a[|a| - 1] && s[n] == b[0];
    }
    LeadingIs(u, s, n);
  }

  lemma {:induction false} LeadingIs(u: Unicode, s: string, n: nat)
    requires n <= |s| && (forall k :: 0 <= k < n ==> u.digit(s[k])) && (n == |s| || !u.digit(s[n]))
    ensures Leading(u, s) == n
  {
    if n > 0 {
      LeadingIs(u, s[1..], n - 1);
    }
  }

  /** Texts that do not meet digit to digit have together the figures they have apart, in order. */
  lemma {:induction false} FindAllSplits(u: Unicode, a: string, b: string)
    requires Apart(u, a, b)
    ensures FindAll(u, a + b) == FindAll(u, a) + FindAll(u, b)
    decreases |a|
  {
    if a == "" {
      assert a + b == b;
    } else if u.digit(a[0]) {
      var n := Leading(u, a);
      LeadingOf(u, a, b);
      assert (a + b)[..n] == a[..n] && (a + b)[n..] == a[n..] + b;
      FindAllSplits(u, a[n..], b);
    } else {
      assert (a + b)[1..] == a[1..] + b;
      FindAllSplits(u, a[1..], b);
    }
  }

  // --- what each way of putting an answer together does to them ---

  /** The text holds the figures of these, in order. */
  predicate Shows(v: Style, text: string, fields: seq<string>) {
    FindAll(v.u, text) == Figures(v.u, fields)
  }

  /** The texts together do. */
  predicate PartsShow(v: Style, parts: seq<string>, fields: seq<string>) {
    Figures(v.u, parts) == Figures(v.u, fields)
  }

  /** The fixed words have no digits. */
  ghost predicate Speaks(v: Style) {
    Sane(v.u) && PlainSpoken(v) && NoDigits(v.u, OWN_HEAD)
  }

  lemma ShowsItself(v: Style, text: string)
    ensures Shows(v, text, [text])
  {
    OneFigure(v.u, text);
  }

  lemma SpokenShowsNone(v: Style, p: Phrase)
    requires Speaks(v)
    ensures Shows(v, v.say(p), []) && Shows(v, Fixed(v, p), [])
  {
    assert Fixed(v, p) == v.say(p);
    NoneInPlain(v.u, v.say(p));
  }

  lemma EndShows(v: Style, before: string, p: Phrase, shown: seq<string>)
    requires Speaks(v) && Shows(v, before, shown)
    ensures Shows(v, End(before, v.say(p)), shown)
  {
    var words := v.say(p);
    assert Plain(v.u, words);
    NoneInPlain(v.u, words);
    FindAllSplits(v.u, before, words);
  }

  lemma PutShows(v: Style, before: string, p: Phrase, field: string, shown: seq<string>, more: seq<string>)
    requires Speaks(v) && Shows(v, before, shown) && Shows(v, field, more)
    ensures Shows(v, Put(before, v.say(p), field), shown + more)
  {
    EndShows(v, before, p, shown);
    var words := before + v.say(p);
    assert Plain(v.u, v.say(p)) && words[|words| - 1] == v.say(p)[|v.say(p)| - 1];
    FindAllSplits(v.u, words, field);
    FiguresAdd(v.u, shown, more);
  }

  lemma AfterShows(v: Style, p: Phrase, field: string, shown: seq<string>)
    requires Speaks(v) && Shows(v, field, shown)
    ensures Shows(v, After(v, p, field), shown)
  {
    PutShows(v, "", p, field, [], shown);
    assert [] + shown == shown;
  }

  lemma {:induction false} StripStartShows(u: Unicode, s: string)
    requires Sane(u)
    ensures FindAll(u, StripStart(u, s)) == FindAll(u, s)
  {
    if s != "" && u.space(s[0]) {
      StripStartShows(u, s[1..]);
    }
  }

  lemma WithoutLast(u: Unicode, s: string)
    requires s != "" && !u.digit(s[|s| - 1])
    ensures FindAll(u, s[..|s| - 1]) == FindAll(u, s)
  {
    var n := |s| - 1;
    assert s == s[..n] + [s[n]];
    NoneInPlain(u, [s[n]]);
    FindAllSplits(u, s[..n], [s[n]]);
  }

  lemma {:induction false} StripEndShows(u: Unicode, s: string)
    requires Sane(u)
    ensures FindAll(u, StripEnd(u, s)) == FindAll(u, s)
  {
    if s != "" && u.space(s[|s| - 1]) {
      WithoutLast(u, s);
      StripEndShows(u, s[..|s| - 1]);
    }
  }

  lemma {:induction false} StripStopsShows(u: Unicode, s: string)
    requires Sane(u)
    ensures FindAll(u, StripStops(s)) == FindAll(u, s)
  {
    if s != "" && s[|s| - 1] == '.' {
      WithoutLast(u, s);
      StripStopsShows(u, s[..|s| - 1]);
    }
  }

  lemma StripShows(u: Unicode, s: string)
    requires Sane(u)
    ensures FindAll(u, Strip(u, s)) == FindAll(u, s)
  {
    StripStartShows(u, s);
    StripEndShows(u, StripStart(u, s));
  }

  lemma SentenceShows(u: Unicode, s: string)
    requires Sane(u)
    ensures FindAll(u, Sentence(u, s)) == FindAll(u, s)
  {
    StripShows(u, s);
    NoneInPlain(u, ".");
    FindAllSplits(u, Strip(u, s), ".");
  }

  lemma CapitalShows(u: Unicode, s: string)
    requires Sane(u)
    ensures FindAll(u, Capital(u, s)) == FindAll(u, s)
  {
    if s != "" {
      if u.digit(s[0]) {
        assert Capital(u, s) == s;
      } else {
        NoneInPlain(u, u.upper(s[0]));
        FindAllSplits(u, u.upper(s[0]), s[1..]);
      }
    }
  }

  lemma WithoutHeadShows(u: Unicode, s: string)
    requires Sane(u) && NoDigits(u, OWN_HEAD)
    ensures FindAll(u, WithoutHead(u, s)) == FindAll(u, s)
  {
    StripShows(u, s);
    var t, n := Strip(u, s), |OWN_HEAD|;
    if OWN_HEAD <= Lower(u, t) && n <= |t| {
      forall i | 0 <= i < n ensures !u.digit(t[..n][i]) {
        LowerAt(u, t, i);
        assert OWN_HEAD[i] == Lower(u, t)[i];
      }
      NoneInPlain(u, t[..n]);
      assert t == t[..n] + t[n..];
      FindAllSplits(u, t[..n], t[n..]);
      StripShows(u, t[n..]);
    }
  }

  lemma {:induction false} NonEmptyShow(u: Unicode, parts: seq<string>)
    ensures Figures(u, NonEmpty(parts)) == Figures(u, parts)
  {
    if parts != [] {
      var n := |parts| - 1;
      NonEmptyShow(u, parts[..n]);
      FiguresAdd(u, NonEmpty(parts[..n]), if parts[n] != "" then [parts[n]] else []);
      OneFigure(u, parts[n]);
    }
  }

  lemma {:induction false} JoinAllShows(v: Style, p: Phrase, parts: seq<string>)
    requires Speaks(v)
    ensures Shows(v, JoinAll(v.say(p), parts), parts)
  {
    if |parts| == 1 {
      assert parts == [parts[0]];
      OneFigure(v.u, parts[0]);
    } else if |parts| > 1 {
      var n := |parts| - 1;
      JoinAllShows(v, p, parts[..n]);
      ShowsItself(v, parts[n]);
      PutShows(v, JoinAll(v.say(p), parts[..n]), p, parts[n], parts[..n], [parts[n]]);
      assert parts[..n] + [parts[n]] == parts;
    }
  }

  lemma JoinShows(v: Style, p: Phrase, last: Phrase, parts: seq<string>)
    requires Speaks(v)
    ensures Shows(v, Join(v.say(p), v.say(last), parts), parts)
  {
    NonEmptyShow(v.u, parts);
    var some := NonEmpty(parts);
    if |some| == 1 {
      assert some == [some[0]];
      OneFigure(v.u, some[0]);
    } else if |some| > 1 {
      var n := |some| - 1;
      JoinAllShows(v, p, some[..n]);
      ShowsItself(v, some[n]);
      PutShows(v, JoinAll(v.say(p), some[..n]), last, some[n], some[..n], [some[n]]);
      assert some[..n] + [some[n]] == some;
    }
  }

  lemma AddShows(v: Style, parts: seq<string>, part: string, shown: seq<string>, more: seq<string>)
    requires PartsShow(v, parts, shown) && Shows(v, part, more)
    ensures PartsShow(v, Add(parts, part), shown + more)
  {
    OneFigure(v.u, part);
    FiguresAdd(v.u, parts, [part]);
    FiguresAdd(v.u, shown, more);
  }

  /** A field left empty shows nothing. */
  lemma EmptyShowsNone(v: Style, text: string, shown: seq<string>, field: string)
    requires Shows(v, text, shown) && field == ""
    ensures Shows(v, text, shown + [field])
  {
    FiguresAdd(v.u, shown, [field]);
    OneFigure(v.u, field);
  }

  lemma EmptyAddsNone(v: Style, parts: seq<string>, shown: seq<string>, field: string)
    requires PartsShow(v, parts, shown) && field == ""
    ensures PartsShow(v, parts, shown + [field])
  {
    FiguresAdd(v.u, shown, [field]);
    OneFigure(v.u, field);
  }

  lemma PutField(v: Style, before: string, p: Phrase, field: string, shown: seq<string>)
    requires Speaks(v) && Shows(v, before, shown)
    ensures Shows(v, Put(before, v.say(p), field), shown + [field])
  {
    ShowsItself(v, field);
    PutShows(v, before, p, field, shown, [field]);
  }

  lemma AfterField(v: Style, p: Phrase, field: string)
    requires Speaks(v)
    ensures Shows(v, After(v, p, field), [field])
  {
    ShowsItself(v, field);
    AfterShows(v, p, field, [field]);
  }

  lemma SentenceField(v: Style, field: string)
    requires Speaks(v)
    ensures Shows(v, Sentence(v.u, field), [field])
  {
    SentenceShows(v.u, field);
    ShowsItself(v, field);
  }

  lemma PluralShows(v: Style, count: string, one: Phrase, many: Phrase)
    requires Speaks(v)
    ensures Shows(v, Plural(v, count, one, many), [count])
  {
    ShowsItself(v, count);
    EndShows(v, count, if count == "1" then one else many, [count]);
  }

  /** A list of texts, made a sentence. */
  lemma ListShows(v: Style, items: seq<string>, shown: seq<string>)
    requires Speaks(v) && PartsShow(v, items, shown)
    ensures Shows(v, Sentence(v.u, Listing(v, items)), shown)
  {
    JoinShows(v, Then, ThenAnd, items);
    SentenceShows(v.u, Listing(v, items));
  }

  lemma MoreShows(v: Style, text: string, f: Fields, key: Key, where: Phrase, shown: seq<string>)
    requires Speaks(v) && Shows(v, text, shown)
    ensures Shows(v, AndMoreOn(v, text, f, key, where), shown + MoreOf(f, key))
  {
    var left := Text(f, key);
    if left == "" {
      EmptyShowsNone(v, text, shown, left);
    } else if left == "0" {
      assert shown + [] == shown;
    } else {
      PutField(v, text, And, left, shown);
      EndShows(v, Put(text, v.say(And), left), where, shown + [left]);
    }
  }

  lemma StaleShows(v: Style, f: Fields, text: string, shown: seq<string>)
    requires Speaks(v) && Shows(v, text, shown)
    ensures Shows(v, WithStale(v, f, text), [Text(f, StaleNote)] + shown)
  {
    var stale := Text(f, StaleNote);
    if stale == "" {
      FiguresAdd(v.u, [stale], shown);
      OneFigure(v.u, stale);
    } else {
      SentenceField(v, stale);
      AfterShows(v, NoteIs, Sentence(v.u, stale), [stale]);
      PutShows(v, After(v, NoteIs, Sentence(v.u, stale)), Space, text, [stale], shown);
    }
  }

  lemma InProjectShows(v: Style, text: string, f: Fields, shown: seq<string>)
    requires Speaks(v) && Shows(v, text, shown)
    ensures Shows(v, InProject(v, text, f), shown + [Text(f, Project)])
  {
    if Text(f, Project) == "" {
      EmptyShowsNone(v, text, shown, Text(f, Project));
    } else {
      PutField(v, text, In, Text(f, Project), shown);
    }
  }

  lemma SpacedShows(v: Style, parts: seq<string>, shown: seq<string>)
    requires Speaks(v) && PartsShow(v, parts, shown)
    ensures Shows(v, Spaced(v, parts), shown)
  {
    JoinAllShows(v, Space, parts);
  }

  // --- the templates ---

  /** An optional sentence after the others. */
  lemma AddSentence(v: Style, parts: seq<string>, shown: seq<string>, field: string)
    requires Speaks(v) && PartsShow(v, parts, shown)
    ensures PartsShow(v, Add(parts, Sentence(v.u, field)), shown + [field])
    ensures field == "" ==> PartsShow(v, parts, shown + [field])
  {
    SentenceField(v, field);
    AddShows(v, parts, Sentence(v.u, field), shown, [field]);
    if field == "" {
      EmptyAddsNone(v, parts, shown, field);
    }
  }

  lemma FeatureHeadShows(v: Style, f: Fields)
    requires Speaks(v)
    ensures Shows(v, FeatureHead(v, f), Names(f))
  {
    var title := StripStops(Text(f, Label));
    StripStopsShows(v.u, Text(f, Label));
    ShowsItself(v, Text(f, Label));
    if Text(f, Project) == "" {
      EmptyShowsNone(v, title, Of(f, Label), Text(f, Project));
    } else {
      PutField(v, title, CommaIn, Text(f, Project), Of(f, Label));
    }
  }

  lemma DeliveredStands(v: Style, f: Fields)
    requires Speaks(v) && Text(f, DeliveredOn) != ""
    ensures PartsShow(v, HowItStands(v, f), Standing(f))
  {
    FeatureHeadShows(v, f);
    var text := Put(FeatureHead(v, f), v.say(MergedOn), Text(f, DeliveredOn));
    PutField(v, FeatureHead(v, f), MergedOn, Text(f, DeliveredOn), Names(f));
    EndShows(v, text, Stop, Standing(f));
    OneFigure(v.u, End(text, v.say(Stop)));
  }

  function HowFarText(v: Style, f: Fields): string {
    if Text(f, Stopped) != "" then End(After(v, StoppedAt, Text(f, Station)), v.say(StepStop))
    else End(After(v, HowFar, Text(f, Station)), v.say(Stop))
  }

  lemma HowFarShows(v: Style, f: Fields)
    requires Speaks(v)
    ensures Shows(v, HowFarText(v, f), Of(f, Station))
  {
    var station := Text(f, Station);
    if Text(f, Stopped) != "" {
      AfterField(v, StoppedAt, station);
      EndShows(v, After(v, StoppedAt, station), StepStop, [station]);
    } else {
      AfterField(v, HowFar, station);
      EndShows(v, After(v, HowFar, station), Stop, [station]);
    }
  }

  lemma HowItStandsShows(v: Style, f: Fields)
    requires Speaks(v)
    ensures PartsShow(v, HowItStands(v, f), Standing(f))
  {
    if Text(f, DeliveredOn) != "" {
      DeliveredStands(v, f);
    } else {
      var head, status := FeatureHead(v, f), Sentence(v.u, Text(f, StatusText));
      FeatureHeadShows(v, f);
      SentenceField(v, Text(f, StatusText));
      PutShows(v, head, Colon, status, Names(f), Of(f, StatusText));
      HowFarShows(v, f);
      OneFigure(v.u, Put(head, v.say(Colon), status));
      AddShows(v, [Put(head, v.say(Colon), status)], HowFarText(v, f), Names(f) + Of(f, StatusText), Of(f, Station));
      assert HowItStands(v, f) == Add([Put(head, v.say(Colon), status)], HowFarText(v, f));
      Associates(Names(f), Of(f, StatusText), Of(f, Station));
    }
  }

  lemma Associates(a: seq<string>, b: seq<string>, c: seq<string>)
    ensures a + b + c == a + (b + c)
  {
  }

  lemma NothingMore(a: seq<string>)
    ensures a + [] == a && [] + a == a
  {
  }

  lemma VerdictShows(v: Style, f: Fields)
    requires Speaks(v)
    ensures Shows(v, VerdictText(v, f), Judged(f))
  {
    var verdict, reason := Text(f, Verdict), Text(f, VerdictReason);
    var capital := Capital(v.u, verdict);
    CapitalShows(v.u, verdict);
    ShowsItself(v, verdict);
    if verdict == "not measured yet" {
      SpokenShowsNone(v, TrackUnknown);
    } else if reason != "" {
      SentenceField(v, reason);
      PutShows(v, capital, Colon, Sentence(v.u, reason), [verdict], [reason]);
    } else {
      EndShows(v, capital, Stop, [verdict]);
      EmptyShowsNone(v, End(capital, v.say(Stop)), [verdict], reason);
    }
  }

  lemma EffortShows(v: Style, f: Fields)
    requires Speaks(v)
    ensures Shows(v, Effort(v, f), Of(f, Sent) + Of(f, Elapsed) + Of(f, Attempts))
  {
    var sent, attempts := After(v, SentOn, Text(f, Sent)), Plural(v, Text(f, Attempts), BuildAttempt, BuildAttempts);
    AfterField(v, SentOn, Text(f, Sent));
    PutField(v, sent, ElapsedIs, Text(f, Elapsed), Of(f, Sent));
    PluralShows(v, Text(f, Attempts), BuildAttempt, BuildAttempts);
    var elapsed := Put(sent, v.say(ElapsedIs), Text(f, Elapsed));
    PutShows(v, elapsed, Then, attempts, Of(f, Sent) + Of(f, Elapsed), Of(f, Attempts));
    EndShows(v, Put(elapsed, v.say(Then), attempts), Stop, Of(f, Sent) + Of(f, Elapsed) + Of(f, Attempts));
  }

  lemma FeatureFirstShow(v: Style, f: Fields)
    requires Speaks(v)
    ensures PartsShow(v, Add(Add(HowItStands(v, f), VerdictText(v, f)), Effort(v, f)),
                      Standing(f) + Judged(f) + (Of(f, Sent) + Of(f, Elapsed) + Of(f, Attempts)))
  {
    HowItStandsShows(v, f);
    VerdictShows(v, f);
    EffortShows(v, f);
    AddShows(v, HowItStands(v, f), VerdictText(v, f), Standing(f), Judged(f));
    AddShows(v, Add(HowItStands(v, f), VerdictText(v, f)), Effort(v, f), Standing(f) + Judged(f),
             Of(f, Sent) + Of(f, Elapsed) + Of(f, Attempts));
  }

  /** Open issues or waits after the other parts, where there are any. */
  lemma AddListing(v: Style, parts: seq<string>, shown: seq<string>, p: Phrase, items: seq<string>)
    requires Speaks(v) && PartsShow(v, parts, shown)
    ensures PartsShow(v, if items == [] then parts else Add(parts, After(v, p, Sentence(v.u, Listing(v, items)))),
                      shown + items)
  {
    if items == [] {
      NothingMore(shown);
    } else {
      ListShows(v, items, items);
      AfterShows(v, p, Sentence(v.u, Listing(v, items)), items);
      AddShows(v, parts, After(v, p, Sentence(v.u, Listing(v, items))), shown, items);
    }
  }

  lemma FeatureStatusShows(v: Style, f: Fields)
    requires Speaks(v)
    ensures Shows(v, FeatureStatus(v, f), FeatureShown(f))
  {
    var parts := Add(Add(HowItStands(v, f), VerdictText(v, f)), Effort(v, f));
    var shown := Standing(f) + Judged(f) + (Of(f, Sent) + Of(f, Elapsed) + Of(f, Attempts));
    FeatureFirstShow(v, f);
    var issues := Items(f, OpenIssueList);
    AddListing(v, parts, shown, OpenIssuesAre, issues);
    parts := if issues == [] then parts else Add(parts, After(v, OpenIssuesAre, Sentence(v.u, Listing(v, issues))));
    shown := shown + issues;
    AddSentence(v, parts, shown, Text(f, MissionLine));
    parts := if Text(f, MissionLine) == "" then parts else Add(parts, Sentence(v.u, Text(f, MissionLine)));
    shown := shown + Of(f, MissionLine);
    AddSentence(v, parts, shown, Text(f, Cost));
    parts, shown := Add(parts, Sentence(v.u, Text(f, Cost))), shown + Of(f, Cost);
    SpacedShows(v, parts, shown);
    StaleShows(v, f, Spaced(v, parts), shown);
  }

  // --- a project's summary ---

  function InNumbers(v: Style, f: Fields): string {
    End(Put(Put(Put(Text(f, Project), v.say(Colon), Text(f, InProgressCount)), v.say(InProgress),
                Text(f, DeliveredWeek)), v.say(MergedLately), Text(f, DeliveredTotal)), v.say(InTotal))
  }

  lemma InNumbersShows(v: Style, f: Fields)
    requires Speaks(v)
    ensures Shows(v, InNumbers(v, f),
                  Of(f, Project) + Of(f, InProgressCount) + Of(f, DeliveredWeek) + Of(f, DeliveredTotal))
  {
    var one := Put(Text(f, Project), v.say(Colon), Text(f, InProgressCount));
    var two := Put(one, v.say(InProgress), Text(f, DeliveredWeek));
    var three := Put(two, v.say(MergedLately), Text(f, DeliveredTotal));
    ShowsItself(v, Text(f, Project));
    PutField(v, Text(f, Project), Colon, Text(f, InProgressCount), Of(f, Project));
    PutField(v, one, InProgress, Text(f, DeliveredWeek), Of(f, Project) + Of(f, InProgressCount));
    PutField(v, two, MergedLately, Text(f, DeliveredTotal),
             Of(f, Project) + Of(f, InProgressCount) + Of(f, DeliveredWeek));
    EndShows(v, three, InTotal,
             Of(f, Project) + Of(f, InProgressCount) + Of(f, DeliveredWeek) + Of(f, DeliveredTotal));
  }

  function PeriodText(v: Style, f: Fields): string {
    End(Put(After(v, MergedIn, Text(f, PeriodLabel)), v.say(Colon), Text(f, PeriodDelivered)), v.say(Stop))
  }

  lemma PeriodShows(v: Style, f: Fields)
    requires Speaks(v)
    ensures Shows(v, PeriodText(v, f), Of(f, PeriodLabel) + Of(f, PeriodDelivered))
  {
    var period := After(v, MergedIn, Text(f, PeriodLabel));
    AfterField(v, MergedIn, Text(f, PeriodLabel));
    PutField(v, period, Colon, Text(f, PeriodDelivered), Of(f, PeriodLabel));
    EndShows(v, Put(period, v.say(Colon), Text(f, PeriodDelivered)), Stop, Of(f, PeriodLabel) + Of(f, PeriodDelivered));
  }

  lemma ProjectPartsShow(v: Style, f: Fields)
    requires Speaks(v)
    ensures PartsShow(v, ProjectParts(v, f), ProjectFigures(f))
  {
    var shown := Of(f, Project) + Of(f, InProgressCount) + Of(f, DeliveredWeek) + Of(f, DeliveredTotal);
    InNumbersShows(v, f);
    OneFigure(v.u, InNumbers(v, f));
    if Text(f, PeriodLabel) == "" {
      NothingMore(shown);
    } else {
      PeriodShows(v, f);
      AddShows(v, [InNumbers(v, f)], PeriodText(v, f), shown, Of(f, PeriodLabel) + Of(f, PeriodDelivered));
      assert Add([InNumbers(v, f)], PeriodText(v, f)) == ProjectParts(v, f);
    }
  }

  function OpenOnes(v: Style, f: Fields): string {
    var listed, open := Items(f, OpenIssueList), Plural(v, Text(f, OpenIssueCount), OpenIssue, OpenIssues);
    if listed == [] then End(open, v.say(Stop)) else Put(open, v.say(Colon), Sentence(v.u, Listing(v, listed)))
  }

  lemma OpenOnesShows(v: Style, f: Fields)
    requires Speaks(v)
    ensures Shows(v, OpenOnes(v, f), Of(f, OpenIssueCount) + Items(f, OpenIssueList))
  {
    var listed, open := Items(f, OpenIssueList), Plural(v, Text(f, OpenIssueCount), OpenIssue, OpenIssues);
    PluralShows(v, Text(f, OpenIssueCount), OpenIssue, OpenIssues);
    if listed == [] {
      EndShows(v, open, Stop, Of(f, OpenIssueCount));
      NothingMore(Of(f, OpenIssueCount));
    } else {
      ListShows(v, listed, listed);
      PutShows(v, open, Colon, Sentence(v.u, Listing(v, listed)), Of(f, OpenIssueCount), listed);
    }
  }

  lemma ProjectIssuesShow(v: Style, f: Fields)
    requires Speaks(v)
    ensures PartsShow(v, ProjectIssues(v, f), ProjectIssuesShown(f))
  {
    if Text(f, OpenIssueCount) == "0" {
      SpokenShowsNone(v, NoOpenIssues);
      OneFigure(v.u, Fixed(v, NoOpenIssues));
    } else {
      var more := AndMoreOn(v, "", f, MoreIssues, MoreOnProject);
      var shown := Of(f, OpenIssueCount) + Items(f, OpenIssueList);
      OpenOnesShows(v, f);
      OneFigure(v.u, OpenOnes(v, f));
      MoreShows(v, "", f, MoreIssues, MoreOnProject, []);
      NothingMore(MoreOf(f, MoreIssues));
      StripShows(v.u, more);
      AddShows(v, [OpenOnes(v, f)], Strip(v.u, more), shown, MoreOf(f, MoreIssues));
      SentenceField(v, Text(f, HiddenLine));
      AddShows(v, Add([OpenOnes(v, f)], Strip(v.u, more)), Hidden(v, f), shown + MoreOf(f, MoreIssues),
               Of(f, HiddenLine));
      assert ProjectIssues(v, f) == Add(Add([OpenOnes(v, f)], Strip(v.u, more)), Hidden(v, f));
    }
  }

  lemma BothShow(v: Style, a: seq<string>, b: seq<string>, first: seq<string>, second: seq<string>)
    requires PartsShow(v, a, first) && PartsShow(v, b, second)
    ensures PartsShow(v, Both(a, b), first + second)
  {
    FiguresAdd(v.u, a, b);
    FiguresAdd(v.u, first, second);
  }

  lemma ProjectSummaryShows(v: Style, f: Fields)
    requires Speaks(v)
    ensures Shows(v, ProjectSummary(v, f), ProjectShown(f))
  {
    ProjectPartsShow(v, f);
    ProjectIssuesShow(v, f);
    var parts, shown := Both(ProjectParts(v, f), ProjectIssues(v, f)), ProjectFigures(f) + ProjectIssuesShown(f);
    BothShow(v, ProjectParts(v, f), ProjectIssues(v, f), ProjectFigures(f), ProjectIssuesShown(f));
    AddSentence(v, parts, shown, Text(f, Cost));
    parts, shown := Add(parts, Sentence(v.u, Text(f, Cost))), shown + Of(f, Cost);
    NonEmptyShow(v.u, parts);
    SpacedShows(v, NonEmpty(parts), shown);
    StaleShows(v, f, Spaced(v, NonEmpty(parts)), shown);
  }

  // --- lists of issues and of delivered features ---

  lemma CellShows(v: Style, row: Cells, key: Key)
    requires Speaks(v)
    ensures Shows(v, Cell(v, row, key), CellOf(row, key))
  {
    SpokenShowsNone(v, NoneWord);
    if key in row && row[key].Some? {
      ShowsItself(v, row[key].value);
    }
  }

  function Detailed(v: Style, row: Cells): string {
    var subject := Put(Cell(v, row, Kind), v.say(Colon), Cell(v, row, Subject));
    if Detail !in row || row[Detail] == None || row[Detail] == Some("") then subject
    else End(Put(subject, v.say(Opening), Cell(v, row, Detail)), v.say(Closing))
  }

  lemma DetailedShows(v: Style, row: Cells)
    requires Speaks(v)
    ensures Shows(v, Detailed(v, row), CellOf(row, Kind) + CellOf(row, Subject) + CellOf(row, Detail))
  {
    var subject, shown := Put(Cell(v, row, Kind), v.say(Colon), Cell(v, row, Subject)),
      CellOf(row, Kind) + CellOf(row, Subject);
    CellShows(v, row, Kind);
    CellShows(v, row, Subject);
    PutShows(v, Cell(v, row, Kind), Colon, Cell(v, row, Subject), CellOf(row, Kind), CellOf(row, Subject));
    if Detail !in row || row[Detail] == None {
      NothingMore(shown);
    } else if row[Detail] == Some("") {
      EmptyShowsNone(v, subject, shown, "");
    } else {
      CellShows(v, row, Detail);
      PutShows(v, subject, Opening, Cell(v, row, Detail), shown, CellOf(row, Detail));
      EndShows(v, Put(subject, v.say(Opening), Cell(v, row, Detail)), Closing, shown + CellOf(row, Detail));
    }
  }

  lemma IssueRowShows(v: Style, row: Cells)
    requires Speaks(v)
    ensures Shows(v, IssueRow(v, row), IssueCells(row))
  {
    var shown := CellOf(row, Kind) + CellOf(row, Subject) + CellOf(row, Detail);
    var aged := Put(Detailed(v, row), v.say(OpenFor), Cell(v, row, Age));
    DetailedShows(v, row);
    CellShows(v, row, Age);
    CellShows(v, row, HowSerious);
    PutShows(v, Detailed(v, row), OpenFor, Cell(v, row, Age), shown, CellOf(row, Age));
    PutShows(v, aged, Comma, Cell(v, row, HowSerious), shown + CellOf(row, Age), CellOf(row, HowSerious));
  }

  lemma DeliveredRowShows(v: Style, row: Cells)
    requires Speaks(v)
    ensures Shows(v, DeliveredRow(v, row), DeliveredCells(row))
  {
    CellShows(v, row, Label);
    CellShows(v, row, OnDate);
    PutShows(v, Cell(v, row, Label), OnDay, Cell(v, row, OnDate), CellOf(row, Label), CellOf(row, OnDate));
  }

  function RowTexts(rows: seq<Cells>, write: Cells -> string): (texts: seq<string>)
    ensures |texts| == |rows| && forall i :: 0 <= i < |rows| ==> texts[i] == write(rows[i])
  {
    if rows == [] then [] else Add(RowTexts(rows[..|rows| - 1], write), write(rows[|rows| - 1]))
  }

  /** Rows that each show their cells show them together. */
  lemma {:induction false} RowsShow(v: Style, rows: seq<Cells>, write: Cells -> string, cells: Cells -> seq<string>)
    requires Speaks(v) && forall row :: Shows(v, write(row), cells(row))
    ensures PartsShow(v, RowTexts(rows, write), RowsShown(rows, cells))
  {
    if rows != [] {
      var n := |rows| - 1;
      RowsShow(v, rows[..n], write, cells);
      AddShows(v, RowTexts(rows[..n], write), write(rows[n]), RowsShown(rows[..n], cells), cells(rows[n]));
    }
  }

  lemma IssueRowsShow(v: Style, rows: seq<Cells>)
    requires Speaks(v)
    ensures PartsShow(v, IssueRows(v, rows), RowsShown(rows, IssueCells))
  {
    var write := row => IssueRow(v, row);
    forall row ensures Shows(v, write(row), IssueCells(row)) {
      IssueRowShows(v, row);
    }
    RowsShow(v, rows, write, IssueCells);
    assert IssueRows(v, rows) == RowTexts(rows, write);
  }

  lemma DeliveredRowsShow(v: Style, rows: seq<Cells>)
    requires Speaks(v)
    ensures PartsShow(v, DeliveredRows(v, rows), RowsShown(rows, DeliveredCells))
  {
    var write := row => DeliveredRow(v, row);
    forall row ensures Shows(v, write(row), DeliveredCells(row)) {
      DeliveredRowShows(v, row);
    }
    RowsShow(v, rows, write, DeliveredCells);
    assert DeliveredRows(v, rows) == RowTexts(rows, write);
  }

  lemma IssuesHeadShows(v: Style, f: Fields)
    requires Speaks(v)
    ensures Shows(v, IssuesHead(v, f), if Text(f, Count) == "0" then Of(f, Project) else Of(f, Count) + Of(f, Project))
  {
    var count := Text(f, Count);
    if count == "0" {
      SpokenShowsNone(v, NoneOpen);
      InProjectShows(v, Fixed(v, NoneOpen), f, []);
      NothingMore(Of(f, Project));
    } else {
      var open, there := Plural(v, count, OpenIssue, OpenIssues), if count == "1" then ThereIs else ThereAre;
      PluralShows(v, count, OpenIssue, OpenIssues);
      AfterShows(v, there, open, Of(f, Count));
      InProjectShows(v, After(v, there, open), f, Of(f, Count));
    }
  }

  function ListedIssues(v: Style, f: Fields): string {
    var head, rows := IssuesHead(v, f), IssueRows(v, f.rows);
    if rows == [] then End(head, v.say(Stop))
    else AndMoreOn(v, Put(head, v.say(Colon), Sentence(v.u, Listing(v, rows))), f, More, MoreOnIssues)
  }

  lemma ListedIssuesShows(v: Style, f: Fields)
    requires Speaks(v) && Text(f, Count) != "0"
    ensures Shows(v, ListedIssues(v, f), IssuesListed(f))
  {
    var head, rows, shown := IssuesHead(v, f), IssueRows(v, f.rows), Of(f, Count) + Of(f, Project);
    IssuesHeadShows(v, f);
    if rows == [] {
      EndShows(v, head, Stop, shown);
    } else {
      var cells := RowsShown(f.rows, IssueCells);
      IssueRowsShow(v, f.rows);
      ListShows(v, rows, cells);
      PutShows(v, head, Colon, Sentence(v.u, Listing(v, rows)), shown, cells);
      MoreShows(v, Put(head, v.say(Colon), Sentence(v.u, Listing(v, rows))), f, More, MoreOnIssues, shown + cells);
    }
  }

  lemma WithHiddenShows(v: Style, f: Fields, text: string, shown: seq<string>)
    requires Speaks(v) && Shows(v, text, shown)
    ensures Shows(v, if Hidden(v, f) == "" then text else Put(text, v.say(Space), Hidden(v, f)),
                  shown + Of(f, HiddenLine))
  {
    SentenceField(v, Text(f, HiddenLine));
    if Hidden(v, f) == "" {
      FiguresAdd(v.u, shown, Of(f, HiddenLine));
      NothingMore(Figures(v.u, shown));
    } else {
      PutShows(v, text, Space, Hidden(v, f), shown, Of(f, HiddenLine));
    }
  }

  lemma OpenIssuesShows(v: Style, f: Fields)
    requires Speaks(v)
    ensures Shows(v, OpenIssuesAnswer(v, f), IssuesShown(f))
  {
    if Text(f, Count) == "0" {
      IssuesHeadShows(v, f);
      EndShows(v, IssuesHead(v, f), Stop, Of(f, Project));
      StaleShows(v, f, IssuesText(v, f), Of(f, Project));
    } else {
      ListedIssuesShows(v, f);
      WithHiddenShows(v, f, ListedIssues(v, f), IssuesListed(f));
      StaleShows(v, f, IssuesText(v, f), IssuesListed(f) + Of(f, HiddenLine));
    }
  }

  function DeliveredText(v: Style, f: Fields): string {
    var count, when := Text(f, Count), Text(f, PeriodLabel);
    if count == "0" then End(Put(InProject(v, Fixed(v, NothingMerged), f), v.say(Space), when), v.say(Stop))
    else
      var head := End(Plural(v, count, FeatureWas, FeaturesWere), v.say(MergedAndChecked));
      AndMoreOn(v, Put(Put(InProject(v, head, f), v.say(Space), when), v.say(Colon),
                       Sentence(v.u, Listing(v, DeliveredRows(v, f.rows)))), f, More, MoreOnDelivered)
  }

  lemma NoneDeliveredShows(v: Style, f: Fields)
    requires Speaks(v) && Text(f, Count) == "0"
    ensures Shows(v, DeliveredText(v, f), DeliveredListed(f))
  {
    var head := InProject(v, Fixed(v, NothingMerged), f);
    SpokenShowsNone(v, NothingMerged);
    InProjectShows(v, Fixed(v, NothingMerged), f, []);
    NothingMore(Of(f, Project));
    PutField(v, head, Space, Text(f, PeriodLabel), Of(f, Project));
    EndShows(v, Put(head, v.say(Space), Text(f, PeriodLabel)), Stop, Of(f, Project) + Of(f, PeriodLabel));
  }

  lemma SomeDeliveredShows(v: Style, f: Fields)
    requires Speaks(v) && Text(f, Count) != "0"
    ensures Shows(v, DeliveredText(v, f), DeliveredListed(f))
  {
    var counted := Plural(v, Text(f, Count), FeatureWas, FeaturesWere);
    var head := End(counted, v.say(MergedAndChecked));
    PluralShows(v, Text(f, Count), FeatureWas, FeaturesWere);
    EndShows(v, counted, MergedAndChecked, Of(f, Count));
    InProjectShows(v, head, f, Of(f, Count));
    var dated, shown := Put(InProject(v, head, f), v.say(Space), Text(f, PeriodLabel)),
      Of(f, Count) + Of(f, Project) + Of(f, PeriodLabel);
    PutField(v, InProject(v, head, f), Space, Text(f, PeriodLabel), Of(f, Count) + Of(f, Project));
    var rows, cells := DeliveredRows(v, f.rows), RowsShown(f.rows, DeliveredCells);
    DeliveredRowsShow(v, f.rows);
    ListShows(v, rows, cells);
    PutShows(v, dated, Colon, Sentence(v.u, Listing(v, rows)), shown, cells);
    MoreShows(v, Put(dated, v.say(Colon), Sentence(v.u, Listing(v, rows))), f, More, MoreOnDelivered, shown + cells);
  }

  lemma DeliveredShows(v: Style, f: Fields)
    requires Speaks(v)
    ensures Shows(v, DeliveredAnswer(v, f), DeliveredShown(f))
  {
    var text, endings, shown := DeliveredText(v, f), Text(f, OtherEndings), DeliveredListed(f);
    if Text(f, Count) == "0" {
      NoneDeliveredShows(v, f);
    } else {
      SomeDeliveredShows(v, f);
    }
    if endings == "" {
      EmptyShowsNone(v, text, shown, endings);
    } else {
      SentenceField(v, endings);
      PutShows(v, text, Space, Sentence(v.u, endings), shown, [endings]);
    }
    StaleShows(v, f, if endings == "" then text else Put(text, v.say(Space), Sentence(v.u, endings)),
               shown + Of(f, OtherEndings));
  }

  // --- the weekly report ---

  function WeeklyFirst(v: Style, f: Fields): string {
    var scope := if Text(f, Project) == "" then Fixed(v, WeeklyReportWord)
                 else Put(Fixed(v, WeeklyReportWord), v.say(For), Text(f, Project));
    var done := Plural(v, Text(f, DeliveredCount), OneFeature, ManyFeatures);
    End(Put(Put(Put(scope, v.say(Comma), Text(f, PeriodLabel)), v.say(Colon), done), v.say(MergedComma),
            Text(f, InFlightCount)), v.say(InProgressStop))
  }

  lemma WeeklyScopeShows(v: Style, f: Fields)
    requires Speaks(v)
    ensures Shows(v, if Text(f, Project) == "" then Fixed(v, WeeklyReportWord)
                     else Put(Fixed(v, WeeklyReportWord), v.say(For), Text(f, Project)), Of(f, Project))
  {
    SpokenShowsNone(v, WeeklyReportWord);
    NothingMore(Of(f, Project));
    if Text(f, Project) == "" {
      EmptyShowsNone(v, Fixed(v, WeeklyReportWord), [], Text(f, Project));
    } else {
      PutField(v, Fixed(v, WeeklyReportWord), For, Text(f, Project), []);
    }
  }

  lemma WeeklyFirstShows(v: Style, f: Fields)
    requires Speaks(v)
    ensures Shows(v, WeeklyFirst(v, f),
                  Of(f, Project) + Of(f, PeriodLabel) + Of(f, DeliveredCount) + Of(f, InFlightCount))
  {
    var scope := if Text(f, Project) == "" then Fixed(v, WeeklyReportWord)
                 else Put(Fixed(v, WeeklyReportWord), v.say(For), Text(f, Project));
    var done := Plural(v, Text(f, DeliveredCount), OneFeature, ManyFeatures);
    var one := Put(scope, v.say(Comma), Text(f, PeriodLabel));
    var two := Put(one, v.say(Colon), done);
    WeeklyScopeShows(v, f);
    PutField(v, scope, Comma, Text(f, PeriodLabel), Of(f, Project));
    PluralShows(v, Text(f, DeliveredCount), OneFeature, ManyFeatures);
    PutShows(v, one, Colon, done, Of(f, Project) + Of(f, PeriodLabel), Of(f, DeliveredCount));
    PutField(v, two, MergedComma, Text(f, InFlightCount), Of(f, Project) + Of(f, PeriodLabel) + Of(f, DeliveredCount));
    EndShows(v, Put(two, v.say(MergedComma), Text(f, InFlightCount)), InProgressStop,
             Of(f, Project) + Of(f, PeriodLabel) + Of(f, DeliveredCount) + Of(f, InFlightCount));
  }

  lemma WeeklyPartsShow(v: Style, f: Fields)
    requires Speaks(v)
    ensures PartsShow(v, WeeklyParts(v, f), WeeklyHead(f))
  {
    var head, delivered := WeeklyFirst(v, f), Items(f, DeliveredList);
    var shown := Of(f, Project) + Of(f, PeriodLabel) + Of(f, DeliveredCount) + Of(f, InFlightCount);
    WeeklyFirstShows(v, f);
    OneFigure(v.u, head);
    if delivered == [] {
      NothingMore(shown);
    } else {
      var listed := After(v, DeliveredAre, Sentence(v.u, Listing(v, delivered)));
      ListShows(v, delivered, delivered);
      AfterShows(v, DeliveredAre, Sentence(v.u, Listing(v, delivered)), delivered);
      MoreShows(v, listed, f, MoreDelivered, MoreOnReport, delivered);
      AddShows(v, [head], AndMoreOn(v, listed, f, MoreDelivered, MoreOnReport), shown,
               delivered + MoreOf(f, MoreDelivered));
      assert WeeklyParts(v, f) == Add([head], AndMoreOn(v, listed, f, MoreDelivered, MoreOnReport));
    }
  }

  function PlanText(v: Style, f: Fields): string {
    if Text(f, PlanAgreed) == "" then Fixed(v, NoPlan)
    else End(Put(Put(After(v, AgainstPlan, Text(f, Behind)), v.say(BehindComma), Text(f, OnTarget)),
                 v.say(OnTargetComma), Text(f, Ahead)), v.say(AheadStop))
  }

  lemma PlanTextShows(v: Style, f: Fields)
    requires Speaks(v)
    ensures Shows(v, PlanText(v, f),
                  if Text(f, PlanAgreed) == "" then [] else Of(f, Behind) + Of(f, OnTarget) + Of(f, Ahead))
  {
    SpokenShowsNone(v, NoPlan);
    if Text(f, PlanAgreed) != "" {
      var one := After(v, AgainstPlan, Text(f, Behind));
      var two := Put(one, v.say(BehindComma), Text(f, OnTarget));
      AfterField(v, AgainstPlan, Text(f, Behind));
      PutField(v, one, BehindComma, Text(f, OnTarget), Of(f, Behind));
      PutField(v, two, OnTargetComma, Text(f, Ahead), Of(f, Behind) + Of(f, OnTarget));
      EndShows(v, Put(two, v.say(OnTargetComma), Text(f, Ahead)), AheadStop,
               Of(f, Behind) + Of(f, OnTarget) + Of(f, Ahead));
    }
  }

  function IssuesMoved(v: Style, f: Fields): string {
    var issues := End(Put(After(v, IssuesAre, Text(f, IssuesOpened)), v.say(OpenedAnd), Text(f, IssuesClosed)),
                      v.say(ClosedInPeriod));
    if Text(f, OldestOpen) == "" then issues
    else End(Put(issues, v.say(OldestStill), Text(f, OldestOpen)), v.say(OldWord))
  }

  lemma IssuesMovedShows(v: Style, f: Fields)
    requires Speaks(v)
    ensures Shows(v, IssuesMoved(v, f), Of(f, IssuesOpened) + Of(f, IssuesClosed) + Of(f, OldestOpen))
  {
    var began, shown := After(v, IssuesAre, Text(f, IssuesOpened)), Of(f, IssuesOpened) + Of(f, IssuesClosed);
    var both := Put(began, v.say(OpenedAnd), Text(f, IssuesClosed));
    AfterField(v, IssuesAre, Text(f, IssuesOpened));
    PutField(v, began, OpenedAnd, Text(f, IssuesClosed), Of(f, IssuesOpened));
    EndShows(v, both, ClosedInPeriod, shown);
    var issues, oldest := End(both, v.say(ClosedInPeriod)), Text(f, OldestOpen);
    if oldest == "" {
      EmptyShowsNone(v, issues, shown, oldest);
    } else {
      PutField(v, issues, OldestStill, oldest, shown);
      EndShows(v, Put(issues, v.say(OldestStill), oldest), OldWord, shown + Of(f, OldestOpen));
    }
  }

  lemma PlanAndIssuesShow(v: Style, f: Fields)
    requires Speaks(v)
    ensures PartsShow(v, PlanAndIssues(v, f), PlanShown(f))
  {
    if Text(f, Project) != "" {
      SpokenShowsNone(v, NotSplit);
      OneFigure(v.u, Fixed(v, NotSplit));
    } else {
      var moved, shown := IssuesMoved(v, f), Of(f, IssuesOpened) + Of(f, IssuesClosed) + Of(f, OldestOpen);
      var planned := if Text(f, PlanAgreed) == "" then [] else Of(f, Behind) + Of(f, OnTarget) + Of(f, Ahead);
      PlanTextShows(v, f);
      IssuesMovedShows(v, f);
      EndShows(v, moved, Stop, shown);
      OneFigure(v.u, PlanText(v, f));
      AddShows(v, [PlanText(v, f)], End(moved, v.say(Stop)), planned, shown);
      assert PlanAndIssues(v, f) == Add([PlanText(v, f)], End(moved, v.say(Stop)));
    }
  }

  lemma WeeklyShows(v: Style, f: Fields)
    requires Speaks(v)
    ensures Shows(v, WeeklyReport(v, f), WeeklyShown(f))
  {
    if Text(f, Withheld) != "" {
      var period := After(v, ReportThe, Text(f, PeriodLabel));
      AfterField(v, ReportThe, Text(f, PeriodLabel));
      PutField(v, period, IsWithheld, Text(f, WithheldSince), Of(f, PeriodLabel));
      EndShows(v, Put(period, v.say(IsWithheld), Text(f, WithheldSince)), Outdated,
               Of(f, PeriodLabel) + Of(f, WithheldSince));
    } else {
      var parts, shown := Both(WeeklyParts(v, f), PlanAndIssues(v, f)), WeeklyHead(f) + PlanShown(f);
      WeeklyPartsShow(v, f);
      PlanAndIssuesShow(v, f);
      BothShow(v, WeeklyParts(v, f), PlanAndIssues(v, f), WeeklyHead(f), PlanShown(f));
      AddSentence(v, parts, shown, Text(f, Cost));
      SpacedShows(v, Add(parts, Sentence(v.u, Text(f, Cost))), shown + Of(f, Cost));
    }
  }

  // --- cost and time ---

  lemma ScopeHeadShows(v: Style, f: Fields)
    requires Speaks(v)
    ensures Shows(v, ScopeHead(v, f), ScopeNames(f))
  {
    var name := StripStops(Text(f, Name));
    StripStopsShows(v.u, Text(f, Name));
    ShowsItself(v, Text(f, Name));
    if Text(f, PeriodLabel) == "" {
      EmptyShowsNone(v, name, Of(f, Name), Text(f, PeriodLabel));
    } else {
      PutField(v, name, Comma, Text(f, PeriodLabel), Of(f, Name));
    }
  }

  function SpentText(v: Style, f: Fields): string {
    Put(Put(Put(Put(ScopeHead(v, f), v.say(Colon), Plural(v, Text(f, Calls), ModelCall, ModelCalls)), v.say(Comma),
                Text(f, TokensIn)), v.say(TokensInAnd), Text(f, TokensOut)), v.say(OutNominal), Text(f, Cost))
  }

  lemma SpentShows(v: Style, f: Fields)
    requires Speaks(v)
    ensures Shows(v, SpentText(v, f), ScopeNames(f) + Of(f, Calls) + Of(f, TokensIn) + Of(f, TokensOut) + Of(f, Cost))
  {
    var head, calls := ScopeHead(v, f), Plural(v, Text(f, Calls), ModelCall, ModelCalls);
    var one := Put(head, v.say(Colon), calls);
    var two := Put(one, v.say(Comma), Text(f, TokensIn));
    var three := Put(two, v.say(TokensInAnd), Text(f, TokensOut));
    ScopeHeadShows(v, f);
    PluralShows(v, Text(f, Calls), ModelCall, ModelCalls);
    PutShows(v, head, Colon, calls, ScopeNames(f), Of(f, Calls));
    PutField(v, one, Comma, Text(f, TokensIn), ScopeNames(f) + Of(f, Calls));
    PutField(v, two, TokensInAnd, Text(f, TokensOut), ScopeNames(f) + Of(f, Calls) + Of(f, TokensIn));
    PutField(v, three, OutNominal, Text(f, Cost), ScopeNames(f) + Of(f, Calls) + Of(f, TokensIn) + Of(f, TokensOut));
  }

  lemma CostFirstShows(v: Style, f: Fields)
    requires Speaks(v)
    ensures Shows(v, CostFirst(v, f), CostFigures(f))
  {
    var spent := SpentText(v, f);
    if Text(f, Calls) == "0" {
      ScopeHeadShows(v, f);
      EndShows(v, ScopeHead(v, f), NoCalls, ScopeNames(f));
    } else {
      SpentShows(v, f);
      EndShows(v, spent, PartEstimated, CostFigures(f));
      EndShows(v, if Text(f, Estimated) == "" then spent else End(spent, v.say(PartEstimated)), Stop, CostFigures(f));
    }
  }

  function LeftOutText(v: Style, f: Fields): string {
    End(After(v, LeavesOut, Text(f, LeftOut)),
        v.say(if Text(f, LeftOut) == "1" then FeatureUntagged else FeaturesUntagged))
  }

  lemma AddLeftOut(v: Style, f: Fields, parts: seq<string>, shown: seq<string>)
    requires Speaks(v) && PartsShow(v, parts, shown)
    ensures PartsShow(v, if Text(f, LeftOut) == "" || Text(f, LeftOut) == "0" then parts
                         else Add(parts, LeftOutText(v, f)), shown + MoreOf(f, LeftOut))
  {
    var out := Text(f, LeftOut);
    if out == "" {
      EmptyAddsNone(v, parts, shown, out);
    } else if out == "0" {
      NothingMore(shown);
    } else {
      AfterField(v, LeavesOut, out);
      EndShows(v, After(v, LeavesOut, out), if out == "1" then FeatureUntagged else FeaturesUntagged, [out]);
      AddShows(v, parts, LeftOutText(v, f), shown, [out]);
    }
  }

  lemma CostPartsShow(v: Style, f: Fields)
    requires Speaks(v)
    ensures PartsShow(v, CostParts(v, f), CostFigures(f) + Of(f, Reason) + MoreOf(f, LeftOut) + Of(f, PriceLabel))
  {
    var parts, shown := [CostFirst(v, f)], CostFigures(f);
    CostFirstShows(v, f);
    OneFigure(v.u, CostFirst(v, f));
    AddSentence(v, parts, shown, Text(f, Reason));
    parts := if Text(f, Reason) == "" then parts else Add(parts, Sentence(v.u, Text(f, Reason)));
    shown := shown + Of(f, Reason);
    AddLeftOut(v, f, parts, shown);
    parts := if Text(f, LeftOut) == "" || Text(f, LeftOut) == "0" then parts else Add(parts, LeftOutText(v, f));
    shown := shown + MoreOf(f, LeftOut);
    AddSentence(v, parts, shown, Text(f, PriceLabel));
  }

  lemma CostNoteShows(v: Style, f: Fields, text: string, shown: seq<string>)
    requires Speaks(v) && Shows(v, text, shown)
    ensures Shows(v, WithStale(v, f, WithCostNote(v, f, text)), Of(f, StaleNote) + (shown + Of(f, StaleText)))
  {
    var stale := Text(f, StaleText);
    if stale == "" {
      EmptyShowsNone(v, text, shown, stale);
    } else {
      SentenceField(v, stale);
      PutShows(v, text, AndNote, Sentence(v.u, stale), shown, [stale]);
    }
    StaleShows(v, f, WithCostNote(v, f, text), shown + Of(f, StaleText));
  }

  lemma WhyShows(v: Style, f: Fields)
    requires Speaks(v)
    ensures Shows(v, Sentence(v.u, WithoutHead(v.u, Text(f, Reason))), Of(f, Reason))
  {
    WithoutHeadShows(v.u, Text(f, Reason));
    SentenceShows(v.u, WithoutHead(v.u, Text(f, Reason)));
    ShowsItself(v, Text(f, Reason));
  }

  lemma AskedShows(v: Style, f: Fields, asked: Phrase, answer: Phrase)
    requires Speaks(v)
    ensures Shows(v, Put(After(v, asked, ScopeHead(v, f)), v.say(answer),
                         Sentence(v.u, WithoutHead(v.u, Text(f, Reason)))), ScopeNames(f) + Of(f, Reason))
  {
    ScopeHeadShows(v, f);
    WhyShows(v, f);
    AfterShows(v, asked, ScopeHead(v, f), ScopeNames(f));
    PutShows(v, After(v, asked, ScopeHead(v, f)), answer, Sentence(v.u, WithoutHead(v.u, Text(f, Reason))),
             ScopeNames(f), Of(f, Reason));
  }

  lemma CostShows(v: Style, f: Fields)
    requires Speaks(v)
    ensures Shows(v, CostSummary(v, f), CostShown(f))
  {
    var why := Sentence(v.u, WithoutHead(v.u, Text(f, Reason)));
    if Text(f, State) == "not_available" {
      AskedShows(v, f, CostFor, Unavailable);
      CostNoteShows(v, f, Put(After(v, CostFor, ScopeHead(v, f)), v.say(Unavailable), why),
                    ScopeNames(f) + Of(f, Reason));
    } else if Text(f, State) != "measured" {
      AskedShows(v, f, CostFor, Unmeasured);
      CostNoteShows(v, f, Put(After(v, CostFor, ScopeHead(v, f)), v.say(Unmeasured), why),
                    ScopeNames(f) + Of(f, Reason));
    } else {
      var shown := CostFigures(f) + Of(f, Reason) + MoreOf(f, LeftOut) + Of(f, PriceLabel);
      CostPartsShow(v, f);
      SpacedShows(v, CostParts(v, f), shown);
      CostNoteShows(v, f, Spaced(v, CostParts(v, f)), shown);
    }
  }

  function TimeHead(v: Style, f: Fields): string {
    if Text(f, Scope) != "project" then ScopeHead(v, f)
    else Put(ScopeHead(v, f), v.say(Across), Plural(v, Text(f, FeatureCount), OneFeature, ManyFeatures))
  }

  lemma TimeHeadShows(v: Style, f: Fields)
    requires Speaks(v)
    ensures Shows(v, TimeHead(v, f),
                  if Text(f, Scope) == "project" then ScopeNames(f) + Of(f, FeatureCount) else ScopeNames(f))
  {
    var counted := Plural(v, Text(f, FeatureCount), OneFeature, ManyFeatures);
    ScopeHeadShows(v, f);
    if Text(f, Scope) == "project" {
      PluralShows(v, Text(f, FeatureCount), OneFeature, ManyFeatures);
      PutShows(v, ScopeHead(v, f), Across, counted, ScopeNames(f), Of(f, FeatureCount));
    }
  }

  lemma TimeFirstShows(v: Style, f: Fields)
    requires Speaks(v)
    ensures Shows(v, TimeFirst(v, f), TimeFigures(f))
  {
    var head := if Text(f, Scope) == "project" then ScopeNames(f) + Of(f, FeatureCount) else ScopeNames(f);
    var timed, shown := Put(TimeHead(v, f), v.say(Colon), Text(f, Elapsed)), head + Of(f, Elapsed);
    TimeHeadShows(v, f);
    PutField(v, TimeHead(v, f), Colon, Text(f, Elapsed), head);
    EndShows(v, timed, ElapsedWord, shown);
    EndShows(v, End(timed, v.say(ElapsedWord)), SoFarWords, shown);
    var soFar := if Text(f, SoFar) == "" then End(timed, v.say(ElapsedWord))
                 else End(End(timed, v.say(ElapsedWord)), v.say(SoFarWords));
    PutField(v, soFar, OfWhich, Text(f, Machine), shown);
    var worked := Put(soFar, v.say(OfWhich), Text(f, Machine));
    PutField(v, worked, MachineTime, Text(f, Waiting), shown + Of(f, Machine));
    EndShows(v, Put(worked, v.say(MachineTime), Text(f, Waiting)), WaitingStop, TimeFigures(f));
  }

  lemma TimePartsShow(v: Style, f: Fields)
    requires Speaks(v)
    ensures PartsShow(v, TimeParts(v, f), TimeFigures(f) + Items(f, WaitingParts) + Of(f, Reason))
  {
    var first, waits := TimeFirst(v, f), Items(f, WaitingParts);
    TimeFirstShows(v, f);
    OneFigure(v.u, first);
    AddListing(v, [first], TimeFigures(f), LongestWaits, waits);
    var parts := if waits == [] then [first]
                 else Add([first], After(v, LongestWaits, Sentence(v.u, Listing(v, waits))));
    AddSentence(v, parts, TimeFigures(f) + waits, Text(f, Reason));
  }

  lemma TimeShows(v: Style, f: Fields)
    requires Speaks(v)
    ensures Shows(v, TimeSummary(v, f), TimeShown(f))
  {
    if Text(f, State) != "measured" {
      AskedShows(v, f, TimeFor, Unmeasured);
      StaleShows(v, f, Put(After(v, TimeFor, ScopeHead(v, f)), v.say(Unmeasured),
                           Sentence(v.u, WithoutHead(v.u, Text(f, Reason)))), ScopeNames(f) + Of(f, Reason));
    } else {
      var shown := TimeFigures(f) + Items(f, WaitingParts) + Of(f, Reason);
      TimePartsShow(v, f);
      SpacedShows(v, TimeParts(v, f), shown);
      StaleShows(v, f, Spaced(v, TimeParts(v, f)), shown);
    }
  }

  // --- when nothing, or more than one, was found ---

  function KindText(v: Style, f: Fields): string {
    if Text(f, Kind) == "" then Fixed(v, RecordWord) else Text(f, Kind)
  }

  lemma KindShows(v: Style, f: Fields, p: Phrase)
    requires Speaks(v)
    ensures Shows(v, After(v, p, KindText(v, f)), Of(f, Kind))
  {
    ShowsItself(v, Text(f, Kind));
    if Text(f, Kind) == "" {
      SpokenShowsNone(v, RecordWord);
      EmptyShowsNone(v, Fixed(v, RecordWord), [], Text(f, Kind));
      NothingMore(Of(f, Kind));
    }
    AfterShows(v, p, KindText(v, f), Of(f, Kind));
  }

  lemma NotFoundShows(v: Style, f: Fields)
    requires Speaks(v)
    ensures Shows(v, NotFoundAnswer(v, f), Of(f, Kind) + Of(f, Name))
  {
    var name := Text(f, Name);
    KindShows(v, f, CouldNotFindThat);
    KindShows(v, f, CouldNotFind);
    if name == "" {
      EndShows(v, After(v, CouldNotFindThat, KindText(v, f)), Stop, Of(f, Kind));
      EmptyShowsNone(v, NotFoundAnswer(v, f), Of(f, Kind), name);
    } else {
      var found := After(v, CouldNotFind, KindText(v, f));
      PutField(v, found, Matching, name, Of(f, Kind));
      EndShows(v, Put(found, v.say(Matching), name), QuoteStop, Of(f, Kind) + Of(f, Name));
    }
  }

  lemma TailShows(v: Style, f: Fields, text: string, shown: seq<string>)
    requires Speaks(v) && Shows(v, text, shown)
    ensures Shows(v, WithTail(v, f, text), shown + MoreOf(f, More))
  {
    var more := Text(f, More);
    if more == "" {
      EmptyShowsNone(v, text, shown, more);
    } else if more == "0" {
      NothingMore(shown);
    } else {
      PutField(v, text, AndMore, more, shown);
      EndShows(v, Put(text, v.say(AndMore), more), MoreClosing, shown + [more]);
    }
  }

  function NearlyHead(v: Style, f: Fields): string {
    var found, name := After(v, CouldNotFind, KindText(v, f)), Text(f, Name);
    if name == "" then End(found, v.say(MatchingThat)) else End(Put(found, v.say(Matching), name), v.say(QuoteExactly))
  }

  lemma NearlyHeadShows(v: Style, f: Fields)
    requires Speaks(v)
    ensures Shows(v, NearlyHead(v, f), Of(f, Kind) + Of(f, Name))
  {
    var found, name := After(v, CouldNotFind, KindText(v, f)), Text(f, Name);
    KindShows(v, f, CouldNotFind);
    if name == "" {
      EndShows(v, found, MatchingThat, Of(f, Kind));
      EmptyShowsNone(v, End(found, v.say(MatchingThat)), Of(f, Kind), name);
    } else {
      PutField(v, found, Matching, name, Of(f, Kind));
      EndShows(v, Put(found, v.say(Matching), name), QuoteExactly, Of(f, Kind) + Of(f, Name));
    }
  }

  lemma NearlyShows(v: Style, f: Fields)
    requires Speaks(v) && Text(f, Partial) != ""
    ensures Shows(v, AmbiguousAnswer(v, f), AmbiguousShown(f))
  {
    var items, shown := Items(f, Listed), Of(f, Kind) + Of(f, Name);
    var text := Put(NearlyHead(v, f), v.say(DidYouMean), Choices(v, items));
    NearlyHeadShows(v, f);
    JoinShows(v, Then, ThenOr, items);
    PutShows(v, NearlyHead(v, f), DidYouMean, Choices(v, items), shown, items);
    TailShows(v, f, text, shown + items);
    EndShows(v, WithTail(v, f, text), Question, AmbiguousShown(f));
  }

  function WhatMatched(v: Style, f: Fields): string {
    if Text(f, Name) == "" then Fixed(v, ThatName) else End(After(v, Quote, Text(f, Name)), v.say(Unquote))
  }

  lemma WhatMatchedShows(v: Style, f: Fields)
    requires Speaks(v)
    ensures Shows(v, WhatMatched(v, f), Of(f, Name))
  {
    var name := Text(f, Name);
    if name == "" {
      SpokenShowsNone(v, ThatName);
      EmptyShowsNone(v, Fixed(v, ThatName), [], name);
      NothingMore(Of(f, Name));
    } else {
      AfterField(v, Quote, name);
      EndShows(v, After(v, Quote, name), Unquote, Of(f, Name));
    }
  }

  lemma SeveralShow(v: Style, f: Fields)
    requires Speaks(v) && Text(f, Partial) == ""
    ensures Shows(v, AmbiguousAnswer(v, f), AmbiguousShown(f))
  {
    var items, what := Items(f, Listed), WhatMatched(v, f);
    var counted := Put(Text(f, Count), v.say(Space), Text(f, Kind));
    var matched := Put(counted, v.say(SMatch), what);
    var shown := Of(f, Count) + Of(f, Kind) + Of(f, Name);
    ShowsItself(v, Text(f, Count));
    PutField(v, Text(f, Count), Space, Text(f, Kind), Of(f, Count));
    WhatMatchedShows(v, f);
    PutShows(v, counted, SMatch, what, Of(f, Count) + Of(f, Kind), Of(f, Name));
    JoinShows(v, Then, ThenAnd, items);
    PutShows(v, matched, Colon, Listing(v, items), shown, items);
    TailShows(v, f, Put(matched, v.say(Colon), Listing(v, items)), shown + items);
    EndShows(v, WithTail(v, f, Put(matched, v.say(Colon), Listing(v, items))), WhichOne, AmbiguousShown(f));
  }

  lemma NoScopeShows(v: Style, f: Fields, query: Query)
    requires Speaks(v)
    ensures Shows(v, Render(v, query, NoScope, f), [])
  {
    var word := if Text(f, What) == "cost" then CostWord else TimeWord;
    SpokenShowsNone(v, word);
    AfterShows(v, WhichScope, Fixed(v, word), []);
    EndShows(v, After(v, WhichScope, Fixed(v, word)), OneAtATime, []);
  }

  /** The figures of an answer are those of the fields it shows, field by field in the order it shows them: none is left
  out, none comes twice, and none is added. */
  lemma FiguresAreThoseShown(v: Style, query: Query, status: Status, f: Fields)
    requires Speaks(v)
    ensures FindAll(v.u, Render(v, query, status, f)) == Figures(v.u, FieldsShown(query, status, f))
  {
    match status
    case NotFound => NotFoundShows(v, f);
    case Ambiguous =>
      if Text(f, Partial) != "" {
        NearlyShows(v, f);
      } else {
        SeveralShow(v, f);
      }
    case BadPeriod => SpokenShowsNone(v, BadDates);
    case NotMeasured => SpokenShowsNone(v, if Text(f, What) == "cost" then CostUnmeasured else TimeUnmeasured);
    case NoScope => NoScopeShows(v, f, query);
    case Found =>
      match query {
        case FeatureStatusQuery => FeatureStatusShows(v, f);
        case ProjectQuery => ProjectSummaryShows(v, f);
        case IssuesQuery => OpenIssuesShows(v, f);
        case DeliveredQuery => DeliveredShows(v, f);
        case WeeklyQuery => WeeklyShows(v, f);
        case CostQuery => CostShows(v, f);
        case TimeQuery => TimeShows(v, f);
      }
  }
}
