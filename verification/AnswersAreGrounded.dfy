/** Every answer passes the run-time check on its figures (backend/chat/answers.py, backend/chat/grounding.py 152-175,
backend/chat/service.py 226), whatever the record holds. A property of texts that putting answers together keeps, and
that every field has, is shown to hold of every answer; the check on figures is such a property. */
module AnswersAreGrounded {
  import opened Basics
  import opened Grounding
  import opened AnswerTemplates

  type Property = string -> bool

  ghost predicate All(g: Property, parts: seq<string>) {
    forall i :: 0 <= i < |parts| ==> g(parts[i])
  }

  /** What putting answers together keeps. */
  ghost predicate Keeps(v: Style, g: Property) {
    && g("")
    && (forall before, p, field :: g(before) && g(field) ==> g(Put(before, v.say(p), field)))
    && (forall before, p :: g(before) ==> g(End(before, v.say(p))))
    && (forall text :: g(text) ==> g(Sentence(v.u, text)))
    && (forall text :: g(text) ==> g(Strip(v.u, text)))
    && (forall text :: g(text) ==> g(StripStops(text)))
    && (forall text :: g(text) ==> g(Capital(v.u, text)))
    && (forall text :: g(text) ==> g(WithoutHead(v.u, text)))
    && (forall parts :: All(g, parts) ==> g(Listing(v, parts)))
    && (forall parts :: All(g, parts) ==> g(Choices(v, parts)))
    && (forall parts :: All(g, parts) ==> g(Spaced(v, parts)))
    && (forall parts :: All(g, parts) ==> All(g, NonEmpty(parts)))
    && (forall p :: g(v.say(p)))
  }

  ghost predicate HoldsOfFields(g: Property, f: Fields) {
    && (forall key :: g(Text(f, key)))
    && (forall key :: All(g, Items(f, key)))
    && (forall row: map<Key, Option<string>>, key ::
          row in f.rows && key in row && row[key].Some? ==> g(row[key].value))
  }

  lemma StaleKeeps(v: Style, g: Property, f: Fields, text: string)
    requires Keeps(v, g) && HoldsOfFields(g, f) && g(text)
    ensures g(WithStale(v, f, text))
  {
  }

  lemma AddKeeps(g: Property, parts: seq<string>, part: string)
    requires All(g, parts) && g(part)
    ensures All(g, Add(parts, part))
  {
  }

  lemma BothKeep(g: Property, first: seq<string>, second: seq<string>)
    requires All(g, first) && All(g, second)
    ensures All(g, Both(first, second))
  {
  }

  lemma HowItStandsKeeps(v: Style, g: Property, f: Fields)
    requires Keeps(v, g) && HoldsOfFields(g, f)
    ensures All(g, HowItStands(v, f))
  {
    assert g(FeatureHead(v, f));
  }

  lemma VerdictKeeps(v: Style, g: Property, f: Fields)
    requires Keeps(v, g) && HoldsOfFields(g, f)
    ensures g(VerdictText(v, f))
  {
  }

  lemma FeatureStatusKeeps(v: Style, g: Property, f: Fields)
    requires Keeps(v, g) && HoldsOfFields(g, f)
    ensures g(FeatureStatus(v, f))
  {
    var effort := Effort(v, f);
    HowItStandsKeeps(v, g, f);
    VerdictKeeps(v, g, f);
    var parts := Add(Add(HowItStands(v, f), VerdictText(v, f)), effort);
    AddKeeps(g, HowItStands(v, f), VerdictText(v, f));
    AddKeeps(g, Add(HowItStands(v, f), VerdictText(v, f)), effort);
    var issues := Items(f, OpenIssueList);
    if issues != [] {
      AddKeeps(g, parts, After(v, OpenIssuesAre, Sentence(v.u, Listing(v, issues))));
      parts := Add(parts, After(v, OpenIssuesAre, Sentence(v.u, Listing(v, issues))));
    }
    if Text(f, MissionLine) != "" {
      AddKeeps(g, parts, Sentence(v.u, Text(f, MissionLine)));
      parts := Add(parts, Sentence(v.u, Text(f, MissionLine)));
    }
    AddKeeps(g, parts, Sentence(v.u, Text(f, Cost)));
    StaleKeeps(v, g, f, Spaced(v, Add(parts, Sentence(v.u, Text(f, Cost)))));
  }

  lemma ProjectIssuesKeeps(v: Style, g: Property, f: Fields)
    requires Keeps(v, g) && HoldsOfFields(g, f)
    ensures All(g, ProjectIssues(v, f))
  {
  }

  lemma ProjectSummaryKeeps(v: Style, g: Property, f: Fields)
    requires Keeps(v, g) && HoldsOfFields(g, f)
    ensures g(ProjectSummary(v, f))
  {
    ProjectIssuesKeeps(v, g, f);
    var parts := ProjectParts(v, f);
    ProjectPartsKeep(v, g, f);
    BothKeep(g, parts, ProjectIssues(v, f));
    AddKeeps(g, Both(parts, ProjectIssues(v, f)), Sentence(v.u, Text(f, Cost)));
    StaleKeeps(v, g, f, Spaced(v, NonEmpty(Add(Both(parts, ProjectIssues(v, f)), Sentence(v.u, Text(f, Cost))))));
  }

  lemma ProjectPartsKeep(v: Style, g: Property, f: Fields)
    requires Keeps(v, g) && HoldsOfFields(g, f)
    ensures All(g, ProjectParts(v, f))
  {
  }

  lemma PlanAndIssuesKeeps(v: Style, g: Property, f: Fields)
    requires Keeps(v, g) && HoldsOfFields(g, f)
    ensures All(g, PlanAndIssues(v, f))
  {
  }

  lemma WeeklyPartsKeep(v: Style, g: Property, f: Fields)
    requires Keeps(v, g) && HoldsOfFields(g, f)
    ensures All(g, WeeklyParts(v, f))
  {
  }

  lemma WeeklyKeeps(v: Style, g: Property, f: Fields)
    requires Keeps(v, g) && HoldsOfFields(g, f)
    ensures g(WeeklyReport(v, f))
  {
    if Text(f, Withheld) == "" {
      WeeklyPartsKeep(v, g, f);
      PlanAndIssuesKeeps(v, g, f);
      BothKeep(g, WeeklyParts(v, f), PlanAndIssues(v, f));
      AddKeeps(g, Both(WeeklyParts(v, f), PlanAndIssues(v, f)), Sentence(v.u, Text(f, Cost)));
    }
  }

  lemma CostPartsKeep(v: Style, g: Property, f: Fields)
    requires Keeps(v, g) && HoldsOfFields(g, f)
    ensures All(g, CostParts(v, f))
  {
    var parts := [CostFirst(v, f)];
    if Text(f, Reason) != "" {
      AddKeeps(g, parts, Sentence(v.u, Text(f, Reason)));
      parts := Add(parts, Sentence(v.u, Text(f, Reason)));
    }
    var out := Text(f, LeftOut);
    var left := End(After(v, LeavesOut, out), v.say(if out == "1" then FeatureUntagged else FeaturesUntagged));
    if out != "" && out != "0" {
      AddKeeps(g, parts, left);
      parts := Add(parts, left);
    }
    if Text(f, PriceLabel) != "" {
      AddKeeps(g, parts, Sentence(v.u, Text(f, PriceLabel)));
    }
  }

  lemma CostNoteKeeps(v: Style, g: Property, f: Fields, text: string)
    requires Keeps(v, g) && HoldsOfFields(g, f) && g(text)
    ensures g(WithStale(v, f, WithCostNote(v, f, text)))
  {
    StaleKeeps(v, g, f, WithCostNote(v, f, text));
  }

  lemma CostKeeps(v: Style, g: Property, f: Fields)
    requires Keeps(v, g) && HoldsOfFields(g, f)
    ensures g(CostSummary(v, f))
  {
    var why := Sentence(v.u, WithoutHead(v.u, Text(f, Reason)));
    var asked := After(v, CostFor, ScopeHead(v, f));
    CostPartsKeep(v, g, f);
    CostNoteKeeps(v, g, f, Put(asked, v.say(Unavailable), why));
    CostNoteKeeps(v, g, f, Put(asked, v.say(Unmeasured), why));
    CostNoteKeeps(v, g, f, Spaced(v, CostParts(v, f)));
  }

  lemma TimeFirstKeeps(v: Style, g: Property, f: Fields)
    requires Keeps(v, g) && HoldsOfFields(g, f)
    ensures g(TimeFirst(v, f))
  {
    assert g(ScopeHead(v, f));
  }

  lemma TimePartsKeep(v: Style, g: Property, f: Fields)
    requires Keeps(v, g) && HoldsOfFields(g, f)
    ensures All(g, TimeParts(v, f))
  {
    TimeFirstKeeps(v, g, f);
    var waits, parts := Items(f, WaitingParts), [TimeFirst(v, f)];
    if waits != [] {
      var longest := After(v, LongestWaits, Sentence(v.u, Listing(v, waits)));
      AddKeeps(g, parts, longest);
      parts := Add(parts, longest);
    }
    if Text(f, Reason) != "" {
      AddKeeps(g, parts, Sentence(v.u, Text(f, Reason)));
    }
  }

  lemma TimeKeeps(v: Style, g: Property, f: Fields)
    requires Keeps(v, g) && HoldsOfFields(g, f)
    ensures g(TimeSummary(v, f))
  {
    TimePartsKeep(v, g, f);
    var asked := After(v, TimeFor, ScopeHead(v, f));
    StaleKeeps(v, g, f, Put(asked, v.say(Unmeasured), Sentence(v.u, WithoutHead(v.u, Text(f, Reason)))));
    StaleKeeps(v, g, f, Spaced(v, TimeParts(v, f)));
  }

  lemma AmbiguousKeeps(v: Style, g: Property, f: Fields)
    requires Keeps(v, g) && HoldsOfFields(g, f)
    ensures g(AmbiguousAnswer(v, f))
  {
  }

  lemma NotFoundKeeps(v: Style, g: Property, f: Fields)
    requires Keeps(v, g) && HoldsOfFields(g, f)
    ensures g(NotFoundAnswer(v, f))
  {
  }

  lemma DeliveredKeeps(v: Style, g: Property, f: Fields)
    requires Keeps(v, g) && HoldsOfFields(g, f)
    ensures g(DeliveredAnswer(v, f))
  {
    assert All(g, DeliveredRows(v, f.rows));
  }

  lemma IssueRowsKeep(v: Style, g: Property, f: Fields)
    requires Keeps(v, g) && HoldsOfFields(g, f)
    ensures All(g, IssueRows(v, f.rows))
  {
  }

  lemma OpenIssuesKeeps(v: Style, g: Property, f: Fields)
    requires Keeps(v, g) && HoldsOfFields(g, f)
    ensures g(OpenIssuesAnswer(v, f))
  {
    IssueRowsKeep(v, g, f);
    IssuesTextKeeps(v, g, f);
    StaleKeeps(v, g, f, IssuesText(v, f));
  }

  lemma IssuesTextKeeps(v: Style, g: Property, f: Fields)
    requires Keeps(v, g) && HoldsOfFields(g, f) && All(g, IssueRows(v, f.rows))
    ensures g(IssuesText(v, f))
  {
    assert g(IssuesHead(v, f)) && g(Hidden(v, f));
  }

  /** A property that putting answers together keeps, and every field has, every answer has. */
  lemma EveryAnswerHasIt(v: Style, g: Property, query: Query, status: Status, f: Fields)
    requires Keeps(v, g) && HoldsOfFields(g, f)
    ensures g(Render(v, query, status, f))
  {
    match status
    case NotFound => NotFoundKeeps(v, g, f);
    case Ambiguous => AmbiguousKeeps(v, g, f);
    case Found =>
      match query {
        case FeatureStatusQuery => FeatureStatusKeeps(v, g, f);
        case ProjectQuery => ProjectSummaryKeeps(v, g, f);
        case IssuesQuery => OpenIssuesKeeps(v, g, f);
        case DeliveredQuery => DeliveredKeeps(v, g, f);
        case WeeklyQuery => WeeklyKeeps(v, g, f);
        case CostQuery => CostKeeps(v, g, f);
        case TimeQuery => TimeKeeps(v, g, f);
      }
    case _ =>
  }

  // --- the check on figures ---

  /** `_strings` of the fields: every text in them. */
  predicate IsText(f: Fields, s: string) {
    || (exists key :: key in f.texts && f.texts[key] == s)
    || (exists key, i :: key in f.lists && 0 <= i < |f.lists[key]| && f.lists[key][i] == s)
    || (exists i, key :: 0 <= i < |f.rows| && key in f.rows[i] && f.rows[i][key] == Some(s))
  }

  /** The digit runs of the fields, and nothing else. */
  ghost predicate RunsOf(u: Unicode, f: Fields, known: set<string>) {
    forall run :: run in known <==> exists s :: IsText(f, s) && run in FindAll(u, s)
  }

  /** `ungrounded_figures`. */
  function Ungrounded(u: Unicode, text: string, known: set<string>): seq<string> {
    Unknown(FindAll(u, text), known)
  }

  function Unknown(runs: seq<string>, known: set<string>): seq<string> {
    if runs == [] then []
    else Unknown(runs[..|runs| - 1], known) + if runs[|runs| - 1] in known then [] else [runs[|runs| - 1]]
  }

  lemma {:induction false} NoneUnknown(runs: seq<string>, known: set<string>)
    ensures Unknown(runs, known) == [] <==> AllIn(runs, known)
  {
    if runs != [] {
      NoneUnknown(runs[..|runs| - 1], known);
    }
  }

  lemma {:induction false} UnknownAre(runs: seq<string>, known: set<string>)
    ensures forall run :: run in Unknown(runs, known) <==> run in runs && run !in known
  {
    if runs != [] {
      var n := |runs| - 1;
      UnknownAre(runs[..n], known);
      assert runs == runs[..n] + [runs[n]];
    }
  }

  /** What the scan finds are the runs of digits of the text. */
  lemma FoundIsRun(u: Unicode, text: string, run: string)
    ensures run in FindAll(u, text) <==> exists i, j :: IsRun(u, text, i, j) && text[i..j] == run
  {
    var found := FindAll(u, text);
    var all := set x | x in found;
    FindAllFindsTheRuns(u, text, all);
    FindAllFindsTheRuns(u, text, all - {run});
    assert AllIn(found, all);
    if !exists i, j :: IsRun(u, text, i, j) && text[i..j] == run {
      assert Known(u, text, all - {run});
    }
  }

  /** The check returns exactly the runs of digits of the answer that no field has; so it returns nothing if and only if
  every figure of the answer is a field's. */
  lemma CheckFindsEveryFigure(u: Unicode, text: string, known: set<string>)
    ensures Ungrounded(u, text, known) == [] <==> Known(u, text, known)
    ensures forall run :: run in Ungrounded(u, text, known) <==>
      run !in known && exists i, j :: IsRun(u, text, i, j) && text[i..j] == run
  {
    FindAllFindsTheRuns(u, text, known);
    NoneUnknown(FindAll(u, text), known);
    UnknownAre(FindAll(u, text), known);
    forall run ensures run in FindAll(u, text) <==> exists i, j :: IsRun(u, text, i, j) && text[i..j] == run {
      FoundIsRun(u, text, run);
    }
  }

  /** The phrases hold no digit. */
  ghost predicate PlainSpoken(v: Style) {
    forall p :: Plain(v.u, v.say(p))
  }

  lemma FieldsAreKnown(v: Style, f: Fields, known: set<string>, s: string)
    requires RunsOf(v.u, f, known) && IsText(f, s)
    ensures Known(v.u, s, known)
  {
    var runs := FindAll(v.u, s);
    forall i | 0 <= i < |runs| ensures runs[i] in known {
      assert runs[i] in runs;
    }
    FindAllFindsTheRuns(v.u, s, known);
  }

  lemma KnownIsKept(v: Style, known: set<string>, g: Property)
    requires Sane(v.u) && PlainSpoken(v) && forall s :: g(s) <==> Known(v.u, s, known)
    ensures Keeps(v, g)
  {
    PlainIsKnown(v.u, "", known);
    forall before, p, field | g(before) && g(field) ensures g(Put(before, v.say(p), field)) {
      PutIsKnown(v.u, before, v.say(p), field, known);
    }
    forall before, p | g(before) ensures g(End(before, v.say(p))) {
      EndIsKnown(v.u, before, v.say(p), known);
    }
    forall text | g(text)
      ensures g(Sentence(v.u, text)) && g(Strip(v.u, text)) && g(StripStops(text)) && g(Capital(v.u, text))
      ensures g(WithoutHead(v.u, text))
    {
      SentenceIsKnown(v.u, text, known);
      StripIsKnown(v.u, text, known);
      StripStopsIsKnown(v.u, text, known);
      CapitalIsKnown(v.u, text, known);
      WithoutHeadIsKnown(v.u, text, known);
    }
    ListsAreKept(v, known, g);
    forall p ensures g(v.say(p)) {
      PlainIsKnown(v.u, v.say(p), known);
    }
  }

  lemma ListsAreKept(v: Style, known: set<string>, g: Property)
    requires PlainSpoken(v) && forall s :: g(s) <==> Known(v.u, s, known)
    ensures forall parts :: All(g, parts) ==>
      g(Listing(v, parts)) && g(Choices(v, parts)) && g(Spaced(v, parts)) && All(g, NonEmpty(parts))
  {
    forall parts | All(g, parts)
      ensures g(Listing(v, parts)) && g(Choices(v, parts)) && g(Spaced(v, parts)) && All(g, NonEmpty(parts))
    {
      assert AllKnown(v.u, parts, known);
      JoinIsKnown(v.u, v.say(Then), v.say(ThenAnd), parts, known);
      JoinIsKnown(v.u, v.say(Then), v.say(ThenOr), parts, known);
      JoinAllIsKnown(v.u, v.say(Space), parts, known);
      NonEmptyAreKnown(v.u, parts, known);
    }
  }

  /** `figures_grounded(render(result), result.fields)`: no answer holds a figure that is not one of its fields'. */
  lemma EveryAnswerIsGrounded(v: Style, query: Query, status: Status, f: Fields, known: set<string>)
    requires Sane(v.u) && PlainSpoken(v) && RunsOf(v.u, f, known)
    ensures Ungrounded(v.u, Render(v, query, status, f), known) == []
  {
    ghost var g: Property := s => Known(v.u, s, known);
    KnownIsKept(v, known, g);
    TextsAreKnown(v, f, known, g);
    EveryAnswerHasIt(v, g, query, status, f);
    var text := Render(v, query, status, f);
    FindAllFindsTheRuns(v.u, text, known);
    NoneUnknown(FindAll(v.u, text), known);
  }

  lemma TextsAreKnown(v: Style, f: Fields, known: set<string>, g: Property)
    requires RunsOf(v.u, f, known) && forall s :: g(s) <==> Known(v.u, s, known)
    ensures HoldsOfFields(g, f)
  {
    PlainIsKnown(v.u, "", known);
    forall key ensures g(Text(f, key)) {
      if key in f.texts {
        FieldsAreKnown(v, f, known, f.texts[key]);
      }
    }
    forall key ensures All(g, Items(f, key)) {
      if key in f.lists {
        forall i | 0 <= i < |f.lists[key]| ensures g(f.lists[key][i]) {
          FieldsAreKnown(v, f, known, f.lists[key][i]);
        }
      }
    }
    forall row: map<Key, Option<string>>, key | row in f.rows && key in row && row[key].Some?
      ensures g(row[key].value)
    {
      var i :| 0 <= i < |f.rows| && f.rows[i] == row;
      FieldsAreKnown(v, f, known, row[key].value);
    }
  }
}
