/**
 * The dashboard's assistant card. It does not ask the backend: a keyword
 * router picks one of four canned answers built from the project list, and
 * the focus answer sorts that list in place, newest first. Parsing an
 * `updatedAt` string into a time (`new Date(s).getTime()`) and formatting it
 * for the locale (`toLocaleDateString()`) are the parameters `timeOf` and
 * `formatDate`.
 */
module DashboardQA {
  import opened Wrappers
  import opened Text
  import opened Types
  import opened Lists

  /**
   * The text of a canned answer: which template it is and the values filled
   * into it. `Render` spells the fixed prose around them out.
   */
  datatype AnswerText =
    | GettingStartedText
    | FocusText(name: string, lastUpdated: string)
    | ProgressText(count: nat, overview: string)
    | PrioritizeText(count: nat)
    | GeneralText(count: nat)

  /** A canned answer: the text and its follow-up questions. */
  datatype Answer = Answer(text: AnswerText, suggestions: seq<string>)

  /** The four branches of the router. */
  datatype Route = Focus | Progress | Prioritize | General

  /**
   * The route of a query: its lower-cased text is searched for "focus" or
   * "today" first, then "progress", then "priorit"; anything else is general.
   */
  function RouteOf(query: string): (r: Route)
    ensures var q := ToLower(query);
      && (r == Focus <==> Contains(q, "focus") || Contains(q, "today"))
      && (r == Progress <==> !Contains(q, "focus") && !Contains(q, "today") && Contains(q, "progress"))
      && (r == Prioritize <==>
            !Contains(q, "focus") && !Contains(q, "today") && !Contains(q, "progress") && Contains(q, "priorit"))
  {
    var q := ToLower(query);
    if Contains(q, "focus") || Contains(q, "today") then Focus
    else if Contains(q, "progress") then Progress
    else if Contains(q, "priorit") then Prioritize
    else General
  }

  /** Routing ignores letter case (of ASCII letters). */
  lemma RouteIgnoresCase(query: string)
    ensures RouteOf(ToLower(query)) == RouteOf(query)
  {
    ToLowerIdempotent(query);
  }

  /** The plural suffix of "project". */
  function Plural(n: nat): (s: string)
    ensures s == "s" <==> n != 1
    ensures s == "" <==> n == 1
  {
    if n != 1 then "s" else ""
  }

  /** `summaryBanner || 'Getting started'`. */
  function BannerOrDefault(p: Project): (s: string)
    ensures s != ""
    ensures p.summaryBanner != "" ==> s == p.summaryBanner
    ensures p.summaryBanner == "" ==> s == "Getting started"
  {
    if Truthy(p.summaryBanner) then p.summaryBanner else "Getting started"
  }

  function OverviewLine(p: Project): string {
    "\U{2022} " + p.name + ": " + BannerOrDefault(p)
  }

  /** One overview line for each of the first three projects at most, in list order. */
  function OverviewLines(projects: seq<Project>): (lines: seq<string>)
    ensures |lines| == if |projects| < 3 then |projects| else 3
    ensures forall i :: 0 <= i < |lines| ==> lines[i] == OverviewLine(projects[i])
  {
    var shown := if |projects| < 3 then projects else projects[..3];
    seq(|shown|, i requires 0 <= i < |shown| => OverviewLine(shown[i]))
  }

  /** `lines.join(separator)`. */
  function Join(lines: seq<string>, separator: string): (s: string)
    ensures |lines| == 0 ==> s == ""
    ensures |lines| == 1 ==> s == lines[0]
    ensures |lines| >= 2 ==> s == lines[0] + separator + Join(lines[1..], separator)
    decreases |lines|
  {
    if |lines| == 0 then ""
    else if |lines| == 1 then lines[0]
    else lines[0] + separator + Join(lines[1..], separator)
  }

  /**
   * Joining two non-empty lists of lines is joining each and putting one
   * separator between the two results, so the separator stands exactly
   * between neighbouring lines.
   */
  lemma {:induction false} JoinAppend(a: seq<string>, b: seq<string>, separator: string)
    requires |a| >= 1 && |b| >= 1
    ensures Join(a + b, separator) == Join(a, separator) + separator + Join(b, separator)
    decreases |a|
  {
    if |a| == 1 {
      assert (a + b)[0] == a[0] && (a + b)[1..] == b;
    } else {
      assert (a + b)[0] == a[0] && (a + b)[1..] == a[1..] + b;
      JoinAppend(a[1..], b, separator);
    }
  }

  /** The length of a join: every line plus one separator between each pair of neighbours. */
  lemma {:induction false} JoinLength(lines: seq<string>, separator: string)
    requires |lines| >= 1
    ensures |Join(lines, separator)| == TotalLength(lines) + (|lines| - 1) * |separator|
    decreases |lines|
  {
    if |lines| > 1 {
      var n, k := |lines|, |separator|;
      JoinLength(lines[1..], separator);
      assert |Join(lines, separator)| == |lines[0]| + k + |Join(lines[1..], separator)|;
      SeparatorCount(n, k);
    }
  }

  /**
   * One separator taken out of the count: the product step of `JoinLength`.
   * It is a lemma of its own so that the solver meets this nonlinear fact
   * without the sequence facts of `JoinLength` around it; written inline
   * there, the proof runs out of resources.
   */
  lemma SeparatorCount(n: int, k: int)
    ensures (n - 1) * k == k + (n - 2) * k
  {
  }

  /** The summed lengths of the lines. */
  function TotalLength(lines: seq<string>): nat {
    if lines == [] then 0 else |lines[0]| + TotalLength(lines[1..])
  }

  const GettingStarted: Answer := Answer(
    GettingStartedText,
    ["How do I create my first project?",
     "What makes a good project structure?",
     "Best practices for task management"])

  /** The focus answer names the most recently updated project and the date it was updated. */
  function FocusAnswer(name: string, date: string): (a: Answer)
    ensures a.text == FocusText(name, date)
    ensures |a.suggestions| == 3
    ensures a.suggestions[0] == "What's the status of " + name + "?"
  {
    Answer(FocusText(name, date),
      ["What's the status of " + name + "?",
       "What tasks should I prioritize?",
       "How can I improve my workflow?"])
  }

  /** The progress answer counts the projects and gives an overview of the first three. */
  function ProgressAnswer(projects: seq<Project>): (a: Answer)
    ensures a.text == ProgressText(|projects|, Join(OverviewLines(projects), "\n"))
    ensures |a.suggestions| == 3
  {
    Answer(ProgressText(|projects|, Join(OverviewLines(projects), "\n")),
      ["Which project needs attention?",
       "How do I set better milestones?",
       "Tips for staying on track"])
  }

  function PrioritizeAnswer(count: nat): (a: Answer)
    ensures a.text == PrioritizeText(count)
    ensures |a.suggestions| == 3
  {
    Answer(PrioritizeText(count),
      ["Show me overdue tasks",
       "How to handle multiple projects",
       "Time management strategies"])
  }

  function GeneralAnswer(count: nat): (a: Answer)
    ensures a.text == GeneralText(count)
    ensures |a.suggestions| == 3
  {
    Answer(GeneralText(count),
      ["What should I work on today?",
       "How can I be more productive?",
       "Best practices for project management"])
  }

  /** The full text shown for an answer. */
  function Render(t: AnswerText): string {
    match t
    case GettingStartedText =>
      "I notice you don't have any projects yet! Here's how to get started:\n\n"
      + "1. Click the 'Create Project' button to start your first project\n"
      + "2. Give it a meaningful name that reflects your goal\n"
      + "3. Start adding tasks and milestones to track your progress\n"
      + "4. Use the voice or text input to capture your ideas\n\n"
      + "Once you have projects, I can help you analyze progress, suggest priorities, and share best practices from successful teams."
    case FocusText(name, date) =>
      "Based on your recent activity, focus on \"" + name + "\" today. This project was last updated " + date + ".\n\n"
      + "Recommended actions:\n\U{2022} Review and update your task list\n\U{2022} Check upcoming milestones\n"
      + "\U{2022} Record any new ideas or progress\n\U{2022} Complete at least 2-3 tasks to maintain momentum"
    case ProgressText(count, overview) =>
      "You have " + NatToString(count) + " active project" + Plural(count) + ". Here's your overview:\n\n" + overview
      + "\n\nTo track detailed progress:\n1. Visit each project to see task completion rates\n"
      + "2. Review your milestones for upcoming deadlines\n3. Check insights from your idea recordings"
    case PrioritizeText(count) =>
      "Here's how to prioritize across your " + NatToString(count) + " project" + Plural(count) + ":\n\n"
      + "1. **Urgency Check**: Review each project's milestones for upcoming deadlines\n"
      + "2. **Recent Activity**: Projects not updated recently may need attention\n"
      + "3. **Task Status**: Focus on projects with many \"In Progress\" tasks\n"
      + "4. **Weekly Goals**: Set 2-3 key objectives per project\n\n"
      + "Pro tip: Use the Eisenhower Matrix - focus on important AND urgent tasks first."
    case GeneralText(count) =>
      "I can help you manage your " + NatToString(count) + " project" + Plural(count) + " more effectively. "
      + "Here are some ways I can assist:\n\n"
      + "\U{2022} Analyze project progress and suggest priorities\n"
      + "\U{2022} Share productivity tips and best practices\n"
      + "\U{2022} Help you plan your daily and weekly goals\n"
      + "\U{2022} Provide insights on project management strategies\n\n"
      + "Try asking me about specific projects or what you should focus on today!"
  }

  /** Newest first: no project is followed by one updated later. */
  ghost predicate NewestFirst(s: seq<Project>, timeOf: string -> int) {
    forall i, j :: 0 <= i < j < |s| ==> timeOf(s[i].updatedAt) >= timeOf(s[j].updatedAt)
  }

  /** The first `n` projects are newest first. */
  ghost predicate PrefixNewestFirst(s: seq<Project>, n: int, timeOf: string -> int)
    requires 0 <= n <= |s|
  {
    forall i, j :: 0 <= i < j < n ==> timeOf(s[i].updatedAt) >= timeOf(s[j].updatedAt)
  }

  /**
   * Half-way through inserting `s[j]` into the newest-first prefix
   * `s[..i+1]`: every pair not involving position `j` is in order, and the
   * neighbours of `j` are in order with each other.
   */
  ghost predicate Inserting(s: seq<Project>, i: int, j: int, timeOf: string -> int)
    requires 0 <= j <= i < |s|
  {
    && (forall m, n :: 0 <= m < n <= i && n != j ==> timeOf(s[m].updatedAt) >= timeOf(s[n].updatedAt))
    && (0 < j < i ==> timeOf(s[j - 1].updatedAt) >= timeOf(s[j + 1].updatedAt))
  }

  /** Moving the inserted project one place down past an older one keeps the insertion state. */
  lemma InsertingStep(s: seq<Project>, r: seq<Project>, i: int, j: int, timeOf: string -> int)
    requires 0 < j <= i < |s| && Inserting(s, i, j, timeOf)
    requires timeOf(s[j - 1].updatedAt) < timeOf(s[j].updatedAt)
    requires r == s[j - 1 := s[j]][j := s[j - 1]]
    ensures Inserting(r, i, j - 1, timeOf)
  {
  }

  /** The insertion stops at the front or behind a project updated no earlier: the prefix is one longer. */
  lemma InsertingDone(s: seq<Project>, i: int, j: int, timeOf: string -> int)
    requires 0 <= j <= i < |s| && Inserting(s, i, j, timeOf)
    requires j == 0 || timeOf(s[j - 1].updatedAt) >= timeOf(s[j].updatedAt)
    ensures PrefixNewestFirst(s, i + 1, timeOf)
  {
    forall m, n | 0 <= m < n <= i
      ensures timeOf(s[m].updatedAt) >= timeOf(s[n].updatedAt)
    {
      if n == j && m < j - 1 {
        assert timeOf(s[m].updatedAt) >= timeOf(s[j - 1].updatedAt);
      }
    }
  }

  /** `p => time(p) === t`: the projects updated at the time `t`. */
  function UpdatedAt(timeOf: string -> int, t: int): Project -> bool {
    (p: Project) => timeOf(p.updatedAt) == t
  }

  /**
   * Ties keep their order: for every time, the projects updated at that
   * time stand in `now` in the order they had in `before`.
   */
  ghost predicate TiesInOrder(now: seq<Project>, before: seq<Project>, timeOf: string -> int) {
    forall t :: Filter(now, UpdatedAt(timeOf, t)) == Filter(before, UpdatedAt(timeOf, t))
  }

  /** Keeping the ties in order is transitive. */
  lemma TiesInOrderTrans(a: seq<Project>, b: seq<Project>, c: seq<Project>, timeOf: string -> int)
    requires TiesInOrder(a, b, timeOf) && TiesInOrder(b, c, timeOf)
    ensures TiesInOrder(a, c, timeOf)
  {
    forall t
      ensures Filter(a, UpdatedAt(timeOf, t)) == Filter(c, UpdatedAt(timeOf, t))
    {
      assert Filter(a, UpdatedAt(timeOf, t)) == Filter(b, UpdatedAt(timeOf, t));
    }
  }

  /**
   * Exchanging two neighbours updated at different times keeps every group
   * of equally recent projects in the order it had in `orig`.
   */
  lemma SwapKeepsTies(s: seq<Project>, r: seq<Project>, j: int, orig: seq<Project>, timeOf: string -> int)
    requires 0 < j < |s| == |r|
    requires r == s[j - 1 := s[j]][j := s[j - 1]]
    requires timeOf(s[j - 1].updatedAt) != timeOf(s[j].updatedAt)
    requires TiesInOrder(s, orig, timeOf)
    ensures TiesInOrder(r, orig, timeOf)
  {
    var pre, x, y, post := s[..j - 1], s[j - 1], s[j], s[j + 1..];
    assert s == pre + [x, y] + post;
    assert r == pre + [y, x] + post;
    forall t
      ensures Filter(r, UpdatedAt(timeOf, t)) == Filter(orig, UpdatedAt(timeOf, t))
    {
      FilterSwap(pre, x, y, post, UpdatedAt(timeOf, t));
    }
  }

  /** Exchange two neighbours; everything else stays, and the contents are a permutation of the old ones. */
  method SwapDown(a: array<Project>, j: int)
    requires 0 < j < a.Length
    modifies a
    ensures a[..] == old(a[..])[j - 1 := old(a[j])][j := old(a[j - 1])]
    ensures multiset(a[..]) == multiset(old(a[..]))
  {
    a[j - 1], a[j] := a[j], a[j - 1];
  }

  /**
   * Move `a[i]` down past every element updated strictly earlier, so that
   * `a[..i+1]` is newest first; it stops at the first element updated no
   * earlier, so equally recent projects keep their order.
   */
  method InsertNewest(a: array<Project>, i: int, timeOf: string -> int)
    requires 0 <= i < a.Length
    requires PrefixNewestFirst(a[..], i, timeOf)
    modifies a
    ensures PrefixNewestFirst(a[..], i + 1, timeOf)
    ensures multiset(a[..]) == multiset(old(a[..]))
    ensures TiesInOrder(a[..], old(a[..]), timeOf)
  {
    var j := i;
    while j > 0 && timeOf(a[j - 1].updatedAt) < timeOf(a[j].updatedAt)
      invariant 0 <= j <= i
      invariant Inserting(a[..], i, j, timeOf)
      invariant multiset(a[..]) == multiset(old(a[..]))
      invariant TiesInOrder(a[..], old(a[..]), timeOf)
    {
      ghost var s := a[..];
      SwapDown(a, j);
      InsertingStep(s, a[..], i, j, timeOf);
      SwapKeepsTies(s, a[..], j, old(a[..]), timeOf);
      j := j - 1;
    }
    InsertingDone(a[..], i, j, timeOf);
  }

  /**
   * `projects.sort((a, b) => time(b) - time(a))`, which is stable: the array
   * is reordered in place into a permutation of itself, newest first, with
   * equally recent projects in their old order.
   */
  method SortNewestFirst(a: array<Project>, timeOf: string -> int)
    modifies a
    ensures NewestFirst(a[..], timeOf)
    ensures multiset(a[..]) == multiset(old(a[..]))
    ensures TiesInOrder(a[..], old(a[..]), timeOf)
  {
    var i := 0;
    while i < a.Length
      invariant 0 <= i <= a.Length
      invariant PrefixNewestFirst(a[..], i, timeOf)
      invariant multiset(a[..]) == multiset(old(a[..]))
      invariant TiesInOrder(a[..], old(a[..]), timeOf)
    {
      ghost var s := a[..];
      InsertNewest(a, i, timeOf);
      TiesInOrderTrans(a[..], s, old(a[..]), timeOf);
      i := i + 1;
    }
  }

  /** The newest-first head is updated no earlier than any project in the list. */
  lemma {:induction false} HeadIsNewest(s: seq<Project>, timeOf: string -> int)
    requires NewestFirst(s, timeOf) && |s| > 0
    ensures forall p :: p in s ==> timeOf(s[0].updatedAt) >= timeOf(p.updatedAt)
  {
    forall p | p in s
      ensures timeOf(s[0].updatedAt) >= timeOf(p.updatedAt)
    {
      var k :| 0 <= k < |s| && s[k] == p;
      if k > 0 {
        assert timeOf(s[0].updatedAt) >= timeOf(s[k].updatedAt);
      }
    }
  }

  /**
   * The answer of a route over a non-empty list; the focus route names the
   * list's first project, which the caller has put newest first.
   */
  function RoutedAnswer(route: Route, projects: seq<Project>, formatDate: string -> string): (a: Answer)
    requires |projects| > 0
    ensures |a.suggestions| == 3
    ensures route == Focus ==> a == FocusAnswer(projects[0].name, formatDate(projects[0].updatedAt))
    ensures route == Progress ==> a == ProgressAnswer(projects)
    ensures route == Prioritize ==> a == PrioritizeAnswer(|projects|)
    ensures route == General ==> a == GeneralAnswer(|projects|)
  {
    match route
    case Focus => FocusAnswer(projects[0].name, formatDate(projects[0].updatedAt))
    case Progress => ProgressAnswer(projects)
    case Prioritize => PrioritizeAnswer(|projects|)
    case General => GeneralAnswer(|projects|)
  }

  /**
   * The head of a stable newest-first sort is the first project of the old
   * list among the most recently updated ones: every project before it there
   * was updated strictly earlier.
   */
  lemma HeadIsFirstNewest(now: seq<Project>, before: seq<Project>, timeOf: string -> int)
    requires NewestFirst(now, timeOf) && multiset(now) == multiset(before) && TiesInOrder(now, before, timeOf)
    requires |now| > 0
    ensures exists k :: 0 <= k < |before| && before[k] == now[0] &&
                        forall i :: 0 <= i < k ==> timeOf(before[i].updatedAt) < timeOf(now[0].updatedAt)
  {
    var latest := UpdatedAt(timeOf, timeOf(now[0].updatedAt));
    assert Filter(now, latest) == [now[0]] + Filter(now[1..], latest);
    assert Filter(before, latest) == Filter(now, latest);
    FilterFirst(before, latest);
    var k :| 0 <= k < |before| && before[k] == Filter(before, latest)[0]
      && forall i :: 0 <= i < k ==> !latest(before[i]);
    HeadIsNewest(now, timeOf);
    forall i | 0 <= i < k
      ensures timeOf(before[i].updatedAt) < timeOf(now[0].updatedAt)
    {
      assert before[i] in multiset(now);
      assert !latest(before[i]);
    }
  }

  /**
   * What the focus route leaves in the list: a newest-first rearrangement of
   * the list it found, equally recent projects in their old order, whose
   * head was updated no earlier than any project that was in it and is the
   * first such project of the old list.
   */
  ghost predicate SortedForFocus(now: seq<Project>, before: seq<Project>, timeOf: string -> int) {
    && NewestFirst(now, timeOf)
    && multiset(now) == multiset(before)
    && TiesInOrder(now, before, timeOf)
    && (|now| > 0 ==>
          && (forall p :: p in before ==> timeOf(now[0].updatedAt) >= timeOf(p.updatedAt))
          && exists k :: 0 <= k < |before| && before[k] == now[0] &&
                           forall i :: 0 <= i < k ==> timeOf(before[i].updatedAt) < timeOf(now[0].updatedAt))
  }

  /**
   * `getMockDashboardResponse`: the routed answer. Only the focus route
   * touches the list, which it sorts in place (stably); it then names the
   * first project of the list among those updated most recently.
   */
  method MockResponse(query: string, projects: array<Project>, timeOf: string -> int,
                      formatDate: string -> string) returns (answer: Answer)
    requires projects.Length > 0
    modifies projects
    ensures answer == RoutedAnswer(RouteOf(query), projects[..], formatDate)
    ensures RouteOf(query) != Focus ==> projects[..] == old(projects[..])
    ensures RouteOf(query) == Focus ==> SortedForFocus(projects[..], old(projects[..]), timeOf)
  {
    var route := RouteOf(query);
    if route == Focus {
      SortNewestFirst(projects, timeOf);
      HeadIsNewest(projects[..], timeOf);
      HeadIsFirstNewest(projects[..], old(projects[..]), timeOf);
      forall p | p in old(projects[..])
        ensures p in projects[..]
      {
        assert p in multiset(old(projects[..]));
      }
    }
    answer := RoutedAnswer(route, projects[..], formatDate);
  }

  class Dashboard {
    const projects: array<Project>
    const timeOf: string -> int
    const formatDate: string -> string
    var question: string
    var answer: Option<Answer>
    var loading: bool
    var error: Option<string>

    constructor(projects: array<Project>, timeOf: string -> int, formatDate: string -> string)
      ensures this.projects == projects && this.timeOf == timeOf && this.formatDate == formatDate
      ensures question == "" && answer == None && !loading && error == None
    {
      this.projects := projects;
      this.timeOf := timeOf;
      this.formatDate := formatDate;
      question := "";
      answer := None;
      loading := false;
      error := None;
    }

    /** The text of an ask: the suggestion when one was clicked, the input otherwise (`q || question`). */
    function QueryText(q: Option<string>): string
      reads this
    {
      if Present(q) then q.value else question
    }

    /**
     * Ask. A blank query, or one while loading, changes nothing. Otherwise
     * the card ends with loading and error cleared and the canned answer:
     * the getting-started one for an empty list, the routed one (exactly
     * three follow-ups) otherwise. The input is cleared only when the query
     * came from a suggestion.
     */
    method HandleAskQuestion(q: Option<string>)
      modifies this, projects
      ensures Blank(old(QueryText(q))) || old(loading) ==>
        && question == old(question) && answer == old(answer) && loading == old(loading)
        && error == old(error) && projects[..] == old(projects[..])
      ensures !Blank(old(QueryText(q))) && !old(loading) ==>
        && !loading && error == None && answer.Some?
        && |answer.value.suggestions| == 3
        && (projects.Length == 0 ==> answer == Some(GettingStarted))
        && (projects.Length > 0 ==>
              answer == Some(RoutedAnswer(RouteOf(old(QueryText(q))), projects[..], formatDate)))
        && (Present(q) ==> question == "")
        && (!Present(q) ==> question == old(question))
        && (RouteOf(old(QueryText(q))) == Focus ==> SortedForFocus(projects[..], old(projects[..]), timeOf))
      ensures RouteOf(old(QueryText(q))) != Focus ==> projects[..] == old(projects[..])
      ensures multiset(projects[..]) == multiset(old(projects[..]))
    {
      var queryText := QueryText(q);
      if Blank(queryText) || loading {
        return;
      }
      loading := true;
      error := None;
      answer := None;
      if projects.Length == 0 {
        answer := Some(GettingStarted);
      } else {
        var a := MockResponse(queryText, projects, timeOf, formatDate);
        answer := Some(a);
      }
      loading := false;
      if Present(q) {
        question := "";
      }
    }

    /** Typing into the input. */
    method SetQuestion(text: string)
      modifies this
      ensures question == text
      ensures answer == old(answer) && loading == old(loading) && error == old(error)
    {
      question := text;
    }

    /** Form submit: ask with the typed text. */
    method HandleSubmit()
      modifies this, projects
      ensures Blank(old(question)) || old(loading) ==>
        && answer == old(answer) && question == old(question) && loading == old(loading)
        && error == old(error) && projects[..] == old(projects[..])
      ensures !Blank(old(question)) && !old(loading) ==>
        && answer.Some? && !loading && error == None && question == old(question)
        && (projects.Length == 0 ==> answer == Some(GettingStarted))
        && (projects.Length > 0 ==>
              answer == Some(RoutedAnswer(RouteOf(old(question)), projects[..], formatDate)))
        && (RouteOf(old(question)) == Focus ==> SortedForFocus(projects[..], old(projects[..]), timeOf))
      ensures RouteOf(old(question)) != Focus ==> projects[..] == old(projects[..])
      ensures multiset(projects[..]) == multiset(old(projects[..]))
    {
      HandleAskQuestion(None);
    }

    /**
     * A starter or follow-up suggestion fills the input and asks it at once.
     * The ask reads the input as it was before the click, so an empty
     * suggestion asks the previously typed text; an ask of a non-empty
     * suggestion that goes through leaves the input empty again.
     */
    method ClickSuggestion(suggestion: string)
      modifies this, projects
      ensures var text := if suggestion == "" then old(question) else suggestion;
        && (Blank(text) || old(loading) ==>
              && answer == old(answer) && loading == old(loading)
              && error == old(error) && projects[..] == old(projects[..]))
        && (!Blank(text) && !old(loading) ==>
              && answer.Some? && !loading && error == None
              && (projects.Length == 0 ==> answer == Some(GettingStarted))
              && (projects.Length > 0 ==> answer == Some(RoutedAnswer(RouteOf(text), projects[..], formatDate)))
              && (RouteOf(text) == Focus ==> SortedForFocus(projects[..], old(projects[..]), timeOf)))
        && (RouteOf(text) != Focus ==> projects[..] == old(projects[..]))
      ensures multiset(projects[..]) == multiset(old(projects[..]))
      ensures question == if !Blank(suggestion) && !old(loading) then "" else suggestion
    {
      var q := if suggestion == "" then None else Some(suggestion);
      var goesThrough := !Blank(QueryText(q)) && !loading;
      HandleAskQuestion(q);
      if !(goesThrough && Present(q)) {
        question := suggestion;
      }
    }
  }
}
