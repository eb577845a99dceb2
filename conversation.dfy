/**
  The questionnaire conversation as values: the session state, the chat
  transcript, and what one submitted turn does to both. The `ChatUI` class
  in module ChatUi is proved to behave exactly as these functions say.
 */
module Conversation {
  import opened Wrappers
  import opened Text
  import opened Questionnaire
  import opened Selection

  /** A recorded answer: one option, or the list kept from a multi-select reply. */
  datatype Answer = Single(choice: string) | Multi(choices: seq<string>)

  /** A value of the profiling record, rendered in the report with `str()`. */
  datatype ProfileValue = IntValue(n: int) | StrValue(s: string)

  /** The profiling dictionary, in insertion order. */
  type ProfileRecord = seq<(string, ProfileValue)>

  /** The fields of one `ChatUI` session. */
  datatype State = State(
    cursor: Cursor,
    responses: map<string, Answer>,
    memcachedUrl: Option<string>,
    profilingResults: Option<ProfileRecord>,
    isUrlValidated: bool)

  /** The five figures produced when the questionnaire is complete. */
  datatype Chart = ReadsVsWrites | KeySizeDistribution | ValueSizeDistribution | TtlDistribution | MemoryPerShard

  /** The bot half of a transcript entry: Markdown text, or a labelled plot. */
  datatype Message = Markdown(text: string) | Plot(chart: Chart, caption: string)

  /** One transcript entry: the user's text (absent for bot-only entries) and the bot's reply. */
  datatype Entry = Entry(user: Option<string>, bot: Message)

  const MaxRetries: nat := 3

  const WelcomeMessage: string :=
    "\n# Welcome to Quester - Redis Migration Assessment Tool\n\n"
    + "I'm your AI assistant specializing in Memcached to Redis migrations. I'll help you assess your migration initiative through a series of questions and technical analysis.\n\n"
    + "To begin, please provide your Memcached URL for analysis, or type \"skip\" to proceed with the questionnaire."

  const SkipMessage: string := "Skipping Memcached connection. Proceeding with the questionnaire."

  const ConnectedMessage: string :=
    "Successfully connected to Memcached. Starting profiling in background. Let's proceed with the assessment questions."

  function FailureMessage(): string {
    "Failed to connect to Memcached after " + NatToString(MaxRetries)
    + " attempts. Please try again with a valid URL or type 'skip' to proceed without connection analysis."
  }

  const InvalidSelectionMessage: string := "Invalid selection. Please select one of the provided options."

  const SelectedPrefix: string := "Selected: "

  /** The state of a fresh or reset session. */
  const Initial: State := State(Start, map[], None, None, false)

  /** The transcript shown by a fresh or reset session: the welcome entry alone. */
  const WelcomeTranscript: seq<Entry> := [Entry(None, Markdown(WelcomeMessage))]

  /** The session invariant: the cursor is on a subsection or exactly past the end. */
  predicate ValidState(t: Tree, s: State) {
    WellFormed(t) && InRange(t, s.cursor)
  }

  /** The endpoint step is taken only when the transcript is exactly one bot-only entry. */
  predicate IsEndpointTurn(h: seq<Entry>) {
    |h| == 1 && h[0].user.None?
  }

  /** `get_current_question`: nothing once the section index is past the end, else the addressed question. */
  function CurrentQuestion(t: Tree, c: Cursor): (q: Option<(Section, Subsection)>)
    requires Finished(t, c) || Addresses(t, c)
    ensures q.None? <==> Finished(t, c)
    ensures q.Some? ==> q.value.0 == t.sections[c.section] && q.value.1 == q.value.0.subSections[c.subsection]
  {
    if c.section >= |t.sections| then None
    else
      var section := t.sections[c.section];
      Some((section, section.subSections[c.subsection]))
  }

  /** The key an answer is stored under: section name, underscore, subsection name. */
  function ResponseKey(section: Section, subsection: Subsection): string {
    section.name + "_" + subsection.name
  }

  /** Distinct (section name, subsection name) pairs get distinct keys as long as no section name contains an underscore. */
  lemma KeyInjective(a: Section, b: Subsection, c: Section, d: Subsection)
    requires '_' !in a.name && '_' !in c.name
    requires ResponseKey(a, b) == ResponseKey(c, d)
    ensures a.name == c.name && b.name == d.name
  {
    var k := ResponseKey(a, b);
    assert |a.name| == |c.name| by {
      assert k[|a.name|] == '_' && k[|c.name|] == '_';
      assert forall i :: 0 <= i < |a.name| ==> k[i] == a.name[i];
      assert forall i :: 0 <= i < |c.name| ==> k[i] == c.name[i];
    }
    assert a.name == k[..|a.name|] == c.name;
    assert b.name == k[|a.name| + 1..] == d.name;
  }

  function Button(option: string): string {
    "<a class=\"btn btn-primary btn-chatbot text-white\" value=\"" + option + "\">" + option + "</a> "
  }

  function Buttons(options: seq<string>): string {
    if |options| == 0 then "" else Buttons(options[..|options| - 1]) + Button(options[|options| - 1])
  }

  /** `render_question`: the Markdown prompt with one button per option. */
  function RenderQuestion(section: Section, subsection: Subsection): string {
    "### " + section.name + "\n#### " + subsection.name + "\n"
    + (if subsection.isMultiSelect then "Select all that apply (click on your choices):"
       else "Select one option (click on your choice):")
    + "\n\n" + Buttons(subsection.options)
  }

  const ReportTitle: string := "# Migration Assessment Report\n\n"

  const ProfileHeading: string := "## Memcached Profile\n"

  const ReportSummary: string :=
    "\n## Assessment Summary\n"
    + "Based on your responses, here are the key recommendations:\n"
    + "\n1. Implementation will be logged here in future updates"
    + "\n\n## Visualizations\n"
    + "Here are interactive visualizations of your Memcached data:\n\n"

  function ValueText(v: ProfileValue): string {
    match v
    case IntValue(n) => IntToString(n)
    case StrValue(s) => s
  }

  function ProfileLine(item: (string, ProfileValue)): string {
    "- " + item.0 + ": " + ValueText(item.1) + "\n"
  }

  /** One `- key: value` line per profiling entry, in order. */
  function ProfileLines(record: ProfileRecord): string {
    if |record| == 0 then "" else ProfileLines(record[..|record| - 1]) + ProfileLine(record[|record| - 1])
  }

  /** `if self.profiling_results:` holds only for a present, non-empty record. */
  predicate ProfileShown(profile: Option<ProfileRecord>) {
    profile.Some? && |profile.value| > 0
  }

  /** The report has a profile section right after its title. */
  predicate HasProfileSection(report: string) {
    |report| >= |ReportTitle| + |ProfileHeading|
    && report[|ReportTitle|..|ReportTitle| + |ProfileHeading|] == ProfileHeading
  }

  /** The final report text. */
  function Report(profile: Option<ProfileRecord>): (r: string)
    ensures |r| >= |ReportTitle| + |ReportSummary|
    ensures r[..|ReportTitle|] == ReportTitle && r[|r| - |ReportSummary|..] == ReportSummary
    ensures HasProfileSection(r) <==> ProfileShown(profile)
  {
    var r := ReportTitle
      + (if ProfileShown(profile) then ProfileHeading + ProfileLines(profile.value) else "")
      + ReportSummary;
    assert !ProfileShown(profile) ==> r[|ReportTitle|] == '\n' != ProfileHeading[0];
    r
  }

  /** The five plot entries, in the order they are shown. */
  const ChartEntries: seq<Entry> := [
    Entry(None, Plot(ReadsVsWrites, "Reads vs Writes")),
    Entry(None, Plot(KeySizeDistribution, "Key Size Distribution")),
    Entry(None, Plot(ValueSizeDistribution, "Value Size Distribution")),
    Entry(None, Plot(TtlDistribution, "TTL Distribution")),
    Entry(None, Plot(MemoryPerShard, "Memory per Shard"))
  ]

  /** What `handle_url_input` leaves behind: the new state, its reply, and whether profiling was launched. */
  datatype UrlOutcome = UrlOutcome(state: State, message: string, launchesProfiling: bool)

  /** `handle_url_input`, with the connection probe's verdict given as `probeSucceeds`. */
  function UrlStep(s: State, url: string, probeSucceeds: bool): (r: UrlOutcome)
    ensures r.state.isUrlValidated <==> IsSkip(url) || probeSucceeds
    ensures r.launchesProfiling <==> !IsSkip(url) && probeSucceeds
    ensures r.state.isUrlValidated ==>
      r.state.cursor == s.cursor && r.state.responses == s.responses
      && r.state.profilingResults == s.profilingResults
      && r.state.memcachedUrl == (if IsSkip(url) then s.memcachedUrl else Some(url))
    ensures !r.state.isUrlValidated ==> r.state == Initial && r.message == FailureMessage()
  {
    if IsSkip(url) then
      UrlOutcome(s.(isUrlValidated := true), SkipMessage, false)
    else if probeSucceeds then
      UrlOutcome(s.(memcachedUrl := Some(url), isUrlValidated := true), ConnectedMessage, true)
    else
      UrlOutcome(Initial, FailureMessage(), false)
  }

  /** The reply names the outcome: the skip notice, the connection notice, or the failure message. */
  lemma UrlReplies(s: State, url: string, probeSucceeds: bool)
    ensures var m := UrlStep(s, url, probeSucceeds).message;
      && (IsSkip(url) ==> m == SkipMessage)
      && (!IsSkip(url) && probeSucceeds ==> m == ConnectedMessage)
      && (!IsSkip(url) && !probeSucceeds ==> m == FailureMessage())
  {
  }

  /** What one submitted turn leaves behind. */
  datatype TurnResult = TurnResult(state: State, history: seq<Entry>, launchesProfiling: bool, chartsGenerated: bool)

  /**
    The endpoint turn: probe or skip, append the reply, and, once validated,
    append the prompt of the current question if there is one.
   */
  function EndpointTurn(t: Tree, s: State, h: seq<Entry>, url: string, probeSucceeds: bool): (r: TurnResult)
    requires ValidState(t, s) && IsEndpointTurn(h)
    ensures ValidState(t, r.state)
    ensures r.state == UrlStep(s, url, probeSucceeds).state && !r.chartsGenerated
    ensures r.launchesProfiling <==> !IsSkip(url) && probeSucceeds
    ensures |r.history| >= 2 && r.history[..2] == h + [Entry(Some(url), Markdown(UrlStep(s, url, probeSucceeds).message))]
    ensures |r.history| <= 3
    ensures h <= r.history && !IsEndpointTurn(r.history)
    ensures |r.history| == 3 <==> r.state.isUrlValidated && !Finished(t, s.cursor)
    ensures |r.history| == 3 ==>
      r.history[2] == Entry(None, Markdown(RenderQuestion(t.sections[s.cursor.section],
                                                          t.sections[s.cursor.section].subSections[s.cursor.subsection])))
  {
    var u := UrlStep(s, url, probeSucceeds);
    var h1 := h + [Entry(Some(url), Markdown(u.message))];
    assert h1[..2] == h1 && h1[..1] == h;
    if !u.state.isUrlValidated then
      TurnResult(u.state, h1, u.launchesProfiling, false)
    else
      match CurrentQuestion(t, u.state.cursor)
      case None => TurnResult(u.state, h1, u.launchesProfiling, false)
      case Some((section, subsection)) =>
        TurnResult(u.state, h1 + [Entry(None, Markdown(RenderQuestion(section, subsection)))], u.launchesProfiling, false)
  }

  /** A reply is accepted on a multi-select question always, on a single-select one only if it is an option. */
  predicate Accepts(subsection: Subsection, response: string) {
    subsection.isMultiSelect || response in subsection.options
  }

  /** The answer recorded for an accepted reply. */
  function AnswerFor(subsection: Subsection, response: string): Answer {
    if subsection.isMultiSelect then Multi(SelectedOptions(response, subsection.options)) else Single(response)
  }

  /** The acknowledgement shown for an accepted reply. */
  function Acknowledgement(answer: Answer): string {
    match answer
    case Single(choice) => SelectedPrefix + choice
    case Multi(choices) => SelectedPrefix + Join(choices, ", ")
  }

  /** What follows the acknowledgement of an accepted reply: the next prompt, or the report and the charts. */
  function FollowUp(t: Tree, s: State): (r: seq<Entry>)
    requires ValidState(t, s)
    ensures forall i :: 0 <= i < |r| ==> r[i].user.None?
    // While questions remain, exactly the prompt of the addressed one ...
    ensures !Finished(t, s.cursor) ==>
      Addresses(t, s.cursor)
      && r == [Entry(None, Markdown(RenderQuestion(t.sections[s.cursor.section],
                                                   t.sections[s.cursor.section].subSections[s.cursor.subsection])))]
    // ... and past the end the report followed by the five charts.
    ensures Finished(t, s.cursor) ==> r == [Entry(None, Markdown(Report(s.profilingResults)))] + ChartEntries
  {
    if Finished(t, s.cursor) then [Entry(None, Markdown(Report(s.profilingResults)))] + ChartEntries
    else
      var section := t.sections[s.cursor.section];
      [Entry(None, Markdown(RenderQuestion(section, section.subSections[s.cursor.subsection])))]
  }

  /**
    The accepted-reply part of a questionnaire turn: record the answer under
    its key, advance the cursor, acknowledge, then prompt the next question
    or, past the last one, show the report and charts.
   */
  function AcceptedTurn(t: Tree, s: State, h: seq<Entry>, response: string): (r: TurnResult)
    requires ValidState(t, s) && Addresses(t, s.cursor)
    requires Accepts(t.sections[s.cursor.section].subSections[s.cursor.subsection], response)
    ensures ValidState(t, r.state) && !r.launchesProfiling
    ensures r.state.memcachedUrl == s.memcachedUrl && r.state.profilingResults == s.profilingResults
    ensures r.state.isUrlValidated == s.isUrlValidated
    ensures
      var section := t.sections[s.cursor.section];
      var subsection := section.subSections[s.cursor.subsection];
      var answer := AnswerFor(subsection, response);
      var ack := Entry(Some(response), Markdown(Acknowledgement(answer)));
      && r.state.responses == s.responses[ResponseKey(section, subsection) := answer]
      && r.state.cursor == Advance(t, s.cursor)
      && Position(t, r.state.cursor) == Position(t, s.cursor) + 1
      && (r.chartsGenerated <==> Finished(t, r.state.cursor))
      // The acknowledgement, then the next prompt alone or the report and the charts.
      && r.history == h + [ack] + FollowUp(t, r.state)
  {
    var section := t.sections[s.cursor.section];
    var subsection := section.subSections[s.cursor.subsection];
    var answer := AnswerFor(subsection, response);
    var next := Advance(t, s.cursor);
    var s' := s.(responses := s.responses[ResponseKey(section, subsection) := answer], cursor := next);
    var ack := Entry(Some(response), Markdown(Acknowledgement(answer)));
    TurnResult(s', h + [ack] + FollowUp(t, s'), false, Finished(t, next))
  }

  /**
    A questionnaire turn: nothing once the questionnaire is complete; an
    invalid single-select reply is rejected; any other reply is accepted.
   */
  function AnswerTurn(t: Tree, s: State, h: seq<Entry>, response: string): (r: TurnResult)
    requires ValidState(t, s)
    ensures ValidState(t, r.state) && h <= r.history && !r.launchesProfiling
    ensures r.state.memcachedUrl == s.memcachedUrl && r.state.profilingResults == s.profilingResults
    ensures r.state.isUrlValidated == s.isUrlValidated
    // Whatever a turn adds opens with the user's reply, so it never leaves the welcome-only transcript behind.
    ensures |r.history| > |h| ==> r.history[|h|].user == Some(response)
    ensures !IsEndpointTurn(h) ==> !IsEndpointTurn(r.history)
    // Past the end, a turn changes nothing and produces nothing.
    ensures Finished(t, s.cursor) ==> r == TurnResult(s, h, false, false)
    // A rejected single-select reply only adds the invalid-selection entry.
    ensures Addresses(t, s.cursor) && !Accepts(t.sections[s.cursor.section].subSections[s.cursor.subsection], response) ==>
      r.state == s && r.history == h + [Entry(Some(response), Markdown(InvalidSelectionMessage))] && !r.chartsGenerated
    // An accepted reply is stored under its key alone, moves the cursor one question on,
    // and is followed by the next prompt or by the report and the charts.
    ensures Addresses(t, s.cursor) && Accepts(t.sections[s.cursor.section].subSections[s.cursor.subsection], response) ==>
      var section := t.sections[s.cursor.section];
      var subsection := section.subSections[s.cursor.subsection];
      var answer := AnswerFor(subsection, response);
      var ack := Entry(Some(response), Markdown(Acknowledgement(answer)));
      && r.state.responses == s.responses[ResponseKey(section, subsection) := answer]
      && Position(t, r.state.cursor) == Position(t, s.cursor) + 1
      && (r.chartsGenerated <==> Finished(t, r.state.cursor))
      && r.history == h + [ack] + FollowUp(t, r.state)
    // The report and the charts come only from answering the last open question.
    ensures r.chartsGenerated ==> !Finished(t, s.cursor) && Finished(t, r.state.cursor)
  {
    if Finished(t, s.cursor) then TurnResult(s, h, false, false)
    else if !Accepts(t.sections[s.cursor.section].subSections[s.cursor.subsection], response) then
      TurnResult(s, h + [Entry(Some(response), Markdown(InvalidSelectionMessage))], false, false)
    else
      AcceptedTurn(t, s, h, response)
  }

  /** `handle_response`: the endpoint step on the welcome transcript, a questionnaire turn otherwise. */
  function Turn(t: Tree, s: State, h: seq<Entry>, response: string, probeSucceeds: bool): (r: TurnResult)
    requires ValidState(t, s)
    ensures ValidState(t, r.state) && h <= r.history
    ensures !IsEndpointTurn(r.history)
    ensures r.chartsGenerated ==> !IsEndpointTurn(h) && !Finished(t, s.cursor) && Finished(t, r.state.cursor)
  {
    if IsEndpointTurn(h) then EndpointTurn(t, s, h, response, probeSucceeds)
    else AnswerTurn(t, s, h, response)
  }

  /** The outcome of a series of turns with no reset in between. */
  datatype RunResult = RunResult(state: State, history: seq<Entry>, reports: nat)

  /** Submits `turns` (each a reply and the probe verdict it would get) one after another. */
  function Run(t: Tree, s: State, h: seq<Entry>, turns: seq<(string, bool)>): (r: RunResult)
    requires ValidState(t, s)
    ensures ValidState(t, r.state) && h <= r.history
    decreases |turns|
  {
    if |turns| == 0 then RunResult(s, h, 0)
    else
      var step := Turn(t, s, h, turns[0].0, turns[0].1);
      var rest := Run(t, step.state, step.history, turns[1..]);
      RunResult(rest.state, rest.history, rest.reports + (if step.chartsGenerated then 1 else 0))
  }

  lemma {:induction false} AnswerRunReports(t: Tree, s: State, h: seq<Entry>, turns: seq<(string, bool)>)
    requires ValidState(t, s) && !IsEndpointTurn(h)
    ensures Run(t, s, h, turns).reports <= if Finished(t, s.cursor) then 0 else 1
    decreases |turns|
  {
    if |turns| > 0 {
      var step := AnswerTurn(t, s, h, turns[0].0);
      assert step == Turn(t, s, h, turns[0].0, turns[0].1);
      var rest := Run(t, step.state, step.history, turns[1..]);
      AnswerRunReports(t, step.state, step.history, turns[1..]);
      assert Run(t, s, h, turns).reports == rest.reports + (if step.chartsGenerated then 1 else 0);
    }
  }

  /**
    Without a reset, the report and charts are produced at most once, whatever
    is typed and whatever the probe answers.
   */
  lemma {:induction false} ReportAtMostOnce(t: Tree, s: State, h: seq<Entry>, turns: seq<(string, bool)>)
    requires ValidState(t, s)
    ensures Run(t, s, h, turns).reports <= 1
  {
    if |turns| > 0 {
      var step := Turn(t, s, h, turns[0].0, turns[0].1);
      var rest := Run(t, step.state, step.history, turns[1..]);
      AnswerRunReports(t, step.state, step.history, turns[1..]);
      assert Run(t, s, h, turns).reports == rest.reports + (if step.chartsGenerated then 1 else 0);
    }
  }

  /**
    A failed probe resets the state but leaves a two-entry transcript, so the
    next turn is read as an answer to the first question while unvalidated.
   */
  lemma FailedProbeThenAnswer(t: Tree, s: State, url: string, response: string, probeSucceeds: bool)
    requires ValidState(t, s) && !IsSkip(url)
    ensures var first := Turn(t, s, WelcomeTranscript, url, false);
      && first.state == Initial
      && first.history == WelcomeTranscript + [Entry(Some(url), Markdown(FailureMessage()))]
      && Turn(t, first.state, first.history, response, probeSucceeds) == AnswerTurn(t, Initial, first.history, response)
      && !Turn(t, first.state, first.history, response, probeSucceeds).state.isUrlValidated
  {
  }
}
