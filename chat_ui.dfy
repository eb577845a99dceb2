/**
  The `ChatUI` session object: its fields are updated in place by each turn,
  and the chat transcript is a list that each turn appends to. Every method
  is proved to leave exactly the state and transcript that module
  Conversation prescribes.
 */
module ChatUi {
  import opened Wrappers
  import opened Text
  import opened Questionnaire
  import opened Selection
  import opened Conversation

  /** The transcript list handed to each turn and extended in place. */
  class ChatHistory {
    var entries: seq<Entry>

    constructor (entries: seq<Entry>)
      ensures this.entries == entries
    {
      this.entries := entries;
    }

    method Append(e: Entry)
      modifies this
      ensures entries == old(entries) + [e]
    {
      entries := entries + [e];
    }
  }

  class ChatUI {
    /** The questionnaire, loaded once and never changed. */
    const questionnaire: Tree
    const welcomeMessage: string

    var currentSection: nat
    var currentSubsection: nat
    var responses: map<string, Answer>
    var memcachedUrl: Option<string>
    var profilingResults: Option<ProfileRecord>
    var isUrlValidated: bool

    /** How many times the charts have been generated. */
    ghost var chartRuns: nat
    /** Background profiling tasks launched with a URL and not yet finished. */
    ghost var pendingProfiles: nat

    /** The session fields as one value. */
    function Snapshot(): State
      reads this
    {
      State(Cursor(currentSection, currentSubsection), responses, memcachedUrl, profilingResults, isUrlValidated)
    }

    ghost predicate Valid()
      reads this
    {
      ValidState(questionnaire, Snapshot()) && welcomeMessage == WelcomeMessage
    }

    constructor (questionnaire: Tree)
      requires WellFormed(questionnaire)
      ensures this.questionnaire == questionnaire
      ensures Valid() && Snapshot() == Initial
      ensures chartRuns == 0 && pendingProfiles == 0
    {
      this.questionnaire := questionnaire;
      currentSection := 0;
      currentSubsection := 0;
      responses := map[];
      memcachedUrl := None;
      profilingResults := None;
      isUrlValidated := false;
      welcomeMessage := WelcomeMessage;
      chartRuns := 0;
      pendingProfiles := 0;
    }

    /** `reset`: every field back to its initial value, and a transcript holding only the welcome entry. */
    method Reset() returns (history: ChatHistory)
      requires Valid()
      modifies this
      ensures Valid() && Snapshot() == Initial
      ensures fresh(history) && history.entries == WelcomeTranscript
      ensures chartRuns == old(chartRuns) && pendingProfiles == old(pendingProfiles)
    {
      currentSection := 0;
      currentSubsection := 0;
      responses := map[];
      memcachedUrl := None;
      profilingResults := None;
      isUrlValidated := false;
      history := new ChatHistory([Entry(None, Markdown(welcomeMessage))]);
    }

    /**
      `asyncio.create_task(self.start_profiling())`: the task only profiles
      when it finds a non-empty URL as it starts, right after the probe.
     */
    method StartProfiling()
      modifies this`pendingProfiles
      ensures pendingProfiles == old(pendingProfiles) + (if memcachedUrl.Some? && memcachedUrl.value != "" then 1 else 0)
    {
      if memcachedUrl.Some? && memcachedUrl.value != "" {
        pendingProfiles := pendingProfiles + 1;
      }
    }

    /** A launched profiling task delivers its record; nothing else changes. */
    method ProfilingCompleted(record: ProfileRecord)
      requires Valid() && pendingProfiles > 0
      modifies this`profilingResults, this`pendingProfiles
      ensures Valid() && Snapshot() == old(Snapshot()).(profilingResults := Some(record))
      ensures pendingProfiles == old(pendingProfiles) - 1
    {
      profilingResults := Some(record);
      pendingProfiles := pendingProfiles - 1;
    }

    /** `handle_url_input`, with the connection probe's verdict given as `probeSucceeds`. */
    method HandleUrlInput(url: string, probeSucceeds: bool) returns (message: string)
      requires Valid()
      modifies this
      ensures Valid()
      ensures Snapshot() == UrlStep(old(Snapshot()), url, probeSucceeds).state
      ensures message == UrlStep(old(Snapshot()), url, probeSucceeds).message
      ensures chartRuns == old(chartRuns)
      ensures pendingProfiles == old(pendingProfiles)
        + (if UrlStep(old(Snapshot()), url, probeSucceeds).launchesProfiling && url != "" then 1 else 0)
    {
      if IsSkip(url) {
        isUrlValidated := true;
        return SkipMessage;
      }
      if probeSucceeds {
        memcachedUrl := Some(url);
        isUrlValidated := true;
        StartProfiling();
        return ConnectedMessage;
      }
      var _ := Reset();
      return FailureMessage();
    }

    /** `get_current_question`. */
    function GetCurrentQuestion(): (q: Option<(Section, Subsection)>)
      reads this
      requires Valid()
      ensures q.None? <==> currentSection >= |questionnaire.sections|
      ensures q.Some? ==> q.value.0 == questionnaire.sections[currentSection]
      ensures q.Some? ==> q.value.1 == questionnaire.sections[currentSection].subSections[currentSubsection]
    {
      CurrentQuestion(questionnaire, Cursor(currentSection, currentSubsection))
    }

    /** `generate_charts`, reduced to the event of producing the five figures. */
    method GenerateCharts() returns (readsVsWrites: Chart, keyDist: Chart, valueDist: Chart, ttlDist: Chart, memoryGauge: Chart)
      modifies this`chartRuns
      ensures chartRuns == old(chartRuns) + 1
      ensures [readsVsWrites, keyDist, valueDist, ttlDist, memoryGauge]
           == [ReadsVsWrites, KeySizeDistribution, ValueSizeDistribution, TtlDistribution, MemoryPerShard]
    {
      chartRuns := chartRuns + 1;
      return ReadsVsWrites, KeySizeDistribution, ValueSizeDistribution, TtlDistribution, MemoryPerShard;
    }

    /** The report text built from the current profiling record, one line per entry. */
    method ComposeReport() returns (report: string)
      ensures report == Report(profilingResults)
    {
      var lines := "";
      if ProfileShown(profilingResults) {
        var items := profilingResults.value;
        var i := 0;
        while i < |items|
          invariant 0 <= i <= |items|
          invariant lines == ProfileLines(items[..i])
        {
          assert items[..i + 1][..i] == items[..i];
          lines := lines + ProfileLine(items[i]);
          i := i + 1;
        }
        assert items[..|items|] == items;
      }
      report := ReportTitle + (if ProfileShown(profilingResults) then ProfileHeading + lines else "") + ReportSummary;
    }

    /** Past the last question: the report, then the five charts. */
    method ShowResults(chatHistory: ChatHistory)
      modifies this`chartRuns, chatHistory
      ensures chatHistory.entries == old(chatHistory.entries) + [Entry(None, Markdown(Report(profilingResults)))] + ChartEntries
      ensures chartRuns == old(chartRuns) + 1
    {
      var report := ComposeReport();
      var readsVsWrites, keyDist, valueDist, ttlDist, memoryGauge := GenerateCharts();
      ghost var h0 := chatHistory.entries;
      chatHistory.Append(Entry(None, Markdown(report)));
      chatHistory.Append(Entry(None, Plot(readsVsWrites, "Reads vs Writes")));
      chatHistory.Append(Entry(None, Plot(keyDist, "Key Size Distribution")));
      chatHistory.Append(Entry(None, Plot(valueDist, "Value Size Distribution")));
      chatHistory.Append(Entry(None, Plot(ttlDist, "TTL Distribution")));
      chatHistory.Append(Entry(None, Plot(memoryGauge, "Memory per Shard")));
      assert chatHistory.entries == h0 + [Entry(None, Markdown(report))] + [
        Entry(None, Plot(readsVsWrites, "Reads vs Writes")),
        Entry(None, Plot(keyDist, "Key Size Distribution")),
        Entry(None, Plot(valueDist, "Value Size Distribution")),
        Entry(None, Plot(ttlDist, "TTL Distribution")),
        Entry(None, Plot(memoryGauge, "Memory per Shard"))];
    }

    /** The endpoint branch of `handle_response`. */
    method HandleEndpoint(response: string, chatHistory: ChatHistory, probeSucceeds: bool)
      requires Valid() && IsEndpointTurn(chatHistory.entries)
      modifies this, chatHistory
      ensures Valid()
      ensures var r := EndpointTurn(questionnaire, old(Snapshot()), old(chatHistory.entries), response, probeSucceeds);
        && Snapshot() == r.state
        && chatHistory.entries == r.history
        && chartRuns == old(chartRuns)
        && pendingProfiles == old(pendingProfiles) + (if r.launchesProfiling && response != "" then 1 else 0)
    {
      ghost var h0 := chatHistory.entries;
      ghost var r := EndpointTurn(questionnaire, Snapshot(), h0, response, probeSucceeds);
      var result := HandleUrlInput(response, probeSucceeds);
      assert Snapshot() == r.state;
      chatHistory.Append(Entry(Some(response), Markdown(result)));
      if !isUrlValidated {
        assert chatHistory.entries == r.history;
        return;
      }
      var question := GetCurrentQuestion();
      if question.Some? {
        var (section, subsection) := question.value;
        chatHistory.Append(Entry(None, Markdown(RenderQuestion(section, subsection))));
      }
      assert chatHistory.entries == r.history;
    }

    /** The questionnaire branch of `handle_response`. */
    method HandleAnswer(response: string, chatHistory: ChatHistory)
      requires Valid()
      modifies this, chatHistory
      ensures Valid()
      ensures var r := AnswerTurn(questionnaire, old(Snapshot()), old(chatHistory.entries), response);
        && Snapshot() == r.state
        && chatHistory.entries == r.history
        && chartRuns == old(chartRuns) + (if r.chartsGenerated then 1 else 0)
        && pendingProfiles == old(pendingProfiles)
    {
      var question := GetCurrentQuestion();
      if question.None? {
        return;
      }
      var (section, subsection) := question.value;
      if !subsection.isMultiSelect && response !in subsection.options {
        chatHistory.Append(Entry(Some(response), Markdown(InvalidSelectionMessage)));
        return;
      }
      HandleAccepted(section, subsection, response, chatHistory);
    }

    /** An accepted reply: record it, acknowledge it, then prompt the next question or show the results. */
    method HandleAccepted(section: Section, subsection: Subsection, response: string, chatHistory: ChatHistory)
      requires Valid() && Addresses(questionnaire, Snapshot().cursor)
      requires section == questionnaire.sections[currentSection]
      requires subsection == section.subSections[currentSubsection]
      requires Accepts(subsection, response)
      modifies this`responses, this`currentSection, this`currentSubsection, this`chartRuns, chatHistory
      ensures Valid()
      ensures var r := AcceptedTurn(questionnaire, old(Snapshot()), old(chatHistory.entries), response);
        && Snapshot() == r.state
        && chatHistory.entries == r.history
        && chartRuns == old(chartRuns) + (if r.chartsGenerated then 1 else 0)
    {
      ghost var h0 := chatHistory.entries;
      ghost var r := AcceptedTurn(questionnaire, Snapshot(), h0, response);
      var formattedResponse := RecordAnswer(section, subsection, response);
      assert Snapshot() == r.state;
      var ack := Entry(Some(response), Markdown(formattedResponse));
      chatHistory.Append(ack);
      PromptOrFinish(chatHistory);
    }

    /**
      The accepted-reply part of `handle_response`: store the answer under its
      key and move the cursor one question on.
     */
    method RecordAnswer(section: Section, subsection: Subsection, response: string) returns (formattedResponse: string)
      requires Valid() && Addresses(questionnaire, Snapshot().cursor)
      requires section == questionnaire.sections[currentSection]
      requires subsection == section.subSections[currentSubsection]
      requires Accepts(subsection, response)
      modifies this`responses, this`currentSection, this`currentSubsection
      ensures Valid()
      ensures Snapshot() == old(Snapshot()).(
        responses := old(responses)[ResponseKey(section, subsection) := AnswerFor(subsection, response)],
        cursor := Advance(questionnaire, old(Snapshot().cursor)))
      ensures formattedResponse == Acknowledgement(AnswerFor(subsection, response))
    {
      var key := ResponseKey(section, subsection);
      if subsection.isMultiSelect {
        var validOptions := SelectedOptions(response, subsection.options);
        responses := responses[key := Multi(validOptions)];
        formattedResponse := SelectedPrefix + Join(validOptions, ", ");
      } else {
        responses := responses[key := Single(response)];
        formattedResponse := SelectedPrefix + response;
      }
      NextQuestion();
    }

    /** Moves the cursor to the next subsection, or to the first one of the next section. */
    method NextQuestion()
      requires Valid() && Addresses(questionnaire, Snapshot().cursor)
      modifies this`currentSection, this`currentSubsection
      ensures Valid()
      ensures Snapshot() == old(Snapshot()).(cursor := Advance(questionnaire, old(Snapshot().cursor)))
    {
      if currentSubsection + 1 < |questionnaire.sections[currentSection].subSections| {
        currentSubsection := currentSubsection + 1;
      } else {
        currentSection := currentSection + 1;
        currentSubsection := 0;
      }
    }

    /** After an accepted reply: prompt the next question, or show the results past the last one. */
    method PromptOrFinish(chatHistory: ChatHistory)
      requires Valid()
      modifies this`chartRuns, chatHistory
      ensures chatHistory.entries == old(chatHistory.entries) + FollowUp(questionnaire, Snapshot())
      ensures chartRuns == old(chartRuns) + (if Finished(questionnaire, Snapshot().cursor) then 1 else 0)
    {
      var next := GetCurrentQuestion();
      if next.Some? {
        var (section, subsection) := next.value;
        chatHistory.Append(Entry(None, Markdown(RenderQuestion(section, subsection))));
      } else {
        ShowResults(chatHistory);
      }
    }

    /** `handle_response`: one submitted turn, with the probe's verdict given as `probeSucceeds`. */
    method HandleResponse(response: string, chatHistory: ChatHistory, probeSucceeds: bool)
      requires Valid()
      modifies this, chatHistory
      ensures Valid()
      ensures var r := Turn(questionnaire, old(Snapshot()), old(chatHistory.entries), response, probeSucceeds);
        && Snapshot() == r.state
        && chatHistory.entries == r.history
        && chartRuns == old(chartRuns) + (if r.chartsGenerated then 1 else 0)
        && pendingProfiles == old(pendingProfiles) + (if r.launchesProfiling && response != "" then 1 else 0)
    {
      if |chatHistory.entries| == 1 && chatHistory.entries[0].user.None? {
        HandleEndpoint(response, chatHistory, probeSucceeds);
      } else {
        HandleAnswer(response, chatHistory);
      }
    }
  }
}
