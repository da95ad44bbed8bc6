/** The phase orchestrator `AgentManager` of utils/agent_manager.py: the phase
    methods that run a fixed list of agents over the shared `blog_data`, the
    phase-name table of `execute_phase`, the in-place fold of
    `create_full_blog` and the projection `compile_final_blog`.

    Agents are opaque here: constructing an agent class and awaiting its
    `execute` are parameters (`Constructor`, `Executor`). The manager itself
    has no state (`__init__` does nothing), so its methods are module-level
    members; the only object updated in place is the caller's `blog_data`
    dict, modelled by the class `BlogData`. */
module AgentManagerModel {
  import opened Wrappers
  import opened JsonValue

  /** What `Cls()` does for the agent class of that name: `None` when the
      instance is built, or the exception the constructor raises. */
  type Constructor = string -> Option<PyError>

  /** `await agent.execute(blog_data)` for an agent of the class of that name:
      the dict it returns or the exception it raises. */
  type Executor = (string, map<string, Json>) -> Outcome<map<string, Json>>

  /** For each phase method of `AgentManager`, named by its attribute, the
      agent classes its `agents` list instantiates, in list order. */
  type AgentLists = string -> seq<string>

  /** The attributes of `AgentManager` that are phase methods. */
  predicate IsPhaseMethod(attr: string) {
    attr in {
      "core_system_learning_phase",
      "ideation_phase",
      "research_phase",
      "seo_phase",
      "content_generation_phase",
      "content_enrichment_phase",
      "seo_optimization_phase",
      "editing_phase",
      "plagiarism_phase",
      "phase9_ads_and_monetization",
      "phase10_scheduling_publishing",
      "phase11_promotion",
      "phase12_analytics_update",
      "phase13_chatbot_feedback",
      "phase14_quality_assurance",
      "phase15_archiving_version_control",
      "phase16_safety_security_monitoring",
      "phase17_team_collaboration_workflow",
      "phase18_auxiliary_support"
    }
  }

  /** The agent classes each phase method of the repository instantiates,
      in list order (empty for any other name). The members below take this
      mapping as the parameter `agentsOf`. */
  function PhaseAgents(attr: string): seq<string>
  {
    if attr == "core_system_learning_phase" then // utils/agent_manager.py:217
      [
        "SelfLearningSuperviserAgent",
        "BrainstormingAgent"
      ]
    else if attr == "ideation_phase" then // utils/agent_manager.py:228
      [
        "BrandAlignmentAgent",
        "AudienceAnalysisAgent",
        "AudiencePersonaAgent",
        "AudienceSentimentAgent",
        "CompetitorAnalysisAgent",
        "ContextGatheringAgent",
        "ContextHistoryAgent",
        "EthicalBiasAgent",
        "FinalTopicSelectionAgent",
        "GoalDefinitionAgent",
        "NicheAuthorityAgent",
        "RegulatoryLandscapeAgent",
        "SemanticGapAgent",
        "TopicGenerationAgent",
        "TopicListMonitoringAgent",
        "TopicUniquenessValidationAgent",
        "TopicValidationAgent"
      ]
    else if attr == "research_phase" then // utils/agent_manager.py:257
      [
        "LiteratureContentGapCheckerAgent",
        "OutlineStructuringAgent",
        "ReferenceValidationAgent",
        "ResearchAgent",
        "ResearchHarvestingAgent",
        "SourceCredibilityAgent",
        "SourceReliabilityAgent",
        "SourceReliabilityScoringAgent",
        "SourceReliabilityValidationAgent"
      ]
    else if attr == "seo_phase" then // utils/agent_manager.py:278
      [
        "KeywordClusteringAgent",
        "KeywordExtractionAgent",
        "KeywordIntegrationPlanningAgent",
        "SemanticSEOIntegrationAgent",
        "SEORoadmappingAgent",
        "VoiceSearchOptimizationAgent"
      ]
    else if attr == "content_generation_phase" then // utils/agent_manager.py:297
      [
        "DataQuoteInsertionAgent",
        "DraftIntroductionAgent",
        "ExampleStoryIntegrationAgent",
        "MetaDescriptionSnippetAgent",
        "MetaSnippetGeneratorAgent",
        "ScalingCloningAgent",
        "SectionBodyWriterAgent",
        "SectionWritingAgent",
        "SnippetGeneratorAgent",
        "TitleGenerationAgent"
      ]
    else if attr == "content_enrichment_phase" then // utils/agent_manager.py:316
      [
        "ContentSensitivityModerationAgent",
        "DataStatInsertionAgent",
        "DynamicExampleInserterAgent",
        "ImageGenerationAgent",
        "ImagePromptingAgent",
        "ImageResizerAgent",
        "ImageResizingOptimizationAgent",
        "ImageRightsAgent",
        "ImageRightsVerificationAgent",
        "InteractiveContentEmbedderAgent",
        "MultimediaEmbedAgent",
        "PollPopupSuggestionAgent",
        "QuoteCurationAgent",
        "StatInjectorAgent"
      ]
    else if attr == "seo_optimization_phase" then // utils/agent_manager.py:339
      [
        "BacklinkHealthLinkRotMonitorAgent",
        "BacklinkMonitorAgent",
        "BacklinkPlacementAgent",
        "BacklinkQualityTrackerAgent",
        "BrokenLinkRedirectMonitorAgent",
        "CallToActionWriterAgent",
        "InternalExternalLinkingAgent",
        "KeywordPlacementAgent",
        "MetaDataCompletionAgent",
        "MetaDescriptionAgent",
        "RankingMonitorAgent",
        "RichSnippetSchemaMarkupGeneratorAgent",
        "SchemaMarkupAgent",
        "SchemaMarkupGeneratorAgent",
        "SubheadingAgent"
      ]
    else if attr == "editing_phase" then // utils/agent_manager.py:363
      [
        "ClarityReadabilityAgent",
        "FormattingAgent",
        "GrammarCheckerAgent",
        "HumanReviewTriggerAgent",
        "ParaphraseAgent",
        "ReadabilityClarityAgent",
        "SpellingPunctuationAgent",
        "StyleGuideComplianceAgent",
        "VisualPreviewAgent"
      ]
    else if attr == "plagiarism_phase" then // utils/agent_manager.py:381
      [
        "AIHallucinationDetectionAgent",
        "ContentHallucinationDetectionAgent",
        "DeepFactReferenceCrossValidationAgent",
        "FinalOriginalityValidatorAgent",
        "OriginalityCheckPlagiarismDetectionAgent",
        "ParaphraseCorrectionAgent",
        "PlagiarismDetectionAgent",
        "PlagiarismParaphraseAgent",
        "PostPublishHallucinationRecheckAgent"
      ]
    else if attr == "phase9_ads_and_monetization" then // utils/agent_manager.py:400
      [
        "AdPlacementAgent",
        "AdResponseMonitorAgent",
        "AdScriptIntegrationAgent",
        "ContentMonetizationStrategyAgent"
      ]
    else if attr == "phase10_scheduling_publishing" then // utils/agent_manager.py:412
      [
        "SchedulingAgent",
        "CMSUploadAgent",
        "ScheduledPostingAgent",
        "PublishTimingAgent",
        "PublishTimingConflictAgent",
        "PublicationConfirmationAgent",
        "FormattingPreviewAgent",
        "FinalReviewApprovalAgent"
      ]
    else if attr == "phase11_promotion" then // utils/agent_manager.py:428
      [
        "SocialMediaGeneratorAgent",
        "PromotionGenerationAgent",
        "PromotionSchedulerAgent",
        "NewsletterContentGeneratorAgent"
      ]
    else if attr == "phase12_analytics_update" then // utils/agent_manager.py:440
      [
        "AnalyticsAgent",
        "BlogPerformanceMonitoringAgent",
        "ContentRelevanceDriftDetectorAgent",
        "ContentUpdateRecommendationAgent",
        "EngagementAnalyticsAgent",
        "HistoricalSEOImpactAnalyzerAgent",
        "PublishingReportAgent",
        "SEOPerformanceTrackerAgent",
        "UpdateRewriteSuggestionAgent",
        "UpdateSuggestionAgent"
      ]
    else if attr == "phase13_chatbot_feedback" then // utils/agent_manager.py:458
      [
        "ChatbotAgent",
        "FeedbackAnalysisAgent",
        "FeedbackModerationAgent",
        "FeedbackIterationAgent",
        "ChatbotAnalyticsAgent",
        "FeedbackPopupAgent",
        "PollCommentAgent",
        "ReviewCollectionAgent"
      ]
    else if attr == "phase14_quality_assurance" then // utils/agent_manager.py:474
      [
        "HumanInTheLoopReviewAgent",
        "AccessibilityComplianceAgent",
        "AccessibilityReviewAgent",
        "BiasInclusiveLanguageAgent",
        "ComplianceAgent",
        "ComplianceSnapshotAgent",
        "PrivacyDataMinimizationAgent",
        "RegulatoryComplianceAgent",
        "RegulatoryComplianceDuplicateAgent"
      ]
    else if attr == "phase15_archiving_version_control" then // utils/agent_manager.py:491
      [
        "ContentParsingSegmentationAgent",
        "ContentRewritingParaphrasingAgent",
        "URLContentExtractionAgent"
      ]
    else if attr == "phase16_safety_security_monitoring" then // utils/agent_manager.py:502
      [
        "SecurityReviewAgent",
        "BrokenMediaAssetRecoveryAgent",
        "ContentTamperDetectionAgent",
        "InternalCrawlabilityIndexationTesterAgent",
        "LivePostHealthAgent",
        "NegativeSEOMaliciousSpamDetectionAgent",
        "SearchEngineAlgorithmChangeMonitorAgent",
        "TamperDetectionAgent",
        "TrafficSpikeAnomalyResponseAgent",
        "UserSessionJourneyAnalysisAgent"
      ]
    else if attr == "phase17_team_collaboration_workflow" then // utils/agent_manager.py:520
      [
        "ChangeSuggestionAggregatorAgent",
        "EditorialWorkflowAgent",
        "PeerReviewCollaborativeEditingAgent"
      ]
    else if attr == "phase18_auxiliary_support" then // utils/agent_manager.py:530
      [
        "TagFixingAgent",
        "TableChartGeneratorAgent",
        "IncrementalFunctionAgent",
        "LocalizationAgent",
        "SentimentAnalysisAgent",
        "SemanticConsistencyValidatorAgent",
        "UXJourneySimulatorAgent",
        "ContentGapCheckerAgent",
        "ContentIncrementAgent",
        "ContentLocalizationCulturalAdaptationAgent",
        "FactUpdaterAgent",
        "IncrementFunctionAgent",
        "SocialProofCollectorAgent",
        "TableGeneratorAgent",
        "TableFormatterAgent",
        "TagCheckerAgent"
      ]
      else []
  }

  /** The agent classes whose construction succeeds as the repository is
      written: `SectionWritingAgent` defines `execute` at module level
      (agents/phase4/section_writing_agent.py:9), so the class keeps
      `BaseAgent`'s abstract `execute` and cannot be instantiated. */
  function SourceConstructor(name: string): (r: Option<PyError>)
    ensures r.Some? <==> name == "SectionWritingAgent"
  {
    if name == "SectionWritingAgent" then
      Some(PyError("TypeError", "Can't instantiate abstract class SectionWritingAgent with abstract method execute"))
    else None
  }

  /** Construction once `execute` is indented into `SectionWritingAgent`:
      every class of the lists can be instantiated. */
  function FixedConstructor(name: string): (r: Option<PyError>)
    ensures r.None?
  {
    None
  }

  // ---------------------------------------------------------------------
  // One phase: `agents = [A(), B(), ...]`, then
  // `for agent in agents: results[type(agent).__name__] = await agent.execute(blog_data)`.
  // ---------------------------------------------------------------------

  /** The exception of the first agent class, in list order, whose
      constructor raises; the list display builds every agent before any
      `execute` runs. */
  function ConstructionError(agents: seq<string>, ctor: Constructor): (r: Option<PyError>)
    ensures r.None? <==> forall i :: 0 <= i < |agents| ==> ctor(agents[i]).None?
    ensures r.Some? ==> exists i :: 0 <= i < |agents| && ctor(agents[i]) == r
                                    && forall j :: 0 <= j < i ==> ctor(agents[j]).None?
    decreases |agents|
  {
    if agents == [] then None
    else if ctor(agents[0]).Some? then ctor(agents[0])
    else
      var r := ConstructionError(agents[1..], ctor);
      assert r.Some? ==> exists i :: 0 <= i < |agents| && ctor(agents[i]) == r
                                    && forall j :: 0 <= j < i ==> ctor(agents[j]).None?
      by {
        if r.Some? {
          var i :| 0 <= i < |agents[1..]| && ctor(agents[1..][i]) == r
                   && forall j :: 0 <= j < i ==> ctor(agents[1..][j]).None?;
          assert ctor(agents[i + 1]) == r;
          assert forall j :: 0 <= j < i + 1 ==> ctor(agents[j]).None? by {
            forall j | 0 <= j < i + 1 ensures ctor(agents[j]).None? {
              if j > 0 { assert agents[j] == agents[1..][j - 1]; }
            }
          }
        }
      }
      r
  }

  /** The execute loop: each agent in turn gets the same `blog_data`, its
      output is stored under its class name, and the first exception escapes
      uncaught. `acc` is the `results` dict built so far. */
  function ExecuteAll(agents: seq<string>, blogData: map<string, Json>, exec: Executor,
                      acc: map<string, Json>): Outcome<map<string, Json>>
    decreases |agents|
  {
    if agents == [] then Returns(acc)
    else
      match exec(agents[0], blogData)
      case Raises(e) => Raises(e)
      case Returns(output) => ExecuteAll(agents[1..], blogData, exec, acc[agents[0] := JObj(output)])
  }

  /** `{"status": "completed", "agent_results": results}` */
  function Completed(results: map<string, Json>): map<string, Json> {
    map["status" := JStr("completed"), "agent_results" := JObj(results)]
  }

  /** What a phase method returns or raises. */
  function RunPhaseSpec(agents: seq<string>, blogData: map<string, Json>,
                        ctor: Constructor, exec: Executor): Outcome<map<string, Json>>
  {
    match ConstructionError(agents, ctor)
    case Some(e) => Raises(e)
    case None =>
      match ExecuteAll(agents, blogData, exec, map[])
      case Raises(e) => Raises(e)
      case Returns(results) => Returns(Completed(results))
  }

  /** A phase method (`ideation_phase`, `research_phase`, ...): construct all
      agents, then execute them in order into a dict keyed by class name. No
      `run`, so there is no retry, no envelope and no counter update. */
  method RunPhase(agents: seq<string>, blogData: map<string, Json>,
                  ctor: Constructor, exec: Executor) returns (r: Outcome<map<string, Json>>)
    ensures r == RunPhaseSpec(agents, blogData, ctor, exec)
  {
    var i := 0;
    while i < |agents|
      invariant 0 <= i <= |agents|
      invariant ConstructionError(agents, ctor) == ConstructionError(agents[i..], ctor)
    {
      var e := ctor(agents[i]);
      if e.Some? {
        return Raises(e.value);
      }
      assert agents[i..][1..] == agents[i + 1..];
      i := i + 1;
    }
    var results: map<string, Json> := map[];
    i := 0;
    while i < |agents|
      invariant 0 <= i <= |agents|
      invariant ExecuteAll(agents, blogData, exec, map[]) == ExecuteAll(agents[i..], blogData, exec, results)
    {
      var output := exec(agents[i], blogData);
      if output.Raises? {
        return Raises(output.error);
      }
      results := results[agents[i] := JObj(output.value)];
      assert agents[i..][1..] == agents[i + 1..];
      i := i + 1;
    }
    return Returns(Completed(results));
  }

  /** When every agent returns, the loop yields one entry per agent class,
      holding that agent's output for the shared `blog_data`; entries already
      present and not overwritten are kept. */
  lemma {:induction false} ExecuteAllReturns(agents: seq<string>, blogData: map<string, Json>,
                                             exec: Executor, acc: map<string, Json>)
    requires forall i :: 0 <= i < |agents| ==> exec(agents[i], blogData).Returns?
    ensures ExecuteAll(agents, blogData, exec, acc).Returns?
    ensures var m := ExecuteAll(agents, blogData, exec, acc).value;
      (forall k :: k in m <==> k in acc || k in agents)
      && (forall i :: 0 <= i < |agents| ==> m[agents[i]] == JObj(exec(agents[i], blogData).value))
      && (forall k :: k in acc && k !in agents ==> m[k] == acc[k])
    decreases |agents|
  {
    if agents != [] {
      var acc' := acc[agents[0] := JObj(exec(agents[0], blogData).value)];
      ExecuteAllReturns(agents[1..], blogData, exec, acc');
      forall k ensures k in agents <==> k == agents[0] || k in agents[1..] {
        assert agents == [agents[0]] + agents[1..];
      }
      forall i | 0 <= i < |agents| ensures agents[i] == agents[0] || agents[i] in agents[1..] {
        if i > 0 { assert agents[i] == agents[1..][i - 1]; }
      }
    }
  }

  /** The first agent that raises ends the loop with its exception. */
  lemma {:induction false} ExecuteAllRaises(agents: seq<string>, blogData: map<string, Json>,
                                            exec: Executor, acc: map<string, Json>, k: nat)
    requires k < |agents| && exec(agents[k], blogData).Raises?
    requires forall i :: 0 <= i < k ==> exec(agents[i], blogData).Returns?
    ensures ExecuteAll(agents, blogData, exec, acc) == Raises(exec(agents[k], blogData).error)
    decreases k
  {
    if k > 0 {
      var acc' := acc[agents[0] := JObj(exec(agents[0], blogData).value)];
      assert agents[1..][k - 1] == agents[k];
      ExecuteAllRaises(agents[1..], blogData, exec, acc', k - 1);
    }
  }

  /** A phase whose agents all construct and return completes with exactly
      one result per agent class, each the agent's output for `blog_data`. */
  lemma PhaseCompletes(agents: seq<string>, blogData: map<string, Json>, ctor: Constructor, exec: Executor)
    requires forall i :: 0 <= i < |agents| ==> ctor(agents[i]).None?
    requires forall i :: 0 <= i < |agents| ==> exec(agents[i], blogData).Returns?
    ensures RunPhaseSpec(agents, blogData, ctor, exec).Returns?
    ensures var pr := RunPhaseSpec(agents, blogData, ctor, exec).value;
      pr.Keys == {"status", "agent_results"} && pr["status"] == JStr("completed")
      && pr["agent_results"].JObj?
      && (forall k :: k in pr["agent_results"].fields <==> k in agents)
      && (forall i :: 0 <= i < |agents| ==>
            pr["agent_results"].fields[agents[i]] == JObj(exec(agents[i], blogData).value))
  {
    ExecuteAllReturns(agents, blogData, exec, map[]);
  }

  /** A phase whose agents all construct raises the exception of the first
      agent whose `execute` raises; nothing catches it. */
  lemma PhaseRaisesFirstFailure(agents: seq<string>, blogData: map<string, Json>,
                                ctor: Constructor, exec: Executor, k: nat)
    requires forall i :: 0 <= i < |agents| ==> ctor(agents[i]).None?
    requires k < |agents| && exec(agents[k], blogData).Raises?
    requires forall i :: 0 <= i < k ==> exec(agents[i], blogData).Returns?
    ensures RunPhaseSpec(agents, blogData, ctor, exec) == Raises(exec(agents[k], blogData).error)
  {
    ExecuteAllRaises(agents, blogData, exec, map[], k);
  }

  /** A constructor that raises stops the phase before any agent executes:
      the outcome does not depend on the executors at all. */
  lemma ConstructionPrecedesExecution(agents: seq<string>, blogData: map<string, Json>,
                                      ctor: Constructor, exec1: Executor, exec2: Executor, k: nat)
    requires k < |agents| && ctor(agents[k]).Some?
    ensures RunPhaseSpec(agents, blogData, ctor, exec1) == RunPhaseSpec(agents, blogData, ctor, exec2)
    ensures RunPhaseSpec(agents, blogData, ctor, exec1).Raises?
  {
  }

  /** As written, any phase whose list holds `SectionWritingAgent` raises
      TypeError, whatever the agents' `execute` would do. */
  lemma AbstractAgentFailsPhase(agents: seq<string>, blogData: map<string, Json>, exec: Executor)
    requires "SectionWritingAgent" in agents
    ensures RunPhaseSpec(agents, blogData, SourceConstructor, exec)
         == Raises(PyError("TypeError", "Can't instantiate abstract class SectionWritingAgent with abstract method execute"))
  {
    var k :| 0 <= k < |agents| && agents[k] == "SectionWritingAgent";
    assert SourceConstructor(agents[k]).Some?;
  }

  /** `content_generation_phase` lists `SectionWritingAgent`, eighth of ten. */
  lemma ContentGenerationListsSectionWriter()
    ensures |PhaseAgents("content_generation_phase")| == 10
    ensures PhaseAgents("content_generation_phase")[7] == "SectionWritingAgent"
  {
  }

  /** Once every class constructs, a phase whose agents all return completes
      with one result per agent. */
  lemma FixedConstructorCompletes(agents: seq<string>, blogData: map<string, Json>, exec: Executor)
    requires forall i :: 0 <= i < |agents| ==> exec(agents[i], blogData).Returns?
    ensures RunPhaseSpec(agents, blogData, FixedConstructor, exec).Returns?
    ensures forall k :: k in RunPhaseSpec(agents, blogData, FixedConstructor, exec).value["agent_results"].fields
                        <==> k in agents
  {
    PhaseCompletes(agents, blogData, FixedConstructor, exec);
  }

  // ---------------------------------------------------------------------
  // execute_phase: a dict display from phase names to bound methods, then
  // `method = phase_methods.get(phase_name)`.
  // ---------------------------------------------------------------------

  /** The entries of the `phase_methods` display: the key and the attribute
      of `self` its value reads, in display order. */
  const TableAsWritten: seq<(string, string)> := [
    ("Core System & Learning", "core_system_learning_phase"),
    ("Ideation & Planning", "ideation_phase"),
    ("Research & Structuring", "research_phase"),
    ("SEO & Keyword Preparation", "seo_phase"),
    ("Drafting & Content generation", "content_generation_phase"),
    ("Content Enrichment", "enrichment_phase"),
    ("SEO Optimization & Linking", "seo_optimization_phase"),
    ("Editing & Validation", "editing_phase"),
    ("Plagiarism Check", "plagiarism_phase"),
    ("Ads & Monetization", "phase9_ads_and_monetization"),
    ("Scheduling & Publishing", "phase10_scheduling_publishing"),
    ("Promotion", "phase11_promotion"),
    ("Analytics & Update", "phase12_analytics_update"),
    ("Chatbot & Feedback", "phase13_chatbot_feedback"),
    ("Quality Assurance & Compliance", "phase14_quality_assurance"),
    ("Content Acquisition & Cloning", "phase15_archiving_version_control"),
    ("Safety, Security & Monitoring", "phase16_safety_security_monitoring"),
    ("Editorial Management & Collaboration", "phase17_team_collaboration_workflow"),
    ("Auxiliary/Support", "phase18_auxiliary_support")
  ]

  /** The table with "Content Enrichment" bound to the method that exists. */
  const TableEnrichmentFixed: seq<(string, string)> :=
    TableAsWritten[5 := ("Content Enrichment", "content_enrichment_phase")]

  /** The table with, in addition, the drafting key spelt as the phase
      sequence of `create_full_blog` and `compile_final_blog` spell it. */
  const TableFixed: seq<(string, string)> :=
    TableEnrichmentFixed[4 := ("Drafting & Content Generation", "content_generation_phase")]

  function MissingAttribute(attr: string): PyError {
    PyError("AttributeError", "'AgentManager' object has no attribute '" + attr + "'")
  }

  /** Evaluating the dict display: entries are evaluated in order, reading
      an attribute that is not a method raises AttributeError, and a later
      entry with the same key overrides an earlier one. */
  function BuildTable(entries: seq<(string, string)>): (r: Outcome<map<string, string>>)
    ensures r.Returns? <==> forall i :: 0 <= i < |entries| ==> IsPhaseMethod(entries[i].1)
    ensures r.Returns? ==> forall k :: k in r.value ==> IsPhaseMethod(r.value[k])
    decreases |entries|
  {
    if entries == [] then Returns(map[])
    else
      var n := |entries| - 1;
      match BuildTable(entries[..n])
      case Raises(e) => Raises(e)
      case Returns(t) =>
        if IsPhaseMethod(entries[n].1) then Returns(t[entries[n].0 := entries[n].1])
        else Raises(MissingAttribute(entries[n].1))
  }

  /** The keys of a table that builds are exactly the keys of its entries. */
  lemma {:induction false} BuildTableKeys(entries: seq<(string, string)>, k: string)
    requires BuildTable(entries).Returns?
    ensures k in BuildTable(entries).value <==> exists i :: 0 <= i < |entries| && entries[i].0 == k
    decreases |entries|
  {
    if entries != [] {
      var n := |entries| - 1;
      BuildTableKeys(entries[..n], k);
      if k in BuildTable(entries[..n]).value {
        var i :| 0 <= i < n && entries[..n][i].0 == k;
        assert entries[i].0 == k;
      }
      if exists i :: 0 <= i < |entries| && entries[i].0 == k {
        var i :| 0 <= i < |entries| && entries[i].0 == k;
        if i < n {
          assert entries[..n][i].0 == k;
        }
      }
    }
  }

  /** A key is bound to the attribute of its last entry. */
  lemma {:induction false} BuildTableLastWins(entries: seq<(string, string)>, i: nat)
    requires BuildTable(entries).Returns?
    requires i < |entries|
    requires forall j :: i < j < |entries| ==> entries[j].0 != entries[i].0
    ensures entries[i].0 in BuildTable(entries).value
    ensures BuildTable(entries).value[entries[i].0] == entries[i].1
    decreases |entries|
  {
    var n := |entries| - 1;
    if i < n {
      assert entries[..n][i] == entries[i];
      BuildTableLastWins(entries[..n], i);
    }
  }

  /** A table that does not build raises on the first entry whose attribute
      is not a method. */
  lemma {:induction false} BuildTableFirstMissing(entries: seq<(string, string)>, i: nat)
    requires i < |entries| && !IsPhaseMethod(entries[i].1)
    requires forall j :: 0 <= j < i ==> IsPhaseMethod(entries[j].1)
    ensures BuildTable(entries) == Raises(MissingAttribute(entries[i].1))
    decreases |entries|
  {
    var n := |entries| - 1;
    if i < n {
      assert entries[..n][i] == entries[i];
      BuildTableFirstMissing(entries[..n], i);
    } else {
      assert forall j :: 0 <= j < n ==> entries[..n][j] == entries[j];
    }
  }

  /** `phase_methods.get(phase_name)` after building the table: the
      attribute name of the method, or `None` for an unknown phase. */
  function LookupPhase(entries: seq<(string, string)>, phaseName: string): (r: Outcome<Option<string>>)
    ensures r.Returns? && r.value.Some? ==> IsPhaseMethod(r.value.value)
    ensures r.Raises? <==> BuildTable(entries).Raises?
  {
    var table :- BuildTable(entries);
    Returns(if phaseName in table then Some(table[phaseName]) else None)
  }

  /** `{"status": "error", "message": f"Unknown phase: {phase_name}"}` */
  function UnknownPhase(phaseName: string): map<string, Json> {
    map["status" := JStr("error"), "message" := JStr("Unknown phase: " + phaseName)]
  }

  /** What `execute_phase` returns or raises. */
  function ExecutePhaseSpec(entries: seq<(string, string)>, phaseName: string, blogData: map<string, Json>,
                            agentsOf: AgentLists, ctor: Constructor, exec: Executor): Outcome<map<string, Json>>
  {
    match LookupPhase(entries, phaseName)
    case Raises(e) => Raises(e)
    case Returns(None) => Returns(UnknownPhase(phaseName))
    case Returns(Some(attr)) => RunPhaseSpec(agentsOf(attr), blogData, ctor, exec)
  }

  /** `execute_phase`: look the name up and run that phase method, or
      report the unknown phase without running any agent. */
  method ExecutePhase(entries: seq<(string, string)>, phaseName: string, blogData: map<string, Json>,
                      agentsOf: AgentLists, ctor: Constructor, exec: Executor) returns (r: Outcome<map<string, Json>>)
    ensures r == ExecutePhaseSpec(entries, phaseName, blogData, agentsOf, ctor, exec)
  {
    var lookup := LookupPhase(entries, phaseName);
    match lookup
    case Raises(e) =>
      r := Raises(e);
    case Returns(None) =>
      r := Returns(UnknownPhase(phaseName));
    case Returns(Some(attr)) =>
      r := RunPhase(agentsOf(attr), blogData, ctor, exec);
  }

  /** A name missing from a table that builds gives the unknown-phase error
      and runs nothing, whatever the agents would do. */
  lemma UnknownPhaseRunsNothing(entries: seq<(string, string)>, phaseName: string, blogData: map<string, Json>,
                                agentsOf: AgentLists, ctor: Constructor, exec: Executor)
    requires forall i :: 0 <= i < |entries| ==> IsPhaseMethod(entries[i].1)
    requires forall i :: 0 <= i < |entries| ==> entries[i].0 != phaseName
    ensures ExecutePhaseSpec(entries, phaseName, blogData, agentsOf, ctor, exec)
         == Returns(map["status" := JStr("error"), "message" := JStr("Unknown phase: " + phaseName)])
  {
    BuildTableKeys(entries, phaseName);
  }

  /** As written, building the table raises on `self.enrichment_phase`. */
  lemma TableAsWrittenRaises()
    ensures BuildTable(TableAsWritten) == Raises(MissingAttribute("enrichment_phase"))
  {
    assert !IsPhaseMethod(TableAsWritten[5].1);
    assert forall j :: 0 <= j < 5 ==> IsPhaseMethod(TableAsWritten[j].1);
    BuildTableFirstMissing(TableAsWritten, 5);
  }

  /** A table that does not build makes every `execute_phase` call raise
      its error, before any lookup or agent runs. */
  lemma TableErrorEscapes(entries: seq<(string, string)>, phaseName: string, blogData: map<string, Json>,
                          agentsOf: AgentLists, ctor: Constructor, exec: Executor)
    requires BuildTable(entries).Raises?
    ensures ExecutePhaseSpec(entries, phaseName, blogData, agentsOf, ctor, exec) == Raises(BuildTable(entries).error)
  {
  }

  /** Hence, as written, every call of `execute_phase` raises AttributeError,
      for every phase name. */
  lemma ExecutePhaseAsWrittenRaises(phaseName: string, blogData: map<string, Json>,
                                    agentsOf: AgentLists, ctor: Constructor, exec: Executor)
    ensures ExecutePhaseSpec(TableAsWritten, phaseName, blogData, agentsOf, ctor, exec)
         == Raises(MissingAttribute("enrichment_phase"))
  {
    TableAsWrittenRaises();
    TableErrorEscapes(TableAsWritten, phaseName, blogData, agentsOf, ctor, exec);
  }

  /** With the fix, every entry names a method and the 19 keys are distinct,
      so each key selects the method written next to it. */
  lemma TableFixedBuilds()
    ensures BuildTable(TableFixed).Returns?
    ensures forall i :: 0 <= i < |TableFixed| ==> LookupPhase(TableFixed, TableFixed[i].0) == Returns(Some(TableFixed[i].1))
  {
    assert forall i :: 0 <= i < |TableFixed| ==> IsPhaseMethod(TableFixed[i].1);
    forall i | 0 <= i < |TableFixed|
      ensures LookupPhase(TableFixed, TableFixed[i].0) == Returns(Some(TableFixed[i].1))
    {
      assert forall j :: i < j < |TableFixed| ==> TableFixed[j].0 != TableFixed[i].0;
      BuildTableLastWins(TableFixed, i);
    }
  }


  // ---------------------------------------------------------------------
  // create_full_blog and compile_final_blog
  // ---------------------------------------------------------------------

  /** The phase sequence of `create_full_blog`, in order. */
  const SequenceAsWritten: seq<string> := [
    "Ideation & Planning",
    "Research & Structuring",
    "SEO & Keyword Preparation",
    "Drafting & Content Generation",
    "Content Enrichment",
    "SEO Optimization & Linking",
    "Editing & Validation",
    "Plagiarism Check",
    "Publishing Preparation",
    "Ads & Monetization",
    "Scheduling & Publishing",
    "Promotion",
    "Analytics & Update",
    "Chatbot & Feedback",
    "Quality Assurance & Compliance",
    "Content Acquisition & Cloning",
    "Safety, Security & Monitoring",
    "Editorial Management & Collaboration",
    "Auxiliary/Support"
  ]

  /** The caller's `blog_data` dict, which `create_full_blog` updates in place. */
  class BlogData {
    var entries: map<string, Json>

    constructor(init: map<string, Json>)
      ensures entries == init
    {
      entries := init;
    }

    /** `blog_data.update(other)`: a shallow merge in which `other` wins. */
    method Update(other: map<string, Json>)
      modifies this
      ensures entries == old(entries) + other
      ensures forall k :: k in other ==> entries[k] == other[k]
      ensures forall k :: k in old(entries) && k !in other ==> entries[k] == old(entries)[k]
    {
      entries := entries + other;
    }
  }

  /** `phase_result.get("status") == "completed"` */
  predicate IsCompleted(phaseResult: map<string, Json>) {
    Get(phaseResult, "status", JNull) == JStr("completed")
  }

  /** One call of `execute_phase` on the current `blog_data`. */
  type PhaseRunner = (string, map<string, Json>) -> Outcome<map<string, Json>>

  /** `self.execute_phase` for a given table, agent lists, constructors and
      executors. */
  function Runner(entries: seq<(string, string)>, agentsOf: AgentLists, ctor: Constructor, exec: Executor): PhaseRunner {
    (phaseName: string, blogData: map<string, Json>) => ExecutePhaseSpec(entries, phaseName, blogData, agentsOf, ctor, exec)
  }

  /** A phase result carries a `status` and no keys besides `status`,
      `agent_results` and `message`; a completed one carries exactly
      `status` and `agent_results`. */
  predicate PhaseResultShape(pr: map<string, Json>) {
    "status" in pr
    && (forall k :: k in pr ==> k == "status" || k == "agent_results" || k == "message")
    && (IsCompleted(pr) ==> pr.Keys == {"status", "agent_results"})
  }

  /** Every result a runner returns has the shape of a phase result. */
  ghost predicate WellShaped(run: PhaseRunner) {
    forall phaseName, blogData :: run(phaseName, blogData).Returns? ==> PhaseResultShape(run(phaseName, blogData).value)
  }

  /** `execute_phase` only ever returns `{"status", "agent_results"}` or
      `{"status", "message"}`. */
  lemma RunnerWellShaped(entries: seq<(string, string)>, agentsOf: AgentLists, ctor: Constructor, exec: Executor)
    ensures WellShaped(Runner(entries, agentsOf, ctor, exec))
  {
    var run := Runner(entries, agentsOf, ctor, exec);
    forall phaseName, blogData | run(phaseName, blogData).Returns?
      ensures PhaseResultShape(run(phaseName, blogData).value)
    {
      ExecutePhaseShape(entries, phaseName, blogData, agentsOf, ctor, exec);
    }
  }

  lemma ExecutePhaseShape(entries: seq<(string, string)>, phaseName: string, blogData: map<string, Json>,
                          agentsOf: AgentLists, ctor: Constructor, exec: Executor)
    ensures var r := ExecutePhaseSpec(entries, phaseName, blogData, agentsOf, ctor, exec);
      r.Returns? ==> PhaseResultShape(r.value)
  {
    var r := ExecutePhaseSpec(entries, phaseName, blogData, agentsOf, ctor, exec);
    if r.Returns? {
      if r.value == UnknownPhase(phaseName) {
        UnknownPhaseShape(phaseName);
      } else {
        var results :| r.value == Completed(results);
        CompletedShape(results);
      }
    }
  }

  lemma UnknownPhaseShape(phaseName: string)
    ensures PhaseResultShape(UnknownPhase(phaseName))
  {
    assert UnknownPhase(phaseName)["status"] == JStr("error");
  }

  lemma CompletedShape(results: map<string, Json>)
    ensures PhaseResultShape(Completed(results))
  {
    assert Completed(results).Keys == {"status", "agent_results"};
  }

  /** The state of `create_full_blog` after a prefix of the phases: the
      `results` dict, the contents of `blog_data`, every phase result in
      order, and the exception that ended the loop, if any. */
  datatype Progress = Progress(results: map<string, Json>, blog: map<string, Json>,
                               trail: seq<map<string, Json>>, raised: Option<PyError>)

  /** The loop of `create_full_blog` over `phases`, from `blog_data` = `blog0`:
      each phase runs on the current `blog_data`, its result is stored under
      its name, and a "completed" result is merged into `blog_data`. */
  function CreateSpec(phases: seq<string>, blog0: map<string, Json>, run: PhaseRunner): Progress
    decreases |phases|
  {
    if phases == [] then Progress(map[], blog0, [], None)
    else Step(CreateSpec(phases[..|phases| - 1], blog0, run), phases[|phases| - 1], run)
  }

  /** One pass of the loop: nothing more runs once a phase has raised. */
  function Step(p: Progress, name: string, run: PhaseRunner): Progress {
    if p.raised.Some? then p
    else
      match run(name, p.blog)
      case Raises(e) => p.(raised := Some(e))
      case Returns(pr) =>
        Progress(p.results[name := JObj(pr)], if IsCompleted(pr) then p.blog + pr else p.blog,
                 p.trail + [pr], None)
  }

  lemma CreateSpecSnoc(phases: seq<string>, i: nat, blog0: map<string, Json>, run: PhaseRunner)
    requires i < |phases|
    ensures CreateSpec(phases[..i + 1], blog0, run) == Step(CreateSpec(phases[..i], blog0, run), phases[i], run)
  {
    assert phases[..i + 1][..i] == phases[..i];
  }

  /** The last "completed" phase result of a run, if any. */
  function LastCompleted(trail: seq<map<string, Json>>): (r: Option<map<string, Json>>)
    ensures r.Some? ==> r.value in trail && IsCompleted(r.value)
    ensures r.None? <==> forall i :: 0 <= i < |trail| ==> !IsCompleted(trail[i])
  {
    if trail == [] then None
    else if IsCompleted(trail[|trail| - 1]) then Some(trail[|trail| - 1])
    else
      var r := LastCompleted(trail[..|trail| - 1]);
      assert forall i :: 0 <= i < |trail| - 1 ==> trail[..|trail| - 1][i] == trail[i];
      r
  }

  /** Once a phase raises, the remaining phases never run. */
  lemma {:induction false} RaisedStays(phases: seq<string>, j: nat, blog0: map<string, Json>, run: PhaseRunner)
    requires j <= |phases|
    requires CreateSpec(phases[..j], blog0, run).raised.Some?
    ensures CreateSpec(phases, blog0, run) == CreateSpec(phases[..j], blog0, run)
    decreases |phases| - j
  {
    if j < |phases| {
      var front := phases[..|phases| - 1];
      assert front[..j] == phases[..j];
      RaisedStays(front, j, blog0, run);
    } else {
      assert phases[..j] == phases;
    }
  }

  /** When no phase raises, there is one well-shaped result per phase. */
  lemma {:induction false} CreateSpecTrail(phases: seq<string>, blog0: map<string, Json>, run: PhaseRunner)
    requires WellShaped(run)
    requires CreateSpec(phases, blog0, run).raised.None?
    ensures |CreateSpec(phases, blog0, run).trail| == |phases|
    ensures forall pr :: pr in CreateSpec(phases, blog0, run).trail ==> PhaseResultShape(pr)
    decreases |phases|
  {
    if phases != [] {
      CreateSpecTrail(phases[..|phases| - 1], blog0, run);
    }
  }

  /** `phase_results` is keyed by exactly the sequenced names. */
  lemma {:induction false} CreateSpecKeys(phases: seq<string>, blog0: map<string, Json>, run: PhaseRunner)
    requires CreateSpec(phases, blog0, run).raised.None?
    ensures forall k :: k in CreateSpec(phases, blog0, run).results <==> k in phases
    decreases |phases|
  {
    if phases != [] {
      var n := |phases| - 1;
      CreateSpecKeys(phases[..n], blog0, run);
      forall k ensures k in phases <==> k in phases[..n] || k == phases[n] {
        assert phases == phases[..n] + [phases[n]];
      }
    }
  }

  /** A sequenced name holds the result of its last occurrence. */
  lemma {:induction false} CreateSpecLastOccurrence(phases: seq<string>, blog0: map<string, Json>, run: PhaseRunner, i: nat)
    requires CreateSpec(phases, blog0, run).raised.None?
    requires i < |phases| && forall j :: i < j < |phases| ==> phases[j] != phases[i]
    ensures var p := CreateSpec(phases, blog0, run);
      i < |p.trail| && phases[i] in p.results && p.results[phases[i]] == JObj(p.trail[i])
    decreases |phases|
  {
    var n := |phases| - 1;
    var front := phases[..n];
    var p := CreateSpec(front, blog0, run);
    var q := CreateSpec(phases, blog0, run);
    CreateSpecLength(front, blog0, run);
    assert q.trail == p.trail + [q.trail[n]];
    if i < n {
      assert front[i] == phases[i];
      CreateSpecLastOccurrence(front, blog0, run, i);
    }
  }

  lemma {:induction false} CreateSpecLength(phases: seq<string>, blog0: map<string, Json>, run: PhaseRunner)
    requires CreateSpec(phases, blog0, run).raised.None?
    ensures |CreateSpec(phases, blog0, run).trail| == |phases|
    decreases |phases|
  {
    if phases != [] {
      CreateSpecLength(phases[..|phases| - 1], blog0, run);
    }
  }

  /** The in-place merges change `blog_data` only in `status` and
      `agent_results`: every other key keeps its original value. */
  lemma {:induction false} CreateSpecKeepsOtherKeys(phases: seq<string>, blog0: map<string, Json>, run: PhaseRunner)
    requires WellShaped(run)
    requires CreateSpec(phases, blog0, run).raised.None?
    ensures var b := CreateSpec(phases, blog0, run).blog;
      (forall k :: k in b ==> k in blog0 || k == "status" || k == "agent_results")
      && (forall k :: k in blog0 && k != "status" && k != "agent_results" ==> k in b && b[k] == blog0[k])
    decreases |phases|
  {
    if phases != [] {
      CreateSpecKeepsOtherKeys(phases[..|phases| - 1], blog0, run);
    }
  }

  /** `status` and `agent_results` end up holding the last completed
      phase's values; with no completed phase `blog_data` is untouched. */
  lemma {:induction false} CreateSpecLastMerge(phases: seq<string>, blog0: map<string, Json>, run: PhaseRunner)
    requires WellShaped(run)
    requires CreateSpec(phases, blog0, run).raised.None?
    ensures var p := CreateSpec(phases, blog0, run);
      (LastCompleted(p.trail).None? ==> p.blog == blog0)
      && (LastCompleted(p.trail).Some? ==>
            "status" in p.blog && p.blog["status"] == JStr("completed")
            && "agent_results" in p.blog && "agent_results" in LastCompleted(p.trail).value
            && p.blog["agent_results"] == LastCompleted(p.trail).value["agent_results"])
    decreases |phases|
  {
    if phases != [] {
      var p := CreateSpec(phases[..|phases| - 1], blog0, run);
      CreateSpecLastMerge(phases[..|phases| - 1], blog0, run);
      var q := CreateSpec(phases, blog0, run);
      assert q.trail[..|q.trail| - 1] == p.trail;
    }
  }

  /** `str(value)` as an f-string renders it: a string as itself, any other
      value by its Python representation, which is a parameter here. */
  function Str(v: Json, repr: Json -> string): string {
    if v.JStr? then v.s else repr(v)
  }

  /** Python's name for the type of a value, as error messages print it. */
  function TypeName(v: Json): string {
    match v
    case JNull => "NoneType"
    case JBool(_) => "bool"
    case JInt(_) => "int"
    case JFloat(_) => "float"
    case JStr(_) => "str"
    case JList(_) => "list"
    case JObj(_) => "dict"
  }

  /** `v.get(key, default)`, which raises AttributeError unless `v` is a dict. */
  function DictGet(v: Json, key: string, default: Json): (r: Outcome<Json>)
    ensures r.Returns? <==> v.JObj?
  {
    if v.JObj? then Returns(Get(v.fields, key, default))
    else Raises(PyError("AttributeError", "'" + TypeName(v) + "' object has no attribute 'get'"))
  }

  /** `compile_final_blog`; `random.uniform(85, 95)` is the parameter
      `qualityScore`. */
  function CompileFinalBlog(blogData: map<string, Json>, phaseResults: map<string, Json>,
                            repr: Json -> string, qualityScore: real): Outcome<map<string, Json>>
  {
    var ideation := Get(phaseResults, "Ideation & Planning", JObj(map[]));
    var drafting := Get(phaseResults, "Drafting & Content Generation", JObj(map[]));
    var seo := Get(phaseResults, "SEO & Keyword Preparation", JObj(map[]));
    var enrichment := Get(phaseResults, "Content Enrichment", JObj(map[]));
    var topic := Get(blogData, "topic", JStr(""));
    // `seo_result.get("seo_data", {})` and `enrichment_result.get("enrichments", {})`
    // are evaluated several times with the same result; each is computed once.
    var title :- DictGet(ideation, "selected_title", JStr(Str(topic, repr) + ": Complete Guide"));
    var draftContent :- DictGet(drafting, "content", JObj(map[]));
    var content :- DictGet(draftContent, "main_content", JStr(""));
    var seoData :- DictGet(seo, "seo_data", JObj(map[]));
    var meta :- DictGet(seoData, "meta_description", JStr(""));
    var keywords :- DictGet(seoData, "secondary_keywords", JList([]));
    var enrichments :- DictGet(enrichment, "enrichments", JObj(map[]));
    var images :- DictGet(enrichments, "images", JObj(map[]));
    var statistics :- DictGet(enrichments, "statistics", JList([]));
    var quotes :- DictGet(enrichments, "quotes", JList([]));
    var seoScore :- DictGet(seoData, "seo_score", JInt(85));
    Returns(map[
      "title" := title, "content" := content, "meta_description" := meta,
      "keywords" := keywords, "images" := images, "statistics" := statistics,
      "quotes" := quotes, "seo_score" := seoScore, "quality_score" := JFloat(qualityScore)])
  }

  /** The final blog built from defaults only. */
  function DefaultFinalBlog(topic: string, qualityScore: real): map<string, Json> {
    map[
      "title" := JStr(topic + ": Complete Guide"), "content" := JStr(""), "meta_description" := JStr(""),
      "keywords" := JList([]), "images" := JObj(map[]), "statistics" := JList([]),
      "quotes" := JList([]), "seo_score" := JInt(85), "quality_score" := JFloat(qualityScore)]
  }

  /** Phase results never carry `selected_title`, `content`, `seo_data` or
      `enrichments`, so the projection falls back to every default. */
  lemma CompileUsesDefaults(blogData: map<string, Json>, phaseResults: map<string, Json>,
                            repr: Json -> string, qualityScore: real)
    requires forall k :: k in phaseResults ==> phaseResults[k].JObj? && PhaseResultShape(phaseResults[k].fields)
    ensures CompileFinalBlog(blogData, phaseResults, repr, qualityScore)
         == Returns(DefaultFinalBlog(Str(Get(blogData, "topic", JStr("")), repr), qualityScore))
  {
    var empty := JObj(map[]);
    var topic := Str(Get(blogData, "topic", JStr("")), repr);
    PhaseResultLacks(phaseResults, "Ideation & Planning", "selected_title");
    assert DictGet(Get(phaseResults, "Ideation & Planning", empty), "selected_title", JStr(topic + ": Complete Guide"))
        == Returns(JStr(topic + ": Complete Guide"));
    PhaseResultLacks(phaseResults, "Drafting & Content Generation", "content");
    assert DictGet(Get(phaseResults, "Drafting & Content Generation", empty), "content", empty) == Returns(empty);
    PhaseResultLacks(phaseResults, "SEO & Keyword Preparation", "seo_data");
    assert DictGet(Get(phaseResults, "SEO & Keyword Preparation", empty), "seo_data", empty) == Returns(empty);
    PhaseResultLacks(phaseResults, "Content Enrichment", "enrichments");
    assert DictGet(Get(phaseResults, "Content Enrichment", empty), "enrichments", empty) == Returns(empty);
  }

  /** The stored result of `name`, or the `{}` default, is a dict without
      `key` when `key` is none of the phase-result keys. */
  lemma PhaseResultLacks(phaseResults: map<string, Json>, name: string, key: string)
    requires forall k :: k in phaseResults ==> phaseResults[k].JObj? && PhaseResultShape(phaseResults[k].fields)
    requires key != "status" && key != "agent_results" && key != "message"
    ensures var v := Get(phaseResults, name, JObj(map[]));
      v.JObj? && key !in v.fields
  {
  }

  /** What `create_full_blog` returns or raises. */
  function FullBlogSpec(phases: seq<string>, blog0: map<string, Json>, run: PhaseRunner,
                        repr: Json -> string, qualityScore: real): Outcome<map<string, Json>>
  {
    var p := CreateSpec(phases, blog0, run);
    if p.raised.Some? then Raises(p.raised.value)
    else
      var finalBlog :- CompileFinalBlog(p.blog, p.results, repr, qualityScore);
      Returns(map[
        "status" := JStr("completed"), "phases_completed" := JInt(|phases|),
        "phase_results" := JObj(p.results), "final_blog" := JObj(finalBlog)])
  }

  /** The loop of `create_full_blog`: run the phases in order, store each
      result, and merge completed results into `blog_data` in place; stop
      at the first exception. */
  method RunPhases(entries: seq<(string, string)>, phases: seq<string>, blog: BlogData,
                   agentsOf: AgentLists, ctor: Constructor, exec: Executor)
    returns (results: map<string, Json>, raised: Option<PyError>)
    modifies blog
    ensures var p := CreateSpec(phases, old(blog.entries), Runner(entries, agentsOf, ctor, exec));
      blog.entries == p.blog && results == p.results && raised == p.raised
  {
    ghost var run := Runner(entries, agentsOf, ctor, exec);
    ghost var blog0 := blog.entries;
    results := map[];
    ghost var trail: seq<map<string, Json>> := [];
    var i := 0;
    while i < |phases|
      invariant 0 <= i <= |phases|
      invariant CreateSpec(phases[..i], blog0, run) == Progress(results, blog.entries, trail, None)
    {
      CreateSpecSnoc(phases, i, blog0, run);
      var phaseResult := ExecutePhase(entries, phases[i], blog.entries, agentsOf, ctor, exec);
      assert phaseResult == run(phases[i], blog.entries);
      if phaseResult.Raises? {
        RaisedStays(phases, i + 1, blog0, run);
        return results, Some(phaseResult.error);
      }
      results := results[phases[i] := JObj(phaseResult.value)];
      trail := trail + [phaseResult.value];
      if IsCompleted(phaseResult.value) {
        blog.Update(phaseResult.value);
      }
      i := i + 1;
    }
    assert phases[..|phases|] == phases;
    raised := None;
  }

  /** `create_full_blog`: the phase loop, then `compile_final_blog`. */
  method CreateFullBlog(entries: seq<(string, string)>, phases: seq<string>, blog: BlogData,
                        agentsOf: AgentLists, ctor: Constructor, exec: Executor,
                        repr: Json -> string, qualityScore: real)
    returns (r: Outcome<map<string, Json>>)
    modifies blog
    ensures blog.entries == CreateSpec(phases, old(blog.entries), Runner(entries, agentsOf, ctor, exec)).blog
    ensures r == FullBlogSpec(phases, old(blog.entries), Runner(entries, agentsOf, ctor, exec), repr, qualityScore)
  {
    var results, raised := RunPhases(entries, phases, blog, agentsOf, ctor, exec);
    if raised.Some? {
      return Raises(raised.value);
    }
    var compiled := CompileFinalBlog(blog.entries, results, repr, qualityScore);
    if compiled.Raises? {
      return Raises(compiled.error);
    }
    r := Returns(map[
      "status" := JStr("completed"), "phases_completed" := JInt(|phases|),
      "phase_results" := JObj(results), "final_blog" := JObj(compiled.value)]);
  }

  /** Every stored phase result is a dict of the phase-result shape. */
  lemma {:induction false} StoredResultsHaveShape(phases: seq<string>, blog0: map<string, Json>, run: PhaseRunner)
    requires WellShaped(run)
    requires CreateSpec(phases, blog0, run).raised.None?
    ensures var p := CreateSpec(phases, blog0, run);
      forall k :: k in p.results ==> p.results[k].JObj? && PhaseResultShape(p.results[k].fields)
    decreases |phases|
  {
    if phases != [] {
      StoredResultsHaveShape(phases[..|phases| - 1], blog0, run);
    }
  }

  /** The projection of a run that did not raise is the all-defaults blog,
      titled after the original topic, which no merge can overwrite. */
  lemma FinalBlogIsDefault(phases: seq<string>, blog0: map<string, Json>, run: PhaseRunner,
                           repr: Json -> string, qualityScore: real)
    requires WellShaped(run)
    requires CreateSpec(phases, blog0, run).raised.None?
    ensures var p := CreateSpec(phases, blog0, run);
      CompileFinalBlog(p.blog, p.results, repr, qualityScore)
        == Returns(DefaultFinalBlog(Str(Get(blog0, "topic", JStr("")), repr), qualityScore))
  {
    var p := CreateSpec(phases, blog0, run);
    CreateSpecKeepsOtherKeys(phases, blog0, run);
    assert Get(p.blog, "topic", JStr("")) == Get(blog0, "topic", JStr(""));
    StoredResultsHaveShape(phases, blog0, run);
    CompileUsesDefaults(p.blog, p.results, repr, qualityScore);
  }

  /** `phases_completed` is the length of the sequence whatever the phases
      returned, and the final blog is the all-defaults projection. */
  lemma FullBlogOutcome(entries: seq<(string, string)>, phases: seq<string>, blog0: map<string, Json>,
                        agentsOf: AgentLists, ctor: Constructor, exec: Executor, repr: Json -> string, qualityScore: real)
    requires CreateSpec(phases, blog0, Runner(entries, agentsOf, ctor, exec)).raised.None?
    ensures var r := FullBlogSpec(phases, blog0, Runner(entries, agentsOf, ctor, exec), repr, qualityScore);
      r.Returns? && r.value["status"] == JStr("completed") && r.value["phases_completed"] == JInt(|phases|)
      && r.value["final_blog"] == JObj(DefaultFinalBlog(Str(Get(blog0, "topic", JStr("")), repr), qualityScore))
  {
    RunnerWellShaped(entries, agentsOf, ctor, exec);
    FinalBlogIsDefault(phases, blog0, Runner(entries, agentsOf, ctor, exec), repr, qualityScore);
  }

  /** As written, `create_full_blog` raises AttributeError from its first
      phase and leaves `blog_data` untouched. */
  lemma FullBlogAsWrittenRaises(blog0: map<string, Json>, agentsOf: AgentLists, ctor: Constructor, exec: Executor,
                                repr: Json -> string, qualityScore: real)
    ensures CreateSpec(SequenceAsWritten, blog0, Runner(TableAsWritten, agentsOf, ctor, exec)).blog == blog0
    ensures FullBlogSpec(SequenceAsWritten, blog0, Runner(TableAsWritten, agentsOf, ctor, exec), repr, qualityScore)
         == Raises(MissingAttribute("enrichment_phase"))
  {
    var run := Runner(TableAsWritten, agentsOf, ctor, exec);
    ExecutePhaseAsWrittenRaises(SequenceAsWritten[0], blog0, agentsOf, ctor, exec);
    assert SequenceAsWritten[..1][..0] == [];
    RaisedStays(SequenceAsWritten, 1, blog0, run);
  }

  /** With only the attribute fixed, the drafting phase of the sequence
      differs from its key in case, so it yields the unknown-phase error. */
  lemma DraftingNameMisses(blogData: map<string, Json>, agentsOf: AgentLists, ctor: Constructor, exec: Executor)
    ensures ExecutePhaseSpec(TableEnrichmentFixed, SequenceAsWritten[3], blogData, agentsOf, ctor, exec)
         == Returns(UnknownPhase("Drafting & Content Generation"))
  {
    assert forall i :: 0 <= i < |TableEnrichmentFixed| ==> IsPhaseMethod(TableEnrichmentFixed[i].1);
    UnknownPhaseRunsNothing(TableEnrichmentFixed, SequenceAsWritten[3], blogData, agentsOf, ctor, exec);
  }

  /** "Publishing Preparation" has no key at all. */
  lemma PublishingPreparationMisses(blogData: map<string, Json>, agentsOf: AgentLists, ctor: Constructor, exec: Executor)
    ensures ExecutePhaseSpec(TableFixed, SequenceAsWritten[8], blogData, agentsOf, ctor, exec)
         == Returns(UnknownPhase("Publishing Preparation"))
  {
    TableFixedBuilds();
    UnknownPhaseRunsNothing(TableFixed, SequenceAsWritten[8], blogData, agentsOf, ctor, exec);
  }

  /** "Core System & Learning" has a key but is never sequenced. */
  lemma CoreSystemNeverSequenced()
    ensures TableFixed[0].0 == "Core System & Learning" && TableFixed[0].0 !in SequenceAsWritten
  {
  }

  /** With the table fixed, the drafting step of the sequence selects the
      drafting method. */
  lemma DraftingNameMatches()
    ensures LookupPhase(TableFixed, SequenceAsWritten[3]) == Returns(Some("content_generation_phase"))
  {
    TableFixedBuilds();
    assert SequenceAsWritten[3] == TableFixed[4].0;
  }

  /** The sequence without "Publishing Preparation", for which no phase
      method exists. */
  const SequenceFixed: seq<string> := SequenceAsWritten[..8] + SequenceAsWritten[9..]

  /** With the table fixed and "Publishing Preparation" dropped, every
      sequenced name selects a phase method, so no step of
      `create_full_blog` yields the unknown-phase error. */
  lemma SequenceFixedMatches()
    ensures |SequenceFixed| == 18
    ensures forall i :: 0 <= i < |SequenceFixed| ==>
              LookupPhase(TableFixed, SequenceFixed[i]).Returns? && LookupPhase(TableFixed, SequenceFixed[i]).value.Some?
  {
    TableFixedBuilds();
    forall i | 0 <= i < |SequenceFixed|
      ensures LookupPhase(TableFixed, SequenceFixed[i]) == Returns(Some(TableFixed[i + 1].1))
    {
      SequenceFixedKey(i);
    }
  }

  /** Name i of the corrected sequence is key i + 1 of the corrected table. */
  lemma SequenceFixedKey(i: nat)
    requires i < 18
    ensures |SequenceFixed| == 18 && SequenceFixed[i] == TableFixed[i + 1].0
  {
    if i < 8 {
      assert SequenceFixed[i] == SequenceAsWritten[i];
    } else {
      assert SequenceFixed[i] == SequenceAsWritten[i + 1];
    }
  }
}
