# Blog creation suite: a verified model of its agent runtime and text logic

The blog creation suite runs a pipeline of about 170 agents, each a subclass
of `BaseAgent`, grouped into nineteen phases by an `AgentManager`. Most agents
return canned or random dictionaries. This project models the parts that make
real decisions and proves what they promise:

- **The agent execution wrapper** (`BaseAgent`, `base_agent.dfy`). It is a
  class whose `Run` method performs the bounded retry loop with exponential
  backoff. The method updates the status, the success, failure and retry
  counters, the timings and the output cache. The class also covers the
  dependency check, statistics, reset, configure, set-context and the cache
  accessor.
- **The phase orchestrator** (`agent_manager.dfy`):
  - the phase methods;
  - the name-to-method table behind `execute_phase`;
  - `create_full_blog`, which merges each completed phase result into the
    caller's `blog_data` dict in place (modelled as the `BlogData` class);
  - `compile_final_blog`.
  Three defects in that file are recorded under "Findings".
- **The text helpers of the web server** (`main_text.dfy`, `main_html.dfy`):
  - `clean_text`, `clean_separator_lines`, `clean_markdown_formatting` and
    `sanitize_caption`;
  - the caption fallback and the reading-time formula;
  - the list-state machine of `generate_html`, as a method with its loop.
- **The phase 8 originality and hallucination heuristics**
  (`phase8_*.dfy`):
  - shingles and Jaccard similarity, and the type-token ratio;
  - fact and reference coverage, and the claim and trigger filters;
  - the originality gate, the three-step paraphrase correction, the
    substitution table and the staleness rule.
- **The small list and string transformers among the agents**
  (`research.dfy`, `planning.dfy`, `drafting.dfy`, `enrichment.dfy`,
  `auxiliary.dfy`):
  - reference and source validation, gap filters, topic ranking and outline
    mapping;
  - round-robin keyword planning and incremental keyword clustering;
  - snippet chunking, truncation with an ellipsis and the markdown body
    writer;
  - numbered appendices, clones, stat injection, the image-prompt product
    and the multimedia embed list;
  - string reversal and tag normalisation.
- **The Pexels helper** (`pexels.dfy`): the API-key gate and the mock
  search response.

Shared modules hold the Python-level vocabulary the agents rely on:

- `Wrappers`: `Option` and `Outcome`, a value or a raised Python exception.
- `JsonValue`: dictionary values.
- `SeqUtil`: comprehension-style filters and maps with their laws.
- `PyText`: `strip`, `lower`, `split`, `join`, slices and runs of characters.

Where the source draws random numbers to steer control flow, the draws are an
explicit input: a function from position to value (`coin`). The clock is a
parameter (`start`, `end`, `now`). An agent's `execute` is a parameter too:
what each attempt returns or raises. The network is represented only by the
answer the service gave (`Http`).

## Model

| member | source | states |
|---|---|---|
| BaseAgentModel.InitialState | agents/base_agent.py:34-53 | A fresh agent is IDLE with success, failure and retry counts 0, no cached output, no last run, max_retries 3, empty config and context. Missing dependencies become []. |
| BaseAgentModel.BaseAgent.constructor | agents/base_agent.py:24-53 | The new object's whole state is `InitialState` of the arguments. |
| BaseAgentModel.ValidateDependencies | agents/base_agent.py:214-224 | Defines `validate_dependencies`. It is true with no dependencies, and otherwise scans the names with Python's `in` on `input_data.get("agent_results", {})`. `DependenciesMetIff` and `ValidateDependenciesSpec` state its meaning. |
| BaseAgentModel.DependenciesMetIff | agents/base_agent.py:219-224 | Against a results dict, the dependency loop returns true iff every declared name is a key of that dict. |
| BaseAgentModel.ValidateDependenciesSpec | agents/base_agent.py:214-224 | `validate_dependencies` is true for no dependencies. Otherwise it is true iff every name is a key of `input_data["agent_results"]`, and a missing map counts as empty. |
| BaseAgentModel.BaseAgent.PreExecute | agents/base_agent.py:72-90 | Returns the input unchanged iff the dependency check returns true. A false check raises ValueError "Dependencies not met for <name>". An error inside the check escapes. |
| BaseAgentModel.BaseAgent.PostExecute | agents/base_agent.py:92-110 | Returns the payload unchanged. The cache becomes the payload's "result" only when the payload's "status" is "success". |
| BaseAgentModel.BaseAgent.TryOnce | agents/base_agent.py:130-135 | One pass through the `try` body is `pre_execute` followed by the attempt's `execute` outcome. |
| BaseAgentModel.FirstSuccess | agents/base_agent.py:129-170 | The attempt that ends the loop with a return is the first returning attempt among 0..max_retries. Every earlier attempt raised. If there is none, all of them raised. |
| BaseAgentModel.BaseAgent.RecordSuccess | agents/base_agent.py:138-158 | After a returning attempt: success_count + 1, COMPLETED, retry_count 0, last and total execution time updated, cache per `post_execute`. The success envelope carries `attempt + 1`. |
| BaseAgentModel.BaseAgent.RecordFailure | agents/base_agent.py:172-192 | After the last allowed attempt raised: failure_count + 1, ERROR, last execution time set. The error envelope carries the attempt count and the error's type and message. |
| BaseAgentModel.RunSpec | agents/base_agent.py:112-202 | Defines the outcome of `run`: the new run-time state, the envelope and the backoff waits. `RunSpecSuccess`, `RunSpecFailure`, `RunBackoffs` and `NegativeRetriesNeverRun` state them, and `BaseAgent.Run` is proved equal to it. |
| BaseAgentModel.BaseAgent.Run | agents/base_agent.py:112-202 | The new run-time attributes, the envelope and the backoff waits are exactly `RunSpec` of the old state. Only the run-time attributes change. |
| BaseAgentModel.RunSpecSuccess | agents/base_agent.py:135-158 | When attempt k is the first to return, `run`'s effect is the success state and envelope for k, after k backoff waits. |
| BaseAgentModel.RunSpecFailure | agents/base_agent.py:160-192 | When no attempt returns, `run`'s effect is the failure state and the error envelope of the last attempt's exception. |
| BaseAgentModel.FirstSuccessNone | agents/base_agent.py:129-170 | If every attempt from `from` to max_retries raises, no attempt succeeds. |
| BaseAgentModel.FirstSuccessAt | agents/base_agent.py:129-158 | If attempts before k raise and attempt k returns, the loop ends with attempt k. |
| BaseAgentModel.RunAllAttemptsFail | agents/base_agent.py:129-192 | If every attempt fails: max_retries + 1 attempts, an "error" envelope, failure_count + 1, success_count unchanged. Also ERROR, retry_count = max_retries + 1, cache and total time unchanged, and max_retries waits. |
| BaseAgentModel.MissingDependencyIsRetried | agents/base_agent.py:84-85 | An unmet dependency raises ValueError inside the retry `try`, so it is retried: max_retries + 1 attempts, an error envelope of type ValueError, one more failure, status ERROR. |
| BaseAgentModel.RunSucceedsAfterFailures | agents/base_agent.py:135-171 | If the first k attempts fail and attempt k + 1 returns: a "success" envelope with attempt k + 1 and the payload, success_count + 1, failure_count unchanged. Also COMPLETED, retry_count 0, total time increased by the run time, and k waits. |
| BaseAgentModel.RunCacheRule | agents/base_agent.py:103-105 | `run` changes the cache only through a success envelope whose payload has status "success". The new cache is that payload's "result". |
| BaseAgentModel.Pow2 | agents/base_agent.py:169 | `2 ** attempt` is at least 1. |
| BaseAgentModel.BackoffsShape | agents/base_agent.py:161-170 | The waits after failed attempts 1..j are exactly 2^1, ..., 2^j, in order. |
| BaseAgentModel.RunBackoffs | agents/base_agent.py:161-171 | The waits of one run are 2^1, 2^2, ... in order. Their number is the number of failed attempts followed by another attempt, so no wait follows the last attempt. |
| BaseAgentModel.NegativeRetriesNeverRun | agents/base_agent.py:129-202 | With a negative max_retries the loop never runs: the "Unknown execution error" envelope, status IDLE, no waits and no counter change. |
| BaseAgentModel.StatsOf | agents/base_agent.py:233-252 | success_rate = 100·s/(s+f), lies in [0, 100], and is 0 with no executions. It is 100 iff some success and no failure. average_execution_time times the number of executions is the total time, and is 0 with no executions. Total and last execution times, counters, status, name, phase, description, dependencies, created_at and last_run_at are echoed. |
| BaseAgentModel.BaseAgent.GetStats | agents/base_agent.py:226-252 | Reads the object and returns `StatsOf` its state. |
| BaseAgentModel.ResetOf | agents/base_agent.py:254-262 | Counters and times are zeroed, status is IDLE, the cache is cleared, last_run_at is kept. |
| BaseAgentModel.BaseAgent.ResetStats | agents/base_agent.py:254-262 | The run-time attributes become `ResetOf` the old ones. Name, phase, dependencies, config and max_retries are outside its frame. |
| BaseAgentModel.ResetIdempotent | agents/base_agent.py:254-262 | Resetting twice equals resetting once. A reset agent matches a fresh one apart from last_run_at. Its stats show zero counts, rate 0 and "idle". |
| BaseAgentModel.ConfigureOf | agents/base_agent.py:264-275 | config is a shallow merge in which the new keys win. max_retries is replaced only when the key is present. Nothing else changes. |
| BaseAgentModel.BaseAgent.Configure | agents/base_agent.py:264-275 | The object's new state is `ConfigureOf` the old state. |
| BaseAgentModel.SetContextOf | agents/base_agent.py:277-284 | context is a shallow merge in which the new keys win. Nothing else changes. |
| BaseAgentModel.BaseAgent.SetContext | agents/base_agent.py:277-284 | The object's new state is `SetContextOf` the old state. |
| BaseAgentModel.BaseAgent.GetCachedOutput | agents/base_agent.py:286-293 | Returns the cached output and changes nothing. |
| AgentManagerModel.SourceConstructor | agents/phase4/section_writing_agent.py:9 | As written, constructing an agent class raises exactly for `SectionWritingAgent`, whose `execute` sits outside the class. |
| AgentManagerModel.FixedConstructor | agents/phase4/section_writing_agent.py:9 | Once `execute` is a method of the class, every agent class constructs. |
| AgentManagerModel.ConstructionError | utils/agent_manager.py:218-221 | The agents list raises iff some constructor raises. The exception is that of the first such class in list order. |
| AgentManagerModel.RunPhaseSpec | utils/agent_manager.py:217-226 | Defines a phase method. It constructs every agent in list order, then awaits each `execute` on the same `blog_data`, keyed by class name. `PhaseCompletes` and `PhaseRaisesFirstFailure` state its two outcomes. |
| AgentManagerModel.RunPhase | utils/agent_manager.py:217-226 | A phase method builds every agent first, then executes each in order on the same `blog_data`. It returns `{"status": "completed", "agent_results": ...}` or raises the first exception. |
| AgentManagerModel.ExecuteAllReturns | utils/agent_manager.py:222-225 | When every agent returns, the results dict has one key per agent class, each holding that agent's output for `blog_data`. Other keys are kept. |
| AgentManagerModel.ExecuteAllRaises | utils/agent_manager.py:222-225 | The first agent whose `execute` raises ends the loop with its exception. |
| AgentManagerModel.PhaseCompletes | utils/agent_manager.py:217-226 | A phase whose agents all construct and return completes. Its result has exactly the keys status and agent_results, and agent_results is keyed by exactly the agent classes. |
| AgentManagerModel.PhaseRaisesFirstFailure | utils/agent_manager.py:222-225 | A phase whose agents all construct raises the exception of the first agent whose `execute` raises. |
| AgentManagerModel.ConstructionPrecedesExecution | utils/agent_manager.py:218-225 | A constructor that raises makes the phase raise whatever the agents' `execute` would do. |
| AgentManagerModel.AbstractAgentFailsPhase | agents/phase4/section_writing_agent.py:9 | As written, any phase listing `SectionWritingAgent` raises the abstract-class TypeError. |
| AgentManagerModel.ContentGenerationListsSectionWriter | utils/agent_manager.py:297-308 | `content_generation_phase` lists ten agents, the eighth of which is `SectionWritingAgent`. |
| AgentManagerModel.FixedConstructorCompletes | utils/agent_manager.py:297-314 | With the fixed constructor, a phase whose agents all return completes with one result per agent class. |
| AgentManagerModel.BuildTable | utils/agent_manager.py:555-575 | Building the `phase_methods` display succeeds iff every entry names an existing phase method, and then every value is a phase method. |
| AgentManagerModel.BuildTableKeys | utils/agent_manager.py:555-575 | The keys of a built table are exactly the keys of its entries. |
| AgentManagerModel.BuildTableLastWins | utils/agent_manager.py:555-575 | A key is bound to the method of its last entry. |
| AgentManagerModel.BuildTableFirstMissing | utils/agent_manager.py:555-575 | A table that does not build raises AttributeError for the first entry whose method does not exist. |
| AgentManagerModel.LookupPhase | utils/agent_manager.py:576 | `phase_methods.get` raises iff the table does not build. A hit is always a phase method. |
| AgentManagerModel.ExecutePhaseSpec | utils/agent_manager.py:554-579 | Defines `execute_phase`: build the table, look the name up, run the selected phase or return the unknown-phase dict. `UnknownPhaseRunsNothing`, `TableErrorEscapes` and `ExecutePhaseShape` state it. |
| AgentManagerModel.ExecutePhase | utils/agent_manager.py:554-579 | `execute_phase` returns or raises exactly what `ExecutePhaseSpec` says: the selected phase method's outcome, or the unknown-phase error. |
| AgentManagerModel.UnknownPhaseRunsNothing | utils/agent_manager.py:576-579 | A name with no key in a table that builds gives `{"status": "error", "message": "Unknown phase: <name>"}`, and no agent runs. |
| AgentManagerModel.TableAsWrittenRaises | utils/agent_manager.py:561 | As written, building the table raises AttributeError on `enrichment_phase`. |
| AgentManagerModel.TableErrorEscapes | utils/agent_manager.py:555-579 | A table that does not build makes every `execute_phase` call raise that error. |
| AgentManagerModel.ExecutePhaseAsWrittenRaises | utils/agent_manager.py:554-579 | As written, every call of `execute_phase` raises AttributeError, whatever the phase name. |
| AgentManagerModel.TableFixedBuilds | utils/agent_manager.py:555-576 | Take "Content Enrichment" bound to `content_enrichment_phase` and the drafting key spelt "Drafting & Content Generation". Then the table builds, and each key selects its own method. |
| AgentManagerModel.BlogData.constructor | utils/agent_manager.py:582 | The caller's `blog_data` dict starts with the given entries. |
| AgentManagerModel.BlogData.Update | utils/agent_manager.py:611-612 | `blog_data.update(phase_result)`: the new keys win and the other keys keep their values. |
| AgentManagerModel.RunnerWellShaped | utils/agent_manager.py:554-579 | `execute_phase` only ever returns a dict with a status and otherwise only agent_results or message. |
| AgentManagerModel.ExecutePhaseShape | utils/agent_manager.py:554-579 | Whatever `execute_phase` returns (the completed envelope or the unknown-phase error) has the phase-result shape. |
| AgentManagerModel.UnknownPhaseShape | utils/agent_manager.py:579 | The unknown-phase result has the phase-result shape. |
| AgentManagerModel.CompletedShape | utils/agent_manager.py:226 | The completed envelope has the phase-result shape. |
| AgentManagerModel.CreateSpecSnoc | utils/agent_manager.py:606-612 | One more phase of the loop is one `Step`. |
| AgentManagerModel.LastCompleted | utils/agent_manager.py:611-612 | The last completed result of a run is a completed member of the trail, and there is none iff no result completed. |
| AgentManagerModel.RaisedStays | utils/agent_manager.py:606-612 | Once a phase raises, no later phase runs. |
| AgentManagerModel.CreateSpecTrail | utils/agent_manager.py:606-612 | When nothing raises, the loop stores one well-shaped result per sequenced phase. |
| AgentManagerModel.CreateSpecKeys | utils/agent_manager.py:606-610 | `results` is keyed by exactly the sequenced phase names. |
| AgentManagerModel.CreateSpecLastOccurrence | utils/agent_manager.py:606-610 | A sequenced name holds the result of its last occurrence. |
| AgentManagerModel.CreateSpecLength | utils/agent_manager.py:606-612 | When nothing raises, the loop runs every sequenced phase once. |
| AgentManagerModel.CreateSpecKeepsOtherKeys | utils/agent_manager.py:611-612 | The in-place merges add or change only the keys status and agent_results of `blog_data`; every other key, `topic` included, keeps its value. |
| AgentManagerModel.CreateSpecLastMerge | utils/agent_manager.py:611-612 | status and agent_results end up holding those of the last completed phase, if any. |
| AgentManagerModel.DictGet | utils/agent_manager.py:629-637 | `v.get(key, default)` returns iff `v` is a dict, and raises AttributeError otherwise. |
| AgentManagerModel.CompileFinalBlog | utils/agent_manager.py:621-638 | Defines `compile_final_blog`, with the chained `.get` calls that raise on a non-dict. `CompileUsesDefaults` states its result on stored phase results. |
| AgentManagerModel.CompileUsesDefaults | utils/agent_manager.py:621-638 | Stored phase results never carry selected_title, content, seo_data or enrichments. So `compile_final_blog` yields every default: the title "<topic>: Complete Guide", empty content and lists, seo_score 85. |
| AgentManagerModel.PhaseResultLacks | utils/agent_manager.py:623-626 | The stored result of a phase, or the `{}` default, is a dict without any key other than status, agent_results and message. |
| AgentManagerModel.RunPhases | utils/agent_manager.py:605-612 | The loop leaves `blog_data` and `results` exactly as `CreateSpec` says, or stops at the first exception. |
| AgentManagerModel.CreateSpec | utils/agent_manager.py:606-612 | Defines the loop of `create_full_blog`: the blog data, the results dict, the trail, and the exception that stopped it, if any. `CreateSpecKeys`, `CreateSpecLastMerge`, `CreateSpecKeepsOtherKeys` and `RaisedStays` state it. |
| AgentManagerModel.FullBlogSpec | utils/agent_manager.py:582-619 | Defines `create_full_blog`'s returned dict, or the exception it raises. `FullBlogOutcome`, `FinalBlogIsDefault` and `FullBlogAsWrittenRaises` state it. |
| AgentManagerModel.CreateFullBlog | utils/agent_manager.py:582-619 | `create_full_blog` updates `blog_data` as `CreateSpec` says and returns or raises `FullBlogSpec`. |
| AgentManagerModel.StoredResultsHaveShape | utils/agent_manager.py:606-610 | Every stored phase result is a dict of the phase-result shape. |
| AgentManagerModel.FinalBlogIsDefault | utils/agent_manager.py:611-638 | A run that does not raise compiles the all-defaults blog, titled after the original topic. |
| AgentManagerModel.FullBlogOutcome | utils/agent_manager.py:614-619 | With no exception, the result has status "completed", phases_completed equal to the number of sequenced names whatever each phase returned, and the all-defaults final blog. |
| AgentManagerModel.FullBlogAsWrittenRaises | utils/agent_manager.py:561-608 | As written, `create_full_blog` raises AttributeError from its first phase and leaves `blog_data` unchanged. |
| AgentManagerModel.DraftingNameMisses | utils/agent_manager.py:560-588 | With only the attribute fixed, "Drafting & Content Generation" misses the key "Drafting & Content generation" and gives the unknown-phase error. |
| AgentManagerModel.PublishingPreparationMisses | utils/agent_manager.py:593 | "Publishing Preparation" has no key, so it gives the unknown-phase error. |
| AgentManagerModel.CoreSystemNeverSequenced | utils/agent_manager.py:556-604 | "Core System & Learning" has a key but is never sequenced. |
| AgentManagerModel.DraftingNameMatches | utils/agent_manager.py:560-588 | With the table fixed, the drafting step of the sequence selects `content_generation_phase`. |
| AgentManagerModel.SequenceFixedMatches | utils/agent_manager.py:554-604 | With the table fixed and "Publishing Preparation" dropped, each of the 18 sequenced names selects a phase method, so no step gives the unknown-phase error. |
| TextHelpers.CleanText | main.py:421-423 | The result is ASCII only and no longer than the input. |
| TextHelpers.CleanTextAscii | main.py:421-423 | ASCII text passes through `clean_text` unchanged. |
| TextHelpers.CleanTextIdempotent | main.py:421-423 | Cleaning twice is cleaning once. |
| TextHelpers.CleanTextRun | main.py:423 | A maximal run of non-ASCII characters, however long, becomes a single space. |
| TextHelpers.CleanTextKeepsAscii | main.py:421-423 | Every visible ASCII character survives, in order, and no other visible character appears. |
| TextHelpers.KeptLines | main.py:426-435 | The kept lines are a subsequence of the split lines, and a line is kept iff it is not a separator line (non-empty once stripped and made only of `=-_*#`). |
| TextHelpers.CleanSeparatorLines | main.py:426-435 | The loop returns the kept lines joined by newlines. |
| TextHelpers.CleanSeparatorLinesLines | main.py:426-435 | The result splits back into exactly the kept lines, verbatim and in order, or into one empty line when none is kept. |
| TextHelpers.CleanSeparatorLinesIdempotent | main.py:426-435 | Cleaning separator lines twice is cleaning them once. |
| TextHelpers.SpacedDashesSurvive | main.py:431 | "- - -" is not a separator line, because a space is not a separator character. |
| TextHelpers.Bold | main.py:442 | Removing bold spans never lengthens the text. |
| TextHelpers.BoldKeepsText | main.py:442 | Removing bold spans deletes only stars: every other character survives, in order. |
| TextHelpers.BoldSpan | main.py:442 | A bold span on one line loses exactly its two pairs of delimiters. |
| TextHelpers.Italic | main.py:443 | Removing italic spans never lengthens the text. |
| TextHelpers.ItalicKeepsText | main.py:443 | Removing italic spans deletes only stars: every other character survives, in order. |
| TextHelpers.ItalicSpan | main.py:443 | A non-empty italic span without stars loses exactly its two delimiters. |
| TextHelpers.StripHeadingMarkerSuffix | main.py:444 | What is left is a suffix of the text, and everything cut is whitespace or `#`. |
| TextHelpers.HeadingMarkerOnlyAtStart | main.py:444 | Text that starts with a visible character other than `#` is unchanged: a marker later on is not touched. |
| TextHelpers.HeadingMarkerRemoved | main.py:444 | "## " in front of a heading is removed entirely. |
| TextHelpers.CleanMarkdownFormatting | main.py:438-445 | Defines `clean_markdown_formatting`: bold removal, then italic removal, then the anchored heading-marker removal. `CleanMarkdownKeepsText`, `BoldSpan`, `ItalicSpan` and `HeadingMarkerOnlyAtStart` state it. |
| TextHelpers.CleanMarkdownKeepsText | main.py:438-445 | `clean_markdown_formatting` deletes only `*`, `#` and whitespace: every other character survives, in order. |
| TextHelpers.PunctToSpace | main.py:449 | Same length. Each word or whitespace character is kept and every other character becomes a space. |
| TextHelpers.CollapseSpaces | main.py:450 | Every visible character of the result comes from the input. |
| TextHelpers.CollapseAllSpace | main.py:450 | The collapsed text is all whitespace iff the input was. |
| TextHelpers.Shortened | main.py:456-457 | At most `max_words` words, none of them longer than 20 characters. |
| TextHelpers.CaptionWordsEmpty | main.py:449-454 | The caption has no words iff it has no word character. |
| TextHelpers.CaptionWordsAreWords | main.py:449-452 | Every word of the caption is non-empty and made only of word characters. |
| TextHelpers.JoinedWordsSplit | main.py:458 | Non-empty words of word characters, joined by single spaces, split back into the same words. |
| TextHelpers.ShortenedWords | main.py:456-457 | Shortening keeps the words non-empty, at most 20 long and made of word characters. |
| TextHelpers.SanitizeCaption | main.py:448-458 | Defines `sanitize_caption`: "Image" when no word remains, otherwise the shortened words joined by spaces. `SanitizeCaptionShape`, `SanitizeCaptionNoWords` and `SanitizeCaptionZero` state it. |
| TextHelpers.SanitizeCaptionShape | main.py:448-458 | A caption with a word character becomes at most `max_words` words of 1 to 20 word characters each. The result splits back into exactly those words. |
| TextHelpers.SanitizeCaptionNoWords | main.py:452-454 | A caption with no word character becomes "Image". |
| TextHelpers.SanitizeCaptionZero | main.py:456 | `max_words = 0` on a caption with words gives "", not "Image". |
| TextHelpers.DeletePunct | main.py:369 | Only word and whitespace characters remain. |
| TextHelpers.CaptionFallback | main.py:365-371 | The fallback gives one caption per prompt, in order, each `FallbackCaption` of its prompt. |
| TextHelpers.FallbackCaption | main.py:369-370 | Defines the fallback caption of one prompt. `FallbackCaptionShape` states it. |
| TextHelpers.FallbackCaptionShape | main.py:369-370 | A fallback caption is at most eight words of word characters joined by single spaces, and splits back into them. |
| TextHelpers.ReadingTime | main.py:1059-1060 | At least one minute. It is exactly 1 iff there are fewer than 460 words, and beyond that it is the whole number of 230-word minutes. |
| HtmlRenderer.HeadingLevel | main.py:951-971 | The captured level is 1 to 6 leading `#`s, and it stops before a seventh `#` or at the first other character. |
| HtmlRenderer.FindColon | main.py:996 | The index of the first `:`, or none when there is no colon. |
| HtmlRenderer.Emit | main.py:960-1003 | One `html_template +=` appends exactly the text of one more piece. |
| HtmlRenderer.CloseThenEmit | main.py:959-994 | An open list is closed first, then the piece is appended. |
| HtmlRenderer.OpenThenEmit | main.py:985-989 | A list is opened unless one is open, then the list item is appended. |
| HtmlRenderer.LineStep | main.py:955-1003 | Defines the pieces one line appends and the new `in_list`, in the loop's order of tests. `LineStepShape` and `ShapeOpens` state it. |
| HtmlRenderer.RenderLines | main.py:952-1003 | Defines the pieces of a run of lines and the final `in_list`. `RenderLinesInList`, `RenderLinesOpens` and `RenderLinesScan` state it. |
| HtmlRenderer.AppendLine | main.py:955-1003 | One pass of the loop appends exactly the pieces `LineStep` gives for the line and sets `in_list` as it says. The tests run in source order: blank, heading, blockquote, bullet, label, paragraph. |
| HtmlRenderer.Partition | main.py:996 | `str.partition(":")` splits at the first colon. Without a colon it gives the whole text, no separator and "". |
| HtmlRenderer.RenderLinesSnoc | main.py:954-1003 | One more line extends the pieces and the flag by one `LineStep`. |
| HtmlRenderer.GenerateContentHtml | main.py:949-1006 | The content part is the concatenation of every line's pieces, then a closing `</ul>` if a list is still open. |
| HtmlRenderer.ScanAppend | main.py:952-1006 | Replaying one more piece advances the list state by one step. |
| HtmlRenderer.LineStepShape | main.py:955-1003 | One line appends at most a close or an open, then one piece. After it a list is open iff the line is a bullet line. |
| HtmlRenderer.ShapeScans | main.py:952-1003 | One line keeps the replayed list state in step with `in_list`. |
| HtmlRenderer.RenderLinesScan | main.py:954-1003 | The pieces of any run of lines replay without error, ending in the loop's own `in_list`. |
| HtmlRenderer.ContentWellNested | main.py:952-1006 | The content's lists are well nested: every `<li>` sits inside a `<ul>`, nothing else does, no `<ul>` opens inside another, and every one is closed by the end. |
| HtmlRenderer.ShapeOpens | main.py:985-987 | One line opens a list iff it turns `in_list` from false to true. |
| HtmlRenderer.RenderLinesInList | main.py:954-1003 | After a run of lines a list is open iff the last line is a bullet line. |
| HtmlRenderer.RenderLinesOpens | main.py:984-994 | The lines open exactly one `<ul>` per maximal run of consecutive bullet lines. |
| HtmlRenderer.OneListPerRun | main.py:949-1006 | The content opens exactly one `<ul>` per maximal run of bullet lines. |
| PlagiarismDetection.ShinglesOf | agents/phase8/plagiarism_detection_agent.py:9 | There are max(0, n - k + 1) shingles for n tokens. |
| PlagiarismDetection.Shingle | agents/phase8/plagiarism_detection_agent.py:7-9 | Defines `_shingle`. `ShinglesOf`, `ShingleWindows` and `ShortTextNoShingles` state it. |
| PlagiarismDetection.ShingleWindows | agents/phase8/plagiarism_detection_agent.py:7-9 | For a window k >= 1, shingle i joins tokens i to i+k-1 with spaces, and there are n - k + 1 of them when n >= k and none otherwise. |
| PlagiarismDetection.ShortTextNoShingles | agents/phase8/plagiarism_detection_agent.py:7-9 | A text with fewer lowercase word tokens than the window has no shingle. |
| PlagiarismDetection.Jaccard | agents/phase8/plagiarism_detection_agent.py:11-15 | Defines `_jaccard`. `JaccardBounds`, `JaccardSymmetric`, `JaccardSelf` and `JaccardDisjoint` state it. |
| PlagiarismDetection.JaccardBounds | agents/phase8/plagiarism_detection_agent.py:11-15 | The similarity lies in [0, 1]. |
| PlagiarismDetection.JaccardSymmetric | agents/phase8/plagiarism_detection_agent.py:11-15 | The similarity is symmetric. |
| PlagiarismDetection.JaccardSelf | agents/phase8/plagiarism_detection_agent.py:11-15 | A non-empty list scores 1 against itself. Two empty lists score 0. |
| PlagiarismDetection.JaccardDisjoint | agents/phase8/plagiarism_detection_agent.py:11-15 | Lists sharing no shingle score 0. |
| PlagiarismDetection.ScanReferences | agents/phase8/plagiarism_detection_agent.py:30-34 | The loop's max_sim bounds every reference's similarity. best_ref is the first reference reaching it, and is set iff some reference has a positive similarity; otherwise max_sim stays 0. |
| PlagiarismDetection.Detect | agents/phase8/plagiarism_detection_agent.py:25-41 | plagiarism_found iff the threshold is at most 0 or some reference reaches it. best_match_present iff some similarity is positive. max_similarity lies in [0, 1]. It is the maximum similarity over the references, so no reference exceeds it and some reference attains it unless it is 0. Missing keys default to "", [] and 5. |
| OriginalityCheck.TypeTokenRatio | agents/phase8/originality_check_plagiarism_detection_agent.py:7-11 | Defines `_type_token_ratio`. `TypeTokenRatioBounds` and `TypeTokenRatioAllDistinct` state it. |
| OriginalityCheck.TypeTokenRatioBounds | agents/phase8/originality_check_plagiarism_detection_agent.py:7-11 | The type-token ratio is 0 without tokens and otherwise lies in (0, 1]. |
| OriginalityCheck.TypeTokenRatioAllDistinct | agents/phase8/originality_check_plagiarism_detection_agent.py:7-11 | A text whose tokens are all different has ratio 1. |
| OriginalityCheck.DistinctCard | agents/phase8/originality_check_plagiarism_detection_agent.py:11 | A list without repeats has as many distinct elements as entries. |
| OriginalityCheck.LengthScore | agents/phase8/originality_check_plagiarism_detection_agent.py:26 | Defines the length factor. `LengthScoreBounds` states it. |
| OriginalityCheck.LengthScoreBounds | agents/phase8/originality_check_plagiarism_detection_agent.py:26 | The length factor lies in [0, 1] and is 1 iff the length is the ideal one. |
| OriginalityCheck.OriginalityScore | agents/phase8/originality_check_plagiarism_detection_agent.py:27 | The clamped score lies in [0, 1]. |
| OriginalityCheck.ClampInactive | agents/phase8/originality_check_plagiarism_detection_agent.py:27 | With both signals in [0, 1] the clamp never bites, and the score is 0.6·ttr + 0.4·length_score. |
| OriginalityCheck.Check | agents/phase8/originality_check_plagiarism_detection_agent.py:21-34 | originality_score lies in [0, 1]. plagiarism_found iff the upstream max_similarity (default 0.0) reaches the threshold (default 0.35). |
| OriginalityCheck.FlagIgnoresContent | agents/phase8/originality_check_plagiarism_detection_agent.py:24-28 | The flag does not depend on the content, and the score does not depend on the similarity. |
| OriginalityCheck.CheckScoreIsWeightedSum | agents/phase8/originality_check_plagiarism_detection_agent.py:24-27 | The reported score is exactly 0.6·ttr + 0.4·length_score, with both signals in [0, 1]. |
| OriginalityGate.Validate | agents/phase8/final_originality_validator_agent.py:13-17 | The verdict echoes the configured minimum as its threshold. |
| OriginalityGate.ValidateIff | agents/phase8/final_originality_validator_agent.py:14-16 | Valid iff the score reaches the minimum and the flag is missing or falsy. |
| OriginalityGate.FlagVetoes | agents/phase8/final_originality_validator_agent.py:15-16 | Any truthy flag makes the verdict invalid, whatever the score. |
| OriginalityGate.MissingScoreFails | agents/phase8/final_originality_validator_agent.py:14-16 | A missing score reads as 0.0, so it fails any positive minimum. |
| OriginalityGate.ValidateMonotone | agents/phase8/final_originality_validator_agent.py:16 | Raising the score never turns a valid verdict invalid. |
| FactCrossValidation.ExtractFactsSpec | agents/phase8/deep_fact_reference_cross_validation_agent.py:6-9 | The facts are the sentences that contain a digit or a capitalised word of three or more letters, kept in order. |
| FactCrossValidation.MatchKey | agents/phase8/deep_fact_reference_cross_validation_agent.py:14-15 | The key compared is the first 20 characters of the fact's lowercase word tokens joined by spaces. |
| FactCrossValidation.MatchRefs | agents/phase8/deep_fact_reference_cross_validation_agent.py:11-17 | One pair per fact, in order, pairing the fact with whether some reference contains its key. |
| FactCrossValidation.FactKeyNonEmpty | agents/phase8/deep_fact_reference_cross_validation_agent.py:9-14 | A fact always has a non-empty key, so an empty reference list never covers it by accident. |
| FactCrossValidation.FactsWithFilter | agents/phase8/deep_fact_reference_cross_validation_agent.py:31-32 | The covered and uncovered lists are the facts filtered by coverage and by its negation. |
| FactCrossValidation.Validate | agents/phase8/deep_fact_reference_cross_validation_agent.py:26-39 | covered and uncovered partition the facts. coverage = covered/facts in [0, 1], and 0 without facts. facts_validated iff there are facts and at least half are covered. uncovered_facts is the first ten uncovered facts. |
| FactCrossValidation.CoverageFacts | agents/phase8/deep_fact_reference_cross_validation_agent.py:33-35 | The coverage lies in [0, 1], and reaches 0.5 iff there are facts and at least half of them are covered. |
| FactCrossValidation.NoReferencesNoCoverage | agents/phase8/deep_fact_reference_cross_validation_agent.py:15-32 | With no references no fact is covered and every fact is uncovered. |
| AiHallucinationDetection.UnsupportedClaims | agents/phase8/ai_hallucination_detection_agent.py:22-26 | The unsupported claims are the claims without a citation marker, in order. |
| AiHallucinationDetection.NormalisedSourcesEmpty | agents/phase8/ai_hallucination_detection_agent.py:20 | The set of normalised sources is empty iff no source was given. |
| AiHallucinationDetection.Detect | agents/phase8/ai_hallucination_detection_agent.py:18-32 | hallucination_detected iff some claim lacks a marker and no source was given. unsupported_claims is the first ten such claims. |
| AiHallucinationDetection.ReportedClaimsUnsupported | agents/phase8/ai_hallucination_detection_agent.py:6-30 | Every reported claim is a sentence of the text with a claim cue and without a citation marker. |
| ContentHallucinationDetection.Detect | blog_creation_suite/agents/phase8/content_hallucination_detection_agent.py:18-26 | hallucination_detected iff some sentence is a factual trigger with more than four words and no link or bracketed number. The reported list is the first min(10, n) of the n suspicious sentences, in text order. |
| ContentHallucinationDetection.SuspiciousInOrder | blog_creation_suite/agents/phase8/content_hallucination_detection_agent.py:20-21 | The suspicious sentences appear in the text's order. |
| HallucinationRecheck.Recheck | agents/phase8/post_publish_hallucination_recheck_agent.py:13-25 | content_id is echoed (default "") and next_check_after_sec is 86400. |
| HallucinationRecheck.RecheckRule | agents/phase8/post_publish_hallucination_recheck_agent.py:17-19 | Rechecked iff no check is recorded or more than 86400 s have passed since the last. A gap of exactly one day is not stale. |
| HallucinationRecheck.RecheckMonotone | agents/phase8/post_publish_hallucination_recheck_agent.py:17 | Once stale, content stays stale as the clock moves on. |
| SentenceCues.SplitSentences | agents/phase8/deep_fact_reference_cross_validation_agent.py:8 | Defines the split after `.!?` plus whitespace. `SplitSentencesShape` and `SplitSentencesKeepsText` state it. |
| SentenceCues.Sentences | agents/phase8/deep_fact_reference_cross_validation_agent.py:8 | Defines the split of the stripped text that the phase 8 agents share. Its properties follow from `SplitSentencesShape` and `SplitSentencesKeepsText`. |
| SentenceCues.SplitSentencesShape | agents/phase8/deep_fact_reference_cross_validation_agent.py:8 | The splitter yields at least one piece, no piece contains a break (a terminal punctuation mark followed by whitespace), and the text stays whole iff it has no break. |
| SentenceCues.SplitSentencesKeepsText | agents/phase8/deep_fact_reference_cross_validation_agent.py:8 | The pieces, concatenated, hold exactly the text's non-space characters in order: only whitespace after a terminal mark is dropped. |
| ParaphraseCorrection.CollapseSpaceSingle | agents/phase8/paraphrase_correction_agent.py:8 | After collapsing, every whitespace character is a plain space followed by a non-space. |
| ParaphraseCorrection.CollapseSpaceKeeps | agents/phase8/paraphrase_correction_agent.py:8 | Collapsing keeps every non-space character, in order. |
| ParaphraseCorrection.Step1Shape | agents/phase8/paraphrase_correction_agent.py:8 | After the first step every whitespace run is one plain space between two non-space characters. |
| ParaphraseCorrection.Step1Keeps | agents/phase8/paraphrase_correction_agent.py:8 | The first step keeps every non-space character, in order. |
| ParaphraseCorrection.DropSpacedPunctShape | agents/phase8/paraphrase_correction_agent.py:9 | After the second step no whitespace is followed by one of ,.;:!?. |
| ParaphraseCorrection.DropSpacedPunctKeeps | agents/phase8/paraphrase_correction_agent.py:9 | The second step deletes the spaced punctuation mark together with its whitespace, and keeps every character that is neither whitespace nor punctuation. |
| ParaphraseCorrection.DropEllipsesShape | agents/phase8/paraphrase_correction_agent.py:10 | A leading run of terminal marks is kept when shorter than three and removed otherwise, so no three terminal marks stand in a row. |
| ParaphraseCorrection.DropEllipsesKeeps | agents/phase8/paraphrase_correction_agent.py:10 | The third step deletes only terminal marks. |
| ParaphraseCorrection.FixCommonIssues | agents/phase8/paraphrase_correction_agent.py:6-11 | Defines `_fix_common_issues` as its three substitutions in order. `FixCommonIssuesSpec` and `FixCommonIssuesUnchanged` state it. |
| ParaphraseCorrection.FixCommonIssuesSpec | agents/phase8/paraphrase_correction_agent.py:6-11 | The result has no three terminal marks in a row and keeps every character that is neither whitespace nor punctuation, in order. |
| ParaphraseCorrection.FixCommonIssuesUnchanged | agents/phase8/paraphrase_correction_agent.py:6-11 | Text without whitespace and without three terminal marks in a row comes back unchanged. |
| ParaphraseCorrection.Correct | agents/phase8/paraphrase_correction_agent.py:20-24 | corrected_content has no run of three terminal marks, and changed iff it differs from the input (default ""). |
| PlagiarismParaphrase.MatchesAtLower | agents/phase8/plagiarism_paraphrase_agent.py:17 | A case-insensitive match of a lowercase pattern is a match in the lowered text. |
| PlagiarismParaphrase.SubAll | agents/phase8/plagiarism_paraphrase_agent.py:17 | Defines one case-insensitive `re.sub` of a literal pattern. `MatchesAtLower` and `SubAllLength` state it. |
| PlagiarismParaphrase.SubAllLength | agents/phase8/plagiarism_paraphrase_agent.py:17 | A substitution with a shorter replacement never lengthens the text. It keeps the length iff the pattern does not occur, and then leaves the text unchanged. |
| PlagiarismParaphrase.ApplyRules | agents/phase8/plagiarism_paraphrase_agent.py:15-18 | Defines the rules applied in order, each to the previous result. `ApplyRulesShrinks` and `ApplyRulesAbsent` state it. |
| PlagiarismParaphrase.SimpleParaphrase | agents/phase8/plagiarism_paraphrase_agent.py:15-18 | The loop applies the five rules in dict order, each to the previous result. |
| PlagiarismParaphrase.ApplyRulesShrinks | agents/phase8/plagiarism_paraphrase_agent.py:8-18 | With every replacement shorter than its pattern, the result is never longer, and it differs from the text iff it is shorter. |
| PlagiarismParaphrase.ApplyRulesAbsent | agents/phase8/plagiarism_paraphrase_agent.py:8-18 | A text where no pattern occurs comes back unchanged. |
| PlagiarismParaphrase.UtilizedBecomesUsed | agents/phase8/plagiarism_paraphrase_agent.py:9-17 | "Utilized" becomes "used": the match ignores case, and the replacement does not keep it. |
| PlagiarismParaphrase.Paraphrase | agents/phase8/plagiarism_paraphrase_agent.py:27-31 | paraphrased_content is the rules applied to the content (default ""). It is never longer, and changed iff it is shorter. |
| ReferenceValidation.ValidateReferences | blog_creation_suite/agents/phase2/reference_validation_agent.py:9-32 | The valid references are those longer than five characters and the invalid ones are the rest, both in order. Together they make up the input. The summary counts are the input length and the lengths of the two lists. The rate is `Percentage` of valid over total: in [0, 100], and 0 without references. |
| ReferenceValidation.InvalidIsComplement | blog_creation_suite/agents/phase2/reference_validation_agent.py:14 | Testing membership in the valid list selects exactly the references that fail the check, duplicates included. |
| ReferenceValidation.RateBounds | blog_creation_suite/agents/phase2/reference_validation_agent.py:20 | A part-over-whole percentage lies in [0, 100]. |
| ReferenceValidation.RateValue | blog_creation_suite/agents/phase2/reference_validation_agent.py:20 | A part-over-whole percentage, times the whole, is 100 times the part. |
| ReferenceValidation.Percentage | blog_creation_suite/agents/phase2/reference_validation_agent.py:20 | The rate is 0 for an empty whole; otherwise, times the whole it gives 100 times the part. For a part of the whole it lies in [0, 100]. |
| SourceReliability.ValidateSources | blog_creation_suite/agents/phase2/source_reliability_validation_agent.py:9-33 | A source is validated iff its draw exceeds 0.2, and invalid otherwise, both in order. Together they make up the input. total_validated and total_invalid are the lengths of the two lists, and the pass rate is `Percentage` of validated over all sources: in [0, 100], and 0 without sources. |
| GapAnalysis.GapsFor | agents/phase2/literature_content_gap_checker_agent.py:13 | One gap per drawn term (draw above 0.5), in order, each the prefix followed by the term. |
| GapAnalysis.LiteratureGaps | agents/phase2/literature_content_gap_checker_agent.py:9-21 | all_gaps is the "Gap related to " list and prioritized_gaps is its first three. |
| GapAnalysis.SemanticGaps | blog_creation_suite/agents/phase1/semantic_gap_agent.py:8-14 | all_gaps is the "Keyword gap in " list and priority_gaps is its first three. |
| GapAnalysis.GapReportShape | agents/phase2/literature_content_gap_checker_agent.py:13-15 | There are no more gaps than terms and min(3, gaps) priority gaps, and no input means no gaps (the same holds for the semantic agent). |
| GapAnalysis.AllDrawnAllGaps | agents/phase2/literature_content_gap_checker_agent.py:13 | When every draw exceeds 0.5, every term yields its gap, in order. |
| TopicSelection.ScoreTableTopics | blog_creation_suite/agents/phase1/final_topic_selection_agent.py:10 | The dict comprehension has exactly the candidates as keys. |
| TopicSelection.ScoreTableDistinct | blog_creation_suite/agents/phase1/final_topic_selection_agent.py:10 | Each topic appears once in the table. |
| TopicSelection.ScoreTableScores | blog_creation_suite/agents/phase1/final_topic_selection_agent.py:10 | Each topic holds the draw of its last occurrence. |
| TopicSelection.DuplicatesCollapse | blog_creation_suite/agents/phase1/final_topic_selection_agent.py:10 | A repeated topic keeps its first position and its last draw. |
| TopicSelection.Insert | blog_creation_suite/agents/phase1/final_topic_selection_agent.py:11 | Insertion adds exactly one entry, as a multiset. |
| TopicSelection.SortDescending | blog_creation_suite/agents/phase1/final_topic_selection_agent.py:11 | The ranking is a permutation of the table. |
| TopicSelection.InsertSorted | blog_creation_suite/agents/phase1/final_topic_selection_agent.py:11 | Inserting into a non-increasing ranking keeps it non-increasing. |
| TopicSelection.SortDescendingSorted | blog_creation_suite/agents/phase1/final_topic_selection_agent.py:11 | The ranking is non-increasing in score. |
| TopicSelection.FirstMax | blog_creation_suite/agents/phase1/final_topic_selection_agent.py:11-12 | The first entry with the largest score. |
| TopicSelection.SortDescendingHead | blog_creation_suite/agents/phase1/final_topic_selection_agent.py:11-12 | The stable sort puts first the earliest entry with the largest score. |
| TopicSelection.TableMapKeys | blog_creation_suite/agents/phase1/final_topic_selection_agent.py:13 | The map built from a score table has exactly the table's topics as keys. |
| TopicSelection.TableMapLookup | blog_creation_suite/agents/phase1/final_topic_selection_agent.py:13 | With distinct topics, the map gives each topic the score of its table entry. |
| TopicSelection.RationaleScores | blog_creation_suite/agents/phase1/final_topic_selection_agent.py:10-13 | The map of the score table has exactly the candidates as keys, each with the score of its last occurrence. |
| TopicSelection.SelectTopic | blog_creation_suite/agents/phase1/final_topic_selection_agent.py:8-18 | No topic is selected iff there is no candidate. The ranking is the stable descending sort of the score table, so it is non-increasing, and the selected topic is the earliest highest-scoring entry. The rationale has exactly the candidates as keys and maps each to the score of its last occurrence. |
| TopicSelection.EmptyTable | blog_creation_suite/agents/phase1/final_topic_selection_agent.py:10-12 | The table is empty iff there is no candidate. |
| TopicSelection.SelectTopicSpec | blog_creation_suite/agents/phase1/final_topic_selection_agent.py:10-12 | The selected topic is a candidate whose final score is at least every candidate's final score. |
| OutlineStructuring.SectionFor | blog_creation_suite/agents/phase2/outline_structuring_agent.py:18-22 | A missing concept gives "Untitled Section" and "Detailed discussion on ". A missing importance gives "Medium". A named concept gives its name in both title and details. |
| OutlineStructuring.StructureOutline | blog_creation_suite/agents/phase2/outline_structuring_agent.py:9-31 | One section per key concept, in order, and num_sections equals their number. |
| KeywordPlanning.KeywordsForSnoc | agents/phase3/keyword_integration_planning_agent.py:15-17 | One more keyword extends the list of exactly the section its index selects. |
| KeywordPlanning.Plan | agents/phase3/keyword_integration_planning_agent.py:13-17 | Defines the round-robin plan. `KeywordPlaced`, `SectionShare`, `Balanced`, `PlanCoversKeywords` and `OneSectionTakesAll` state it. |
| KeywordPlanning.PlanIntegration | agents/phase3/keyword_integration_planning_agent.py:9-22 | The plan raises ZeroDivisionError iff there are keywords and no sections. Otherwise each section (default Introduction, Body, Conclusion) lists exactly the keywords whose index modulo the section count selects it, in order. |
| KeywordPlanning.InSectionDistinct | agents/phase3/keyword_integration_planning_agent.py:16 | With distinct sections, keyword i goes to section j iff i mod n = j. |
| KeywordPlanning.SectionShare | agents/phase3/keyword_integration_planning_agent.py:15-17 | With distinct sections, section j gets floor(m/n) keywords, plus one when j < m mod n. |
| KeywordPlanning.Balanced | agents/phase3/keyword_integration_planning_agent.py:15-17 | With distinct sections, any two sections' keyword counts differ by at most one. |
| KeywordPlanning.KeywordPlaced | agents/phase3/keyword_integration_planning_agent.py:16-17 | Keyword i is listed under section i mod n. |
| KeywordPlanning.PlanBagBefore | agents/phase3/keyword_integration_planning_agent.py:13-17 | The first J sections together hold exactly the keywords whose index mod n is below J. |
| KeywordPlanning.PlanCoversKeywords | agents/phase3/keyword_integration_planning_agent.py:13-17 | With distinct sections, the plan holds every keyword exactly once (as a multiset). |
| KeywordPlanning.OneSectionTakesAll | agents/phase3/keyword_integration_planning_agent.py:13-17 | When every section has the same name, that one key lists every keyword in order. |
| KeywordClustering.FirstAccepting | blog_creation_suite/agents/phase3/keyword_clustering_agent.py:20-24 | The first cluster, in id order, whose draw is below 0.5. When there is none, every draw is at least 0.5. |
| KeywordClustering.ClusterMapAppend | blog_creation_suite/agents/phase3/keyword_clustering_agent.py:26-27 | A new cluster gets the next id. |
| KeywordClustering.ClusterMapUpdate | blog_creation_suite/agents/phase3/keyword_clustering_agent.py:22 | Appending to the cluster at position c changes id c + 1 only. |
| KeywordClustering.ClusteringSnoc | blog_creation_suite/agents/phase3/keyword_clustering_agent.py:14-27 | One more keyword is one more placement. |
| KeywordClustering.EmptyClusterMap | blog_creation_suite/agents/phase3/keyword_clustering_agent.py:15 | The dict is empty iff no cluster exists yet. |
| KeywordClustering.PlaceOpens | blog_creation_suite/agents/phase3/keyword_clustering_agent.py:15-27 | A keyword no cluster accepts opens a new cluster with the next id, holding only that keyword. |
| KeywordClustering.PlaceJoins | blog_creation_suite/agents/phase3/keyword_clustering_agent.py:20-24 | A keyword joins the end of the first accepting cluster, and the number of clusters is unchanged. |
| KeywordClustering.TryExisting | blog_creation_suite/agents/phase3/keyword_clustering_agent.py:19-24 | The inner loop joins iff some cluster accepts, and then appends to the first such cluster only. Otherwise the dict is unchanged. |
| KeywordClustering.Clustering | blog_creation_suite/agents/phase3/keyword_clustering_agent.py:14-27 | Defines the clusters after placing the keywords one by one. `ClusteringPartition`, `ClusteringShape`, `AllRejected` and `AllAccepted` state it. |
| KeywordClustering.ClusterKeywords | blog_creation_suite/agents/phase3/keyword_clustering_agent.py:9-32 | The clusters dict, keyed 1..n in creation order, is exactly the keywords placed one by one. |
| KeywordClustering.ClusteringPartition | blog_creation_suite/agents/phase3/keyword_clustering_agent.py:14-27 | The clusters together hold every keyword exactly once (as a multiset). |
| KeywordClustering.ClusteringShape | blog_creation_suite/agents/phase3/keyword_clustering_agent.py:14-27 | There are at most as many clusters as keywords, and none iff there is no keyword. Each cluster is non-empty and keeps the keywords' order, and the first keyword opens cluster 1. |
| KeywordClustering.AllRejected | blog_creation_suite/agents/phase3/keyword_clustering_agent.py:21-27 | When every draw is at least 0.5, each keyword gets its own cluster, in order. |
| KeywordClustering.AllAccepted | blog_creation_suite/agents/phase3/keyword_clustering_agent.py:21-24 | When cluster 1 always accepts, all keywords share cluster 1, in order. |
| SnippetGeneration.Covered | agents/phase4/snippet_generator_agent.py:13 | The covered prefix, max(0, min(len, 50·num_snippets)) characters, never exceeds the content. |
| SnippetGeneration.Snippets | agents/phase4/snippet_generator_agent.py:13 | Defines the comprehension of 50-character slices. `SnippetsShape` and `SnippetsJoin` state it. |
| SnippetGeneration.Generate | agents/phase4/snippet_generator_agent.py:9-13 | Defines `execute`'s snippets with the defaults "" and 3. |
| SnippetGeneration.SnippetsShape | agents/phase4/snippet_generator_agent.py:13 | There is no snippet iff the content is empty or the count is not positive. Each snippet is the next slice of the covered prefix, non-empty and at most 50 characters, and all but the last are exactly 50. |
| SnippetGeneration.SnippetsJoin | agents/phase4/snippet_generator_agent.py:13 | Concatenated in order, the snippets are exactly the covered prefix of the content. |
| MetaDescriptionSnippet.Truncated | agents/phase4/meta_description_snippet_agent.py:14 | The result is a prefix of the content followed by "...", and its length follows Python's slice rules, negative max_length included. |
| MetaDescriptionSnippet.TruncatedFits | agents/phase4/meta_description_snippet_agent.py:14 | Content that fits is kept whole, and "..." is appended anyway. |
| MetaDescriptionSnippet.TruncatedCuts | agents/phase4/meta_description_snippet_agent.py:14 | Longer content is cut to max_length characters, then "..." is appended. |
| MetaDescriptionSnippet.Describe | agents/phase4/meta_description_snippet_agent.py:9-21 | meta_description is a prefix of the content (default "") plus "...", at most 163 characters by default. The snippet is the fixed sample text. |
| MetaSnippetGenerator.Generate | blog_creation_suite/agents/phase4/meta_snippet_generator_agent.py:9-21 | meta_snippet is a prefix of the content plus "...", and is "..." for empty content. The keywords are the four fixed ones. |
| SectionBodyWriter.AppendBullets | agents/phase4/section_body_writer_agent.py:16-17 | The inner loop appends one "- point" line per point, in order. |
| SectionBodyWriter.WriteBody | agents/phase4/section_body_writer_agent.py:9-26 | generated_body is the stripped concatenation of one block per heading: "## heading", the bullet lines and a blank line. |
| SectionBodyWriter.NoHeadingsEmpty | agents/phase4/section_body_writer_agent.py:13-23 | Without headings the body is empty, whatever the points. |
| SectionBodyWriter.BodyStartsWithHeading | agents/phase4/section_body_writer_agent.py:14-23 | With a heading, and either a point or a second heading, the body starts with the first heading's line. |
| SectionBodyWriter.BodyTrimsOnlyTheEnd | agents/phase4/section_body_writer_agent.py:23 | The final `strip()` removes only trailing whitespace: the body is a prefix of the raw text. |
| NumberedAppendix.Numbered | agents/phase4/data_quote_insertion_agent.py:15-16 | One numbered line per item. |
| NumberedAppendix.NumberedSnoc | agents/phase4/data_quote_insertion_agent.py:15-16 | One more item appends exactly its line, numbered from 1. |
| NumberedAppendix.Append | agents/phase4/data_quote_insertion_agent.py:14-21 | The loop builds content, a blank line, "Header:" and the numbered lines, then strips the whole. |
| NumberedAppendix.AppendixStrip | agents/phase4/data_quote_insertion_agent.py:14-21 | The final strip takes leading whitespace from the content side and trailing whitespace from the item side only, so the header line is kept. |
| NumberedAppendix.NoItems | agents/phase4/data_quote_insertion_agent.py:14-21 | With no items the header is still written and nothing follows it. |
| NumberedAppendix.NumbersDistinct | agents/phase4/data_quote_insertion_agent.py:16 | Line i starts with its own number, and the numbers of different lines differ. |
| DataQuoteInsertion.Insert | agents/phase4/data_quote_insertion_agent.py:9-24 | augmented_content is the stripped content, then "Included Data Points:", then the numbered data points with trailing whitespace stripped. |
| ExampleStoryIntegration.Integrate | agents/phase4/example_story_integration_agent.py:9-24 | integrated_content is the stripped content, then "Examples:", then the numbered examples with trailing whitespace stripped. |
| ScalingCloning.Scale | agents/phase4/scaling_cloning_agent.py:9-13 | Defines `execute`'s clones with the defaults "" and 3. `Clones` and `ClonesDistinct` state them. |
| ScalingCloning.Clones | agents/phase4/scaling_cloning_agent.py:13 | clone_count clones, or none for a count below 1. |
| ScalingCloning.ClonesDistinct | agents/phase4/scaling_cloning_agent.py:13 | Every clone starts with the base content, and no two clones are equal. |
| StatInjector.Inject | blog_creation_suite/agents/phase5/stat_injector_agent.py:21-27 | One injection for each of the first three statistics, in order. Injection i uses placement i, the statistic and its text (topic default "Topic"). |
| StatInjector.InjectionsPlaced | blog_creation_suite/agents/phase5/stat_injector_agent.py:15-26 | Different injections get different placements, and each injection text names its statistic and the topic. |
| ImagePrompting.Row | blog_creation_suite/agents/phase5/image_prompting_agent.py:15-16 | The inner loop yields one prompt per aspect ratio. |
| ImagePrompting.AltTexts | blog_creation_suite/agents/phase5/image_prompting_agent.py:18 | One alt text per style, in order, each naming the topic and the style. |
| ImagePrompting.AppendRow | blog_creation_suite/agents/phase5/image_prompting_agent.py:15-16 | The inner loop appends the style's row of prompts to the list. |
| ImagePrompting.Prompts | blog_creation_suite/agents/phase5/image_prompting_agent.py:14-16 | Defines the style-major product of prompts. `PromptsLength`, `PromptsIndex` and `PromptMentions` state it. |
| ImagePrompting.BuildPrompts | blog_creation_suite/agents/phase5/image_prompting_agent.py:8-18 | The nested loops build exactly `Prompts` (style-major), and the alt texts are `AltTexts`, with the defaults "Topic", three styles and two ratios. |
| ImagePrompting.PromptsSnoc | blog_creation_suite/agents/phase5/image_prompting_agent.py:14-16 | One more style appends its row. |
| ImagePrompting.PromptsLength | blog_creation_suite/agents/phase5/image_prompting_agent.py:14-16 | There are |styles| · |ratios| prompts. |
| ImagePrompting.PromptAt | blog_creation_suite/agents/phase5/image_prompting_agent.py:14-16 | Prompt i·|ratios| + j pairs style i with ratio j. |
| ImagePrompting.PromptsIndex | blog_creation_suite/agents/phase5/image_prompting_agent.py:14-16 | Every style and ratio pair has its prompt at position i·|ratios| + j. |
| ImagePrompting.PromptMentions | blog_creation_suite/agents/phase5/image_prompting_agent.py:16 | Each prompt names its topic, style and ratio. |
| ImagePrompting.DefaultCounts | blog_creation_suite/agents/phase5/image_prompting_agent.py:10-11 | The defaults give six prompts and three alt texts. |
| MultimediaEmbed.Expected | blog_creation_suite/agents/phase5/multimedia_embed_agent.py:10-27 | Defines the embeds as a filter over the three requests, in order. `ExpectedShape` and `ExpectedCarriesUrls` state it. |
| MultimediaEmbed.CollectEmbeds | blog_creation_suite/agents/phase5/multimedia_embed_agent.py:8-27 | Video, tweet and slides embeds are appended in that order, each iff its key is present. |
| MultimediaEmbed.ExpectedShape | blog_creation_suite/agents/phase5/multimedia_embed_agent.py:10-27 | There is one embed per given URL, so at most three, and a kind appears iff its URL was given. |
| MultimediaEmbed.ExpectedCarriesUrls | blog_creation_suite/agents/phase5/multimedia_embed_agent.py:13-25 | Each embed belongs to a given URL, and its html carries that URL. |
| MultimediaEmbed.EmbedMentions | blog_creation_suite/agents/phase5/multimedia_embed_agent.py:13-25 | The html of an embed contains its URL. |
| ContentRewriting.ReverseIndex | blog_creation_suite/agents/phase15/content_rewriting_paraphrasing_agent.py:10 | Character i of the reversal is character n-1-i of the original. |
| ContentRewriting.ReverseInvolution | blog_creation_suite/agents/phase15/content_rewriting_paraphrasing_agent.py:10 | Reversing twice gives back the original. |
| ContentRewriting.Rewrite | blog_creation_suite/agents/phase15/content_rewriting_paraphrasing_agent.py:9-10 | Defines the reversal of the content (default ""). `ReverseIndex` and `RewriteTwice` state it. |
| ContentRewriting.RewriteTwice | blog_creation_suite/agents/phase15/content_rewriting_paraphrasing_agent.py:8-11 | Rewriting a rewrite restores the original, and rewriting keeps the length. |
| TagFixing.FixTags | blog_creation_suite/agents/phase18/tag_fixing_agent.py:8-11 | One fixed tag per tag (none when missing). |
| TagFixing.FixTagsIdempotent | blog_creation_suite/agents/phase18/tag_fixing_agent.py:10 | Each fixed tag is its tag lowered, and fixing twice is fixing once. |
| TagChecker.CheckTags | agents/phase18/tag_checker_agent.py:8-11 | A tag is valid iff it is one of the tags and has at least three characters. |
| TagChecker.CheckTagsOrder | agents/phase18/tag_checker_agent.py:10 | The valid tags keep their order, and checking twice is checking once. |
| PexelsApi.Mock | blog_creation_suite/utils/pexels_api.py:39-71 | Defines the mock envelope. `MockShape`, `MockIdsDistinct`, `NextPageMentions` and `PhotoUrlMentions` state it. |
| PexelsApi.GetMockResponse | blog_creation_suite/utils/pexels_api.py:39-71 | The loop builds exactly the mock envelope `Mock`. |
| PexelsApi.SearchImages | blog_creation_suite/utils/pexels_api.py:12-37 | The live body is returned iff the key is configured and the service answered 200 with JSON. Every other case returns the mock. |
| PexelsApi.UnconfiguredIgnoresNetwork | blog_creation_suite/utils/pexels_api.py:15-17 | With a missing or placeholder key, the result is the mock whatever the network would do. |
| PexelsApi.GetImageInfo | blog_creation_suite/utils/pexels_api.py:73-90 | None with an unconfigured key. Otherwise the info is present iff the service answered 200 with JSON. |
| PexelsApi.MockShape | blog_creation_suite/utils/pexels_api.py:39-71 | There are per_page photos, or none when it is below 1. Photo i has id 123456 + i, photographer i + 1 and size 1920x1080, and every source URL starts from its own URL. The envelope echoes per_page and the query, with page 1 and 500 results. |
| PexelsApi.NextPageMentions | blog_creation_suite/utils/pexels_api.py:70 | The next-page link carries per_page and the query. |
| PexelsApi.PhotoUrlMentions | blog_creation_suite/utils/pexels_api.py:49 | A photo URL carries its id. |
| PexelsApi.MockIdsDistinct | blog_creation_suite/utils/pexels_api.py:43-50 | Different mock photos have different ids and photographers. |

## Left out

- Network and foreign services. The `requests.get` calls of the Pexels helper are reduced to the answer they produced (`Http`: a status with an optional JSON body, or an exception). `download_image` is not part of this model, because it only writes a downloaded file. The Groq and Gemini clients and the Pexels fetch of main.py are not part of this model either.
- Clocks and waiting. `datetime.now` and `time.time` become parameters. The `asyncio.sleep` of the backoff is recorded as the list of requested delays, and no time passes. The async scheduling is modelled as sequential calls.
- Randomness. Where a draw steers control flow (source reliability, the gap finders, keyword clustering, topic scores), the draws are an input indexed by position. Random numeric outputs that steer nothing, such as `generation_confidence`, quality and SEO scores, and the `quality_score` of `compile_final_blog`, are parameters or left out.
- Floating point. Ratios and scores are exact reals. Python's `round(...)` in `get_stats` and in the phase 8 agents is not modelled. Where a float is turned into text, its `str`/`repr` is a parameter.
- Regular expressions. They are written out as character predicates and recursive functions. `\w` is ASCII letters, digits and `_`, and lowering is ASCII-only, so Unicode word characters and Unicode case folding are not modelled. `\s` follows the character set of Python's `str.isspace`.
- Dictionaries are Dafny maps, so key order is not modelled. Where order is observable (the phase results, clusters, ranking, embeds, prompts), the model keeps an explicit sequence.
- Exception messages. Errors are modelled as a Python exception class plus a message. Messages are taken from the source where it writes them. Where CPython writes them (`ZeroDivisionError`, `TypeError`, `AttributeError`), the text is representative only.
- Logging, `print` and the `logger` calls of `BaseAgent` are not modelled.
- BaseAgentModel.ConfigureOf: requires `max_retries`, when present, to be an integer. Python would accept any value and fail later, inside `run`.
- BaseAgentModel.BaseAgent.Configure: has the same requirement. A non-integer `max_retries` is therefore not modelled, nor what `run` does with it at the comparison `attempt <= self.max_retries`. A float or bool is compared numerically there, and most other types raise TypeError.
- BaseAgentModel.ValidateDependenciesSpec: characterises only the case where `agent_results` is a dict or absent. `ValidateDependencies` itself also follows Python's `in` on lists and strings, and its errors on other values.
- StatInjector.Inject: the `content_text` and `injection_style` inputs are read by the source but never used, so they are not parameters.
- Out of scope, not part of this model:
  - PDF and DOCX export, and the FastAPI endpoints and pydantic models of main.py;
  - utils/database.py, the Streamlit front end, and config/settings.py (the Pexels key is a parameter);
  - the image resizer;
  - the agents that only return canned or random dictionaries;
  - the `__init__.py` re-export files.

## Findings

| source | as written | input that shows it | evidently intended | confidence | as-written member | corrected member |
|---|---|---|---|---|---|---|
| utils/agent_manager.py:561 | The `execute_phase` table reads `self.enrichment_phase`, which `AgentManager` does not define, so building the table raises AttributeError on every call. | Any phase name, e.g. `execute_phase("Ideation & Planning", {})` | Bind "Content Enrichment" to `content_enrichment_phase` (line 316) | high, not executed | AgentManagerModel.ExecutePhaseAsWrittenRaises | AgentManagerModel.TableFixedBuilds |
| utils/agent_manager.py:560-588 | The table key is "Drafting & Content generation", but `create_full_blog` sequences "Drafting & Content Generation", so drafting gives the unknown-phase error. | `execute_phase("Drafting & Content Generation", {})` once line 561 is fixed | Spell the key "Drafting & Content Generation", as `create_full_blog` and `compile_final_blog` (line 624) do | high, not executed | AgentManagerModel.DraftingNameMisses | AgentManagerModel.DraftingNameMatches |
| utils/agent_manager.py:593 | "Publishing Preparation" is sequenced but has no table key, so that step always gives the unknown-phase error. | `create_full_blog({})` once lines 560 and 561 are fixed | No publishing-preparation phase method exists, so the step is dropped from the sequence. | medium, not executed | AgentManagerModel.PublishingPreparationMisses | AgentManagerModel.SequenceFixedMatches |
| agents/phase4/section_writing_agent.py:9 | `execute` is defined at module level, outside `SectionWritingAgent`, so the class keeps `BaseAgent`'s abstract `execute` and cannot be instantiated. `content_generation_phase` then raises TypeError. | `content_generation_phase({})` | Indent `execute` into the class | high, not executed | AgentManagerModel.AbstractAgentFailsPhase | AgentManagerModel.FixedConstructorCompletes |
