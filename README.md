# Anime Virtual Assistant: a verified model of the assistant's core

This project models the core of a Java desktop assistant that watches the user's screen,
asks language models about it and speaks a short in-character comment. The model is written
in Dafny.

- **Thinking engine.** Each scheduler tick follows the same steps:
  - it flushes queued model replies through the bracket router;
  - it decides from a throttle counter whether this is a chat tick;
  - it lets the task contributors add to a shared task buffer (`levels_task` on every tick, `memory_task` on every fifth);
  - it then either runs `screen_analysis` or sends a tasks-only request and routes that reply's `[prefix: ...]` sections to the actions that own them.
- **Actions.** Three pieces sit around the actions:
  - the results they return;
  - the key/value context they share;
  - the registry that guards and runs them.
- **Levels.** The user's progress is a table of 100 XP thresholds, kept strictly increasing by a fix-up pass. A binary search maps XP to a level. Skills carry XP and belong to attributes, and each attribute's level is recomputed from its skills.
- **Memory.** There are two memory slots. The memory task fills them from `[memory: write_short_term("...")]` and `[memory: write_long_term("...")]` sections.
- **Personalities.** Each personality keeps a history of its five most recent responses. A manager selects one from the user's settings.
- **Configuration.** This covers the system configuration, the user settings and their defaults, and the chat-frequency divisor.
- **Screen analysis.** The screen-analysis action keeps a four-capture buffer and a single-flight latch. Its background job runs in one of two modes:
  - traditional: describe the image, then comment on the description;
  - multimodal: a single request with the image.
  
  Either way it strips the model's `</think>` preamble, speaks the answer and records it.
- **Assistant core.** This is the older scheduler-driven loop: a capture job and a processing job share a buffer and a latch.

## How the model is built

- **State the source updates in place** becomes a Dafny `class` with `modifies` clauses: the contexts, the registry, the engine, the store, the personalities, the configuration, the level holders and the two screen pipelines.
- **Pure computations** become functions: parsing, prompt building, the level curve, the router's section scan and the memory commands.
- **Methods with loops** are proved against those functions. Examples are the router loop, `xpToLevel`'s binary search, the threshold fix-up, the attribute-total loops and the name searches.
- **Action types.** `Action` and `BracketAwareAction` are Java interfaces. Here they are one datatype `Action`:
  - its `prefixes` field is `Some` exactly when the action is bracket-aware;
  - its guard and body are total functions over the context map.
- **Outside effects.** Model services (vision, generation, multimodal) are parameters of type `Services`. Every call the code makes is logged as a `Call`, and speech is logged the same way. A service reply is either an answer (possibly null) or an exception.
- **Java details.** `null` becomes `Option`, and a thrown exception becomes a `Threw`/`Raised`/`threw` outcome. Java's `String` operations are written out in `JavaStrings`: `trim`, `isBlank` (with `Character.isWhitespace`'s code points), `toLowerCase` and `equalsIgnoreCase` (ASCII letters), `lastIndexOf`, `replace` and `String.format` with one `%s`.

Where the description of the system and the code disagree, the model follows the code:

- **The router dispatches a section to every action that owns it.** It does not stop at the first owner. The `break` at `src/actions/ThinkingEngine.java:274-281` only leaves the loop over one action's prefixes.
- **The first tick chats.** The throttle tests the counter before it is incremented (`src/actions/ThinkingEngine.java:78-97`). `memory_task` tests it after the increment.
- **The contributors' prefix casts throw as written.** After a contributor succeeds, the tick casts it to `BracketAwareAction` (`src/actions/ThinkingEngine.java:116`, `126`). Neither `LevelsTaskAction` nor `MemoryTaskAction` implements that interface. So when either one succeeds, the cast throws and `think` catches the exception. The model keeps this: the tick reports `aborted`, and the expected prefixes are not published.
- **`getChatFrequency` reads a field the user settings do not declare.** `src/config/UserSettings.java` has no chat-frequency field, but `getChatFrequency` reads one. The model gives `UserSettings` a `chatFrequency` field.

## Model

| member | source | states |
|---|---|---|
| ActionResults.Succeeded | src/actions/ActionResult.java:23-25 | success(): status SUCCESS, no message, no data |
| ActionResults.SucceededWith | src/actions/ActionResult.java:27-29 | success(msg): status SUCCESS carrying exactly that message and no data |
| ActionResults.SucceededWithData | src/actions/ActionResult.java:31-33 | success(data): status SUCCESS carrying the data and no message |
| ActionResults.SucceededWithBoth | src/actions/ActionResult.java:35-37 | success(msg, data): both carried |
| ActionResults.Failed | src/actions/ActionResult.java:39-41 | failure(msg): status FAILURE with the message |
| ActionResults.Skip | src/actions/ActionResult.java:43-45 | skipped(reason): status SKIPPED with the reason |
| ActionResults.ExactlyOneStatus | src/actions/ActionResult.java:60-70 | every result is exactly one of success, failure, skipped |
| ActionResults.ActionResult.IsSuccess | src/actions/ActionResult.java:60-62 | isSuccess(): the status is SUCCESS (ExactlyOneStatus: exclusive with the other two) |
| ActionResults.ActionResult.IsFailure | src/actions/ActionResult.java:64-66 | isFailure(): the status is FAILURE |
| ActionResults.ActionResult.IsSkipped | src/actions/ActionResult.java:68-70 | isSkipped(): the status is SKIPPED |
| ActionContexts.Lookup | src/actions/ActionContext.java:17-19 | get(key) is present exactly when the key was put, and is the stored value |
| ActionContexts.LookupTyped | src/actions/ActionContext.java:21-24 | the typed get returns the value only when the key is present and its class matches; null otherwise |
| ActionContexts.BuilderAt | src/actions/ActionContext.java:21-24 | typed get at StringBuilder |
| ActionContexts.FlagAt | src/actions/ActionContext.java:21-24 | typed get at Boolean |
| ActionContexts.TextsAt | src/actions/ActionContext.java:21-24 | typed get at List |
| ActionContexts.ImageAt | src/actions/ActionContext.java:21-24 | typed get at BufferedImage |
| ActionContexts.PutThenGet | src/actions/ActionContext.java:12-19 | after put(k, v), get(k) is v and every other key reads as before |
| ActionContexts.TypedGetOfOtherClass | src/actions/ActionContext.java:21-24 | a value of another class reads as null through the typed get |
| ActionContexts.ActionContext.constructor | src/actions/ActionContext.java:10 | a new context is empty |
| ActionContexts.ActionContext.Put | src/actions/ActionContext.java:12-14 | put replaces the key's value and nothing else |
| ActionContexts.ActionContext.Get | src/actions/ActionContext.java:17-19 | get is the lookup in the current data |
| ActionContexts.ActionContext.GetTyped | src/actions/ActionContext.java:21-24 | a typed value is only ever returned for a contained key |
| ActionContexts.ActionContext.Contains | src/actions/ActionContext.java:26-28 | contains(key) holds exactly when get(key) finds a stored value |
| ActionContexts.ActionContext.Clear | src/actions/ActionContext.java:30-32 | after clear no key is contained |
| ActionManagement.Without | src/actions/ActionManager.java:113-120 | removing an id from the registration order keeps every other id and keeps the order duplicate-free |
| ActionManagement.Execute | src/actions/ActionManager.java:33-51 | executeAction: unknown id gives failure "Action not found: id" with the context untouched; a refused guard gives skipped "Action cannot be executed: id"; otherwise the action's result, or failure "Action execution failed: message" when it throws |
| ActionManagement.ExecuteFailsOnlyFor | src/actions/ActionManager.java:33-51 | executeAction fails exactly when the id is unknown, or the guard accepts and the body throws or returns a failure (a refused guard is a skip, not a failure) |
| ActionManagement.Enabled | src/actions/ActionManager.java:60-66 | the ids kept are exactly the registered ones whose guard accepts the context |
| ActionManagement.InfoLines | src/actions/ActionManager.java:82-90 | one info line per registered action, in order |
| ActionManagement.ActionManager.constructor | src/actions/ActionManager.java:12-13 | an empty registry with a fresh, empty global context |
| ActionManagement.ActionManager.RegisterAction | src/actions/ActionManager.java:18-24 | registering stores the action under its id (replacing an earlier one) and keeps the registry consistent |
| ActionManagement.ActionManager.ExecuteAction | src/actions/ActionManager.java:33-51 | the method's result and new context are those of Execute |
| ActionManagement.ActionManager.AvailableActions | src/actions/ActionManager.java:60-66 | sorted, and exactly the ids whose guard accepts the context |
| ActionManagement.ActionManager.ActionInfo | src/actions/ActionManager.java:71-80 | "id: description" for a registered id, "Action not found: id" otherwise |
| ActionManagement.ActionManager.AllActionsInfo | src/actions/ActionManager.java:82-90 | sorted, and exactly the info lines of the registered actions |
| ActionManagement.ActionManager.RegisteredActions | src/actions/ActionManager.java:99-101 | exactly the registered actions, one per id |
| ActionManagement.ActionManager.UnregisterAction | src/actions/ActionManager.java:113-120 | the id is gone, the result says whether it was registered, the rest stays |
| ActionManagement.ActionManager.HasAction | src/actions/ActionManager.java:106-108 | hasAction(id) holds exactly when some action of getRegisteredActions carries that id |
| ActionManagement.AvailableIsRun | src/actions/ActionManager.java:33-51 | an action listed as available is run on the context when executed |
| ActionManagement.ActionManager.ActionInfoIsListed | src/actions/ActionManager.java:71-90 | every registered action's info line appears in the full listing |
| BracketRouting.ScanHasNoCloser | src/actions/ThinkingEngine.java:257-264 | no extracted section contains ']' |
| BracketRouting.SectionsOfFramed | src/actions/ThinkingEngine.java:257-264 | framing payloads as "[p]" and scanning gives back exactly the trimmed payloads, in order |
| BracketRouting.SectionDispatches | src/actions/ThinkingEngine.java:266-282 | a section is only ever dispatched as itself, to at most one call per action |
| BracketRouting.SectionDispatchesExactly | src/actions/ThinkingEngine.java:266-282 | an action is called with a section iff it is bracket-aware and one of its prefixes starts the section |
| BracketRouting.DispatchesExactly | src/actions/ThinkingEngine.java:257-284 | a dispatch happens iff its section was extracted and the action owns it |
| BracketRouting.Matched | src/actions/ThinkingEngine.java:268-272 | the expected prefixes found are exactly those the section starts with |
| BracketRouting.FoundExactly | src/actions/ThinkingEngine.java:257-284 | an expected prefix is reported found iff some extracted section starts with it |
| BracketRouting.RoutingNeedsTextAndActions | src/actions/ThinkingEngine.java:253 | a null reply or no actions routes nothing and finds nothing |
| BracketRouting.MatchExpected | src/actions/ThinkingEngine.java:268-272 | the matching loop computes Matched |
| BracketRouting.Claims | src/actions/ThinkingEngine.java:274-281 | the prefix loop says whether the action owns the section |
| BracketRouting.DispatchSection | src/actions/ThinkingEngine.java:273-282 | the per-section loop makes exactly SectionDispatches |
| BracketRouting.NextSection | src/actions/ThinkingEngine.java:258-264 | the indexOf pair finds the next "[...]" section or reports that none is left |
| BracketRouting.RouteBracketSections | src/actions/ThinkingEngine.java:252-294 | routeBracketSections makes exactly the dispatches of Routed and finds exactly FoundIn |
| BracketRouting.RouteSections | src/actions/ThinkingEngine.java:254-283 | the scan loop over a non-blank reply makes the dispatches of every section in order and finds every expected prefix some section starts with |
| BracketRouting.Scan | src/actions/ThinkingEngine.java:257-264 | the sections from a position on: skip to the next '[', take the trimmed text up to the first ']' after it, continue after that ']'; a '[' with no ']' ends the scan (ScanHasNoCloser, SectionsOfFramed) |
| BracketRouting.Close | src/actions/ThinkingEngine.java:258-260 | inside an open section, the first ']' closes it and the trimmed text between is the section |
| BracketRouting.Sections | src/actions/ThinkingEngine.java:254-283 | the sections of a whole reply in order of appearance; SectionsOfFramed shows that framing payloads and scanning gives them back |
| BracketRouting.Owns | src/actions/ThinkingEngine.java:273-281 | an action receives a section when it is bracket-aware and one of its prefixes starts the section, case-sensitively |
| BracketRouting.Routed | src/actions/ThinkingEngine.java:252-283 | no handler call for a null or blank reply or an empty collection; otherwise the dispatches of every section in order (DispatchesExactly) |
| Thinking.KeysDiffer | src/actions/ThinkingEngine.java:52-130 | the context keys a tick uses are pairwise distinct, so no put clobbers another |
| Thinking.FirstTickChats | src/actions/ThinkingEngine.java:78-81 | the first tick always chats |
| Thinking.ShouldChat | src/actions/ThinkingEngine.java:78-81 | a tick chats when the divisor is at most 1 or the counter before the increment is a multiple of it (OneChatPerWindow, FirstTickChats) |
| Thinking.MemoryDue | src/actions/ThinkingEngine.java:121 | memory_task is due when the counter after the increment is a multiple of 5 (MemoryOncePerFiveTicks) |
| Thinking.OneChatPerWindow | src/actions/ThinkingEngine.java:78-81 | for divisors 2, 3, 5, any divisor consecutive ticks hold exactly one chat tick |
| Thinking.ChatTicksApart | src/actions/ThinkingEngine.java:78-81 | two chat ticks are at least the divisor apart |
| Thinking.MemoryOncePerFiveTicks | src/actions/ThinkingEngine.java:96-121 | memory_task is due on exactly one of any five consecutive ticks |
| Thinking.TasksOnlyPrompt | src/actions/ThinkingEngine.java:186-199 | a prompt exists iff the task content is non-empty; it ends with the content and starts with the instruction when one is set |
| Thinking.PromptFlow | src/actions/ThinkingEngine.java:210-243 | a null or blank prompt makes no call; at most two calls; without a screenshot only the prompt is sent |
| Thinking.VisionDescriptionIsAppended | src/actions/ThinkingEngine.java:225-236 | in traditional mode a usable description is appended to the prompt that is sent |
| Thinking.RunImageAwarePromptFlow | src/actions/ThinkingEngine.java:210-243 | the calls are those of PromptFlow; a model exception escapes before any routing; otherwise the reply is returned and routed exactly as Routed says |
| Thinking.CastPrefixes | src/actions/ThinkingEngine.java:116-126 | the cast succeeds iff the action is bracket-aware |
| Thinking.FlushOnce | src/actions/ThinkingEngine.java:61-77 | after a flush the queue is empty; a second flush routes nothing; other global keys are untouched |
| Thinking.ThinkingEngine.constructor | src/actions/ThinkingEngine.java:19-21 | a fresh engine: latch free, counter 0 |
| Thinking.ThinkingEngine.FlushQueue | src/actions/ThinkingEngine.java:61-77 | the flush leaves AfterFlush of the global context and makes exactly FlushRoutes |
| Thinking.ThinkingEngine.Contribute | src/actions/ThinkingEngine.java:110-128 | a contributor run is executeAction on the tick context; a failure adds no prefixes; the cast raises iff the action is not bracket-aware, and the call is exactly Contributions of that one contributor |
| Thinking.ThinkingEngine.RunContributors | src/actions/ThinkingEngine.java:105-128 | what the contributors did (ids called, results, prefixes collected, whether a cast aborted, the context they left) is exactly Contributions of the due list levels_task, then memory_task on every fifth tick, on the tick context |
| Thinking.ThinkingEngine.ChatOrTasks | src/actions/ThinkingEngine.java:132-182 | the ending is EndOf on the context the contributors left: the blocked list read from that context, screen_analysis executed on it iff this is a chat tick, nothing blocks and it is registered (and the context is what that call left), otherwise the tasks-only flow and its routed reply |
| Thinking.ThinkingEngine.Think | src/actions/ThinkingEngine.java:27-44 | think does nothing while processing, speaking or already thinking; otherwise the tick it runs satisfies Ticked (counter, throttle, flush, contributors, ending and global context) and the latch is restored |
| Thinking.ThinkingEngine.NewTickContext | src/actions/ThinkingEngine.java:86-103 | a fresh context holding exactly TickContext: an empty block list, the will-run flag equal to the throttle decision, the screenshot when captured, and no task content |
| Thinking.ThinkingEngine.OpenTick | src/actions/ThinkingEngine.java:51-103 | the flush, the throttle decision on the counter before its increment, the increment, and a context equal to TickContext |
| Thinking.ThinkingEngine.RestOfTick | src/actions/ThinkingEngine.java:105-182 | the report satisfies Ran on the context the tick started with: contributors as Contributions says, the prefixes published to the global context unless aborted, and the ending as EndOf says on the context they left |
| Thinking.ThinkingEngine.AnalyzeSituationAndAct | src/actions/ThinkingEngine.java:51-184 | one whole tick satisfies Ticked: counter incremented, throttle on the old counter, queued replies flushed, Ran from TickContext, and the global context it leaves |
| Thinking.RunChainStep | src/actions/ThinkingEngine.java:105-128 | in a chain of executeAction calls each call sees the context that the calls before it left |
| Thinking.DueContributions | src/actions/ThinkingEngine.java:109-128 | the contributors of a tick are levels_task's run when it is registered, continued by memory_task when it is due, unless levels_task's cast aborted the tick |
| Thinking.ContributionsAppend | src/actions/ThinkingEngine.java:109-128 | running contributors one list after another is running the first list and then, unless a cast aborted it, the second on the context it left |
| Thinking.ContributionsPrefix | src/actions/ThinkingEngine.java:109-128 | the contributors that ran are a prefix of those due, and all of them when no cast threw |
| Thinking.ContributionsChain | src/actions/ThinkingEngine.java:109-128 | the contributors' results and the context they leave are those of the chain of executeAction calls on the ids that ran |
| Thinking.ContributionsRunOn | src/actions/ThinkingEngine.java:109-128 | no cast threw before the last contributor that ran |
| Thinking.ContributionsAbort | src/actions/ThinkingEngine.java:109-128 | a tick is aborted exactly when the cast after the last contributor that ran threw |
| Thinking.EndOf | src/actions/ThinkingEngine.java:132-182 | the tick chats iff the throttle allows it and nothing blocks; screen_analysis runs iff it chats and the action is registered; a tasks-only prompt is used only off-chat, when it is not blank and ends with the task content; without one no model call is made and nothing is routed |
| Thinking.TickContext | src/actions/ThinkingEngine.java:52-103 | the tick context starts with an empty block list, the will-run flag equal to the throttle decision, the screenshot when captured, and no task content |
| Thinking.QuietTickChats | src/actions/ThinkingEngine.java:105-147 | with no contributor due, a tick calls nothing, cannot abort, chats exactly when the throttle allows it and runs screen_analysis iff it chats and the action is registered |
| Levels.Table | src/levels/LevelManager.java:358-364 | the table has 100 entries, each the fixed-up threshold |
| Levels.Threshold | src/levels/LevelManager.java:359-364 | entries 0 and 1 are 0; each later entry is its rounded value, raised to one more than its predecessor when not larger (ThresholdKeepsIncreasingValues, TableIsValid) |
| Levels.TableIsValid | src/levels/LevelManager.java:358-364 | whatever the rounded values, the fix-up yields out[1] = 0 and strictly increasing entries |
| Levels.ThresholdKeepsIncreasingValues | src/levels/LevelManager.java:360-363 | already increasing rounded values are kept unchanged |
| Levels.BuildThresholds | src/levels/LevelManager.java:358-365 | the fix-up loop over the array computes Table |
| Levels.LevelFor | src/levels/LevelManager.java:307-325 | the level is 0 iff xp <= 0, 99 at or above the top threshold, otherwise the l with th[l] <= xp < th[l+1] |
| Levels.Highest | src/levels/LevelManager.java:307-325 | the highest level up to l whose threshold is reached by the XP: reached, and every higher level up to l is not |
| Levels.LevelIsMonotone | src/levels/LevelManager.java:307-325 | more XP never gives a lower level |
| Levels.ThresholdReachesLevel | src/levels/LevelManager.java:307-325 | reaching a threshold gives at least its level |
| Levels.XpToLevel | src/levels/LevelManager.java:307-325 | the binary search computes LevelFor |
| Levels.XpToNextAsWritten | src/levels/LevelManager.java:74-82 | never negative, and 0 at level 99 |
| Levels.XpToNextAtLevelZero | src/levels/LevelManager.java:74-82 | at 0 XP the count says 0 is missing, yet 0 XP stays at level 0 |
| Levels.XpToNextLevel | src/levels/LevelManager.java:74-82 | never negative, and 0 exactly at level 99 |
| Levels.XpToNextReachesNextLevel | src/levels/LevelManager.java:74-82 | gaining the missing XP raises the level |
| Levels.XpToNextIsExact | src/levels/LevelManager.java:74-82 | any smaller gain keeps the level |
| Levels.XpToNextAgreesAboveZero | src/levels/LevelManager.java:74-82 | from level 1 up the written count is the exact one |
| Levels.FindAttributeKey | src/levels/LevelManager.java:374-380 | the key found is a configured attribute equal to the name ignoring case; none iff no attribute matches |
| Levels.FindsItselfWhenFirst | src/levels/LevelManager.java:374-380 | an attribute first among its case variants is its own key |
| Levels.FindKey | src/levels/LevelManager.java:374-380 | the loop with early return computes FindAttributeKey, and null gives null |
| Levels.DefaultAttribute | src/levels/LevelManager.java:368-372 | the first configured attribute, or "Intelligence" |
| Levels.TotalsAgree | src/levels/LevelManager.java:59-71 | the total shown for an attribute equals the total its level is recomputed from |
| Levels.TotalXp | src/levels/LevelManager.java:59-71 | getTotalXpForAttribute: 0 for null, otherwise the XP of the skills matching the canonical key, or the name itself when no attribute matches (TotalsAgree) |
| Levels.AttributeXp | src/levels/LevelManager.java:284-297 | the non-negative XP of the skills whose attribute has this canonical key (AttributeXpStep, UnknownAttributeAddsNothing) |
| Levels.EqualsIgnoreCaseFindsSame | src/levels/LevelManager.java:374-380 | names equal ignoring case find the same key |
| Levels.UnknownAttributeAddsNothing | src/levels/LevelManager.java:288-297 | a skill whose attribute is not configured contributes to no total |
| Levels.ApplyLevelsShape | src/levels/LevelManager.java:299-303 | storing levels touches exactly the listed attributes |
| Levels.RecomputedLevels | src/levels/LevelManager.java:283-304 | after recomputation each configured attribute holds the level of its summed XP and other keys are kept |
| Levels.Recomputed | src/levels/LevelManager.java:283-304 | recomputeAttributesFromSkills on the attribute map (RecomputedLevels, RecomputeIsIdempotent) |
| Levels.RecomputeIsIdempotent | src/levels/LevelManager.java:283-304 | a second recomputation changes nothing |
| Levels.IndexOfSkill | src/levels/LevelManager.java:104-121 | the position found holds the skill; none when no skill has that name |
| Levels.WithSkill | src/levels/LevelManager.java:101-111 | addSkill changes the list iff the name is usable and new |
| Levels.AddSkillKeepsOthers | src/levels/LevelManager.java:101-111 | addSkill appends one skill with the given or default attribute at 0 XP, keeping the others |
| Levels.Effective | src/levels/LevelManager.java:119 | an amount of 0 or less counts as 1 |
| Levels.AddExpTouchesOnlyNamed | src/levels/LevelManager.java:117-128 | addExpOnSkill raises only the named skill (created at the default attribute when missing) |
| Levels.WithExp | src/levels/LevelManager.java:117-128 | addExpOnSkill on the skill list: the named skill, created with the default attribute when missing, gains max(0, xp + amount) (AddExpTouchesOnlyNamed, AddExpNeverLowersLevels) |
| Levels.ExpAfterLookup | src/levels/LevelManager.java:120-128 | the new XP is max(0, old + effective amount) |
| Levels.RaisingXpKeepsTotals | src/levels/LevelManager.java:288-297 | raising one skill's XP never lowers a total |
| Levels.AddExpNeverLowersLevels | src/levels/LevelManager.java:117-130 | addExpOnSkill never lowers an attribute's total or level |
| Levels.DefaultXp | src/levels/LevelManager.java:254-263 | every configured attribute at 0, nothing else |
| Levels.WithAttributes | src/levels/LevelManager.java:241-252 | missing attributes are added at 0, present ones keep their value |
| Levels.WithAttributesIsIdempotent | src/levels/LevelManager.java:241-252 | ensuring attributes twice is ensuring them once |
| LevelManagement.SkillInfo.Empty | src/levels/SkillInfo.java:10 | no attribute and no XP |
| LevelManagement.SkillInfo.constructor | src/levels/SkillInfo.java:12-15 | stores exactly the attribute and XP |
| LevelManagement.SkillInfo.SetAttribute | src/levels/SkillInfo.java:21-23 | only the attribute changes |
| LevelManagement.SkillInfo.SetExperience | src/levels/SkillInfo.java:29-31 | only the XP changes |
| LevelManagement.UserLevels.constructor | src/levels/UserLevels.java:10-12 | no attributes and no skills |
| LevelManagement.UserLevels.SetAttributesXp | src/levels/UserLevels.java:18-20 | replaces the attribute map, skills untouched |
| LevelManagement.UserLevels.SetAvailableSkills | src/levels/UserLevels.java:26-28 | replaces the skill map, attributes untouched |
| LevelManagement.UserLevels.IndexOfKey | src/levels/UserLevels.java:12 | a skill is listed iff its name is a key |
| LevelManagement.UserLevels.SkillAt | src/levels/UserLevels.java:11-24 | the listed entry of a stored skill carries that skill's attribute and XP |
| LevelManagement.UserLevels.PutNew | src/levels/LevelManager.java:107-126 | a new skill is appended in insertion order |
| LevelManagement.UserLevels.SetExperienceOf | src/levels/LevelManager.java:128 | only the named skill's XP changes in the live map |
| LevelManagement.CreateDefaultLevels | src/levels/LevelManager.java:254-263 | every attribute at 0, no skills |
| LevelManagement.EnsureAttributesPresent | src/levels/LevelManager.java:241-252 | the putIfAbsent loop computes WithAttributes |
| LevelManagement.LevelManager.constructor | src/levels/LevelManager.java:344-366 | the threshold table is the fixed-up table of the rounded values |
| LevelManagement.LevelManager.TotalXpForAttribute | src/levels/LevelManager.java:59-71 | the summing loop computes TotalXp |
| LevelManagement.LevelManager.XpToNextLevelForAttribute | src/levels/LevelManager.java:74-82 | the method computes XpToNextAsWritten of the attribute's total |
| LevelManagement.LevelManager.AttributeTotals | src/levels/LevelManager.java:284-297 | each attribute's summed skill XP |
| Levels.AttributeXpStep | src/levels/LevelManager.java:284-297 | one more skill adds its XP to exactly the attribute it names |
| LevelManagement.LevelManager.RecomputeAttributesFromSkills | src/levels/LevelManager.java:283-304 | the attribute map becomes Recomputed; skills unchanged |
| LevelManagement.LevelManager.SkillNamed | src/levels/LevelManager.java:120-127 | the named skill's info, created at the default attribute when missing |
| LevelManagement.LevelManager.AddSkill | src/levels/LevelManager.java:101-111 | the skill list becomes WithSkill; attributes unchanged |
| LevelManagement.LevelManager.GainExperience | src/levels/LevelManager.java:117-128 | the skill list becomes WithExp |
| LevelManagement.LevelManager.AddExpOnSkill | src/levels/LevelManager.java:117-131 | the skill list becomes WithExp and the attribute levels are recomputed; unusable names change nothing |
| MemoryStores.SafeString | src/config/MemoryStore.java:67 | null becomes "", anything else is kept |
| MemoryStores.WithShortTerm | src/config/MemoryStore.java:55 | only the short-term slot changes |
| MemoryStores.WithLongTerm | src/config/MemoryStore.java:57-65 | the long-term slot changes, and the file too when the write succeeds |
| MemoryStores.LongTermSurvives | src/config/MemoryStore.java:57-65 | a successful write is what a later session reads back |
| MemoryStores.SetReplaces | src/config/MemoryStore.java:55-65 | setting twice keeps only the second value |
| MemoryStores.MemoryStore.constructor | src/config/MemoryStore.java:20-21 | both slots start empty |
| MemoryStores.MemoryStore.SetShortTerm | src/config/MemoryStore.java:55 | the state becomes WithShortTerm |
| MemoryStores.MemoryStore.SetLongTerm | src/config/MemoryStore.java:57-65 | the state becomes WithLongTerm |
| MemoryStores.MemoryStore.ShortTerm | src/config/MemoryStore.java:52 | getShortTerm(): the short-term slot, never null since SetShortTerm stores SafeString of its argument |
| MemoryStores.MemoryStore.LongTerm | src/config/MemoryStore.java:53 | getLongTerm(): the long-term slot, never null since SetLongTerm stores SafeString of its argument |
| MemoryTasks.StripWrappingQuotes | src/actions/MemoryTaskAction.java:128-134 | matching outer quotes are removed, anything else is kept, a lone quote throws |
| MemoryTasks.StripUndoesQuoting | src/actions/MemoryTaskAction.java:128-134 | quoting then stripping gives the text back |
| MemoryTasks.CommandOf | src/actions/MemoryTaskAction.java:103-106 | a command exists iff the section starts with "memory:" in any case |
| MemoryTasks.CommandIgnoresCase | src/actions/MemoryTaskAction.java:104-106 | the marker is recognised in any letter case |
| MemoryTasks.PayloadOf | src/actions/MemoryTaskAction.java:108-110 | a payload exists iff some '(' precedes some ')' |
| MemoryTasks.PayloadBetweenParens | src/actions/MemoryTaskAction.java:108-110 | the payload is the trimmed text between the first '(' and the last ')' |
| MemoryTasks.WriteOf | src/actions/MemoryTaskAction.java:103-123 | non-memory sections ask nothing; short and long writes follow their verbs |
| MemoryTasks.ToLowerOfLower | src/actions/MemoryTaskAction.java:104 | lower-case text is unchanged by toLowerCase |
| MemoryTasks.CommandOfCommandText | src/actions/MemoryTaskAction.java:103-106 | the command of a request section is the request |
| MemoryTasks.CommandOfRequest | src/actions/MemoryTaskAction.java:103-106 | any verb followed by a quoted text in parentheses is read back as that command |
| MemoryTasks.PayloadOfRequest | src/actions/MemoryTaskAction.java:108-110 | the payload of a request is the quoted text |
| MemoryTasks.PayloadOfAnyRequest | src/actions/MemoryTaskAction.java:108-110 | for a verb without '(', the payload of verb("text") is the quoted text |
| MemoryTasks.WriteOfCommandText | src/actions/MemoryTaskAction.java:103-123 | parsing the section a write is requested with gives that write back, for every text |
| MemoryTasks.WriteOfQuotedCommand | src/actions/MemoryTaskAction.java:111-123 | a command starting with a write verb and carrying a payload yields that write |
| MemoryTasks.ApplyWrite | src/actions/MemoryTaskAction.java:112-120 | a short write touches only short term, a long write only long term |
| MemoryTasks.LastWriteWins | src/actions/MemoryTaskAction.java:97-126 | without an exception, each slot ends with its last write |
| MemoryTasks.OnlyMemorySectionsAct | src/actions/MemoryTaskAction.java:105 | sections not starting with "memory:" change nothing |
| MemoryTasks.FailedWritesKeepFile | src/config/MemoryStore.java:57-65 | when the disk fails, the file is never touched |
| MemoryTasks.HandleMemorySections | src/actions/MemoryTaskAction.java:97-126 | the bracket loop over the store computes HandleReply |
| MemoryTasks.MemoryBlock | src/actions/MemoryTaskAction.java:56-61 | the block starts with the instruction line and ends with the end marker |
| MemoryTasks.StandalonePrompt | src/actions/MemoryTaskAction.java:66-70 | the prompt starts with the instruction line and ends with the data |
| MemoryTasks.Execute | src/actions/MemoryTaskAction.java:35-79 | no prompts: failure and nothing changes; chat tick: the block is appended; otherwise one request whose reply is handled, an exception becoming a failure |
| MemoryTasks.ContributionKeepsPrefix | src/actions/MemoryTaskAction.java:54-62 | earlier task content stays a prefix |
| MemoryTasks.CanExecute | src/actions/MemoryTaskAction.java:30-32 | canExecute: the application's running flag, whatever the context |
| LevelsTasks.InstructionPart | src/actions/LevelsTaskAction.java:47-50 | empty iff the instruction is null or blank |
| LevelsTasks.PromptsPart | src/actions/LevelsTaskAction.java:58-59 | empty iff neither prompt is present |
| LevelsTasks.LevelsBlockShape | src/actions/LevelsTaskAction.java:47-66 | the block ends with the data line and starts with the instruction when there is one |
| LevelsTasks.Contribute | src/actions/LevelsTaskAction.java:33-70 | the builder is extended and stored back with "Levels task content added"; a value of another class throws |
| LevelsTasks.ContributeKeepsEarlierContent | src/actions/LevelsTaskAction.java:44-68 | earlier content stays a prefix and other keys are untouched |
| LevelsTasks.LevelsTaskAction | src/actions/LevelsTaskAction.java:14-30 | always executable and not bracket-aware |
| LevelsTasks.Execute | src/actions/LevelsTaskAction.java:33-70 | execute on the context object computes Contribute |
| Personalities.Window | src/personality/Personality.java:88-91 | the last five entries, in order |
| Personalities.NewestIsLast | src/personality/Personality.java:85-92 | a new response is the newest entry and earlier ones keep their order |
| Personalities.FullHistoryDropsOldest | src/personality/Personality.java:88-91 | a full history drops exactly its oldest entry |
| Personalities.Personality.constructor | src/personality/Personality.java:11-23 | the loaded prompts, no responses yet |
| Personalities.Personality.SetLastResponse | src/personality/Personality.java:77-79 | only lastResponse changes |
| Personalities.Personality.AddResponse | src/personality/Personality.java:85-92 | null or blank is ignored; otherwise the response is recorded and the history is its window, at most five |
| PersonalityManagement.NamesOf | src/personality/PersonalityManager.java:75-98 | the names of the loaded personalities, in order |
| PersonalityManagement.FirstMatchFrom | src/personality/PersonalityManager.java:80-84 | the first index whose name equals the target ignoring case |
| PersonalityManagement.Choose | src/personality/PersonalityManager.java:75-98 | the settings name if loaded, else "Tsundere" or the first; cleared when nothing is loaded but a name was set |
| PersonalityManagement.SelectThenApply | src/personality/PersonalityManager.java:59-98 | selecting a personality then applying the settings selects the first one with that name |
| PersonalityManagement.UnmatchedSettingFallsBack | src/personality/PersonalityManager.java:86-94 | an unmatched setting behaves as no setting |
| PersonalityManagement.PersonalityManager.constructor | src/personality/PersonalityManager.java:15-16 | nothing loaded, nothing selected |
| PersonalityManagement.PersonalityManager.AvailablePersonalities | src/personality/PersonalityManager.java:102-104 | getAvailablePersonalities: the loaded personalities in load order (a copy in the source; values here, so no aliasing) |
| PersonalityManagement.PersonalityManager.CurrentPersonalityPrompt | src/personality/PersonalityManager.java:110-112 | null without a selection, else its prompt |
| PersonalityManagement.PersonalityManager.CurrentMultimodalPrompt | src/personality/PersonalityManager.java:117-119 | null without a selection, else its multimodal prompt |
| PersonalityManagement.PersonalityManager.LastResponse | src/personality/PersonalityManager.java:124-126 | null without a selection |
| PersonalityManagement.PersonalityManager.LastResponses | src/personality/PersonalityManager.java:131-133 | empty without a selection |
| PersonalityManagement.PersonalityManager.SetSelectedPersonality | src/personality/PersonalityManager.java:59-70 | null changes nothing; otherwise selected and its name saved to the settings |
| PersonalityManagement.PersonalityManager.FindByName | src/personality/PersonalityManager.java:80-84 | the search loop computes FirstMatch |
| PersonalityManagement.PersonalityManager.ApplyPersonalityFromSettings | src/personality/PersonalityManager.java:75-98 | the selection Choose makes |
| PersonalityManagement.PersonalityManager.SaveResponseToMemory | src/personality/PersonalityManager.java:138-143 | the selected personality records the response |
| Configuration.DefaultUserSettings | src/config/UserSettings.java:15-22 | no voice, English, Tsundere, every switch on |
| Configuration.DivisorFor | src/config/ConfigurationManager.java:140-148 | 2 iff "frequent", 5 iff "scarse", ignoring case; 3 otherwise |
| Configuration.DivisorIgnoresCase | src/config/ConfigurationManager.java:140-148 | the divisor ignores letter case |
| Configuration.ConfigurationManager.constructor | src/config/ConfigurationManager.java:9-10 | the loaded configuration and settings |
| Configuration.ConfigurationManager.VisionPrompt | src/config/ConfigurationManager.java:218-225 | the configured prompt or the built-in default |
| Configuration.ConfigurationManager.FallbackPrompt | src/config/ConfigurationManager.java:227-234 | the configured prompt or the built-in default |
| Configuration.ConfigurationManager.MultimodalPrompt | src/config/ConfigurationManager.java:236-243 | the configured prompt or the built-in default |
| Configuration.ConfigurationManager.TasksInstruction | src/config/ConfigurationManager.java:245-249 | the configured instruction or the built-in default |
| Configuration.ConfigurationManager.VisionApiAvailable | src/config/ConfigurationManager.java:69-72 | the vision endpoint is configured with both a key and a url; false without system.json |
| Configuration.ConfigurationManager.AnalysisApiAvailable | src/config/ConfigurationManager.java:77-80 | the analysis endpoint is configured with both a key and a url; false without system.json |
| Configuration.ConfigurationManager.MultimodalApiAvailable | src/config/ConfigurationManager.java:85-96 | the multimodal endpoint is configured with both a key and a url (both names of the check); false without system.json |
| Configuration.ConfigurationManager.SelectedTtsVoice | src/config/ConfigurationManager.java:104-106 | null without settings |
| Configuration.ConfigurationManager.SelectedLanguage | src/config/ConfigurationManager.java:108-110 | "English" without settings |
| Configuration.ConfigurationManager.SelectedPersonalityName | src/config/ConfigurationManager.java:112-114 | "Tsundere" without settings |
| Configuration.ConfigurationManager.ChatFrequency | src/config/ConfigurationManager.java:136-138 | "medium" without settings |
| Configuration.ConfigurationManager.UseApiVision | src/config/ConfigurationManager.java:116-118 | useApiVision: false without settings; SetUseApiVision makes it read back the value set when settings exist |
| Configuration.ConfigurationManager.UseApiAnalysis | src/config/ConfigurationManager.java:120-122 | useApiAnalysis: false without settings; the setter's value reads back |
| Configuration.ConfigurationManager.UseMultimodal | src/config/ConfigurationManager.java:124-126 | useMultimodal: false without settings; the setter's value reads back |
| Configuration.ConfigurationManager.UseApiMultimodal | src/config/ConfigurationManager.java:128-130 | useApiMultimodal: false without settings; the setter's value reads back |
| Configuration.ConfigurationManager.UseTts | src/config/ConfigurationManager.java:132-134 | useTTS: false without settings; the setter's value reads back |
| Configuration.ConfigurationManager.ChatFrequencyDivisor | src/config/ConfigurationManager.java:140-148 | always 2, 3 or 5; 3 without settings |
| Configuration.ConfigurationManager.SaveUserSettings | src/config/ConfigurationManager.java:38-42 | the settings are written when present |
| Configuration.ConfigurationManager.SetSelectedTtsVoice | src/config/ConfigurationManager.java:152-157 | only the voice changes, and the settings are saved |
| Configuration.ConfigurationManager.SetSelectedLanguage | src/config/ConfigurationManager.java:159-164 | only the language changes, and the settings are saved |
| Configuration.ConfigurationManager.SetSelectedPersonality | src/config/ConfigurationManager.java:166-171 | only the personality name changes, and the settings are saved |
| Configuration.ConfigurationManager.SetUseApiVision | src/config/ConfigurationManager.java:173-178 | only that switch changes, and the settings are saved; afterwards the switch reads the value set when settings exist, and false otherwise |
| Configuration.ConfigurationManager.SetUseApiAnalysis | src/config/ConfigurationManager.java:180-185 | only that switch changes, and the settings are saved; afterwards the switch reads the value set when settings exist, and false otherwise |
| Configuration.ConfigurationManager.SetUseMultimodal | src/config/ConfigurationManager.java:187-192 | only that switch changes, and the settings are saved; afterwards the switch reads the value set when settings exist, and false otherwise |
| Configuration.ConfigurationManager.SetUseApiMultimodal | src/config/ConfigurationManager.java:194-199 | only that switch changes, and the settings are saved; afterwards the switch reads the value set when settings exist, and false otherwise |
| Configuration.ConfigurationManager.SetUseTts | src/config/ConfigurationManager.java:201-206 | only that switch changes, and the settings are saved; afterwards the switch reads the value set when settings exist, and false otherwise |
| Configuration.ConfigurationManager.SetChatFrequency | src/config/ConfigurationManager.java:208-213 | only the frequency changes, and the settings are saved |
| ScreenAnalyses.Captured | src/actions/ScreenAnalysisAction.java:64-69 | the new capture is newest; a full buffer drops its oldest; never more than four |
| ScreenAnalyses.Newest | src/actions/ScreenAnalysisAction.java:64-69 | the last four captures |
| ScreenAnalyses.CapturedOfNewest | src/actions/ScreenAnalysisAction.java:64-69 | one capture keeps the newest four |
| ScreenAnalyses.CapturesKeepNewest | src/actions/ScreenAnalysisAction.java:64-69 | any sequence of captures leaves the newest four of everything |
| ScreenAnalyses.ParseFinalResponse | src/actions/ScreenAnalysisAction.java:192-201 | null iff null; the result is trimmed; without a tag it is the trimmed reply |
| ScreenAnalyses.ParsedHasNoThinkTag | src/actions/ScreenAnalysisAction.java:192-201 | the parsed text never contains "</think>" |
| ScreenAnalyses.ParseIsIdempotent | src/actions/ScreenAnalysisAction.java:192-201 | parsing twice is parsing once |
| ScreenAnalyses.LastTagIsWritten | src/actions/ScreenAnalysisAction.java:195-197 | the tag found is the one between thinking and a tag-free answer |
| ScreenAnalyses.ThinkingIsDropped | src/actions/ScreenAnalysisAction.java:192-201 | everything up to the last tag is dropped |
| ScreenAnalyses.Unquoted | src/actions/ScreenAnalysisAction.java:180 | double quotes become single quotes |
| ScreenAnalyses.PersonalityRequest | src/actions/ScreenAnalysisAction.java:176-190 | the formatted prompt, followed by the previous-comment clause exactly when there is a previous comment |
| ScreenAnalyses.MultimodalRequest | src/actions/ScreenAnalysisAction.java:220-234 | the personality's prompt, followed by the previous-comment clause exactly when there is a previous comment |
| ScreenAnalyses.PreviousCommentQuotesSafely | src/actions/ScreenAnalysisAction.java:182-187 | the quoted previous comment cannot close its quotation early |
| ScreenAnalyses.DescribeStep | src/actions/ScreenAnalysisAction.java:130-159 | the description request |
| ScreenAnalyses.GenerateStep | src/actions/ScreenAnalysisAction.java:161-174 | a null description throws; otherwise one generation request |
| ScreenAnalyses.MultimodalStep | src/actions/ScreenAnalysisAction.java:203-218 | the personality's multimodal prompt or the configured one |
| ScreenAnalyses.Speech | src/actions/ScreenAnalysisAction.java:144-153 | only a non-blank parsed answer is spoken |
| ScreenAnalyses.Respond | src/actions/ScreenAnalysisAction.java:102-154 | processAndRespond: the multimodal step or the describe-then-generate steps, then speech of the parsed reply (SpeaksOnlyFinalText, BlankDescriptionIsSilent, NullDescriptionThrowsInFallback) |
| ScreenAnalyses.SpeaksOnlyFinalText | src/actions/ScreenAnalysisAction.java:102-154 | what is spoken is the parsed, non-blank final answer, spoken last |
| ScreenAnalyses.BlankDescriptionIsSilent | src/actions/ScreenAnalysisAction.java:133-135 | a blank description ends the job after one call |
| ScreenAnalyses.NullDescriptionThrowsInFallback | src/actions/ScreenAnalysisAction.java:128-142 | a null description throws in the generation step |
| ScreenAnalyses.StartAsWritten | src/actions/ScreenAnalysisAction.java:47-100 | skip when busy or stopped; failure with the latch held when the screenshot is missing; otherwise buffer, launch the newest and succeed |
| ScreenAnalyses.Start | src/actions/ScreenAnalysisAction.java:47-100 | the same, except that a missing screenshot releases the latch |
| ScreenAnalyses.MissingScreenshotLocksOut | src/actions/ScreenAnalysisAction.java:52-61 | after one missing screenshot every later call is skipped |
| ScreenAnalyses.LockedStaysLocked | src/actions/ScreenAnalysisAction.java:32-50 | a held latch skips every call |
| ScreenAnalyses.MissingScreenshotRecovers | src/actions/ScreenAnalysisAction.java:52-61 | with the release, the next call with a screenshot launches |
| ScreenAnalyses.LatchReleasedByJob | src/actions/ScreenAnalysisAction.java:83-92 | the latch is held while the job runs and released when it finishes |
| ScreenAnalyses.CanExecute | src/actions/ScreenAnalysisAction.java:33-44 | canExecute: the application is running and the processing latch is free; a failed lookup of the running flag reads as not running |
| ScreenAnalyses.ScreenAnalysisAction.constructor | src/actions/ScreenAnalysisAction.java:19-20 | empty buffer, latch free |
| ScreenAnalyses.ScreenAnalysisAction.ExecuteAsWritten | src/actions/ScreenAnalysisAction.java:47-100 | execute on the object is StartAsWritten |
| ScreenAnalyses.ScreenAnalysisAction.Execute | src/actions/ScreenAnalysisAction.java:47-100 | the corrected execute is Start |
| ScreenAnalyses.ScreenAnalysisAction.RunJob | src/actions/ScreenAnalysisAction.java:83-154 | the job responds as Respond, records the spoken text and releases the latch |
| Assistant.QuotedIn | src/AssistantCore.java:186-196 | the prompt starts and ends with the template and quotes the description with no double quote inside |
| Assistant.CoreRespond | src/AssistantCore.java:141-167 | the first call describes the image; a spoken comment is non-blank and the third, last call |
| Assistant.SpokenIsParsedReply | src/AssistantCore.java:141-196 | the spoken comment is the parsed reply to the comment request on a usable description |
| Assistant.AssistantCore.constructor | src/AssistantCore.java:31-33 | not running, nothing captured, latch free |
| Assistant.AssistantCore.StartProcessing | src/AssistantCore.java:35-46 | running afterwards; buffer and latch untouched |
| Assistant.AssistantCore.StopProcessing | src/AssistantCore.java:98-105 | stopped afterwards; buffer and latch untouched |
| Assistant.AssistantCore.CaptureScreenshot | src/AssistantCore.java:107-122 | a capture is buffered (at most four); a failure stops processing |
| Assistant.AssistantCore.ProcessAndRespond | src/AssistantCore.java:124-168 | busy: nothing; empty: the latch is taken and released; otherwise the newest capture is taken, the buffer emptied and the latch held |
| Assistant.AssistantCore.RunJob | src/AssistantCore.java:141-167 | the job is CoreRespond and releases the latch |
| Assistant.TakesLatestCapture | src/AssistantCore.java:112-138 | the capture taken is the last one captured |

## Left out

- **The action interfaces.** `Action` and `BracketAwareAction` are Java interfaces. Here they are one datatype whose guard and body are functions over the context map, and `handleBracket` is recorded as a `Dispatch` value.
- **Model services, speech and network calls.** The model services, text-to-speech and the Ollama/HTTP clients are outside the model. They appear as the `Services` parameter, and each call is logged as a `Call`. Speech is taken not to throw. `testOllamaConnection` and `encodeImageToBase64` are not part of this model.
- **Threads and locks.** The engine and both screen pipelines are modelled sequentially:
  - threads, the scheduler and `synchronized` blocks are not modelled;
  - each `AtomicBoolean.compareAndSet` is a plain test and set;
  - the background job is a separate method call.
- **Branches the model cannot reach.** Three places in `ScreenAnalysisAction.execute` are left out because nothing in the model can reach them:
  - the second latch test after `canExecute`;
  - the empty-buffer test right after an add;
  - the `catch` around the body, since nothing inside can throw in the model.
- **Reflection, settings flags and global state.**
  - Values the source reads from `AppState` or by reflection arrive as inputs: the running, processing and speaking flags, the divisor, the vision prompt, the tasks instruction and the screenshot.
  - The static fields of `PersonalityManager`, `LevelManager`, `MemoryStore` and `ConfigurationManager` become fields of one object each.
- **Registry values for stateful actions.** `ScreenAnalysisAction` and `MemoryTaskAction` are modelled as their own class and method, not as values in the registry. The engine sees them through the registry's `Execute` with an arbitrary behaviour.
- **File and JSON I/O.** Not part of this model:
  - `initialize`, `load*` and `save*`;
  - `loadPersonalities`, `loadMemoryPrompts` and reading `prompts.json`;
  - Gson serialisation.
  
  Their results are inputs: the prompts, the JSON text the tasks embed, and whether a file write succeeds.
- **`String.format` and `toLowerCase`.** `String.format` is modelled for a template whose only conversion is `%s`. `toLowerCase` and `equalsIgnoreCase` fold ASCII letters only (see `JavaStrings.EqualsIgnoreCase` below). `compareTo` is modelled by `JavaStrings.LessEq` as the lexicographic order of code points, so the sorts in `AvailableActions` and `AllActionsInfo` follow code-point order. Java compares UTF-16 code units, so a character outside the Basic Multilingual Plane and one in U+E000–U+FFFF sort the other way round there.
- **`Math.pow` and `Math.round`.** The threshold curve in `buildScaledOsrsThresholds` is not modelled. The fix-up pass takes the rounded values as input and is proved for every input.
- **Floating-point ratios and listeners.** `getLevelProgressRatioForAttribute` (a `double`) and the level-change listeners are not part of this model.
- **Java integer overflow.** Java `int` overflow is not modelled: XP sums and the tick counter are unbounded integers.
- **UserSettings' chat frequency.** `UserSettings` is given a `chatFrequency` field, which the Java class lacks but `getChatFrequency` reads.
- Thinking.EndOf: the action context is a value, so a contributor that appends to the `DefaultChatBlockedBy` list in place and one that replaces the entry with a new list are the same thing here. The model follows the in-place reading and tests the list found after the contributors have run. Java tests the list object it captured at the start of the tick (ThinkingEngine.java:86-89 and 133), so a contributor that replaces the entry with a new non-empty list blocks the chat in the model but not in Java. No modelled action writes that key. The same holds for `Thinking.ThinkingEngine.ChatOrTasks`.
- ActionManagement.ActionManager.RegisterAction: the registry is a `ConcurrentHashMap`, whose iteration order depends on hashing. The model fixes that order to first registration (`order`). Whatever depends on it — the order of `getRegisteredActions`, and so the order of the handler calls in `Routed` and `Dispatches` — is proved for that order only. `getAvailableActions` and `getAllActionsInfo` sort their output, so they do not depend on it.
- JavaStrings.EqualsIgnoreCase: folds ASCII letters only. Java's `equalsIgnoreCase` also folds non-ASCII letters through `Character.toUpperCase` and `toLowerCase`. `ToLower` likewise lowers only ASCII letters.
- LevelsTasks.Contribute: when `other_task_content` holds something other than a `StringBuilder`, the `NullPointerException` is modelled as `Threw(None)`, an exception without a message. `executeAction` then reports "Action execution failed: null". On JDK 15 and later, helpful NullPointerException messages give the exception a message, and that message text is not modelled. The same holds for `LevelsTasks.Execute`.
- Thinking.OneChatPerWindow: stated for the divisors 2, 3 and 5 that the configuration can produce, not for every divisor.
- Thinking.ThinkingEngine.Think: the message printed from the caught exception is not modelled. An aborted tick is reported through the `aborted` flag.

## Findings

| source | as written | input that shows it | evidently intended | confidence | as-written member | corrected member |
|---|---|---|---|---|---|---|
| src/levels/LevelManager.java:74-82 | at level 0 the next threshold is `th[max(1, 0+1)] = th[1] = 0`, so the XP still missing is `0 - 0 = 0` | an attribute with 0 total XP: the count is 0, yet 0 XP stays at level 0 and 1 XP is needed for level 1 | the XP still missing for the next level: 1 from level 0 | not executed | Levels.XpToNextAtLevelZero | Levels.XpToNextReachesNextLevel |
| src/actions/ScreenAnalysisAction.java:52-61 | the latch is taken and, when the context holds no screenshot, `failure` is returned without releasing it | a chat tick whose screen capture failed (`src/actions/ThinkingEngine.java:100-103`): every later call is skipped as "Already processing" | a missing screenshot releases the latch, as the background job's `finally` does | not executed | ScreenAnalyses.MissingScreenshotLocksOut | ScreenAnalyses.MissingScreenshotRecovers |
