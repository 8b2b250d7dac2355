/**
 * The thinking engine (actions/ThinkingEngine.java): one tick of the assistant's scheduler.
 * A tick flushes queued model replies through the bracket router, decides whether this is a
 * chat tick, lets the task contributors (levels_task every tick, memory_task every fifth
 * tick) add to the shared task content, and then either runs screen_analysis or, when the
 * chat is throttled or blocked, sends a tasks-only request and routes its reply.
 */
module Thinking {
  import opened Wrappers
  import opened JavaStrings
  import opened Values
  import opened ActionResults
  import opened ActionContexts
  import opened ActionManagement
  import opened BracketRouting

  const LevelsTask := "levels_task"
  const MemoryTask := "memory_task"
  const ScreenAnalysis := "screen_analysis"
  const QueueKey := "raw_model_output_queue"
  const ExpectedKey := "expected_bracket_prefixes"
  const GlobalContextKey := "global_context"
  const ManagerKey := "action_manager"

  /** The context keys a tick uses are pairwise different. */
  lemma KeysDiffer()
    ensures GlobalContextKey != ManagerKey && GlobalContextKey != BlockedKey && GlobalContextKey != WillRunKey
    ensures GlobalContextKey != ScreenshotKey && GlobalContextKey != TaskContentKey && GlobalContextKey != QueueKey
    ensures GlobalContextKey != ExpectedKey
    ensures ManagerKey != BlockedKey && ManagerKey != WillRunKey && ManagerKey != ScreenshotKey
    ensures ManagerKey != TaskContentKey && ManagerKey != QueueKey && ManagerKey != ExpectedKey
    ensures BlockedKey != WillRunKey && BlockedKey != ScreenshotKey && BlockedKey != TaskContentKey
    ensures WillRunKey != ScreenshotKey && WillRunKey != TaskContentKey && ScreenshotKey != TaskContentKey
    ensures QueueKey != ExpectedKey
  {
    assert GlobalContextKey[0] != ManagerKey[0];
  }

  /** What a tick reads from the rest of the application. */
  datatype TickInputs = TickInputs(
    divisor: int,                       // AppState.getChatFrequencyDivisor()
    screenshot: Option<Image>,          // captureScreenshot(), null when capture failed
    useMultimodal: bool,                // AppState.useMultimodal()
    visionPrompt: Option<string>,       // ConfigurationManager.getVisionPrompt()
    tasksInstruction: Option<string>,   // ConfigurationManager.getTasksInstruction()
    services: Services)

  /** How a tick that was not aborted ended: with screen_analysis, a tasks-only request, or neither. */
  datatype Ending = Ending(
    blockedBy: seq<string>,         // the reasons that blocked the default chat
    chatNow: bool,                  // screen_analysis was due
    screen: Option<ActionResult>,   // what screen_analysis returned, when it ran
    tasksOnly: Option<string>,      // the tasks-only prompt, when one was built
    shot: Option<Image>,            // the screenshot the tasks-only request was given
    calls: seq<Call>,               // model calls the engine itself made
    routed: seq<Dispatch>)          // handler calls made for the tasks-only reply

  /** The ending of a tick the cast aborted: nothing after the contributors happened. */
  const Unfinished := Ending([], false, None, None, None, [], [])

  /** What a tick did. */
  datatype TickReport = TickReport(
    flushed: seq<Dispatch>,         // handler calls made while flushing queued replies
    shouldChat: bool,               // the throttle let this tick chat
    executed: seq<string>,          // the contributors executeAction was called with, in order
    results: seq<ActionResult>,     // what each of those calls returned
    expected: seq<string>,          // the bracket prefixes collected (published unless aborted)
    aborted: bool,                  // a contributor was not bracket-aware: the cast threw
    end: Ending)

  // ---------------------------------------------------------------- throttle and cadence

  /** Whether a tick chats: a divisor of at most 1 always chats, otherwise every divisor-th tick. */
  predicate ShouldChat(divisor: int, counter: nat) {
    divisor <= 1 || counter % divisor == 0
  }

  /** The first tick (counter 0) always chats. */
  lemma FirstTickChats(divisor: int)
    ensures ShouldChat(divisor, 0)
  {
  }

  /**
   * For each divisor the configuration can produce (2, 3 or 5), any divisor-many consecutive
   * ticks hold exactly one chat tick: one exists, and two chat ticks in the window coincide.
   */
  lemma OneChatPerWindow(d: int, n: nat)
    requires d == 2 || d == 3 || d == 5
    ensures exists k :: n <= k < n + d && ShouldChat(d, k)
    ensures forall j, k :: n <= j < n + d && n <= k < n + d && ShouldChat(d, j) && ShouldChat(d, k) ==> j == k
  {
    var k := NextChat(d, n);
    forall j, k | n <= j < k < n + d
      ensures !(ShouldChat(d, j) && ShouldChat(d, k))
    {
      if ShouldChat(d, j) && ShouldChat(d, k) {
        ChatTicksApart(d, j, k);
      }
    }
  }

  /** The first chat tick at or after tick n comes within the next d ticks. */
  lemma NextChat(d: int, n: nat) returns (k: nat)
    requires d == 2 || d == 3 || d == 5
    ensures n <= k < n + d && ShouldChat(d, k)
  {
    var q, r := n / d, n % d;
    assert n == d * q + r && 0 <= r < d;
    if r == 0 {
      k := n;
    } else {
      k := d * q + d;
      assert k == d * (q + 1);
    }
  }

  /** Two distinct chat ticks are at least the divisor apart. */
  lemma ChatTicksApart(d: int, j: nat, k: nat)
    requires d == 2 || d == 3 || d == 5
    requires j < k && ShouldChat(d, j) && ShouldChat(d, k)
    ensures k - j >= d
  {
    if d == 2 {
      assert j % 2 == 0 && k % 2 == 0;
    } else if d == 3 {
      assert j % 3 == 0 && k % 3 == 0;
    } else {
      assert j % 5 == 0 && k % 5 == 0;
    }
  }

  /** memory_task is due when the counter, after this tick's increment, is a multiple of 5. */
  predicate MemoryDue(counterAfter: nat) {
    counterAfter % 5 == 0
  }

  /** Among any five consecutive ticks memory_task is due on exactly one. */
  lemma MemoryOncePerFiveTicks(n: nat)
    ensures exists k :: n <= k < n + 5 && MemoryDue(k)
    ensures forall j, k :: n <= j < n + 5 && n <= k < n + 5 && MemoryDue(j) && MemoryDue(k) ==> j == k
  {
    var k := n + (5 - n % 5) % 5;
    assert MemoryDue(k);
    forall j, k | n <= j < k < n + 5
      ensures !(MemoryDue(j) && MemoryDue(k))
    {
      if MemoryDue(j) && MemoryDue(k) {
        ChatTicksApart(5, j, k);
      }
    }
  }

  // ---------------------------------------------------------------- prompts and model calls

  /**
   * buildTasksOnlyPrompt: null unless the context holds a non-empty task buffer; otherwise the
   * tasks instruction and a blank line (only when the instruction is not blank) followed by
   * the buffer verbatim.
   */
  function TasksOnlyPrompt(bag: Bag, tasksInstruction: Option<string>): (r: Option<string>)
    ensures r.Some? <==> BuilderAt(bag, TaskContentKey).Some? && BuilderAt(bag, TaskContentKey).value != []
    ensures r.Some? ==> EndsWith(r.value, BuilderAt(bag, TaskContentKey).value)
    ensures r.Some? && tasksInstruction.Some? && !IsBlank(tasksInstruction.value) ==>
              StartsWith(r.value, tasksInstruction.value + "\n\n")
    ensures r.Some? && (tasksInstruction.None? || IsBlank(tasksInstruction.value)) ==>
              r.value == BuilderAt(bag, TaskContentKey).value
  {
    match BuilderAt(bag, TaskContentKey)
    case None => None
    case Some(other) =>
      if other == [] then None
      else
        var head := if tasksInstruction.Some? && !IsBlank(tasksInstruction.value)
                    then tasksInstruction.value + "\n\n" else "";
        assert (head + other)[..|head|] == head;
        assert (head + other)[|head + other| - |other|..] == other;
        Some(head + other)
  }

  /** The model calls an image-aware request makes and the reply (or exception) it ends with. */
  datatype Flow = Flow(calls: seq<Call>, reply: Reply)

  /**
   * runImageAwarePromptFlow without its routing: a null or blank prompt makes no call and
   * gives null; with a screenshot, multimodal mode sends image and prompt together, and the
   * traditional mode first asks the vision model for a description and then sends the
   * prompt with "Based on this activity: " and the description, or the bare prompt when the
   * description is empty; without a screenshot the bare prompt is sent.
   */
  function PromptFlow(shot: Option<Image>, prompt: Option<string>, env: TickInputs): (f: Flow)
    ensures prompt.None? || IsBlank(prompt.value) ==> f == Flow([], Answer(None))
    ensures 0 < |f.calls| ==> prompt.Some? && !IsBlank(prompt.value)
    ensures |f.calls| <= 2
    ensures shot.None? && prompt.Some? && !IsBlank(prompt.value) ==>
              f.calls == [GenerateResponse(prompt.value)]
  {
    if prompt.None? || IsBlank(prompt.value) then Flow([], Answer(None))
    else
      var p := prompt.value;
      match shot
      case None => Flow([GenerateResponse(p)], env.services.generateResponse(p))
      case Some(img) =>
        if env.useMultimodal then
          Flow([AnalyzeImageMultimodal(img, p)], env.services.analyzeImageMultimodal(img, p))
        else
          var first := AnalyzeImage(img, env.visionPrompt);
          match env.services.analyzeImage(img, env.visionPrompt)
          case Fault(m) => Flow([first], Fault(m))
          case Answer(desc) =>
            var finalPrompt := if desc.Some? && !IsBlank(desc.value)
                               then p + "\n\nBased on this activity: " + desc.value
                               else p;
            Flow([first, GenerateResponse(finalPrompt)], env.services.generateResponse(finalPrompt))
  }

  /** In traditional mode a non-empty description is appended to the prompt that is finally sent. */
  lemma VisionDescriptionIsAppended(img: Image, p: string, env: TickInputs)
    requires !IsBlank(p) && !env.useMultimodal
    requires env.services.analyzeImage(img, env.visionPrompt).Answer?
    requires var d := env.services.analyzeImage(img, env.visionPrompt).text;
             d.Some? && !IsBlank(d.value)
    ensures var d := env.services.analyzeImage(img, env.visionPrompt).text.value;
            PromptFlow(Some(img), Some(p), env).calls ==
              [AnalyzeImage(img, env.visionPrompt), GenerateResponse(p + "\n\nBased on this activity: " + d)]
  {
  }

  /** The reply a flow routes: none when the request threw. */
  function RoutedReply(f: Flow): Option<string> {
    match f.reply
    case Answer(t) => t
    case Fault(_) => None
  }

  /** The handler calls routing a list of queued replies makes, reply by reply. */
  function RouteAll(raws: seq<string>, actions: seq<Action>): seq<Dispatch> {
    if raws == [] then []
    else RouteAll(raws[..|raws| - 1], actions) + Routed(Some(raws[|raws| - 1]), actions)
  }

  /**
   * runImageAwarePromptFlow(shot, prompt, expected, actions, context): makes the flow's
   * model calls, routes the reply's bracket sections, and returns the reply; an exception
   * from a model call escapes before any routing.
   */
  method RunImageAwarePromptFlow(shot: Option<Image>, prompt: Option<string>, expected: Option<seq<string>>,
                                 actions: seq<Action>, env: TickInputs)
    returns (raw: Result<Option<string>>, calls: seq<Call>, dispatched: seq<Dispatch>)
    ensures calls == PromptFlow(shot, prompt, env).calls
    ensures PromptFlow(shot, prompt, env).reply.Fault? ==>
              raw == Raised(PromptFlow(shot, prompt, env).reply.message) && dispatched == []
    ensures PromptFlow(shot, prompt, env).reply.Answer? ==>
              raw == Ok(PromptFlow(shot, prompt, env).reply.text) &&
              dispatched == Routed(PromptFlow(shot, prompt, env).reply.text, actions)
  {
    var flow := PromptFlow(shot, prompt, env);
    calls := flow.calls;
    match flow.reply
    case Fault(m) =>
      raw, dispatched := Raised(m), [];
    case Answer(t) =>
      var found;
      dispatched, found := RouteBracketSections(t, actions, expected);
      raw := Ok(t);
  }

  // ---------------------------------------------------------------- contributors

  /**
   * The cast to BracketAwareAction at the prefix lookup: the action's prefixes, or a
   * ClassCastException when the action is not bracket-aware.
   */
  function CastPrefixes(a: Action): (r: Result<seq<string>>)
    ensures r.Ok? <==> a.prefixes.Some?
  {
    match a.prefixes
    case Some(ps) => Ok(ps)
    case None => Raised("class cast to BracketAwareAction")
  }

  /** The contributors that are due on a tick, in the order the tick runs them. */
  function Contributors(hasLevels: bool, memoryDue: bool): seq<string> {
    (if hasLevels then [LevelsTask] else []) + (if memoryDue then [MemoryTask] else [])
  }

  /** The prefixes a contributor adds to the expected list: none when it failed or is not bracket-aware. */
  function Added(actions: map<string, Action>, id: string, r: ActionResult): seq<string> {
    if r.IsFailure() || id !in actions || actions[id].prefixes.None? then [] else actions[id].prefixes.value
  }

  /** The results of executeAction on each id in turn, and the context left after the last call. */
  datatype Chain = Chain(results: seq<ActionResult>, after: Bag)

  /** executeAction on each id in order, each call on the context the call before it left. */
  function RunChain(actions: map<string, Action>, ids: seq<string>, bag: Bag): (c: Chain)
    ensures |c.results| == |ids|
    decreases |ids|
  {
    if ids == [] then Chain([], bag)
    else
      var step := Execute(actions, ids[0], bag);
      var rest := RunChain(actions, ids[1..], step.context);
      Chain([step.result] + rest.results, rest.after)
  }

  /** Each call of the chain sees the context that the calls before it left behind. */
  lemma {:induction false} RunChainStep(actions: map<string, Action>, ids: seq<string>, i: nat, bag: Bag)
    requires i < |ids|
    ensures RunChain(actions, ids, bag).results[i] ==
            Execute(actions, ids[i], RunChain(actions, ids[..i], bag).after).result
    decreases i
  {
    if i > 0 {
      var step := Execute(actions, ids[0], bag);
      RunChainStep(actions, ids[1..], i - 1, step.context);
      assert ids[..i][1..] == ids[1..][..i - 1];
    }
  }

  /** After a contributor's call the cast throws: the call did not fail and the action is not bracket-aware. */
  predicate CastThrows(actions: map<string, Action>, id: string, r: ActionResult) {
    !r.IsFailure() && id in actions && actions[id].prefixes.None?
  }

  /** What the contributors of a tick did, and the context they left. */
  datatype Contribution = Contribution(executed: seq<string>, results: seq<ActionResult>, expected: seq<string>,
                                       aborted: bool, after: Bag)

  /**
   * The due contributors run in order through executeAction on the tick's context; each one
   * that did not fail adds its bracket prefixes; the first one whose cast throws ends the run,
   * and the tick with it.
   */
  function Contributions(actions: map<string, Action>, due: seq<string>, bag: Bag): Contribution
    decreases |due|
  {
    if due == [] then Contribution([], [], [], false, bag)
    else
      var step := Execute(actions, due[0], bag);
      if CastThrows(actions, due[0], step.result) then Contribution([due[0]], [step.result], [], true, step.context)
      else
        var rest := Contributions(actions, due[1..], step.context);
        Contribution([due[0]] + rest.executed, [step.result] + rest.results,
                     Added(actions, due[0], step.result) + rest.expected, rest.aborted, rest.after)
  }

  /** A run continued by more contributors: nothing more once it was aborted. */
  function Then(actions: map<string, Action>, c: Contribution, more: seq<string>): Contribution {
    if c.aborted then c
    else
      var d := Contributions(actions, more, c.after);
      Contribution(c.executed + d.executed, c.results + d.results, c.expected + d.expected, d.aborted, d.after)
  }

  /** A run that carries on from a first part that did not abort. */
  function Prepend(head: Contribution, c: Contribution): Contribution {
    Contribution(head.executed + c.executed, head.results + c.results, head.expected + c.expected, c.aborted, c.after)
  }

  /** Continuing a run that starts with a part that did not abort is continuing the rest of it. */
  lemma PrependThen(actions: map<string, Action>, head: Contribution, c: Contribution, more: seq<string>)
    requires !head.aborted
    ensures Then(actions, Prepend(head, c), more) == Prepend(head, Then(actions, c, more))
  {
    if !c.aborted {
      var d := Contributions(actions, more, c.after);
      assert head.executed + (c.executed + d.executed) == (head.executed + c.executed) + d.executed;
      assert head.results + (c.results + d.results) == (head.results + c.results) + d.results;
      assert head.expected + (c.expected + d.expected) == (head.expected + c.expected) + d.expected;
    }
  }

  /** Running a list of contributors is running its first part, then the rest unless the first part aborted. */
  lemma {:induction false} ContributionsAppend(actions: map<string, Action>, a: seq<string>, b: seq<string>, bag: Bag)
    ensures Contributions(actions, a + b, bag) == Then(actions, Contributions(actions, a, bag), b)
    decreases |a|
  {
    if a == [] {
      assert a + b == b;
    } else {
      var step := Execute(actions, a[0], bag);
      var ab := a + b;
      assert ab[0] == a[0] && ab[1..] == a[1..] + b;
      if !CastThrows(actions, a[0], step.result) {
        ContributionsAppend(actions, a[1..], b, step.context);
        var head := Contribution([a[0]], [step.result], Added(actions, a[0], step.result), false, step.context);
        var c1 := Contributions(actions, a[1..], step.context);
        assert Contributions(actions, ab, bag) == Prepend(head, Contributions(actions, a[1..] + b, step.context));
        assert Contributions(actions, a, bag) == Prepend(head, c1);
        PrependThen(actions, head, c1, b);
      }
    }
  }

  /** A tick's contributors: levels_task's run (when registered), continued by memory_task when it is due. */
  lemma DueContributions(actions: map<string, Action>, hasLevels: bool, memoryDue: bool, bag: Bag)
    ensures var first := if hasLevels then Contributions(actions, [LevelsTask], bag) else Contribution([], [], [], false, bag);
            Contributions(actions, Contributors(hasLevels, memoryDue), bag) ==
            Then(actions, first, if memoryDue then [MemoryTask] else [])
  {
    var tail := if memoryDue then [MemoryTask] else [];
    if hasLevels {
      assert Contributors(hasLevels, memoryDue) == [LevelsTask] + tail;
      ContributionsAppend(actions, [LevelsTask], tail, bag);
    } else {
      assert Contributors(hasLevels, memoryDue) == tail;
      var d := Contributions(actions, tail, bag);
      assert [] + d.executed == d.executed && [] + d.results == d.results && [] + d.expected == d.expected;
    }
  }

  /** The contributors that ran are a prefix of those due, and all of them when no cast threw. */
  lemma {:induction false} ContributionsPrefix(actions: map<string, Action>, due: seq<string>, bag: Bag)
    ensures var c := Contributions(actions, due, bag);
            c.executed <= due && |c.results| == |c.executed| && (!c.aborted ==> c.executed == due)
    decreases |due|
  {
    if due != [] {
      var step := Execute(actions, due[0], bag);
      if !CastThrows(actions, due[0], step.result) {
        ContributionsPrefix(actions, due[1..], step.context);
        assert due == [due[0]] + due[1..];
      }
    }
  }

  /** Each contributor that ran was called on the context the ones before it left: the run is a chain of executeAction calls. */
  lemma {:induction false} ContributionsChain(actions: map<string, Action>, due: seq<string>, bag: Bag)
    ensures var c := Contributions(actions, due, bag);
            c.results == RunChain(actions, c.executed, bag).results && c.after == RunChain(actions, c.executed, bag).after
    decreases |due|
  {
    if due != [] {
      var step := Execute(actions, due[0], bag);
      if CastThrows(actions, due[0], step.result) {
        assert [due[0]][1..] == [];
      } else {
        ContributionsChain(actions, due[1..], step.context);
        var rest := Contributions(actions, due[1..], step.context);
        assert ([due[0]] + rest.executed)[1..] == rest.executed;
      }
    }
  }

  /** No contributor's cast threw before the last one that ran. */
  lemma {:induction false} ContributionsRunOn(actions: map<string, Action>, due: seq<string>, bag: Bag)
    ensures var c := Contributions(actions, due, bag);
            |c.results| == |c.executed| &&
            forall i :: 0 <= i < |c.executed| - 1 ==> !CastThrows(actions, c.executed[i], c.results[i])
    decreases |due|
  {
    if due != [] {
      var step := Execute(actions, due[0], bag);
      if !CastThrows(actions, due[0], step.result) {
        ContributionsRunOn(actions, due[1..], step.context);
        var rest := Contributions(actions, due[1..], step.context);
        var c := Contributions(actions, due, bag);
        assert c.executed[1..] == rest.executed && c.results[1..] == rest.results;
      }
    }
  }

  /** A tick is aborted exactly when the cast after the last contributor that ran threw. */
  lemma {:induction false} ContributionsAbort(actions: map<string, Action>, due: seq<string>, bag: Bag)
    ensures var c := Contributions(actions, due, bag);
            |c.results| == |c.executed| &&
            (c.aborted <==> c.executed != [] && CastThrows(actions, c.executed[|c.executed| - 1], c.results[|c.executed| - 1]))
    decreases |due|
  {
    if due != [] {
      var step := Execute(actions, due[0], bag);
      if !CastThrows(actions, due[0], step.result) {
        ContributionsAbort(actions, due[1..], step.context);
        var rest := Contributions(actions, due[1..], step.context);
        var executed, results := [due[0]] + rest.executed, [step.result] + rest.results;
        assert Contributions(actions, due, bag) ==
               Contribution(executed, results, Added(actions, due[0], step.result) + rest.expected, rest.aborted, rest.after);
        if rest.executed == [] {
          assert !rest.aborted && executed == [due[0]] && results == [step.result];
        } else {
          assert executed[|executed| - 1] == rest.executed[|rest.executed| - 1];
          assert results[|executed| - 1] == rest.results[|rest.executed| - 1];
        }
      }
    }
  }

  /**
   * The end of a tick that was not aborted, from the context the contributors left: the
   * reasons listed under DefaultChatBlockedBy; screen_analysis when the throttle allows a
   * chat, nothing blocks it and it is registered; otherwise a tasks-only request when there
   * is task content, whose reply is routed to the registered actions.
   */
  function EndOf(shouldChat: bool, actions: map<string, Action>, registered: seq<Action>, after: Bag, env: TickInputs): (e: Ending)
    ensures e.chatNow <==> shouldChat && e.blockedBy == []
    ensures e.screen.Some? <==> e.chatNow && ScreenAnalysis in actions
    ensures e.screen.Some? ==> e.screen.value == Execute(actions, ScreenAnalysis, after).result
    ensures e.tasksOnly.Some? ==> !e.chatNow && !IsBlank(e.tasksOnly.value) && BuilderAt(after, TaskContentKey).Some? &&
                                  EndsWith(e.tasksOnly.value, BuilderAt(after, TaskContentKey).value)
    ensures e.tasksOnly.None? ==> e.calls == [] && e.routed == [] && e.shot.None?
  {
    var blocked := TextsAt(after, BlockedKey).GetOr([]);
    var chatNow := shouldChat && blocked == [];
    var prompt := TasksOnlyPrompt(after, env.tasksInstruction);
    if chatNow then
      Ending(blocked, true, if ScreenAnalysis in actions then Some(Execute(actions, ScreenAnalysis, after).result) else None,
             None, None, [], [])
    else if prompt.Some? && !IsBlank(prompt.value) then
      var shot := ImageAt(after, ScreenshotKey);
      var flow := PromptFlow(shot, prompt, env);
      Ending(blocked, false, None, prompt, shot, flow.calls, Routed(RoutedReply(flow), registered))
    else Ending(blocked, false, None, None, None, [], [])
  }

  /** The context a tick starts with: the two handles, an empty block list, the will-run flag and the screenshot. */
  function TickContext(shouldChat: bool, screenshot: Option<Image>): (bag: Bag)
    ensures TextsAt(bag, BlockedKey) == Some([]) && FlagAt(bag, WillRunKey) == Some(shouldChat)
    ensures ImageAt(bag, ScreenshotKey) == screenshot && BuilderAt(bag, TaskContentKey).None?
  {
    KeysDiffer();
    var base := map[GlobalContextKey := Handle(GlobalContextKey), ManagerKey := Handle(ManagerKey),
                    BlockedKey := Texts([]), WillRunKey := Flag(shouldChat)];
    if screenshot.Some? then base[ScreenshotKey := Screenshot(screenshot.value)] else base
  }

  /**
   * What a tick whose context started as start did: the contributors due on the counter
   * after its increment ran as Contributions says, and, unless a cast aborted the tick, it
   * ended as EndOf says on the context they left.
   */
  predicate Ran(r: TickReport, actions: map<string, Action>, registered: seq<Action>, counterAfter: nat, start: Bag, env: TickInputs) {
    var c := Contributions(actions, Contributors(LevelsTask in actions, MemoryTask in actions && MemoryDue(counterAfter)), start);
    r.executed == c.executed && r.results == c.results && r.expected == c.expected && r.aborted == c.aborted &&
    r.end == if c.aborted then Unfinished else EndOf(r.shouldChat, actions, registered, c.after, env)
  }

  /**
   * With no contributor due, a fresh tick context reaches the chat decision untouched:
   * nothing blocks the chat, screen_analysis runs exactly when the throttle allows it and it
   * is registered, and there is no task content for a tasks-only request.
   */
  lemma QuietTickChats(r: TickReport, actions: map<string, Action>, registered: seq<Action>,
                       counterAfter: nat, screenshot: Option<Image>, env: TickInputs)
    requires Ran(r, actions, registered, counterAfter, TickContext(r.shouldChat, screenshot), env)
    requires LevelsTask !in actions && (MemoryTask !in actions || !MemoryDue(counterAfter))
    ensures !r.aborted && r.executed == [] && r.end.blockedBy == [] && r.end.chatNow == r.shouldChat
    ensures r.end.screen.Some? <==> r.shouldChat && ScreenAnalysis in actions
    ensures r.end.tasksOnly.None? && r.end.calls == []
  {
  }

  // ---------------------------------------------------------------- the reply queue

  /** The global context holds a non-empty raw_model_output_queue. */
  predicate QueueNonEmpty(bag: Bag) {
    TextsAt(bag, QueueKey).Some? && TextsAt(bag, QueueKey).value != []
  }

  /** The global context after a flush: a non-empty queue is replaced by an empty one. */
  function AfterFlush(bag: Bag): Bag {
    if QueueNonEmpty(bag) then bag[QueueKey := Texts([])] else bag
  }

  /** The handler calls a flush makes: every queued reply routed, oldest first. */
  function FlushRoutes(bag: Bag, actions: seq<Action>): seq<Dispatch> {
    if QueueNonEmpty(bag) then RouteAll(TextsAt(bag, QueueKey).value, actions) else []
  }

  /**
   * A flush empties the queue and touches nothing else, and flushing again changes nothing
   * and routes nothing: each queued reply is routed once.
   */
  lemma FlushOnce(bag: Bag, actions: seq<Action>)
    ensures !QueueNonEmpty(AfterFlush(bag))
    ensures AfterFlush(AfterFlush(bag)) == AfterFlush(bag)
    ensures FlushRoutes(AfterFlush(bag), actions) == []
    ensures forall k :: k != QueueKey ==> Lookup(AfterFlush(bag), k) == Lookup(bag, k)
    ensures QueueNonEmpty(bag) ==> Lookup(AfterFlush(bag), QueueKey) == Some(Texts([]))
  {
  }

  class ThinkingEngine {
    const manager: ActionManager
    /** The single-flight latch (an AtomicBoolean). */
    var isThinking: bool
    /** AppState.tickCounter. */
    var tickCounter: nat

    constructor (m: ActionManager)
      ensures manager == m && !isThinking && tickCounter == 0
    {
      manager := m;
      isThinking := false;
      tickCounter := 0;
    }

    /**
     * Flushes raw_model_output_queue: when the global context holds a non-empty queue, it is
     * emptied and each queued reply is routed with the prefixes expected on the last tick.
     */
    method FlushQueue() returns (flushed: seq<Dispatch>)
      requires manager.Valid()
      modifies manager.global
      ensures manager.global.data == AfterFlush(old(manager.global.data))
      ensures flushed == FlushRoutes(old(manager.global.data), manager.RegisteredActions())
    {
      flushed := [];
      var queued := TextsAt(manager.global.data, QueueKey);
      if queued.Some? && queued.value != [] {
        var copy := queued.value;
        manager.global.Put(QueueKey, Texts([]));
        var expected := TextsAt(manager.global.data, ExpectedKey);
        var actions := manager.RegisteredActions();
        var i := 0;
        while i < |copy|
          invariant i <= |copy|
          invariant flushed == RouteAll(copy[..i], actions)
          invariant manager.global.data == old(manager.global.data)[QueueKey := Texts([])]
        {
          var d, found := RouteBracketSections(Some(copy[i]), actions, expected);
          assert copy[..i + 1][..i] == copy[..i];
          flushed := flushed + d;
          i := i + 1;
        }
        assert copy[..i] == copy;
      }
    }

    /**
     * Runs a contributor through executeAction and, unless it failed, looks up its bracket
     * prefixes through the cast to BracketAwareAction.
     */
    method Contribute(id: string, context: ActionContext) returns (result: ActionResult, prefixes: Result<seq<string>>)
      requires manager.Valid() && manager.HasAction(id)
      modifies context
      ensures result == Execute(manager.actions, id, old(context.data)).result
      ensures context.data == Execute(manager.actions, id, old(context.data)).context
      ensures prefixes == if result.IsFailure() then Ok([]) else CastPrefixes(manager.actions[id])
      ensures Contributions(manager.actions, [id], old(context.data)) ==
              Contribution([id], [result], if prefixes.Ok? then prefixes.value else [], prefixes.Raised?, context.data)
    {
      result := manager.ExecuteAction(id, context);
      if result.IsFailure() {
        prefixes := Ok([]);
      } else {
        prefixes := CastPrefixes(manager.actions[id]);
      }
    }

    /**
     * The contributors of a tick: levels_task whenever it is registered, then memory_task
     * when it is registered and the counter is a multiple of 5. A contributor that did not
     * fail adds its bracket prefixes to the expected list; one that is not bracket-aware
     * makes the cast throw, which ends the tick.
     */
    method RunContributors(context: ActionContext)
      returns (executed: seq<string>, results: seq<ActionResult>, expected: seq<string>, aborted: bool)
      requires manager.Valid()
      modifies context
      ensures Contribution(executed, results, expected, aborted, context.data) ==
              Contributions(manager.actions, Contributors(LevelsTask in manager.actions, MemoryTask in manager.actions && MemoryDue(tickCounter)),
                            old(context.data))
    {
      executed, results, expected, aborted := [], [], [], false;
      ghost var memoryDue := MemoryTask in manager.actions && MemoryDue(tickCounter);
      DueContributions(manager.actions, LevelsTask in manager.actions, memoryDue, context.data);
      if manager.HasAction(LevelsTask) {
        var r, p := Contribute(LevelsTask, context);
        executed, results := [LevelsTask], [r];
        if p.Raised? {
          aborted := true;
          return;
        }
        expected := p.value;
      }
      if manager.HasAction(MemoryTask) && MemoryDue(tickCounter) {
        var r, p := Contribute(MemoryTask, context);
        executed, results := executed + [MemoryTask], results + [r];
        if p.Raised? {
          aborted := true;
          return;
        }
        expected := expected + p.value;
      }
    }

    /**
     * The end of a tick: screen_analysis when the throttle allows a chat and nothing blocks
     * it; otherwise a tasks-only request when the contributors left task content, whose reply
     * is routed with the expected prefixes.
     */
    method ChatOrTasks(context: ActionContext, shouldChat: bool, expected: seq<string>, env: TickInputs)
      returns (end: Ending)
      requires manager.Valid()
      modifies context
      ensures end == EndOf(shouldChat, manager.actions, manager.RegisteredActions(), old(context.data), env)
      ensures context.data == if end.screen.Some? then Execute(manager.actions, ScreenAnalysis, old(context.data)).context
                              else old(context.data)
    {
      var blocked := TextsAt(context.data, BlockedKey).GetOr([]);
      var chatNow := blocked == [] && shouldChat;
      end := Ending(blocked, chatNow, None, None, None, [], []);
      if chatNow {
        if manager.HasAction(ScreenAnalysis) {
          var r := manager.ExecuteAction(ScreenAnalysis, context);
          end := end.(screen := Some(r));
        }
      } else {
        var prompt := TasksOnlyPrompt(context.data, env.tasksInstruction);
        if prompt.Some? && !IsBlank(prompt.value) {
          var shot := ImageAt(context.data, ScreenshotKey);
          var raw, calls, routed := RunImageAwarePromptFlow(shot, prompt, Some(expected), manager.RegisteredActions(), env);
          end := end.(tasksOnly := prompt, shot := shot, calls := calls, routed := routed);
        }
      }
    }

    /**
     * What a tick that started from counterBefore and the global context globalBefore did:
     * the counter advanced, the throttle decided on the counter before it advanced, the
     * queued replies were flushed, the tick ran from a fresh context as Ran says, and the
     * expected prefixes were published unless the tick was aborted.
     */
    ghost predicate Ticked(r: TickReport, counterBefore: nat, globalBefore: Bag, env: TickInputs)
      requires manager.Valid()
      reads this, manager, manager.global
    {
      tickCounter == counterBefore + 1 &&
      r.shouldChat == ShouldChat(env.divisor, counterBefore) &&
      r.flushed == FlushRoutes(globalBefore, manager.RegisteredActions()) &&
      Ran(r, manager.actions, manager.RegisteredActions(), tickCounter, TickContext(r.shouldChat, env.screenshot), env) &&
      var flushedGlobal := AfterFlush(globalBefore[ManagerKey := Handle(ManagerKey)]);
      manager.global.data == if r.aborted then flushedGlobal else flushedGlobal[ExpectedKey := Texts(r.expected)]
    }

    /** think(): one guarded tick; the latch is held during the tick and restored afterwards. */
    method Think(processing: bool, speaking: bool, env: TickInputs) returns (report: Option<TickReport>)
      requires manager.Valid()
      modifies this, manager.global
      ensures report.None? <==> processing || speaking || old(isThinking)
      ensures report.None? ==> tickCounter == old(tickCounter) && manager.global.data == old(manager.global.data)
      ensures report.Some? ==> Ticked(report.value, old(tickCounter), old(manager.global.data), env)
      ensures isThinking == old(isThinking)
    {
      if processing || speaking {
        return None;
      }
      if isThinking {
        return None;
      }
      isThinking := true;
      var r := AnalyzeSituationAndAct(env);
      isThinking := false;
      report := Some(r);
    }

    /** The per-tick context, built one put at a time. */
    static method NewTickContext(shouldChat: bool, screenshot: Option<Image>) returns (context: ActionContext)
      ensures fresh(context)
      ensures context.data == TickContext(shouldChat, screenshot)
    {
      context := new ActionContext();
      context.Put(GlobalContextKey, Handle(GlobalContextKey));
      context.Put(ManagerKey, Handle(ManagerKey));
      // A fresh context holds no block reasons yet: start an empty list.
      context.Put(BlockedKey, Texts([]));
      context.Put(WillRunKey, Flag(shouldChat));
      if screenshot.Some? {
        context.Put(ScreenshotKey, Screenshot(screenshot.value));
      }
    }

    /**
     * The start of a tick: the global context gains the manager's handle and is flushed,
     * the throttle decides on the counter before it advances, and the per-tick context is built.
     */
    method OpenTick(env: TickInputs) returns (context: ActionContext, flushed: seq<Dispatch>, shouldChat: bool)
      requires manager.Valid()
      modifies this, manager.global
      ensures fresh(context)
      ensures shouldChat == ShouldChat(env.divisor, old(tickCounter))
      ensures tickCounter == old(tickCounter) + 1 && isThinking == old(isThinking)
      ensures context.data == TickContext(shouldChat, env.screenshot)
      ensures flushed == FlushRoutes(old(manager.global.data), manager.RegisteredActions())
      ensures manager.global.data == AfterFlush(old(manager.global.data)[ManagerKey := Handle(ManagerKey)])
    {
      KeysDiffer();
      var global := manager.global;
      global.Put(ManagerKey, Handle(ManagerKey));
      assert TextsAt(global.data, QueueKey) == TextsAt(old(global.data), QueueKey);
      // Route the replies queued by earlier ticks.
      flushed := FlushQueue();
      shouldChat := ShouldChat(env.divisor, tickCounter);
      context := NewTickContext(shouldChat, env.screenshot);
      tickCounter := tickCounter + 1;
    }

    /**
     * The rest of a tick once its context is built: the contributors run, their prefixes
     * are published as expected_bracket_prefixes, and the tick ends with a chat or a
     * tasks-only request. A contributor that is not bracket-aware ends the tick early.
     */
    method RestOfTick(context: ActionContext, flushed: seq<Dispatch>, shouldChat: bool, env: TickInputs)
      returns (report: TickReport)
      requires manager.Valid() && context != manager.global
      modifies context, manager.global
      ensures report.flushed == flushed && report.shouldChat == shouldChat
      ensures Ran(report, manager.actions, manager.RegisteredActions(), tickCounter, old(context.data), env)
      ensures manager.global.data == if report.aborted then old(manager.global.data)
                                     else old(manager.global.data)[ExpectedKey := Texts(report.expected)]
    {
      var executed, results, expected, aborted := RunContributors(context);
      if aborted {
        report := TickReport(flushed, shouldChat, executed, results, expected, true, Unfinished);
        return;
      }
      manager.global.Put(ExpectedKey, Texts(expected));
      var end := ChatOrTasks(context, shouldChat, expected, env);
      report := TickReport(flushed, shouldChat, executed, results, expected, false, end);
    }

    /** analyzeSituationAndAct(): the body of a tick. */
    method AnalyzeSituationAndAct(env: TickInputs) returns (report: TickReport)
      requires manager.Valid()
      modifies this, manager.global
      ensures Ticked(report, old(tickCounter), old(manager.global.data), env)
      ensures isThinking == old(isThinking)
    {
      var context, flushed, shouldChat := OpenTick(env);
      report := RestOfTick(context, flushed, shouldChat, env);
    }
  }
}
