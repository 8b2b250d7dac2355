/**
 * The levels task (actions/LevelsTaskAction.java): appends the levels instructions and the
 * levels data to the task content that the screen analysis sends in one request.
 */
module LevelsTasks {
  import opened Wrappers
  import opened JavaStrings
  import opened Values
  import opened ActionResults
  import opened ActionContexts
  import opened ActionManagement

  const LevelsTaskId := "levels_task"
  const DataLabel := "DATA (JSON): "

  /**
   * What data/levels/prompts.json supplies: basic_prompt and actions_tools, each absent when
   * the file is missing, cannot be parsed, or lacks the key.
   */
  datatype LevelsPrompts = LevelsPrompts(basic: Option<string>, tools: Option<string>)

  /** The tasks instruction followed by a blank line, when it is set and not blank. */
  function InstructionPart(ti: Option<string>): (r: string)
    ensures r == [] <==> ti.None? || IsBlank(ti.value)
  {
    if ti.Some? && !IsBlank(ti.value) then ti.value + "\n\n" else []
  }

  /** Each prompt present in prompts.json, on a line of its own. */
  function PromptsPart(p: LevelsPrompts): (r: string)
    ensures r == [] <==> p.basic.None? && p.tools.None?
  {
    (if p.basic.Some? then p.basic.value + "\n" else []) + (if p.tools.Some? then p.tools.value + "\n" else [])
  }

  /** The line carrying the levels data. */
  function DataLine(levelsJson: string): string {
    DataLabel + levelsJson + "\n"
  }

  /** The block the task appends: instruction, prompts, then the data line. */
  function LevelsBlock(ti: Option<string>, p: LevelsPrompts, levelsJson: string): string {
    InstructionPart(ti) + PromptsPart(p) + DataLine(levelsJson)
  }

  /** The block always ends with the data line, and starts with the instruction when there is one. */
  lemma LevelsBlockShape(ti: Option<string>, p: LevelsPrompts, levelsJson: string)
    ensures EndsWith(LevelsBlock(ti, p, levelsJson), DataLine(levelsJson))
    ensures ti.Some? && !IsBlank(ti.value) ==> StartsWith(LevelsBlock(ti, p, levelsJson), ti.value + "\n\n")
    ensures ti.None? || IsBlank(ti.value) ==> LevelsBlock(ti, p, levelsJson) == PromptsPart(p) + DataLine(levelsJson)
  {
    var b := LevelsBlock(ti, p, levelsJson);
    var d := DataLine(levelsJson);
    assert b[|b| - |d|..] == d;
    var head := InstructionPart(ti);
    assert b[..|head|] == head;
  }

  /**
   * execute on the context: the StringBuilder under other_task_content (or a new one when the
   * key is absent) gets the block appended and is stored back. When the key holds a value of
   * another class, the typed get gives null and the first append throws
   * NullPointerException, which has no message; the context is then unchanged.
   */
  function Contribute(bag: Bag, ti: Option<string>, p: LevelsPrompts, levelsJson: string): (e: Execution)
    ensures TaskContentKey in bag && !bag[TaskContentKey].Builder? ==> e == Execution(Threw(None), bag)
    ensures TaskContentKey !in bag || bag[TaskContentKey].Builder? ==>
              e.outcome == Returned(SucceededWith("Levels task content added")) &&
              e.after == bag[TaskContentKey := Builder(BuilderAt(bag, TaskContentKey).GetOr([]) + LevelsBlock(ti, p, levelsJson))]
  {
    if TaskContentKey in bag && !bag[TaskContentKey].Builder? then Execution(Threw(None), bag)
    else
      var other := BuilderAt(bag, TaskContentKey).GetOr([]);
      Execution(Returned(SucceededWith("Levels task content added")), bag[TaskContentKey := Builder(other + LevelsBlock(ti, p, levelsJson))])
  }

  /** What earlier contributors wrote stays a prefix; only the task-content key changes. */
  lemma ContributeKeepsEarlierContent(bag: Bag, ti: Option<string>, p: LevelsPrompts, levelsJson: string, k: string)
    requires BuilderAt(bag, TaskContentKey).Some?
    requires k != TaskContentKey
    ensures var e := Contribute(bag, ti, p, levelsJson);
            BuilderAt(e.after, TaskContentKey).Some? &&
            StartsWith(BuilderAt(e.after, TaskContentKey).value, BuilderAt(bag, TaskContentKey).value) &&
            EndsWith(BuilderAt(e.after, TaskContentKey).value, DataLine(levelsJson)) &&
            Lookup(e.after, k) == Lookup(bag, k)
  {
    LevelsBlockShape(ti, p, levelsJson);
    AppendEnds(BuilderAt(bag, TaskContentKey).value, LevelsBlock(ti, p, levelsJson), DataLine(levelsJson));
  }

  /** The task as the registry sees it: always able to run, not bracket-aware. */
  function LevelsTaskAction(ti: Option<string>, p: LevelsPrompts, levelsJson: string): (a: Action)
    ensures a.id == LevelsTaskId && a.prefixes.None?
    ensures forall bag :: a.canExecute(bag)
  {
    Action(LevelsTaskId, "Adds the levels system task and payload for the unified LLM call", None,
           _ => true, bag => Contribute(bag, ti, p, levelsJson))
  }

  /** execute(context) on the shared context object. */
  method Execute(context: ActionContext, ti: Option<string>, p: LevelsPrompts, levelsJson: string) returns (outcome: Outcome)
    modifies context
    ensures Execution(outcome, context.data) == Contribute(old(context.data), ti, p, levelsJson)
  {
    if context.Contains(TaskContentKey) && !context.data[TaskContentKey].Builder? {
      return Threw(None);
    }
    var before := BuilderAt(context.data, TaskContentKey).GetOr([]);
    var other := before + InstructionPart(ti);
    other := other + PromptsPart(p);
    other := other + DataLine(levelsJson);
    assert other == before + LevelsBlock(ti, p, levelsJson);
    context.Put(TaskContentKey, Builder(other));
    outcome := Returned(SucceededWith("Levels task content added"));
  }
}
