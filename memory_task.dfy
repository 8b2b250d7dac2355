/**
 * The memory task (actions/MemoryTaskAction.java). On a chat tick it adds the memory
 * instructions and the current memory to the shared task content; otherwise it asks the
 * analysis model on its own and applies the [memory: ...] commands of the reply to the
 * memory store.
 */
module MemoryTasks {
  import opened Wrappers
  import opened JavaStrings
  import opened Values
  import opened ActionResults
  import opened ActionContexts
  import opened BracketRouting
  import opened MemoryStores

  const MemoryPrefix := "memory:"
  const WriteShortTerm := "write_short_term"
  const WriteLongTerm := "write_long_term"

  // ---------------------------------------------------------------- quote stripping

  /** s starts and ends with the same quote character, " or ' (a lone quote counts). */
  predicate Quoted(s: string) {
    |s| >= 1 && (s[0] == '"' || s[0] == '\'') && s[|s| - 1] == s[0]
  }

  /**
   * stripWrappingQuotes: drops one matching outer pair of quotes. A lone quote passes the
   * test but substring(1, 0) throws StringIndexOutOfBoundsException.
   */
  function StripWrappingQuotes(s: string): (r: Result<string>)
    ensures r.Raised? <==> Quoted(s) && |s| == 1
    ensures r.Ok? && Quoted(s) ==> s == [s[0]] + r.value + [s[0]]
    ensures r.Ok? && !Quoted(s) ==> r.value == s
  {
    if Quoted(s) then
      if |s| == 1 then Raised("begin 1, end 0, length 1") else Ok(s[1..|s| - 1])
    else Ok(s)
  }

  /** Quoting a text and stripping the quotes gives the text back. */
  lemma StripUndoesQuoting(q: char, text: string)
    requires q == '"' || q == '\''
    ensures StripWrappingQuotes([q] + text + [q]) == Ok(text)
  {
    var s := [q] + text + [q];
    assert Quoted(s);
    assert s[1..|s| - 1] == text;
  }

  // ---------------------------------------------------------------- command parsing

  /**
   * The command of a section: the text after "memory:" trimmed, when the section starts
   * with "memory:" in any letter case.
   */
  function CommandOf(inside: string): (r: Option<string>)
    ensures r.Some? <==> StartsWith(ToLower(inside), MemoryPrefix)
  {
    if StartsWith(ToLower(inside), MemoryPrefix) then Some(Trim(inside[|MemoryPrefix|..])) else None
  }

  /** The "memory:" marker is recognised in any letter case. */
  lemma CommandIgnoresCase(marker: string, rest: string)
    requires |marker| == |MemoryPrefix| && ToLower(marker) == MemoryPrefix
    ensures CommandOf(marker + rest) == Some(Trim(rest))
  {
    var s := marker + rest;
    assert ToLower(s)[..|MemoryPrefix|] == ToLower(marker);
    assert s[|MemoryPrefix|..] == rest;
  }

  /** The payload: the trimmed text between the first '(' and the last ')' after it. */
  function PayloadOf(cmd: string): (r: Option<string>)
    ensures r.None? <==> forall i, j :: 0 <= i < j < |cmd| ==> !(cmd[i] == '(' && cmd[j] == ')')
  {
    match (IndexOf(cmd, '(', 0), LastIndexOfChar(cmd, ')'))
    case (Some(lp), Some(rp)) =>
      if rp > lp then Some(Trim(cmd[lp + 1..rp]))
      else
        assert forall i, j :: 0 <= i < j < |cmd| ==> !(cmd[i] == '(' && cmd[j] == ')') by {
          forall i, j | 0 <= i < j < |cmd| && cmd[i] == '('
            ensures cmd[j] != ')'
          {
            assert lp <= i;
          }
        }
        None
    case _ => None
  }

  /** The payload lies between the first '(' and the last ')', whatever comes between them. */
  lemma PayloadBetweenParens(cmd: string, lp: nat, rp: nat)
    requires lp < rp < |cmd| && cmd[lp] == '(' && cmd[rp] == ')'
    requires forall k :: 0 <= k < lp ==> cmd[k] != '('
    requires forall k :: rp < k < |cmd| ==> cmd[k] != ')'
    ensures PayloadOf(cmd) == Some(Trim(cmd[lp + 1..rp]))
  {
    assert IndexOf(cmd, '(', 0) == Some(lp);
    assert LastIndexOfChar(cmd, ')') == Some(rp);
  }

  /** A write a section asks for. */
  datatype Write = ShortWrite(text: string) | LongWrite(text: string)

  /**
   * What one section asks for: nothing, a write, or the exception thrown while stripping
   * the payload's quotes. write_short_term is tested before write_long_term.
   */
  function WriteOf(section: string): (r: Result<Option<Write>>)
    ensures CommandOf(section).None? ==> r == Ok(None)
    ensures r.Raised? ==> CommandOf(section).Some?
    ensures r.Ok? && r.value.Some? && r.value.value.ShortWrite? ==> StartsWith(CommandOf(section).value, WriteShortTerm)
    ensures r.Ok? && r.value.Some? && r.value.value.LongWrite? ==> StartsWith(CommandOf(section).value, WriteLongTerm)
  {
    match CommandOf(section)
    case None => Ok(None)
    case Some(cmd) =>
      if StartsWith(cmd, WriteShortTerm) || StartsWith(cmd, WriteLongTerm) then
        match PayloadOf(cmd)
        case None => Ok(None)
        case Some(payload) =>
          match StripWrappingQuotes(payload)
          case Raised(m) => Raised(m)
          case Ok(text) => Ok(Some(if StartsWith(cmd, WriteShortTerm) then ShortWrite(text) else LongWrite(text)))
      else Ok(None)
  }

  /** The verb that asks for w. */
  function Verb(w: Write): string {
    if w.ShortWrite? then WriteShortTerm else WriteLongTerm
  }

  /** The command part of a request: verb("text"). */
  function Request(verb: string, text: string): string {
    verb + "(\"" + text + "\")"
  }

  /** The section a model writes to ask for w: memory: write_..._term("text"). */
  function CommandText(w: Write): string {
    MemoryPrefix + " " + Request(Verb(w), w.text)
  }

  /** A lower-case text is unchanged by ToLower. */
  lemma ToLowerOfLower(s: string)
    requires forall i :: 0 <= i < |s| ==> !('A' <= s[i] <= 'Z')
    ensures ToLower(s) == s
  {
  }

  /** Trimming a space-led text whose ends are not trimmable drops just the space. */
  lemma TrimAfterSpace(c: string)
    requires |c| > 0 && !Trimmable(c[0]) && !Trimmable(c[|c| - 1])
    ensures Trim(" " + c) == c
  {
    var s := " " + c;
    assert TrimFrom(s, 1) == 1;
    assert TrimTo(s, 1, |s|) == |s|;
    assert s[1..] == c;
  }

  /** Where the parts of verb("text") sit. */
  lemma RequestLayout(verb: string, text: string)
    ensures var cmd := Request(verb, text);
            |cmd| == |verb| + |text| + 4 && cmd[|verb|] == '(' && cmd[|cmd| - 1] == ')' &&
            cmd[..|verb|] == verb && cmd[|verb| + 1..|cmd| - 1] == "\"" + text + "\""
  {
    var cmd := Request(verb, text);
    assert cmd == verb + ("(\"" + text + "\")");
  }

  /** The command of a request section, for any verb that starts with a visible character. */
  lemma CommandOfRequest(verb: string, text: string)
    requires |verb| > 0 && !Trimmable(verb[0])
    ensures CommandOf(MemoryPrefix + " " + Request(verb, text)) == Some(Request(verb, text))
  {
    var cmd := Request(verb, text);
    RequestLayout(verb, text);
    assert cmd[0] == verb[0];
    ToLowerOfLower(MemoryPrefix);
    assert MemoryPrefix + " " + cmd == MemoryPrefix + (" " + cmd);
    CommandIgnoresCase(MemoryPrefix, " " + cmd);
    TrimAfterSpace(cmd);
  }

  /** Both verbs are non-empty, start with a visible character and hold no '('. */
  lemma VerbShape(w: Write)
    ensures |Verb(w)| > 0 && !Trimmable(Verb(w)[0]) && '(' !in Verb(w)
  {
  }

  /** The command of a request section is the request itself. */
  lemma CommandOfCommandText(w: Write)
    ensures CommandOf(CommandText(w)) == Some(Request(Verb(w), w.text))
  {
    VerbShape(w);
    CommandOfRequest(Verb(w), w.text);
  }

  /** The payload of verb("text") is the quoted text, for any verb without '('. */
  lemma PayloadOfAnyRequest(verb: string, text: string)
    requires '(' !in verb
    ensures PayloadOf(Request(verb, text)) == Some("\"" + text + "\"")
  {
    var cmd := Request(verb, text);
    RequestLayout(verb, text);
    var lp := |verb|;
    var rp := |cmd| - 1;
    forall k | 0 <= k < lp
      ensures cmd[k] != '('
    {
      assert cmd[k] == cmd[..lp][k];
    }
    PayloadBetweenParens(cmd, lp, rp);
    var quoted := "\"" + text + "\"";
    TrimOfTrimmed(quoted);
  }

  /** The payload of a request is the quoted text. */
  lemma PayloadOfRequest(w: Write)
    ensures PayloadOf(Request(Verb(w), w.text)) == Some("\"" + w.text + "\"")
  {
    VerbShape(w);
    PayloadOfAnyRequest(Verb(w), w.text);
  }

  /** A command for write_long_term is not one for write_short_term. */
  lemma LongIsNotShort(cmd: string)
    requires StartsWith(cmd, WriteLongTerm)
    ensures !StartsWith(cmd, WriteShortTerm)
  {
    assert cmd[6] == WriteLongTerm[6];
  }

  /** A memory section whose command starts with verb and carries a quoted payload asks for that write. */
  lemma WriteOfQuotedCommand(section: string, cmd: string, w: Write)
    requires CommandOf(section) == Some(cmd)
    requires StartsWith(cmd, Verb(w)) && PayloadOf(cmd) == Some("\"" + w.text + "\"")
    ensures WriteOf(section) == Ok(Some(w))
  {
    StripUndoesQuoting('"', w.text);
    if w.LongWrite? {
      LongIsNotShort(cmd);
    }
  }

  /** Parsing the command a write is requested with gives that write back, for every text. */
  lemma WriteOfCommandText(w: Write)
    ensures WriteOf(CommandText(w)) == Ok(Some(w))
  {
    var cmd := Request(Verb(w), w.text);
    CommandOfCommandText(w);
    RequestLayout(Verb(w), w.text);
    PayloadOfRequest(w);
    WriteOfQuotedCommand(CommandText(w), cmd, w);
  }

  // ---------------------------------------------------------------- applying the commands

  /** write_short_term touches only the short-term slot, write_long_term only the long-term one. */
  function ApplyWrite(m: Slots, w: Write, writeOk: bool): (r: Slots)
    ensures w.ShortWrite? ==> r.shortTerm == w.text && r.longTerm == m.longTerm && r.persisted == m.persisted
    ensures w.LongWrite? ==> r.longTerm == w.text && r.shortTerm == m.shortTerm
  {
    match w
    case ShortWrite(t) => WithShortTerm(m, Some(t))
    case LongWrite(t) => WithLongTerm(m, Some(t), writeOk)
  }

  /** The memory after handling a reply, and the message of the exception that ended it early. */
  datatype Handled = Handled(slots: Slots, error: Option<string>)

  /**
   * The sections applied in order. An exception stops the loop and leaves the writes made
   * before it in place.
   */
  function HandleAll(m: Slots, sections: seq<string>, writeOk: bool): Handled
    decreases |sections|
  {
    if sections == [] then Handled(m, None)
    else
      match WriteOf(sections[0])
      case Raised(msg) => Handled(m, Some(msg))
      case Ok(None) => HandleAll(m, sections[1..], writeOk)
      case Ok(Some(w)) => HandleAll(ApplyWrite(m, w, writeOk), sections[1..], writeOk)
  }

  /** handleMemorySections(raw): null does nothing. */
  function HandleReply(m: Slots, raw: Option<string>, writeOk: bool): Handled {
    if raw.None? then Handled(m, None) else HandleAll(m, Sections(raw.value), writeOk)
  }

  /** The short-term text the last short-term write asks for, or dflt when there is none. */
  function LastShortWrite(sections: seq<string>, dflt: string): string
    decreases |sections|
  {
    if sections == [] then dflt
    else
      var next := match WriteOf(sections[0])
                  case Ok(Some(ShortWrite(t))) => t
                  case _ => dflt;
      LastShortWrite(sections[1..], next)
  }

  /** The long-term text the last long-term write asks for, or dflt when there is none. */
  function LastLongWrite(sections: seq<string>, dflt: string): string
    decreases |sections|
  {
    if sections == [] then dflt
    else
      var next := match WriteOf(sections[0])
                  case Ok(Some(LongWrite(t))) => t
                  case _ => dflt;
      LastLongWrite(sections[1..], next)
  }

  /** When no exception interrupts, each slot ends with the text of its last write: later writes win. */
  lemma {:induction false} LastWriteWins(m: Slots, sections: seq<string>, writeOk: bool)
    requires HandleAll(m, sections, writeOk).error.None?
    ensures HandleAll(m, sections, writeOk).slots.shortTerm == LastShortWrite(sections, m.shortTerm)
    ensures HandleAll(m, sections, writeOk).slots.longTerm == LastLongWrite(sections, m.longTerm)
    decreases |sections|
  {
    if sections != [] {
      match WriteOf(sections[0])
      case Raised(msg) =>
      case Ok(None) =>
        LastWriteWins(m, sections[1..], writeOk);
      case Ok(Some(w)) =>
        LastWriteWins(ApplyWrite(m, w, writeOk), sections[1..], writeOk);
    }
  }

  /** Sections that do not start with "memory:" (in any case) leave the memory alone. */
  lemma {:induction false} OnlyMemorySectionsAct(m: Slots, sections: seq<string>, writeOk: bool)
    requires forall i :: 0 <= i < |sections| ==> !StartsWith(ToLower(sections[i]), MemoryPrefix)
    ensures HandleAll(m, sections, writeOk) == Handled(m, None)
    decreases |sections|
  {
    if sections != [] {
      assert CommandOf(sections[0]).None?;
      OnlyMemorySectionsAct(m, sections[1..], writeOk);
    }
  }

  /** With the disk failing, the file is never touched, whatever the reply asks for. */
  lemma {:induction false} FailedWritesKeepFile(m: Slots, sections: seq<string>)
    ensures HandleAll(m, sections, false).slots.persisted == m.persisted
    decreases |sections|
  {
    if sections != [] {
      match WriteOf(sections[0])
      case Raised(msg) =>
      case Ok(None) =>
        FailedWritesKeepFile(m, sections[1..]);
      case Ok(Some(w)) =>
        FailedWritesKeepFile(ApplyWrite(m, w, false), sections[1..]);
    }
  }

  /**
   * handleMemorySections(raw): walks the reply's [ ] sections as routeBracketSections does
   * and applies the memory commands to the store; returns the message of an exception that
   * stopped it.
   */
  method HandleMemorySections(raw: Option<string>, store: MemoryStore, writeOk: bool) returns (error: Option<string>)
    modifies store
    ensures Handled(store.State(), error) == HandleReply(old(store.State()), raw, writeOk)
  {
    error := None;
    if raw.None? {
      return;
    }
    var s := raw.value;
    var idx := 0;
    while true
      invariant idx <= |s|
      invariant HandleAll(store.State(), Scan(s, idx), writeOk) == HandleReply(old(store.State()), raw, writeOk)
      decreases |s| - idx
    {
      var next := NextSection(s, idx);
      if next.None? {
        return;
      }
      var (inside, resume) := next.value;
      var w := WriteOf(inside);
      if w.Raised? {
        error := Some(w.message);
        return;
      }
      if w.value.Some? {
        match w.value.value
        case ShortWrite(t) => store.SetShortTerm(Some(t));
        case LongWrite(t) => store.SetLongTerm(Some(t), writeOk);
      }
      idx := resume;
    }
  }

  // ---------------------------------------------------------------- execute

  /** What execute reads besides the context and the store. */
  datatype MemoryInputs = MemoryInputs(
    running: bool,                                   // AppState.isRunning
    instructions: Option<string>,                    // loadMemoryPrompts()
    lastResponses: seq<string>,                      // PersonalityManager.getLastResponses()
    tasksInstruction: Option<string>,                // ConfigurationManager.getTasksInstruction()
    toJson: (seq<string>, string, string) -> string, // Gson over the DATA map
    generateResponse: string -> Reply,               // ApiClient.generateResponse
    writeOk: bool)                                   // whether userMemory.json can be written

  /** canExecute: the application's running flag. */
  predicate CanExecute(env: MemoryInputs) {
    env.running
  }

  /** The block the memory task adds to the shared task content. */
  function MemoryBlock(env: MemoryInputs, json: string): (r: string)
    requires env.instructions.Some?
    ensures StartsWith(r, Render(env.tasksInstruction) + "\n")
    ensures EndsWith(r, "\n--- END OF MEMORY TASK ---\n")
  {
    var head := Render(env.tasksInstruction) + "\n";
    var r := head + "\n--- MEMORY TASK ---\n" + env.instructions.value + "\n" + "\nDATA=\n" + json + "\n--- END OF MEMORY TASK ---\n";
    assert r[..|head|] == head;
    r
  }

  /** The prompt of the standalone request. */
  function StandalonePrompt(env: MemoryInputs, json: string): (r: string)
    requires env.instructions.Some?
    ensures StartsWith(r, Render(env.tasksInstruction) + "\n")
    ensures EndsWith(r, "\nDATA=\n" + json)
  {
    var head := Render(env.tasksInstruction) + "\n";
    var tail := "\nDATA=\n" + json;
    var r := head + env.instructions.value + "\n" + tail;
    assert r[..|head|] == head;
    assert r[|r| - |tail|..] == tail;
    r
  }

  /** Whether this tick's screen analysis will run: the context holds Boolean.TRUE for it. */
  predicate WillRunScreenAnalysis(bag: Bag) {
    FlagAt(bag, WillRunKey) == Some(true)
  }

  /**
   * execute(context): without prompts it fails; on a chat tick it appends its block to the
   * task content; otherwise it makes one standalone request and handles the reply. An
   * exception (from the model call or the quote stripping) becomes a failure.
   */
  method Execute(context: ActionContext, store: MemoryStore, env: MemoryInputs) returns (r: ActionResult, calls: seq<Call>)
    modifies context, store
    ensures env.instructions.None? || IsBlank(env.instructions.value) ==>
              r == Failed("memory prompts not found") && calls == [] &&
              context.data == old(context.data) && store.State() == old(store.State())
    ensures env.instructions.Some? && !IsBlank(env.instructions.value) && WillRunScreenAnalysis(old(context.data)) ==>
              var json := env.toJson(env.lastResponses, old(store.shortTerm), old(store.longTerm));
              r == SucceededWith("memory task prepared") && calls == [] &&
              context.data == old(context.data)[TaskContentKey :=
                Builder(BuilderAt(old(context.data), TaskContentKey).GetOr([]) + MemoryBlock(env, json))] &&
              store.State() == old(store.State())
    ensures env.instructions.Some? && !IsBlank(env.instructions.value) && !WillRunScreenAnalysis(old(context.data)) ==>
              var json := env.toJson(env.lastResponses, old(store.shortTerm), old(store.longTerm));
              var reply := env.generateResponse(StandalonePrompt(env, json));
              calls == [GenerateResponse(StandalonePrompt(env, json))] &&
              context.data == old(context.data) &&
              match reply
              case Fault(m) =>
                r == Failed("error preparing memory task: " + m) && store.State() == old(store.State())
              case Answer(raw) =>
                var h := HandleReply(old(store.State()), raw, env.writeOk);
                store.State() == h.slots &&
                r == if h.error.Some? then Failed("error preparing memory task: " + h.error.value)
                     else SucceededWith("memory task executed standalone")
  {
    calls := [];
    if env.instructions.None? || IsBlank(env.instructions.value) {
      return Failed("memory prompts not found"), [];
    }
    var json := env.toJson(env.lastResponses, store.shortTerm, store.longTerm);
    if WillRunScreenAnalysis(context.data) {
      var sb := BuilderAt(context.data, TaskContentKey).GetOr([]);
      sb := sb + MemoryBlock(env, json);
      context.Put(TaskContentKey, Builder(sb));
      return SucceededWith("memory task prepared"), [];
    }
    var prompt := StandalonePrompt(env, json);
    calls := [GenerateResponse(prompt)];
    var reply := env.generateResponse(prompt);
    if reply.Fault? {
      return Failed("error preparing memory task: " + reply.message), calls;
    }
    var error := HandleMemorySections(reply.text, store, env.writeOk);
    if error.Some? {
      r := Failed("error preparing memory task: " + error.value);
    } else {
      r := SucceededWith("memory task executed standalone");
    }
  }

  /** Contributing keeps what earlier contributors wrote as a prefix of the task content. */
  lemma ContributionKeepsPrefix(bag: Bag, env: MemoryInputs, json: string)
    requires env.instructions.Some?
    ensures var before := BuilderAt(bag, TaskContentKey).GetOr([]);
            var after := bag[TaskContentKey := Builder(before + MemoryBlock(env, json))];
            BuilderAt(after, TaskContentKey).Some? &&
            StartsWith(BuilderAt(after, TaskContentKey).value, before)
  {
    var before := BuilderAt(bag, TaskContentKey).GetOr([]);
    assert (before + MemoryBlock(env, json))[..|before|] == before;
  }
}
