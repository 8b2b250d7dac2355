/**
 * The screen-analysis action (actions/ScreenAnalysisAction.java): on a chat tick it takes
 * the tick's screenshot under a processing latch, keeps the newest capture, and hands it to
 * a background job that asks the models for a comment, strips the model's thinking, speaks
 * the comment and records it in the selected personality's history.
 */
module ScreenAnalyses {
  import opened Wrappers
  import opened JavaStrings
  import opened Values
  import opened ActionResults
  import opened ActionContexts
  import opened Personalities
  import opened PersonalityManagement

  const ScreenAnalysisId := "screen_analysis"
  const BufferLimit := 4
  const ThinkEnd := "</think>"

  // ---------------------------------------------------------------- the screenshot buffer

  /** A capture is appended; when that makes five, the oldest one is dropped. */
  function Captured(buffer: seq<Image>, shot: Image): (r: seq<Image>)
    ensures r != [] && r[|r| - 1] == shot
    ensures |buffer| < BufferLimit ==> r == buffer + [shot]
    ensures |buffer| == BufferLimit ==> r == buffer[1..] + [shot]
    ensures |buffer| <= BufferLimit ==> |r| <= BufferLimit
  {
    var b := buffer + [shot];
    if |b| > BufferLimit then b[1..] else b
  }

  /** The last BufferLimit captures of s, oldest first. */
  function Newest(s: seq<Image>): (r: seq<Image>)
    ensures |r| <= BufferLimit && |r| <= |s| && r == s[|s| - |r|..]
    ensures |s| <= BufferLimit ==> r == s
  {
    if |s| > BufferLimit then s[|s| - BufferLimit..] else s
  }

  lemma CapturedOfNewest(all: seq<Image>, x: Image)
    ensures Captured(Newest(all), x) == Newest(all + [x])
  {
    if |all| >= BufferLimit {
      assert Captured(Newest(all), x) == all[|all| - BufferLimit + 1..] + [x];
      assert (all + [x])[|all + [x]| - BufferLimit..] == all[|all| - BufferLimit + 1..] + [x];
    }
  }

  /** Within the bound, the buffer always holds the most recent captures, oldest first. */
  lemma {:induction false} CapturesKeepNewest(buffer: seq<Image>, shots: seq<Image>)
    requires |buffer| <= BufferLimit
    ensures CaptureAll(buffer, shots) == Newest(buffer + shots)
  {
    if shots == [] {
      assert buffer + shots == buffer;
    } else {
      var init := shots[..|shots| - 1];
      var last := shots[|shots| - 1];
      CapturesKeepNewest(buffer, init);
      assert buffer + shots == (buffer + init) + [last];
      CapturedOfNewest(buffer + init, last);
    }
  }

  /** Captures taken one after another. */
  function CaptureAll(buffer: seq<Image>, shots: seq<Image>): seq<Image>
    requires |buffer| <= BufferLimit
  {
    if shots == [] then buffer else Captured(CaptureAll(buffer, shots[..|shots| - 1]), shots[|shots| - 1])
  }

  // ---------------------------------------------------------------- the model's reply

  /**
   * parseFinalResponse: null for null; otherwise the text after the last "</think>",
   * trimmed, or the whole reply trimmed when it has no such tag.
   */
  function ParseFinalResponse(raw: Option<string>): (r: Option<string>)
    ensures raw.None? <==> r.None?
    ensures r.Some? ==> r.value == [] || (!Trimmable(r.value[0]) && !Trimmable(r.value[|r.value| - 1]))
    ensures raw.Some? && LastIndexOf(raw.value, ThinkEnd).None? ==> r == Some(Trim(raw.value))
  {
    match raw
    case None => None
    case Some(s) =>
      match LastIndexOf(s, ThinkEnd)
      case Some(k) => Some(Trim(s[k + |ThinkEnd|..]))
      case None => Some(Trim(s))
  }

  /** An occurrence inside a slice is an occurrence in the whole string. */
  lemma OccursInSlice(s: string, lo: nat, hi: nat, sub: string, j: nat)
    requires lo <= hi <= |s| && OccursAt(s[lo..hi], sub, j)
    ensures OccursAt(s, sub, lo + j)
  {
    forall i | 0 <= i < |sub|
      ensures s[lo + j + i] == sub[i]
    {
      assert s[lo..hi][j..j + |sub|][i] == sub[i];
    }
    assert s[lo + j..lo + j + |sub|] == sub;
  }

  /** Trim gives a slice of its argument. */
  lemma TrimIsSlice(s: string)
    ensures exists lo: nat, hi: nat :: lo <= hi <= |s| && Trim(s) == s[lo..hi]
  {
    var lo := TrimFrom(s, 0);
    var hi := TrimTo(s, lo, |s|);
    assert Trim(s) == s[lo..hi];
  }

  /** A string without the tag keeps none once trimmed. */
  lemma TrimKeepsNoTag(s: string)
    requires forall j :: 0 <= j ==> !OccursAt(s, ThinkEnd, j)
    ensures forall j :: 0 <= j ==> !OccursAt(Trim(s), ThinkEnd, j)
  {
    TrimIsSlice(s);
    var lo: nat, hi: nat :| lo <= hi <= |s| && Trim(s) == s[lo..hi];
    forall j: nat | OccursAt(Trim(s), ThinkEnd, j)
      ensures false
    {
      OccursInSlice(s, lo, hi, ThinkEnd, j);
    }
  }

  /** What is spoken never contains the thinking tag. */
  lemma ParsedHasNoThinkTag(raw: string)
    ensures forall j :: 0 <= j ==> !OccursAt(ParseFinalResponse(Some(raw)).value, ThinkEnd, j)
  {
    match LastIndexOf(raw, ThinkEnd)
    case None =>
      TrimKeepsNoTag(raw);
    case Some(k) =>
      var rest := raw[k + |ThinkEnd|..];
      assert rest == raw[k + |ThinkEnd|..|raw|];
      forall j: nat | OccursAt(rest, ThinkEnd, j)
        ensures false
      {
        OccursInSlice(raw, k + |ThinkEnd|, |raw|, ThinkEnd, j);
      }
      TrimKeepsNoTag(rest);
  }

  /** Parsing a parsed reply changes nothing. */
  lemma ParseIsIdempotent(raw: Option<string>)
    ensures ParseFinalResponse(ParseFinalResponse(raw)) == ParseFinalResponse(raw)
  {
    if raw.Some? {
      var r := ParseFinalResponse(raw).value;
      ParsedHasNoThinkTag(raw.value);
      assert LastIndexOf(r, ThinkEnd).None?;
      TrimOfTrimmed(r);
    }
  }

  /** No occurrence of the tag starts strictly inside another one: '<' is only its first character. */
  lemma TagDoesNotOverlap(s: string, at: nat, j: nat)
    requires OccursAt(s, ThinkEnd, at) && at < j < at + |ThinkEnd|
    ensures !OccursAt(s, ThinkEnd, j)
  {
    assert s[j] == s[at..at + |ThinkEnd|][j - at] == ThinkEnd[j - at];
  }

  /** Occurrences in a suffix are the occurrences in the whole string, shifted. */
  lemma OccursAfterPrefix(prefix: string, rest: string, j: nat)
    ensures OccursAt(prefix + rest, ThinkEnd, |prefix| + j) <==> OccursAt(rest, ThinkEnd, j)
  {
    var s := prefix + rest;
    if j + |ThinkEnd| <= |rest| {
      assert s[|prefix| + j..|prefix| + j + |ThinkEnd|] == rest[j..j + |ThinkEnd|];
    }
  }

  /** The last tag of thinking + tag + answer is the one written, when answer has none. */
  lemma LastTagIsWritten(thinking: string, answer: string)
    requires LastIndexOf(answer, ThinkEnd).None?
    ensures LastIndexOf(thinking + ThinkEnd + answer, ThinkEnd) == Some(|thinking|)
  {
    var prefix := thinking + ThinkEnd;
    var s := prefix + answer;
    assert OccursAt(s, ThinkEnd, |thinking|) by {
      assert s[|thinking|..|prefix|] == ThinkEnd;
    }
    var k := LastIndexOf(s, ThinkEnd).value;
    if |thinking| < k < |prefix| {
      TagDoesNotOverlap(s, |thinking|, k);
    } else if k >= |prefix| {
      OccursAfterPrefix(prefix, answer, k - |prefix|);
    }
  }

  /** Otherwise it is answer's own last tag. */
  lemma LastTagIsAnswers(thinking: string, answer: string)
    requires LastIndexOf(answer, ThinkEnd).Some?
    ensures LastIndexOf(thinking + ThinkEnd + answer, ThinkEnd) ==
            Some(|thinking| + |ThinkEnd| + LastIndexOf(answer, ThinkEnd).value)
  {
    var prefix := thinking + ThinkEnd;
    var s := prefix + answer;
    var k2 := LastIndexOf(answer, ThinkEnd).value;
    OccursAfterPrefix(prefix, answer, k2);
    var k := LastIndexOf(s, ThinkEnd).value;
    OccursAfterPrefix(prefix, answer, k - |prefix|);
  }

  /** Everything up to and including the last closing tag is dropped, whatever it holds. */
  lemma ThinkingIsDropped(thinking: string, answer: string)
    ensures ParseFinalResponse(Some(thinking + ThinkEnd + answer)) == ParseFinalResponse(Some(answer))
  {
    var s := thinking + ThinkEnd + answer;
    match LastIndexOf(answer, ThinkEnd)
    case None =>
      LastTagIsWritten(thinking, answer);
      assert s[|thinking| + |ThinkEnd|..] == answer;
    case Some(k2) =>
      LastTagIsAnswers(thinking, answer);
      assert s[|thinking| + |ThinkEnd| + k2 + |ThinkEnd|..] == answer[k2 + |ThinkEnd|..];
  }

  // ---------------------------------------------------------------- prompts

  /** context.replace("\"", "'"): double quotes become single quotes. */
  function Unquoted(s: string): (r: string)
    ensures |r| == |s| && '"' !in r
  {
    ReplaceCharRemoves(s, '"', '\'');
    ReplaceChar(s, '"', '\'')
  }

  const NoSpecialCharacters := "Do not use special characters, formatting or emojis in your response."
  const PreviousWas := " Your previous comment was: \""
  const MustDiffer := "\". Your new comment MUST be different."

  /** Whether there is a previous response to mention: not null and not empty. */
  predicate HasPrevious(last: Option<string>) {
    last.Some? && last.value != []
  }

  /** The clause asking for a comment different from the previous one. */
  function PreviousComment(last: Option<string>): string
    requires HasPrevious(last)
  {
    NoSpecialCharacters + PreviousWas + Unquoted(last.value) + MustDiffer
  }

  /** getString: the personality prompt formatted with the description, then the clause when there is a previous response. */
  function PersonalityRequest(context: string, personalityPrompt: string, last: Option<string>): (r: string)
    ensures StartsWith(r, FormatOne(personalityPrompt, Unquoted(context)))
    ensures !HasPrevious(last) ==> r == FormatOne(personalityPrompt, Unquoted(context))
    ensures HasPrevious(last) ==> EndsWith(r, PreviousComment(last))
  {
    var head := FormatOne(personalityPrompt, Unquoted(context));
    if HasPrevious(last) then
      var r := head + PreviousComment(last);
      assert r[..|head|] == head;
      assert r[|r| - |PreviousComment(last)|..] == PreviousComment(last);
      r
    else head
  }

  /** getFinalPrompt: the multimodal prompt, then a space and the clause when there is a previous response. */
  function MultimodalRequest(personalityPrompt: string, last: Option<string>): (r: string)
    ensures StartsWith(r, personalityPrompt)
    ensures !HasPrevious(last) ==> r == personalityPrompt
    ensures HasPrevious(last) ==> EndsWith(r, " " + PreviousComment(last))
  {
    if HasPrevious(last) then
      var tail := " " + PreviousComment(last);
      var r := personalityPrompt + tail;
      assert r[..|personalityPrompt|] == personalityPrompt;
      assert r[|r| - |tail|..] == tail;
      r
    else personalityPrompt
  }

  /** The previous response is quoted with its own double quotes turned into single ones. */
  lemma PreviousCommentQuotesSafely(last: string)
    requires last != []
    ensures var c := PreviousComment(Some(last));
            var at := |NoSpecialCharacters + PreviousWas|;
            c[at - 1] == '"' && c[at..at + |last|] == Unquoted(last) && c[at + |last|] == '"' &&
            forall i :: at <= i < at + |last| ==> c[i] != '"'
  {
    var c := PreviousComment(Some(last));
    var lead := NoSpecialCharacters + PreviousWas;
    var at := |lead|;
    assert c == lead + Unquoted(last) + MustDiffer;
    assert c[at - 1] == PreviousWas[|PreviousWas| - 1];
    assert c[at..at + |last|] == Unquoted(last);
    assert c[at + |last|] == MustDiffer[0];
    forall i | at <= i < at + |last|
      ensures c[i] != '"'
    {
      assert c[i] == Unquoted(last)[i - at];
    }
  }

  // ---------------------------------------------------------------- processAndRespond

  /** What processAndRespond reads: the AppState fields (or their fallbacks), the prompts and the models. */
  datatype ResponseInputs = ResponseInputs(
    useMultimodal: bool,              // AppState.useMultimodal(); false when the lookup fails
    voice: Option<string>,            // AppState.selectedTtsCharacterVoice; null when the lookup fails
    language: Option<string>,         // AppState.selectedLanguage; "English" when the lookup fails
    visionPrompt: string,             // ConfigurationManager.getVisionPrompt()
    fallbackPrompt: string,           // ConfigurationManager.getFallbackPrompt()
    services: Services)

  /** The personality's side of a request, read through PersonalityManager. */
  datatype Persona = Persona(prompt: Option<string>, multimodalPrompt: Option<string>, lastResponse: Option<string>)

  /** Model calls made so far, the last reply, and whether an exception escaped. */
  datatype Step = Step(calls: seq<Call>, raw: Option<string>, threw: bool)

  /** The background job's effect: the calls it made, what it spoke (and saved), and whether it threw. */
  datatype Processed = Processed(calls: seq<Call>, spoken: Option<string>, threw: bool)

  function Then(a: Step, b: Step): Step {
    Step(a.calls + b.calls, b.raw, b.threw)
  }

  /** analyzeImage: the vision model with the vision prompt. */
  function DescribeStep(image: Image, env: ResponseInputs): (s: Step)
    ensures s.calls == [AnalyzeImage(image, Some(env.visionPrompt))]
  {
    match env.services.analyzeImage(image, Some(env.visionPrompt))
    case Fault(_) => Step([AnalyzeImage(image, Some(env.visionPrompt))], None, true)
    case Answer(t) => Step([AnalyzeImage(image, Some(env.visionPrompt))], t, false)
  }

  /**
   * generateResponse(context): the fallback prompt formatted with the description when no
   * personality is selected, getString otherwise. A null description throws
   * NullPointerException at context.replace before any call.
   */
  function GenerateStep(context: Option<string>, p: Persona, env: ResponseInputs): (s: Step)
    ensures context.None? ==> s == Step([], None, true)
    ensures context.Some? ==> |s.calls| == 1 && s.calls[0].GenerateResponse?
    ensures context.Some? && p.prompt.None? ==>
              s.calls == [GenerateResponse(FormatOne(env.fallbackPrompt, Unquoted(context.value)))]
    ensures context.Some? && p.prompt.Some? ==>
              s.calls == [GenerateResponse(PersonalityRequest(context.value, p.prompt.value, p.lastResponse))]
  {
    if context.None? then Step([], None, true)
    else
      var prompt := if p.prompt.None? then FormatOne(env.fallbackPrompt, Unquoted(context.value))
                    else PersonalityRequest(context.value, p.prompt.value, p.lastResponse);
      match env.services.generateResponse(prompt)
      case Fault(_) => Step([GenerateResponse(prompt)], None, true)
      case Answer(t) => Step([GenerateResponse(prompt)], t, false)
  }

  /**
   * processMultimodal: with a multimodal prompt that is not blank after trim, one request
   * carries image and prompt; otherwise the vision description feeds generateResponse.
   */
  function MultimodalStep(image: Image, p: Persona, env: ResponseInputs): (s: Step)
    ensures p.multimodalPrompt.Some? && Trim(p.multimodalPrompt.value) != [] ==>
              s.calls == [AnalyzeImageMultimodal(image, MultimodalRequest(p.multimodalPrompt.value, p.lastResponse))]
    ensures p.multimodalPrompt.None? || Trim(p.multimodalPrompt.value) == [] ==>
              1 <= |s.calls| <= 2 && s.calls[0] == AnalyzeImage(image, Some(env.visionPrompt))
  {
    if p.multimodalPrompt.None? || Trim(p.multimodalPrompt.value) == [] then
      var d := DescribeStep(image, env);
      if d.threw then d else Then(d, GenerateStep(d.raw, p, env))
    else
      var prompt := MultimodalRequest(p.multimodalPrompt.value, p.lastResponse);
      match env.services.analyzeImageMultimodal(image, prompt)
      case Fault(_) => Step([AnalyzeImageMultimodal(image, prompt)], None, true)
      case Answer(t) => Step([AnalyzeImageMultimodal(image, prompt)], t, false)
  }

  /** The end of the job: the parsed reply is spoken and saved when it is not null or blank. */
  function Speech(s: Step, env: ResponseInputs): (out: Processed)
    ensures out.threw == s.threw
    ensures out.spoken.Some? ==>
              !s.threw && out.spoken == ParseFinalResponse(s.raw) &&
              out.calls == s.calls + [Speak(out.spoken.value, env.voice, env.language)]
    ensures out.spoken.None? ==> out.calls == s.calls
    ensures !s.threw && ParseFinalResponse(s.raw).Some? && !IsBlank(ParseFinalResponse(s.raw).value) ==> out.spoken.Some?
  {
    if s.threw then Processed(s.calls, None, true)
    else
      var f := ParseFinalResponse(s.raw);
      if f.Some? && !IsBlank(f.value) then Processed(s.calls + [Speak(f.value, env.voice, env.language)], f, false)
      else Processed(s.calls, None, false)
  }

  /** processAndRespond(image). */
  function Respond(image: Image, p: Persona, env: ResponseInputs): Processed {
    if env.useMultimodal then Speech(MultimodalStep(image, p, env), env)
    else
      var d := DescribeStep(image, env);
      if d.threw then Processed(d.calls, None, true)
      else if d.raw.None? || IsBlank(d.raw.value) then Processed(d.calls, None, false)
      else Speech(Then(d, GenerateStep(d.raw, p, env)), env)
  }

  /** Only non-blank text, free of thinking, is spoken; it is spoken once, last, after at most two model calls. */
  lemma SpeaksOnlyFinalText(image: Image, p: Persona, env: ResponseInputs)
    ensures var out := Respond(image, p, env);
            (out.spoken.Some? ==>
               !out.threw && !IsBlank(out.spoken.value) &&
               (forall j :: 0 <= j ==> !OccursAt(out.spoken.value, ThinkEnd, j)) &&
               2 <= |out.calls| <= 3 && out.calls[|out.calls| - 1] == Speak(out.spoken.value, env.voice, env.language)) &&
            (forall i :: 0 <= i < |out.calls| - 1 ==> !out.calls[i].Speak?) &&
            (out.spoken.None? ==> forall i :: 0 <= i < |out.calls| ==> !out.calls[i].Speak?)
  {
    var out := Respond(image, p, env);
    if out.spoken.Some? {
      var s := if env.useMultimodal then MultimodalStep(image, p, env)
               else Then(DescribeStep(image, env), GenerateStep(DescribeStep(image, env).raw, p, env));
      assert out == Speech(s, env);
      ParsedHasNoThinkTag(s.raw.value);
    }
  }

  /** In traditional mode a null or blank description ends the job after the vision call, silently. */
  lemma BlankDescriptionIsSilent(image: Image, p: Persona, env: ResponseInputs)
    requires !env.useMultimodal
    requires env.services.analyzeImage(image, Some(env.visionPrompt)) == Answer(None) ||
             (env.services.analyzeImage(image, Some(env.visionPrompt)).Answer? &&
              env.services.analyzeImage(image, Some(env.visionPrompt)).text.Some? &&
              IsBlank(env.services.analyzeImage(image, Some(env.visionPrompt)).text.value))
    ensures Respond(image, p, env) == Processed([AnalyzeImage(image, Some(env.visionPrompt))], None, false)
  {
  }

  /**
   * In multimodal mode without a usable multimodal prompt, a null description is passed on
   * to generateResponse, which throws: nothing is asked of the language model or spoken.
   */
  lemma NullDescriptionThrowsInFallback(image: Image, p: Persona, env: ResponseInputs)
    requires env.useMultimodal && (p.multimodalPrompt.None? || Trim(p.multimodalPrompt.value) == [])
    requires env.services.analyzeImage(image, Some(env.visionPrompt)) == Answer(None)
    ensures Respond(image, p, env) == Processed([AnalyzeImage(image, Some(env.visionPrompt))], None, true)
  {
  }

  // ---------------------------------------------------------------- execute and its latch

  /** The action's own state: the screenshot buffer and the processing latch. */
  datatype Latch = Latch(buffer: seq<Image>, processing: bool)

  /** What execute returns and leaves behind, and the capture handed to the background job. */
  datatype Started = Started(result: ActionResult, after: Latch, launched: Option<Image>)

  /** canExecute: AppState.isRunning (false when the lookup fails) and the latch is free. */
  predicate CanExecute(s: Latch, running: bool) {
    running && !s.processing
  }

  /**
   * execute as written: skipped unless it can run; the latch is taken; a missing screenshot
   * fails WITHOUT releasing the latch; otherwise the capture is buffered, the newest capture
   * is handed to the background job and the buffer is emptied.
   */
  function StartAsWritten(s: Latch, running: bool, shot: Option<Image>): (out: Started)
    ensures !CanExecute(s, running) ==> out == Started(Skip("Already processing or not running"), s, None)
    ensures CanExecute(s, running) && shot.None? ==>
              out.result == Failed("No screenshot provided in context") && out.launched.None? && out.after.processing
    ensures CanExecute(s, running) && shot.Some? ==>
              out == Started(SucceededWith("Screen analysis initiated"), Latch([], true), shot)
  {
    if !CanExecute(s, running) then Started(Skip("Already processing or not running"), s, None)
    else if shot.None? then Started(Failed("No screenshot provided in context"), s.(processing := true), None)
    else
      var b := Captured(s.buffer, shot.value);
      Started(SucceededWith("Screen analysis initiated"), Latch([], true), Some(b[|b| - 1]))
  }

  /** execute with the latch released on the missing-screenshot path as on every other failure. */
  function Start(s: Latch, running: bool, shot: Option<Image>): (out: Started)
    ensures !CanExecute(s, running) ==> out == Started(Skip("Already processing or not running"), s, None)
    ensures CanExecute(s, running) && shot.None? ==>
              out == Started(Failed("No screenshot provided in context"), s, None)
    ensures CanExecute(s, running) && shot.Some? ==>
              out == Started(SucceededWith("Screen analysis initiated"), Latch([], true), shot)
  {
    if CanExecute(s, running) && shot.None? then Started(Failed("No screenshot provided in context"), s, None)
    else StartAsWritten(s, running, shot)
  }

  /** The background job's finally block: the latch is released. */
  function Finished(s: Latch): Latch {
    s.(processing := false)
  }

  /**
   * As written, one tick without a screenshot locks the action: the latch is never released,
   * because only a launched background job releases it, so every later execute is skipped.
   */
  lemma MissingScreenshotLocksOut(s: Latch, running: bool, later: seq<(bool, Option<Image>)>)
    requires CanExecute(s, running)
    ensures var locked := StartAsWritten(s, running, None).after;
            var (final, results) := RunAsWritten(locked, later);
            locked.processing && final == locked && |results| == |later| &&
            forall i :: 0 <= i < |results| ==> results[i] == Skip("Already processing or not running")
  {
    var locked := StartAsWritten(s, running, None).after;
    LockedStaysLocked(locked, later);
  }

  /** Executes one after another, with no background job finishing in between. */
  function RunAsWritten(s: Latch, calls: seq<(bool, Option<Image>)>): (Latch, seq<ActionResult>) {
    if calls == [] then (s, [])
    else
      var (t, rs) := RunAsWritten(s, calls[..|calls| - 1]);
      var out := StartAsWritten(t, calls[|calls| - 1].0, calls[|calls| - 1].1);
      (out.after, rs + [out.result])
  }

  lemma {:induction false} LockedStaysLocked(s: Latch, calls: seq<(bool, Option<Image>)>)
    requires s.processing
    ensures var (final, results) := RunAsWritten(s, calls);
            final == s && |results| == |calls| &&
            forall i :: 0 <= i < |results| ==> results[i] == Skip("Already processing or not running")
  {
    if calls != [] {
      LockedStaysLocked(s, calls[..|calls| - 1]);
    }
  }

  /** With the release, a tick without a screenshot does not stop the next one from analysing. */
  lemma MissingScreenshotRecovers(s: Latch, shot: Image)
    requires !s.processing
    ensures var after := Start(s, true, None).after;
            !after.processing && Start(after, true, Some(shot)).result == SucceededWith("Screen analysis initiated")
  {
  }

  /** A launched job holds the latch until it finishes; afterwards the action can run again. */
  lemma LatchReleasedByJob(s: Latch, shot: Image, running: bool)
    requires CanExecute(s, running)
    ensures var out := Start(s, running, Some(shot));
            !CanExecute(out.after, running) && CanExecute(Finished(out.after), running)
  {
  }

  /** The screen-analysis action: its buffer and its latch. */
  class ScreenAnalysisAction {
    var buffer: seq<Image>
    var processing: bool

    constructor ()
      ensures buffer == [] && !processing
    {
      buffer := [];
      processing := false;
    }

    function State(): Latch
      reads this
    {
      Latch(buffer, processing)
    }

    /** execute(context) as the source has it. */
    method ExecuteAsWritten(context: ActionContext, running: bool) returns (r: ActionResult, launched: Option<Image>)
      modifies this
      ensures Started(r, State(), launched) == StartAsWritten(old(State()), running, ImageAt(context.data, ScreenshotKey))
    {
      if !(running && !processing) {
        return Skip("Already processing or not running"), None;
      }
      processing := true;
      var shot := ImageAt(context.data, ScreenshotKey);
      if shot.None? {
        return Failed("No screenshot provided in context"), None;
      }
      buffer := buffer + [shot.value];
      if |buffer| > BufferLimit {
        buffer := buffer[1..];
      }
      var newest := buffer[|buffer| - 1];
      buffer := [];
      r, launched := SucceededWith("Screen analysis initiated"), Some(newest);
    }

    /** execute(context) with the latch released when the screenshot is missing. */
    method Execute(context: ActionContext, running: bool) returns (r: ActionResult, launched: Option<Image>)
      modifies this
      ensures Started(r, State(), launched) == Start(old(State()), running, ImageAt(context.data, ScreenshotKey))
    {
      if !(running && !processing) {
        return Skip("Already processing or not running"), None;
      }
      processing := true;
      var shot := ImageAt(context.data, ScreenshotKey);
      if shot.None? {
        processing := false;
        return Failed("No screenshot provided in context"), None;
      }
      buffer := buffer + [shot.value];
      if |buffer| > BufferLimit {
        buffer := buffer[1..];
      }
      var newest := buffer[|buffer| - 1];
      buffer := [];
      r, launched := SucceededWith("Screen analysis initiated"), Some(newest);
    }

    /**
     * The background job launched by execute: processAndRespond on the capture, then the
     * latch is released whatever happened. What is spoken is also saved to the selected
     * personality's history.
     */
    method RunJob(image: Image, env: ResponseInputs, personalities: PersonalityManager) returns (out: Processed)
      modifies this, personalities.Selected()
      ensures out == Respond(image, old(Persona(personalities.CurrentPersonalityPrompt(),
                                                personalities.CurrentMultimodalPrompt(),
                                                personalities.LastResponse())), env)
      ensures State() == Finished(old(State()))
      ensures personalities.selected.Some? && out.spoken.Some? ==>
                personalities.selected.value.lastResponse == out.spoken &&
                personalities.selected.value.lastResponses ==
                  Window(old(personalities.selected.value.lastResponses) + [out.spoken.value])
      ensures personalities.selected.Some? && out.spoken.None? ==>
                personalities.selected.value.lastResponses == old(personalities.selected.value.lastResponses)
    {
      var p := Persona(personalities.CurrentPersonalityPrompt(), personalities.CurrentMultimodalPrompt(),
                       personalities.LastResponse());
      out := Respond(image, p, env);
      if out.spoken.Some? {
        personalities.SaveResponseToMemory(out.spoken);
      }
      processing := false;
    }
  }
}
