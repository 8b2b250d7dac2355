/**
 * The older scheduler-driven assistant (AssistantCore.java): a capture job fills a small
 * screenshot buffer, and a processing job, guarded by a latch, takes the newest capture,
 * asks the vision model for a description and the language model for a comment on it,
 * and speaks the comment.
 */
module Assistant {
  import opened Wrappers
  import opened JavaStrings
  import opened Values
  import opened ScreenAnalyses

  const VisionQuestion := "You are a factual screen analyzer. Describe the content of these screenshots in a detailed, neutral way. Focus on what the user is doing."
  const CommentOpening := "You are a tsundere AI assistant. A different AI analyzed the user's screen and gave this description: \""
  const CommentClosing := "\". Based on that description, make a brief, sassy, in-character comment about what the user is doing. Start your response with a tsundere phrase like 'Hmph,' or 'Geez,'. Do NOT repeat the description. Respond with ONLY your tsundere comment. It's not like you care, baka!"

  /** a + m + b starts with a, ends with b, and holds m in between. */
  lemma Enclosed(a: string, m: string, b: string)
    ensures StartsWith(a + m + b, a) && EndsWith(a + m + b, b)
    ensures forall i :: |a| <= i < |a| + |m| ==> (a + m + b)[i] == m[i - |a|]
  {
    var r := a + m + b;
    assert r[..|a|] == a;
    assert r[|r| - |b|..] == b;
  }

  /**
   * A description quoted between two fixed texts, with its own double quotes turned into
   * single ones so that it cannot close the quotation early.
   */
  function QuotedIn(opening: string, description: string, closing: string): (r: string)
    ensures StartsWith(r, opening) && EndsWith(r, closing)
    ensures |r| == |opening| + |description| + |closing|
    ensures forall i :: |opening| <= i < |opening| + |description| ==>
              r[i] != '"' && (description[i - |opening|] != '"' ==> r[i] == description[i - |opening|])
  {
    Enclosed(opening, Unquoted(description), closing);
    opening + Unquoted(description) + closing
  }

  /** getFinalResponse's prompt (the template's only conversion is its %s). */
  function CommentRequest(description: string): string {
    QuotedIn(CommentOpening, description, CommentClosing)
  }

  /**
   * The job's body: describe the image; a null or blank description ends it; otherwise ask
   * for a comment, parse it, and speak it when it is not null or blank. An exception from a
   * model call is caught and ends the job.
   */
  function CoreRespond(image: Image, services: Services, voice: Option<string>, language: Option<string>): (out: Processed)
    ensures 1 <= |out.calls| <= 3 && out.calls[0] == AnalyzeImage(image, Some(VisionQuestion))
    ensures out.spoken.Some? ==>
              !out.threw && !IsBlank(out.spoken.value) && |out.calls| == 3 &&
              out.calls[2] == Speak(out.spoken.value, voice, language)
    ensures out.spoken.None? ==> |out.calls| <= 2
  {
    var describe := AnalyzeImage(image, Some(VisionQuestion));
    match services.analyzeImage(image, Some(VisionQuestion))
    case Fault(_) => Processed([describe], None, true)
    case Answer(d) =>
      if d.None? || IsBlank(d.value) then Processed([describe], None, false)
      else
        var ask := GenerateResponse(CommentRequest(d.value));
        match services.generateResponse(CommentRequest(d.value))
        case Fault(_) => Processed([describe, ask], None, true)
        case Answer(raw) =>
          var f := ParseFinalResponse(raw);
          if f.Some? && !IsBlank(f.value) then Processed([describe, ask, Speak(f.value, voice, language)], f, false)
          else Processed([describe, ask], None, false)
  }

  /** A spoken comment is the model's reply without its thinking, and asks about the described screen. */
  lemma SpokenIsParsedReply(image: Image, services: Services, voice: Option<string>, language: Option<string>)
    ensures var out := CoreRespond(image, services, voice, language);
            out.spoken.Some? ==>
              var d := services.analyzeImage(image, Some(VisionQuestion));
              d.Answer? && d.text.Some? && !IsBlank(d.text.value) &&
              out.calls[1] == GenerateResponse(CommentRequest(d.text.value)) &&
              services.generateResponse(CommentRequest(d.text.value)).Answer? &&
              out.spoken == ParseFinalResponse(services.generateResponse(CommentRequest(d.text.value)).text) &&
              forall j :: 0 <= j ==> !OccursAt(out.spoken.value, ThinkEnd, j)
  {
    var out := CoreRespond(image, services, voice, language);
    if out.spoken.Some? {
      var d := services.analyzeImage(image, Some(VisionQuestion)).text.value;
      ParsedHasNoThinkTag(services.generateResponse(CommentRequest(d)).text.value);
    }
  }

  class AssistantCore {
    /** AppState.isRunning. */
    var running: bool
    var buffer: seq<Image>
    var processing: bool

    ghost predicate Valid()
      reads this
    {
      |buffer| <= BufferLimit
    }

    /** A new core: not running (AppState.isRunning starts false), nothing captured, latch free. */
    constructor ()
      ensures Valid() && !running && buffer == [] && !processing
    {
      running := false;
      buffer := [];
      processing := false;
    }

    /** startProcessing: nothing when already running; otherwise running. */
    method StartProcessing()
      modifies this
      ensures buffer == old(buffer) && processing == old(processing)
      ensures running
    {
      if running {
        return;
      }
      running := true;
    }

    /** stopProcessing: nothing when not running; otherwise stopped. */
    method StopProcessing()
      modifies this
      ensures buffer == old(buffer) && processing == old(processing)
      ensures !running
    {
      if !running {
        return;
      }
      running := false;
    }

    /** captureScreenshot: the capture is buffered; a capture failure (None) stops processing. */
    method CaptureScreenshot(shot: Option<Image>)
      requires Valid()
      modifies this
      ensures Valid() && processing == old(processing)
      ensures shot.Some? ==> buffer == Captured(old(buffer), shot.value) && running == old(running)
      ensures shot.None? ==> buffer == old(buffer) && !running
    {
      if shot.None? {
        StopProcessing();
        return;
      }
      buffer := buffer + [shot.value];
      if |buffer| > BufferLimit {
        buffer := buffer[1..];
      }
    }

    /**
     * processAndRespond: nothing while the latch is held; with an empty buffer the latch is
     * taken and released again; otherwise the newest capture is taken for the background
     * job, the buffer is emptied and the latch stays held until the job finishes.
     */
    method ProcessAndRespond() returns (taken: Option<Image>)
      requires Valid()
      modifies this
      ensures Valid() && running == old(running)
      ensures old(processing) ==> taken.None? && processing && buffer == old(buffer)
      ensures !old(processing) && old(buffer) == [] ==> taken.None? && !processing && buffer == []
      ensures !old(processing) && old(buffer) != [] ==>
                taken == Some(old(buffer)[|old(buffer)| - 1]) && processing && buffer == []
    {
      if processing {
        return None;
      }
      processing := true;
      if |buffer| < 1 {
        processing := false;
        return None;
      }
      taken := Some(buffer[|buffer| - 1]);
      buffer := [];
    }

    /** The background job on the taken capture; its finally block releases the latch. */
    method RunJob(image: Image, services: Services, voice: Option<string>, language: Option<string>)
      returns (out: Processed)
      modifies this
      ensures out == CoreRespond(image, services, voice, language)
      ensures !processing && running == old(running) && buffer == old(buffer)
    {
      out := CoreRespond(image, services, voice, language);
      processing := false;
    }
  }

  /** The capture processAndRespond takes is the last one captured since the buffer was emptied. */
  lemma TakesLatestCapture(buffer: seq<Image>, shots: seq<Image>)
    requires |buffer| <= BufferLimit && shots != []
    ensures var b := CaptureAll(buffer, shots);
            b != [] && b[|b| - 1] == shots[|shots| - 1] && b == Newest(buffer + shots)
  {
    CapturesKeepNewest(buffer, shots);
  }
}
