/**
 * A personality (personality/Personality.java): the prompts loaded from its JSON file and
 * the short history of the assistant's recent responses, at most five, newest last.
 */
module Personalities {
  import opened Wrappers
  import opened JavaStrings

  const HistoryLimit := 5

  /** The last HistoryLimit entries of s, in order. */
  function Window(s: seq<string>): (r: seq<string>)
    ensures |r| == if |s| > HistoryLimit then HistoryLimit else |s|
    ensures r == s[|s| - |r|..]
  {
    if |s| > HistoryLimit then s[|s| - HistoryLimit..] else s
  }

  /** A new response is the newest entry of the history, and the earlier ones keep their order. */
  lemma NewestIsLast(h: seq<string>, x: string)
    ensures var w := Window(h + [x]);
            w != [] && w[|w| - 1] == x && w[..|w| - 1] == Window(h)[|Window(h)| - (|w| - 1)..]
  {
    var s := h + [x];
    var w := Window(s);
    var wh := Window(h);
    var n := |w| - 1;
    assert w == s[|s| - |w|..];
    assert n <= |wh|;
    calc {
      w[..n];
      s[|s| - |w|..|s| - 1];
      { assert s[..|s| - 1] == h; }
      h[|h| - n..];
      { assert wh == h[|h| - |wh|..]; }
      wh[|wh| - n..];
    }
  }

  /** A full history drops exactly its oldest entry. */
  lemma FullHistoryDropsOldest(h: seq<string>, x: string)
    requires |h| == HistoryLimit
    ensures Window(h + [x]) == h[1..] + [x]
  {
  }

  /** Dropping the first entry of a suffix gives the next suffix. */
  lemma DropOldest(s: seq<string>, k: nat)
    requires k < |s|
    ensures s[k..][1..] == s[k + 1..]
  {
  }

  class Personality {
    var name: Option<string>
    var prompt: Option<string>
    var multimodalPrompt: Option<string>
    var attributes: Option<seq<string>>
    var lastResponse: Option<string>
    var lastResponses: seq<string>

    /** A personality as its JSON file gives it: no responses yet, and lastResponse "". */
    constructor (name: Option<string>, prompt: Option<string>, multimodalPrompt: Option<string>, attributes: Option<seq<string>>)
      ensures this.name == name && this.prompt == prompt && this.multimodalPrompt == multimodalPrompt
      ensures this.attributes == attributes
      ensures lastResponse == Some([]) && lastResponses == []
    {
      this.name := name;
      this.prompt := prompt;
      this.multimodalPrompt := multimodalPrompt;
      this.attributes := attributes;
      lastResponse := Some([]);
      lastResponses := [];
    }

    /** getLastResponses: a copy of the history, oldest first. */
    function LastResponses(): seq<string>
      reads this
    {
      lastResponses
    }

    /** setLastResponse. */
    method SetLastResponse(r: Option<string>)
      modifies this
      ensures lastResponse == r && lastResponses == old(lastResponses)
      ensures name == old(name) && prompt == old(prompt) && multimodalPrompt == old(multimodalPrompt)
    {
      lastResponse := r;
    }

    /**
     * addResponse: a null or blank response is ignored; otherwise it becomes lastResponse
     * and is appended to the history, whose oldest entries are dropped down to five.
     */
    method AddResponse(response: Option<string>)
      modifies this
      ensures response.None? || IsBlank(response.value) ==>
                lastResponse == old(lastResponse) && lastResponses == old(lastResponses)
      ensures response.Some? && !IsBlank(response.value) ==>
                lastResponse == response && lastResponses == Window(old(lastResponses) + [response.value])
      ensures |old(lastResponses)| <= HistoryLimit ==> |lastResponses| <= HistoryLimit
      ensures name == old(name) && prompt == old(prompt) && multimodalPrompt == old(multimodalPrompt)
    {
      if response.None? || IsBlank(response.value) {
        return;
      }
      var all := lastResponses + [response.value];
      var h := all;
      while |h| > HistoryLimit
        invariant unchanged(this)
        invariant |h| <= |all| && h == all[|all| - |h|..]
        invariant |h| >= HistoryLimit || h == all
        decreases |h|
      {
        DropOldest(all, |all| - |h|);
        h := h[1..];
      }
      lastResponse := response;
      lastResponses := h;
    }
  }
}
