/**
 * The bracket router of the thinking engine (ThinkingEngine.routeBracketSections): a
 * left-to-right scan of a model reply for "[...]" sections, each of which is handed to
 * every bracket-aware action owning a prefix the section starts with.
 */
module BracketRouting {
  import opened Wrappers
  import opened JavaStrings
  import opened ActionManagement

  /** One call of handleBracket: the action it went to and the section it was given. */
  datatype Dispatch = Dispatch(actionId: string, section: string)

  /**
   * The sections of s from position i on, read one character at a time: outside a section
   * the scan looks for a '['; inside one it looks for the first ']', emits the trimmed text
   * in between and goes on after that ']'. A '[' with no ']' after it ends the scan.
   */
  function Scan(s: string, i: nat): seq<string>
    decreases |s| - i, 1
  {
    if i >= |s| then []
    else if s[i] == '[' then Close(s, i, i + 1)
    else Scan(s, i + 1)
  }

  /** The rest of the scan inside a section opened at position open, looking at position j. */
  function Close(s: string, open: nat, j: nat): seq<string>
    requires open < j
    decreases |s| - j, 0
  {
    if j >= |s| then []
    else if s[j] == ']' then [Trim(s[open + 1..j])] + Scan(s, j + 1)
    else Close(s, open, j + 1)
  }

  /** The sections of a whole reply. */
  function Sections(s: string): seq<string> {
    Scan(s, 0)
  }

  /** Outside a section, the scan skips to the next '['. */
  lemma {:induction false} ScanSkips(s: string, i: nat, open: nat)
    requires i <= open < |s| && s[open] == '['
    requires forall k :: i <= k < open ==> s[k] != '['
    ensures Scan(s, i) == Close(s, open, open + 1)
    decreases open - i
  {
    if i < open {
      ScanSkips(s, i + 1, open);
    }
  }

  /** With no '[' left the scan ends. */
  lemma {:induction false} ScanEnds(s: string, i: nat)
    requires forall k :: i <= k < |s| ==> s[k] != '['
    ensures Scan(s, i) == []
    decreases |s| - i
  {
    if i < |s| {
      ScanEnds(s, i + 1);
    }
  }

  /** Inside a section, the scan skips to the first ']' and emits the trimmed text before it. */
  lemma {:induction false} CloseSkips(s: string, open: nat, j: nat, close: nat)
    requires open < j <= close < |s| && s[close] == ']'
    requires forall k :: j <= k < close ==> s[k] != ']'
    ensures Close(s, open, j) == [Trim(s[open + 1..close])] + Scan(s, close + 1)
    decreases close - j
  {
    if j < close {
      CloseSkips(s, open, j + 1, close);
    }
  }

  /** A section that is never closed ends the scan. */
  lemma {:induction false} CloseEnds(s: string, open: nat, j: nat)
    requires open < j
    requires forall k :: j <= k < |s| ==> s[k] != ']'
    ensures Close(s, open, j) == []
    decreases |s| - j
  {
    if j < |s| {
      CloseEnds(s, open, j + 1);
    }
  }

  /** No section contains a ']': each one stops at the first ']' after its '['. */
  lemma {:induction false} ScanHasNoCloser(s: string, i: nat)
    ensures forall t :: t in Scan(s, i) ==> ']' !in t
    decreases |s| - i, 1
  {
    if i < |s| {
      if s[i] == '[' {
        CloseHasNoCloser(s, i, i + 1);
      } else {
        ScanHasNoCloser(s, i + 1);
      }
    }
  }

  lemma {:induction false} CloseHasNoCloser(s: string, open: nat, j: nat)
    requires open < j <= |s|
    requires forall k :: open < k < j ==> s[k] != ']'
    ensures forall t :: t in Close(s, open, j) ==> ']' !in t
    decreases |s| - j, 0
  {
    if j < |s| {
      if s[j] == ']' {
        var inner := s[open + 1..j];
        forall k | 0 <= k < |inner|
          ensures inner[k] != ']'
        {
          assert inner[k] == s[open + 1 + k];
        }
        TrimKeepsAbsence(inner, ']');
        ScanHasNoCloser(s, j + 1);
      } else {
        CloseHasNoCloser(s, open, j + 1);
      }
    }
  }

  /** The text "[p]" for each payload p, one after another. */
  function Framed(payloads: seq<string>): string {
    if payloads == [] then [] else "[" + payloads[0] + "]" + Framed(payloads[1..])
  }

  /**
   * Round trip: when the text from position i on is the framing of payloads that hold no
   * ']' and carry no trimmable ends, scanning it gives back exactly those payloads, in order.
   */
  lemma {:induction false} ScanOfFramed(s: string, i: nat, payloads: seq<string>)
    requires forall p :: p in payloads ==> ']' !in p && Trim(p) == p
    requires i <= |s| && s[i..] == Framed(payloads)
    ensures Scan(s, i) == payloads
    decreases payloads
  {
    if payloads != [] {
      var p := payloads[0];
      var close := i + 1 + |p|;
      assert s[i..] == "[" + p + "]" + Framed(payloads[1..]);
      assert s[i] == '[' && s[close] == ']';
      forall k | i + 1 <= k < close
        ensures s[k] != ']'
      {
        assert s[k] == p[k - i - 1] && p[k - i - 1] in p;
      }
      CloseSkips(s, i, i + 1, close);
      assert s[i + 1..close] == p;
      assert s[close + 1..] == Framed(payloads[1..]);
      ScanOfFramed(s, close + 1, payloads[1..]);
    }
  }

  /** The round trip for a whole reply. */
  lemma SectionsOfFramed(payloads: seq<string>)
    requires forall p :: p in payloads ==> ']' !in p && Trim(p) == p
    ensures Sections(Framed(payloads)) == payloads
  {
    var s := Framed(payloads);
    assert s[0..] == s;
    ScanOfFramed(s, 0, payloads);
  }

  /** The action is bracket-aware and one of its prefixes starts the section (case-sensitively). */
  predicate Owns(a: Action, section: string) {
    a.prefixes.Some? && exists p :: p in a.prefixes.value && StartsWith(section, p)
  }

  /** The handler calls one section makes: one per owning action, in registry order. */
  function SectionDispatches(section: string, actions: seq<Action>): (r: seq<Dispatch>)
    ensures |r| <= |actions|
    ensures forall d :: d in r ==> d.section == section
  {
    if actions == [] then []
    else
      var a := actions[|actions| - 1];
      SectionDispatches(section, actions[..|actions| - 1]) +
        (if Owns(a, section) then [Dispatch(a.id, section)] else [])
  }

  /** The handler calls a sequence of sections makes, section by section. */
  function Dispatches(sections: seq<string>, actions: seq<Action>): seq<Dispatch> {
    if sections == [] then []
    else
      Dispatches(sections[..|sections| - 1], actions) +
        SectionDispatches(sections[|sections| - 1], actions)
  }

  /** The expected prefixes that start the section. */
  function Matched(section: string, expected: seq<string>): (r: set<string>)
    ensures forall p :: p in r <==> p in expected && StartsWith(section, p)
  {
    set p | p in expected && StartsWith(section, p)
  }

  /** The expected prefixes some section starts with (none when the list is null). */
  function Found(sections: seq<string>, expected: Option<seq<string>>): set<string> {
    if sections == [] || expected.None? then {}
    else Found(sections[..|sections| - 1], expected) + Matched(sections[|sections| - 1], expected.value)
  }

  /** Whether routing does anything at all: a non-blank reply and a non-empty collection. */
  predicate Routes(raw: Option<string>, actions: seq<Action>) {
    raw.Some? && !IsBlank(raw.value) && actions != []
  }

  /** The handler calls routeBracketSections makes for a reply. */
  function Routed(raw: Option<string>, actions: seq<Action>): seq<Dispatch> {
    if Routes(raw, actions) then Dispatches(Sections(raw.value), actions) else []
  }

  /** The expected prefixes routeBracketSections finds in a reply. */
  function FoundIn(raw: Option<string>, actions: seq<Action>, expected: Option<seq<string>>): set<string> {
    if Routes(raw, actions) then Found(Sections(raw.value), expected) else {}
  }

  /** A section reaches an action iff the action owns it. */
  lemma {:induction false} SectionDispatchesExactly(section: string, actions: seq<Action>, id: string)
    ensures Dispatch(id, section) in SectionDispatches(section, actions) <==>
            exists a :: a in actions && a.id == id && Owns(a, section)
  {
    if actions != [] {
      var init := actions[..|actions| - 1];
      var a := actions[|actions| - 1];
      SectionDispatchesExactly(section, init, id);
      assert actions == init + [a];
      if Dispatch(id, section) in SectionDispatches(section, init) {
        var b :| b in init && b.id == id && Owns(b, section);
        assert b in actions;
      }
      if exists b :: b in actions && b.id == id && Owns(b, section) {
        var b :| b in actions && b.id == id && Owns(b, section);
        if b != a {
          assert b in init;
        }
      }
    }
  }

  /**
   * Every handler call goes to an action that owns a section of the reply, and every
   * owning action of every section gets that section.
   */
  lemma {:induction false} DispatchesExactly(sections: seq<string>, actions: seq<Action>, d: Dispatch)
    ensures d in Dispatches(sections, actions) <==>
            d.section in sections && exists a :: a in actions && a.id == d.actionId && Owns(a, d.section)
  {
    if sections != [] {
      var init := sections[..|sections| - 1];
      var last := sections[|sections| - 1];
      assert sections == init + [last];
      DispatchesExactly(init, actions, d);
      SectionDispatchesExactly(last, actions, d.actionId);
      if d in SectionDispatches(last, actions) {
        assert d.section == last;
      }
      if d.section == last && exists a :: a in actions && a.id == d.actionId && Owns(a, d.section) {
        assert d == Dispatch(d.actionId, last);
      }
    }
  }

  /** An expected prefix is found iff some section starts with it. */
  lemma {:induction false} FoundExactly(sections: seq<string>, expected: seq<string>, p: string)
    ensures p in Found(sections, Some(expected)) <==>
            p in expected && exists t :: t in sections && StartsWith(t, p)
  {
    if sections != [] {
      var init := sections[..|sections| - 1];
      var last := sections[|sections| - 1];
      assert sections == init + [last];
      FoundExactly(init, expected, p);
      if exists t :: t in sections && StartsWith(t, p) {
        var t :| t in sections && StartsWith(t, p);
        if t != last {
          assert t in init;
        }
      }
    }
  }

  /** routeBracketSections does nothing for a null or blank reply or an empty action collection. */
  lemma RoutingNeedsTextAndActions(raw: Option<string>, actions: seq<Action>, expected: Option<seq<string>>)
    requires raw.None? || IsBlank(raw.value) || actions == []
    ensures Routed(raw, actions) == [] && FoundIn(raw, actions, expected) == {}
  {
  }

  /** The expected prefixes a section starts with, one prefix at a time. */
  method MatchExpected(section: string, expected: seq<string>) returns (m: set<string>)
    ensures m == Matched(section, expected)
  {
    m := {};
    var i := 0;
    while i < |expected|
      invariant i <= |expected|
      invariant m == Matched(section, expected[..i])
    {
      if StartsWith(section, expected[i]) {
        m := m + {expected[i]};
      }
      assert expected[..i + 1] == expected[..i] + [expected[i]];
      i := i + 1;
    }
    assert expected[..i] == expected;
  }

  /** Whether the action takes the section: it is bracket-aware and some prefix of it matches. */
  method Claims(a: Action, section: string) returns (hit: bool)
    ensures hit == Owns(a, section)
  {
    hit := false;
    if a.prefixes.Some? {
      var ps := a.prefixes.value;
      var j := 0;
      while j < |ps| && !hit
        invariant j <= |ps|
        invariant hit <==> exists q :: q in ps[..j] && StartsWith(section, q)
      {
        assert ps[..j + 1] == ps[..j] + [ps[j]];
        hit := StartsWith(section, ps[j]);
        j := j + 1;
      }
      if !hit {
        assert ps[..j] == ps;
      }
    }
  }

  /** The handler calls for one section: each owning action once, in collection order. */
  method DispatchSection(section: string, actions: seq<Action>) returns (calls: seq<Dispatch>)
    ensures calls == SectionDispatches(section, actions)
  {
    calls := [];
    var k := 0;
    while k < |actions|
      invariant k <= |actions|
      invariant calls == SectionDispatches(section, actions[..k])
    {
      var hit := Claims(actions[k], section);
      if hit {
        calls := calls + [Dispatch(actions[k].id, section)];
      }
      assert actions[..k + 1][..k] == actions[..k];
      k := k + 1;
    }
    assert actions[..k] == actions;
  }

  lemma DispatchesSnoc(sections: seq<string>, t: string, actions: seq<Action>, expected: Option<seq<string>>)
    ensures Dispatches(sections + [t], actions) == Dispatches(sections, actions) + SectionDispatches(t, actions)
    ensures Found(sections + [t], expected) ==
            Found(sections, expected) + (if expected.Some? then Matched(t, expected.value) else {})
  {
    assert (sections + [t])[..|sections|] == sections;
  }

  /**
   * One round of the scan loop: the next '[' at or after idx and the first ']' after it give
   * the trimmed section between them and the position just after the ']'; None when either
   * is missing.
   */
  method NextSection(s: string, idx: nat) returns (next: Option<(string, nat)>)
    requires idx <= |s|
    ensures next.None? ==> Scan(s, idx) == []
    ensures next.Some? ==> idx < next.value.1 <= |s| &&
                           Scan(s, idx) == [next.value.0] + Scan(s, next.value.1)
  {
    var open := IndexOf(s, '[', idx);
    if open.None? {
      ScanEnds(s, idx);
      return None;
    }
    ScanSkips(s, idx, open.value);
    var close := IndexOf(s, ']', open.value + 1);
    if close.None? {
      CloseEnds(s, open.value, open.value + 1);
      return None;
    }
    CloseSkips(s, open.value, open.value + 1, close.value);
    var inside := Trim(s[open.value + 1..close.value]);
    next := Some((inside, close.value + 1));
  }

  /** Moving one section from the scan's remainder to what is done keeps the whole. */
  lemma ShiftSection(done: seq<string>, inside: string, rest: seq<string>, whole: seq<string>)
    requires done + ([inside] + rest) == whole
    ensures (done + [inside]) + rest == whole
  {
    assert done + ([inside] + rest) == (done + [inside]) + rest;
  }

  /** The scan loop over a non-blank reply: every section, in order, to every action that owns it. */
  method RouteSections(s: string, actions: seq<Action>, expected: Option<seq<string>>)
    returns (dispatched: seq<Dispatch>, found: set<string>)
    ensures dispatched == Dispatches(Sections(s), actions)
    ensures found == Found(Sections(s), expected)
  {
    dispatched, found := [], {};
    var idx := 0;
    ghost var done: seq<string> := [];
    assert s[0..] == s;
    while true
      invariant idx <= |s|
      invariant done + Scan(s, idx) == Sections(s)
      invariant dispatched == Dispatches(done, actions)
      invariant found == Found(done, expected)
      decreases |s| - idx
    {
      var next := NextSection(s, idx);
      if next.None? {
        assert done + [] == done;
        return;
      }
      var (inside, resume) := next.value;
      if expected.Some? {
        var m := MatchExpected(inside, expected.value);
        found := found + m;
      }
      var calls := DispatchSection(inside, actions);
      dispatched := dispatched + calls;
      DispatchesSnoc(done, inside, actions, expected);
      ShiftSection(done, inside, Scan(s, resume), Sections(s));
      done := done + [inside];
      idx := resume;
    }
  }

  /**
   * routeBracketSections(raw, actions, context, expectedPrefixes): returns the handler calls
   * it makes, in order, and the expected prefixes it saw. Exceptions thrown by a handler are
   * swallowed, so a call is made whatever the handler does.
   */
  method RouteBracketSections(raw: Option<string>, actions: seq<Action>, expected: Option<seq<string>>)
    returns (dispatched: seq<Dispatch>, found: set<string>)
    ensures dispatched == Routed(raw, actions)
    ensures found == FoundIn(raw, actions, expected)
  {
    if raw.None? || IsBlank(raw.value) || |actions| == 0 {
      return [], {};
    }
    dispatched, found := RouteSections(raw.value, actions, expected);
  }
}
