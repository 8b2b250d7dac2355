/**
 * The personality registry (personality/PersonalityManager.java): the personalities loaded
 * from data/personalities, the one selected, and the choice made from the user's settings.
 * The Java class keeps these in static fields; here they are the fields of one object.
 */
module PersonalityManagement {
  import opened Wrappers
  import opened JavaStrings
  import opened Personalities
  import opened Configuration

  /** The names of the personalities, in order (a name may be null). */
  function NamesOf(ps: seq<Personality>): (r: seq<Option<string>>)
    reads set p | p in ps
    ensures |r| == |ps| && forall i :: 0 <= i < |ps| ==> r[i] == ps[i].name
  {
    if ps == [] then [] else [ps[0].name] + NamesOf(ps[1..])
  }

  /** String.equalsIgnoreCase(target, name): false for a null name. */
  predicate NameMatches(target: string, name: Option<string>) {
    name.Some? && EqualsIgnoreCase(target, name.value)
  }

  /** The first index at or after i whose name matches target (stream().filter(...).findFirst()). */
  function FirstMatchFrom(names: seq<Option<string>>, target: string, i: nat): (r: Option<nat>)
    requires i <= |names|
    ensures r.Some? ==> i <= r.value < |names| && NameMatches(target, names[r.value])
    ensures r.Some? ==> forall j :: i <= j < r.value ==> !NameMatches(target, names[j])
    ensures r.None? ==> forall j :: i <= j < |names| ==> !NameMatches(target, names[j])
    decreases |names| - i
  {
    if i == |names| then None
    else if NameMatches(target, names[i]) then Some(i)
    else FirstMatchFrom(names, target, i + 1)
  }

  function FirstMatch(names: seq<Option<string>>, target: string): Option<nat> {
    FirstMatchFrom(names, target, 0)
  }

  /** What applyPersonalityFromSettings does with the selection. */
  datatype Choice = Pick(index: nat) | Clear | Keep

  /**
   * The settings name when some personality carries it (ignoring case); otherwise, when any
   * personality is loaded, "Tsundere" or else the first one; otherwise the selection is
   * cleared when the settings named a personality, and kept when they named none.
   */
  function Choose(setting: Option<string>, names: seq<Option<string>>): (c: Choice)
    ensures c.Pick? ==> c.index < |names|
    ensures c.Pick? <==> |names| > 0
    ensures c.Clear? <==> |names| == 0 && setting.Some?
    ensures setting.Some? && FirstMatch(names, setting.value).Some? ==>
              c == Pick(FirstMatch(names, setting.value).value)
    ensures (setting.None? || FirstMatch(names, setting.value).None?) && FirstMatch(names, "Tsundere").Some? ==>
              c == Pick(FirstMatch(names, "Tsundere").value)
  {
    if setting.Some? && FirstMatch(names, setting.value).Some? then Pick(FirstMatch(names, setting.value).value)
    else if |names| > 0 then Pick(FirstMatch(names, "Tsundere").GetOr(0))
    else if setting.Some? then Clear
    else Keep
  }

  /**
   * Saving a personality's name to the settings and applying the settings again selects the
   * first personality with that name, ignoring case: the same one when names are unique.
   */
  lemma SelectThenApply(names: seq<Option<string>>, i: nat)
    requires i < |names| && names[i].Some?
    ensures var c := Choose(names[i], names);
            c.Pick? && c.index <= i && NameMatches(names[i].value, names[c.index])
  {
    assert NameMatches(names[i].value, names[i]);
  }

  /** When no loaded name matches the settings, the choice does not depend on the settings. */
  lemma UnmatchedSettingFallsBack(a: Option<string>, b: Option<string>, names: seq<Option<string>>)
    requires |names| > 0
    requires a.None? || FirstMatch(names, a.value).None?
    requires b.None? || FirstMatch(names, b.value).None?
    ensures Choose(a, names) == Choose(b, names)
  {
  }

  class PersonalityManager {
    var available: seq<Personality>
    var selected: Option<Personality>

    /** Before loadPersonalities: nothing loaded, nothing selected. */
    constructor ()
      ensures available == [] && selected.None?
    {
      available := [];
      selected := None;
    }

    /** The selected personality, as a (possibly empty) set of objects. */
    function Selected(): set<Personality>
      reads this
    {
      if selected.Some? then {selected.value} else {}
    }

    /** getAvailablePersonalities: a copy of the list. */
    function AvailablePersonalities(): seq<Personality>
      reads this
    {
      available
    }

    /** getCurrentPersonalityPrompt: null when nothing is selected. */
    function CurrentPersonalityPrompt(): (r: Option<string>)
      reads this, Selected()
      ensures selected.None? ==> r.None?
      ensures selected.Some? ==> r == selected.value.prompt
    {
      if selected.Some? then selected.value.prompt else None
    }

    /** getCurrentMultimodalPrompt: null when nothing is selected. */
    function CurrentMultimodalPrompt(): (r: Option<string>)
      reads this, Selected()
      ensures selected.None? ==> r.None?
      ensures selected.Some? ==> r == selected.value.multimodalPrompt
    {
      if selected.Some? then selected.value.multimodalPrompt else None
    }

    /** getLastResponse: null when nothing is selected. */
    function LastResponse(): (r: Option<string>)
      reads this, Selected()
      ensures selected.None? ==> r.None?
      ensures selected.Some? ==> r == selected.value.lastResponse
    {
      if selected.Some? then selected.value.lastResponse else None
    }

    /** getLastResponses: an empty list when nothing is selected. */
    function LastResponses(): (r: seq<string>)
      reads this, Selected()
      ensures selected.None? ==> r == []
      ensures selected.Some? ==> r == selected.value.lastResponses
    {
      if selected.Some? then selected.value.LastResponses() else []
    }

    /** setSelectedPersonality: a null argument changes nothing; otherwise it is selected and its name saved. */
    method SetSelectedPersonality(p: Option<Personality>, config: ConfigurationManager)
      modifies this, config
      ensures available == old(available)
      ensures p.None? ==> selected == old(selected) && unchanged(config)
      ensures p.Some? ==> selected == p && config.systemConfig == old(config.systemConfig)
      ensures p.Some? && old(config.userSettings).None? ==>
                config.userSettings.None? && config.saved == old(config.saved)
      ensures p.Some? && old(config.userSettings).Some? ==>
                config.userSettings == Some(old(config.userSettings).value.(personalityName := p.value.name)) &&
                config.saved == config.userSettings
    {
      if p.Some? {
        selected := p;
        config.SetSelectedPersonality(p.value.name);
      }
    }

    /** The first loaded personality whose name matches target, ignoring case. */
    method FindByName(target: string) returns (r: Option<nat>)
      ensures r == FirstMatch(NamesOf(available), target)
    {
      var names := NamesOf(available);
      var i := 0;
      while i < |available|
        invariant 0 <= i <= |available|
        invariant FirstMatchFrom(names, target, i) == FirstMatch(names, target)
      {
        if available[i].name.Some? && EqualsIgnoreCase(target, available[i].name.value) {
          return Some(i);
        }
        i := i + 1;
      }
      return None;
    }

    /** applyPersonalityFromSettings: the selection Choose makes from the saved name. */
    method ApplyPersonalityFromSettings(config: ConfigurationManager)
      modifies this
      ensures available == old(available)
      ensures var c := Choose(config.SelectedPersonalityName(), NamesOf(available));
              (c.Pick? ==> selected == Some(available[c.index])) &&
              (c.Clear? ==> selected.None?) &&
              (c.Keep? ==> selected == old(selected))
    {
      ghost var names := NamesOf(available);
      var name := config.SelectedPersonalityName();
      var choice: Choice := Keep;
      if name.Some? {
        var found := FindByName(name.value);
        if found.Some? {
          choice := Pick(found.value);
        } else if |available| == 0 {
          choice := Clear;
        }
      }
      if choice.Keep? && |available| > 0 {
        var tsundere := FindByName("Tsundere");
        choice := Pick(tsundere.GetOr(0));
      }
      assert choice == Choose(name, names);
      match choice {
        case Pick(i) => selected := Some(available[i]);
        case Clear => selected := None;
        case Keep =>
      }
      assert NamesOf(available) == names;
    }

    /**
     * saveResponseToMemory: the selected personality records the response as addResponse
     * does; nothing changes when none is selected (the frame is empty then).
     */
    method SaveResponseToMemory(response: Option<string>)
      modifies Selected()
      ensures selected == old(selected) && available == old(available)
      ensures selected.Some? && (response.None? || IsBlank(response.value)) ==>
                selected.value.lastResponse == old(selected.value.lastResponse) &&
                selected.value.lastResponses == old(selected.value.lastResponses)
      ensures selected.Some? && response.Some? && !IsBlank(response.value) ==>
                selected.value.lastResponse == response &&
                selected.value.lastResponses == Window(old(selected.value.lastResponses) + [response.value])
      ensures selected.Some? && |old(selected.value.lastResponses)| <= HistoryLimit ==>
                |selected.value.lastResponses| <= HistoryLimit
      ensures selected.Some? ==>
                selected.value.name == old(selected.value.name) && selected.value.prompt == old(selected.value.prompt) &&
                selected.value.multimodalPrompt == old(selected.value.multimodalPrompt)
    {
      if selected.Some? {
        selected.value.AddResponse(response);
      }
    }
  }
}
