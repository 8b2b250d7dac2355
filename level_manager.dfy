/**
 * The mutable side of level progression: SkillInfo (levels/SkillInfo.java), UserLevels
 * (levels/UserLevels.java) and LevelManager's static state and update operations
 * (levels/LevelManager.java). The static fields become the fields of one LevelManager
 * object.
 */
module LevelManagement {
  import opened Wrappers
  import opened JavaStrings
  import opened Levels

  /** A skill's attribute and accumulated XP. */
  class SkillInfo {
    var attribute: Option<string>
    var experience: int

    /** SkillInfo(): no attribute yet and no XP. */
    constructor Empty()
      ensures attribute == None && experience == 0
    {
      attribute := None;
      experience := 0;
    }

    /** SkillInfo(attribute, experience). */
    constructor (attribute: Option<string>, experience: int)
      ensures this.attribute == attribute && this.experience == experience
    {
      this.attribute := attribute;
      this.experience := experience;
    }

    /** setAttribute: only the attribute changes. */
    method SetAttribute(a: Option<string>)
      modifies this
      ensures attribute == a && experience == old(experience)
    {
      attribute := a;
    }

    /** setExperience: only the XP changes. */
    method SetExperience(x: int)
      modifies this
      ensures experience == x && attribute == old(attribute)
    {
      experience := x;
    }
  }

  predicate Distinct(s: seq<string>) {
    forall i, j :: 0 <= i < j < |s| ==> s[i] != s[j]
  }

  /**
   * The user's progression. availableSkills is a LinkedHashMap: skillNames keeps its
   * insertion order, and no SkillInfo object is shared between two skills.
   */
  class UserLevels {
    var attributesXp: map<string, int>
    var skillNames: seq<string>
    var availableSkills: map<string, SkillInfo>

    ghost predicate Valid()
      reads this
    {
      Distinct(skillNames) &&
      (forall n :: n in availableSkills <==> n in skillNames) &&
      (forall m, n :: m in availableSkills && n in availableSkills && m != n ==> availableSkills[m] != availableSkills[n])
    }

    /** The skills in insertion order, as values. */
    ghost function Skills(): (r: seq<Skill>)
      requires Valid()
      reads this, availableSkills.Values
      ensures |r| == |skillNames|
      ensures forall i :: 0 <= i < |r| ==> r[i].name == skillNames[i]
    {
      seq(|skillNames|, i reads this, availableSkills.Values requires 0 <= i < |skillNames| && skillNames[i] in availableSkills =>
        Skill(skillNames[i], availableSkills[skillNames[i]].attribute, availableSkills[skillNames[i]].experience))
    }

    /** A new instance: no attributes and no skills. */
    constructor ()
      ensures attributesXp == map[] && skillNames == [] && availableSkills == map[]
      ensures Valid()
    {
      attributesXp := map[];
      skillNames := [];
      availableSkills := map[];
    }

    /** setAttributesXp: replaces the attribute map and leaves the skills alone. */
    method SetAttributesXp(m: map<string, int>)
      modifies this
      ensures attributesXp == m
      ensures skillNames == old(skillNames) && availableSkills == old(availableSkills)
    {
      attributesXp := m;
    }

    /** setAvailableSkills: replaces the skill map (given with its key order) and leaves the attributes alone. */
    method SetAvailableSkills(names: seq<string>, skills: map<string, SkillInfo>)
      modifies this
      ensures skillNames == names && availableSkills == skills
      ensures attributesXp == old(attributesXp)
    {
      skillNames := names;
      availableSkills := skills;
    }

    /** A skill is listed exactly when its name is a key, at the position of that key. */
    lemma IndexOfKey(n: string)
      requires Valid()
      ensures IndexOfSkill(Skills(), n).Some? <==> n in availableSkills
      ensures IndexOfSkill(Skills(), n).Some? ==> skillNames[IndexOfSkill(Skills(), n).value] == n
    {
      if n in availableSkills {
        var i :| 0 <= i < |skillNames| && skillNames[i] == n;
        assert Skills()[i].name == n;
      }
    }

    /** The listed entry of a skill carries the attribute and XP of its SkillInfo. */
    lemma SkillAt(n: string)
      requires Valid() && n in availableSkills
      ensures IndexOfSkill(Skills(), n).Some?
      ensures var i := IndexOfSkill(Skills(), n).value;
              Skills()[i] == Skill(n, availableSkills[n].attribute, availableSkills[n].experience)
    {
      IndexOfKey(n);
    }

    /** put(n, info) for a new name: appends the skill at the end of the insertion order. */
    method PutNew(n: string, info: SkillInfo)
      requires Valid() && n !in availableSkills && info !in availableSkills.Values
      modifies this
      ensures Valid()
      ensures availableSkills == old(availableSkills)[n := info]
      ensures attributesXp == old(attributesXp)
      ensures Skills() == old(Skills()) + [Skill(n, info.attribute, info.experience)]
    {
      ghost var before := Skills();
      skillNames := skillNames + [n];
      availableSkills := availableSkills[n := info];
      forall i | 0 <= i < |before|
        ensures Skills()[i] == before[i]
      {
        assert skillNames[i] == old(skillNames)[i];
      }
    }

    /** get(n).setExperience(x): only the entry of skill n changes in the list. */
    method SetExperienceOf(n: string, x: int)
      requires Valid() && n in availableSkills
      modifies availableSkills[n]
      ensures Valid()
      ensures IndexOfSkill(old(Skills()), n).Some?
      ensures var i := IndexOfSkill(old(Skills()), n).value;
              Skills() == old(Skills())[i := old(Skills())[i].(experience := x)]
    {
      IndexOfKey(n);
      ghost var before := Skills();
      ghost var i := IndexOfSkill(before, n).value;
      var info := availableSkills[n];
      info.SetExperience(x);
      forall j | 0 <= j < |skillNames| && j != i
        ensures Skills()[j] == before[j]
      {
        assert availableSkills[skillNames[j]] != info;
      }
    }
  }

  /** createDefaultLevels: every attribute at 0 and no skills. */
  method CreateDefaultLevels(attributes: seq<string>) returns (levels: UserLevels)
    ensures fresh(levels) && levels.Valid()
    ensures levels.attributesXp == DefaultXp(attributes)
    ensures levels.skillNames == [] && levels.availableSkills == map[]
  {
    levels := new UserLevels();
    var m: map<string, int> := map[];
    for i := 0 to |attributes|
      invariant m == DefaultXp(attributes[..i])
    {
      assert attributes[..i + 1] == attributes[..i] + [attributes[i]];
      m := m[attributes[i] := 0];
    }
    assert attributes[..|attributes|] == attributes;
    levels.SetAttributesXp(m);
  }

  /** ensureAttributesPresent: putIfAbsent(a, 0) for every configured attribute. */
  method EnsureAttributesPresent(levels: UserLevels, attributes: seq<string>)
    modifies levels
    ensures levels.attributesXp == WithAttributes(old(levels.attributesXp), attributes)
    ensures levels.skillNames == old(levels.skillNames) && levels.availableSkills == old(levels.availableSkills)
  {
    var m := levels.attributesXp;
    for i := 0 to |attributes|
      invariant m == WithAttributes(old(levels.attributesXp), attributes[..i])
    {
      assert attributes[..i + 1] == attributes[..i] + [attributes[i]];
      if attributes[i] !in m {
        m := m[attributes[i] := 0];
      }
    }
    assert attributes[..|attributes|] == attributes;
    levels.SetAttributesXp(m);
  }

  /**
   * LevelManager's static state: the configured attributes, the user's levels and the
   * threshold table built from the rounded curve values.
   */
  class LevelManager {
    const attributes: seq<string>
    const levels: UserLevels
    const thresholds: seq<int>

    ghost predicate Valid()
      reads this, levels
    {
      levels.Valid() && ValidTable(thresholds)
    }

    /** The state initialize() leaves, with the table built from the rounded values. */
    constructor (attributes: seq<string>, levels: UserLevels, rounded: seq<int>)
      requires |rounded| == MaxLevel + 1
      ensures this.attributes == attributes && this.levels == levels
      ensures thresholds == Table(rounded)
      ensures levels.Valid() ==> Valid()
    {
      this.attributes := attributes;
      this.levels := levels;
      var table := BuildThresholds(rounded);
      thresholds := table[..];
      new;
      TableIsValid(rounded);
    }

    /** getTotalXpForAttribute: the summing loop over the skills. */
    method TotalXpForAttribute(attribute: Option<string>) returns (sum: int)
      requires Valid()
      ensures sum == TotalXp(attributes, levels.Skills(), attribute)
    {
      if attribute.None? {
        return 0;
      }
      var found := FindKey(attributes, attribute);
      var key := found.GetOr(attribute.value);
      ghost var skills := levels.Skills();
      sum := 0;
      for i := 0 to |levels.skillNames|
        invariant sum == MatchingXp(skills[..i], key)
      {
        var info := levels.availableSkills[levels.skillNames[i]];
        assert skills[..i + 1][..i] == skills[..i];
        if info.attribute.Some? && EqualsIgnoreCase(info.attribute.value, key) {
          sum := sum + if info.experience < 0 then 0 else info.experience;
        }
      }
      assert skills[..|skills|] == skills;
    }

    /** getXpToNextLevelForAttribute. */
    method XpToNextLevelForAttribute(attribute: Option<string>) returns (r: int)
      requires Valid()
      ensures r == XpToNextAsWritten(thresholds, TotalXp(attributes, levels.Skills(), attribute))
    {
      var total := TotalXpForAttribute(attribute);
      var lvl := XpToLevel(thresholds, total);
      if lvl >= MaxLevel {
        return 0;
      }
      var next := thresholds[if lvl + 1 < 1 then 1 else lvl + 1];
      var rem := next - total;
      r := if rem < 0 then 0 else rem;
    }

    /** The first loop of recomputeAttributesFromSkills: each attribute's summed skill XP. */
    method AttributeTotals() returns (totals: map<string, int>)
      requires Valid()
      ensures forall a :: a in attributes ==> a in totals && totals[a] == AttributeXp(attributes, levels.Skills(), a)
    {
      ghost var skills := levels.Skills();
      totals := DefaultXp(attributes);
      for i := 0 to |levels.skillNames|
        invariant forall a :: a in attributes ==> a in totals && totals[a] == AttributeXp(attributes, skills[..i], a)
      {
        var info := levels.availableSkills[levels.skillNames[i]];
        assert skills[i] == Skill(levels.skillNames[i], info.attribute, info.experience);
        if info.attribute.Some? {
          var key := FindKey(attributes, info.attribute);
          if key.Some? {
            totals := totals[key.value := totals[key.value] + if info.experience < 0 then 0 else info.experience];
          }
        }
        forall a | a in attributes
          ensures a in totals && totals[a] == AttributeXp(attributes, skills[..i + 1], a)
        {
          AttributeXpStep(attributes, skills, i, a);
        }
      }
      assert skills[..|skills|] == skills;
    }

    /** recomputeAttributesFromSkills: sums the skill XP per attribute, then stores each level. */
    method RecomputeAttributesFromSkills()
      requires Valid()
      modifies levels
      ensures Valid()
      ensures levels.skillNames == old(levels.skillNames) && levels.availableSkills == old(levels.availableSkills)
      ensures levels.Skills() == old(levels.Skills())
      ensures levels.attributesXp == Recomputed(thresholds, old(levels.attributesXp), attributes, levels.Skills())
    {
      ghost var skills := levels.Skills();
      var totals := AttributeTotals();
      var target := levels.attributesXp;
      for j := 0 to |attributes|
        invariant unchanged(levels)
        invariant Recomputed(thresholds, old(levels.attributesXp), attributes, skills) ==
                  ApplyLevels(thresholds, target, attributes, skills, attributes[j..])
      {
        assert attributes[j..][1..] == attributes[j + 1..];
        assert totals[attributes[j]] == AttributeXp(attributes, skills, attributes[j]);
        var level := XpToLevel(thresholds, totals[attributes[j]]);
        target := target[attributes[j] := level];
      }
      assert attributes[|attributes|..] == [];
      levels.SetAttributesXp(target);
      assert levels.Skills() == skills;
    }

    /**
     * The skill named n, created with the default attribute and 0 XP and appended when
     * missing (addExpOnSkill's lookup).
     */
    method SkillNamed(n: string) returns (info: SkillInfo)
      requires Valid()
      modifies levels
      ensures Valid()
      ensures n in levels.availableSkills && info == levels.availableSkills[n]
      ensures info in old(levels.availableSkills.Values) || fresh(info)
      ensures levels.attributesXp == old(levels.attributesXp)
      ensures IndexOfSkill(old(levels.Skills()), n).Some? ==> levels.Skills() == old(levels.Skills())
      ensures IndexOfSkill(old(levels.Skills()), n).None? ==>
                levels.Skills() == old(levels.Skills()) + [Skill(n, Some(DefaultAttribute(attributes)), 0)]
    {
      levels.IndexOfKey(n);
      if n in levels.availableSkills {
        return levels.availableSkills[n];
      }
      info := new SkillInfo(Some(DefaultAttribute(attributes)), 0);
      levels.PutNew(n, info);
    }

    /**
     * addSkill: a new, usable name gets a skill with 0 XP and the given or the default
     * attribute; anything else changes nothing.
     */
    method AddSkill(name: Option<string>, attribute: Option<string>)
      requires Valid()
      modifies levels
      ensures Valid()
      ensures levels.Skills() == WithSkill(attributes, old(levels.Skills()), name, attribute)
      ensures levels.attributesXp == old(levels.attributesXp)
    {
      if name.None? || IsBlank(name.value) {
        return;
      }
      var n := name.value;
      levels.IndexOfKey(n);
      if n in levels.availableSkills {
        return;
      }
      var attr := if attribute.Some? then attribute.value else DefaultAttribute(attributes);
      var info := new SkillInfo(Some(attr), 0);
      levels.PutNew(n, info);
    }

    /** addExpOnSkill's update of the skill list, before the levels are recomputed. */
    method GainExperience(n: string, amount: int)
      requires Valid() && UsableName(Some(n))
      modifies levels, levels.availableSkills.Values
      ensures Valid()
      ensures levels.Skills() == WithExp(attributes, old(levels.Skills()), Some(n), amount)
      ensures levels.attributesXp == old(levels.attributesXp)
    {
      var amt := if amount <= 0 then 1 else amount;
      ghost var before := levels.Skills();
      var info := SkillNamed(n);
      levels.SkillAt(n);
      ghost var mid := levels.Skills();
      ghost var i: nat := IndexOfSkill(mid, n).value;
      var xp := info.experience + amt;
      levels.SetExperienceOf(n, if xp < 0 then 0 else xp);
      ExpAfterLookup(attributes, before, mid, n, amount, i);
    }

    /**
     * addExpOnSkill: the named skill (created when missing) gains the amount, raised to at
     * least 1, floored at 0; then every attribute level is recomputed.
     */
    method AddExpOnSkill(name: Option<string>, amount: int)
      requires Valid()
      modifies levels, levels.availableSkills.Values
      ensures Valid()
      ensures levels.Skills() == WithExp(attributes, old(levels.Skills()), name, amount)
      ensures UsableName(name) ==>
                levels.attributesXp == Recomputed(thresholds, old(levels.attributesXp), attributes, levels.Skills())
      ensures !UsableName(name) ==> levels.attributesXp == old(levels.attributesXp)
    {
      if name.None? || IsBlank(name.value) {
        return;
      }
      GainExperience(name.value, amount);
      RecomputeAttributesFromSkills();
    }
  }
}
