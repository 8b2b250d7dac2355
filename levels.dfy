/**
 * Level progression (levels/LevelManager.java), the value side: the 100-entry threshold
 * table and its fix-up pass, the XP-to-level curve, the per-attribute XP totals and the
 * recomputation of attribute levels from skill XP.
 */
module Levels {
  import opened Wrappers
  import opened JavaStrings

  const MaxLevel := 99
  const DefaultAttributeName := "Intelligence"

  /** A skill as the levels file records it: its name, attribute (possibly null) and XP. */
  datatype Skill = Skill(name: string, attribute: Option<string>, experience: int)

  // ---------------------------------------------------------------- thresholds

  /**
   * A usable threshold table: 100 entries, entry 1 is 0, and entries 1..99 strictly
   * increase.
   */
  predicate ValidTable(th: seq<int>) {
    |th| == MaxLevel + 1 && th[1] == 0 &&
    forall i, j :: 1 <= i < j <= MaxLevel ==> th[i] < th[j]
  }

  /**
   * Entry l of the table built from the rounded, scaled OSRS values: entries 0 and 1 are 0,
   * and each later entry is its rounded value, raised to one more than the entry before
   * when it would not be larger.
   */
  function Threshold(rounded: seq<int>, l: nat): int
    requires |rounded| == MaxLevel + 1 && l <= MaxLevel
  {
    if l <= 1 then 0
    else
      var prev := Threshold(rounded, l - 1);
      if rounded[l] <= prev then prev + 1 else rounded[l]
  }

  /** The table built from the rounded values. */
  function Table(rounded: seq<int>): (th: seq<int>)
    requires |rounded| == MaxLevel + 1
    ensures |th| == MaxLevel + 1
    ensures forall l :: 0 <= l <= MaxLevel ==> th[l] == Threshold(rounded, l)
  {
    seq(MaxLevel + 1, l requires 0 <= l <= MaxLevel => Threshold(rounded, l))
  }

  /** Whatever the rounded values are, the fix-up pass yields a usable table. */
  lemma {:induction false} TableIsValid(rounded: seq<int>)
    requires |rounded| == MaxLevel + 1
    ensures ValidTable(Table(rounded))
  {
    var th := Table(rounded);
    forall i, j | 1 <= i < j <= MaxLevel
      ensures th[i] < th[j]
    {
      ThresholdIncreases(rounded, i, j);
    }
  }

  lemma {:induction false} ThresholdIncreases(rounded: seq<int>, i: nat, j: nat)
    requires |rounded| == MaxLevel + 1 && 1 <= i < j <= MaxLevel
    ensures Threshold(rounded, i) < Threshold(rounded, j)
    decreases j
  {
    if i < j - 1 {
      ThresholdIncreases(rounded, i, j - 1);
    }
  }

  /** Entries from 2 on are never below their rounded value, and equal it when it already increases. */
  lemma {:induction false} ThresholdKeepsIncreasingValues(rounded: seq<int>, l: nat)
    requires |rounded| == MaxLevel + 1 && 2 <= l <= MaxLevel
    requires rounded[1] == 0
    requires forall k :: 1 <= k < MaxLevel ==> rounded[k] < rounded[k + 1]
    ensures Threshold(rounded, l) == rounded[l]
    decreases l
  {
    if l > 2 {
      ThresholdKeepsIncreasingValues(rounded, l - 1);
    }
  }

  /**
   * The fix-up loop of buildScaledOsrsThresholds: fills a new int[100] from the rounded
   * values.
   */
  method BuildThresholds(rounded: seq<int>) returns (out: array<int>)
    requires |rounded| == MaxLevel + 1
    ensures fresh(out)
    ensures out[..] == Table(rounded)
  {
    out := new int[MaxLevel + 1](_ => 0);
    out[1] := 0;
    var l := 2;
    while l <= MaxLevel
      invariant 2 <= l <= MaxLevel + 1
      invariant forall k :: 0 <= k < l ==> out[k] == Threshold(rounded, k)
      invariant forall k :: l <= k <= MaxLevel ==> out[k] == 0
    {
      var scaled := rounded[l];
      if scaled <= out[l - 1] {
        scaled := out[l - 1] + 1;
      }
      out[l] := scaled;
      l := l + 1;
    }
  }

  // ---------------------------------------------------------------- XP to level

  /** The highest level in 1..l whose threshold is at most xp. */
  function Highest(th: seq<int>, xp: int, l: nat): (r: nat)
    requires ValidTable(th) && 1 <= l <= MaxLevel && th[1] <= xp
    ensures 1 <= r <= l && th[r] <= xp
    ensures forall k :: r < k <= l ==> th[k] > xp
  {
    if th[l] <= xp || l == 1 then l else Highest(th, xp, l - 1)
  }

  /**
   * xpToLevel: 0 for no XP, 99 from the last threshold on, and otherwise the level whose
   * threshold is reached and whose successor's is not.
   */
  function LevelFor(th: seq<int>, xp: int): (r: nat)
    requires ValidTable(th)
    ensures r <= MaxLevel
    ensures r == 0 <==> xp <= 0
    ensures xp > 0 && xp >= th[MaxLevel] ==> r == MaxLevel
    ensures xp > 0 && xp < th[MaxLevel] ==> 1 <= r < MaxLevel && th[r] <= xp < th[r + 1]
  {
    if xp <= 0 then 0
    else if xp >= th[MaxLevel] then MaxLevel
    else Highest(th, xp, MaxLevel - 1)
  }

  /** More XP never means a lower level. */
  lemma LevelIsMonotone(th: seq<int>, a: int, b: int)
    requires ValidTable(th) && a <= b
    ensures LevelFor(th, a) <= LevelFor(th, b)
  {
  }

  /** Reaching a level's threshold gives at least that level. */
  lemma ThresholdReachesLevel(th: seq<int>, l: nat, xp: int)
    requires ValidTable(th) && 1 <= l <= MaxLevel && xp > 0 && th[l] <= xp
    ensures LevelFor(th, xp) >= l
  {
  }

  /** xpToLevel's binary search over the table. */
  method XpToLevel(th: seq<int>, xp: int) returns (level: nat)
    requires ValidTable(th)
    ensures level == LevelFor(th, xp)
  {
    if xp <= 0 {
      return 0;
    }
    if xp >= th[MaxLevel] {
      return MaxLevel;
    }
    var lo, hi, ans := 1, MaxLevel, 1;
    while lo <= hi
      invariant 1 <= lo <= hi + 1 && hi <= MaxLevel
      invariant 1 <= ans <= MaxLevel && th[ans] <= xp
      invariant lo == 1 || ans == lo - 1
      invariant forall k :: hi < k <= MaxLevel ==> th[k] > xp
      decreases hi - lo
    {
      var mid := (lo + hi) / 2;
      if th[mid] <= xp {
        ans := mid;
        lo := mid + 1;
      } else {
        hi := mid - 1;
      }
    }
    level := ans;
  }

  // ---------------------------------------------------------------- XP to the next level

  /**
   * getXpToNextLevelForAttribute as written: 0 at level 99, otherwise the threshold of the
   * next level (read at index max(1, level + 1)) less the total, and never negative.
   */
  function XpToNextAsWritten(th: seq<int>, total: int): (r: int)
    requires ValidTable(th)
    ensures r >= 0
    ensures LevelFor(th, total) == MaxLevel ==> r == 0
  {
    var lvl := LevelFor(th, total);
    if lvl >= MaxLevel then 0
    else
      var rem := th[if lvl + 1 < 1 then 1 else lvl + 1] - total;
      if rem < 0 then 0 else rem
  }

  /** At level 0 with no XP the as-written count says nothing is missing, yet 0 XP stays at level 0. */
  lemma XpToNextAtLevelZero(th: seq<int>)
    requires ValidTable(th)
    ensures XpToNextAsWritten(th, 0) == 0 && LevelFor(th, 0 + XpToNextAsWritten(th, 0)) == 0
  {
  }

  /** The XP still missing for the next level: 1 from level 0, and the gap to the next threshold above it. */
  function XpToNextLevel(th: seq<int>, total: int): (r: int)
    requires ValidTable(th)
    ensures r >= 0
    ensures LevelFor(th, total) == MaxLevel <==> r == 0
  {
    var lvl := LevelFor(th, total);
    if lvl >= MaxLevel then 0
    else if lvl == 0 then 1 - total
    else th[lvl + 1] - total
  }

  /** Gaining the missing XP reaches the next level. */
  lemma XpToNextReachesNextLevel(th: seq<int>, total: int)
    requires ValidTable(th) && LevelFor(th, total) < MaxLevel
    ensures LevelFor(th, total + XpToNextLevel(th, total)) > LevelFor(th, total)
  {
    var lvl := LevelFor(th, total);
    if lvl > 0 {
      ThresholdReachesLevel(th, lvl + 1, total + XpToNextLevel(th, total));
    }
  }

  /** Any smaller gain stays at the current level: the count is exact. */
  lemma XpToNextIsExact(th: seq<int>, total: int, d: int)
    requires ValidTable(th) && 0 <= d < XpToNextLevel(th, total)
    ensures LevelFor(th, total + d) == LevelFor(th, total)
  {
    var lvl := LevelFor(th, total);
    LevelIsMonotone(th, total, total + d);
  }

  /** Above level 0 the as-written count is the exact one. */
  lemma XpToNextAgreesAboveZero(th: seq<int>, total: int)
    requires ValidTable(th) && LevelFor(th, total) >= 1
    ensures XpToNextAsWritten(th, total) == XpToNextLevel(th, total)
  {
  }

  // ---------------------------------------------------------------- attribute keys

  /** findAttributeKey: the first configured attribute equal to name ignoring case. */
  function FindAttributeKey(attributes: seq<string>, name: string): (r: Option<string>)
    ensures r.Some? ==> r.value in attributes && EqualsIgnoreCase(r.value, name)
    ensures r.None? <==> forall a :: a in attributes ==> !EqualsIgnoreCase(a, name)
  {
    if attributes == [] then None
    else if EqualsIgnoreCase(attributes[0], name) then Some(attributes[0])
    else FindAttributeKey(attributes[1..], name)
  }

  /** A key that is first among its case variants is found for itself. */
  lemma FindsItselfWhenFirst(attributes: seq<string>, i: nat)
    requires i < |attributes|
    requires forall k :: 0 <= k < i ==> !EqualsIgnoreCase(attributes[k], attributes[i])
    ensures FindAttributeKey(attributes, attributes[i]) == Some(attributes[i])
  {
    if i > 0 {
      FindsItselfWhenFirst(attributes[1..], i - 1);
    }
  }

  /** findAttributeKey's loop, with its early return. */
  method FindKey(attributes: seq<string>, name: Option<string>) returns (r: Option<string>)
    ensures name.None? ==> r.None?
    ensures name.Some? ==> r == FindAttributeKey(attributes, name.value)
  {
    if name.None? {
      return None;
    }
    var i := 0;
    while i < |attributes|
      invariant i <= |attributes|
      invariant FindAttributeKey(attributes, name.value) == FindAttributeKey(attributes[i..], name.value)
    {
      if EqualsIgnoreCase(attributes[i], name.value) {
        return Some(attributes[i]);
      }
      assert attributes[i..][1..] == attributes[i + 1..];
      i := i + 1;
    }
    return None;
  }

  /** inferDefaultAttribute: the first configured attribute, or "Intelligence" when there is none. */
  function DefaultAttribute(attributes: seq<string>): (r: string)
    ensures attributes != [] ==> r == attributes[0]
    ensures attributes == [] ==> r == DefaultAttributeName
  {
    if attributes != [] then attributes[0] else DefaultAttributeName
  }

  // ---------------------------------------------------------------- XP totals

  /** Math.max(0, xp): what a skill contributes to a total. */
  function Gain(s: Skill): nat {
    if s.experience < 0 then 0 else s.experience
  }

  /**
   * getTotalXpForAttribute's sum: the non-negative XP of the skills whose attribute equals
   * key ignoring case.
   */
  function MatchingXp(skills: seq<Skill>, key: string): (r: nat)
  {
    if skills == [] then 0
    else
      var last := skills[|skills| - 1];
      MatchingXp(skills[..|skills| - 1], key) +
        (if last.attribute.Some? && EqualsIgnoreCase(last.attribute.value, key) then Gain(last) else 0)
  }

  /** getTotalXpForAttribute: 0 for null; otherwise the sum for the canonical key, or for the name itself when no attribute matches. */
  function TotalXp(attributes: seq<string>, skills: seq<Skill>, attribute: Option<string>): nat {
    if attribute.None? then 0
    else MatchingXp(skills, FindAttributeKey(attributes, attribute.value).GetOr(attribute.value))
  }

  /**
   * recomputeAttributesFromSkills' sum for attribute a: the non-negative XP of the skills
   * whose attribute's canonical key is a.
   */
  function AttributeXp(attributes: seq<string>, skills: seq<Skill>, a: string): (r: nat)
  {
    if skills == [] then 0
    else
      var last := skills[|skills| - 1];
      AttributeXp(attributes, skills[..|skills| - 1], a) +
        (if last.attribute.Some? && FindAttributeKey(attributes, last.attribute.value) == Some(a) then Gain(last) else 0)
  }

  /** Extending the skills by one adds that skill's gain to the attribute it belongs to. */
  lemma AttributeXpStep(attributes: seq<string>, skills: seq<Skill>, i: nat, a: string)
    requires i < |skills|
    ensures AttributeXp(attributes, skills[..i + 1], a) == AttributeXp(attributes, skills[..i], a) +
              (if skills[i].attribute.Some? && FindAttributeKey(attributes, skills[i].attribute.value) == Some(a)
               then Gain(skills[i]) else 0)
  {
    assert skills[..i + 1][..i] == skills[..i];
  }

  /** For an attribute that is first among its case variants, the shown total and the stored one agree. */
  lemma {:induction false} TotalsAgree(attributes: seq<string>, skills: seq<Skill>, i: nat)
    requires i < |attributes|
    requires forall k :: 0 <= k < i ==> !EqualsIgnoreCase(attributes[k], attributes[i])
    ensures TotalXp(attributes, skills, Some(attributes[i])) == AttributeXp(attributes, skills, attributes[i])
    decreases |skills|
  {
    var a := attributes[i];
    FindsItselfWhenFirst(attributes, i);
    if skills != [] {
      TotalsAgree(attributes, skills[..|skills| - 1], i);
      var last := skills[|skills| - 1];
      if last.attribute.Some? {
        var key := FindAttributeKey(attributes, last.attribute.value);
        if EqualsIgnoreCase(last.attribute.value, a) {
          FindsItselfWhenFirst(attributes, i);
          EqualsIgnoreCaseFindsSame(attributes, last.attribute.value, a);
        }
      }
    }
  }

  /** Names equal ignoring case have the same key. */
  lemma EqualsIgnoreCaseFindsSame(attributes: seq<string>, x: string, y: string)
    requires EqualsIgnoreCase(x, y)
    ensures FindAttributeKey(attributes, x) == FindAttributeKey(attributes, y)
  {
    if attributes != [] {
      EqualsIgnoreCaseFindsSame(attributes[1..], x, y);
    }
  }

  /** A skill whose attribute is not configured contributes to no attribute. */
  lemma {:induction false} UnknownAttributeAddsNothing(attributes: seq<string>, skills: seq<Skill>, s: Skill, a: string)
    requires s.attribute.None? || FindAttributeKey(attributes, s.attribute.value).None?
    ensures AttributeXp(attributes, skills + [s], a) == AttributeXp(attributes, skills, a)
  {
    assert (skills + [s])[..|skills|] == skills;
  }

  // ---------------------------------------------------------------- recomputation

  /** Sets each attribute of todo to the level of its summed skill XP, keeping every other entry. */
  function ApplyLevels(th: seq<int>, m: map<string, int>, attributes: seq<string>, skills: seq<Skill>, todo: seq<string>): map<string, int>
    requires ValidTable(th)
    decreases |todo|
  {
    if todo == [] then m
    else ApplyLevels(th, m[todo[0] := LevelFor(th, AttributeXp(attributes, skills, todo[0]))], attributes, skills, todo[1..])
  }

  /** recomputeAttributesFromSkills on the attribute map. */
  function Recomputed(th: seq<int>, m: map<string, int>, attributes: seq<string>, skills: seq<Skill>): map<string, int>
    requires ValidTable(th)
  {
    ApplyLevels(th, m, attributes, skills, attributes)
  }

  lemma {:induction false} ApplyLevelsShape(th: seq<int>, m: map<string, int>, attributes: seq<string>, skills: seq<Skill>, todo: seq<string>)
    requires ValidTable(th)
    ensures var r := ApplyLevels(th, m, attributes, skills, todo);
            r.Keys == m.Keys + (set a | a in todo) &&
            (forall a :: a in todo ==> r[a] == LevelFor(th, AttributeXp(attributes, skills, a))) &&
            (forall k :: k in m && k !in todo ==> r[k] == m[k])
    decreases |todo|
  {
    if todo != [] {
      ApplyLevelsShape(th, m[todo[0] := LevelFor(th, AttributeXp(attributes, skills, todo[0]))], attributes, skills, todo[1..]);
      assert forall a :: a in todo <==> a == todo[0] || a in todo[1..];
    }
  }

  /**
   * After the recomputation every configured attribute holds the level of its summed skill
   * XP (so lies in 0..99), and every other entry is kept.
   */
  lemma RecomputedLevels(th: seq<int>, m: map<string, int>, attributes: seq<string>, skills: seq<Skill>)
    requires ValidTable(th)
    ensures var r := Recomputed(th, m, attributes, skills);
            r.Keys == m.Keys + (set a | a in attributes) &&
            (forall a :: a in attributes ==> r[a] == LevelFor(th, AttributeXp(attributes, skills, a)) && 0 <= r[a] <= MaxLevel) &&
            (forall k :: k in m && k !in attributes ==> r[k] == m[k])
  {
    ApplyLevelsShape(th, m, attributes, skills, attributes);
  }

  /** A second recomputation changes nothing. */
  lemma RecomputeIsIdempotent(th: seq<int>, m: map<string, int>, attributes: seq<string>, skills: seq<Skill>)
    requires ValidTable(th)
    ensures Recomputed(th, Recomputed(th, m, attributes, skills), attributes, skills) == Recomputed(th, m, attributes, skills)
  {
    var once := Recomputed(th, m, attributes, skills);
    RecomputedLevels(th, m, attributes, skills);
    RecomputedLevels(th, once, attributes, skills);
  }

  // ---------------------------------------------------------------- skill updates

  /** Where the skill called name sits, if there is one. */
  function IndexOfSkill(skills: seq<Skill>, name: string): (r: Option<nat>)
    ensures r.Some? ==> r.value < |skills| && skills[r.value].name == name
    ensures r.None? ==> forall i :: 0 <= i < |skills| ==> skills[i].name != name
  {
    if skills == [] then None
    else if skills[|skills| - 1].name == name then Some(|skills| - 1)
    else IndexOfSkill(skills[..|skills| - 1], name)
  }

  /** A usable skill name: not null and not blank. */
  predicate UsableName(name: Option<string>) {
    name.Some? && !IsBlank(name.value)
  }

  /**
   * addSkill on the skill list: a new, usable name is appended with 0 XP and the given
   * attribute, or the default one when none is given.
   */
  function WithSkill(attributes: seq<string>, skills: seq<Skill>, name: Option<string>, attribute: Option<string>): (r: seq<Skill>)
    ensures r == skills <==> !UsableName(name) || IndexOfSkill(skills, name.value).Some?
  {
    if !UsableName(name) || IndexOfSkill(skills, name.value).Some? then skills
    else skills + [Skill(name.value, Some(attribute.GetOr(DefaultAttribute(attributes))), 0)]
  }

  /**
   * addSkill keeps every existing skill as it was, and a skill it adds has 0 XP and the
   * given attribute, or the first configured one, or "Intelligence".
   */
  lemma AddSkillKeepsOthers(attributes: seq<string>, skills: seq<Skill>, name: Option<string>, attribute: Option<string>)
    ensures var r := WithSkill(attributes, skills, name, attribute);
            |skills| <= |r| <= |skills| + 1 && r[..|skills|] == skills &&
            (|r| > |skills| ==> r[|skills|] == Skill(name.value, Some(if attribute.Some? then attribute.value
                                                         else if attributes != [] then attributes[0] else DefaultAttributeName), 0))
  {
  }

  /** addExpOnSkill treats an amount of 0 or less as 1. */
  function Effective(amount: int): (r: int)
    ensures r >= 1
    ensures amount >= 1 ==> r == amount
  {
    if amount <= 0 then 1 else amount
  }

  /**
   * addExpOnSkill on the skill list: the named skill (created with the default attribute
   * when missing) gains max(0, xp + amount) XP.
   */
  function WithExp(attributes: seq<string>, skills: seq<Skill>, name: Option<string>, amount: int): seq<Skill> {
    if !UsableName(name) then skills
    else
      match IndexOfSkill(skills, name.value)
      case Some(i) =>
        var xp := skills[i].experience + Effective(amount);
        skills[i := skills[i].(experience := if xp < 0 then 0 else xp)]
      case None => skills + [Skill(name.value, Some(DefaultAttribute(attributes)), Effective(amount))]
  }

  /**
   * addExpOnSkill changes only the named skill: its XP becomes max(0, old + amount) with
   * the amount raised to at least 1, or the amount itself for a skill it creates.
   */
  lemma AddExpTouchesOnlyNamed(attributes: seq<string>, skills: seq<Skill>, name: Option<string>, amount: int)
    requires UsableName(name)
    ensures var r := WithExp(attributes, skills, name, amount);
            IndexOfSkill(r, name.value).Some? &&
            (forall j :: 0 <= j < |skills| && skills[j].name != name.value ==> r[j] == skills[j]) &&
            match IndexOfSkill(skills, name.value)
            case Some(i) =>
              |r| == |skills| && r[i].attribute == skills[i].attribute &&
              r[i].experience == (if skills[i].experience + Effective(amount) < 0 then 0 else skills[i].experience + Effective(amount))
            case None =>
              r == skills + [Skill(name.value, Some(DefaultAttribute(attributes)), Effective(amount))]
  {
    var r := WithExp(attributes, skills, name, amount);
    if IndexOfSkill(skills, name.value).None? {
      assert r[|skills|].name == name.value;
    }
  }

  /**
   * addExpOnSkill in two steps: finding or creating the skill, then setting its XP at the
   * position where it was found.
   */
  lemma ExpAfterLookup(attributes: seq<string>, before: seq<Skill>, mid: seq<Skill>, n: string, amount: int, i: nat)
    requires UsableName(Some(n))
    requires mid == if IndexOfSkill(before, n).Some? then before else before + [Skill(n, Some(DefaultAttribute(attributes)), 0)]
    requires IndexOfSkill(mid, n) == Some(i)
    ensures var xp := mid[i].experience + Effective(amount);
            mid[i := mid[i].(experience := if xp < 0 then 0 else xp)] == WithExp(attributes, before, Some(n), amount)
  {
    if IndexOfSkill(before, n).None? {
      assert i == |before|;
    }
  }

  /** Raising one skill's XP never lowers an attribute's total. */
  lemma {:induction false} RaisingXpKeepsTotals(attributes: seq<string>, skills: seq<Skill>, i: nat, e: int, a: string)
    requires i < |skills| && e >= skills[i].experience
    ensures AttributeXp(attributes, skills[i := skills[i].(experience := e)], a) >= AttributeXp(attributes, skills, a)
    decreases |skills|
  {
    var r := skills[i := skills[i].(experience := e)];
    var n := |skills| - 1;
    assert r[..n] == if i < n then skills[..n][i := skills[i].(experience := e)] else skills[..n];
    if i < n {
      RaisingXpKeepsTotals(attributes, skills[..n], i, e, a);
    }
  }

  /** addExpOnSkill never lowers an attribute's summed XP, so never its level. */
  lemma AddExpNeverLowersLevels(th: seq<int>, attributes: seq<string>, skills: seq<Skill>, name: Option<string>, amount: int, a: string)
    requires ValidTable(th)
    ensures AttributeXp(attributes, WithExp(attributes, skills, name, amount), a) >= AttributeXp(attributes, skills, a)
    ensures LevelFor(th, AttributeXp(attributes, WithExp(attributes, skills, name, amount), a)) >= LevelFor(th, AttributeXp(attributes, skills, a))
  {
    var r := WithExp(attributes, skills, name, amount);
    if UsableName(name) {
      match IndexOfSkill(skills, name.value)
      case Some(i) =>
        var xp := skills[i].experience + Effective(amount);
        RaisingXpKeepsTotals(attributes, skills, i, if xp < 0 then 0 else xp, a);
      case None =>
        assert r[..|skills|] == skills;
    }
    LevelIsMonotone(th, AttributeXp(attributes, skills, a), AttributeXp(attributes, r, a));
  }

  // ---------------------------------------------------------------- defaults

  /** createDefaultLevels' attribute map: every attribute at 0. */
  function DefaultXp(attributes: seq<string>): (m: map<string, int>)
    ensures m.Keys == set a | a in attributes
    ensures forall a :: a in m ==> m[a] == 0
  {
    map a | a in attributes :: 0
  }

  /** ensureAttributesPresent: missing attributes are added at 0 and present ones keep their value. */
  function WithAttributes(m: map<string, int>, attributes: seq<string>): (r: map<string, int>)
    ensures r.Keys == m.Keys + (set a | a in attributes)
    ensures forall k :: k in m ==> r[k] == m[k]
    ensures forall a :: a in attributes && a !in m ==> r[a] == 0
  {
    map k | k in m.Keys + (set a | a in attributes) :: if k in m then m[k] else 0
  }

  /** Adding the attributes twice is adding them once. */
  lemma WithAttributesIsIdempotent(m: map<string, int>, attributes: seq<string>)
    ensures WithAttributes(WithAttributes(m, attributes), attributes) == WithAttributes(m, attributes)
  {
  }
}
