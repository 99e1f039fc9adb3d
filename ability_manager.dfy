// The ability screen of components/ability-manager.tsx: the ability-slot count
// read from the generic level table, the three career-filtered lists, and the
// gating of the unlock button. The slot cap lives only here; the engine's
// unlock does not consult it.

module AbilityManager {
  import opened Types
  import opened Lookup
  import opened Engine
  import opened Invariants

  /** The ability slots of the pilot's level in the generic level table, 0 without a row. */
  function MaxAbilitySlots(cat: Catalog, level: int): (r: int)
    ensures FindLevel(cat.levelProgression, level).None? ==> r == 0
    ensures FindLevel(cat.levelProgression, level).Some? ==> r == FindLevel(cat.levelProgression, level).value.abilitySlots
  {
    match FindLevel(cat.levelProgression, level)
    case Some(l) => l.abilitySlots
    case None => 0
  }

  /** Slots left: the level's slot count minus the abilities already unlocked (may be negative). */
  function AvailableAbilitySlots(cat: Catalog, p: Pilot): (r: int)
    ensures r + |p.unlockedAbilities| == MaxAbilitySlots(cat, p.level)
  {
    MaxAbilitySlots(cat, p.level) - |p.unlockedAbilities|
  }

  /** The ability's career list includes the career the pilot's career string names. */
  predicate Eligible(a: Ability, career: string)
    ensures Eligible(a, career) ==> exists c :: c in a.careers && CareerName(c) == career
  {
    ParseCareer(career).Some? && ParseCareer(career).value in a.careers
  }

  /** Eligibility is a match of the career's spelled name. */
  lemma EligibleMeansNamed(a: Ability, career: string)
    ensures Eligible(a, career) <==> exists c :: c in a.careers && CareerName(c) == career
  {
    if c :| c in a.careers && CareerName(c) == career {
      CareerNameRoundTrip(c);
    }
  }

  /** The three lists of the screen. */
  datatype Category = Unlocked | Available | Locked

  predicate InCategory(a: Ability, p: Pilot, c: Category)
    ensures InCategory(a, p, c) ==> Eligible(a, p.career)
  {
    && Eligible(a, p.career)
    && match c
       case Unlocked => a.id in p.unlockedAbilities
       case Available => a.id !in p.unlockedAbilities && a.requiredLevel <= p.level
       case Locked => a.requiredLevel > p.level
  }

  /** The catalog abilities in category `c` for pilot `p`, in catalog order. */
  function AbilitiesIn(abilities: seq<Ability>, p: Pilot, c: Category): (r: seq<Ability>)
    ensures forall a :: a in r <==> a in abilities && InCategory(a, p, c)
    ensures |r| <= |abilities|
  {
    if abilities == [] then []
    else if InCategory(abilities[0], p, c) then [abilities[0]] + AbilitiesIn(abilities[1..], p, c)
    else AbilitiesIn(abilities[1..], p, c)
  }

  /** Each list keeps catalog order and multiplicity: listing a concatenation lists each part in turn. */
  lemma {:induction false} AbilitiesInAppend(a: seq<Ability>, b: seq<Ability>, p: Pilot, c: Category)
    ensures AbilitiesIn(a + b, p, c) == AbilitiesIn(a, p, c) + AbilitiesIn(b, p, c)
  {
    if a == [] {
      assert a + b == b;
    } else {
      assert (a + b)[1..] == a[1..] + b;
      AbilitiesInAppend(a[1..], b, p, c);
    }
  }

  /** A single ability is kept whole or dropped; with `AbilitiesInAppend` this fixes the result of any list. */
  lemma AbilitiesInSingle(x: Ability, p: Pilot, c: Category)
    ensures AbilitiesIn([x], p, c) == if InCategory(x, p, c) then [x] else []
  {
    assert [x][1..] == [];
  }

  /** Every listed ability is open to the pilot's career; nothing is both available and
      locked, or both unlocked and available; every career ability at or below the
      pilot's level is unlocked or available. */
  lemma CategoriesPartition(abilities: seq<Ability>, p: Pilot, a: Ability)
    ensures forall c :: a in AbilitiesIn(abilities, p, c) ==> Eligible(a, p.career)
    ensures !(a in AbilitiesIn(abilities, p, Available) && a in AbilitiesIn(abilities, p, Locked))
    ensures !(a in AbilitiesIn(abilities, p, Unlocked) && a in AbilitiesIn(abilities, p, Available))
    ensures a in abilities && Eligible(a, p.career) ==>
              if a.requiredLevel <= p.level
              then a in AbilitiesIn(abilities, p, Unlocked) || a in AbilitiesIn(abilities, p, Available)
              else a in AbilitiesIn(abilities, p, Locked)
  {
  }

  /** The locked list does not depend on what has been unlocked. */
  lemma {:induction false} LockedIgnoresUnlocks(abilities: seq<Ability>, p: Pilot, unlocked: seq<string>)
    ensures AbilitiesIn(abilities, p.(unlockedAbilities := unlocked), Locked) == AbilitiesIn(abilities, p, Locked)
  {
    if abilities != [] {
      LockedIgnoresUnlocks(abilities[1..], p, unlocked);
    }
  }

  /** The unlock button of an available ability is enabled. */
  predicate UnlockEnabled(cat: Catalog, p: Pilot, a: Ability)
    ensures UnlockEnabled(cat, p, a) <==> p.xp >= a.xpCost && |p.unlockedAbilities| < MaxAbilitySlots(cat, p.level)
  {
    p.xp >= a.xpCost && AvailableAbilitySlots(cat, p) > 0
  }

  /** The "all ability slots are full" warning is shown. */
  predicate SlotsFullWarning(cat: Catalog, p: Pilot)
    ensures SlotsFullWarning(cat, p) ==> |p.unlockedAbilities| == MaxAbilitySlots(cat, p.level)
  {
    AvailableAbilitySlots(cat, p) == 0 && |AbilitiesIn(cat.abilities, p, Available)| > 0
  }

  /** The warning appears exactly when the pilot has used every slot of the level and some
      ability is on offer. */
  lemma SlotsFullWarningMeaning(cat: Catalog, p: Pilot)
    ensures SlotsFullWarning(cat, p) <==>
              |p.unlockedAbilities| == MaxAbilitySlots(cat, p.level)
              && exists a :: a in cat.abilities && InCategory(a, p, Available)
  {
    var avail := AbilitiesIn(cat.abilities, p, Available);
    if |avail| > 0 {
      assert avail[0] in avail;
    }
  }

  /** With catalog ability ids distinct, an enabled button on an available ability leads to
      an unlock the engine accepts, and the unlock uses exactly one slot. */
  lemma UnlockButtonAccepted(cat: Catalog, st: GameState, id: string, a: Ability)
    requires forall i, j :: 0 <= i < j < |cat.abilities| ==> cat.abilities[i].id != cat.abilities[j].id
    requires FindPilot(st.pilots, id).Some?
    requires a in AbilitiesIn(cat.abilities, FindPilot(st.pilots, id).value, Available)
    requires UnlockEnabled(cat, FindPilot(st.pilots, id).value, a)
    ensures var r := UnlockAbility(cat, st, id, a.id);
      && r.ok
      && FindPilot(r.state.pilots, id).Some?
      && AvailableAbilitySlots(cat, FindPilot(r.state.pilots, id).value)
         == AvailableAbilitySlots(cat, FindPilot(st.pilots, id).value) - 1
  {
    var k :| 0 <= k < |cat.abilities| && cat.abilities[k] == a;
    AbilityFoundById(cat.abilities, k);
    var r := UnlockAbility(cat, st, id, a.id);
    ViewAfterUpdate(st, r.state, id, Learn(a.id, a.xpCost), id);
  }

  lemma AbilityFoundById(abilities: seq<Ability>, k: int)
    requires forall i, j :: 0 <= i < j < |abilities| ==> abilities[i].id != abilities[j].id
    requires 0 <= k < |abilities|
    ensures FindAbility(abilities, abilities[k].id) == Some(abilities[k])
  {
    if k > 0 {
      AbilityFoundById(abilities[1..], k - 1);
    }
  }

  /** The engine does not consult the slot cap: with no slot left, an affordable ability
      that is not yet unlocked is still accepted, leaving the pilot over the cap. */
  lemma EngineIgnoresSlotCap(cat: Catalog, st: GameState, id: string, abilityId: string)
    requires FindPilot(st.pilots, id).Some? && FindAbility(cat.abilities, abilityId).Some?
    requires FindPilot(st.pilots, id).value.xp >= FindAbility(cat.abilities, abilityId).value.xpCost
    requires abilityId !in FindPilot(st.pilots, id).value.unlockedAbilities
    requires AvailableAbilitySlots(cat, FindPilot(st.pilots, id).value) <= 0
    ensures var r := UnlockAbility(cat, st, id, abilityId);
      r.ok && AvailableAbilitySlots(cat, FindPilot(r.state.pilots, id).value) < 0
  {
    var r := UnlockAbility(cat, st, id, abilityId);
    ViewAfterUpdate(st, r.state, id, Learn(abilityId, FindAbility(cat.abilities, abilityId).value.xpCost), id);
  }
}
