/**
 * One avatar's talent refresh (MysAvatar.refreshAvatarTalent): the skill list
 * sorted by id, the a/e/q slot assignment, and what is written back.
 */
module Talents {
  import opened Wrappers
  import opened Strings
  import opened Records

  /** One entry of the remote `skill_list`. */
  datatype Skill = Skill(id: int, name: string, maxLevel: int, level: int)

  /** The `talent` object before resolution; an absent slot is None. */
  datatype RawTalent = RawTalent(a: Option<int>, e: Option<int>, q: Option<int>)

  const NoSlots := RawTalent(None, None, None)
  /** The name fragment that marks the normal attack. */
  const BasicAttack := "普通攻击"
  /** Skills below this maximum level are neither e nor q. */
  const ElementalMaxLevel := 10

  /** `!talent.e`: the slot is unset or holds a falsy 0. */
  predicate Unfilled(o: Option<int>)
  {
    o.None? || o.value == 0
  }

  predicate IsBasic(s: Skill)
  {
    Contains(s.name, BasicAttack)
  }

  /** A skill that competes for e and q. */
  predicate Qualifies(s: Skill)
  {
    !IsBasic(s) && s.maxLevel >= ElementalMaxLevel
  }

  /** One iteration of the slot loop. */
  function SlotStep(t: RawTalent, s: Skill): RawTalent
  {
    if IsBasic(s) then t.(a := Some(s.level))
    else if s.maxLevel >= ElementalMaxLevel && Unfilled(t.e) then t.(e := Some(s.level))
    else if s.maxLevel >= ElementalMaxLevel && Unfilled(t.q) then t.(q := Some(s.level))
    else t
  }

  /** The slots after running the loop over a skill list. */
  function SlotFold(skills: seq<Skill>): RawTalent
    decreases |skills|
  {
    if skills == [] then NoSlots
    else SlotStep(SlotFold(skills[..|skills| - 1]), skills[|skills| - 1])
  }

  /** Slot a is the level of the last normal-attack skill, and unset when there is none. */
  lemma {:induction false} SlotAIsLastBasic(skills: seq<Skill>)
    ensures SlotFold(skills).a.None? <==> forall i :: 0 <= i < |skills| ==> !IsBasic(skills[i])
    ensures SlotFold(skills).a.Some? ==>
              exists i :: 0 <= i < |skills| && IsBasic(skills[i]) && SlotFold(skills).a == Some(skills[i].level)
                          && forall j :: i < j < |skills| ==> !IsBasic(skills[j])
    decreases |skills|
  {
    if skills != [] {
      var init := skills[..|skills| - 1];
      var last := |skills| - 1;
      SlotAIsLastBasic(init);
      if !IsBasic(skills[last]) {
        assert SlotFold(skills).a == SlotFold(init).a;
        assert forall i :: 0 <= i < |init| ==> init[i] == skills[i];
      }
    }
  }

  /** The levels of the qualifying skills, in order. */
  function QualifiedLevels(skills: seq<Skill>): (r: seq<int>)
    ensures (forall i :: 0 <= i < |skills| ==> skills[i].level != 0) ==> forall k :: 0 <= k < |r| ==> r[k] != 0
    decreases |skills|
  {
    if skills == [] then []
    else
      var rest := QualifiedLevels(skills[..|skills| - 1]);
      var s := skills[|skills| - 1];
      if Qualifies(s) then rest + [s.level] else rest
  }

  function Nth(xs: seq<int>, k: nat): Option<int>
  {
    if k < |xs| then Some(xs[k]) else None
  }

  /**
   * With non-zero levels, e is the first qualifying skill and q the second;
   * normal attacks and skills below maximum level 10 take neither.
   */
  lemma {:induction false} SlotsEAndQ(skills: seq<Skill>)
    requires forall i :: 0 <= i < |skills| ==> skills[i].level != 0
    ensures SlotFold(skills).e == Nth(QualifiedLevels(skills), 0)
    ensures SlotFold(skills).q == Nth(QualifiedLevels(skills), 1)
    decreases |skills|
  {
    if skills != [] {
      var init := skills[..|skills| - 1];
      SlotsEAndQ(init);
    }
  }

  predicate SortedById(s: seq<Skill>)
  {
    forall i, j :: 0 <= i < j < |s| ==> s[i].id <= s[j].id
  }

  /** Insert `x` before the first skill whose id is not smaller. */
  function InsertById(x: Skill, s: seq<Skill>): (r: seq<Skill>)
    ensures |r| == |s| + 1
    decreases |s|
  {
    if s == [] then [x]
    else if x.id <= s[0].id then [x] + s
    else [s[0]] + InsertById(x, s[1..])
  }

  /** Inserting into a sorted list keeps it sorted; the head is `x` or the old head. */
  lemma {:induction false} InsertKeepsSorted(x: Skill, s: seq<Skill>)
    requires SortedById(s)
    ensures SortedById(InsertById(x, s))
    ensures InsertById(x, s)[0] == x || (|s| > 0 && InsertById(x, s)[0] == s[0])
    decreases |s|
  {
    if s != [] && x.id > s[0].id {
      InsertKeepsSorted(x, s[1..]);
      assert s[0].id <= InsertById(x, s[1..])[0].id;
    }
  }

  /** Inserting adds exactly `x`. */
  lemma {:induction false} InsertAddsOne(x: Skill, s: seq<Skill>)
    ensures multiset(InsertById(x, s)) == multiset(s) + multiset{x}
    decreases |s|
  {
    if s != [] && x.id > s[0].id {
      InsertAddsOne(x, s[1..]);
      assert s == [s[0]] + s[1..];
    }
  }

  /** `lodash.orderBy(skill_list, ['id'], ['asc'])`, as an insertion sort. */
  function SortById(s: seq<Skill>): (r: seq<Skill>)
    ensures |r| == |s|
    decreases |s|
  {
    if s == [] then [] else InsertById(s[0], SortById(s[1..]))
  }

  /** The skills come out in ascending id order. */
  lemma {:induction false} SortByIdSorted(s: seq<Skill>)
    ensures SortedById(SortById(s))
    decreases |s|
  {
    if s != [] {
      SortByIdSorted(s[1..]);
      InsertKeepsSorted(s[0], SortById(s[1..]));
    }
  }

  /** The skills come out unchanged as a multiset: nothing is dropped or duplicated. */
  lemma {:induction false} SortByIdPermutes(s: seq<Skill>)
    ensures multiset(SortById(s)) == multiset(s)
    decreases |s|
  {
    if s != [] {
      SortByIdPermutes(s[1..]);
      InsertAddsOne(s[0], SortById(s[1..]));
      assert s == [s[0]] + s[1..];
    }
  }

  /** The slots from a detail response; a falsy response or missing list gives none. */
  function RawTalentOf(response: Option<seq<Skill>>): RawTalent
  {
    if response.Some? then SlotFold(SortById(response.value)) else NoSlots
  }

  /**
   * The resolver sees slot a filled exactly when the response lists a normal
   * attack, and then with the level of the normal attack with the highest id.
   */
  lemma RawTalentBasic(skills: seq<Skill>)
    ensures RawTalentOf(Some(skills)).a.None? <==> forall i :: 0 <= i < |skills| ==> !IsBasic(skills[i])
    ensures RawTalentOf(Some(skills)).a.Some? ==>
              exists i :: 0 <= i < |skills| && IsBasic(skills[i]) && RawTalentOf(Some(skills)).a == Some(skills[i].level)
                          && forall j :: 0 <= j < |skills| && IsBasic(skills[j]) ==> skills[j].id <= skills[i].id
  {
    var t := SortById(skills);
    SortedSameElements(skills);
    SlotAIsLastBasic(t);
    if exists i :: 0 <= i < |skills| && IsBasic(skills[i]) {
      var i :| 0 <= i < |skills| && IsBasic(skills[i]);
      assert skills[i] in t;
    }
    if SlotFold(t).a.Some? {
      var i :| 0 <= i < |t| && IsBasic(t[i]) && SlotFold(t).a == Some(t[i].level)
               && forall j :: i < j < |t| ==> !IsBasic(t[j]);
      LastBasicHasTopId(skills, t, i);
    }
  }

  /** Sorting keeps exactly the same skills, and puts them in id order. */
  lemma SortedSameElements(skills: seq<Skill>)
    ensures forall x :: x in SortById(skills) <==> x in skills
    ensures SortedById(SortById(skills))
  {
    SortByIdSorted(skills);
    SortByIdPermutes(skills);
    forall x ensures x in SortById(skills) <==> x in skills {
      assert x in SortById(skills) <==> x in multiset(SortById(skills));
      assert x in skills <==> x in multiset(skills);
    }
  }

  /** The last normal attack of the sorted list has the highest id among the input's normal attacks. */
  lemma LastBasicHasTopId(skills: seq<Skill>, t: seq<Skill>, i: int)
    requires forall x :: x in t <==> x in skills
    requires SortedById(t)
    requires 0 <= i < |t| && IsBasic(t[i]) && forall j :: i < j < |t| ==> !IsBasic(t[j])
    ensures exists i' :: 0 <= i' < |skills| && skills[i'] == t[i]
    ensures forall j :: 0 <= j < |skills| && IsBasic(skills[j]) ==> skills[j].id <= t[i].id
  {
    assert t[i] in skills;
    forall j | 0 <= j < |skills| && IsBasic(skills[j]) ensures skills[j].id <= t[i].id {
      assert skills[j] in t;
      var j' :| 0 <= j' < |t| && t[j'] == skills[j];
    }
  }

  /**
   * `char.getAvatarTalent(talent, cons, 'original')`: the character's rule,
   * which may add constellation boosts; None is a falsy result.
   */
  type Resolver = (Character, RawTalent, int) -> Option<TalentLevels>

  /** What one refresh reports, whether it made the remote call, and the avatar after it. */
  datatype TalentCall = TalentCall(ok: bool, called: bool, avatar: Avatar)

  /** refreshAvatarTalent with a self-owned session. */
  function TalentOutcome(av: Avatar, response: Option<seq<Skill>>, resolve: Resolver, now: int): (r: TalentCall)
    ensures r.called <==> av.character.Some?
    ensures !r.called ==> !r.ok && r.avatar == av
    ensures av.character.Some? ==> r.avatar == SetTalent(av, resolve(av.character.value, RawTalentOf(response), av.cons), now)
    ensures r.ok <==> r.called && r.avatar.talent.Some?
    ensures r.avatar.id == av.id && r.avatar.artis == av.artis && r.avatar.character == av.character
  {
    match av.character
    case None => TalentCall(false, false, av)
    case Some(c) =>
      var resolved := resolve(c, RawTalentOf(response), av.cons);
      TalentCall(resolved.Some?, true, SetTalent(av, resolved, now))
  }
}
