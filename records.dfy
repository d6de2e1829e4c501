/**
 * The player's records: avatars and the summary blob, the patch that
 * `player.setAvatar` merges into an avatar, and the remote session handle.
 */
module Records {
  import opened Wrappers
  import opened Staleness

  datatype Weapon = Weapon(name: string, star: int, level: int, promote: int, affix: int)

  /** An artifact in one of the five slots. */
  datatype Arti = Arti(name: string, level: int)

  /** Static knowledge about a playable character. */
  datatype Character = Character(id: int, star: int, isTraveler: bool)

  /** A talent as the character's resolution rule returns it. */
  datatype TalentLevels = TalentLevels(a: int, e: int, q: int)

  /** Level and nickname from a remote `role` object. */
  datatype Role = Role(level: int, nickname: string)

  /** The remote session attached to the player's request (`e._mys`). */
  datatype Session = Session(selfCookie: bool)

  /** `player.info` as the summary merge stores it. */
  datatype Info = Info(homeLevel: Option<int>, stats: map<string, int>, exploration: map<string, int>)

  /**
   * One cached avatar. `costume` 0 stands for no costume; `talent` None is a
   * missing or falsy talent; `talentStamp` is the avatar's `_talent`.
   */
  datatype Avatar = Avatar(
    id: int, level: int, cons: int, fetter: int, elem: string, costume: int,
    weapon: Option<Weapon>, artis: map<int, Arti>,
    talent: Option<TalentLevels>, talentStamp: Timestamp,
    isProfile: bool, character: Option<Character>, source: string)

  /** The fields a merge step hands to `player.setAvatar`. */
  datatype AvatarPatch = AvatarPatch(
    id: int, level: int, cons: int, fetter: int, elem: string, costume: int,
    weapon: Option<Weapon>, artis: Option<map<int, Arti>>)

  predicate HasTalent(a: Avatar)
  {
    a.talent.Some?
  }

  /** The avatar's rarity, that of its character; unknown characters have none. */
  function Star(a: Avatar): int
  {
    if a.character.Some? then a.character.value.star else 0
  }

  predicate SlotsInRange(artis: map<int, Arti>)
  {
    forall k :: k in artis ==> 1 <= k <= 5
  }

  /** Keys are the avatars' ids and every artifact map uses slots 1..5 only. */
  predicate AvatarsValid(m: map<int, Avatar>)
  {
    forall k :: k in m ==> m[k].id == k && SlotsInRange(m[k].artis)
  }

  predicate PatchValid(p: AvatarPatch)
  {
    p.artis.Some? ==> SlotsInRange(p.artis.value)
  }

  function NewAvatar(id: int, catalog: map<int, Character>): Avatar
  {
    Avatar(id, 0, 0, 0, "", 0, None, map[], None, Unset, false,
           if id in catalog then Some(catalog[id]) else None, "")
  }

  /** Field-wise merge: what the patch carries replaces what the avatar had. */
  function Merge(base: Avatar, p: AvatarPatch, source: string): Avatar
  {
    base.(level := p.level, cons := p.cons, fetter := p.fetter, elem := p.elem,
          costume := if p.costume != 0 then p.costume else base.costume,
          weapon := if p.weapon.Some? then p.weapon else base.weapon,
          artis := if p.artis.Some? then p.artis.value else base.artis,
          source := source)
  }

  /** `player.setAvatar(patch, source)`: insert or update the avatar with the patch's id. */
  function Upsert(m: map<int, Avatar>, catalog: map<int, Character>, p: AvatarPatch, source: string): (r: map<int, Avatar>)
    ensures r.Keys == m.Keys + {p.id}
    ensures forall k :: k in m && k != p.id ==> r[k] == m[k]
    ensures AvatarsValid(m) ==> r[p.id].id == p.id
    ensures r[p.id].level == p.level && r[p.id].cons == p.cons
    ensures r[p.id].fetter == p.fetter && r[p.id].elem == p.elem && r[p.id].source == source
    ensures p.artis.Some? ==> r[p.id].artis == p.artis.value
    ensures p.weapon.Some? ==> r[p.id].weapon == p.weapon
    ensures p.id in m && p.artis.None? ==> r[p.id].artis == m[p.id].artis
    ensures p.id in m && p.weapon.None? ==> r[p.id].weapon == m[p.id].weapon
    ensures p.costume != 0 ==> r[p.id].costume == p.costume
    ensures p.id in m && p.costume == 0 ==> r[p.id].costume == m[p.id].costume
    ensures p.id in m ==> r[p.id].isProfile == m[p.id].isProfile && r[p.id].talent == m[p.id].talent
                          && r[p.id].talentStamp == m[p.id].talentStamp && r[p.id].character == m[p.id].character
    ensures p.id !in m ==> !r[p.id].isProfile && r[p.id].talent.None? && r[p.id].talentStamp == Unset
                           && (r[p.id].character.Some? <==> p.id in catalog)
    ensures AvatarsValid(m) && PatchValid(p) ==> AvatarsValid(r)
  {
    var base := if p.id in m then m[p.id] else NewAvatar(p.id, catalog);
    m[p.id := Merge(base, p, source)]
  }

  /** The ids a list of patches touches. */
  function PatchIds(ps: seq<AvatarPatch>): (ids: set<int>)
    ensures forall i :: 0 <= i < |ps| ==> ps[i].id in ids
    ensures forall k :: k in ids ==> exists i :: 0 <= i < |ps| && ps[i].id == k
  {
    set i | 0 <= i < |ps| :: ps[i].id
  }

  /** Upserting a list of patches in order. */
  function UpsertAll(m: map<int, Avatar>, catalog: map<int, Character>, ps: seq<AvatarPatch>, source: string): map<int, Avatar>
    decreases |ps|
  {
    if ps == [] then m
    else Upsert(UpsertAll(m, catalog, ps[..|ps| - 1], source), catalog, ps[|ps| - 1], source)
  }

  /**
   * Upserting only adds the patched ids, never drops a key, and leaves every
   * avatar that no patch names as it was.
   */
  lemma {:induction false} UpsertAllFrame(m: map<int, Avatar>, catalog: map<int, Character>, ps: seq<AvatarPatch>, source: string)
    ensures UpsertAll(m, catalog, ps, source).Keys == m.Keys + PatchIds(ps)
    ensures forall k :: k in m && k !in PatchIds(ps) ==> UpsertAll(m, catalog, ps, source)[k] == m[k]
    ensures forall k :: k in m ==> UpsertAll(m, catalog, ps, source)[k].isProfile == m[k].isProfile
    decreases |ps|
  {
    if ps != [] {
      UpsertAllFrame(m, catalog, ps[..|ps| - 1], source);
      PatchIdsSnoc(ps);
    }
  }

  /**
   * A patch carries no talent data: every cached avatar keeps its talent,
   * its talent stamp and its character through any list of upserts.
   */
  lemma {:induction false} UpsertAllKeepsTalent(m: map<int, Avatar>, catalog: map<int, Character>, ps: seq<AvatarPatch>, source: string, k: int)
    requires k in m
    ensures k in UpsertAll(m, catalog, ps, source)
    ensures UpsertAll(m, catalog, ps, source)[k].talent == m[k].talent
    ensures UpsertAll(m, catalog, ps, source)[k].talentStamp == m[k].talentStamp
    ensures UpsertAll(m, catalog, ps, source)[k].character == m[k].character
    decreases |ps|
  {
    if ps != [] {
      UpsertAllKeepsTalent(m, catalog, ps[..|ps| - 1], source, k);
    }
  }

  lemma PatchIdsSnoc(ps: seq<AvatarPatch>)
    requires ps != []
    ensures PatchIds(ps) == PatchIds(ps[..|ps| - 1]) + {ps[|ps| - 1].id}
  {
    var init := ps[..|ps| - 1];
    forall k | k in PatchIds(ps) ensures k in PatchIds(init) + {ps[|ps| - 1].id} {
      var i :| 0 <= i < |ps| && ps[i].id == k;
      if i < |ps| - 1 { assert init[i] == ps[i]; }
    }
    forall k | k in PatchIds(init) ensures k in PatchIds(ps) {
      var i :| 0 <= i < |init| && init[i].id == k;
      assert ps[i] == init[i];
    }
  }

  /** Upserting patches that respect the invariant keeps it. */
  lemma {:induction false} UpsertAllValid(m: map<int, Avatar>, catalog: map<int, Character>, ps: seq<AvatarPatch>, source: string)
    requires AvatarsValid(m)
    requires forall i :: 0 <= i < |ps| ==> PatchValid(ps[i])
    ensures AvatarsValid(UpsertAll(m, catalog, ps, source))
    decreases |ps|
  {
    if ps != [] {
      UpsertAllValid(m, catalog, ps[..|ps| - 1], source);
    }
  }

  /** The avatar under an id carries the fields of the last patch with that id. */
  lemma {:induction false} UpsertAllLastWins(m: map<int, Avatar>, catalog: map<int, Character>, ps: seq<AvatarPatch>, source: string, i: int)
    requires 0 <= i < |ps|
    requires forall j :: i < j < |ps| ==> ps[j].id != ps[i].id
    ensures ps[i].id in UpsertAll(m, catalog, ps, source)
    ensures UpsertAll(m, catalog, ps, source)[ps[i].id].level == ps[i].level
    ensures UpsertAll(m, catalog, ps, source)[ps[i].id].elem == ps[i].elem
    ensures UpsertAll(m, catalog, ps, source)[ps[i].id].cons == ps[i].cons
    ensures UpsertAll(m, catalog, ps, source)[ps[i].id].fetter == ps[i].fetter
    ensures ps[i].costume != 0 ==> UpsertAll(m, catalog, ps, source)[ps[i].id].costume == ps[i].costume
    ensures ps[i].artis.Some? ==> UpsertAll(m, catalog, ps, source)[ps[i].id].artis == ps[i].artis.value
    ensures ps[i].weapon.Some? ==> UpsertAll(m, catalog, ps, source)[ps[i].id].weapon == ps[i].weapon
    decreases |ps|
  {
    if i < |ps| - 1 {
      var init := ps[..|ps| - 1];
      UpsertAllLastWins(m, catalog, init, source, i);
    }
  }

  /** `avatar.setTalent(talent, 'original', true)`: store the talent and stamp it now. */
  function SetTalent(a: Avatar, t: Option<TalentLevels>, now: int): (r: Avatar)
    ensures r.talent == t && r.talentStamp == At(now)
    ensures r.(talent := a.talent, talentStamp := a.talentStamp) == a
  {
    a.(talent := t, talentStamp := At(now))
  }
}
