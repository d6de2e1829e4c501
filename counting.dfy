/** The counters MysAvatar.getInfo accumulates over the cached avatars. */
module AvatarCounts {
  import opened Wrappers
  import opened Tables
  import opened Records

  /** The cached avatars in the order `forEachAvatar` visits them, by ascending key. */
  function AvatarList(m: map<int, Avatar>): (avs: seq<Avatar>)
    ensures |avs| == |m|
    ensures forall i :: 0 <= i < |avs| ==> SortedKeys(m.Keys)[i] in m && avs[i] == m[SortedKeys(m.Keys)[i]]
  {
    var keys := SortedKeys(m.Keys);
    seq(|keys|, i requires 0 <= i < |keys| => m[keys[i]])
  }

  /** Every cached avatar is visited exactly once, in ascending id order. */
  lemma AvatarListEnumerates(m: map<int, Avatar>)
    requires AvatarsValid(m)
    ensures forall i :: 0 <= i < |AvatarList(m)| ==> AvatarList(m)[i].id in m && m[AvatarList(m)[i].id] == AvatarList(m)[i]
    ensures forall k :: k in m ==> exists i :: 0 <= i < |AvatarList(m)| && AvatarList(m)[i] == m[k]
    ensures forall i, j :: 0 <= i < j < |AvatarList(m)| ==> AvatarList(m)[i].id < AvatarList(m)[j].id
  {
    var keys := SortedKeys(m.Keys);
    var avs := AvatarList(m);
    forall k | k in m ensures exists i :: 0 <= i < |avs| && avs[i] == m[k] {
      var i :| 0 <= i < |keys| && keys[i] == k;
      assert avs[i] == m[k];
    }
  }

  predicate IsFiveStar(a: Avatar)
  {
    Star(a) == 5
  }

  /** `avatar5`: the 5-star avatars. */
  function FiveStarCount(avs: seq<Avatar>): nat
    decreases |avs|
  {
    if avs == [] then 0
    else FiveStarCount(avs[..|avs| - 1]) + (if IsFiveStar(avs[|avs| - 1]) then 1 else 0)
  }

  /**
   * One avatar's share of `goldCount`: constellations plus one for a 5-star
   * that is not the traveler, plus the refinement of a 5-star weapon.
   */
  function GoldShare(a: Avatar): int
  {
    (if IsFiveStar(a) && !(a.character.Some? && a.character.value.isTraveler) then a.cons + 1 else 0)
    + (if a.weapon.Some? && a.weapon.value.star == 5 then a.weapon.value.affix else 0)
  }

  function GoldCount(avs: seq<Avatar>): int
    decreases |avs|
  {
    if avs == [] then 0 else GoldCount(avs[..|avs| - 1]) + GoldShare(avs[|avs| - 1])
  }

  /** Counting one more avatar. */
  lemma CountsSnoc(avs: seq<Avatar>, i: int)
    requires 0 <= i < |avs|
    ensures FiveStarCount(avs[..i + 1]) == FiveStarCount(avs[..i]) + (if IsFiveStar(avs[i]) then 1 else 0)
    ensures GoldCount(avs[..i + 1]) == GoldCount(avs[..i]) + GoldShare(avs[i])
  {
    assert avs[..i + 1][..i] == avs[..i];
  }

  /** The 5-star count never exceeds the avatar count. */
  lemma {:induction false} FiveStarsAmongAll(avs: seq<Avatar>)
    ensures FiveStarCount(avs) <= |avs|
    decreases |avs|
  {
    if avs != [] {
      FiveStarsAmongAll(avs[..|avs| - 1]);
    }
  }

  /** Both counters add up over any split of the list. */
  lemma {:induction false} CountsAdd(xs: seq<Avatar>, ys: seq<Avatar>)
    ensures FiveStarCount(xs + ys) == FiveStarCount(xs) + FiveStarCount(ys)
    ensures GoldCount(xs + ys) == GoldCount(xs) + GoldCount(ys)
    decreases |ys|
  {
    if ys != [] {
      var init := ys[..|ys| - 1];
      assert (xs + ys)[..|xs + ys| - 1] == xs + init;
      assert (xs + ys)[|xs + ys| - 1] == ys[|ys| - 1];
      CountsAdd(xs, init);
    } else {
      assert xs + ys == xs;
    }
  }

  /** The `avatar` stat before counting; a missing value is None. */
  function PriorAvatarStat(info: Option<Info>): Option<int>
  {
    if info.Some? && "avatar" in info.value.stats then Some(info.value.stats["avatar"]) else None
  }

  /** `Math.max(stats.avatar, avatarCount)`, where a missing stat yields NaN, shown as None. */
  function AvatarStat(prior: Option<int>, count: nat): (r: Option<int>)
    ensures r.None? <==> prior.None?
    ensures r.Some? ==> r.value >= count && r.value >= prior.value
    ensures r.Some? ==> r.value == count || r.value == prior.value
  {
    match prior
    case None => None
    case Some(p) => Some(if p >= count then p else count)
  }

  /** What getInfo writes into the stats: `avatar`, `goldCount` and `avatar5`. */
  datatype InfoCounts = InfoCounts(avatar: Option<int>, goldCount: int, avatar5: nat)
}
