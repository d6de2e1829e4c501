/**
 * The MysAvatar operations on a player: syncing character detail and the
 * account summary from the miHoYo community service, refreshing talents
 * behind a failure breaker, and the counters shown by the summary page.
 * Remote answers and the clock are parameters.
 */
module MysAvatar {
  import opened Wrappers
  import opened Tables
  import opened Strings
  import opened Staleness
  import opened Records
  import opened Players
  import opened DetailMerge
  import opened SummaryMerge
  import opened Talents
  import opened TalentRefresh
  import opened AvatarCounts

  /** How a sync ended: `false`, `undefined` after a merge, or a thrown error. */
  datatype SyncOutcome = NoSession | Fresh | NoData | Merged | Threw

  /** Both syncs wait an hour at level 0 and two minutes at level 1; level 2 always fetches. */
  const SyncThresholds: Thresholds := map[0 := 60, 1 := 2, 2 := 0]

  /** The artifact map of one remote avatar. */
  method BuildArtis(rels: seq<Reliquary>) returns (artis: map<int, Arti>)
    ensures artis == ArtisOf(rels)
  {
    artis := map[];
    for i := 0 to |rels|
      invariant artis == ArtisOf(rels[..i])
    {
      assert rels[..i + 1][..i] == rels[..i];
      var re := rels[i];
      if re.name != "" && re.posName in PosIdx {
        artis := artis[PosIdx[re.posName] := Arti(re.name, re.level)];
      }
    }
    assert rels[..|rels|] == rels;
  }

  /**
   * The per-avatar loop of setMysCharData: upsert every remote avatar with
   * its weapon and artifacts, and collect the distinct ids (`charIds`).
   */
  method MergeRoster(player: Player, list: seq<RemoteAvatar>) returns (charIds: set<int>)
    requires player.Valid()
    modifies player`avatars
    ensures player.Valid()
    ensures player.avatars == UpsertAll(old(player.avatars), player.catalog, DetailPatches(list), DetailSource)
    ensures charIds == RosterIds(list)
  {
    charIds := {};
    for i := 0 to |list|
      invariant player.Valid()
      invariant player.avatars == UpsertAll(old(player.avatars), player.catalog, DetailPatches(list[..i]), DetailSource)
      invariant charIds == RosterIds(list[..i])
    {
      DetailPatchesSnoc(list, i);
      var ds := list[i];
      var artis := BuildArtis(ds.reliquaries);
      var costume := if |ds.costumes| > 0 then ds.costumes[0] else 0;
      var patch := AvatarPatch(ds.id, ds.level, ds.cons, ds.fetter, ToLower(ds.element),
                               costume, Some(ds.weapon), Some(artis));
      assert patch == DetailPatch(ds);
      player.SetAvatar(patch, DetailSource);
      charIds := charIds + {ds.id};
    }
    assert list[..|list|] == list;
  }

  /** Drop every cached avatar that is neither in `charIds` nor profile-pinned. */
  method EvictUnlisted(player: Player, charIds: set<int>)
    requires player.Valid()
    modifies player`avatars
    ensures player.Valid()
    ensures player.avatars == Evict(old(player.avatars), charIds)
  {
    ghost var merged := player.avatars;
    var rest := player.avatars.Keys;
    while rest != {}
      invariant rest <= merged.Keys
      invariant player.Valid()
      invariant player.avatars == map k | k in merged && (k in rest || k in charIds || merged[k].isProfile) :: merged[k]
      decreases rest
    {
      var k := MinKey(rest);
      var avatar := player.avatars[k];
      if avatar.id !in charIds && !avatar.isProfile {
        player.avatars := player.avatars - {avatar.id};
      }
      rest := rest - {k};
    }
  }

  /**
   * setMysCharData: store the role, merge the roster, and when more than
   * eight distinct ids came back, evict the unlisted avatars. A missing
   * role throws before anything changes (`ok` is false).
   */
  method SetMysCharData(player: Player, data: CharData, now: int) returns (ok: bool)
    requires player.Valid()
    modifies player`level, player`name, player`avatars, player`mysStamp, player`saves
    ensures player.Valid()
    ensures ok <==> data.role.Some?
    ensures !ok ==> unchanged(player)
    ensures ok ==> player.level == data.role.value.level && player.name == data.role.value.nickname
    ensures ok ==> player.avatars == DetailAvatars(old(player.avatars), player.catalog, data.avatars.GetOr([]))
    ensures ok ==> player.mysStamp == At(now) && player.saves == old(player.saves) + 1
  {
    if data.role.None? {
      return false;
    }
    var role := data.role.value;
    player.SetBasicData(role.level, role.nickname);
    var charIds := MergeRoster(player, data.avatars.GetOr([]));
    if |charIds| > FullRoster {
      EvictUnlisted(player, charIds);
    }
    player.mysStamp := At(now);
    player.Save();
    ok := true;
  }

  /**
   * refreshMysDetail: without a session, while the detail is fresh, or when
   * the service returns no avatar list, nothing changes; otherwise the
   * detail is merged (or a missing role throws).
   */
  method RefreshMysDetail(player: Player, force: Force, session: Option<Session>,
                          fetched: Option<CharData>, now: int) returns (outcome: SyncOutcome)
    requires player.Valid()
    modifies player`level, player`name, player`avatars, player`mysStamp, player`saves
    ensures player.Valid()
    ensures outcome == NoSession <==> session.None?
    ensures outcome == Fresh <==> session.Some? && !NeedRefresh(old(player.mysStamp), force, SyncThresholds, now)
    ensures outcome == NoData <==> session.Some? && NeedRefresh(old(player.mysStamp), force, SyncThresholds, now)
                                   && (fetched.None? || fetched.value.avatars.None?)
    ensures outcome == Threw <==> session.Some? && NeedRefresh(old(player.mysStamp), force, SyncThresholds, now)
                                  && fetched.Some? && fetched.value.avatars.Some? && fetched.value.role.None?
    ensures outcome != Merged ==> unchanged(player)
    ensures outcome == Merged ==>
              player.level == fetched.value.role.value.level && player.name == fetched.value.role.value.nickname
              && player.avatars == DetailAvatars(old(player.avatars), player.catalog, fetched.value.avatars.value)
              && player.mysStamp == At(now) && player.saves == old(player.saves) + 1
  {
    if session.None? {
      return NoSession;
    }
    if !NeedRefresh(player.mysStamp, force, SyncThresholds, now) {
      return Fresh;
    }
    if fetched.None? || fetched.value.avatars.None? {
      return NoData;
    }
    var ok := SetMysCharData(player, fetched.value, now);
    outcome := if ok then Merged else Threw;
  }

  /** The stats table of the summary. */
  method BuildStats(pairs: seq<(string, int)>, camel: string -> string) returns (stats: map<string, int>)
    ensures stats == StatsOf(pairs, camel)
  {
    stats := map[];
    for i := 0 to |pairs|
      invariant stats == StatsOf(pairs[..i], camel)
    {
      StatsOfSnoc(pairs, camel, i);
      var key := ReplaceFirst(pairs[i].0, NumberSuffix);
      if key != AbyssKey {
        stats := stats[camel(key) := pairs[i].1];
      }
    }
    assert pairs[..|pairs|] == pairs;
  }

  /** The exploration table of the summary. */
  method BuildExploration(list: seq<Exploration>) returns (exploration: map<string, int>)
    ensures exploration == ExplorationOf(list)
  {
    exploration := map[];
    for i := 0 to |list|
      invariant exploration == ExplorationOf(list[..i])
    {
      assert list[..i + 1][..i] == list[..i];
      var ds := list[i];
      if ds.name == Chasm {
        continue;
      }
      exploration := exploration[if ds.name == ChasmMines then Chasm else ds.name := ds.percentage];
    }
    assert list[..|list|] == list;
  }

  /** The avatar loop of setMysInfo: upsert each stub, keeping weapons and artifacts. */
  method MergeStubs(player: Player, list: seq<RemoteStub>)
    requires player.Valid()
    modifies player`avatars
    ensures player.Valid()
    ensures player.avatars == UpsertAll(old(player.avatars), player.catalog, StubPatches(list), SummarySource)
  {
    for i := 0 to |list|
      invariant player.Valid()
      invariant player.avatars == UpsertAll(old(player.avatars), player.catalog, StubPatches(list[..i]), SummarySource)
    {
      assert StubPatches(list[..i + 1])[..i] == StubPatches(list[..i]);
      var ds := list[i];
      var patch := AvatarPatch(ds.id, ds.level, ds.cons, ds.fetter, ToLower(ds.element), 0, None, None);
      assert patch == StubPatch(ds);
      player.SetAvatar(patch, SummarySource);
    }
    assert list[..|list|] == list;
  }

  /**
   * setMysInfo: store the role when there is one, upsert the avatar stubs
   * (keeping weapons and artifacts), and replace the summary blob.
   */
  method SetMysInfo(player: Player, data: IndexData, camel: string -> string, now: int)
    requires player.Valid()
    modifies player`level, player`name, player`avatars, player`info, player`infoStamp, player`saves
    ensures player.Valid()
    ensures data.role.Some? ==> player.level == data.role.value.level && player.name == data.role.value.nickname
    ensures data.role.None? ==> player.level == old(player.level) && player.name == old(player.name)
    ensures player.avatars == UpsertAll(old(player.avatars), player.catalog, StubPatches(data.avatars), SummarySource)
    ensures player.info == Some(SummaryInfo(data, camel))
    ensures player.infoStamp == At(now) && player.saves == old(player.saves) + 1
  {
    var homeLevel := if |data.homes| > 0 then Some(data.homes[0].level) else None;
    if data.role.Some? {
      player.SetBasicData(data.role.value.level, data.role.value.nickname);
    }
    MergeStubs(player, data.avatars);
    var stats := BuildStats(data.stats, camel);
    var exploration := BuildExploration(data.explorations);
    player.info := Some(Info(homeLevel, stats, exploration));
    player.infoStamp := At(now);
    player.Save();
  }

  /**
   * refreshMysInfo: without a session, while the summary is fresh, or when
   * the service returns no role, nothing changes; otherwise it is merged.
   */
  method RefreshMysInfo(player: Player, force: Force, session: Option<Session>,
                        fetched: Option<IndexData>, camel: string -> string, now: int) returns (outcome: SyncOutcome)
    requires player.Valid()
    modifies player`level, player`name, player`avatars, player`info, player`infoStamp, player`saves
    ensures player.Valid()
    ensures outcome != Threw
    ensures outcome == NoSession <==> session.None?
    ensures outcome == Fresh <==> session.Some? && !NeedRefresh(old(player.infoStamp), force, SyncThresholds, now)
    ensures outcome == Merged <==> session.Some? && NeedRefresh(old(player.infoStamp), force, SyncThresholds, now)
                                   && fetched.Some? && fetched.value.role.Some?
    ensures outcome != Merged ==> unchanged(player)
    ensures outcome == Merged ==>
              player.info == Some(SummaryInfo(fetched.value, camel))
              && player.infoStamp == At(now) && player.saves == old(player.saves) + 1
              && player.level == fetched.value.role.value.level && player.name == fetched.value.role.value.nickname
              && player.avatars == UpsertAll(old(player.avatars), player.catalog, StubPatches(fetched.value.avatars), SummarySource)
  {
    if session.None? {
      return NoSession;
    }
    if !NeedRefresh(player.infoStamp, force, SyncThresholds, now) {
      return Fresh;
    }
    if fetched.None? || fetched.value.role.None? {
      return NoData;
    }
    SetMysInfo(player, fetched.value, camel, now);
    outcome := Merged;
  }

  /**
   * getNeedRefreshIds: the ids among the candidates whose talent data is
   * stale for this force level, in candidate order.
   */
  method GetNeedRefreshIds(player: Player, ids: IdsArg, force: Force, now: int) returns (ret: seq<int>)
    requires player.Valid()
    ensures ret == StaleIds(player.avatars, Candidates(player.avatars, ids), force, now)
    ensures forall x :: x in ret <==> x in Candidates(player.avatars, ids) && x in player.avatars
                                      && TalentStale(player.avatars[x], force, now)
  {
    var m := player.avatars;
    var cands := Candidates(m, ids);
    ret := [];
    for i := 0 to |cands|
      invariant ret == StaleIds(m, cands[..i], force, now)
    {
      StaleIdsSnoc(m, cands, force, now, i);
      var id := cands[i];
      if id !in m {
        continue;
      }
      var avatar := m[id];
      var needMap := TalentThresholds(HasTalent(avatar));
      if NeedRefresh(avatar.talentStamp, force, needMap, now) {
        ret := ret + [avatar.id];
      }
    }
    assert cands[..|cands|] == cands;
    forall x ensures x in ret <==> x in cands && x in m && TalentStale(m[x], force, now) {
      StaleIdsExactly(m, cands, force, now, x);
    }
  }

  /**
   * refreshAvatarTalent: with a self-owned session and a known character,
   * read the skill list in id order, fill the a, e and q slots, resolve them
   * and stamp the avatar; otherwise report failure and change nothing.
   */
  method RefreshAvatarTalent(avatar: Avatar, session: Option<Session>, response: Option<seq<Skill>>,
                             resolve: Resolver, now: int) returns (r: TalentCall)
    ensures session.Some? && session.value.selfCookie ==> r == TalentOutcome(avatar, response, resolve, now)
    ensures !(session.Some? && session.value.selfCookie) ==> r == TalentCall(false, false, avatar)
  {
    if session.None? || !session.value.selfCookie {
      return TalentCall(false, false, avatar);
    }
    if avatar.character.None? {
      return TalentCall(false, false, avatar);
    }
    var talent := NoSlots;
    if response.Some? {
      var talentList := SortById(response.value);
      for i := 0 to |talentList|
        invariant talent == SlotFold(talentList[..i])
      {
        assert talentList[..i + 1][..i] == talentList[..i];
        var val := talentList[i];
        if Contains(val.name, BasicAttack) {
          talent := talent.(a := Some(val.level));
          continue;
        }
        if val.maxLevel >= ElementalMaxLevel && Unfilled(talent.e) {
          talent := talent.(e := Some(val.level));
          continue;
        }
        if val.maxLevel >= ElementalMaxLevel && Unfilled(talent.q) {
          talent := talent.(q := Some(val.level));
        }
      }
      assert talentList[..|talentList|] == talentList;
    }
    var ret := resolve(avatar.character.value, talent, avatar.cons);
    r := TalentCall(ret.Some?, true, SetTalent(avatar, ret, now));
  }

  /**
   * One task of refreshTalent's pool: skip an unknown id; once the breaker
   * has tripped, stamp an empty talent; otherwise refresh the avatar with
   * the answer to the next remote call and count the outcome.
   */
  method TalentTaskBody(player: Player, id: int, session: Option<Session>,
                        responses: seq<Option<seq<Skill>>>, resolve: Resolver, now: int,
                        calls: nat, ghost failedCalls: nat, failCount: nat)
    returns (calls': nat, ghost failedCalls': nat, failCount': nat)
    requires session.Some? && session.value.selfCookie
    modifies player`avatars
    ensures Breaker(player.avatars, calls', failedCalls', failCount')
            == TalentTask(Breaker(old(player.avatars), calls, failedCalls, failCount), id, responses, resolve, now)
  {
    calls', failedCalls', failCount' := calls, failedCalls, failCount;
    if id !in player.avatars {
      return;
    }
    var avatar := player.avatars[id];
    if failCount > FailLimit {
      player.avatars := player.avatars[id := SetTalent(avatar, None, now)];
      return;
    }
    var r := RefreshAvatarTalent(avatar, session, ResponseAt(responses, calls), resolve, now);
    player.avatars := player.avatars[id := r.avatar];
    if r.called {
      calls' := calls + 1;
    }
    if !r.ok {
      failCount' := failCount + 1;
      if r.called {
        failedCalls' := failedCalls + 1;
      }
    }
  }

  /** The pool of refreshTalent, run one task after the other in list order. */
  method RunPool(player: Player, needReqIds: seq<int>, session: Option<Session>,
                 responses: seq<Option<seq<Skill>>>, resolve: Resolver, now: int) returns (calls: nat)
    requires session.Some? && session.value.selfCookie
    requires player.Valid()
    modifies player`avatars
    ensures player.Valid()
    ensures var run := TalentRun(Breaker(old(player.avatars), 0, 0, 0), needReqIds, responses, resolve, now);
            player.avatars == run.avatars && calls == run.calls
  {
    calls := 0;
    ghost var failedCalls: nat := 0;
    var failCount: nat := 0;
    for i := 0 to |needReqIds|
      invariant Breaker(player.avatars, calls, failedCalls, failCount)
                == TalentRun(Breaker(old(player.avatars), 0, 0, 0), needReqIds[..i], responses, resolve, now)
    {
      assert needReqIds[..i + 1][..i] == needReqIds[..i];
      calls, failedCalls, failCount := TalentTaskBody(player, needReqIds[i], session, responses, resolve, now,
                                                      calls, failedCalls, failCount);
    }
    assert needReqIds[..|needReqIds|] == needReqIds;
    RunFrame(Breaker(old(player.avatars), 0, 0, 0), needReqIds, responses, resolve, now);
  }

  /**
   * refreshTalent: with a self-owned session, refresh every stale avatar in
   * turn; once more than five refreshes have failed, the rest only get an
   * empty talent stamped, without a remote call. `calls` counts the remote
   * calls, and the k-th call receives `responses[k]`.
   */
  method RefreshTalent(player: Player, ids: IdsArg, force: Force, session: Option<Session>,
                       responses: seq<Option<seq<Skill>>>, resolve: Resolver, now: int)
    returns (ok: bool, calls: nat)
    requires player.Valid()
    modifies player`avatars, player`saves
    ensures player.Valid()
    ensures ok <==> session.Some? && session.value.selfCookie
    ensures !ok ==> unchanged(player) && calls == 0
    ensures ok ==> player.saves == old(player.saves) + 1
    ensures ok ==>
              var run := TalentRun(Breaker(old(player.avatars), 0, 0, 0),
                                   StaleIds(old(player.avatars), Candidates(old(player.avatars), ids), force, now),
                                   responses, resolve, now);
              player.avatars == run.avatars && calls == run.calls
  {
    if session.None? || !session.value.selfCookie {
      return false, 0;
    }
    var needReqIds := GetNeedRefreshIds(player, ids, force, now);
    calls := RunPool(player, needReqIds, session, responses, resolve, now);
    player.Save();
    ok := true;
  }

  /**
   * The counting part of getInfo: `avatar` becomes the larger of the stored
   * value and the number of cached avatars (NaN when none was stored), and
   * `goldCount` and `avatar5` are summed over the avatars.
   */
  method GetInfo(player: Player) returns (counts: InfoCounts)
    ensures counts.avatar == AvatarStat(PriorAvatarStat(player.info), |player.avatars|)
    ensures counts.goldCount == GoldCount(AvatarList(player.avatars))
    ensures counts.avatar5 == FiveStarCount(AvatarList(player.avatars))
    ensures counts.avatar5 <= |player.avatars|
  {
    var m := player.avatars;
    var keys := SortedKeys(m.Keys);
    ghost var avs := AvatarList(m);
    var avatarCount: nat := 0;
    var avatar5Count: nat := 0;
    var goldCount := 0;
    for i := 0 to |keys|
      invariant avatarCount == i
      invariant avatar5Count == FiveStarCount(avs[..i])
      invariant goldCount == GoldCount(avs[..i])
    {
      CountsSnoc(avs, i);
      var avatar := m[keys[i]];
      avatarCount := avatarCount + 1;
      if Star(avatar) == 5 {
        avatar5Count := avatar5Count + 1;
        if !(avatar.character.Some? && avatar.character.value.isTraveler) {
          goldCount := goldCount + avatar.cons + 1;
        }
      }
      if avatar.weapon.Some? && avatar.weapon.value.star == 5 {
        goldCount := goldCount + avatar.weapon.value.affix;
      }
    }
    assert avs[..|keys|] == avs;
    FiveStarsAmongAll(avs);
    var prior := if player.info.Some? && "avatar" in player.info.value.stats
                 then Some(player.info.value.stats["avatar"]) else None;
    var avatar := if prior.None? then None
                  else Some(if prior.value >= avatarCount then prior.value else avatarCount);
    counts := InfoCounts(avatar, goldCount, avatar5Count);
  }
}
