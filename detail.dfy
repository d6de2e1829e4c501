/**
 * What MysAvatar.setMysCharData makes of the remote character detail:
 * the projection of each remote avatar, the artifact-slot map, the roster
 * upsert and the eviction of stale cache entries after a full roster.
 */
module DetailMerge {
  import opened Wrappers
  import opened Tables
  import opened Records
  import opened Strings

  datatype Reliquary = Reliquary(name: string, posName: string, level: int)

  /** One entry of the remote `avatars` list; `costumes` holds costume ids, 0 for a missing id. */
  datatype RemoteAvatar = RemoteAvatar(
    id: int, level: int, cons: int, fetter: int, element: string,
    costumes: seq<int>, weapon: Weapon, reliquaries: seq<Reliquary>)

  /** The remote character detail (`mys.getCharacter()`). */
  datatype CharData = CharData(role: Option<Role>, avatars: Option<seq<RemoteAvatar>>)

  /** The five artifact positions and their slots. */
  const PosIdx: map<string, int> :=
    map["生之花" := 1, "死之羽" := 2, "时之沙" := 3, "空之杯" := 4, "理之冠" := 5]

  /** More distinct ids than this make a payload a full roster, which evicts. */
  const FullRoster := 8

  const DetailSource := "mys"

  /** A reliquary that takes a slot: it has a name and a known position. */
  predicate Slotted(re: Reliquary)
  {
    re.name != "" && re.posName in PosIdx
  }

  function ArtiEntry(re: Reliquary): Option<(int, Arti)>
  {
    if Slotted(re) then Some((PosIdx[re.posName], Arti(re.name, re.level))) else None
  }

  /** The artifact map built from a reliquary list. */
  function ArtisOf(rels: seq<Reliquary>): map<int, Arti>
  {
    Tabulate(rels, ArtiEntry)
  }

  /** Only slots 1..5 ever appear. */
  lemma ArtisInSlots(rels: seq<Reliquary>)
    ensures SlotsInRange(ArtisOf(rels))
  {
    forall k | k in ArtisOf(rels) ensures 1 <= k <= 5 {
      TabulateKeys(rels, ArtiEntry, k);
      var i :| 0 <= i < |rels| && Writes(ArtiEntry, rels[i], k);
    }
  }

  /**
   * Every slot holds the name and level of the last slotted reliquary for
   * that position; unnamed reliquaries and unknown positions contribute nothing.
   */
  lemma ArtisFromReliquaries(rels: seq<Reliquary>, k: int)
    requires k in ArtisOf(rels)
    ensures exists i :: 0 <= i < |rels| && Slotted(rels[i]) && PosIdx[rels[i].posName] == k
                        && ArtisOf(rels)[k] == Arti(rels[i].name, rels[i].level)
                        && forall j :: i < j < |rels| ==> !(Slotted(rels[j]) && PosIdx[rels[j].posName] == k)
  {
    TabulateLast(rels, ArtiEntry, k);
    var i :| 0 <= i < |rels| && ArtiEntry(rels[i]) == Some((k, Tabulate(rels, ArtiEntry)[k]))
             && forall j :: i < j < |rels| ==> !Writes(ArtiEntry, rels[j], k);
    forall j | i < j < |rels| ensures !(Slotted(rels[j]) && PosIdx[rels[j].posName] == k) {
      assert !Writes(ArtiEntry, rels[j], k);
    }
  }

  /** Every slotted reliquary fills its slot. */
  lemma SlottedIsKept(rels: seq<Reliquary>, i: int)
    requires 0 <= i < |rels| && Slotted(rels[i])
    ensures PosIdx[rels[i].posName] in ArtisOf(rels)
  {
    TabulateKeys(rels, ArtiEntry, PosIdx[rels[i].posName]);
    assert Writes(ArtiEntry, rels[i], PosIdx[rels[i].posName]);
  }

  /** `(costumes || [])[0]`, kept only when it has an id. */
  function FirstCostume(costumes: seq<int>): int
  {
    if |costumes| > 0 then costumes[0] else 0
  }

  /** The projection of one remote avatar handed to `player.setAvatar`. */
  function DetailPatch(ds: RemoteAvatar): (p: AvatarPatch)
    ensures PatchValid(p) && p.id == ds.id
    ensures p.level == ds.level && p.cons == ds.cons && p.fetter == ds.fetter
    ensures p.elem == ToLower(ds.element) && p.costume == FirstCostume(ds.costumes)
    ensures p.artis == Some(ArtisOf(ds.reliquaries)) && p.weapon == Some(ds.weapon)
  {
    ArtisInSlots(ds.reliquaries);
    AvatarPatch(ds.id, ds.level, ds.cons, ds.fetter, ToLower(ds.element),
                FirstCostume(ds.costumes), Some(ds.weapon), Some(ArtisOf(ds.reliquaries)))
  }

  function DetailPatches(list: seq<RemoteAvatar>): (ps: seq<AvatarPatch>)
    ensures |ps| == |list|
    ensures forall i :: 0 <= i < |list| ==> ps[i] == DetailPatch(list[i])
  {
    seq(|list|, i requires 0 <= i < |list| => DetailPatch(list[i]))
  }

  /** The distinct ids of a payload (`charIds`). */
  function RosterIds(list: seq<RemoteAvatar>): (ids: set<int>)
    ensures forall i :: 0 <= i < |list| ==> list[i].id in ids
    ensures forall k :: k in ids ==> exists i :: 0 <= i < |list| && list[i].id == k
  {
    PatchIds(DetailPatches(list))
  }

  /** Drop every avatar that is neither in the roster nor profile-pinned. */
  function Evict(m: map<int, Avatar>, ids: set<int>): map<int, Avatar>
  {
    map k | k in m && (k in ids || m[k].isProfile) :: m[k]
  }

  /** The avatar map after setMysCharData. */
  function DetailAvatars(m: map<int, Avatar>, catalog: map<int, Character>, list: seq<RemoteAvatar>): map<int, Avatar>
  {
    var merged := UpsertAll(m, catalog, DetailPatches(list), DetailSource);
    if |RosterIds(list)| > FullRoster then Evict(merged, RosterIds(list)) else merged
  }

  /** Growing a prefix by one remote avatar adds one patch and one id. */
  lemma DetailPatchesSnoc(list: seq<RemoteAvatar>, i: int)
    requires 0 <= i < |list|
    ensures DetailPatches(list[..i + 1])[..i] == DetailPatches(list[..i])
    ensures DetailPatches(list[..i + 1])[i] == DetailPatch(list[i])
    ensures RosterIds(list[..i + 1]) == RosterIds(list[..i]) + {list[i].id}
  {
    var ps := DetailPatches(list[..i + 1]);
    assert ps[..i] == DetailPatches(list[..i]);
    PatchIdsSnoc(ps);
  }

  /** Merging keeps the invariant: ids match keys, artifact slots are 1..5. */
  lemma DetailValid(m: map<int, Avatar>, catalog: map<int, Character>, list: seq<RemoteAvatar>)
    requires AvatarsValid(m)
    ensures AvatarsValid(DetailAvatars(m, catalog, list))
  {
    UpsertAllValid(m, catalog, DetailPatches(list), DetailSource);
  }

  /** A partial payload (at most 8 ids) removes nothing: the keys only grow by the payload. */
  lemma SmallRosterEvictsNothing(m: map<int, Avatar>, catalog: map<int, Character>, list: seq<RemoteAvatar>)
    requires |RosterIds(list)| <= FullRoster
    ensures DetailAvatars(m, catalog, list).Keys == m.Keys + RosterIds(list)
  {
    UpsertAllFrame(m, catalog, DetailPatches(list), DetailSource);
  }

  /**
   * A full roster (more than 8 ids) leaves exactly the payload's avatars and
   * the profile-pinned ones.
   */
  lemma FullRosterEvicts(m: map<int, Avatar>, catalog: map<int, Character>, list: seq<RemoteAvatar>)
    requires |RosterIds(list)| > FullRoster
    ensures forall k :: k in DetailAvatars(m, catalog, list) <==>
              k in RosterIds(list) || (k in m && m[k].isProfile)
  {
    var ids := RosterIds(list);
    var merged := UpsertAll(m, catalog, DetailPatches(list), DetailSource);
    UpsertAllFrame(m, catalog, DetailPatches(list), DetailSource);
    forall k ensures k in Evict(merged, ids) <==> k in ids || (k in m && m[k].isProfile) {
      if k in ids {
        assert k in merged;
      }
    }
  }

  /**
   * An avatar the payload does not name is either evicted or kept exactly as
   * it was: the merge never alters it.
   */
  lemma UnlistedKeepsValue(m: map<int, Avatar>, catalog: map<int, Character>, list: seq<RemoteAvatar>, k: int)
    requires k in DetailAvatars(m, catalog, list) && k !in RosterIds(list)
    ensures k in m && DetailAvatars(m, catalog, list)[k] == m[k]
  {
    UpsertAllFrame(m, catalog, DetailPatches(list), DetailSource);
  }

  /** Whatever the payload size, every avatar it names is cached afterwards. */
  lemma IncomingNeverEvicted(m: map<int, Avatar>, catalog: map<int, Character>, list: seq<RemoteAvatar>)
    ensures RosterIds(list) <= DetailAvatars(m, catalog, list).Keys
  {
    if |RosterIds(list)| > FullRoster {
      FullRosterEvicts(m, catalog, list);
    } else {
      SmallRosterEvictsNothing(m, catalog, list);
    }
  }

  /**
   * The avatar under an incoming id has the artifact map, weapon and level
   * of the last payload entry with that id.
   */
  lemma IncomingTakesLastEntry(m: map<int, Avatar>, catalog: map<int, Character>, list: seq<RemoteAvatar>, i: int)
    requires 0 <= i < |list|
    requires forall j :: i < j < |list| ==> list[j].id != list[i].id
    ensures list[i].id in DetailAvatars(m, catalog, list)
    ensures DetailAvatars(m, catalog, list)[list[i].id].artis == ArtisOf(list[i].reliquaries)
    ensures DetailAvatars(m, catalog, list)[list[i].id].weapon == Some(list[i].weapon)
    ensures DetailAvatars(m, catalog, list)[list[i].id].level == list[i].level
    ensures DetailAvatars(m, catalog, list)[list[i].id].cons == list[i].cons
    ensures DetailAvatars(m, catalog, list)[list[i].id].fetter == list[i].fetter
    ensures DetailAvatars(m, catalog, list)[list[i].id].elem == ToLower(list[i].element)
    ensures FirstCostume(list[i].costumes) != 0 ==>
              DetailAvatars(m, catalog, list)[list[i].id].costume == FirstCostume(list[i].costumes)
  {
    var ps := DetailPatches(list);
    UpsertAllLastWins(m, catalog, ps, DetailSource, i);
    IncomingNeverEvicted(m, catalog, list);
  }
}
