/**
 * What MysAvatar.setMysInfo makes of the remote account summary: avatar
 * stubs, the stats table and the exploration table.
 */
module SummaryMerge {
  import opened Wrappers
  import opened Tables
  import opened Strings
  import opened Records

  /** One entry of the summary's `avatars` list. */
  datatype RemoteStub = RemoteStub(id: int, level: int, cons: int, fetter: int, element: string)

  datatype Exploration = Exploration(name: string, percentage: int)

  datatype Home = Home(level: int)

  /**
   * The remote account summary (`mys.getIndex()`); `stats` is the stats
   * object as its key/value pairs in enumeration order. A missing list is empty.
   */
  datatype IndexData = IndexData(
    role: Option<Role>, avatars: seq<RemoteStub>, stats: seq<(string, int)>,
    explorations: seq<Exploration>, homes: seq<Home>)

  const NumberSuffix := "_number"
  /** The stat tracked elsewhere, never stored here. */
  const AbyssKey := "spiral_abyss"
  /** The bare region, which carries no usable percentage. */
  const Chasm := "层岩巨渊"
  /** Its underground sub-region, stored under the bare region's name. */
  const ChasmMines := "层岩巨渊·地下矿区"
  const SummarySource := "mys"

  /** The stub handed to `player.setAvatar`: no weapon, artifacts or costume. */
  function StubPatch(ds: RemoteStub): (p: AvatarPatch)
    ensures PatchValid(p) && p.id == ds.id
    ensures p.level == ds.level && p.cons == ds.cons && p.fetter == ds.fetter
    ensures p.elem == ToLower(ds.element)
    ensures p.artis.None? && p.weapon.None? && p.costume == 0
  {
    AvatarPatch(ds.id, ds.level, ds.cons, ds.fetter, ToLower(ds.element), 0, None, None)
  }

  function StubPatches(list: seq<RemoteStub>): (ps: seq<AvatarPatch>)
    ensures |ps| == |list|
    ensures forall i :: 0 <= i < |list| ==> ps[i] == StubPatch(list[i])
  {
    seq(|list|, i requires 0 <= i < |list| => StubPatch(list[i]))
  }

  /** Stubs never touch the weapon or artifacts a detail merge stored. */
  lemma {:induction false} StubsKeepGear(m: map<int, Avatar>, catalog: map<int, Character>, list: seq<RemoteStub>, k: int)
    requires k in m
    ensures k in UpsertAll(m, catalog, StubPatches(list), SummarySource)
    ensures UpsertAll(m, catalog, StubPatches(list), SummarySource)[k].artis == m[k].artis
    ensures UpsertAll(m, catalog, StubPatches(list), SummarySource)[k].weapon == m[k].weapon
    decreases |list|
  {
    if list != [] {
      var init := list[..|list| - 1];
      assert StubPatches(list)[..|list| - 1] == StubPatches(init);
      StubsKeepGear(m, catalog, init, k);
    }
  }

  /** A stat key with `_number` removed (first occurrence), before camel-casing. */
  function StripKey(key: string): string
  {
    ReplaceFirst(key, NumberSuffix)
  }

  /** A stat pair with its stripped key and its final key. */
  datatype StatRow = StatRow(stripped: string, key: string, num: int)

  function StatRows(pairs: seq<(string, int)>, camel: string -> string): (rows: seq<StatRow>)
    ensures |rows| == |pairs|
    ensures forall i :: 0 <= i < |pairs| ==>
              rows[i] == StatRow(StripKey(pairs[i].0), camel(StripKey(pairs[i].0)), pairs[i].1)
  {
    seq(|pairs|, i requires 0 <= i < |pairs| =>
      StatRow(StripKey(pairs[i].0), camel(StripKey(pairs[i].0)), pairs[i].1))
  }

  function StatEntry(row: StatRow): Option<(string, int)>
  {
    if row.stripped == AbyssKey then None else Some((row.key, row.num))
  }

  /** The stats table; `camel` is lodash's camelCase. */
  function StatsOf(pairs: seq<(string, int)>, camel: string -> string): map<string, int>
  {
    Tabulate(StatRows(pairs, camel), StatEntry)
  }

  /** Scanning one more stat pair stores it under its final key, unless it is the abyss counter. */
  lemma StatsOfSnoc(pairs: seq<(string, int)>, camel: string -> string, i: int)
    requires 0 <= i < |pairs|
    ensures StatsOf(pairs[..i + 1], camel)
            == if StripKey(pairs[i].0) == AbyssKey then StatsOf(pairs[..i], camel)
               else StatsOf(pairs[..i], camel)[camel(StripKey(pairs[i].0)) := pairs[i].1]
  {
    var rows := StatRows(pairs[..i + 1], camel);
    assert rows[..i] == StatRows(pairs[..i], camel);
  }

  /** A stat pair that is stored: its stripped key is not the abyss counter. */
  predicate Kept(pair: (string, int))
  {
    StripKey(pair.0) != AbyssKey
  }

  /**
   * Every stored stat comes from a kept pair whose stripped, camel-cased key
   * is its key, and holds the value of the last such pair.
   */
  lemma StatsOrigin(pairs: seq<(string, int)>, camel: string -> string, k: string)
    requires k in StatsOf(pairs, camel)
    ensures exists i :: 0 <= i < |pairs| && Kept(pairs[i]) && camel(StripKey(pairs[i].0)) == k
                        && StatsOf(pairs, camel)[k] == pairs[i].1
                        && forall j :: i < j < |pairs| ==> !(Kept(pairs[j]) && camel(StripKey(pairs[j].0)) == k)
  {
    var rows := StatRows(pairs, camel);
    TabulateLast(rows, StatEntry, k);
    var i :| 0 <= i < |rows| && StatEntry(rows[i]) == Some((k, Tabulate(rows, StatEntry)[k]))
             && forall j :: i < j < |rows| ==> !Writes(StatEntry, rows[j], k);
    forall j | i < j < |pairs| ensures !(Kept(pairs[j]) && camel(StripKey(pairs[j].0)) == k) {
      assert !Writes(StatEntry, rows[j], k);
    }
  }

  /** Every kept pair is stored under its camel-cased key. */
  lemma KeptStatStored(pairs: seq<(string, int)>, camel: string -> string, i: int)
    requires 0 <= i < |pairs| && Kept(pairs[i])
    ensures camel(StripKey(pairs[i].0)) in StatsOf(pairs, camel)
  {
    var rows := StatRows(pairs, camel);
    TabulateKeys(rows, StatEntry, camel(StripKey(pairs[i].0)));
    assert Writes(StatEntry, rows[i], camel(StripKey(pairs[i].0)));
  }

  /**
   * The abyss counter's key is absent unless some other kept pair happens to
   * camel-case to the same key.
   */
  lemma AbyssNotStored(pairs: seq<(string, int)>, camel: string -> string)
    requires forall i :: 0 <= i < |pairs| && Kept(pairs[i]) ==> camel(StripKey(pairs[i].0)) != camel(AbyssKey)
    ensures camel(AbyssKey) !in StatsOf(pairs, camel)
  {
    if camel(AbyssKey) in StatsOf(pairs, camel) {
      StatsOrigin(pairs, camel, camel(AbyssKey));
    }
  }

  /** The region key an exploration entry is stored under, if any. */
  function ExplorationEntry(x: Exploration): Option<(string, int)>
  {
    if x.name == Chasm then None
    else Some((if x.name == ChasmMines then Chasm else x.name, x.percentage))
  }

  function ExplorationOf(list: seq<Exploration>): map<string, int>
  {
    Tabulate(list, ExplorationEntry)
  }

  /**
   * The sub-region's name is never a key; the bare region's key exists
   * exactly when the sub-region is listed, and holds the last sub-region
   * entry's percentage: the bare region's own entries never contribute.
   */
  lemma ChasmComesFromMines(list: seq<Exploration>)
    ensures ChasmMines !in ExplorationOf(list)
    ensures Chasm in ExplorationOf(list) <==> exists i :: 0 <= i < |list| && list[i].name == ChasmMines
    ensures Chasm in ExplorationOf(list) ==>
              exists i :: 0 <= i < |list| && list[i].name == ChasmMines
                          && ExplorationOf(list)[Chasm] == list[i].percentage
                          && forall j :: i < j < |list| ==> list[j].name != ChasmMines
  {
    TabulateKeys(list, ExplorationEntry, ChasmMines);
    TabulateKeys(list, ExplorationEntry, Chasm);
    if exists i :: 0 <= i < |list| && list[i].name == ChasmMines {
      var i :| 0 <= i < |list| && list[i].name == ChasmMines;
      assert Writes(ExplorationEntry, list[i], Chasm);
    }
    if Chasm in ExplorationOf(list) {
      TabulateLast(list, ExplorationEntry, Chasm);
      var i :| 0 <= i < |list| && ExplorationEntry(list[i]) == Some((Chasm, Tabulate(list, ExplorationEntry)[Chasm]))
               && forall j :: i < j < |list| ==> !Writes(ExplorationEntry, list[j], Chasm);
      forall j | i < j < |list| ensures list[j].name != ChasmMines {
        assert !Writes(ExplorationEntry, list[j], Chasm);
      }
    }
  }

  /** Every other region is stored under its own name with its last percentage. */
  lemma OtherRegionsDirect(list: seq<Exploration>, k: string)
    requires k != Chasm && k != ChasmMines
    ensures k in ExplorationOf(list) <==> exists i :: 0 <= i < |list| && list[i].name == k
    ensures k in ExplorationOf(list) ==>
              exists i :: 0 <= i < |list| && list[i].name == k
                          && ExplorationOf(list)[k] == list[i].percentage
                          && forall j :: i < j < |list| ==> list[j].name != k
  {
    TabulateKeys(list, ExplorationEntry, k);
    if exists i :: 0 <= i < |list| && list[i].name == k {
      var i :| 0 <= i < |list| && list[i].name == k;
      assert Writes(ExplorationEntry, list[i], k);
    }
    if k in ExplorationOf(list) {
      TabulateLast(list, ExplorationEntry, k);
      var i :| 0 <= i < |list| && ExplorationEntry(list[i]) == Some((k, Tabulate(list, ExplorationEntry)[k]))
               && forall j :: i < j < |list| ==> !Writes(ExplorationEntry, list[j], k);
      forall j | i < j < |list| ensures list[j].name != k {
        assert !Writes(ExplorationEntry, list[j], k);
      }
    }
  }

  /** `(homes || [])[0]?.level`. */
  function HomeLevel(homes: seq<Home>): Option<int>
  {
    if |homes| > 0 then Some(homes[0].level) else None
  }

  /** The `player.info` blob setMysInfo stores. */
  function SummaryInfo(data: IndexData, camel: string -> string): Info
  {
    Info(HomeLevel(data.homes), StatsOf(data.stats, camel), ExplorationOf(data.explorations))
  }
}
