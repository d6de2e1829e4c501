/**
 * The Player collaborator as the sync code uses it: basic data, the avatar
 * map, the summary blob, the two sync timestamps and persistence, counted.
 */
module Players {
  import opened Wrappers
  import opened Staleness
  import opened Records

  class Player {
    var level: int
    var name: string
    /** `player._avatars`, keyed by avatar id. */
    var avatars: map<int, Avatar>
    var info: Option<Info>
    /** `player._mys`: when the character detail was last merged. */
    var mysStamp: Timestamp
    /** `player._info`: when the account summary was last merged. */
    var infoStamp: Timestamp
    /** How many times `player.save()` has run. */
    var saves: nat
    /** Static character data, used when an avatar is first created. */
    const catalog: map<int, Character>

    ghost predicate Valid()
      reads this
    {
      AvatarsValid(avatars)
    }

    constructor (catalog: map<int, Character>)
      ensures Valid() && this.catalog == catalog
      ensures avatars == map[] && info == None && saves == 0
      ensures mysStamp == Unset && infoStamp == Unset
    {
      this.catalog := catalog;
      level, name := 0, "";
      avatars, info := map[], None;
      mysStamp, infoStamp := Unset, Unset;
      saves := 0;
    }

    method SetBasicData(level: int, name: string)
      modifies this`level, this`name
      ensures this.level == level && this.name == name
    {
      this.level, this.name := level, name;
    }

    method SetAvatar(p: AvatarPatch, source: string)
      requires Valid() && PatchValid(p)
      modifies this`avatars
      ensures Valid()
      ensures avatars == Upsert(old(avatars), catalog, p, source)
    {
      avatars := Upsert(avatars, catalog, p, source);
    }

    method Save()
      modifies this`saves
      ensures saves == old(saves) + 1
    {
      saves := saves + 1;
    }
  }
}
