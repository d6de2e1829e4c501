/**
 * Which avatars need their talent refreshed (MysAvatar.getNeedRefreshIds) and
 * the sequential run of refreshes behind the failure circuit breaker
 * (MysAvatar.refreshTalent).
 */
module TalentRefresh {
  import opened Wrappers
  import opened Tables
  import opened Staleness
  import opened Records
  import opened Talents

  /** The `ids` argument: omitted (or falsy), a single id, or an array of ids. */
  datatype IdsArg = Omitted | Single(id: int) | List(ids: seq<int>)

  /** The candidate ids: every cached id when `ids` is falsy, `[ids]` when it is not an array. */
  function Candidates(m: map<int, Avatar>, ids: IdsArg): (c: seq<int>)
    ensures ids.Omitted? || ids == Single(0) ==> (forall k :: k in c <==> k in m) && |c| == |m|
    ensures ids.Single? && ids.id != 0 ==> c == [ids.id]
    ensures ids.List? ==> c == ids.ids
  {
    match ids
    case Omitted => SortedKeys(m.Keys)
    case Single(id) => if id == 0 then SortedKeys(m.Keys) else [id]
    case List(xs) => xs
  }

  /** Level 0 waits 48 hours for an avatar with a talent and 3 hours otherwise. */
  function TalentThresholds(hasTalent: bool): Thresholds
  {
    map[0 := if hasTalent then 60 * 48 else 60 * 3, 1 := 60, 2 := 0]
  }

  predicate TalentStale(a: Avatar, force: Force, now: int)
  {
    NeedRefresh(a.talentStamp, force, TalentThresholds(HasTalent(a)), now)
  }

  /** The ids pushed by the loop over the candidates. */
  function StaleIds(m: map<int, Avatar>, cands: seq<int>, force: Force, now: int): seq<int>
    decreases |cands|
  {
    if cands == [] then []
    else
      var rest := StaleIds(m, cands[..|cands| - 1], force, now);
      var id := cands[|cands| - 1];
      if id in m && TalentStale(m[id], force, now) then rest + [m[id].id] else rest
  }

  /** Scanning one more candidate pushes its avatar's id when that avatar is stale. */
  lemma StaleIdsSnoc(m: map<int, Avatar>, cands: seq<int>, force: Force, now: int, i: int)
    requires 0 <= i < |cands|
    ensures StaleIds(m, cands[..i + 1], force, now)
            == if cands[i] in m && TalentStale(m[cands[i]], force, now)
               then StaleIds(m, cands[..i], force, now) + [m[cands[i]].id]
               else StaleIds(m, cands[..i], force, now)
  {
    assert cands[..i + 1][..i] == cands[..i];
  }

  /** `a` is `b` with some elements left out, order kept. */
  ghost predicate IsSubseq(a: seq<int>, b: seq<int>)
    decreases |b|
  {
    a == [] ||
    (b != [] &&
     ((a[|a| - 1] == b[|b| - 1] && IsSubseq(a[..|a| - 1], b[..|b| - 1])) || IsSubseq(a, b[..|b| - 1])))
  }

  /** The result keeps the candidates' order. */
  lemma {:induction false} StaleIdsKeepOrder(m: map<int, Avatar>, cands: seq<int>, force: Force, now: int)
    requires AvatarsValid(m)
    ensures IsSubseq(StaleIds(m, cands, force, now), cands)
    decreases |cands|
  {
    if cands != [] {
      var init := cands[..|cands| - 1];
      var rest := StaleIds(m, init, force, now);
      StaleIdsKeepOrder(m, init, force, now);
      var r := StaleIds(m, cands, force, now);
      if r != rest {
        assert r[..|r| - 1] == rest;
      }
    }
  }

  /** An id is returned exactly when it is a candidate, cached, and stale. */
  lemma {:induction false} StaleIdsExactly(m: map<int, Avatar>, cands: seq<int>, force: Force, now: int, x: int)
    requires AvatarsValid(m)
    ensures x in StaleIds(m, cands, force, now) <==> x in cands && x in m && TalentStale(m[x], force, now)
    decreases |cands|
  {
    if cands != [] {
      var init := cands[..|cands| - 1];
      StaleIdsExactly(m, init, force, now, x);
      assert cands == init + [cands[|cands| - 1]];
    }
  }

  /** At level 0 a usable past stamp is stale after 48 hours with a talent and 3 hours without. */
  lemma TalentLevelZero(a: Avatar, now: int)
    requires a.talentStamp.At? && a.talentStamp.ms != 0 && a.talentStamp.ms <= now
    ensures TalentStale(a, Level(0), now) <==>
              now - a.talentStamp.ms > (if HasTalent(a) then 2880 else 180) * 60000
  {
    NeedRefreshInMillis(a.talentStamp.ms, Level(0), TalentThresholds(HasTalent(a)), now);
  }

  /**
   * The state threaded through the run: the avatars, remote calls made,
   * remote calls that failed, and the breaker's `failCount`.
   */
  datatype Breaker = Breaker(avatars: map<int, Avatar>, calls: nat, failedCalls: nat, failCount: nat)

  /** Once `failCount` exceeds this, no more remote calls are made. */
  const FailLimit := 5

  /** The answer to the k-th remote call; calls past the list get nothing. */
  function ResponseAt(responses: seq<Option<seq<Skill>>>, k: nat): Option<seq<Skill>>
  {
    if k < |responses| then responses[k] else None
  }

  /** One task of the pool, for one id. */
  function TalentTask(st: Breaker, id: int, responses: seq<Option<seq<Skill>>>, resolve: Resolver, now: int): (r: Breaker)
    ensures r.avatars.Keys == st.avatars.Keys
    ensures forall k :: k in st.avatars && k != id ==> r.avatars[k] == st.avatars[k]
    ensures r.calls <= st.calls + 1 && st.failCount <= r.failCount
    ensures st.failCount > FailLimit ==> r.calls == st.calls && r.failCount == st.failCount
    ensures st.failCount > FailLimit && id in st.avatars ==> r.avatars[id] == SetTalent(st.avatars[id], None, now)
  {
    if id !in st.avatars then st
    else if st.failCount > FailLimit then
      st.(avatars := st.avatars[id := SetTalent(st.avatars[id], None, now)])
    else
      var r := TalentOutcome(st.avatars[id], ResponseAt(responses, st.calls), resolve, now);
      Breaker(st.avatars[id := r.avatar],
              st.calls + (if r.called then 1 else 0),
              st.failedCalls + (if r.called && !r.ok then 1 else 0),
              st.failCount + (if r.ok then 0 else 1))
  }

  /** The tasks run one after the other, in list order. */
  function TalentRun(st: Breaker, ids: seq<int>, responses: seq<Option<seq<Skill>>>, resolve: Resolver, now: int): (r: Breaker)
    ensures r.avatars.Keys == st.avatars.Keys
    decreases |ids|
  {
    if ids == [] then st
    else TalentTask(TalentRun(st, ids[..|ids| - 1], responses, resolve, now), ids[|ids| - 1], responses, resolve, now)
  }

  /** The breaker never lets more than six failures, and so six failing remote calls, happen. */
  lemma {:induction false} FailuresBounded(st: Breaker, ids: seq<int>, responses: seq<Option<seq<Skill>>>, resolve: Resolver, now: int)
    requires st.failedCalls <= st.failCount <= FailLimit + 1
    ensures TalentRun(st, ids, responses, resolve, now).failedCalls <= TalentRun(st, ids, responses, resolve, now).failCount <= FailLimit + 1
    decreases |ids|
  {
    if ids != [] {
      FailuresBounded(st, ids[..|ids| - 1], responses, resolve, now);
    }
  }

  /** Once tripped, the rest of the run makes no remote call and counts no failure. */
  lemma {:induction false} TrippedMakesNoCalls(st: Breaker, ids: seq<int>, responses: seq<Option<seq<Skill>>>, resolve: Resolver, now: int)
    requires st.failCount > FailLimit
    ensures TalentRun(st, ids, responses, resolve, now).calls == st.calls
    ensures TalentRun(st, ids, responses, resolve, now).failCount == st.failCount
    decreases |ids|
  {
    if ids != [] {
      TrippedMakesNoCalls(st, ids[..|ids| - 1], responses, resolve, now);
    }
  }

  /** Running two lists one after the other is running their concatenation. */
  lemma {:induction false} RunAppend(st: Breaker, xs: seq<int>, ys: seq<int>, responses: seq<Option<seq<Skill>>>, resolve: Resolver, now: int)
    ensures TalentRun(st, xs + ys, responses, resolve, now)
            == TalentRun(TalentRun(st, xs, responses, resolve, now), ys, responses, resolve, now)
    decreases |ys|
  {
    if ys == [] {
      assert xs + ys == xs;
    } else {
      var init := ys[..|ys| - 1];
      assert (xs + ys)[..|xs + ys| - 1] == xs + init;
      assert (xs + ys)[|xs + ys| - 1] == ys[|ys| - 1];
      RunAppend(st, xs, init, responses, resolve, now);
    }
  }

  /** Once tripped, every listed avatar gets the placeholder: no talent, stamped now. */
  lemma {:induction false} TrippedPlaceholder(st: Breaker, ids: seq<int>, responses: seq<Option<seq<Skill>>>, resolve: Resolver, now: int, k: int)
    requires st.failCount > FailLimit && k in ids && k in st.avatars
    ensures k in TalentRun(st, ids, responses, resolve, now).avatars
    ensures TalentRun(st, ids, responses, resolve, now).avatars[k].talent.None?
    ensures TalentRun(st, ids, responses, resolve, now).avatars[k].talentStamp == At(now)
    decreases |ids|
  {
    var init := ids[..|ids| - 1];
    TrippedMakesNoCalls(st, init, responses, resolve, now);
    if ids[|ids| - 1] != k {
      assert k in init by {
        var i :| 0 <= i < |ids| && ids[i] == k;
        assert init[i] == k;
      }
      TrippedPlaceholder(st, init, responses, resolve, now, k);
    }
  }

  /**
   * The breaker's promise at the point where it trips: after a prefix that
   * ends with more than five failures, the rest of the list makes no remote
   * call, and every avatar it lists ends with no talent, stamped now.
   */
  lemma BreakerStopsCalls(st: Breaker, xs: seq<int>, ys: seq<int>, responses: seq<Option<seq<Skill>>>, resolve: Resolver, now: int)
    requires TalentRun(st, xs, responses, resolve, now).failCount > FailLimit
    ensures TalentRun(st, xs + ys, responses, resolve, now).calls == TalentRun(st, xs, responses, resolve, now).calls
    ensures forall k :: k in ys && k in st.avatars ==>
              TalentRun(st, xs + ys, responses, resolve, now).avatars[k].talent.None?
              && TalentRun(st, xs + ys, responses, resolve, now).avatars[k].talentStamp == At(now)
  {
    var mid := TalentRun(st, xs, responses, resolve, now);
    RunAppend(st, xs, ys, responses, resolve, now);
    TrippedMakesNoCalls(mid, ys, responses, resolve, now);
    forall k | k in ys && k in st.avatars
      ensures TalentRun(mid, ys, responses, resolve, now).avatars[k].talent.None?
              && TalentRun(mid, ys, responses, resolve, now).avatars[k].talentStamp == At(now)
    {
      TrippedPlaceholder(mid, ys, responses, resolve, now, k);
    }
  }

  /** At most one remote call per id. */
  lemma {:induction false} CallsBounded(st: Breaker, ids: seq<int>, responses: seq<Option<seq<Skill>>>, resolve: Resolver, now: int)
    ensures TalentRun(st, ids, responses, resolve, now).calls <= st.calls + |ids|
    decreases |ids|
  {
    if ids != [] {
      CallsBounded(st, ids[..|ids| - 1], responses, resolve, now);
    }
  }

  /**
   * The run keeps the cached ids and the invariant, and leaves every avatar
   * it was not given as it was.
   */
  lemma {:induction false} RunFrame(st: Breaker, ids: seq<int>, responses: seq<Option<seq<Skill>>>, resolve: Resolver, now: int)
    requires AvatarsValid(st.avatars)
    ensures AvatarsValid(TalentRun(st, ids, responses, resolve, now).avatars)
    ensures forall k :: k in st.avatars && k !in ids ==> TalentRun(st, ids, responses, resolve, now).avatars[k] == st.avatars[k]
    ensures forall k :: k in st.avatars ==> TalentRun(st, ids, responses, resolve, now).avatars[k].character == st.avatars[k].character
    decreases |ids|
  {
    if ids != [] {
      var init := ids[..|ids| - 1];
      RunFrame(st, init, responses, resolve, now);
    }
  }

  /**
   * Every listed avatar that has a character mapping ends the run stamped
   * now, whether it was fetched or given the placeholder.
   */
  lemma {:induction false} RunStampsListed(st: Breaker, ids: seq<int>, responses: seq<Option<seq<Skill>>>, resolve: Resolver, now: int, k: int)
    requires AvatarsValid(st.avatars)
    requires k in ids && k in st.avatars && st.avatars[k].character.Some?
    ensures k in TalentRun(st, ids, responses, resolve, now).avatars
    ensures TalentRun(st, ids, responses, resolve, now).avatars[k].talentStamp == At(now)
    decreases |ids|
  {
    var init := ids[..|ids| - 1];
    RunFrame(st, init, responses, resolve, now);
    if ids[|ids| - 1] != k {
      assert k in init by {
        var i :| 0 <= i < |ids| && ids[i] == k;
        assert init[i] == k;
      }
      RunStampsListed(st, init, responses, resolve, now, k);
    }
  }
}
