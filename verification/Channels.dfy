/**
 Chat channels. Messages form a DAG: each links to what its author saw as the head. The record keeps the
 head, and the history is read back level by level from it.

 `links` gives the links of every node; a node's ID is the hash of its content, so an ID has one node.
 `readable` are the IDs whose node can be fetched and whose message is valid.
 */
module Channels {
  import opened Common

  type Cid = nat

  type Links = Cid -> set<Cid>

  const HEAD_LIMIT := 49

  ghost predicate NoDuplicates(ids: seq<Cid>) {
    forall i, j | 0 <= i < j < |ids| :: ids[i] != ids[j]
  }

  /** The head entries a new node does not link to. */
  function Kept(head: seq<Cid>, links: set<Cid>): set<Cid> {
    Elems(head) - links
  }

  /** The head an update may leave; the map it is built from has no order. */
  ghost predicate Updates(head: seq<Cid>, id: Cid, links: set<Cid>, head': seq<Cid>) {
    var kept := Kept(head, links);
    && NoDuplicates(head')
    && (id !in kept ==> head' != [] && head'[0] == id)
    && (|kept| < HEAD_LIMIT ==> Elems(head') == kept + {id})
    && (|kept| >= HEAD_LIMIT ==> exists k <- kept :: Elems(head') == {k} + if id in kept then {} else {id})
  }

  class Channel {
    var head: seq<Cid>
    /** The level the last listing ended at. */
    var cache: set<Cid>

    constructor ()
      ensures head == [] && cache == {}
    {
      head, cache := [], {};
    }

    method UpdateHead(id: Cid, links: set<Cid>)
      modifies `head
      ensures Updates(old(head), id, links, head)
    {
      var ids: set<Cid> := {};
      for i := 0 to |head|
        invariant ids == Elems(head[..i])
      {
        assert head[..i + 1] == head[..i] + [head[i]];
        ids := ids + {head[i]};
      }
      assert head[..|head|] == head;
      var state: seq<Cid>;
      ids := ids - links;
      state := Rebuild(id, ids, |ids| >= HEAD_LIMIT);
      head := state;
    }

    /** The new node first, then what is kept; a full map gives up all but one. */
    method Rebuild(id: Cid, ids: set<Cid>, full: bool) returns (state: seq<Cid>)
      requires full ==> ids != {}
      ensures NoDuplicates(state)
      ensures id !in ids ==> state != [] && state[0] == id
      ensures !full ==> Elems(state) == ids + {id}
      ensures full ==> exists k <- ids :: Elems(state) == {k} + if id in ids then {} else {id}
    {
      hide NoDuplicates, Elems;
      ghost var own: set<Cid> := if id in ids then {} else {id};
      state := if id in ids then [] else [id];
      OneEntry(id);
      var rest := ids;
      while rest != {}
        invariant rest <= ids && NoDuplicates(state)
        invariant Elems(state) == (ids - rest) + own
        invariant own != {} ==> state != [] && state[0] == id
        invariant full ==> rest == ids
        decreases rest
      {
        var x :| x in rest;
        AppendFresh(state, x);
        rest := rest - {x};
        state := state + [x];
        if full {
          assert Elems(state) == {x} + own;
          return;
        }
      }
      assert !full;
    }

    /**
     The history, level by level, until a level has no links or the limit is reached. `height` bounds how
     far the links below a node reach.
     */
    method Messages(links: Links, readable: set<Cid>, from: Option<Cid>, limit: int, ghost height: Cid -> nat)
      returns (ret: seq<Cid>)
      requires Acyclic(links, height)
      modifies `cache
      ensures
        var start := if from.None? then Elems(head) else if from.value in old(cache) then old(cache) else {};
        var most := if limit <= 0 then 20 else limit;
        && IsPage(links, readable, start, from, most, ret, cache)
        && (forall x <- ret :: Reaches(links, readable, start, x) && Some(x) != from)
        && (forall x: Cid :: Reaches(links, readable, start, x) && Some(x) != from ==> x in ret || Reaches(links, readable, cache, x))
        && (|ret| < most ==> forall x: Cid :: Reaches(links, readable, start, x) && Some(x) != from ==> x in ret)
        && (|ret| >= most ==> exists x :: x in ret && x in cache)
        && (forall i | most - 1 <= i < |ret| :: ret[i] in cache)
    {
      hide ListsLevels, Flat, LevelAt, Shown, NextLevel, NoDuplicates, IsPage, Acyclic, Reaches;
      var most := if limit <= 0 then 20 else limit;
      var level := if from.None? then Elems(head) else if from.value in cache then cache else {};
      ghost var start := level;
      ghost var parts: seq<seq<Cid>> := [];
      ret := [];
      ghost var bound := Bound(level, height);
      NoLevels(links, readable, start, from);
      while true
        invariant level == LevelAt(links, readable, start, |parts|) && ListsLevels(links, readable, start, from, parts)
        invariant ret == Flat(parts) && |ret| < most
        invariant forall y <- level :: height(y) <= bound
        decreases bound
      {
        var part, next := ReadLevel(links, readable, from, level);
        OneMoreLevel(links, readable, start, from, most, parts, part, next);
        parts, ret := parts + [part], ret + part;
        if next == {} || |ret| >= most {
          break;
        }
        GoesDown(links, readable, level, next, height, bound);
        level, bound := next, bound - 1;
      }
      PageLaws(links, readable, start, from, most, ret, level);
      cache := level;
    }

    /** Every readable message of a level is listed once, and its links form the next level. */
    method ReadLevel(links: Links, readable: set<Cid>, from: Option<Cid>, level: set<Cid>)
      returns (part: seq<Cid>, next: set<Cid>)
      ensures NoDuplicates(part) && Elems(part) == Shown(readable, from, level)
      ensures next == NextLevel(links, readable, level)
    {
      part, next := [], {};
      var rest := level;
      OneEntry(0);
      while rest != {}
        invariant rest <= level && NoDuplicates(part)
        invariant Elems(part) == Shown(readable, from, level - rest)
        invariant next == NextLevel(links, readable, level - rest)
        decreases rest
      {
        var id :| id in rest;
        ghost var done := level - rest;
        rest := rest - {id};
        assert level - rest == done + {id};
        assert NextLevel(links, readable, done + {id}) == NextLevel(links, readable, done) + if id in readable then links(id) else {};
        if id in readable {
          if Some(id) != from {
            AppendFresh(part, id);
            part := part + [id];
          }
          next := next + links(id);
        }
      }
      assert level - rest == level;
    }
  }

  lemma AppendFresh(ids: seq<Cid>, x: Cid)
    requires NoDuplicates(ids) && x !in Elems(ids)
    ensures NoDuplicates(ids + [x]) && Elems(ids + [x]) == Elems(ids) + {x}
  {
  }

  lemma OneEntry(id: Cid)
    ensures NoDuplicates([]) && Elems<Cid>([]) == {} && NoDuplicates([id]) && Elems([id]) == {id}
  {
  }

  // ---- the graph -----------------------------------------------------------------------------------

  ghost predicate Acyclic(links: Links, height: Cid -> nat) {
    forall a: Cid, b: Cid | b in links(a) :: height(b) < height(a)
  }

  /** A chain of readable nodes, each linking to the next. */
  ghost predicate Chain(links: Links, readable: set<Cid>, p: seq<Cid>) {
    && p != [] && (forall x <- p :: x in readable)
    && forall i | 0 <= i < |p| - 1 :: p[i + 1] in links(p[i])
  }

  ghost predicate Reaches(links: Links, readable: set<Cid>, start: set<Cid>, x: Cid) {
    exists p :: Chain(links, readable, p) && p[0] in start && p[|p| - 1] == x
  }

  /** What the readable nodes of a level link to. */
  ghost function NextLevel(links: Links, readable: set<Cid>, level: set<Cid>): set<Cid> {
    set y, z | y in level && y in readable && z in links(y) :: z
  }

  ghost function LevelAt(links: Links, readable: set<Cid>, start: set<Cid>, n: nat): set<Cid> {
    if n == 0 then start else NextLevel(links, readable, LevelAt(links, readable, start, n - 1))
  }

  /** What a listing shows of a level. */
  ghost function Shown(readable: set<Cid>, from: Option<Cid>, level: set<Cid>): set<Cid> {
    set x | x in level && x in readable && Some(x) != from
  }

  function Flat(parts: seq<seq<Cid>>): seq<Cid> {
    if parts == [] then [] else Flat(parts[..|parts| - 1]) + parts[|parts| - 1]
  }

  ghost predicate ListsLevels(links: Links, readable: set<Cid>, start: set<Cid>, from: Option<Cid>, parts: seq<seq<Cid>>) {
    forall i {:trigger parts[i]} | 0 <= i < |parts| ::
      NoDuplicates(parts[i]) && Elems(parts[i]) == Shown(readable, from, LevelAt(links, readable, start, i))
  }

  /** One page: whole levels, the limit not reached before the last one, which is the one cached. */
  ghost predicate PageOf(links: Links, readable: set<Cid>, start: set<Cid>, from: Option<Cid>, most: int,
                         ret: seq<Cid>, cache: set<Cid>, parts: seq<seq<Cid>>) {
    && parts != [] && ret == Flat(parts) && ListsLevels(links, readable, start, from, parts)
    && cache == LevelAt(links, readable, start, |parts| - 1)
    && |Flat(parts[..|parts| - 1])| < most
    && (LevelAt(links, readable, start, |parts|) == {} || |ret| >= most)
  }

  ghost predicate IsPage(links: Links, readable: set<Cid>, start: set<Cid>, from: Option<Cid>, most: int,
                         ret: seq<Cid>, cache: set<Cid>) {
    exists parts :: PageOf(links, readable, start, from, most, ret, cache, parts)
  }

  lemma Itself(links: Links, readable: set<Cid>, start: set<Cid>, x: Cid)
    requires x in start && x in readable
    ensures Reaches(links, readable, start, x)
  {
    assert Chain(links, readable, [x]);
  }

  lemma OneFurther(links: Links, readable: set<Cid>, start: set<Cid>, y: Cid, z: Cid)
    requires Reaches(links, readable, start, y) && z in links(y) && z in readable
    ensures Reaches(links, readable, start, z)
  {
    var p :| Chain(links, readable, p) && p[0] in start && p[|p| - 1] == y;
    assert Chain(links, readable, p + [z]);
    assert (p + [z])[|p|] == z;
  }

  lemma {:induction false} LevelIsReached(links: Links, readable: set<Cid>, start: set<Cid>, n: nat, x: Cid)
    requires x in LevelAt(links, readable, start, n) && x in readable
    ensures Reaches(links, readable, start, x)
  {
    if n == 0 {
      Itself(links, readable, start, x);
    } else {
      var y :| y in LevelAt(links, readable, start, n - 1) && y in readable && x in links(y);
      LevelIsReached(links, readable, start, n - 1, y);
      OneFurther(links, readable, start, y, x);
    }
  }

  lemma {:induction false} ChainGoesDown(links: Links, readable: set<Cid>, start: set<Cid>, p: seq<Cid>, i: nat)
    requires Chain(links, readable, p) && p[0] in start && i < |p|
    ensures p[i] in LevelAt(links, readable, start, i)
  {
    if i > 0 {
      ChainGoesDown(links, readable, start, p, i - 1);
      assert p[i - 1] in readable && p[i - 1 + 1] in links(p[i - 1]);
    }
  }

  lemma ReachedAtLevel(links: Links, readable: set<Cid>, start: set<Cid>, x: Cid) returns (n: nat)
    requires Reaches(links, readable, start, x)
    ensures x in LevelAt(links, readable, start, n) && x in readable
  {
    var p :| Chain(links, readable, p) && p[0] in start && p[|p| - 1] == x;
    n := |p| - 1;
    ChainGoesDown(links, readable, start, p, n);
    assert p[n] in p;
  }

  lemma {:induction false} LevelsGoOn(links: Links, readable: set<Cid>, start: set<Cid>, n: nat, k: nat)
    ensures LevelAt(links, readable, LevelAt(links, readable, start, n), k) == LevelAt(links, readable, start, n + k)
  {
    if k > 0 {
      LevelsGoOn(links, readable, start, n, k - 1);
    }
  }

  lemma {:induction false} NothingFurtherDown(links: Links, readable: set<Cid>, start: set<Cid>, n: nat, k: nat)
    requires LevelAt(links, readable, start, n) == {} && n <= k
    ensures LevelAt(links, readable, start, k) == {}
  {
    if n < k {
      NothingFurtherDown(links, readable, start, n, k - 1);
    }
  }

  lemma {:induction false} InFlat(parts: seq<seq<Cid>>, x: Cid)
    ensures x in Flat(parts) <==> exists i :: 0 <= i < |parts| && x in parts[i]
  {
    if parts != [] {
      var init := parts[..|parts| - 1];
      InFlat(init, x);
      if i :| 0 <= i < |init| && x in init[i] {
        assert x in parts[i];
      }
      if i :| 0 <= i < |parts| && x in parts[i] {
        assert i < |init| ==> x in init[i];
      }
    }
  }

  lemma ShownInPage(links: Links, readable: set<Cid>, start: set<Cid>, from: Option<Cid>, parts: seq<seq<Cid>>, x: Cid)
    requires ListsLevels(links, readable, start, from, parts)
    ensures x in Flat(parts) ==>
      x in readable && Some(x) != from && exists i :: 0 <= i < |parts| && x in LevelAt(links, readable, start, i)
    ensures x in readable && Some(x) != from ==>
      forall i | 0 <= i < |parts| && x in LevelAt(links, readable, start, i) :: x in Flat(parts)
  {
    hide Flat, LevelAt;
    InFlat(parts, x);
    if x in Flat(parts) {
      var i :| 0 <= i < |parts| && x in parts[i];
      assert x in Elems(parts[i]);
      assert x in LevelAt(links, readable, start, i);
    }
    forall i | 0 <= i < |parts| && x in LevelAt(links, readable, start, i) && x in readable && Some(x) != from
      ensures x in Flat(parts)
    {
      assert x in Elems(parts[i]);
      assert x in parts[i];
    }
  }

  lemma NoLevels(links: Links, readable: set<Cid>, start: set<Cid>, from: Option<Cid>)
    ensures start == LevelAt(links, readable, start, 0) && ListsLevels(links, readable, start, from, []) && Flat([]) == []
  {
  }

  lemma OneMoreLevel(links: Links, readable: set<Cid>, start: set<Cid>, from: Option<Cid>, most: int,
                     parts: seq<seq<Cid>>, part: seq<Cid>, next: set<Cid>)
    requires ListsLevels(links, readable, start, from, parts) && |Flat(parts)| < most
    requires NoDuplicates(part) && Elems(part) == Shown(readable, from, LevelAt(links, readable, start, |parts|))
    requires next == NextLevel(links, readable, LevelAt(links, readable, start, |parts|))
    ensures ListsLevels(links, readable, start, from, parts + [part]) && Flat(parts + [part]) == Flat(parts) + part
    ensures next == LevelAt(links, readable, start, |parts + [part]|)
    ensures next == {} || |Flat(parts) + part| >= most ==>
      IsPage(links, readable, start, from, most, Flat(parts) + part, LevelAt(links, readable, start, |parts|))
  {
    hide NoDuplicates, Shown, NextLevel;
    var more := parts + [part];
    assert more[..|more| - 1] == parts;
    forall i | 0 <= i < |more|
      ensures NoDuplicates(more[i]) && Elems(more[i]) == Shown(readable, from, LevelAt(links, readable, start, i))
    {
      if i < |parts| {
        assert more[i] == parts[i];
      }
    }
    if next == {} || |Flat(parts) + part| >= most {
      assert PageOf(links, readable, start, from, most, Flat(more), LevelAt(links, readable, start, |parts|), more);
    }
  }

  /** A page lists what is reached from its start, or leaves it in reach of the cached level. */
  lemma PageReach(links: Links, readable: set<Cid>, start: set<Cid>, from: Option<Cid>, most: int,
                  ret: seq<Cid>, cache: set<Cid>, x: Cid)
    requires IsPage(links, readable, start, from, most, ret, cache)
    ensures x in ret ==> Reaches(links, readable, start, x) && Some(x) != from
    ensures Reaches(links, readable, start, x) && Some(x) != from ==>
      x in ret || (Reaches(links, readable, cache, x) && |ret| >= most)
  {
    var parts: seq<seq<Cid>> :| PageOf(links, readable, start, from, most, ret, cache, parts);
    ShownInPage(links, readable, start, from, parts, x);
    if x in ret {
      var i :| 0 <= i < |parts| && x in LevelAt(links, readable, start, i);
      LevelIsReached(links, readable, start, i, x);
    }
    if Reaches(links, readable, start, x) && Some(x) != from && x !in ret {
      var n := ReachedAtLevel(links, readable, start, x);
      var last := |parts| - 1;
      if |ret| < most {
        NothingFurtherDown(links, readable, start, last + 1, n);
      } else {
        LevelsGoOn(links, readable, start, last, n - last);
        LevelIsReached(links, readable, cache, n - last, x);
      }
    }
  }

  /** A page that reached its limit ends in the cached level, so its caller can go on from there. */
  lemma PageGoesOn(links: Links, readable: set<Cid>, start: set<Cid>, from: Option<Cid>, most: int, ret: seq<Cid>, cache: set<Cid>)
    returns (x: Cid)
    requires IsPage(links, readable, start, from, most, ret, cache) && |ret| >= most
    ensures x in ret && x in cache
  {
    var parts: seq<seq<Cid>> :| PageOf(links, readable, start, from, most, ret, cache, parts);
    var last := parts[|parts| - 1];
    assert |ret| == |Flat(parts[..|parts| - 1])| + |last|;
    x := last[0];
    assert x in Elems(last);
  }

  /** Only the level at which the limit is reached can take a page over it. */
  lemma PageStopsAtLimit(links: Links, readable: set<Cid>, start: set<Cid>, from: Option<Cid>, most: int, ret: seq<Cid>, cache: set<Cid>)
    requires IsPage(links, readable, start, from, most, ret, cache)
    ensures forall i | most - 1 <= i < |ret| :: ret[i] in cache
  {
    var parts: seq<seq<Cid>> :| PageOf(links, readable, start, from, most, ret, cache, parts);
    var init, last := Flat(parts[..|parts| - 1]), parts[|parts| - 1];
    assert ret == init + last;
    forall i | most - 1 <= i < |ret| ensures ret[i] in cache {
      assert ret[i] == last[i - |init|];
      assert last[i - |init|] in Elems(last);
    }
  }

  lemma PageLaws(links: Links, readable: set<Cid>, start: set<Cid>, from: Option<Cid>, most: int, ret: seq<Cid>, cache: set<Cid>)
    requires IsPage(links, readable, start, from, most, ret, cache)
    ensures forall x <- ret :: Reaches(links, readable, start, x) && Some(x) != from
    ensures forall x: Cid :: Reaches(links, readable, start, x) && Some(x) != from ==>
      x in ret || (Reaches(links, readable, cache, x) && |ret| >= most)
    ensures |ret| >= most ==> exists x :: x in ret && x in cache
    ensures forall i | most - 1 <= i < |ret| :: ret[i] in cache
  {
    hide IsPage, Reaches;
    PageStopsAtLimit(links, readable, start, from, most, ret, cache);
    forall x: Cid
      ensures x in ret ==> Reaches(links, readable, start, x) && Some(x) != from
      ensures Reaches(links, readable, start, x) && Some(x) != from ==>
        x in ret || (Reaches(links, readable, cache, x) && |ret| >= most)
    {
      PageReach(links, readable, start, from, most, ret, cache, x);
    }
    if |ret| >= most {
      var x := PageGoesOn(links, readable, start, from, most, ret, cache);
    }
  }

  // ---- paging ----------------------------------------------------------------------------------------

  /** One call of Messages, and the level it leaves cached. */
  datatype Call = Call(from: Option<Cid>, most: int, ret: seq<Cid>, cache: set<Cid>)

  /** The first call starts at the head, each later one at a listed message of the cached level. */
  ghost predicate Paging(links: Links, readable: set<Cid>, head: set<Cid>, calls: seq<Call>) {
    forall i {:trigger calls[i]} | 0 <= i < |calls| ::
      var c := calls[i];
      if i == 0 then c.from.None? && IsPage(links, readable, head, None, c.most, c.ret, c.cache)
      else
        && c.from.Some? && c.from.value in calls[i - 1].cache && Listed(calls[..i], c.from.value)
        && IsPage(links, readable, calls[i - 1].cache, c.from, c.most, c.ret, c.cache)
  }

  ghost predicate Listed(calls: seq<Call>, x: Cid) {
    exists i :: 0 <= i < |calls| && x in calls[i].ret
  }

  lemma LastCall(links: Links, readable: set<Cid>, head: set<Cid>, calls: seq<Call>)
    requires Paging(links, readable, head, calls) && calls != []
    ensures
      var n := |calls| - 1;
      var last := calls[n];
      && Paging(links, readable, head, calls[..n])
      && if n == 0 then last.from.None? && IsPage(links, readable, head, None, last.most, last.ret, last.cache)
         else
           && last.from.Some? && Listed(calls[..n], last.from.value)
           && IsPage(links, readable, calls[n - 1].cache, last.from, last.most, last.ret, last.cache)
  {
    hide IsPage, Listed;
    var init := calls[..|calls| - 1];
    forall i {:trigger init[i]} | 0 <= i < |init|
      ensures init[i] == calls[i] && init[..i] == calls[..i] && (i > 0 ==> init[i - 1] == calls[i - 1])
    {
    }
    assert calls[|calls| - 1] in calls;
  }

  lemma ListedMore(calls: seq<Call>, n: nat, x: Cid)
    requires n <= |calls| && Listed(calls[..n], x)
    ensures Listed(calls, x)
  {
    var i :| 0 <= i < n && x in calls[..n][i].ret;
    assert x in calls[i].ret;
  }

  lemma ListedLast(calls: seq<Call>, x: Cid)
    requires calls != [] && x in calls[|calls| - 1].ret
    ensures Listed(calls, x)
  {
  }

  /** However often the caller pages on: what the head reaches was listed, or is in reach of the cached level. */
  lemma {:induction false} PagingLosesNothing(links: Links, readable: set<Cid>, head: set<Cid>, calls: seq<Call>, x: Cid)
    requires Paging(links, readable, head, calls) && calls != [] && Reaches(links, readable, head, x)
    ensures Listed(calls, x) || (Reaches(links, readable, calls[|calls| - 1].cache, x) && |calls[|calls| - 1].ret| >= calls[|calls| - 1].most)
    decreases |calls|
  {
    hide IsPage, Reaches, Paging, Listed;
    var n := |calls| - 1;
    var last := calls[n];
    LastCall(links, readable, head, calls);
    if x in last.ret {
      ListedLast(calls, x);
    } else if n == 0 {
      PageReach(links, readable, head, None, last.most, last.ret, last.cache, x);
    } else {
      PagingLosesNothing(links, readable, head, calls[..n], x);
      assert calls[..n][n - 1] == calls[n - 1];
      if Listed(calls[..n], x) {
        ListedMore(calls, n, x);
      } else {
        PageReach(links, readable, calls[n - 1].cache, last.from, last.most, last.ret, last.cache, x);
      }
    }
  }

  /** Paging on until a page falls short of its limit, an empty one for example, lists every message the head reaches. */
  lemma ShortPageEndsPaging(links: Links, readable: set<Cid>, head: set<Cid>, calls: seq<Call>)
    requires Paging(links, readable, head, calls) && calls != [] && |calls[|calls| - 1].ret| < calls[|calls| - 1].most
    ensures forall x: Cid :: Reaches(links, readable, head, x) ==> Listed(calls, x)
  {
    hide Paging, Reaches, Listed;
    forall x: Cid | Reaches(links, readable, head, x) ensures Listed(calls, x) {
      PagingLosesNothing(links, readable, head, calls, x);
    }
  }

  /** A page is empty exactly when its start reaches nothing but the message it was asked to go on from. */
  lemma EmptyPageExactly(links: Links, readable: set<Cid>, start: set<Cid>, from: Option<Cid>, most: int, ret: seq<Cid>, cache: set<Cid>)
    requires IsPage(links, readable, start, from, most, ret, cache) && most > 0
    ensures ret == [] <==> forall x: Cid :: Reaches(links, readable, start, x) ==> Some(x) == from
  {
    hide IsPage, Reaches;
    PageLaws(links, readable, start, from, most, ret, cache);
    MemberOrEmpty(ret);
  }

  lemma GoesDown(links: Links, readable: set<Cid>, level: set<Cid>, next: set<Cid>, height: Cid -> nat, bound: nat)
    requires Acyclic(links, height) && next != {} && (forall y <- level :: height(y) <= bound)
    requires next == NextLevel(links, readable, level)
    ensures bound > 0 && forall z <- next :: height(z) <= bound - 1
  {
    forall z | z in next ensures bound > 0 && height(z) <= bound - 1 {
      var y :| y in level && y in readable && z in links(y);
      assert height(z) < height(y);
    }
    var z :| z in next;
  }

  ghost function Bound(level: set<Cid>, height: Cid -> nat): (b: nat)
    ensures forall y <- level :: height(y) <= b
  {
    if level == {} then 0
    else
      var y :| y in level;
      var b := Bound(level - {y}, height);
      assert forall z <- level :: z == y || z in level - {y};
      if height(y) > b then height(y) else b
  }

  // ---- runs ------------------------------------------------------------------------------------------

  /** A node that was received, and the head it left. */
  datatype Receipt = Receipt(id: Cid, head: seq<Cid>)

  function HeadAfter(rs: seq<Receipt>): seq<Cid> {
    if rs == [] then [] else rs[|rs| - 1].head
  }

  function Received(rs: seq<Receipt>): set<Cid> {
    set r | r in rs :: r.id
  }

  ghost predicate Feasible(links: Links, rs: seq<Receipt>) {
    rs == [] ||
    var init, last := rs[..|rs| - 1], rs[|rs| - 1];
    Feasible(links, init) && Updates(HeadAfter(init), last.id, links(last.id), last.head)
  }

  /** The map of kept heads never fills up. */
  ghost predicate UnderCap(links: Links, rs: seq<Receipt>) {
    rs == [] ||
    (UnderCap(links, rs[..|rs| - 1]) && |Kept(HeadAfter(rs[..|rs| - 1]), links(rs[|rs| - 1].id))| < HEAD_LIMIT)
  }

  /** Nodes arrive once, after everything they link to. */
  ghost predicate Causal(links: Links, rs: seq<Receipt>) {
    rs == [] ||
    var init, last := rs[..|rs| - 1], rs[|rs| - 1];
    Causal(links, init) && last.id !in Received(init) && links(last.id) <= Received(init)
  }

  lemma ReceivedSnoc(rs: seq<Receipt>)
    requires rs != []
    ensures Received(rs) == Received(rs[..|rs| - 1]) + {rs[|rs| - 1].id}
  {
    assert rs == rs[..|rs| - 1] + [rs[|rs| - 1]];
  }

  lemma {:induction false} DistinctCount(ids: seq<Cid>)
    requires NoDuplicates(ids)
    ensures |Elems(ids)| == |ids|
  {
    if ids != [] {
      var init, last := ids[..|ids| - 1], ids[|ids| - 1];
      DistinctCount(init);
      assert ids == init + [last];
      assert Elems(ids) == Elems(init) + {last} && last !in Elems(init);
    }
  }

  /** After any update the head has no duplicates and at most 49 entries. */
  lemma HeadStaysSmall(links: Links, rs: seq<Receipt>)
    requires Feasible(links, rs)
    ensures NoDuplicates(HeadAfter(rs)) && |HeadAfter(rs)| <= 49
  {
    hide NoDuplicates;
    if rs == [] {
      OneEntry(0);
    } else {
      UpdateIsSmall(HeadAfter(rs[..|rs| - 1]), rs[|rs| - 1].id, links(rs[|rs| - 1].id), HeadAfter(rs));
    }
  }

  lemma UpdateIsSmall(head: seq<Cid>, id: Cid, links: set<Cid>, head': seq<Cid>)
    requires Updates(head, id, links, head')
    ensures NoDuplicates(head') && |head'| <= 49
  {
    hide NoDuplicates, Elems;
    DistinctCount(head');
    var kept := Kept(head, links);
    if |kept| >= HEAD_LIMIT {
      var k :| k in kept && Elems(head') == {k} + if id in kept then {} else {id};
      SubsetCount(Elems(head'), {k, id});
    } else {
      AtMostOneMore(kept, id);
    }
  }

  lemma AtMostOneMore(a: set<Cid>, x: Cid)
    ensures |a + {x}| <= |a| + 1
  {
    if x in a {
      assert a + {x} == a;
    }
  }

  /** Below 49 of them, all the entries the new node does not link to stay, and nothing else but the node joins. */
  lemma FewEntriesStay(head: seq<Cid>, id: Cid, links: set<Cid>, head': seq<Cid>)
    requires Updates(head, id, links, head') && |Elems(head) - links| < 49
    ensures forall x :: x in head' <==> x == id || (x in head && x !in links)
    ensures id !in head ==> head'[0] == id
  {
    assert forall x :: x in head' <==> x in Elems(head');
    assert forall x :: x in head <==> x in Elems(head);
    MemberOrEmpty(head');
    assert id in head';
  }

  /** A full head drops every entry it should have kept but one. */
  lemma FullHeadForgets(head: seq<Cid>, id: Cid, links: set<Cid>, head': seq<Cid>)
    requires Updates(head, id, links, head') && |Kept(head, links)| >= 49
    ensures exists k <- Kept(head, links) :: Kept(head, links) - Elems(head') == Kept(head, links) - {k}
    ensures |Kept(head, links) - Elems(head')| == |Kept(head, links)| - 1
    ensures id !in head ==> id in head'
  {
    var kept := Kept(head, links);
    var k :| k in kept && Elems(head') == {k} + if id in kept then {} else {id};
    assert kept - Elems(head') == kept - {k};
  }

  lemma ReachesMore(links: Links, a: set<Cid>, b: set<Cid>, start: set<Cid>, more: set<Cid>, x: Cid)
    requires Reaches(links, a, start, x) && a <= b && start <= more
    ensures Reaches(links, b, more, x)
  {
    var p :| Chain(links, a, p) && p[0] in start && p[|p| - 1] == x;
    assert Chain(links, b, p);
  }

  lemma OneBefore(links: Links, readable: set<Cid>, n: Cid, h: Cid, x: Cid)
    requires Reaches(links, readable, {h}, x) && h in links(n) && n in readable
    ensures Reaches(links, readable, {n}, x)
  {
    var p :| Chain(links, readable, p) && p[0] in {h} && p[|p| - 1] == x;
    assert Chain(links, readable, [n] + p);
    assert ([n] + p)[|p|] == x;
  }

  /** Below the cap every received node can be reached from the head, whatever arrived in whatever order. */
  lemma {:induction false} HeadReachesEverything(links: Links, rs: seq<Receipt>, x: Cid)
    requires Feasible(links, rs) && UnderCap(links, rs) && x in Received(rs)
    ensures Reaches(links, Received(rs), Elems(HeadAfter(rs)), x)
  {
    var init, last := rs[..|rs| - 1], rs[|rs| - 1];
    var all, head := Received(rs), Elems(last.head);
    ReceivedSnoc(rs);
    assert last.id in head && last.id in all;
    if x == last.id {
      Itself(links, all, head, x);
    } else {
      HeadReachesEverything(links, init, x);
      var p :| Chain(links, Received(init), p) && p[0] in Elems(HeadAfter(init)) && p[|p| - 1] == x;
      assert Chain(links, all, p);
      if p[0] in links(last.id) {
        assert Reaches(links, all, {p[0]}, x);
        OneBefore(links, all, last.id, p[0], x);
        ReachesMore(links, all, all, {last.id}, head, x);
      } else {
        assert p[0] in head;
      }
    }
  }

  /** `x` and every received node it can be reached from are readable. */
  ghost predicate ReadableUpward(links: Links, received: set<Cid>, readable: set<Cid>, x: Cid) {
    forall y <- received :: Reaches(links, received, {y}, x) ==> y in readable
  }

  /** A listing from the head that stays below the limit shows every received node that can be read its way down. */
  lemma ReceivedIsListed(links: Links, rs: seq<Receipt>, readable: set<Cid>, ret: seq<Cid>)
    requires Feasible(links, rs) && UnderCap(links, rs)
    requires forall x: Cid :: Reaches(links, readable, Elems(HeadAfter(rs)), x) ==> x in ret
    ensures forall x <- Received(rs) :: ReadableUpward(links, Received(rs), readable, x) ==> x in ret
  {
    forall x | x in Received(rs) && ReadableUpward(links, Received(rs), readable, x) ensures x in ret {
      HeadReachesEverything(links, rs, x);
      ReachesReadably(links, Received(rs), readable, Elems(HeadAfter(rs)), x);
    }
  }

  lemma ReachesReadably(links: Links, received: set<Cid>, readable: set<Cid>, start: set<Cid>, x: Cid)
    requires Reaches(links, received, start, x) && ReadableUpward(links, received, readable, x)
    ensures Reaches(links, readable, start, x)
  {
    var p :| Chain(links, received, p) && p[0] in start && p[|p| - 1] == x;
    forall i | 0 <= i < |p| ensures p[i] in readable {
      assert Chain(links, received, p[i..]);
      assert Reaches(links, received, {p[i]}, x);
    }
    assert Chain(links, readable, p);
  }

  /** The received nodes no received node links to. */
  ghost function Tips(links: Links, received: set<Cid>): set<Cid> {
    set x | x in received && !LinkedFrom(links, received, x)
  }

  ghost predicate LinkedFrom(links: Links, received: set<Cid>, x: Cid) {
    exists y <- received :: x in links(y)
  }

  lemma {:induction false} LinksStayInside(links: Links, rs: seq<Receipt>)
    requires Causal(links, rs)
    ensures forall y <- Received(rs) :: links(y) <= Received(rs)
  {
    if rs != [] {
      LinksStayInside(links, rs[..|rs| - 1]);
      ReceivedSnoc(rs);
    }
  }

  /** When nodes arrive once and after what they link to, the head is exactly the frontier. */
  lemma {:induction false} HeadIsTheFrontier(links: Links, rs: seq<Receipt>, height: Cid -> nat)
    requires Feasible(links, rs) && UnderCap(links, rs) && Causal(links, rs) && Acyclic(links, height)
    ensures Elems(HeadAfter(rs)) == Tips(links, Received(rs))
  {
    if rs != [] {
      var init, last := rs[..|rs| - 1], rs[|rs| - 1];
      HeadIsTheFrontier(links, init, height);
      LinksStayInside(links, init);
      ReceivedSnoc(rs);
      FrontierStep(links, Received(init), last.id, height);
    }
  }

  lemma FrontierStep(links: Links, received: set<Cid>, id: Cid, height: Cid -> nat)
    requires Acyclic(links, height) && id !in received && links(id) <= received
    requires forall y <- received :: links(y) <= received
    ensures Tips(links, received + {id}) == (Tips(links, received) - links(id)) + {id}
  {
    var all := received + {id};
    assert id in links(id) ==> height(id) < height(id);
    assert !LinkedFrom(links, all, id);
    forall x | x in received ensures LinkedFrom(links, all, x) <==> LinkedFrom(links, received, x) || x in links(id) {
      assert id in all;
    }
  }

  /** After every update so far, every received node can be reached from the head. */
  ghost predicate AlwaysReachable(links: Links, rs: seq<Receipt>) {
    rs == [] ||
    (AlwaysReachable(links, rs[..|rs| - 1]) && forall x <- Received(rs) :: Reaches(links, Received(rs), Elems(HeadAfter(rs)), x))
  }

  /** A node is reached from the head by being in it or through a node that links to it. */
  lemma HeadOrLinked(links: Links, received: set<Cid>, start: set<Cid>, t: Cid)
    requires Reaches(links, received, start, t)
    ensures t in start || LinkedFrom(links, received, t)
  {
    var p :| Chain(links, received, p) && p[0] in start && p[|p| - 1] == t;
    if |p| > 1 {
      assert p[|p| - 2] in received && p[|p| - 1] in links(p[|p| - 2]);
    }
  }

  /** An update of a full head cuts a node off. */
  lemma FullHeadCutsOff(links: Links, rs: seq<Receipt>, height: Cid -> nat) returns (t: Cid)
    requires rs != [] && Feasible(links, rs) && Causal(links, rs) && Acyclic(links, height) && UnderCap(links, rs[..|rs| - 1])
    requires |Kept(HeadAfter(rs[..|rs| - 1]), links(rs[|rs| - 1].id))| >= HEAD_LIMIT
    ensures t in Received(rs) && !Reaches(links, Received(rs), Elems(HeadAfter(rs)), t)
  {
    var init, last := rs[..|rs| - 1], rs[|rs| - 1];
    var kept := Kept(HeadAfter(init), links(last.id));
    HeadIsTheFrontier(links, init, height);
    LinksStayInside(links, init);
    ReceivedSnoc(rs);
    var k :| k in kept && Elems(last.head) == {k} + if last.id in kept then {} else {last.id};
    if kept - {k} == {} {
      SubsetCount(kept, {k});
    }
    t :| t in kept - {k};
    assert t in Tips(links, Received(init)) && t != last.id;
    assert !LinkedFrom(links, Received(rs), t);
    if Reaches(links, Received(rs), Elems(last.head), t) {
      HeadOrLinked(links, Received(rs), Elems(last.head), t);
    }
  }

  /** When nodes arrive once and after what they link to, all of them stay within reach exactly below the cap. */
  lemma {:induction false} ReachableExactlyBelowTheCap(links: Links, rs: seq<Receipt>, height: Cid -> nat)
    requires Feasible(links, rs) && Causal(links, rs) && Acyclic(links, height)
    ensures AlwaysReachable(links, rs) <==> UnderCap(links, rs)
  {
    if rs != [] {
      var init, last := rs[..|rs| - 1], rs[|rs| - 1];
      ReachableExactlyBelowTheCap(links, init, height);
      if UnderCap(links, rs) {
        forall x | x in Received(rs) ensures Reaches(links, Received(rs), Elems(HeadAfter(rs)), x) {
          HeadReachesEverything(links, rs, x);
        }
      } else if UnderCap(links, init) {
        var t := FullHeadCutsOff(links, rs, height);
      }
    }
  }
}
