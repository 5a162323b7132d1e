/**
 The transaction that database/ffsqlite lays over the public data files: writes are cached, getters
 scan the cache backwards, Commit plays the cache forward and undoes it when a write or the SQL commit
 fails. The database mutex makes a transaction the only one touching the files.
 */
module PublicData {
  import opened Common

  type Slug = nat

  datatype File =
    | Profile | Followers | Following | ListingIndex | RatingIndex
    | Listing(slug: Slug)
    | Rating(id: nat) | Image(path: nat)

  /** `Null` is what writing a nil list leaves in its file. */
  datatype Content = Null | Data(data: nat)

  type Files = map<File, Content>

  /** One cached value; `Skip` is a nil profile or listing, which is not written. */
  datatype Write = Put(file: File, content: Content) | DeleteListing(slug: Slug) | Skip

  datatype Error = NoError | ErrReadOnly | ErrFailed

  // ---- replay ------------------------------------------------------------------------------------

  /** A delete fails when there is no file to remove. */
  predicate CanApply(files: Files, w: Write) {
    w.DeleteListing? ==> Listing(w.slug) in files
  }

  function Apply(files: Files, w: Write): Files {
    match w
    case Put(f, c) => files[f := c]
    case DeleteListing(slug) => files - {Listing(slug)}
    case Skip => files
  }

  function Replay(files: Files, ws: seq<Write>): Files {
    if ws == [] then files else Apply(Replay(files, ws[..|ws| - 1]), ws[|ws| - 1])
  }

  predicate CanReplay(files: Files, ws: seq<Write>) {
    ws == [] || (CanReplay(files, ws[..|ws| - 1]) && CanApply(Replay(files, ws[..|ws| - 1]), ws[|ws| - 1]))
  }

  function Lookup(files: Files, f: File): Option<Content> {
    if f in files then Some(files[f]) else None
  }

  /** What a getter finds: the last value put in the transaction, or the file. */
  function Seen(files: Files, ws: seq<Write>, f: File): Option<Content> {
    if ws == [] then Lookup(files, f)
    else
      var w := ws[|ws| - 1];
      if w.Put? && w.file == f then Some(w.content) else Seen(files, ws[..|ws| - 1], f)
  }

  predicate Touches(w: Write, f: File) {
    (w.Put? && w.file == f) || (w.DeleteListing? && f == Listing(w.slug))
  }

  /** The last cached write that concerns the file is a delete. */
  predicate EndsDeleted(ws: seq<Write>, f: File) {
    ws != [] &&
    var w := ws[|ws| - 1];
    if Touches(w, f) then w.DeleteListing? else EndsDeleted(ws[..|ws| - 1], f)
  }

  /** The file never existed and nothing put it in this transaction. */
  predicate NeverThere(files: Files, ws: seq<Write>, f: File) {
    f !in files && forall w <- ws :: !(w.Put? && w.file == f)
  }

  lemma {:induction false} NeverSeen(files: Files, ws: seq<Write>, f: File)
    ensures Seen(files, ws, f).None? <==> NeverThere(files, ws, f)
  {
    if ws != [] {
      NeverSeen(files, ws[..|ws| - 1], f);
      assert ws == ws[..|ws| - 1] + [ws[|ws| - 1]];
    }
  }

  lemma {:induction false} ReplayedFile(files: Files, ws: seq<Write>, f: File)
    ensures Lookup(Replay(files, ws), f) == if EndsDeleted(ws, f) then None else Seen(files, ws, f)
  {
    if ws != [] {
      ReplayedFile(files, ws[..|ws| - 1], f);
    }
  }

  /**
   A getter returns what the files would hold after the commit, except for a listing deleted in the
   transaction: there it returns what was there before the delete.
   */
  lemma GettersAgreeWithReplay(files: Files, ws: seq<Write>, f: File)
    ensures Seen(files, ws, f) == Lookup(Replay(files, ws), f) <==> !EndsDeleted(ws, f) || NeverThere(files, ws, f)
  {
    ReplayedFile(files, ws, f);
    NeverSeen(files, ws, f);
  }

  lemma {:induction false} DeletedWasThere(files: Files, ws: seq<Write>, f: File)
    requires CanReplay(files, ws) && EndsDeleted(ws, f)
    ensures !NeverThere(files, ws, f)
  {
    var init, w := ws[..|ws| - 1], ws[|ws| - 1];
    assert ws == init + [w];
    if Touches(w, f) {
      ReplayedFile(files, init, f);
      NeverSeen(files, init, f);
    } else {
      DeletedWasThere(files, init, f);
    }
  }

  /** In a transaction that can commit, the getter is wrong for exactly the listings left deleted. */
  lemma StaleExactlyWhenDeleted(files: Files, ws: seq<Write>, f: File)
    requires CanReplay(files, ws)
    ensures Seen(files, ws, f) == Lookup(Replay(files, ws), f) <==> !EndsDeleted(ws, f)
  {
    GettersAgreeWithReplay(files, ws, f);
    if EndsDeleted(ws, f) {
      DeletedWasThere(files, ws, f);
    }
  }

  // ---- undo --------------------------------------------------------------------------------------

  /** Files whose previous value is kept for a rollback. */
  predicate Protected(f: File) {
    !f.Rating? && !f.Image?
  }

  function Target(w: Write): Option<File> {
    match w
    case Put(f, _) => Some(f)
    case DeleteListing(slug) => Some(Listing(slug))
    case Skip => None
  }

  /** What is saved before a write: the current value; a missing list as nil, anything else missing as nothing. */
  function Saved(files: Files, f: File): Write {
    if f in files then Put(f, files[f])
    else if f.Profile? || f.Listing? then Skip
    else Put(f, Null)
  }

  ghost predicate IsSaved(files: Files, u: Write) {
    exists f :: Protected(f) && u == Saved(files, f)
  }

  /** The rollback cache holds the old value of every protected file the commit cache touches, and only old values. */
  ghost predicate Covers(files: Files, undo: seq<Write>, ws: seq<Write>) {
    && (forall w <- ws :: Target(w).Some? && Protected(Target(w).value) ==> Saved(files, Target(w).value) in undo)
    && (forall u <- undo :: IsSaved(files, u))
  }

  lemma {:induction false} UndoRestores(files: Files, now: Files, undo: seq<Write>, f: File)
    requires f in files && Protected(f)
    requires forall u <- undo :: IsSaved(files, u)
    requires Saved(files, f) in undo || Lookup(now, f) == Lookup(files, f)
    ensures Lookup(Replay(now, undo), f) == Lookup(files, f)
  {
    if undo != [] {
      var init, u := undo[..|undo| - 1], undo[|undo| - 1];
      assert undo == init + [u];
      assert IsSaved(files, u);
      if u != Saved(files, f) {
        UndoRestores(files, now, init, f);
      }
    }
  }

  lemma {:induction false} Untouched(files: Files, ws: seq<Write>, f: File)
    requires forall w <- ws :: Target(w) != Some(f)
    ensures Lookup(Replay(files, ws), f) == Lookup(files, f)
  {
    if ws != [] {
      assert forall w <- ws[..|ws| - 1] :: w in ws;
      assert ws[|ws| - 1] in ws;
      Untouched(files, ws[..|ws| - 1], f);
    }
  }

  /** By name: the rollback restores the profile, both lists, both indexes and every listing, and no rating or image. */
  lemma RollbackRestoresByName(before: Files, now: Files, undo: seq<Write>, ws: seq<Write>)
    requires Covers(before, undo, ws)
    requires forall g :: (forall w <- ws :: Target(w) != Some(g)) ==> Lookup(now, g) == Lookup(before, g)
    ensures forall f <- {Profile, Followers, Following, ListingIndex, RatingIndex} ::
      f in before ==> Lookup(Replay(now, undo), f) == Some(before[f])
    ensures forall slug :: Listing(slug) in before ==> Lookup(Replay(now, undo), Listing(slug)) == Some(before[Listing(slug)])
    ensures forall id :: Lookup(Replay(now, undo), Rating(id)) == Lookup(now, Rating(id))
    ensures forall path :: Lookup(Replay(now, undo), Image(path)) == Lookup(now, Image(path))
  {
    forall f: File ensures f in before && !f.Rating? && !f.Image? ==> Lookup(Replay(now, undo), f) == Some(before[f]) {
      if f in before && !f.Rating? && !f.Image? {
        assert Protected(f);
        UndoRestores(before, now, undo, f);
      }
    }
    forall f: File | f.Rating? || f.Image? ensures Lookup(Replay(now, undo), f) == Lookup(now, f) {
      UndoMissesUnprotected(before, now, undo, f);
    }
  }

  // ---- the transaction ----------------------------------------------------------------------------

  datatype Sql = Pending | Committed | RolledBack

  /** What goes wrong in a commit or rollback: the write at an index, leaving `torn` in its file, or the SQL step. */
  datatype Faults = Faults(at: nat, torn: Option<Content>, sql: bool)

  /** No write of the list can fail: the fault lies beyond its end, or at a nil value, which is not written. */
  predicate Survives(ws: seq<Write>, at: nat) {
    at < |ws| ==> ws[at].Skip?
  }

  /**
   A rollback that may stop early has put the file back: all of `undo` was played, or the write that failed
   was for another file and this one's old value was written before it or never needed.
   */
  ghost predicate Undone(before: Files, undo: seq<Write>, at: nat, ws: seq<Write>, f: File) {
    || Survives(undo, at)
    || (&& Target(undo[at]) != Some(f)
        && (Saved(before, f) in undo[..at] || forall w <- ws :: Target(w) != Some(f)))
  }

  class FlatFileDB {
    var files: Files

    constructor ()
      ensures files == map[]
    {
      files := map[];
    }

    /** One write. A failed write leaves anything, or nothing, in the file. */
    method Write(w: Write, fault: bool, torn: Option<Content>) returns (err: Error)
      modifies this
      ensures err == NoError <==> (fault ==> w.Skip?) && CanApply(old(files), w)
      ensures err == NoError ==> files == Apply(old(files), w)
      ensures err != NoError ==> forall f :: Target(w) != Some(f) ==> Lookup(files, f) == Lookup(old(files), f)
    {
      err := NoError;
      match w {
        case Put(f, c) =>
          if fault {
            files := if torn.Some? then files[f := torn.value] else files - {f};
            return ErrFailed;
          }
          files := files[f := c];
        case DeleteListing(slug) =>
          if fault || Listing(slug) !in files {
            return ErrFailed;
          }
          files := files - {Listing(slug)};
        case Skip =>
      }
    }
  }

  class Tx {
    const db: FlatFileDB
    const isForWrites: bool
    var rollbackCache: seq<Write>
    var commitCache: seq<Write>
    var hooks: seq<nat>
    /** The hooks that have run, in order. */
    var ran: seq<nat>
    var sql: Sql
    var closed: bool

    constructor (db: FlatFileDB, isForWrites: bool)
      ensures this.db == db && this.isForWrites == isForWrites && !closed && sql.Pending?
      ensures rollbackCache == [] && commitCache == [] && hooks == [] && ran == []
    {
      this.db, this.isForWrites := db, isForWrites;
      rollbackCache, commitCache, hooks, ran, sql, closed := [], [], [], [], Pending, false;
    }

    ghost predicate Valid()
      reads this, db
    {
      Covers(db.files, rollbackCache, commitCache) && !closed && sql.Pending? && ran == []
    }

    /** GetProfile, GetFollowers, GetFollowing, GetListing, GetListingIndex and GetRatingIndex. */
    method Get(f: File) returns (c: Option<Content>)
      ensures c == Seen(db.files, commitCache, f)
    {
      var x := |commitCache|;
      assert commitCache[..x] == commitCache;
      while x > 0
        invariant x <= |commitCache|
        invariant Seen(db.files, commitCache, f) == Seen(db.files, commitCache[..x], f)
      {
        assert commitCache[..x][..x - 1] == commitCache[..x - 1];
        x := x - 1;
        var w := commitCache[x];
        if w.Put? && w.file == f {
          return Some(w.content);
        }
      }
      c := if f in db.files then Some(db.files[f]) else None;
    }

    method Remember(f: File, w: Write)
      requires Valid() && Protected(f) && Target(w) == Some(f)
      modifies `rollbackCache, `commitCache
      ensures Valid()
      ensures commitCache == old(commitCache) + [w] && rollbackCache == old(rollbackCache) + [Saved(db.files, f)]
    {
      rollbackCache := rollbackCache + [if f in db.files then Put(f, db.files[f])
                                        else if f.Profile? || f.Listing? then Skip
                                        else Put(f, Null)];
      commitCache := commitCache + [w];
    }

    /** SetProfile, SetFollowers, SetFollowing, SetListing, SetListingIndex and SetRatingIndex. */
    method Set(f: File, c: Content) returns (err: Error)
      requires Valid() && Protected(f)
      modifies `rollbackCache, `commitCache
      ensures Valid()
      ensures err == if isForWrites then NoError else ErrReadOnly
      ensures commitCache == old(commitCache) + if isForWrites then [Put(f, c)] else []
      ensures forall g :: Seen(db.files, commitCache, g) == (if isForWrites && g == f then Some(c) else Seen(db.files, old(commitCache), g))
    {
      if !isForWrites {
        return ErrReadOnly;
      }
      Remember(f, Put(f, c));
      assert commitCache[..|commitCache| - 1] == old(commitCache);
      err := NoError;
    }

    /** SetRating and SetImage save no old value. */
    method SetUnprotected(f: File, c: Content) returns (err: Error)
      requires Valid() && !Protected(f)
      modifies `commitCache
      ensures Valid()
      ensures err == if isForWrites then NoError else ErrReadOnly
      ensures commitCache == old(commitCache) + if isForWrites then [Put(f, c)] else []
    {
      if !isForWrites {
        return ErrReadOnly;
      }
      commitCache := commitCache + [Put(f, c)];
      err := NoError;
    }

    method Delete(slug: Slug) returns (err: Error)
      requires Valid()
      modifies `rollbackCache, `commitCache
      ensures Valid()
      ensures err == if isForWrites then NoError else ErrReadOnly
      ensures commitCache == old(commitCache) + if isForWrites then [DeleteListing(slug)] else []
    {
      if !isForWrites {
        return ErrReadOnly;
      }
      Remember(Listing(slug), DeleteListing(slug));
      err := NoError;
    }

    method RegisterCommitHook(hook: nat)
      modifies `hooks
      ensures hooks == old(hooks) + [hook]
    {
      hooks := hooks + [hook];
    }

    /** Plays the cache forward, then commits SQL, then runs the hooks; undoes everything if a step fails. */
    method Commit(faults: Faults, undo: Faults) returns (err: Error)
      requires Valid()
      modifies this, db
      ensures closed
      ensures !isForWrites ==> err == NoError && db.files == old(db.files) && ran == []
      ensures isForWrites ==>
        (err == NoError <==>
           Survives(old(commitCache), faults.at) && !faults.sql && CanReplay(old(db.files), old(commitCache)))
      ensures isForWrites && err == NoError ==>
        db.files == Replay(old(db.files), old(commitCache)) && ran == old(hooks) && sql.Committed?
      ensures isForWrites && err != NoError ==>
        && (forall f <- old(db.files) :: Protected(f) && Undone(old(db.files), rollbackCache, undo.at, commitCache, f) ==>
              Lookup(db.files, f) == Some(old(db.files)[f]))
        && ran == [] && sql == if Survives(rollbackCache, undo.at) && !undo.sql then RolledBack else Pending
    {
      if !isForWrites {
        closed := true;
        return NoError;
      }
      err := WriteAll(faults);
      if err == NoError && faults.sql {
        err := ErrFailed;
      }
      if err != NoError {
        var _ := Rollback(old(db.files), undo);
        return;
      }
      sql := Committed;
      var todo := hooks;
      for i := 0 to |todo|
        invariant ran == todo[..i] && sql.Committed?
        invariant db.files == Replay(old(db.files), old(commitCache))
      {
        ran := ran + [todo[i]];
      }
      closed := true;
    }

    /** The commit loop, stopped by the first write that fails. */
    method WriteAll(faults: Faults) returns (err: Error)
      requires Valid()
      modifies db
      ensures err == NoError <==> Survives(commitCache, faults.at) && CanReplay(old(db.files), commitCache)
      ensures err == NoError ==> db.files == Replay(old(db.files), commitCache)
      ensures forall f :: (forall w <- commitCache :: Target(w) != Some(f)) ==> Lookup(db.files, f) == Lookup(old(db.files), f)
    {
      ghost var was := db.files;
      for i := 0 to |commitCache|
        invariant (faults.at < i ==> commitCache[faults.at].Skip?) && CanReplay(was, commitCache[..i]) && db.files == Replay(was, commitCache[..i])
      {
        assert commitCache[..i + 1][..i] == commitCache[..i];
        err := db.Write(commitCache[i], i == faults.at, faults.torn);
        if err != NoError {
          StopsHere(was, commitCache, i, faults.at);
          forall f | forall w <- commitCache :: Target(w) != Some(f) ensures Lookup(db.files, f) == Lookup(was, f) {
            Untouched(was, commitCache[..i], f);
            assert commitCache[i] in commitCache;
          }
          return;
        }
      }
      assert commitCache[..|commitCache|] == commitCache;
      forall f | forall w <- commitCache :: Target(w) != Some(f) ensures Lookup(db.files, f) == Lookup(was, f) {
        Untouched(was, commitCache, f);
      }
      err := NoError;
    }

    /**
     Writes the saved values back, then rolls SQL back, stopping at the first failure. `before` is what the
     files held when the transaction began.
     */
    method Rollback(ghost before: Files, undo: Faults) returns (err: Error)
      requires Covers(before, rollbackCache, commitCache) && !closed
      requires forall f :: (forall w <- commitCache :: Target(w) != Some(f)) ==> Lookup(db.files, f) == Lookup(before, f)
      modifies db, `sql, `closed
      ensures closed
      ensures !isForWrites ==> err == NoError && db.files == old(db.files) && sql == old(sql)
      ensures isForWrites ==> (err == NoError <==> Survives(rollbackCache, undo.at) && !undo.sql)
      ensures isForWrites ==> sql == if err == NoError then RolledBack else old(sql)
      ensures isForWrites && Survives(rollbackCache, undo.at) ==> db.files == Replay(old(db.files), rollbackCache)
      ensures isForWrites ==>
        forall f <- before :: Protected(f) && Undone(before, rollbackCache, undo.at, commitCache, f) ==>
          Lookup(db.files, f) == Some(before[f])
    {
      closed := true;
      if !isForWrites {
        return NoError;
      }
      ghost var now := db.files;
      for i := 0 to |rollbackCache|
        invariant closed && sql == old(sql)
        invariant undo.at < i ==> rollbackCache[undo.at].Skip?
        invariant db.files == Replay(now, rollbackCache[..i])
      {
        assert rollbackCache[..i + 1][..i] == rollbackCache[..i];
        assert rollbackCache[i] in rollbackCache;
        err := db.Write(rollbackCache[i], i == undo.at, undo.torn);
        if err != NoError {
          forall f | f in before && Protected(f) && Undone(before, rollbackCache, undo.at, commitCache, f)
            ensures Lookup(db.files, f) == Some(before[f])
          {
            UndoRestores(before, now, rollbackCache[..i], f);
          }
          return;
        }
      }
      assert rollbackCache[..|rollbackCache|] == rollbackCache;
      forall f | f in before && Protected(f) ensures Lookup(db.files, f) == Some(before[f]) {
        UndoRestores(before, now, rollbackCache, f);
      }
      if undo.sql {
        return ErrFailed;
      }
      sql, err := RolledBack, NoError;
    }
  }

  lemma {:induction false} StopsHere(files: Files, ws: seq<Write>, i: nat, at: nat)
    requires i < |ws| && CanReplay(files, ws[..i])
    requires (at == i && !ws[i].Skip?) || !CanApply(Replay(files, ws[..i]), ws[i])
    ensures !Survives(ws, at) || !CanReplay(files, ws)
    decreases |ws|
  {
    if i < |ws| - 1 {
      assert ws[..|ws| - 1][..i] == ws[..i];
      StopsHere(files, ws[..|ws| - 1], i, at);
    }
  }

  /** Undoing never touches a listing or profile that did not exist before. */
  lemma {:induction false} UndoKeepsNew(files: Files, now: Files, undo: seq<Write>, f: File)
    requires f !in files && (f.Profile? || f.Listing?)
    requires forall u <- undo :: IsSaved(files, u)
    ensures Lookup(Replay(now, undo), f) == Lookup(now, f)
  {
    if undo != [] {
      assert forall u <- undo[..|undo| - 1] :: u in undo;
      assert IsSaved(files, undo[|undo| - 1]);
      UndoKeepsNew(files, now, undo[..|undo| - 1], f);
    }
  }

  lemma {:induction false} UndoMissesUnprotected(files: Files, now: Files, undo: seq<Write>, f: File)
    requires !Protected(f) && forall u <- undo :: IsSaved(files, u)
    ensures Lookup(Replay(now, undo), f) == Lookup(now, f)
  {
    if undo != [] {
      assert forall u <- undo[..|undo| - 1] :: u in undo;
      assert IsSaved(files, undo[|undo| - 1]);
      UndoMissesUnprotected(files, now, undo[..|undo| - 1], f);
    }
  }

  /** What a rollback that writes everything back cannot undo, told from the files before and after the commit stopped. */
  predicate LeftOver(before: Files, now: Files, undo: seq<Write>, f: File) {
    if !Protected(f) then Lookup(now, f) != Lookup(before, f)
    else f !in before && if f.Profile? || f.Listing? then f in now else Saved(before, f) in undo
  }

  /** A full rollback leaves exactly these files different from before the transaction. */
  lemma RollbackRestoresExactly(before: Files, now: Files, undo: seq<Write>, ws: seq<Write>, f: File)
    requires Covers(before, undo, ws)
    requires forall g :: (forall w <- ws :: Target(w) != Some(g)) ==> Lookup(now, g) == Lookup(before, g)
    ensures Lookup(Replay(now, undo), f) == Lookup(before, f) <==> !LeftOver(before, now, undo, f)
  {
    if !Protected(f) {
      UndoMissesUnprotected(before, now, undo, f);
    } else if f in before {
      UndoRestores(before, now, undo, f);
    } else if f.Profile? || f.Listing? {
      UndoKeepsNew(before, now, undo, f);
    } else {
      EmptyListsOnRollback(before, now, undo, f);
    }
  }

  /** A file the failed commit created stays: nothing was saved for it that would remove it. */
  lemma NewFilesSurviveAFailedCommit(files: Files, slug: Slug, c: Content)
    requires Listing(slug) !in files
    ensures
      var ws := [Put(Listing(slug), c), DeleteListing(slug + 1)];
      var undo := [Saved(files, Listing(slug)), Saved(files, Listing(slug + 1))];
      && Covers(files, undo, ws)
      && Lookup(Replay(Replay(files, ws[..1]), undo), Listing(slug)) == Some(c)
  {
    var ws := [Put(Listing(slug), c), DeleteListing(slug + 1)];
    var undo := [Saved(files, Listing(slug)), Saved(files, Listing(slug + 1))];
    assert forall w :: w in ws <==> w == Put(Listing(slug), c) || w == DeleteListing(slug + 1);
    var now := files[Listing(slug) := c];
    assert ws[..1] == [ws[0]] && ws[..1][..0] == [];
    assert Replay(files, ws[..1][..0]) == files;
    assert Replay(files, ws[..1]) == now;
    assert forall u <- undo :: IsSaved(files, u);
    UndoKeepsNew(files, now, undo, Listing(slug));
  }

  /** A list that had no file holds nil when its saved value is written back, and is as the commit left it otherwise. */
  lemma {:induction false} EmptyListsOnRollback(before: Files, now: Files, undo: seq<Write>, f: File)
    requires f !in before && Protected(f) && !f.Profile? && !f.Listing?
    requires forall u <- undo :: IsSaved(before, u)
    ensures Lookup(Replay(now, undo), f) == if Saved(before, f) in undo then Some(Null) else Lookup(now, f)
  {
    if undo != [] {
      var init, u := undo[..|undo| - 1], undo[|undo| - 1];
      assert undo == init + [u];
      assert IsSaved(before, u);
      EmptyListsOnRollback(before, now, init, f);
    }
  }

  /** A list that had no file gets one on every rollback, holding nil, even when nothing was written yet. */
  lemma RollbackCreatesEmptyLists(files: Files, undo: seq<Write>, f: File)
    requires f !in files && Protected(f) && !f.Profile? && !f.Listing?
    requires forall u <- undo :: IsSaved(files, u)
    ensures Lookup(Replay(files, undo), f) == if Saved(files, f) in undo then Some(Null) else None
  {
    EmptyListsOnRollback(files, files, undo, f);
  }
}
