/**
 The listing index and the search for an unused slug: the title's slug, then the same with 1, 2, 3, …
 appended. Building the base slug from the title is not part of this model.
 */
module Listings {
  import opened Common

  const MAX_CHARACTERS := 70
  const SLUG_BUFFER := 5

  /** `decodable` says whether the stored CID parses. */
  datatype Metadata = Metadata(slug: string, cid: nat, decodable: bool)

  // ---- decimal numerals ------------------------------------------------------------------------------

  function Digit(n: nat): char
    requires n < 10
  {
    "0123456789"[n]
  }

  function Decimal(n: nat): (s: string)
    ensures s != []
  {
    if n < 10 then [Digit(n)] else Decimal(n / 10) + [Digit(n % 10)]
  }

  lemma {:induction false} DecimalIsInjective(m: nat, n: nat)
    requires Decimal(m) == Decimal(n)
    ensures m == n
  {
    var a, b := Decimal(m), Decimal(n);
    assert Digit(m % 10) == a[|a| - 1] && Digit(n % 10) == b[|b| - 1];
    DigitIsInjective(m % 10, n % 10);
    if m >= 10 && n >= 10 {
      assert a[..|a| - 1] == Decimal(m / 10) && b[..|b| - 1] == Decimal(n / 10);
      DecimalIsInjective(m / 10, n / 10);
    }
  }

  lemma DigitIsInjective(m: nat, n: nat)
    requires m < 10 && n < 10 && Digit(m) == Digit(n)
    ensures m == n
  {
  }

  /** The number a decimal numeral stands for. */
  function ValueOf(s: string): int {
    if s == [] then 0 else 10 * ValueOf(s[..|s| - 1]) + (s[|s| - 1] as int - '0' as int)
  }

  /** Reading the numeral back gives the number, and it has no leading zero. */
  lemma {:induction false} DecimalReadsBack(n: nat)
    ensures ValueOf(Decimal(n)) == n
    ensures forall c <- Decimal(n) :: '0' <= c <= '9'
    ensures n > 0 ==> Decimal(n)[0] != '0'
  {
    var s := Decimal(n);
    if n < 10 {
      assert s[..|s| - 1] == [];
      assert ValueOf(s[..|s| - 1]) == 0;
    } else {
      DecimalReadsBack(n / 10);
      assert s[..|s| - 1] == Decimal(n / 10);
    }
  }

  function PowerOfTen(k: nat): nat {
    if k == 0 then 1 else 10 * PowerOfTen(k - 1)
  }

  lemma {:induction false} DecimalLength(n: nat, k: nat)
    requires k >= 1 && n < PowerOfTen(k)
    ensures |Decimal(n)| <= k
  {
    if n >= 10 {
      assert k > 1 by {
        assert PowerOfTen(1) == 10;
      }
      DecimalLength(n / 10, k - 1);
    }
  }

  // ---- the index ----------------------------------------------------------------------------------------

  /** The first entry with the slug. */
  function Find(entries: seq<Metadata>, slug: string): Option<Metadata> {
    if entries == [] then None
    else if entries[0].slug == slug then Some(entries[0])
    else Find(entries[1..], slug)
  }

  function Updated(entries: seq<Metadata>, m: Metadata): seq<Metadata> {
    if entries == [] then [m]
    else if entries[0].slug == m.slug then [m] + entries[1..]
    else [entries[0]] + Updated(entries[1..], m)
  }

  function Deleted(entries: seq<Metadata>, slug: string): seq<Metadata> {
    if entries == [] then []
    else if entries[0].slug == slug then entries[1..]
    else [entries[0]] + Deleted(entries[1..], slug)
  }

  ghost predicate DistinctSlugs(entries: seq<Metadata>) {
    forall i, j | 0 <= i < j < |entries| :: entries[i].slug != entries[j].slug
  }

  function Slugs(entries: seq<Metadata>): set<string> {
    set m | m in entries :: m.slug
  }

  lemma {:induction false} FindIsMembership(entries: seq<Metadata>, slug: string)
    ensures Find(entries, slug).Some? <==> slug in Slugs(entries)
    ensures Find(entries, slug).Some? ==> Find(entries, slug).value in entries && Find(entries, slug).value.slug == slug
  {
    if entries != [] {
      FindIsMembership(entries[1..], slug);
      assert entries == [entries[0]] + entries[1..];
    }
  }

  /** An update changes what is found under its own slug and nothing else, and keeps slugs distinct. */
  lemma {:induction false} UpdateFinds(entries: seq<Metadata>, m: Metadata, slug: string)
    requires DistinctSlugs(entries)
    ensures Find(Updated(entries, m), slug) == if slug == m.slug then Some(m) else Find(entries, slug)
    ensures DistinctSlugs(Updated(entries, m)) && Slugs(Updated(entries, m)) == Slugs(entries) + {m.slug}
  {
    if entries == [] {
      assert Find([], slug) == None && Find([m], slug) == (if m.slug == slug then Some(m) else Find([m][1..], slug));
    } else {
      var rest := entries[1..];
      assert entries == [entries[0]] + rest;
      assert Slugs(entries) == Slugs(rest) + {entries[0].slug};
      assert entries[0].slug !in Slugs(rest);
      var tail := if entries[0].slug == m.slug then rest else Updated(rest, m);
      var head := if entries[0].slug == m.slug then m else entries[0];
      if entries[0].slug != m.slug {
        UpdateFinds(rest, m, slug);
      }
      assert Updated(entries, m) == [head] + tail;
      assert ([head] + tail)[1..] == tail;
      Prepend(head, tail);
    }
  }

  lemma Prepend(head: Metadata, tail: seq<Metadata>)
    requires DistinctSlugs(tail) && head.slug !in Slugs(tail)
    ensures DistinctSlugs([head] + tail) && Slugs([head] + tail) == Slugs(tail) + {head.slug}
  {
    var all := [head] + tail;
    forall i, j | 0 <= i < j < |all| ensures all[i].slug != all[j].slug {
      assert all[j] == tail[j - 1];
      if i > 0 {
        assert all[i] == tail[i - 1];
      } else {
        assert all[j].slug in Slugs(tail);
      }
    }
  }

  lemma {:induction false} DeleteKeepsDistinct(entries: seq<Metadata>, gone: string)
    requires DistinctSlugs(entries)
    ensures DistinctSlugs(Deleted(entries, gone)) && Slugs(Deleted(entries, gone)) == Slugs(entries) - {gone}
  {
    if entries != [] {
      var rest := entries[1..];
      HeadIsNew(entries);
      if entries[0].slug != gone {
        DeleteKeepsDistinct(rest, gone);
        Prepend(entries[0], Deleted(rest, gone));
      }
    }
  }

  lemma HeadIsNew(entries: seq<Metadata>)
    requires DistinctSlugs(entries) && entries != []
    ensures DistinctSlugs(entries[1..]) && entries[0].slug !in Slugs(entries[1..])
    ensures Slugs(entries) == Slugs(entries[1..]) + {entries[0].slug}
  {
    assert entries == [entries[0]] + entries[1..];
  }

  /** After a delete the slug is gone and every other listing is found as before. */
  lemma {:induction false} DeleteFinds(entries: seq<Metadata>, gone: string, slug: string)
    requires DistinctSlugs(entries)
    ensures Find(Deleted(entries, gone), slug) == if slug == gone then None else Find(entries, slug)
  {
    hide DistinctSlugs, Slugs;
    if entries != [] {
      var rest := entries[1..];
      HeadIsNew(entries);
      FindIsMembership(rest, slug);
      if entries[0].slug != gone {
        DeleteFinds(rest, gone, slug);
        var tail := Deleted(rest, gone);
        assert ([entries[0]] + tail)[1..] == tail;
      }
    }
  }

  predicate Misses(entries: seq<Metadata>, slug: string) {
    forall m <- entries :: m.slug != slug
  }

  lemma {:induction false} UpdatedAt(entries: seq<Metadata>, m: Metadata, i: nat)
    requires i <= |entries| && Misses(entries[..i], m.slug)
    requires i < |entries| ==> entries[i].slug == m.slug
    ensures Updated(entries, m) == if i < |entries| then entries[i := m] else entries + [m]
  {
    if 0 < i {
      assert entries[0] in entries[..i];
      assert entries[1..][..i - 1] == entries[..i][1..];
      UpdatedAt(entries[1..], m, i - 1);
      assert entries == [entries[0]] + entries[1..];
    }
  }

  lemma {:induction false} DeletedAt(entries: seq<Metadata>, slug: string, i: nat)
    requires i <= |entries| && Misses(entries[..i], slug)
    requires i < |entries| ==> entries[i].slug == slug
    ensures Deleted(entries, slug) == if i < |entries| then entries[..i] + entries[i + 1..] else entries
  {
    if 0 < i {
      assert entries[0] in entries[..i];
      assert entries[1..][..i - 1] == entries[..i][1..];
      DeletedAt(entries[1..], slug, i - 1);
      assert entries == [entries[0]] + entries[1..];
    }
  }

  class ListingIndex {
    var entries: seq<Metadata>

    constructor ()
      ensures entries == []
    {
      entries := [];
    }

    /** The CID of a listing; fails when there is none or it does not parse. */
    method GetListingCID(slug: string) returns (cid: Option<nat>)
      ensures cid.Some? <==> Find(entries, slug).Some? && Find(entries, slug).value.decodable
      ensures cid.Some? ==> cid.value == Find(entries, slug).value.cid
    {
      for i := 0 to |entries|
        invariant Find(entries, slug) == Find(entries[i..], slug)
      {
        assert entries[i..][0] == entries[i] && entries[i..][1..] == entries[i + 1..];
        if entries[i].slug == slug {
          return if entries[i].decodable then Some(entries[i].cid) else None;
        }
      }
      cid := None;
    }

    method UpdateListing(m: Metadata)
      modifies this
      ensures entries == Updated(old(entries), m)
    {
      for i := 0 to |entries|
        invariant entries == old(entries) && Misses(entries[..i], m.slug)
      {
        if entries[i].slug == m.slug {
          UpdatedAt(entries, m, i);
          entries := entries[i := m];
          return;
        }
      }
      UpdatedAt(entries, m, |entries|);
      entries := entries + [m];
    }

    method DeleteListing(slug: string)
      modifies this
      ensures entries == Deleted(old(entries), slug)
    {
      for i := 0 to |entries|
        invariant entries == old(entries) && Misses(entries[..i], slug)
      {
        if entries[i].slug == slug {
          DeletedAt(entries, slug, i);
          entries := entries[..i] + entries[i + 1..];
          return;
        }
      }
      DeletedAt(entries, slug, |entries|);
    }

    /** Tries the base slug, then numbered ones, until one is not taken. */
    method GenerateSlug(base: string) returns (slug: string, tries: nat)
      requires |base| <= 65
      ensures Find(entries, slug).None? || !Find(entries, slug).value.decodable
      ensures (forall m <- entries :: m.decodable) ==> slug !in Slugs(entries)
      ensures 1 <= tries <= |entries| + 1 && slug == Candidate(base, tries - 1)
      ensures forall k | 0 <= k < tries - 1 :: Candidate(base, k) in Slugs(entries)
      ensures |entries| < 100000 ==> |slug| <= 70
    {
      hide Candidates, Candidate, Slugs, Find;
      var counter := 1;
      slug := base;
      tries := 1;
      NothingTried(entries, base);
      while true
        invariant counter == tries && slug == Candidate(base, tries - 1)
        invariant Candidates(base, tries - 1) <= Slugs(entries)
        decreases |Slugs(entries) - Candidates(base, tries - 1)|
      {
        var cid := GetListingCID(slug);
        FindIsMembership(entries, slug);
        if cid.None? {
          break;
        }
        OneMoreTried(entries, base, tries - 1);
        slug := base + Decimal(counter);
        counter := counter + 1;
        tries := tries + 1;
      }
      AllTaken(entries, base, tries);
      FoundIsFree(entries, slug);
    }
  }

  lemma NothingTried(entries: seq<Metadata>, base: string)
    ensures base == Candidate(base, 0) && Candidates(base, 0) <= Slugs(entries)
  {
  }

  /** A taken candidate brings the candidates tried closer to the slugs in use. */
  lemma OneMoreTried(entries: seq<Metadata>, base: string, n: nat)
    requires Candidates(base, n) <= Slugs(entries) && Candidate(base, n) in Slugs(entries)
    ensures Candidates(base, n + 1) <= Slugs(entries)
    ensures |Slugs(entries) - Candidates(base, n + 1)| < |Slugs(entries) - Candidates(base, n)|
    ensures Candidate(base, n + 1) == base + Decimal(n + 1)
  {
    hide Candidates, Slugs;
    CandidateIsNew(base, n);
    var rest := Slugs(entries) - Candidates(base, n);
    RemoveShrinks(rest, Candidate(base, n));
    assert Slugs(entries) - Candidates(base, n + 1) == rest - {Candidate(base, n)};
  }

  /** No more candidates were tried than there are listings, and so the last one is short enough. */
  lemma AllTaken(entries: seq<Metadata>, base: string, tries: nat)
    requires |base| <= MAX_CHARACTERS - SLUG_BUFFER && tries >= 1 && Candidates(base, tries - 1) <= Slugs(entries)
    ensures tries <= |entries| + 1
    ensures forall k | 0 <= k < tries - 1 :: Candidate(base, k) in Slugs(entries)
    ensures |entries| < 100000 ==> |Candidate(base, tries - 1)| <= MAX_CHARACTERS
  {
    CandidatesCount(base, tries - 1);
    SubsetCount(Candidates(base, tries - 1), Slugs(entries));
    SlugsCount(entries);
    if |entries| < 100000 && tries > 1 {
      ManyZeros();
      DecimalLength(tries - 1, 5);
    }
  }

  /** When every listing's CID parses, a slug whose lookup fails is not in use. */
  lemma FoundIsFree(entries: seq<Metadata>, slug: string)
    requires Find(entries, slug).None? || !Find(entries, slug).value.decodable
    ensures (forall m <- entries :: m.decodable) ==> slug !in Slugs(entries)
  {
    hide Find, Slugs;
    FindIsMembership(entries, slug);
  }

  // ---- the candidates --------------------------------------------------------------------------------

  function Candidate(base: string, k: nat): string {
    if k == 0 then base else base + Decimal(k)
  }

  /** The base slug first, then the base followed by 1, 2, 3, … in decimal. */
  lemma CandidatesAreNumbered(base: string, k: nat)
    ensures base <= Candidate(base, k)
    ensures k == 0 ==> Candidate(base, k) == base
    ensures k > 0 ==> ValueOf(Candidate(base, k)[|base|..]) == k && Candidate(base, k)[|base|] != '0'
  {
    if k > 0 {
      assert Candidate(base, k)[|base|..] == Decimal(k);
      DecimalReadsBack(k);
    }
  }

  /** The first `n` candidates. */
  function Candidates(base: string, n: nat): set<string> {
    set k | 0 <= k < n :: Candidate(base, k)
  }

  lemma CandidatesDiffer(base: string, j: nat, k: nat)
    requires j != k
    ensures Candidate(base, j) != Candidate(base, k)
  {
    if j > 0 && k > 0 && Candidate(base, j) == Candidate(base, k) {
      assert Candidate(base, j)[|base|..] == Decimal(j) && Candidate(base, k)[|base|..] == Decimal(k);
      DecimalIsInjective(j, k);
    } else if j == 0 {
      assert |Candidate(base, k)| > |base|;
    } else if k == 0 {
      assert |Candidate(base, j)| > |base|;
    }
  }

  lemma CandidateIsNew(base: string, n: nat)
    ensures Candidate(base, n) !in Candidates(base, n)
    ensures Candidates(base, n + 1) == Candidates(base, n) + {Candidate(base, n)}
  {
    forall k: nat | k < n ensures Candidate(base, k) != Candidate(base, n) {
      CandidatesDiffer(base, k, n);
    }
  }

  lemma NoCandidates(base: string)
    ensures Candidates(base, 0) == {}
  {
  }

  lemma {:induction false} CandidatesCount(base: string, n: nat)
    ensures |Candidates(base, n)| == n
  {
    hide Candidates, Candidate;
    if n == 0 {
      NoCandidates(base);
    } else {
      CandidatesCount(base, n - 1);
      CandidateIsNew(base, n - 1);
    }
  }

  lemma {:induction false} SlugsCount(entries: seq<Metadata>)
    ensures |Slugs(entries)| <= |entries|
  {
    if entries != [] {
      SlugsCount(entries[1..]);
      assert entries == [entries[0]] + entries[1..];
      assert Slugs(entries) == Slugs(entries[1..]) + {entries[0].slug};
    }
  }

  lemma RemoveShrinks(a: set<string>, x: string)
    requires x in a
    ensures |a - {x}| < |a|
  {
  }

  lemma ManyZeros()
    ensures PowerOfTen(5) == 100000
  {
    assert PowerOfTen(2) == 100;
    assert PowerOfTen(4) == 10000;
  }
}
