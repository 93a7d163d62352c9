/**
 * Exact matching of a provider listing against the objects that a manifest expects
 * (activation-component-resolver-inventory.ts). Fields are taken as already checked for shape.
 */
module Inventory {
  import opened Foundation

  /** Both hashes are injective: a digest is the hash of some bytes or some other text. */
  datatype Digest = Sha256(body: seq<bv8>) | Sha1(body: seq<bv8>) | OtherText(name: Name)

  datatype Worm = Worm(digest: Digest, key: Name, retentionUntil: int, versionId: Name)

  datatype Version = Version(key: Name, versionId: Name, digest: Digest, contentSha1: Digest, retentionUntil: int,
                             size: nat, body: seq<bv8>)

  const COMPONENT_KINDS: nat := 15

  /** A single manifest is looked for among at most two versions, the components among at most sixteen. */
  datatype Roster = ManifestRoster | ComponentRoster

  function RosterSize(roster: Roster): nat {
    if roster.ManifestRoster? then 1 else COMPONENT_KINDS
  }

  function WormOf(v: Version): Worm {
    Worm(v.digest, v.key, v.retentionUntil, v.versionId)
  }

  /** The bytes are the ones that size and both digests announce. */
  predicate Sound(v: Version) {
    v.size == |v.body| && v.digest == Sha256(v.body) && v.contentSha1 == Sha1(v.body)
  }

  function Worms(listing: seq<Version>): (ws: seq<Worm>)
    ensures |ws| == |listing| && forall i :: 0 <= i < |ws| ==> ws[i] == WormOf(listing[i])
  {
    seq(|listing|, i requires 0 <= i < |listing| =>
      Worm(digest := listing[i].digest, key := listing[i].key, retentionUntil := listing[i].retentionUntil,
           versionId := listing[i].versionId))
  }

  ghost predicate DistinctKeys(ws: seq<Worm>) {
    forall i, j :: 0 <= i < j < |ws| ==> ws[i].key != ws[j].key
  }

  ghost predicate DistinctVersions(ws: seq<Worm>) {
    forall i, j :: 0 <= i < j < |ws| ==> ws[i].versionId != ws[j].versionId
  }

  /** The listing is the expected roster in some order, every byte accounted for, no version twice. */
  ghost predicate Exact(listing: seq<Version>, expected: seq<Worm>) {
    && multiset(Worms(listing)) == multiset(expected)
    && DistinctKeys(expected) && DistinctVersions(expected)
    && forall v :: v in listing ==>
         v.size == |v.body| && v.digest == Sha256(v.body) && v.contentSha1 == Sha1(v.body)
  }

  /** The listing put in expected order. */
  ghost predicate InOrder(r: seq<Version>, listing: seq<Version>, expected: seq<Worm>) {
    Worms(r) == expected && multiset(r) == multiset(listing)
  }

  // ---- repetition and counting ----------------------------------------------------------------

  lemma {:induction false} CountInDistinct<T>(xs: seq<T>, x: T)
    requires Distinct(xs)
    ensures multiset(xs)[x] == if x in xs then 1 else 0
  {
    if xs != [] {
      var k := |xs| - 1;
      assert xs == xs[..k] + [xs[k]];
      DistinctSnoc(xs[..k], xs[k]);
      CountInDistinct(xs[..k], x);
    }
  }

  /** Pigeonhole: as many distinct things, all of them expected, are exactly the expected ones. */
  lemma AllOfThem<T>(found: seq<T>, expected: seq<T>)
    requires Distinct(found) && Distinct(expected) && |found| == |expected|
    requires forall x :: x in found ==> x in expected
    ensures multiset(found) == multiset(expected)
  {
    SetSizeIsDistinct(found);
    SetSizeIsDistinct(expected);
    assert Elements(found) <= Elements(expected);
    SameSize(Elements(found), Elements(expected));
    forall x ensures multiset(found)[x] == multiset(expected)[x] {
      CountInDistinct(found, x);
      CountInDistinct(expected, x);
      assert x in Elements(found) <==> x in Elements(expected);
    }
  }

  lemma SameSize<T>(a: set<T>, b: set<T>)
    requires a <= b && |a| == |b|
    ensures a == b
  {
    assert b == a + (b - a);
    assert |b| == |a| + |b - a|;
  }

  lemma Listed(listing: seq<Version>, expected: seq<Worm>, i: nat)
    requires multiset(Worms(listing)) == multiset(expected) && i < |listing|
    ensures WormOf(listing[i]) in expected
  {
    assert Worms(listing)[i] in multiset(Worms(listing));
    assert WormOf(listing[i]) in multiset(expected);
  }

  lemma DistinctWorms(ws: seq<Worm>)
    requires DistinctKeys(ws) || DistinctVersions(ws)
    ensures Distinct(ws)
  {
  }

  /** An exact listing repeats no version identifier. */
  lemma ExactRepeatsNoVersion(listing: seq<Version>, expected: seq<Worm>, i: nat, j: nat)
    requires Exact(listing, expected) && i < j < |listing|
    ensures listing[i].versionId != listing[j].versionId
  {
    var ws := Worms(listing);
    Listed(listing, expected, i);
    Listed(listing, expected, j);
    var p :| 0 <= p < |expected| && expected[p] == WormOf(listing[i]);
    var q :| 0 <= q < |expected| && expected[q] == WormOf(listing[j]);
    DistinctWorms(expected);
    CountInDistinct(expected, expected[p]);
    if p == q {
      Repeated(ws, i, j);
      assert false;
    }
  }

  lemma Repeated<T>(xs: seq<T>, i: nat, j: nat)
    requires i < j < |xs| && xs[i] == xs[j]
    ensures multiset(xs)[xs[i]] >= 2
  {
    assert xs == xs[..j] + [xs[j]] + xs[j + 1..];
    assert xs[..j][i] == xs[i];
  }

  // ---- the resolver ---------------------------------------------------------------------------

  /** The expected objects by key, unless their number is wrong or a key repeats. */
  method ExpectedObjects(expected: seq<Worm>, roster: Roster) returns (byKey: Option<map<Name, Worm>>)
    ensures byKey.Some? <==> |expected| == RosterSize(roster) && DistinctKeys(expected)
    ensures byKey.Some? ==>
              forall k: Name :: k in byKey.value ==> byKey.value[k] in expected && byKey.value[k].key == k
    ensures byKey.Some? ==> forall w :: w in expected ==> w.key in byKey.value && byKey.value[w.key] == w
  {
    if |expected| != RosterSize(roster) {
      return None;
    }
    var found: map<Name, Worm> := map[];
    for i := 0 to |expected|
      invariant DistinctKeys(expected[..i])
      invariant forall k: Name :: k in found ==> found[k] in expected[..i] && found[k].key == k
      invariant forall j :: 0 <= j < i ==> expected[j].key in found && found[expected[j].key] == expected[j]
    {
      if expected[i].key in found {
        return None;
      }
      found := found[expected[i].key := expected[i]];
    }
    assert expected[..|expected|] == expected;
    return Some(found);
  }

  /** The listing so far is known and sound, and no version identifier has come twice. */
  ghost predicate Matched(listing: seq<Version>, byKey: map<Name, Worm>, i: nat)
    requires i <= |listing|
  {
    && (forall j :: 0 <= j < i ==>
          listing[j].key in byKey && WormOf(listing[j]) == byKey[listing[j].key] && Sound(listing[j]))
    && (forall j, k :: 0 <= j < k < i ==> listing[j].versionId != listing[k].versionId)
  }

  lemma ExactHasSameLength(listing: seq<Version>, expected: seq<Worm>)
    requires Exact(listing, expected)
    ensures |listing| == |expected|
  {
    assert |multiset(Worms(listing))| == |listing| && |multiset(expected)| == |expected|;
  }

  lemma MatchedIsExact(listing: seq<Version>, expected: seq<Worm>, byKey: map<Name, Worm>)
    requires DistinctKeys(expected) && |listing| == |expected|
    requires forall k: Name :: k in byKey ==> byKey[k] in expected
    requires Matched(listing, byKey, |listing|)
    ensures Exact(listing, expected)
  {
    var ws := Worms(listing);
    DistinctWorms(ws);
    DistinctWorms(expected);
    AllOfThem(ws, expected);
    forall i, j | 0 <= i < j < |expected| ensures expected[i].versionId != expected[j].versionId {
      assert expected[i] in multiset(ws) && expected[j] in multiset(ws);
      var p :| 0 <= p < |ws| && ws[p] == expected[i];
      var q :| 0 <= q < |ws| && ws[q] == expected[j];
      assert p != q;
    }
  }

  /** Nothing in an exact listing is refused on the way. */
  lemma ExactIsMatched(listing: seq<Version>, expected: seq<Worm>, byKey: map<Name, Worm>)
    requires Exact(listing, expected)
    requires forall w :: w in expected ==> w.key in byKey && byKey[w.key] == w
    ensures Matched(listing, byKey, |listing|)
  {
    forall j | 0 <= j < |listing|
      ensures listing[j].key in byKey && WormOf(listing[j]) == byKey[listing[j].key] && Sound(listing[j])
    {
      Listed(listing, expected, j);
    }
    forall j, k | 0 <= j < k < |listing| ensures listing[j].versionId != listing[k].versionId {
      ExactRepeatsNoVersion(listing, expected, j, k);
    }
  }

  /** The two maps end with the same keys, so comparing their sizes can refuse nothing more. */
  lemma EveryKeyVerified(listing: seq<Version>, expected: seq<Worm>, byKey: map<Name, Worm>,
                         verified: map<Name, Version>)
    requires Exact(listing, expected)
    requires forall k: Name :: k in byKey ==> byKey[k] in expected && byKey[k].key == k
    requires forall w :: w in expected ==> w.key in byKey && byKey[w.key] == w
    requires forall n: Name :: n in verified ==> verified[n] in listing && verified[n].key == n
    requires forall j :: 0 <= j < |listing| ==> listing[j].key in verified
    ensures verified.Keys == byKey.Keys && |verified| == |byKey|
    ensures forall w :: w in expected ==> w.key in verified && WormOf(verified[w.key]) == w
  {
    forall w | w in expected ensures w.key in verified && WormOf(verified[w.key]) == w {
      assert w in multiset(Worms(listing));
      var j :| 0 <= j < |listing| && Worms(listing)[j] == w;
      var i :| 0 <= i < |listing| && listing[i] == verified[w.key];
      Listed(listing, expected, i);
      assert WormOf(listing[i]).key == w.key;
    }
    forall n | n in verified ensures n in byKey {
      var i :| 0 <= i < |listing| && listing[i] == verified[n];
      Listed(listing, expected, i);
    }
    forall n | n in byKey ensures n in verified {
      assert byKey[n] in expected;
    }
    assert verified.Keys == byKey.Keys;
  }

  /** Picking the listed versions by expected key is a reordering of the listing. */
  lemma PickedInOrder(r: seq<Version>, listing: seq<Version>, expected: seq<Worm>)
    requires Exact(listing, expected) && Worms(r) == expected
    requires forall v :: v in r ==> v in listing
    ensures InOrder(r, listing, expected)
  {
    assert |multiset(Worms(listing))| == |listing| && |multiset(expected)| == |expected|;
    assert Distinct(r) by {
      forall i, j | 0 <= i < j < |r| ensures r[i] != r[j] {
        assert WormOf(r[i]) == expected[i] && WormOf(r[j]) == expected[j];
      }
    }
    forall i, j | 0 <= i < j < |listing| ensures listing[i] != listing[j] {
      ExactRepeatsNoVersion(listing, expected, i, j);
    }
    AllOfThem(r, listing);
  }

  /** The result depends on what is listed and not on the order in which it is listed. */
  lemma ListingOrderIrrelevant(r: seq<Version>, listing: seq<Version>, again: seq<Version>, relisted: seq<Version>,
                               expected: seq<Worm>)
    requires multiset(listing) == multiset(relisted) && DistinctKeys(expected)
    requires InOrder(r, listing, expected) && InOrder(again, relisted, expected)
    ensures r == again
  {
    assert |r| == |expected| == |again|;
    forall k | 0 <= k < |r| ensures r[k] == again[k] {
      assert again[k] in multiset(r);
      var j :| 0 <= j < |r| && r[j] == again[k];
      assert Worms(r)[j] == WormOf(r[j]) == WormOf(again[k]) == Worms(again)[k];
      assert expected[j] == expected[k];
      assert j == k;
    }
  }

  /** What the caller holds: for each expected object, in its place, the bytes that have its digest. */
  lemma ResolvedBytes(r: seq<Version>, listing: seq<Version>, expected: seq<Worm>, k: nat)
    requires Exact(listing, expected) && InOrder(r, listing, expected) && k < |expected|
    ensures |r| == |expected| && expected[k].digest == Sha256(r[k].body) && |r[k].body| == r[k].size
    ensures r[k].key == expected[k].key && r[k].versionId == expected[k].versionId
    ensures r[k].retentionUntil == expected[k].retentionUntil && r[k].contentSha1 == Sha1(r[k].body)
  {
    assert Worms(r)[k] == expected[k];
    assert r[k] in multiset(listing);
  }

  /** One pass over the listing: every version must be known, sound and new. */
  method VerifyListing(listing: seq<Version>, byKey: map<Name, Worm>) returns (verified: Option<map<Name, Version>>)
    ensures verified.Some? <==> Matched(listing, byKey, |listing|)
    ensures verified.Some? ==>
              forall n: Name :: n in verified.value ==> verified.value[n] in listing && verified.value[n].key == n
    ensures verified.Some? ==> forall j :: 0 <= j < |listing| ==> listing[j].key in verified.value
  {
    var found: map<Name, Version> := map[];
    var observed: set<Name> := {};
    for i := 0 to |listing|
      invariant Matched(listing, byKey, i)
      invariant observed == set j | 0 <= j < i :: listing[j].versionId
      invariant forall n: Name :: n in found ==> found[n] in listing && found[n].key == n
      invariant forall j :: 0 <= j < i ==> listing[j].key in found
    {
      var candidate := listing[i];
      if candidate.key !in byKey || candidate.versionId in observed || WormOf(candidate) != byKey[candidate.key]
         || !Sound(candidate) {
        return None;
      }
      observed := observed + {candidate.versionId};
      found := found[candidate.key := candidate];
    }
    return Some(found);
  }

  /** Look every expected key up; none is missing. */
  method InExpectedOrder(expected: seq<Worm>, verified: map<Name, Version>) returns (ordered: seq<Version>)
    requires forall w :: w in expected ==> w.key in verified && WormOf(verified[w.key]) == w
    ensures Worms(ordered) == expected
    ensures forall v :: v in ordered ==> exists n :: n in verified && verified[n] == v
  {
    ordered := seq(|expected|, k requires 0 <= k < |expected| && expected[k].key in verified =>
      verified[expected[k].key]);
  }

  /**
   * Accepted exactly when the listing is the roster in some order; returned in the order expected.
   * `sizesAgree` is the last test of the code: it never refuses anything.
   */
  method ResolveNamespace(listing: seq<Version>, expected: seq<Worm>, roster: Roster)
    returns (r: Option<seq<Version>>, sizesAgree: bool)
    ensures r.Some? <==> |expected| == (if roster == ManifestRoster then 1 else 15) && Exact(listing, expected)
    ensures r.Some? ==> InOrder(r.value, listing, expected)
    ensures sizesAgree
  {
    hide Matched, WormOf, InOrder;
    var indexed := ExpectedObjects(expected, roster);
    if indexed.None? {
      return None, true;
    }
    var byKey := indexed.value;
    if |listing| != |expected| {
      if Exact(listing, expected) {
        ExactHasSameLength(listing, expected);
        assert false;
      }
      return None, true;
    }
    var verified := VerifyListing(listing, byKey);
    if verified.None? {
      if Exact(listing, expected) {
        ExactIsMatched(listing, expected, byKey);
        assert false;
      }
      return None, true;
    }
    MatchedIsExact(listing, expected, byKey);
    EveryKeyVerified(listing, expected, byKey, verified.value);
    sizesAgree := |verified.value| == |byKey|;
    var ordered := InExpectedOrder(expected, verified.value);
    PickedInOrder(ordered, listing, expected);
    r := if sizesAgree then Some(ordered) else None;
  }
}
