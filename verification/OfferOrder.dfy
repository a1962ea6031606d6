/** How the client ranks the offers of one request. */
module OfferOrder {
  import opened Protocol

  /** What the ranking looks at: hops to the allocator, whether its node caches the image, its identity, the offer ID. */
  datatype Candidate = Candidate(hops: nat, cached: bool, allocatorId: Identity, offerId: string)

  // ------------------------------------------------------------- lexicographic order

  function CharCodes(s: string): seq<int> {
    seq(|s|, i requires 0 <= i < |s| => s[i] as int)
  }

  function ByteCodes(s: Identity): seq<int> {
    seq(|s|, i requires 0 <= i < |s| => s[i] as int)
  }

  predicate LexLess(a: seq<int>, b: seq<int>) {
    if b == [] then false else if a == [] then true
    else if a[0] != b[0] then a[0] < b[0] else LexLess(a[1..], b[1..])
  }

  lemma {:induction false} LexTotal(a: seq<int>, b: seq<int>)
    ensures !(LexLess(a, b) && LexLess(b, a))
    ensures LexLess(a, b) || LexLess(b, a) || a == b
  {
    if a != [] && b != [] && a[0] == b[0] {
      LexTotal(a[1..], b[1..]);
      assert a == [a[0]] + a[1..] && b == [b[0]] + b[1..];
    }
  }

  lemma {:induction false} LexTransitive(a: seq<int>, b: seq<int>, c: seq<int>)
    requires LexLess(a, b) && LexLess(b, c)
    ensures LexLess(a, c)
  {
    if a != [] && a[0] == b[0] && b[0] == c[0] {
      LexTransitive(a[1..], b[1..], c[1..]);
    }
  }

  lemma CharsDiffer(s: string, t: string)
    requires CharCodes(s) == CharCodes(t)
    ensures s == t
  {
    forall i | 0 <= i < |s| ensures s[i] == t[i] {
      assert CharCodes(s)[i] == CharCodes(t)[i];
    }
  }

  lemma BytesDiffer(s: Identity, t: Identity)
    requires ByteCodes(s) == ByteCodes(t)
    ensures s == t
  {
    forall i | 0 <= i < |s| ensures s[i] == t[i] {
      assert ByteCodes(s)[i] == ByteCodes(t)[i];
    }
  }

  // ------------------------------------------------------------------ the comparator

  /** The comparator of chooseWithPreferences. */
  predicate Less(a: Candidate, b: Candidate) {
    if a.hops != b.hops then a.hops < b.hops
    else if a.cached != b.cached then a.cached
    else if a.allocatorId != b.allocatorId then LexLess(ByteCodes(a.allocatorId), ByteCodes(b.allocatorId))
    else LexLess(CharCodes(a.offerId), CharCodes(b.offerId))
  }

  /** The comparator is a strict total order: exactly one of less, greater, equal. */
  lemma Trichotomy(a: Candidate, b: Candidate)
    ensures !(Less(a, b) && Less(b, a))
    ensures Less(a, b) || Less(b, a) || a == b
    ensures !Less(a, a)
  {
    LexTotal(ByteCodes(a.allocatorId), ByteCodes(b.allocatorId));
    LexTotal(CharCodes(a.offerId), CharCodes(b.offerId));
    LexTotal(CharCodes(a.offerId), CharCodes(a.offerId));
    if ByteCodes(a.allocatorId) == ByteCodes(b.allocatorId) { BytesDiffer(a.allocatorId, b.allocatorId); }
    if CharCodes(a.offerId) == CharCodes(b.offerId) { CharsDiffer(a.offerId, b.offerId); }
  }

  lemma Transitive(a: Candidate, b: Candidate, c: Candidate)
    requires Less(a, b) && Less(b, c)
    ensures Less(a, c)
  {
    if a.hops == b.hops == c.hops && a.cached == b.cached == c.cached {
      var x, y, z := ByteCodes(a.allocatorId), ByteCodes(b.allocatorId), ByteCodes(c.allocatorId);
      if a.allocatorId == b.allocatorId == c.allocatorId {
        LexTransitive(CharCodes(a.offerId), CharCodes(b.offerId), CharCodes(c.offerId));
      } else if a.allocatorId != b.allocatorId && b.allocatorId != c.allocatorId {
        LexTransitive(x, y, z);
        LexTotal(x, x);
      }
    }
  }

  // ----------------------------------------------------------------- the unique minimum

  predicate Best(b: Candidate, all: set<Candidate>) {
    b in all && forall c | c in all :: c == b || Less(b, c)
  }

  lemma BestUnique(a: Candidate, b: Candidate, all: set<Candidate>)
    requires Best(a, all) && Best(b, all)
    ensures a == b
  {
    Trichotomy(a, b);
  }

  // ------------------------------------------------------------------- what best means

  /** Agreeing up to `n`, where `a` is over and `b` is not, or `a` has the smaller element. */
  predicate SmallerAt(a: seq<int>, b: seq<int>, n: nat) {
    n <= |a| && n < |b| && a[..n] == b[..n] && (n == |a| || a[n] < b[n])
  }

  ghost predicate Smaller(a: seq<int>, b: seq<int>) {
    exists n: nat :: SmallerAt(a, b, n)
  }

  lemma {:induction false} LexIs(a: seq<int>, b: seq<int>)
    ensures LexLess(a, b) <==> Smaller(a, b)
  {
    hide Smaller;
    if b == [] {
      NoneSmaller(a);
    } else if a == [] {
      EmptySmaller(b);
    } else if a[0] == b[0] {
      LexIs(a[1..], b[1..]);
      SmallerTail(a, b);
    } else {
      SmallerHead(a, b);
    }
  }

  lemma NoneSmaller(a: seq<int>)
    ensures !Smaller(a, [])
  {
  }

  lemma EmptySmaller(b: seq<int>)
    requires b != []
    ensures Smaller([], b)
  {
    assert SmallerAt([], b, 0);
  }

  lemma SmallerHead(a: seq<int>, b: seq<int>)
    requires a != [] && b != [] && a[0] != b[0]
    ensures Smaller(a, b) <==> a[0] < b[0]
  {
    if a[0] < b[0] { assert SmallerAt(a, b, 0); }
    forall n: nat | 0 < n <= |a| && n <= |b| ensures a[..n] != b[..n] { assert a[..n][0] != b[..n][0]; }
  }

  lemma SmallerTail(a: seq<int>, b: seq<int>)
    requires a != [] && b != [] && a[0] == b[0]
    ensures Smaller(a, b) <==> Smaller(a[1..], b[1..])
  {
    if n: nat :| SmallerAt(a[1..], b[1..], n) {
      assert a[..n + 1] == [a[0]] + a[1..][..n] && b[..n + 1] == [b[0]] + b[1..][..n];
      assert SmallerAt(a, b, n + 1);
    }
    if n: nat :| SmallerAt(a, b, n) {
      if n > 0 {
        assert a[1..][..n - 1] == a[..n][1..] && b[1..][..n - 1] == b[..n][1..];
        assert SmallerAt(a[1..], b[1..], n - 1);
      }
    }
  }

  /** The one allocator ID comes before the other, byte by byte. */
  ghost predicate EarlierAllocator(a: Identity, b: Identity) {
    exists n: nat :: n <= |a| && n < |b| && a[..n] == b[..n] && (n == |a| || (a[n] as int) < (b[n] as int))
  }

  ghost predicate EarlierOffer(a: string, b: string) {
    exists n: nat :: n <= |a| && n < |b| && a[..n] == b[..n] && (n == |a| || (a[n] as int) < (b[n] as int))
  }

  lemma EarlierAllocatorIs(a: Identity, b: Identity)
    ensures EarlierAllocator(a, b) <==> LexLess(ByteCodes(a), ByteCodes(b))
  {
    hide LexLess;
    LexIs(ByteCodes(a), ByteCodes(b));
    if n: nat :| n <= |a| && n < |b| && a[..n] == b[..n] && (n == |a| || (a[n] as int) < (b[n] as int)) {
      forall i | 0 <= i < n ensures ByteCodes(a)[i] == ByteCodes(b)[i] { assert a[..n][i] == b[..n][i]; }
      assert SmallerAt(ByteCodes(a), ByteCodes(b), n);
    }
    if n: nat :| SmallerAt(ByteCodes(a), ByteCodes(b), n) {
      forall i | 0 <= i < n ensures a[i] == b[i] { assert ByteCodes(a)[..n][i] == ByteCodes(b)[..n][i]; }
      assert a[..n] == b[..n];
    }
  }

  lemma EarlierOfferIs(a: string, b: string)
    ensures EarlierOffer(a, b) <==> LexLess(CharCodes(a), CharCodes(b))
  {
    hide LexLess;
    LexIs(CharCodes(a), CharCodes(b));
    if n: nat :| n <= |a| && n < |b| && a[..n] == b[..n] && (n == |a| || (a[n] as int) < (b[n] as int)) {
      forall i | 0 <= i < n ensures CharCodes(a)[i] == CharCodes(b)[i] { assert a[..n][i] == b[..n][i]; }
      assert SmallerAt(CharCodes(a), CharCodes(b), n);
    }
    if n: nat :| SmallerAt(CharCodes(a), CharCodes(b), n) {
      forall i | 0 <= i < n ensures a[i] == b[i] { assert CharCodes(a)[..n][i] == CharCodes(b)[..n][i]; }
      assert a[..n] == b[..n];
    }
  }

  /** No candidate is nearer; none as near caches the image if this one does not; of those none has an earlier
      allocator ID; and of those none an earlier offer ID. */
  ghost predicate Preferred(b: Candidate, c: Candidate) {
    && b.hops <= c.hops
    && (c.hops == b.hops && c.cached ==> b.cached)
    && (c.hops == b.hops && c.cached == b.cached ==> !EarlierAllocator(c.allocatorId, b.allocatorId))
    && (c.hops == b.hops && c.cached == b.cached && c.allocatorId == b.allocatorId ==> !EarlierOffer(c.offerId, b.offerId))
  }

  lemma PreferredIs(b: Candidate, c: Candidate)
    ensures Preferred(b, c) <==> b == c || Less(b, c)
  {
    hide EarlierAllocator, EarlierOffer, LexLess, ByteCodes, CharCodes;
    EarlierAllocatorIs(c.allocatorId, b.allocatorId);
    EarlierOfferIs(c.offerId, b.offerId);
    IdsTotal(b, c);
  }

  lemma IdsTotal(b: Candidate, c: Candidate)
    ensures var x, y := ByteCodes(b.allocatorId), ByteCodes(c.allocatorId);
      !(LexLess(x, y) && LexLess(y, x)) && (LexLess(x, y) || LexLess(y, x) || b.allocatorId == c.allocatorId) && (b.allocatorId == c.allocatorId ==> !LexLess(y, x))
    ensures var x, y := CharCodes(b.offerId), CharCodes(c.offerId);
      !(LexLess(x, y) && LexLess(y, x)) && (LexLess(x, y) || LexLess(y, x) || b.offerId == c.offerId) && (b.offerId == c.offerId ==> !LexLess(y, x))
  {
    LexTotal(ByteCodes(b.allocatorId), ByteCodes(c.allocatorId));
    LexTotal(CharCodes(b.offerId), CharCodes(c.offerId));
    if ByteCodes(b.allocatorId) == ByteCodes(c.allocatorId) { BytesDiffer(b.allocatorId, c.allocatorId); }
    if CharCodes(b.offerId) == CharCodes(c.offerId) { CharsDiffer(b.offerId, c.offerId); }
  }

  /** The best of the candidates is the one preferred to each: fewest hops first, then the image at hand, then the IDs. */
  lemma BestMeans(b: Candidate, all: set<Candidate>)
    ensures Best(b, all) <==> b in all && forall c | c in all :: Preferred(b, c)
  {
    hide Preferred, Less;
    forall c | c in all ensures Preferred(b, c) <==> b == c || Less(b, c) { PreferredIs(b, c); }
  }

  // ------------------------------------------------------------------------ the ranking

  predicate Ordered(s: seq<Candidate>) {
    forall i, j | 0 <= i < j < |s| :: !Less(s[j], s[i])
  }

  /** Whatever order the offers were gathered in and however they were sorted, the head is the same candidate. */
  lemma HeadIsBest(s: seq<Candidate>, all: set<Candidate>)
    requires s != [] && Ordered(s) && all == set c | c in s
    ensures Best(s[0], all)
  {
    forall c | c in all ensures c == s[0] || Less(s[0], c) {
      var j :| 0 <= j < |s| && s[j] == c;
      Trichotomy(s[0], c);
    }
  }

  /** The head of the sorted candidates, found by one pass over them. */
  method First(candidates: seq<Candidate>) returns (best: Candidate)
    requires candidates != []
    ensures Best(best, set c | c in candidates)
    ensures best in candidates && forall c | c in candidates :: Preferred(best, c)
  {
    best := candidates[0];
    for i := 1 to |candidates|
      invariant best in candidates[..i]
      invariant forall c | c in candidates[..i] :: c == best || Less(best, c)
    {
      ghost var was := best;
      Trichotomy(best, candidates[i]);
      if Less(candidates[i], best) {
        best := candidates[i];
        forall c | c in candidates[..i + 1] ensures c == best || Less(best, c) {
          if c != best && c != was { Transitive(best, was, c); }
        }
      }
    }
    assert candidates[..|candidates|] == candidates;
    BestMeans(best, set c | c in candidates);
  }
}
