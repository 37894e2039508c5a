/** analyze_relationships.py: splits the accounts around an actor into
    mutual follows, non-mutual follows and fans, by set algebra on DIDs. */
module AnalyzeRelationships {
  import opened Wrappers
  import opened Records
  import opened Pagination
  import opened GetFollows
  import opened GetFollowers

  datatype Counts = Counts(
    totalFollowers: nat,
    totalFollowing: nat,
    mutualFollows: nat,
    nonMutualFollows: nat,
    fans: nat)

  /** The dictionary `get_relationship_analysis` returns. */
  datatype Analysis = Analysis(
    mutualFollows: seq<FollowerInfo>,
    nonMutualFollows: seq<FollowInfo>,
    fans: seq<FollowerInfo>,
    counts: Counts)

  /** Iterating a Python set of DIDs drawn from `rs`. Set iteration order is
      unspecified; this model takes order of first appearance in `rs`, and no
      contract below depends on it. */
  function Enumerate(s: set<Did>, rs: seq<Profile>): (ds: seq<Did>)
    requires s <= Dids(rs)
    ensures NoDup(ds) && Elements(ds) == s
  {
    Select(UniqueDids(rs), s)
  }

  /** The body of `get_relationship_analysis` once both lists are fetched:
      each count is the length of its list, and the totals are the lengths
      of the fetched lists. */
  function Analyze(followers: seq<Profile>, follows: seq<Profile>): (a: Analysis)
    ensures a.counts.totalFollowers == |followers| && a.counts.totalFollowing == |follows|
    ensures a.counts.mutualFollows == |a.mutualFollows|
    ensures a.counts.nonMutualFollows == |a.nonMutualFollows|
    ensures a.counts.fans == |a.fans|
  {
    var followerDids := Dids(followers);
    var followingDids := Dids(follows);
    var followerLookup := Lookup(followers);
    var followingLookup := Lookup(follows);
    var mutualDids := followerDids * followingDids;
    var nonMutualDids := followingDids - followerDids;
    var fansDids := followerDids - followingDids;
    var mutualFollows := Resolve(Enumerate(mutualDids, follows), followingLookup);
    var nonMutualFollows := Resolve(Enumerate(nonMutualDids, follows), followingLookup);
    var fans := Resolve(Enumerate(fansDids, followers), followerLookup);
    Analysis(
      ExtractFollowerInfo(mutualFollows),
      ExtractFollowInfo(nonMutualFollows),
      ExtractFollowerInfo(fans),
      Counts(|followers|, |follows|, |mutualFollows|, |nonMutualFollows|, |fans|))
  }

  /** Resolving DIDs through a lookup and projecting keeps the DIDs. */
  lemma ResolvedDids(ds: seq<Did>, rs: seq<Profile>)
    requires Elements(ds) <= Dids(rs)
    ensures FollowerDidList(ExtractFollowerInfo(Resolve(ds, Lookup(rs)))) == ds
    ensures FollowDidList(ExtractFollowInfo(Resolve(ds, Lookup(rs)))) == ds
  {
    assert forall d :: d in ds ==> d in Elements(ds);
    ResolveKeepsDids(ds, Lookup(rs));
  }

  /** Each category holds exactly its DID set, without repetition, and its
      count is its length; the totals are the raw list lengths. */
  lemma CategoryDids(followers: seq<Profile>, follows: seq<Profile>)
    ensures var a := Analyze(followers, follows);
      && Elements(FollowerDidList(a.mutualFollows)) == Dids(followers) * Dids(follows)
      && Elements(FollowDidList(a.nonMutualFollows)) == Dids(follows) - Dids(followers)
      && Elements(FollowerDidList(a.fans)) == Dids(followers) - Dids(follows)
      && NoDup(FollowerDidList(a.mutualFollows))
      && NoDup(FollowDidList(a.nonMutualFollows))
      && NoDup(FollowerDidList(a.fans))
      && a.counts.mutualFollows == |a.mutualFollows| == |Dids(followers) * Dids(follows)|
      && a.counts.nonMutualFollows == |a.nonMutualFollows| == |Dids(follows) - Dids(followers)|
      && a.counts.fans == |a.fans| == |Dids(followers) - Dids(follows)|
      && a.counts.totalFollowers == |followers|
      && a.counts.totalFollowing == |follows|
  {
    var f, g := Dids(followers), Dids(follows);
    var m := Enumerate(f * g, follows);
    var n := Enumerate(g - f, follows);
    var k := Enumerate(f - g, followers);
    ResolvedDids(m, follows);
    ResolvedDids(n, follows);
    ResolvedDids(k, followers);
    NoDupCard(m);
    NoDupCard(n);
    NoDupCard(k);
  }

  /** The three categories are pairwise disjoint and together cover every
      account that follows or is followed. */
  lemma CategoriesPartition(followers: seq<Profile>, follows: seq<Profile>)
    ensures var a := Analyze(followers, follows);
      var mutual := Elements(FollowerDidList(a.mutualFollows));
      var nonMutual := Elements(FollowDidList(a.nonMutualFollows));
      var fans := Elements(FollowerDidList(a.fans));
      && mutual !! nonMutual && mutual !! fans && nonMutual !! fans
      && mutual + nonMutual + fans == Dids(followers) + Dids(follows)
  {
    CategoryDids(followers, follows);
    SplitCovers(Dids(followers), Dids(follows));
  }

  lemma SplitCovers(f: set<Did>, g: set<Did>)
    ensures (f * g) + (g - f) + (f - g) == f + g
  {
  }

  lemma SplitCards(f: set<Did>, g: set<Did>)
    ensures |f * g| + |g - f| == |g|
    ensures |f * g| + |f - g| == |f|
  {
    assert g == (f * g) + (g - f);
    assert f == (f * g) + (f - g);
  }

  /** Mutual plus non-mutual count the distinct follows, mutual plus fans the
      distinct followers; with no DID repeated within a list these equal the
      totals. */
  lemma CategoryCounts(followers: seq<Profile>, follows: seq<Profile>)
    ensures var c := Analyze(followers, follows).counts;
      && c.mutualFollows + c.nonMutualFollows == |Dids(follows)| <= c.totalFollowing
      && c.mutualFollows + c.fans == |Dids(followers)| <= c.totalFollowers
      && (DistinctDids(follows) ==> c.mutualFollows + c.nonMutualFollows == c.totalFollowing)
      && (DistinctDids(followers) ==> c.mutualFollows + c.fans == c.totalFollowers)
  {
    var f, g := Dids(followers), Dids(follows);
    CategoryDids(followers, follows);
    SplitCards(f, g);
    DidsCardBound(followers);
    DidsCardBound(follows);
    if DistinctDids(follows) { DistinctDidsCard(follows); }
    if DistinctDids(followers) { DistinctDidsCard(followers); }
  }

  /** Mutual and non-mutual entries are projections of the last follows
      record with their DID, fans of the last followers record; mutual entries
      and fans use the follower projection, non-mutual ones the follow
      projection. */
  lemma RecordsFromLookups(followers: seq<Profile>, follows: seq<Profile>)
    ensures var a := Analyze(followers, follows);
      && (forall i :: 0 <= i < |a.mutualFollows| ==>
            var k := LastIndex(follows, a.mutualFollows[i].did);
            0 <= k && a.mutualFollows[i] == FollowerInfoOf(follows[k]))
      && (forall i :: 0 <= i < |a.nonMutualFollows| ==>
            var k := LastIndex(follows, a.nonMutualFollows[i].did);
            0 <= k && a.nonMutualFollows[i] == FollowInfoOf(follows[k]))
      && (forall i :: 0 <= i < |a.fans| ==>
            var k := LastIndex(followers, a.fans[i].did);
            0 <= k && a.fans[i] == FollowerInfoOf(followers[k]))
  {
    var f, g := Dids(followers), Dids(follows);
    ResolvedFromLast(Enumerate(f * g, follows), follows);
    ResolvedFromLast(Enumerate(g - f, follows), follows);
    ResolvedFromLast(Enumerate(f - g, followers), followers);
  }

  lemma ResolvedFromLast(ds: seq<Did>, rs: seq<Profile>)
    requires Elements(ds) <= Dids(rs)
    ensures forall i :: 0 <= i < |ds| ==>
              0 <= LastIndex(rs, ds[i]) && Resolve(ds, Lookup(rs))[i] == rs[LastIndex(rs, ds[i])]
  {
    forall i | 0 <= i < |ds|
      ensures 0 <= LastIndex(rs, ds[i]) && Resolve(ds, Lookup(rs))[i] == rs[LastIndex(rs, ds[i])]
    {
      assert ds[i] in Elements(ds);
      LookupKeepsLast(rs, ds[i]);
    }
  }

  /** The category DID sets and all counts depend only on the contents of the
      two fetched lists, not on the order the server returned them in. */
  lemma AnalysisIgnoresOrder(followers: seq<Profile>, follows: seq<Profile>,
                             followers': seq<Profile>, follows': seq<Profile>)
    requires multiset(followers) == multiset(followers')
    requires multiset(follows) == multiset(follows')
    ensures var a, b := Analyze(followers, follows), Analyze(followers', follows');
      && a.counts == b.counts
      && Elements(FollowerDidList(a.mutualFollows)) == Elements(FollowerDidList(b.mutualFollows))
      && Elements(FollowDidList(a.nonMutualFollows)) == Elements(FollowDidList(b.nonMutualFollows))
      && Elements(FollowerDidList(a.fans)) == Elements(FollowerDidList(b.fans))
  {
    assert forall r :: r in followers <==> r in followers' by {
      forall r ensures r in followers <==> r in followers' {
        assert r in followers <==> r in multiset(followers);
        assert r in followers' <==> r in multiset(followers');
      }
    }
    assert forall r :: r in follows <==> r in follows' by {
      forall r ensures r in follows <==> r in follows' {
        assert r in follows <==> r in multiset(follows);
        assert r in follows' <==> r in multiset(follows');
      }
    }
    assert Dids(followers) == Dids(followers');
    assert Dids(follows) == Dids(follows');
    assert |followers| == |multiset(followers)| == |followers'|;
    assert |follows| == |multiset(follows)| == |follows'|;
    CategoryDids(followers, follows);
    CategoryDids(followers', follows');
  }

  /** Followers {A, B, C} and follows {B, C, D}: mutual {B, C}, non-mutual
      {D}, fans {A}, counts 3, 3, 2, 1, 1. */
  lemma FourAccountExample(a: Profile, b: Profile, c: Profile, d: Profile)
    requires [a.did, b.did, c.did, d.did] == ["A", "B", "C", "D"]
    ensures var r := Analyze([a, b, c], [b, c, d]);
      && Elements(FollowerDidList(r.mutualFollows)) == {"B", "C"}
      && Elements(FollowDidList(r.nonMutualFollows)) == {"D"}
      && Elements(FollowerDidList(r.fans)) == {"A"}
      && r.counts == Counts(3, 3, 2, 1, 1)
  {
    assert Dids([a, b, c]) == {"A", "B", "C"};
    assert Dids([b, c, d]) == {"B", "C", "D"};
    assert {"A", "B", "C"} * {"B", "C", "D"} == {"B", "C"};
    assert {"B", "C", "D"} - {"A", "B", "C"} == {"D"};
    assert {"A", "B", "C"} - {"B", "C", "D"} == {"A"};
    CategoryDids([a, b, c], [b, c, d]);
  }

  /** The whole analysis: fetch followers, then follows, then analyze; a
      failed fetch aborts it. */
  function RelationshipAnalysis(actor: Option<string>, login: Option<Did>,
                                followerReplies: seq<Reply>, followsReplies: seq<Reply>)
    : Result<Analysis, FetchError>
  {
    match Fetch(actor, login, followerReplies)
    case Err(e) => Err(e)
    case Ok(followers) =>
      match Fetch(actor, login, followsReplies)
      case Err(e) => Err(e)
      case Ok(follows) => Ok(Analyze(followers, follows))
  }

  /** `get_relationship_analysis`, with the two fetches' server replies as
      input: the followers are fetched first, and the follows only when that
      succeeded. */
  method GetRelationshipAnalysis(actor: Option<string>, login: Option<Did>,
                                 followerReplies: seq<Reply>, followsReplies: seq<Reply>)
    returns (analysis: Result<Analysis, FetchError>, followerSent: seq<Request>, followsSent: seq<Request>)
    ensures analysis == RelationshipAnalysis(actor, login, followerReplies, followsReplies)
    ensures analysis.Ok? <==> Fetch(actor, login, followerReplies).Ok? && Fetch(actor, login, followsReplies).Ok?
    ensures ResolveActor(actor, login).Err? ==> followerSent == [] && followsSent == []
    ensures ResolveActor(actor, login).Ok? ==>
              |followerSent| == Fetched(followerReplies) &&
              SentInOrder(followerSent, FollowersEndpoint, ResolveActor(actor, login).value, followerReplies)
    ensures Fetch(actor, login, followerReplies).Err? ==> followsSent == []
    ensures Fetch(actor, login, followerReplies).Ok? ==>
              |followsSent| == Fetched(followsReplies) &&
              SentInOrder(followsSent, FollowsEndpoint, ResolveActor(actor, login).value, followsReplies)
  {
    var followers;
    followers, followerSent := GetAllFollowers(actor, login, followerReplies);
    if followers.Err? {
      return Err(followers.error), followerSent, [];
    }
    var follows;
    follows, followsSent := GetAllFollows(actor, login, followsReplies);
    if follows.Err? {
      return Err(follows.error), followerSent, followsSent;
    }
    analysis := Ok(Analyze(followers.value, follows.value));
  }
}
