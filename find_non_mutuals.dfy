/** find_non_mutuals.py: the offline finder over followers and follows data
    loaded into the fields of one object. */
module FindNonMutuals {
  import opened Records

  /** Iterating a Python set: every element once, in an unspecified order. */
  method EnumerateSet(s: set<Did>) returns (ds: seq<Did>)
    ensures NoDup(ds) && Elements(ds) == s && |ds| == |s|
  {
    ds := [];
    var rest := s;
    while rest != {}
      invariant rest <= s
      invariant Elements(ds) == s - rest
      invariant NoDup(ds)
      invariant |ds| + |rest| == |s|
      decreases |rest|
    {
      var d :| d in rest;
      assert Elements(ds + [d]) == Elements(ds) + {d};
      assert s - (rest - {d}) == (s - rest) + {d};
      ds := ds + [d];
      rest := rest - {d};
    }
  }

  class BlueskyMutuals {
    var followers: set<Did>
    var follows: set<Did>
    var followersData: map<Did, Profile>
    var followsData: map<Did, Profile>

    /** The DID sets are the key sets of the stored records, and every stored
        record sits under its own DID. */
    ghost predicate Valid()
      reads this
    {
      && followers == followersData.Keys
      && follows == followsData.Keys
      && (forall d :: d in followersData ==> followersData[d].did == d)
      && (forall d :: d in followsData ==> followsData[d].did == d)
    }

    constructor ()
      ensures Valid()
      ensures followers == {} && follows == {}
    {
      followers, follows := {}, {};
      followersData, followsData := map[], map[];
    }

    /** `load_data`, with the two decoded JSON files given as lists. */
    method LoadData(followersFile: seq<Profile>, followsFile: seq<Profile>)
      modifies this
      ensures Valid()
      ensures followers == Dids(followersFile) && follows == Dids(followsFile)
      ensures followersData == Lookup(followersFile) && followsData == Lookup(followsFile)
    {
      followers := Dids(followersFile);
      follows := Dids(followsFile);
      followersData := Lookup(followersFile);
      followsData := Lookup(followsFile);
    }

    /** `find_non_mutuals`: the stored records of the followers not followed
        back, and of the follows that do not follow back. Reads the fields and
        changes none of them. */
    method FindNonMutuals() returns (nonMutualFollowers: seq<Profile>, nonMutualFollows: seq<Profile>)
      requires Valid()
      ensures Dids(nonMutualFollowers) == followers - follows
      ensures Dids(nonMutualFollows) == follows - followers
      ensures Dids(nonMutualFollowers) !! Dids(nonMutualFollows)
      ensures DistinctDids(nonMutualFollowers) && |nonMutualFollowers| == |followers - follows|
      ensures DistinctDids(nonMutualFollows) && |nonMutualFollows| == |follows - followers|
      ensures forall i :: 0 <= i < |nonMutualFollowers| ==>
                nonMutualFollowers[i].did in followersData &&
                nonMutualFollowers[i] == followersData[nonMutualFollowers[i].did]
      ensures forall i :: 0 <= i < |nonMutualFollows| ==>
                nonMutualFollows[i].did in followsData &&
                nonMutualFollows[i] == followsData[nonMutualFollows[i].did]
    {
      var fans := EnumerateSet(followers - follows);
      var unreturned := EnumerateSet(follows - followers);
      assert forall d :: d in fans ==> d in Elements(fans);
      nonMutualFollowers := Resolve(fans, followersData);
      ResolveKeepsDids(fans, followersData);
      assert forall d :: d in unreturned ==> d in Elements(unreturned);
      nonMutualFollows := Resolve(unreturned, followsData);
      ResolveKeepsDids(unreturned, followsData);
    }
  }
}
