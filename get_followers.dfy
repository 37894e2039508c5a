/** get_followers.py: every account following an actor, and its projection. */
module GetFollowers {
  import opened Wrappers
  import opened Records
  import opened Pagination

  /** The dictionary `extract_follower_info` builds for one follower; it has
      no description. */
  datatype FollowerInfo = FollowerInfo(did: Did, handle: string, displayName: string)

  function FollowerInfoOf(p: Profile): FollowerInfo {
    FollowerInfo(p.did, p.handle, p.displayName.GetOr(""))
  }

  /** `extract_follower_info`: one projected entry per follower, in order,
      with a missing display name replaced by "". */
  function ExtractFollowerInfo(followers: seq<Profile>): (r: seq<FollowerInfo>)
    ensures |r| == |followers|
    ensures forall i :: 0 <= i < |r| ==>
              && r[i].did == followers[i].did
              && r[i].handle == followers[i].handle
              && (followers[i].displayName.Some? ==> r[i].displayName == followers[i].displayName.value)
              && (followers[i].displayName.None? ==> r[i].displayName == "")
  {
    seq(|followers|, i requires 0 <= i < |followers| => FollowerInfoOf(followers[i]))
  }

  /** The DIDs of projected followers, in order. */
  function FollowerDidList(xs: seq<FollowerInfo>): (ds: seq<Did>)
    ensures |ds| == |xs| && forall i :: 0 <= i < |xs| ==> ds[i] == xs[i].did
  {
    seq(|xs|, i requires 0 <= i < |xs| => xs[i].did)
  }

  /** `get_all_followers`: the actor defaults to the logged-in DID, then the
      followers pages are read until one comes back without a cursor. */
  method GetAllFollowers(actor: Option<string>, login: Option<Did>, replies: seq<Reply>)
    returns (followers: Result<seq<Profile>, FetchError>, sent: seq<Request>)
    ensures followers == Fetch(actor, login, replies)
    ensures ResolveActor(actor, login).Err? ==> sent == []
    ensures ResolveActor(actor, login).Ok? ==>
              |sent| == Fetched(replies) &&
              SentInOrder(sent, FollowersEndpoint, ResolveActor(actor, login).value, replies)
  {
    var who := ResolveActor(actor, login);
    if who.Err? {
      return Err(who.error), [];
    }
    followers, sent := FetchAllPages(FollowersEndpoint, who.value, replies);
  }
}
