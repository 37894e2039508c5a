/** get_follows.py: every account an actor follows, and its projection. */
module GetFollows {
  import opened Wrappers
  import opened Records
  import opened Pagination

  /** The dictionary `extract_follow_info` builds for one follow. */
  datatype FollowInfo = FollowInfo(did: Did, handle: string, displayName: string, description: string)

  function FollowInfoOf(p: Profile): FollowInfo {
    FollowInfo(p.did, p.handle, p.displayName.GetOr(""), p.description.GetOr(""))
  }

  /** `extract_follow_info`: one projected entry per follow, in order, with
      missing display names and descriptions replaced by "". */
  function ExtractFollowInfo(follows: seq<Profile>): (r: seq<FollowInfo>)
    ensures |r| == |follows|
    ensures forall i :: 0 <= i < |r| ==>
              && r[i].did == follows[i].did
              && r[i].handle == follows[i].handle
              && (follows[i].displayName.Some? ==> r[i].displayName == follows[i].displayName.value)
              && (follows[i].displayName.None? ==> r[i].displayName == "")
              && (follows[i].description.Some? ==> r[i].description == follows[i].description.value)
              && (follows[i].description.None? ==> r[i].description == "")
  {
    seq(|follows|, i requires 0 <= i < |follows| => FollowInfoOf(follows[i]))
  }

  /** The DIDs of projected follows, in order. */
  function FollowDidList(xs: seq<FollowInfo>): (ds: seq<Did>)
    ensures |ds| == |xs| && forall i :: 0 <= i < |xs| ==> ds[i] == xs[i].did
  {
    seq(|xs|, i requires 0 <= i < |xs| => xs[i].did)
  }

  /** `get_all_follows`: the actor defaults to the logged-in DID, then the
      follows pages are read until one comes back without a cursor. */
  method GetAllFollows(actor: Option<string>, login: Option<Did>, replies: seq<Reply>)
    returns (follows: Result<seq<Profile>, FetchError>, sent: seq<Request>)
    ensures follows == Fetch(actor, login, replies)
    ensures ResolveActor(actor, login).Err? ==> sent == []
    ensures ResolveActor(actor, login).Ok? ==>
              |sent| == Fetched(replies) &&
              SentInOrder(sent, FollowsEndpoint, ResolveActor(actor, login).value, replies)
  {
    var who := ResolveActor(actor, login);
    if who.Err? {
      return Err(who.error), [];
    }
    follows, sent := FetchAllPages(FollowsEndpoint, who.value, replies);
  }
}
