/** unfollow_manager.py: find the follow edge of each non-mutual follow by
    scanning the actor's follows pages, delete it, and tally the outcomes.
    Each scan's server replies and each delete's status are inputs. */
module UnfollowManager {
  import opened Wrappers
  import opened Records
  import opened Pagination
  import opened GetFollows
  import opened AnalyzeRelationships

  /** The record collection named in every delete request. */
  const FollowCollection := "app.bsky.graph.follow"

  /** The dictionary `get_follow_record` returns. */
  datatype FollowRecord = FollowRecord(uri: string, rkey: string, did: Did, handle: string)

  /** The JSON body of one deleteRecord request. */
  datatype DeleteRequest = DeleteRequest(collection: string, repo: Did, rkey: string)

  /** What `get_follow_record` can raise: a failed fetch, or a KeyError when
      the matching follow has no "uri". */
  datatype LookupError = Failed(cause: FetchError) | MissingUri

  /** `uri.split("/")[-1]`: the text after the last '/', or all of `uri`
      when it has none. */
  function LastSegment(uri: string): (r: string)
    ensures |r| <= |uri|
    ensures '/' !in r
  {
    if uri == [] then []
    else if uri[|uri| - 1] == '/' then []
    else LastSegment(uri[..|uri| - 1]) + [uri[|uri| - 1]]
  }

  /** The rkey is the longest suffix of the uri without a '/'. */
  lemma {:induction false} LastSegmentIsSuffix(uri: string)
    ensures var r := LastSegment(uri);
      && '/' !in r
      && uri[|uri| - |r|..] == r
      && (|r| == |uri| || uri[|uri| - |r| - 1] == '/')
  {
    if uri != [] && uri[|uri| - 1] != '/' {
      var init, c := uri[..|uri| - 1], uri[|uri| - 1];
      LastSegmentIsSuffix(init);
      var r', r := LastSegment(init), LastSegment(uri);
      assert r == r' + [c];
      assert uri[|uri| - |r|..] == init[|init| - |r'|..] + [c];
      if |r'| < |init| {
        assert uri[|uri| - |r| - 1] == init[|init| - |r'| - 1];
      }
    }
  }

  /** Splitting recovers the segment that was joined after the last '/'. */
  lemma {:induction false} LastSegmentOfJoin(prefix: string, segment: string)
    requires '/' !in segment
    requires prefix == [] || prefix[|prefix| - 1] == '/'
    ensures LastSegment(prefix + segment) == segment
  {
    if segment == [] {
      assert prefix + segment == prefix;
    } else {
      var init := segment[..|segment| - 1];
      assert (prefix + segment)[..|prefix + segment| - 1] == prefix + init;
      LastSegmentOfJoin(prefix, init);
      assert segment == init + [segment[|segment| - 1]];
    }
  }

  /** Index of the first item with DID `target`, if any. */
  function FirstMatch(items: seq<Profile>, target: Did): (r: Option<nat>)
    ensures r.Some? ==> r.value < |items| && items[r.value].did == target
    ensures forall j :: 0 <= j < |items| && (r.None? || j < r.value) ==> items[j].did != target
  {
    if items == [] then None
    else if items[0].did == target then Some(0)
    else
      match FirstMatch(items[1..], target)
      case Some(k) => Some(k + 1)
      case None => None
  }

  /** The record built from the matching follow: its DID, handle and uri are
      copied and the rkey is the uri's last segment; a missing "uri" raises. */
  function RecordOf(follow: Profile): (r: Result<FollowRecord, LookupError>)
    ensures r.Err? <==> follow.uri.None?
    ensures r.Err? ==> r.error == MissingUri
    ensures r.Ok? ==>
              && r.value.did == follow.did
              && r.value.handle == follow.handle
              && follow.uri == Some(r.value.uri)
              && r.value.rkey == LastSegment(r.value.uri)
  {
    match follow.uri
    case None => Err(MissingUri)
    case Some(uri) => Ok(FollowRecord(uri, LastSegment(uri), follow.did, follow.handle))
  }

  /** What the scan does with one reply: stop with an outcome, or request
      the next page. */
  datatype Step = Stop(outcome: Result<Option<FollowRecord>, LookupError>) | Next

  function PageStep(target: Did, reply: Reply): (step: Step)
    ensures step.Next? ==>
              && !RaisesForStatus(reply.status)
              && Truthy(reply.page.cursor)
              && forall j :: 0 <= j < |reply.page.items| ==> reply.page.items[j].did != target
    ensures step.Stop? && step.outcome.Ok? && step.outcome.value.Some? ==>
              step.outcome.value.value.did == target &&
              step.outcome.value.value.rkey == LastSegment(step.outcome.value.value.uri)
    ensures step.Stop? && step.outcome.Err? && step.outcome.error.Failed? ==>
              step.outcome.error.cause == HttpError(reply.status) && RaisesForStatus(reply.status)
  {
    if RaisesForStatus(reply.status) then Stop(Err(Failed(HttpError(reply.status))))
    else
      match FirstMatch(reply.page.items, target)
      case Some(k) =>
        Stop(match RecordOf(reply.page.items[k])
             case Ok(record) => Ok(Some(record))
             case Err(e) => Err(e))
      case None =>
        if Truthy(reply.page.cursor) then Next else Stop(Ok(None))
  }

  /** After this reply the scan asks for the next page. */
  predicate ScanContinues(target: Did, r: Reply) {
    PageStep(target, r).Next?
  }

  /** What the scan of `get_follow_record` returns or raises when the server
      answers with `replies`. */
  function Scan(target: Did, replies: seq<Reply>): (r: Result<Option<FollowRecord>, LookupError>)
    ensures r.Ok? && r.value.Some? ==>
              r.value.value.did == target && r.value.value.rkey == LastSegment(r.value.value.uri)
    ensures r.Err? && r.error.Failed? ==> !r.error.cause.LoginFailed?
    ensures r.Err? && r.error.Failed? && r.error.cause.HttpError? ==> RaisesForStatus(r.error.cause.status)
  {
    if replies == [] then Err(Failed(ServerExhausted))
    else
      match PageStep(target, replies[0])
      case Stop(outcome) => outcome
      case Next => Scan(target, replies[1..])
  }

  /** Number of pages the scan requests: it stops after a raising reply, a
      match, or a page without cursor. */
  function Scanned(target: Did, replies: seq<Reply>): (n: nat)
    ensures n <= |replies|
    ensures replies != [] ==> 0 < n
  {
    if replies == [] then 0
    else if !ScanContinues(target, replies[0]) then 1
    else 1 + Scanned(target, replies[1..])
  }

  /** The scan requests the next page after every page but the last it reads,
      and stops after the first page that raises, matches or has no cursor. */
  lemma {:induction false} ScanStopsAtFirstEnd(target: Did, replies: seq<Reply>)
    ensures var n := Scanned(target, replies);
      && (forall k :: 0 <= k < n - 1 ==> ScanContinues(target, replies[k]))
      && (0 < n < |replies| ==> !ScanContinues(target, replies[n - 1]))
  {
    if replies != [] && ScanContinues(target, replies[0]) {
      var rest := replies[1..];
      ScanStopsAtFirstEnd(target, rest);
      var n := Scanned(target, replies);
      forall k | 0 <= k < n - 1 ensures ScanContinues(target, replies[k]) {
        if k > 0 { assert replies[k] == rest[k - 1]; }
      }
      if 0 < n < |replies| { assert replies[n - 1] == rest[n - 2]; }
    }
  }

  /** The body of `get_follow_record`'s loop once a reply is in: raise on an
      error status, return the first follow with DID `target`, or go on. */
  method ReadPage(target: Did, reply: Reply) returns (step: Step)
    ensures step == PageStep(target, reply)
  {
    if RaisesForStatus(reply.status) {
      return Stop(Err(Failed(HttpError(reply.status))));
    }
    var items := reply.page.items;
    var j := 0;
    while j < |items|
      invariant 0 <= j <= |items|
      invariant forall m :: 0 <= m < j ==> items[m].did != target
    {
      var follow := items[j];
      if follow.did == target {
        if follow.uri.None? {
          return Stop(Err(MissingUri));
        }
        var uri := follow.uri.value;
        return Stop(Ok(Some(FollowRecord(uri, LastSegment(uri), follow.did, follow.handle))));
      }
      j := j + 1;
    }
    if Truthy(reply.page.cursor) {
      step := Next;
    } else {
      step := Stop(Ok(None));
    }
  }

  /** `get_follow_record`: log in, then scan the actor's follows pages for
      the first follow with DID `target`. */
  method GetFollowRecord(target: Did, login: Option<Did>, replies: seq<Reply>)
    returns (record: Result<Option<FollowRecord>, LookupError>, sent: seq<Request>)
    ensures login.None? ==> record == Err(Failed(LoginFailed)) && sent == []
    ensures login.Some? ==>
              && record == Scan(target, replies)
              && |sent| == Scanned(target, replies)
              && SentInOrder(sent, FollowsEndpoint, login.value, replies)
  {
    if login.None? {
      return Err(Failed(LoginFailed)), [];
    }
    var myDid := login.value;
    var cursor: Option<string> := None;
    var i := 0;
    sent := [];
    assert replies[i..] == replies;
    while true
      invariant 0 <= i <= |replies|
      invariant Scan(target, replies) == Scan(target, replies[i..])
      invariant Scanned(target, replies) == i + Scanned(target, replies[i..])
      invariant |sent| == i && SentInOrder(sent, FollowsEndpoint, myDid, replies)
      invariant cursor == if i == 0 then None else replies[i - 1].page.cursor
      invariant i > 0 ==> Truthy(cursor)
      decreases |replies| - i
    {
      if i == |replies| {
        return Err(Failed(ServerExhausted)), sent;
      }
      sent := sent + [Request(FollowsEndpoint, myDid, PageLimit, if Truthy(cursor) then cursor else None)];
      var reply := replies[i];
      assert replies[i..][1..] == replies[i + 1..];
      i := i + 1;
      var step := ReadPage(target, reply);
      if step.Stop? {
        return step.outcome, sent;
      }
      cursor := reply.page.cursor;
    }
  }

  /** No page before page `p` holds the target. */
  predicate AbsentBefore(target: Did, replies: seq<Reply>, p: nat)
    requires p <= |replies|
  {
    forall q, j :: 0 <= q < p && 0 <= j < |replies[q].page.items| ==> replies[q].page.items[j].did != target
  }

  /** A found record belongs to the target, is built from the first matching
      follow in page order, and is found on the last page the scan requests. */
  lemma {:induction false} ScanFindsFirst(target: Did, replies: seq<Reply>)
    requires Scan(target, replies).Ok? && Scan(target, replies).value.Some?
    ensures var p := Scanned(target, replies) - 1;
      && 0 <= p
      && !RaisesForStatus(replies[p].status)
      && FirstMatch(replies[p].page.items, target).Some?
      && RecordOf(replies[p].page.items[FirstMatch(replies[p].page.items, target).value])
           == Ok(Scan(target, replies).value.value)
      && AbsentBefore(target, replies, p)
  {
    if ScanContinues(target, replies[0]) {
      var rest := replies[1..];
      assert Scan(target, replies) == Scan(target, rest);
      ScanFindsFirst(target, rest);
      var p := Scanned(target, replies) - 1;
      assert replies[p] == rest[p - 1];
      forall q, j | 0 <= q < p && 0 <= j < |replies[q].page.items|
        ensures replies[q].page.items[j].did != target
      {
        if q > 0 { assert replies[q] == rest[q - 1]; }
      }
    }
  }

  /** What a found record holds: the target's DID, the matching follow's
      handle and uri, and the uri's last segment as rkey. */
  lemma FoundRecordFields(target: Did, replies: seq<Reply>)
    requires Scan(target, replies).Ok? && Scan(target, replies).value.Some?
    ensures var record := Scan(target, replies).value.value;
      var p := Scanned(target, replies) - 1;
      && 0 <= p
      && FirstMatch(replies[p].page.items, target).Some?
      && var follow := replies[p].page.items[FirstMatch(replies[p].page.items, target).value];
      && record.did == target
      && record.handle == follow.handle
      && follow.uri == Some(record.uri)
      && record.rkey == LastSegment(record.uri)
  {
    ScanFindsFirst(target, replies);
  }

  /** `None` comes back exactly when the scan ends on a successful page
      without cursor and no page it read holds the target. */
  lemma {:induction false} ScanNotFound(target: Did, replies: seq<Reply>)
    ensures Scan(target, replies) == Ok(None) <==>
      var n := Scanned(target, replies);
      && 0 < n
      && !RaisesForStatus(replies[n - 1].status)
      && !Truthy(replies[n - 1].page.cursor)
      && forall q, j :: 0 <= q < n && 0 <= j < |replies[q].page.items| ==>
           replies[q].page.items[j].did != target
  {
    if replies != [] && ScanContinues(target, replies[0]) {
      var rest := replies[1..];
      ScanNotFound(target, rest);
      var n := Scanned(target, replies);
      if n >= 2 { assert replies[n - 1] == rest[n - 2]; }
      if forall q, j :: 0 <= q < n - 1 && 0 <= j < |rest[q].page.items| ==> rest[q].page.items[j].did != target {
        forall q, j | 0 <= q < n && 0 <= j < |replies[q].page.items|
          ensures replies[q].page.items[j].did != target
        {
          if q > 0 { assert replies[q] == rest[q - 1]; }
        }
      } else {
        var q, j :| 0 <= q < n - 1 && 0 <= j < |rest[q].page.items| && rest[q].page.items[j].did == target;
        assert replies[q + 1].page.items[j].did == target;
      }
    }
  }

  /** The delete request `unfollow_user` sends, if it gets that far. */
  function DeleteIssued(target: Did, login: Option<Did>, replies: seq<Reply>): (d: Option<DeleteRequest>)
    ensures d.Some? ==> login.Some? && d.value.collection == FollowCollection && d.value.repo == login.value
    ensures d.Some? ==> '/' !in d.value.rkey
    ensures Scan(target, replies) == Ok(None) ==> d.None?
  {
    if login.Some? && Scan(target, replies).Ok? && Scan(target, replies).value.Some? then
      Some(DeleteRequest(FollowCollection, login.value, Scan(target, replies).value.value.rkey))
    else None
  }

  /** Whether `unfollow_user` returns True. */
  predicate Unfollows(target: Did, login: Option<Did>, replies: seq<Reply>, deleteStatus: int)
    ensures Unfollows(target, login, replies, deleteStatus) ==>
              login.Some? && Scan(target, replies).Ok? && Scan(target, replies).value.Some? &&
              !RaisesForStatus(deleteStatus)
  {
    DeleteIssued(target, login, replies).Some? && !RaisesForStatus(deleteStatus)
  }

  /** `unfollow_user`: look the edge up, delete it, and report success. Every
      failure, raised or not, yields false and nothing escapes. */
  method UnfollowUser(target: Did, login: Option<Did>, replies: seq<Reply>, deleteStatus: int)
    returns (ok: bool, delete: Option<DeleteRequest>)
    ensures delete == DeleteIssued(target, login, replies)
    ensures ok == Unfollows(target, login, replies, deleteStatus)
  {
    var record, _ := GetFollowRecord(target, login, replies);
    if record.Err? {
      return false, None;
    }
    if record.value.None? {
      return false, None;
    }
    var myDid := login.value;
    delete := Some(DeleteRequest(FollowCollection, myDid, record.value.value.rkey));
    ok := !RaisesForStatus(deleteStatus);
  }

  /** The outcome of one unfollow, case by case: a failed login, a failed
      lookup or a missing edge sends no delete and fails; a found edge sends
      a delete of the edge uri's last segment in the actor's repository, and
      the unfollow succeeds exactly when that delete is accepted. */
  lemma UnfollowOutcome(target: Did, login: Option<Did>, replies: seq<Reply>, deleteStatus: int)
    ensures login.None? ==>
              DeleteIssued(target, login, replies) == None && !Unfollows(target, login, replies, deleteStatus)
    ensures Scan(target, replies).Err? ==>
              DeleteIssued(target, login, replies) == None && !Unfollows(target, login, replies, deleteStatus)
    ensures Scan(target, replies) == Ok(None) ==>
              DeleteIssued(target, login, replies) == None && !Unfollows(target, login, replies, deleteStatus)
    ensures login.Some? && Scan(target, replies).Ok? && Scan(target, replies).value.Some? ==>
              var record := Scan(target, replies).value.value;
              && record.did == target
              && DeleteIssued(target, login, replies) ==
                   Some(DeleteRequest(FollowCollection, login.value, LastSegment(record.uri)))
              && (Unfollows(target, login, replies, deleteStatus) <==> !RaisesForStatus(deleteStatus))
  {
    if login.Some? && Scan(target, replies).Ok? && Scan(target, replies).value.Some? {
      FoundRecordFields(target, replies);
    }
  }

  /** The dictionary `unfollow_non_mutuals` returns. */
  datatype BatchResult = BatchResult(totalAttempted: nat, successful: nat, failed: nat, failures: seq<string>)

  /** Whether each target's unfollow succeeds, in iteration order. */
  function Outcomes(targets: seq<FollowInfo>, login: Option<Did>,
                    scans: Did -> seq<Reply>, deleteStatus: Did -> int): (ok: seq<bool>)
    ensures |ok| == |targets|
    ensures forall k :: 0 <= k < |targets| ==>
              ok[k] == Unfollows(targets[k].did, login, scans(targets[k].did), deleteStatus(targets[k].did))
  {
    seq(|targets|, k requires 0 <= k < |targets| =>
      Unfollows(targets[k].did, login, scans(targets[k].did), deleteStatus(targets[k].did)))
  }

  /** Handles of the targets whose unfollow fails, in iteration order. */
  function FailedHandles(targets: seq<FollowInfo>, ok: seq<bool>): seq<string>
    requires |ok| == |targets|
  {
    if targets == [] then []
    else
      var n := |targets| - 1;
      FailedHandles(targets[..n], ok[..n]) + (if ok[n] then [] else [targets[n].handle])
  }

  /** Number of successful unfollows. */
  function Successes(ok: seq<bool>): nat {
    if ok == [] then 0
    else Successes(ok[..|ok| - 1]) + (if ok[|ok| - 1] then 1 else 0)
  }

  /** One more target extends the tallies by its own outcome. */
  lemma TallyStep(targets: seq<FollowInfo>, ok: seq<bool>, i: nat)
    requires |ok| == |targets| && i < |targets|
    ensures FailedHandles(targets[..i + 1], ok[..i + 1])
            == FailedHandles(targets[..i], ok[..i]) + (if ok[i] then [] else [targets[i].handle])
    ensures Successes(ok[..i + 1]) == Successes(ok[..i]) + (if ok[i] then 1 else 0)
  {
    assert targets[..i + 1][..i] == targets[..i] && ok[..i + 1][..i] == ok[..i];
  }

  /** Every target is counted once: as a success or as a listed failure. */
  lemma {:induction false} TallyAddsUp(targets: seq<FollowInfo>, ok: seq<bool>)
    requires |ok| == |targets|
    ensures Successes(ok) + |FailedHandles(targets, ok)| == |targets|
  {
    if targets != [] {
      var n := |targets| - 1;
      TallyAddsUp(targets[..n], ok[..n]);
    }
  }

  /** A handle is listed as failed exactly when some target with that handle
      failed. */
  lemma {:induction false} FailuresAreFailedTargets(targets: seq<FollowInfo>, ok: seq<bool>, h: string)
    requires |ok| == |targets|
    ensures h in FailedHandles(targets, ok) <==>
              exists k :: 0 <= k < |targets| && !ok[k] && targets[k].handle == h
  {
    if targets != [] {
      var n := |targets| - 1;
      FailuresAreFailedTargets(targets[..n], ok[..n], h);
      if exists k :: 0 <= k < |targets| && !ok[k] && targets[k].handle == h {
        var k :| 0 <= k < |targets| && !ok[k] && targets[k].handle == h;
        if k < n {
          assert !ok[..n][k] && targets[..n][k].handle == h;
        }
      }
    }
  }

  /** Three targets where the middle one has no follow edge: two successes,
      one failure, and the failing handle listed. */
  lemma PartialFailureExample(t1: FollowInfo, t2: FollowInfo, t3: FollowInfo, login: Did,
                              scans: Did -> seq<Reply>, deleteStatus: Did -> int)
    requires Unfollows(t1.did, Some(login), scans(t1.did), deleteStatus(t1.did))
    requires Unfollows(t3.did, Some(login), scans(t3.did), deleteStatus(t3.did))
    requires scans(t2.did) == [Reply(200, Page([], None))]
    ensures var ok := Outcomes([t1, t2, t3], Some(login), scans, deleteStatus);
      FailedHandles([t1, t2, t3], ok) == [t2.handle] && Successes(ok) == 2
  {
    var ok := Outcomes([t1, t2, t3], Some(login), scans, deleteStatus);
    assert Scan(t2.did, scans(t2.did)) == Ok(None);
    UnfollowOutcome(t2.did, Some(login), scans(t2.did), deleteStatus(t2.did));
    assert ok == [true, false, true];
    assert [true, false, true][..2] == [true, false] && [true, false][..1] == [true];
    assert [t1, t2, t3][..2] == [t1, t2] && [t1, t2][..1] == [t1];
    assert [true][..0] == [] && [t1][..0] == [];
    assert FailedHandles([t1], [true]) == [];
    assert FailedHandles([t1, t2], [true, false]) == [t2.handle];
    assert Successes([true, false]) == 1;
  }

  /** `unfollow_non_mutuals`: re-run the analysis, then either only report
      the non-mutual follows (dry run) or unfollow each in turn, counting
      successes and collecting the handles that failed. A failed analysis
      propagates; per-target failures never stop the batch. `attempted` lists
      the DIDs passed to `unfollow_user`, in order. */
  method UnfollowNonMutuals(dryRun: bool, login: Option<Did>,
                            followerReplies: seq<Reply>, followsReplies: seq<Reply>,
                            scans: Did -> seq<Reply>, deleteStatus: Did -> int)
    returns (results: Result<BatchResult, FetchError>, attempted: seq<Did>)
    ensures var analysis := RelationshipAnalysis(None, login, followerReplies, followsReplies);
      analysis.Err? ==> results == Err(analysis.error) && attempted == []
    ensures var analysis := RelationshipAnalysis(None, login, followerReplies, followsReplies);
      analysis.Ok? ==>
        var targets := analysis.value.nonMutualFollows;
        && results.Ok?
        && results.value.totalAttempted == |targets|
        && (dryRun ==>
              && results.value.successful == 0
              && results.value.failed == 0
              && results.value.failures == []
              && attempted == [])
        && (!dryRun ==>
              && var ok := Outcomes(targets, login, scans, deleteStatus);
              && results.value.failures == FailedHandles(targets, ok)
              && results.value.failed == |results.value.failures|
              && results.value.successful == Successes(ok)
              && results.value.successful + results.value.failed == results.value.totalAttempted
              && |attempted| == |targets|
              && forall k :: 0 <= k < |targets| ==> attempted[k] == targets[k].did)
  {
    var analysis, _, _ := GetRelationshipAnalysis(None, login, followerReplies, followsReplies);
    if analysis.Err? {
      return Err(analysis.error), [];
    }
    var nonMutuals := analysis.value.nonMutualFollows;
    if dryRun {
      return Ok(BatchResult(|nonMutuals|, 0, 0, [])), [];
    }
    var successful, failed, failures;
    successful, failed, failures, attempted := UnfollowEach(nonMutuals, login, scans, deleteStatus);
    results := Ok(BatchResult(|nonMutuals|, successful, failed, failures));
  }

  /** The `for user in non_mutuals` loop of a real run. */
  method UnfollowEach(targets: seq<FollowInfo>, login: Option<Did>,
                      scans: Did -> seq<Reply>, deleteStatus: Did -> int)
    returns (successful: nat, failed: nat, failures: seq<string>, attempted: seq<Did>)
    ensures var ok := Outcomes(targets, login, scans, deleteStatus);
      && failures == FailedHandles(targets, ok)
      && successful == Successes(ok)
    ensures failed == |failures| && successful + failed == |targets|
    ensures |attempted| == |targets| && forall k :: 0 <= k < |targets| ==> attempted[k] == targets[k].did
  {
    ghost var outcomes := Outcomes(targets, login, scans, deleteStatus);
    successful, failed, failures, attempted := 0, 0, [], [];
    for i := 0 to |targets|
      invariant failures == FailedHandles(targets[..i], outcomes[..i])
      invariant successful == Successes(outcomes[..i])
      invariant failed == |failures|
      invariant successful + failed == i
      invariant |attempted| == i && forall k :: 0 <= k < i ==> attempted[k] == targets[k].did
    {
      var user := targets[i];
      var ok, _ := UnfollowUser(user.did, login, scans(user.did), deleteStatus(user.did));
      assert ok == outcomes[i];
      TallyStep(targets, outcomes, i);
      attempted := attempted + [user.did];
      if ok {
        successful := successful + 1;
      } else {
        failed := failed + 1;
        failures := failures + [user.handle];
      }
    }
    assert targets[..|targets|] == targets && outcomes[..|targets|] == outcomes;
  }
}
