/** The cursor-driven page loop shared by get_follows.py and get_followers.py.
    The remote server is modelled as the finite sequence of replies it gives
    to the loop's successive requests. */
module Pagination {
  import opened Wrappers
  import opened Records

  /** Page size sent with every list request. */
  const PageLimit := 100

  const FollowsEndpoint := "app.bsky.graph.getFollows"
  const FollowersEndpoint := "app.bsky.graph.getFollowers"

  /** The JSON body of one list page: its records and the cursor, if any. */
  datatype Page = Page(items: seq<Profile>, cursor: Option<string>)

  /** One HTTP reply: its status code and its decoded body. */
  datatype Reply = Reply(status: int, page: Page)

  /** The query of one list request; `cursor` is present only when sent. */
  datatype Request = Request(endpoint: string, actor: string, limit: int, cursor: Option<string>)

  datatype FetchError =
    | LoginFailed           // the implicit login raised
    | HttpError(status: int) // `raise_for_status` raised
    | ServerExhausted       // the modelled server has no reply left for a request

  /** Python truthiness of an optional cursor: absent and "" are false. */
  predicate Truthy(c: Option<string>) {
    c.Some? && c.value != ""
  }

  /** `Response.raise_for_status` raises for client (4xx) and server (5xx) errors. */
  predicate RaisesForStatus(status: int) {
    400 <= status < 600
  }

  /** After this reply the loop requests another page. */
  predicate Continues(r: Reply) {
    !RaisesForStatus(r.status) && Truthy(r.page.cursor)
  }

  /** `if not actor: actor = self.auth.login()["did"]` */
  function ResolveActor(actor: Option<string>, login: Option<Did>): (r: Result<string, FetchError>)
    ensures Truthy(actor) ==> r == Ok(actor.value)
    ensures !Truthy(actor) && login.Some? ==> r == Ok(login.value)
    ensures !Truthy(actor) && login.None? ==> r == Err(LoginFailed)
  {
    if Truthy(actor) then Ok(actor.value)
    else if login.Some? then Ok(login.value)
    else Err(LoginFailed)
  }

  /** All records of the given replies, page after page. */
  function Items(replies: seq<Reply>): seq<Profile> {
    if replies == [] then [] else replies[0].page.items + Items(replies[1..])
  }

  /** Number of requests the loop issues: it stops right after the first
      reply that raises or carries a falsy cursor. */
  function Fetched(replies: seq<Reply>): (n: nat)
    ensures n <= |replies|
    ensures replies != [] ==> 0 < n
  {
    if replies == [] then 0
    else if !Continues(replies[0]) then 1
    else 1 + Fetched(replies[1..])
  }

  /** Every reply the loop reads but the last continues it, and the loop
      stops right after the first reply that raises or has a falsy cursor. */
  lemma {:induction false} FetchStopsAtFirstEnd(replies: seq<Reply>)
    ensures var n := Fetched(replies);
      && (forall k :: 0 <= k < n - 1 ==> Continues(replies[k]))
      && (0 < n < |replies| ==> !Continues(replies[n - 1]))
  {
    if replies != [] && Continues(replies[0]) {
      var rest := replies[1..];
      FetchStopsAtFirstEnd(rest);
      var n := Fetched(replies);
      forall k | 0 <= k < n - 1 ensures Continues(replies[k]) {
        if k > 0 { assert replies[k] == rest[k - 1]; }
      }
      if 0 < n < |replies| { assert replies[n - 1] == rest[n - 2]; }
    }
  }

  /** The loop ended normally: the last reply it read succeeded and had no cursor. */
  predicate Finished(replies: seq<Reply>) {
    var n := Fetched(replies);
    0 < n && !RaisesForStatus(replies[n - 1].status) && !Truthy(replies[n - 1].page.cursor)
  }

  /** The query of the k-th request: no cursor first, then the cursor of the previous page. */
  function RequestAt(endpoint: string, actor: string, replies: seq<Reply>, k: nat): Request
    requires k <= |replies|
  {
    Request(endpoint, actor, PageLimit, if k == 0 then None else replies[k - 1].page.cursor)
  }

  /** The requests sent are the first |sent| of the loop's request sequence. */
  predicate SentInOrder(sent: seq<Request>, endpoint: string, actor: string, replies: seq<Reply>) {
    |sent| <= |replies| &&
    forall k :: 0 <= k < |sent| ==> sent[k] == RequestAt(endpoint, actor, replies, k)
  }

  function Prepend(items: seq<Profile>, r: Result<seq<Profile>, FetchError>): Result<seq<Profile>, FetchError> {
    match r
    case Ok(rest) => Ok(items + rest)
    case Err(e) => Err(e)
  }

  /** What the loop returns or raises when the server answers with `replies`:
      it never reports a login failure, an HTTP error carries a status that
      raises, and success needs some page without a cursor. */
  function Drain(replies: seq<Reply>): (r: Result<seq<Profile>, FetchError>)
    ensures r.Err? ==> !r.error.LoginFailed?
    ensures r.Err? && r.error.HttpError? ==> RaisesForStatus(r.error.status)
    ensures r.Ok? ==> exists k :: 0 <= k < |replies| && !Truthy(replies[k].page.cursor)
  {
    if replies == [] then Err(ServerExhausted)
    else if RaisesForStatus(replies[0].status) then Err(HttpError(replies[0].status))
    else if !Truthy(replies[0].page.cursor) then Ok(replies[0].page.items)
    else
      var rest := Drain(replies[1..]);
      assert rest.Ok? ==> exists k :: 0 <= k < |replies| && !Truthy(replies[k].page.cursor) by {
        if rest.Ok? {
          var k :| 0 <= k < |replies[1..]| && !Truthy(replies[1..][k].page.cursor);
          assert replies[k + 1] == replies[1..][k];
        }
      }
      Prepend(replies[0].page.items, rest)
  }

  /** A whole fetch: resolve the actor, then drain the pages. */
  function Fetch(actor: Option<string>, login: Option<Did>, replies: seq<Reply>): Result<seq<Profile>, FetchError> {
    match ResolveActor(actor, login)
    case Err(e) => Err(e)
    case Ok(_) => Drain(replies)
  }

  /** The `while True` loop of `get_all_follows` / `get_all_followers`. */
  method FetchAllPages(endpoint: string, actor: string, replies: seq<Reply>)
    returns (result: Result<seq<Profile>, FetchError>, sent: seq<Request>)
    ensures result == Drain(replies)
    ensures |sent| == Fetched(replies) && SentInOrder(sent, endpoint, actor, replies)
  {
    var items: seq<Profile> := [];
    var cursor: Option<string> := None;
    var i := 0;
    sent := [];
    assert replies[i..] == replies;
    PrependTwice([], [], Drain(replies));
    while true
      invariant 0 <= i <= |replies|
      invariant Drain(replies) == Prepend(items, Drain(replies[i..]))
      invariant Fetched(replies) == i + Fetched(replies[i..])
      invariant |sent| == i && SentInOrder(sent, endpoint, actor, replies)
      invariant cursor == if i == 0 then None else replies[i - 1].page.cursor
      invariant i > 0 ==> Truthy(cursor)
      decreases |replies| - i
    {
      if i == |replies| {
        return Err(ServerExhausted), sent;
      }
      var params := Request(endpoint, actor, PageLimit, if Truthy(cursor) then cursor else None);
      sent := sent + [params];
      var reply := replies[i];
      assert replies[i..][1..] == replies[i + 1..];
      i := i + 1;
      if RaisesForStatus(reply.status) {
        return Err(HttpError(reply.status)), sent;
      }
      PrependTwice(items, reply.page.items, Drain(replies[i..]));
      items := items + reply.page.items;
      cursor := reply.page.cursor;
      if !Truthy(cursor) {
        break;
      }
    }
    result := Ok(items);
  }

  lemma PrependTwice(first: seq<Profile>, second: seq<Profile>, r: Result<seq<Profile>, FetchError>)
    ensures Prepend(first, Prepend(second, r)) == Prepend(first + second, r)
    ensures Prepend([], r) == r
  {
    if r.Ok? {
      assert first + (second + r.value) == (first + second) + r.value;
      assert [] + r.value == r.value;
    }
  }

  /** The pagination loop's outcome, in terms of the pages it reads: it
      succeeds exactly when it ends on a successful page without cursor, and
      then returns the in-order concatenation of all pages read; it fails with
      the status of a raising reply, and never returns a partial list. */
  lemma {:induction false} DrainOutcome(replies: seq<Reply>)
    ensures Drain(replies).Ok? <==> Finished(replies)
    ensures Drain(replies).Ok? ==> Drain(replies).value == Items(replies[..Fetched(replies)])
    ensures Drain(replies).Err? && Drain(replies).error.HttpError? <==>
              0 < Fetched(replies) && RaisesForStatus(replies[Fetched(replies) - 1].status)
    ensures Drain(replies).Err? && Drain(replies).error.HttpError? ==>
              Drain(replies).error.status == replies[Fetched(replies) - 1].status
    ensures Drain(replies) == Err(ServerExhausted) <==>
              forall k :: 0 <= k < |replies| ==> Continues(replies[k])
  {
    if replies != [] && Continues(replies[0]) {
      var rest := replies[1..];
      DrainOutcome(rest);
      var n := Fetched(replies);
      if n >= 2 { assert replies[n - 1] == rest[n - 2]; }
      if Drain(rest).Ok? {
        assert replies[..n] == [replies[0]] + rest[..n - 1];
        assert replies[..n][1..] == rest[..n - 1];
      }
      if forall k :: 0 <= k < |rest| ==> Continues(rest[k]) {
        assert forall k :: 0 <= k < |replies| ==> Continues(replies[k]) by {
          forall k | 0 <= k < |replies| ensures Continues(replies[k]) {
            if k > 0 { assert replies[k] == rest[k - 1]; }
          }
        }
      } else {
        var k :| 0 <= k < |rest| && !Continues(rest[k]);
        assert !Continues(replies[k + 1]);
      }
    } else if replies != [] {
      assert replies[..1] == [replies[0]];
      assert Items(replies[..1]) == replies[0].page.items + Items([]);
    }
  }

  /** The two-page example: `[a, b]` with cursor "x", then `[c]` without cursor. */
  lemma TwoPageExample(a: Profile, b: Profile, c: Profile)
    ensures Drain([Reply(200, Page([a, b], Some("x"))), Reply(200, Page([c], None))]) == Ok([a, b, c])
  {
    var replies := [Reply(200, Page([a, b], Some("x"))), Reply(200, Page([c], None))];
    assert replies[1..] == [Reply(200, Page([c], None))];
    assert [a, b] + [c] == [a, b, c];
  }
}
