# bsky-unfollow-nonfollowers, modelled in Dafny

The tool works on the social graph of one account on Bluesky, an AT Protocol
network. It does four things:

- It pages through the accounts the actor follows (`app.bsky.graph.getFollows`)
  and the accounts that follow the actor (`app.bsky.graph.getFollowers`), 100
  per page, following the server's cursor.
- It splits the accounts by DID into mutual follows, non-mutual follows
  (followed, but not following back) and fans (following, but not followed
  back), with counts.
- Offline, it finds the same two set differences over followers and follows
  data loaded into one object's fields.
- It unfollows the non-mutual follows. For each one it scans the follows pages
  for the follow edge, takes its `rkey` from the edge's uri, and sends a
  `deleteRecord` for it. Successes and failures are tallied. A dry run only
  reports the targets.

Network I/O is replaced by input data:

- A server is the finite sequence of replies (status and page) it gives to
  successive requests.
- A login is the DID it yields, or `None` when it fails.
- A delete is the status it gets.

Each fetch loop is a `method` with loop invariants. It is proved equal to a
recursive specification function over the replies, and the properties the
source promises are lemmas about those functions.

Files:

- `wrappers.dfy`: `Option` and `Result`.
- `records.dfy`: the account record, DID sets and the last-wins lookup map.
- `pagination.dfy`: the cursor loop shared by both fetchers.
- `get_follows.dfy`, `get_followers.dfy`: the two fetchers and their projections.
- `analyze_relationships.dfy`: the relationship analysis.
- `find_non_mutuals.dfy`: the class `BlueskyMutuals`.
- `unfollow_manager.dfy`: edge lookup, single unfollow and batch unfollow.

## Model

| member | source | states |
|---|---|---|
| Records.Lookup | analyze_relationships.py:25-26 | the `{did: record}` map has exactly the DIDs of the list as keys; each stored record has its key as DID and is the last record in the list with that DID |
| Records.LookupKeepsLast | find_non_mutuals.py:23-24 | a DID is a key exactly when it occurs in the loaded list; when a DID is loaded twice, the stored record is the last one in file order |
| Records.Resolve | analyze_relationships.py:34-36 | looking DIDs up in a map returns one stored record per DID, in the order of the DIDs; what the records carry is stated by `ResolveKeepsDids` |
| Records.ResolveKeepsDids | find_non_mutuals.py:40-46 | when every record is stored under its own DID, the resolved records carry the listed DIDs position by position, their DID set is the set resolved, and distinct DIDs give distinct records |
| Pagination.ResolveActor | get_follows.py:15-16 | an absent or empty actor is replaced by the logged-in DID; a failed login is an error before any request |
| Pagination.Fetched | get_follows.py:21-38 | the loop requests at most one page per reply, and at least one when the server answers |
| Pagination.FetchStopsAtFirstEnd | get_follows.py:31-38 | the loop requests another page after every page but the last one read, and stops right after the first page that raises or has a falsy cursor |
| Pagination.Drain | get_follows.py:18-40 | the specification of the fetch loop over the server's replies: it never reports a login failure, an HTTP error carries a status that raises, and success needs a page without cursor; the full outcome is stated by `DrainOutcome` |
| Pagination.FetchAllPages | get_follows.py:18-40 | the loop's result is the specification `Drain` of the replies; the requests sent are exactly those read, the first without cursor and each later one with the previous page's cursor, 100 per page |
| Pagination.DrainOutcome | get_follows.py:18-40 | the fetch succeeds iff it ends on a non-raising page with a falsy cursor, and then returns the in-order concatenation of every page read; it fails with the raising page's status iff the last page read raises, and never returns a partial list; an inexhaustible cursor chain is the only other outcome |
| Pagination.TwoPageExample | get_follows.py:34-38 | pages `[a, b]` with cursor "x" then `[c]` without cursor fetch `[a, b, c]` |
| GetFollows.ExtractFollowInfo | get_follows.py:42-49 | same length and order; `did` and `handle` copied; a missing display name or description becomes "" |
| GetFollows.GetAllFollows | get_follows.py:10-40 | follows are fetched from the follows endpoint for the resolved actor; no request is sent when the login fails |
| GetFollowers.ExtractFollowerInfo | get_followers.py:42-48 | same length and order; `did` and `handle` copied; a missing display name becomes ""; the entry has no description |
| GetFollowers.GetAllFollowers | get_followers.py:10-40 | followers are fetched from the followers endpoint for the resolved actor; no request is sent when the login fails |
| AnalyzeRelationships.Enumerate | analyze_relationships.py:34-36 | iterating a DID set yields every member of the set exactly once |
| AnalyzeRelationships.Analyze | analyze_relationships.py:20-48 | the analysis of two fetched lists: each category count is the length of its list and the totals are the lengths of the fetched lists; the category contents are stated by `CategoryDids`, `CategoriesPartition`, `CategoryCounts` and `RecordsFromLookups` |
| AnalyzeRelationships.ResolvedDids | analyze_relationships.py:34-41 | resolving DIDs through a lookup map and projecting keeps the DIDs, in order |
| AnalyzeRelationships.CategoryDids | analyze_relationships.py:21-47 | mutual DIDs are followers ∩ follows, non-mutual DIDs follows − followers, fans followers − follows; no category repeats a DID; each category count equals the list length and the size of its DID set; the totals are the raw list lengths, duplicates included |
| AnalyzeRelationships.CategoriesPartition | analyze_relationships.py:29-31 | the three categories are pairwise disjoint and together cover every DID among the followers and the follows |
| AnalyzeRelationships.CategoryCounts | analyze_relationships.py:43-47 | mutual + non-mutual counts the distinct follows and mutual + fans the distinct followers, each at most its total and equal to it when the list has no repeated DID |
| AnalyzeRelationships.ResolvedFromLast | analyze_relationships.py:25-26 | each DID resolved through a lookup map gets the last record in the list with that DID |
| AnalyzeRelationships.RecordsFromLookups | analyze_relationships.py:25-41 | mutual and non-mutual entries are built from the last follows record with their DID, fans from the last followers record; mutual entries and fans get the follower projection, non-mutual entries the follow projection |
| AnalyzeRelationships.AnalysisIgnoresOrder | analyze_relationships.py:17-48 | two analyses of the same records, in any order, have equal counts and equal category DID sets |
| AnalyzeRelationships.FourAccountExample | analyze_relationships.py:21-47 | followers {A, B, C} and follows {B, C, D} give mutual {B, C}, non-mutual {D}, fans {A} and counts 3, 3, 2, 1, 1 |
| AnalyzeRelationships.GetRelationshipAnalysis | analyze_relationships.py:12-49 | the method fetches followers, then follows, then analyzes; it succeeds exactly when both fetches succeed, and a failed fetch propagates; the followers requests are those of the followers loop, and no follows request is sent when the followers fetch fails |
| FindNonMutuals.EnumerateSet | find_non_mutuals.py:40-46 | iterating a Python set visits every member exactly once, in an unspecified order |
| FindNonMutuals.BlueskyMutuals.constructor | find_non_mutuals.py:4-6 | both DID sets start empty |
| FindNonMutuals.BlueskyMutuals.LoadData | find_non_mutuals.py:8-24 | the DID sets are the DIDs of the two files, and the data maps are their last-wins lookups; the object's invariant holds afterwards |
| FindNonMutuals.BlueskyMutuals.FindNonMutuals | find_non_mutuals.py:26-51 | the non-mutual followers have exactly the DIDs followers − follows, and the non-mutual follows exactly follows − followers; the lists share no DID and repeat none; their lengths are the sizes of the differences; each record is the stored one from its side's map; no field changes |
| UnfollowManager.LastSegment | unfollow_manager.py:34 | `uri.split("/")[-1]`: a segment without '/' no longer than the uri; the suffix property is stated by `LastSegmentIsSuffix` |
| UnfollowManager.LastSegmentIsSuffix | unfollow_manager.py:34 | the rkey contains no '/', the uri ends with it, and it is preceded by a '/' or is the whole uri |
| UnfollowManager.LastSegmentOfJoin | unfollow_manager.py:34 | splitting a uri made of a prefix ending in '/' and a segment without '/' recovers the segment |
| UnfollowManager.FirstMatch | unfollow_manager.py:30-31 | finds the index of the first follow with the target DID on a page, or shows that none has it |
| UnfollowManager.RecordOf | unfollow_manager.py:32-37 | the record built from the matching follow copies its DID, handle and uri and takes the uri's last segment as rkey; a follow without uri raises |
| UnfollowManager.PageStep | unfollow_manager.py:27-41 | one page of the scan: the scan goes on only after a successful page with a truthy cursor that holds no match; a found record has the target's DID and the uri's last segment as rkey; an HTTP error carries the page's raising status |
| UnfollowManager.Scan | unfollow_manager.py:17-43 | the specification of the edge lookup over the server's replies: a found record has the target's DID and the uri's last segment as rkey, an HTTP error carries a raising status, and it never reports a login failure; first match and not-found are stated by `ScanFindsFirst` and `ScanNotFound` |
| UnfollowManager.ScanStopsAtFirstEnd | unfollow_manager.py:17-41 | the scan requests another page after every page but the last one read, and stops after the first page that raises, matches or has a falsy cursor |
| UnfollowManager.ReadPage | unfollow_manager.py:27-41 | one page either raises, returns the record of its first match, requests the next page when the cursor is truthy, or ends the scan with no record |
| UnfollowManager.GetFollowRecord | unfollow_manager.py:12-43 | a failed login raises before any request; otherwise the result is the scan's outcome, and the requests sent are exactly the pages scanned, in cursor order |
| UnfollowManager.ScanFindsFirst | unfollow_manager.py:17-37 | a found record comes from the first matching follow on the last page requested, and no earlier page holds the target, so no page is requested after the match |
| UnfollowManager.FoundRecordFields | unfollow_manager.py:31-37 | a found record has the target's DID, the matching follow's handle and uri, and the uri's last segment as rkey |
| UnfollowManager.ScanNotFound | unfollow_manager.py:39-43 | no record is returned exactly when the scan ends on a successful page with a falsy cursor and no page read holds the target |
| UnfollowManager.DeleteIssued | unfollow_manager.py:48-63 | the delete `unfollow_user` sends: only after a login, in the follow collection of the actor's repository, with an rkey without '/'; none when no edge is found |
| UnfollowManager.Unfollows | unfollow_manager.py:47-71 | `unfollow_user` returns True only with a login, a found edge and an accepted delete |
| UnfollowManager.UnfollowUser | unfollow_manager.py:45-71 | the single unfollow sends the specified delete and returns the specified outcome; every failure yields false and nothing escapes |
| UnfollowManager.UnfollowOutcome | unfollow_manager.py:47-71 | case by case: a failed login, a failed lookup or a missing edge sends no delete and returns false; a found edge is the target's, the delete names the follow collection, the actor's repository and the edge uri's last segment, and the unfollow succeeds exactly when that delete is accepted |
| UnfollowManager.TallyStep | unfollow_manager.py:95-100 | one more target adds one success, or one failure with its handle appended |
| UnfollowManager.TallyAddsUp | unfollow_manager.py:95-100 | successes plus listed failures equal the number of targets |
| UnfollowManager.FailuresAreFailedTargets | unfollow_manager.py:98-100 | a handle is listed as failed exactly when some target with that handle failed |
| UnfollowManager.PartialFailureExample | unfollow_manager.py:95-100 | three targets whose middle one has no follow edge give two successes and list the middle handle as the only failure |
| UnfollowManager.UnfollowEach | unfollow_manager.py:95-100 | the loop unfollows every target once, in order; successes are counted and failing handles are listed in iteration order; failed equals the number of failures, and successful + failed equals the number of targets |
| UnfollowManager.UnfollowNonMutuals | unfollow_manager.py:73-102 | a failed analysis propagates with no unfollow attempted; total_attempted is the number of non-mutual follows in both modes; a dry run reports 0, 0 and no failures and unfollows nobody; a real run reports the tallies of unfollowing each non-mutual follow in turn |

## Left out

- HTTP requests and responses are inputs. A response is a status plus a page of records and an optional cursor. `raise_for_status` is taken as raising on statuses 400 to 599.
- The delete request is not sent anywhere. Its outcome is a status per target, and the request body is returned so that its fields can be stated.
- A JSON body that fails to decode, lacks the `follows`/`followers` key, or holds `null` fields is not modelled. Records always have a DID and a handle. `displayName`, `description` and `uri` may be missing.
- bluesky_auth.py is not part of this model. A login is an input: the DID it yields, or a failure. Every `login()` call within one operation gets the same outcome. The source calls `get_auth_headers`, which bluesky_auth.py does not define (it defines `get_auth_header`). The model treats the header as obtained.
- A server that keeps returning cursors makes the source loop forever. The model's server has finitely many replies, and running out of them is the explicit outcome `ServerExhausted`.
- Python set iteration order is unspecified. The analysis enumerates each DID set in order of first appearance in its input list, and no proved property depends on that order. `FindNonMutuals.EnumerateSet` picks members nondeterministically.
- `print` output, `print_analysis`, `save_non_mutuals`, every `main`, and example_usage.py are left out. So is reading the JSON files in `load_data`: `LoadData` takes the decoded lists.
- FindNonMutuals.BlueskyMutuals.constructor: sets `followersData` and `followsData` to empty maps. The source `__init__` leaves them undefined until `load_data` runs.
- UnfollowManager.LastSegment: its own contract only bounds the length and excludes '/'. The suffix property is stated by `LastSegmentIsSuffix` and `LastSegmentOfJoin`.
- Pagination.Fetched: its own contract only bounds the page count. The stopping rule is stated by `FetchStopsAtFirstEnd` and `DrainOutcome`.
- Any exception inside `unfollow_user`, not only an HTTP error status or a missing edge, yields False in the source. The model's failures are a failed login, a failed scan, a missing uri, no edge found, and an error status on the delete.
