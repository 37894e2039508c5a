/** Identity records as the social-network API returns them, and the
    DID-keyed views of a list of them that every component builds. */
module Records {
  import opened Wrappers

  /** A decentralized identifier: the join key of every set operation. */
  type Did = string

  /** One profile object of a getFollows/getFollowers page. Keys that the
      server may leave out are optional; `uri` is only read by the unfollow
      manager's edge lookup. */
  datatype Profile = Profile(
    did: Did,
    handle: string,
    displayName: Option<string>,
    description: Option<string>,
    uri: Option<string>)

  predicate NoDup<T(==)>(xs: seq<T>) {
    forall i, j :: 0 <= i < j < |xs| ==> xs[i] != xs[j]
  }

  function Elements<T>(xs: seq<T>): set<T> {
    set x | x in xs
  }

  /** `{f['did'] for f in records}` */
  function Dids(rs: seq<Profile>): set<Did> {
    set r | r in rs :: r.did
  }

  /** No DID occurs twice in `rs`. */
  predicate DistinctDids(rs: seq<Profile>) {
    forall i, j :: 0 <= i < j < |rs| ==> rs[i].did != rs[j].did
  }

  /** Index of the last record of `rs` carrying DID `d`, or -1 when there is none. */
  function LastIndex(rs: seq<Profile>, d: Did): (k: int)
    ensures -1 <= k < |rs|
    ensures k >= 0 ==> rs[k].did == d
    ensures forall j :: k < j < |rs| ==> rs[j].did != d
  {
    if rs == [] then -1
    else if rs[|rs| - 1].did == d then |rs| - 1
    else LastIndex(rs[..|rs| - 1], d)
  }

  /** `{f['did']: f for f in records}`: the records are inserted left to right,
      so a later record with the same DID overwrites an earlier one. */
  function Lookup(rs: seq<Profile>): (m: map<Did, Profile>)
    ensures m.Keys == Dids(rs)
    ensures forall d :: d in m ==> m[d].did == d
    ensures forall d :: d in m ==> 0 <= LastIndex(rs, d) && m[d] == rs[LastIndex(rs, d)]
  {
    if rs == [] then map[]
    else
      var init := rs[..|rs| - 1];
      assert rs == init + [rs[|rs| - 1]];
      Lookup(init)[rs[|rs| - 1].did := rs[|rs| - 1]]
  }

  /** The lookup keeps exactly the DIDs that occur, each mapped to the last
      record carrying it. */
  lemma {:induction false} LookupKeepsLast(rs: seq<Profile>, d: Did)
    ensures d in Lookup(rs) <==> LastIndex(rs, d) >= 0
    ensures d in Lookup(rs) ==> Lookup(rs)[d] == rs[LastIndex(rs, d)]
  {
    if rs != [] {
      LookupKeepsLast(rs[..|rs| - 1], d);
    }
  }

  /** The DIDs of `rs` without repetition, in order of first appearance. */
  function UniqueDids(rs: seq<Profile>): (ds: seq<Did>)
    ensures NoDup(ds)
    ensures Elements(ds) == Dids(rs)
  {
    if rs == [] then []
    else
      var init := rs[..|rs| - 1];
      var last := rs[|rs| - 1].did;
      assert rs == init + [rs[|rs| - 1]];
      assert Dids(rs) == Dids(init) + {last};
      var prefix := UniqueDids(init);
      if last in prefix then prefix
      else
        assert Elements(prefix + [last]) == Elements(prefix) + {last};
        prefix + [last]
  }

  /** The elements of `ds` that are in `keep`, in the order of `ds`. */
  function Select(ds: seq<Did>, keep: set<Did>): (r: seq<Did>)
    ensures Elements(r) == Elements(ds) * keep
    ensures NoDup(ds) ==> NoDup(r)
  {
    if ds == [] then []
    else
      assert ds == [ds[0]] + ds[1..];
      assert Elements(ds) == {ds[0]} + Elements(ds[1..]);
      var rest := Select(ds[1..], keep);
      if ds[0] in keep then
        assert NoDup(ds) ==> ds[0] !in ds[1..];
        assert Elements([ds[0]] + rest) == {ds[0]} + Elements(rest);
        [ds[0]] + rest
      else rest
  }

  /** A list without repetition has as many elements as its set. */
  /** `[lookup[did] for did in ds]`: the records stored under the listed
      DIDs, in order. */
  function Resolve(ds: seq<Did>, lookup: map<Did, Profile>): (rs: seq<Profile>)
    requires forall d :: d in ds ==> d in lookup
    ensures |rs| == |ds| && forall i :: 0 <= i < |ds| ==> rs[i] == lookup[ds[i]]
  {
    seq(|ds|, i requires 0 <= i < |ds| => lookup[ds[i]])
  }

  /** When every record is stored under its own DID, resolving gives records
      with exactly the listed DIDs, and distinct DIDs give distinct records. */
  lemma ResolveKeepsDids(ds: seq<Did>, lookup: map<Did, Profile>)
    requires forall d :: d in ds ==> d in lookup
    requires forall d :: d in lookup ==> lookup[d].did == d
    ensures forall i :: 0 <= i < |ds| ==> Resolve(ds, lookup)[i].did == ds[i]
    ensures Dids(Resolve(ds, lookup)) == Elements(ds)
    ensures NoDup(ds) ==> DistinctDids(Resolve(ds, lookup))
  {
    var rs := Resolve(ds, lookup);
    assert forall r :: r in rs ==> r.did in Elements(ds);
    forall d | d in Elements(ds) ensures d in Dids(rs) {
      var i :| 0 <= i < |ds| && ds[i] == d;
      assert rs[i] in rs;
    }
  }

  lemma {:induction false} NoDupCard<T>(xs: seq<T>)
    requires NoDup(xs)
    ensures |Elements(xs)| == |xs|
  {
    if xs != [] {
      var init := xs[..|xs| - 1];
      NoDupCard(init);
      assert Elements(xs) == Elements(init) + {xs[|xs| - 1]};
      assert xs[|xs| - 1] !in Elements(init);
    }
  }

  /** When no DID repeats, the DID set is as large as the list. */
  lemma {:induction false} DistinctDidsCard(rs: seq<Profile>)
    requires DistinctDids(rs)
    ensures |Dids(rs)| == |rs|
  {
    if rs != [] {
      var init := rs[..|rs| - 1];
      DistinctDidsCard(init);
      assert rs == init + [rs[|rs| - 1]];
      assert Dids(rs) == Dids(init) + {rs[|rs| - 1].did};
      assert rs[|rs| - 1].did !in Dids(init);
    }
  }

  /** A list has at most as many distinct DIDs as records. */
  lemma {:induction false} DidsCardBound(rs: seq<Profile>)
    ensures |Dids(rs)| <= |rs|
  {
    if rs != [] {
      var init := rs[..|rs| - 1];
      DidsCardBound(init);
      assert rs == init + [rs[|rs| - 1]];
      assert Dids(rs) == Dids(init) + {rs[|rs| - 1].did};
    }
  }
}
