/** The client's requests: promises that are set once, and the pool of requests waiting for a reply. */
module ClientRequests {
  import opened FlightVarTypes
  import opened ClientModel
  import opened ClientRuns

  /** The promises of all requests. Setting one twice is an error, so it is a precondition that it
      was not set. */
  class Promises {
    var results: map<ReqId, Outcome>

    constructor ()
      ensures results == map[]
    {
      results := map[];
    }

    method Set(r: ReqId, outcome: Outcome)
      requires r !in results
      modifies this
      ensures results == old(results)[r := outcome]
    {
      results := results[r := outcome];
    }
  }

  ghost function IdsOf<T>(list: seq<T>, id: T -> ReqId): set<ReqId> {
    set i | 0 <= i < |list| :: id(list[i])
  }

  /** The ids of the requests listed under some of the keys. */
  ghost function IdsIn<K, T>(lists: map<K, seq<T>>, keys: set<K>, id: T -> ReqId): set<ReqId> {
    set k, i | k in keys && k in lists && 0 <= i < |lists[k]| :: id(lists[k][i])
  }

  ghost predicate Distinct<T>(list: seq<T>, id: T -> ReqId) {
    forall i, j :: 0 <= i < j < |list| ==> id(list[i]) != id(list[j])
  }

  ghost predicate Unique<K(!new), T>(lists: map<K, seq<T>>, id: T -> ReqId) {
    forall k, l, i, j ::
      k in lists && l in lists && 0 <= i < |lists[k]| && 0 <= j < |lists[l]| && id(lists[k][i]) == id(lists[l][j])
      ==> k == l && i == j
  }

  ghost function Failed(results: map<ReqId, Outcome>, ids: set<ReqId>): (failed: map<ReqId, Outcome>)
    ensures failed.Keys == results.Keys + ids
  {
    results + map r | r in ids :: CommunicationError
  }

  lemma FailedTwice(results: map<ReqId, Outcome>, a: set<ReqId>, b: set<ReqId>)
    ensures Failed(Failed(results, a), b) == Failed(results, a + b)
  {
  }

  lemma OneMoreList<K(!new), T>(lists: map<K, seq<T>>, todo: set<K>, k: K, id: T -> ReqId)
    requires todo <= lists.Keys && k in todo && Unique(lists, id)
    ensures Distinct(lists[k], id)
    ensures IdsOf(lists[k], id) !! IdsIn(lists, lists.Keys - todo, id)
    ensures IdsIn(lists, lists.Keys - todo, id) + IdsOf(lists[k], id) == IdsIn(lists, lists.Keys - (todo - {k}), id)
    ensures IdsOf(lists[k], id) <= IdsIn(lists, lists.Keys, id)
  {
  }

  lemma OneMoreId<T>(list: seq<T>, id: T -> ReqId, i: nat)
    requires i < |list| && Distinct(list, id)
    ensures id(list[i]) in IdsOf(list, id) && id(list[i]) !in IdsOf(list[..i], id)
    ensures IdsOf(list[..i + 1], id) == IdsOf(list[..i], id) + {id(list[i])}
  {
  }

  lemma OneFailed(results: map<ReqId, Outcome>, r: ReqId)
    ensures Failed(results, {r}) == results[r := CommunicationError]
  {
  }

  lemma NoIdsFail<T>(results: map<ReqId, Outcome>, list: seq<T>, id: T -> ReqId)
    ensures Failed(results, IdsOf(list[..0], id)) == results
  {
  }

  method FailList<T>(list: seq<T>, id: T -> ReqId, promises: Promises)
    requires Distinct(list, id) && IdsOf(list, id) !! promises.results.Keys
    modifies promises
    ensures promises.results == Failed(old(promises.results), IdsOf(list, id))
  {
    hide IdsOf, Distinct, Failed;
    NoIdsFail(old(promises.results), list, id);
    var i := 0;
    while i < |list|
      invariant 0 <= i <= |list|
      invariant promises.results == Failed(old(promises.results), IdsOf(list[..i], id))
    {
      OneMoreId(list, id, i);
      FailedTwice(old(promises.results), IdsOf(list[..i], id), {id(list[i])});
      ghost var was := promises.results;
      promises.Set(id(list[i]), CommunicationError);
      OneFailed(was, id(list[i]));
      i := i + 1;
    }
    assert list[..|list|] == list;
  }

  /** Every request of every list fails, in whatever order the table yields its keys. */
  method FailAll<K(==, !new), T>(lists: map<K, seq<T>>, id: T -> ReqId, promises: Promises)
    requires Unique(lists, id) && IdsIn(lists, lists.Keys, id) !! promises.results.Keys
    modifies promises
    ensures promises.results == Failed(old(promises.results), IdsIn(lists, lists.Keys, id))
  {
    var todo := lists.Keys;
    ghost var was := promises.results;
    assert IdsIn(lists, lists.Keys - todo, id) == {};
    hide Failed, IdsOf, IdsIn, Unique, Distinct;
    while todo != {}
      invariant todo <= lists.Keys
      invariant promises.results == Failed(was, IdsIn(lists, lists.Keys - todo, id))
      decreases |todo|
    {
      var k :| k in todo;
      OneMoreList(lists, todo, k, id);
      FailedTwice(was, IdsIn(lists, lists.Keys - todo, id), IdsOf(lists[k], id));
      FailList(lists[k], id, promises);
      todo := todo - {k};
    }
    assert lists.Keys - {} == lists.Keys;
  }

  function OfSub(req: SubRequest): ReqId { req.id }

  function OfUnsub(req: UnsubRequest): ReqId { req.id }

  lemma PoolIds(subs: map<VarId, seq<SubRequest>>, unsubs: map<SubsId, seq<UnsubRequest>>)
    requires UniqueSubs(subs) && UniqueUnsubs(unsubs)
    ensures Unique(subs, OfSub) && IdsIn(subs, subs.Keys, OfSub) == SubIds(subs)
    ensures Unique(unsubs, OfUnsub) && IdsIn(unsubs, unsubs.Keys, OfUnsub) == UnsubIds(unsubs)
  {
  }

  class RequestPool {
    var subs: map<VarId, seq<SubRequest>>
    var unsubs: map<SubsId, seq<UnsubRequest>>

    constructor ()
      ensures subs == map[] && unsubs == map[]
    {
      subs, unsubs := map[], map[];
    }

    method InsertSub(req: SubRequest)
      modifies this`subs
      ensures subs == old(subs)[req.v := PendingSubs(old(subs), req.v) + [req]]
    {
      if req.v !in subs {
        subs := subs[req.v := []];
      }
      subs := subs[req.v := subs[req.v] + [req]];
    }

    /** The list is moved out, which leaves an empty one in its place. */
    method PopSubs(v: VarId) returns (reqs: seq<SubRequest>)
      modifies this`subs
      ensures reqs == PendingSubs(old(subs), v) && subs == old(subs)[v := []]
    {
      reqs := if v in subs then subs[v] else [];
      subs := subs[v := []];
    }

    method InsertUnsub(req: UnsubRequest)
      modifies this`unsubs
      ensures unsubs == old(unsubs)[req.master := PendingUnsubs(old(unsubs), req.master) + [req]]
    {
      if req.master !in unsubs {
        unsubs := unsubs[req.master := []];
      }
      unsubs := unsubs[req.master := unsubs[req.master] + [req]];
    }

    method PopUnsubs(m: SubsId) returns (reqs: seq<UnsubRequest>)
      modifies this`unsubs
      ensures reqs == PendingUnsubs(old(unsubs), m) && unsubs == old(unsubs)[m := []]
    {
      reqs := if m in unsubs then unsubs[m] else [];
      unsubs := unsubs[m := []];
    }

    method PropagateError(promises: Promises)
      requires UniqueSubs(subs) && UniqueUnsubs(unsubs)
      requires SubIds(subs) !! UnsubIds(unsubs) !! promises.results.Keys
      modifies this, promises
      ensures subs == map[] && unsubs == map[]
      ensures promises.results == Failed(old(promises.results), SubIds(old(subs)) + UnsubIds(old(unsubs)))
    {
      PoolIds(subs, unsubs);
      FailedTwice(promises.results, SubIds(subs), UnsubIds(unsubs));
      hide *;
      FailAll(subs, OfSub, promises);
      FailAll(unsubs, OfUnsub, promises);
      subs, unsubs := map[], map[];
    }
  }
}
