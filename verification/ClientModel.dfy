/** What the handlers of the client's connection manager do, as functions on the client's state.
    ConnectionManagement.dfy proves the handlers themselves against these functions. */
module ClientModel {
  import opened FlightVarTypes
  import opened OutputBuffers

  /** The identity of a callback given by the user of the client. */
  type Handler = nat

  type ReqId = nat

  datatype Virtual = Virtual(id: SubsId, handler: Handler)
  datatype Entry = Entry(master: SubsId, virtuals: seq<Virtual>)

  /** The subscription database: a master subscription and its virtual ones for each variable. */
  type Db = map<VarId, Entry>

  datatype SubRequest = SubRequest(id: ReqId, v: VarId, handler: Handler)
  datatype UnsubRequest = UnsubRequest(id: ReqId, virtualId: SubsId, master: SubsId)

  datatype Outcome =
    | Granted(id: SubsId)
    | Finished
    | NoSuchVariableError(v: VarId)
    | NoSuchSubscriptionError(id: SubsId)
    | CommunicationError

  datatype Call = Call(handler: Handler, v: VarId, value: Value)

  /** `promises` holds the outcome of every completed request and `dropped` the requests taken from
      the pool by a reply that raised an error. `crashed` records a promise being set twice, and
      `errors` counts the reports made without disconnecting. */
  datatype Client = Client(
    db: Db,
    subs: map<VarId, seq<SubRequest>>,
    unsubs: map<SubsId, seq<UnsubRequest>>,
    promises: map<ReqId, Outcome>,
    dropped: set<ReqId>,
    crashed: bool,
    connected: bool,
    nextVirtual: SubsId,
    nextReq: ReqId,
    calls: seq<Call>,
    errors: nat)

  const START := Client(map[], map[], map[], map[], {}, false, true, 1, 0, [], 0)

  // ----- the database

  /** The i-th virtual subscription of a variable has the given id. */
  predicate Listed(db: Db, v: VarId, i: int, id: SubsId) {
    v in db && 0 <= i < |db[v].virtuals| && db[v].virtuals[i].id == id
  }

  ghost function OwnerOf(db: Db, id: SubsId): (owner: Option<VarId>)
    ensures owner.Some? ==> exists i :: Listed(db, owner.value, i, id)
    ensures owner.None? ==> forall v, i :: !Listed(db, v, i, id)
  {
    if exists v, i :: Listed(db, v, i, id) then
      var v, i :| Listed(db, v, i, id);
      Some(v)
    else
      None
  }

  ghost predicate MasterDefined(db: Db, m: SubsId) {
    exists v :: v in db && db[v].master == m
  }

  /** The list without the elements of the given id, in the same order. */
  function Without(virtuals: seq<Virtual>, id: SubsId): (rest: seq<Virtual>)
  {
    if virtuals == [] then []
    else if virtuals[0].id == id then Without(virtuals[1..], id)
    else [virtuals[0]] + Without(virtuals[1..], id)
  }

  function AddVirtual(db: Db, v: VarId, virt: Virtual): Db
    requires v in db
  {
    db[v := Entry(db[v].master, db[v].virtuals + [virt])]
  }

  function RemoveVirtual(db: Db, v: VarId, id: SubsId): Db
    requires v in db
  {
    var rest := Without(db[v].virtuals, id);
    if rest == [] then db - {v} else db[v := Entry(db[v].master, rest)]
  }

  // ----- the request pool and the promises

  function PendingSubs(pool: map<VarId, seq<SubRequest>>, v: VarId): seq<SubRequest> {
    if v in pool then pool[v] else []
  }

  function PendingUnsubs(pool: map<SubsId, seq<UnsubRequest>>, m: SubsId): seq<UnsubRequest> {
    if m in pool then pool[m] else []
  }

  function SubIds(pool: map<VarId, seq<SubRequest>>): set<ReqId> {
    set v, i | v in pool && 0 <= i < |pool[v]| :: pool[v][i].id
  }

  function UnsubIds(pool: map<SubsId, seq<UnsubRequest>>): set<ReqId> {
    set m, i | m in pool && 0 <= i < |pool[m]| :: pool[m][i].id
  }

  function IdsOfSubs(reqs: seq<SubRequest>): set<ReqId> {
    set i | 0 <= i < |reqs| :: reqs[i].id
  }

  function IdsOfUnsubs(reqs: seq<UnsubRequest>): set<ReqId> {
    set i | 0 <= i < |reqs| :: reqs[i].id
  }

  /** Setting a promise that is already set raises an error nobody handles. */
  function Complete(c: Client, r: ReqId, outcome: Outcome): Client {
    if r in c.promises then c.(crashed := true) else c.(promises := c.promises[r := outcome])
  }

  function CompleteSubs(c: Client, reqs: seq<SubRequest>, outcome: Outcome): Client
    decreases |reqs|
  {
    if reqs == [] then c
    else CompleteSubs(Complete(c, reqs[0].id, outcome), reqs[1..], outcome)
  }

  function CompleteUnsubs(c: Client, reqs: seq<UnsubRequest>, outcome: Outcome): Client
    decreases |reqs|
  {
    if reqs == [] then c
    else CompleteUnsubs(Complete(c, reqs[0].id, outcome), reqs[1..], outcome)
  }

  /** Every pooled request fails with a communication error and the pool is emptied. */
  function PropagateError(c: Client): Client {
    var ids := SubIds(c.subs) + UnsubIds(c.unsubs);
    c.(crashed := c.crashed || ids * c.promises.Keys != {},
       promises := c.promises + map r | r in ids - c.promises.Keys :: CommunicationError,
       subs := map[],
       unsubs := map[])
  }

  function OnError(c: Client, disconnects: bool): Client {
    var reported := c.(errors := c.errors + 1);
    if disconnects then PropagateError(reported).(connected := false) else reported
  }

  // ----- requests made through the API

  function Grant(c: Client, v: VarId, r: ReqId, handler: Handler): Client
    requires v in c.db
  {
    Complete(c.(db := AddVirtual(c.db, v, Virtual(c.nextVirtual, handler)),
                nextVirtual := c.nextVirtual + 1),
             r, Granted(c.nextVirtual))
  }

  /** A request too long for the output buffer raises an error after it was pooled, and is not sent. */
  function OnSubscriptionRequested(c: Client, v: VarId, handler: Handler): (Client, seq<Message>) {
    var r := c.nextReq;
    var taken := c.(nextReq := r + 1);
    if v in c.db then
      (Grant(taken, v, r, handler), [])
    else
      (taken.(subs := c.subs[v := PendingSubs(c.subs, v) + [SubRequest(r, v, handler)]]),
       Written([SubscriptionRequest(v)]))
  }

  ghost function OnUnsubscriptionRequested(c: Client, virtualId: SubsId): (Client, seq<Message>) {
    var r := c.nextReq;
    var taken := c.(nextReq := r + 1);
    match OwnerOf(c.db, virtualId)
    case None =>
      (Complete(taken, r, NoSuchSubscriptionError(virtualId)), [])
    case Some(v) =>
      var m := c.db[v].master;
      var removed := taken.(db := RemoveVirtual(c.db, v, virtualId));
      if v !in removed.db then
        (removed.(unsubs := c.unsubs[m := PendingUnsubs(c.unsubs, m) + [UnsubRequest(r, virtualId, m)]]),
         [UnsubscriptionRequest(m)])
      else
        (Complete(removed, r, Finished), [])
  }

  ghost function OnVariableUpdateRequested(c: Client, virtualId: SubsId, value: Value): (Client, seq<Message>) {
    var r := c.nextReq;
    var taken := c.(nextReq := r + 1);
    match OwnerOf(c.db, virtualId)
    case None => (Complete(taken, r, NoSuchSubscriptionError(virtualId)), [])
    case Some(v) => (Complete(taken, r, Finished), [VarUpdate(c.db[v].master, value)])
  }

  // ----- messages from the server

  /** The result of a reply handler: the new state and whether it raised an error. */
  datatype Handled = Handled(client: Client, raised: bool)

  /** Each waiting request becomes a virtual subscription; the first one creates the entry. */
  ghost function GrantAll(c: Client, v: VarId, m: SubsId, reqs: seq<SubRequest>): Handled
    decreases |reqs|
  {
    if reqs == [] then Handled(c, false)
    else if v in c.db then
      GrantAll(Grant(c, v, reqs[0].id, reqs[0].handler), v, m, reqs[1..])
    else if MasterDefined(c.db, m) then
      Handled(c.(dropped := c.dropped + IdsOfSubs(reqs)), true)
    else
      GrantAll(Grant(c.(db := c.db[v := Entry(m, [])]), v, reqs[0].id, reqs[0].handler), v, m, reqs[1..])
  }

  ghost function OnSubscriptionReply(c: Client, status: Status, v: VarId, m: SubsId): Handled {
    var reqs := PendingSubs(c.subs, v);
    var popped := c.(subs := c.subs[v := []]);
    if reqs == [] then Handled(popped, true)
    else if status == NoSuchVar then Handled(CompleteSubs(popped, reqs, NoSuchVariableError(v)), false)
    else if status == Subscribed then GrantAll(popped, v, m, reqs)
    else Handled(popped.(dropped := c.dropped + IdsOfSubs(reqs)), true)
  }

  function OnUnsubscriptionReply(c: Client, status: Status, m: SubsId): Handled {
    var reqs := PendingUnsubs(c.unsubs, m);
    var popped := c.(unsubs := c.unsubs[m := []]);
    if reqs == [] then Handled(popped, true)
    else if status == NoSuchSubscription then
      Handled(CompleteUnsubs(popped, reqs, NoSuchSubscriptionError(m)), false)
    else if status == Unsubscribed then Handled(CompleteUnsubs(popped, reqs, Finished), false)
    else Handled(popped.(dropped := c.dropped + IdsOfUnsubs(reqs)), true)
  }

  function CallsFor(v: VarId, virtuals: seq<Virtual>, value: Value): seq<Call> {
    seq(|virtuals|, i requires 0 <= i < |virtuals| => Call(virtuals[i].handler, v, value))
  }

  ghost function OnVariableUpdate(c: Client, m: SubsId, value: Value): Client {
    if v :| v in c.db && c.db[v].master == m then
      c.(calls := c.calls + CallsFor(v, c.db[v].virtuals, value))
    else
      OnError(c, false)
  }
}
