/** The client's subscription database: three tables over shared entries that are changed in place. Each
    operation is proved against the one map from variables to entries that the tables stand for. */
module SubscriptionDatabase {
  import opened FlightVarTypes
  import opened ClientModel
  import opened ClientRuns

  datatype DbError =
    | VariableAlreadyExists(v: VarId)
    | MasterAlreadyExists(m: SubsId)
    | NoSuchVariable(v: VarId)
    | NoSuchMaster(m: SubsId)
    | NoSuchVirtual(id: SubsId)

  datatype Result<+T> = Ok(value: T) | Err(error: DbError)

  /** The counter behind every new subscription id. */
  class IdSource {
    var next: SubsId

    constructor ()
      ensures next == 1
    {
      next := 1;
    }

    method Make() returns (id: SubsId)
      modifies this
      ensures id == old(next) && next == old(next) + 1
    {
      id := next;
      next := next + 1;
    }
  }

  class DbEntry {
    const v: VarId
    const master: SubsId
    var virtuals: seq<Virtual>

    constructor (v: VarId, master: SubsId)
      ensures this.v == v && this.master == master && virtuals == []
    {
      this.v, this.master, virtuals := v, master, [];
    }

    method PushBack(virt: Virtual)
      modifies this
      ensures virtuals == old(virtuals) + [virt]
    {
      virtuals := virtuals + [virt];
    }

    method RemoveIf(id: SubsId)
      modifies this
      ensures virtuals == Without(old(virtuals), id)
    {
      var i, kept := 0, [];
      while i < |virtuals|
        invariant 0 <= i <= |virtuals| && virtuals == old(virtuals)
        invariant Without(old(virtuals), id) == kept + Without(virtuals[i..], id)
      {
        if virtuals[i].id != id {
          kept := kept + [virtuals[i]];
        }
        i := i + 1;
      }
      virtuals := kept;
    }
  }

  /** The database and the counter after an operation, and its result. */
  datatype After = After(db: Db, next: SubsId, r: Result<SubsId>)

  ghost function Adding(db: Db, next: SubsId, v: VarId, handler: Handler): After {
    if v in db then After(AddVirtual(db, v, Virtual(next, handler)), next + 1, Ok(next))
    else After(db, next, Err(NoSuchVariable(v)))
  }

  ghost function Creating(db: Db, next: SubsId, v: VarId, master: SubsId, handler: Handler): After {
    if v in db then After(db, next, Err(VariableAlreadyExists(v)))
    else if MasterDefined(db, master) then After(db, next, Err(MasterAlreadyExists(master)))
    else Adding(db[v := Entry(master, [])], next, v, handler)
  }

  /** The contents of the three tables. */
  datatype Tables = Tables(byVar: map<VarId, DbEntry>, byMaster: map<SubsId, DbEntry>, byVirtual: map<SubsId, DbEntry>)

  /** The three tables lead to the same entries, whose contents are those of db. */
  ghost predicate Linked(t: Tables, db: Db) {
    && t.byVar.Keys == db.Keys
    && (forall v :: v in t.byVar ==>
          && t.byVar[v].v == v && t.byVar[v].master == db[v].master
          && t.byVar[v].master in t.byMaster && t.byMaster[t.byVar[v].master] == t.byVar[v])
    && (forall m :: m in t.byMaster ==>
          t.byMaster[m].v in t.byVar && t.byVar[t.byMaster[m].v] == t.byMaster[m] && t.byMaster[m].master == m)
    && (forall v, i, id :: Listed(db, v, i, id) ==> id in t.byVirtual && t.byVirtual[id] == t.byVar[v])
    && (forall id :: id in t.byVirtual ==>
          && t.byVirtual[id].v in t.byVar && t.byVar[t.byVirtual[id].v] == t.byVirtual[id]
          && exists i :: Listed(db, t.byVirtual[id].v, i, id))
  }

  /** What holds even while an entry is being emptied. */
  ghost predicate Coherent(t: Tables, db: Db, next: SubsId) {
    Linked(t, db) && IdsOk(db, next)
  }

  ghost predicate Sound(t: Tables, db: Db, next: SubsId) {
    Linked(t, db) && DbOk(db, next)
  }

  lemma AddLinks(t: Tables, db: Db, v: VarId, virt: Virtual)
    requires Linked(t, db) && v in db && virt.id !in t.byVirtual
    ensures Linked(t.(byVirtual := t.byVirtual[virt.id := t.byVar[v]]), AddVirtual(db, v, virt))
  {
    var d := AddVirtual(db, v, virt);
    assert Listed(d, v, |db[v].virtuals|, virt.id);
    forall w, i, id | Listed(d, w, i, id) ensures (id == virt.id && w == v) || Listed(db, w, i, id) {
    }
    forall id | id in t.byVirtual ensures exists i :: Listed(d, t.byVirtual[id].v, i, id) {
      var i :| Listed(db, t.byVirtual[id].v, i, id);
      assert Listed(d, t.byVirtual[id].v, i, id);
    }
  }

  ghost predicate FilledBut(db: Db, v: VarId) {
    forall w :: w in db && w != v ==> db[w].virtuals != []
  }

  lemma AddSound(t: Tables, db: Db, v: VarId, next: SubsId, handler: Handler)
    requires Coherent(t, db, next) && FilledBut(db, v)
    ensures if v in db then
              Sound(t.(byVirtual := t.byVirtual[next := t.byVar[v]]), AddVirtual(db, v, Virtual(next, handler)),
                    next + 1)
            else Sound(t, db, next)
    ensures forall w :: w in t.byVar ==> t.byVar[w].v == w
  {
    if v in db {
      assert next !in t.byVirtual;
      AddLinks(t, db, v, Virtual(next, handler));
      AddFills(db, v, next, handler);
      hide DbOk, IdsOk, Linked;
    }
  }

  lemma AddFills(db: Db, v: VarId, next: SubsId, handler: Handler)
    requires IdsOk(db, next) && FilledBut(db, v) && v in db
    ensures DbOk(AddVirtual(db, v, Virtual(next, handler)), next + 1)
  {
    if db[v].virtuals != [] {
      AddKeepsDb(db, v, next, handler);
    } else {
      var was := db - {v};
      forall w, i, id | Listed(was, w, i, id) ensures Listed(db, w, i, id) {
      }
      assert DbOk(was, next);
      CreateKeepsDb(was, v, db[v].master, next, handler);
      assert was[v := Entry(db[v].master, [])] == db;
    }
  }

  /** A new entry without virtual subscriptions. */
  lemma InitCoherent(t: Tables, db: Db, e: DbEntry, next: SubsId)
    requires Sound(t, db, next) && e.v !in db && !MasterDefined(db, e.master)
    ensures var d := db[e.v := Entry(e.master, [])];
            Coherent(t.(byVar := t.byVar[e.v := e], byMaster := t.byMaster[e.master := e]), d, next)
                && FilledBut(d, e.v)
  {
    InitLinks(t, db, e);
    var d := db[e.v := Entry(e.master, [])];
    hide Linked;
    forall w, i, id | Listed(d, w, i, id) ensures Listed(db, w, i, id) {
    }
  }

  lemma InitLinks(t: Tables, db: Db, e: DbEntry)
    requires Linked(t, db) && e.v !in db && !MasterDefined(db, e.master)
    ensures Linked(t.(byVar := t.byVar[e.v := e], byMaster := t.byMaster[e.master := e]),
                   db[e.v := Entry(e.master, [])])
  {
    var d := db[e.v := Entry(e.master, [])];
    assert forall w, i, id :: Listed(d, w, i, id) <==> Listed(db, w, i, id);
    assert forall m :: m in t.byMaster ==> t.byMaster[m].v in db && db[t.byMaster[m].v].master == m;
  }

  /** The master table knows exactly the masters of the entries. */
  lemma MasterTable(t: Tables, db: Db, next: SubsId, m: SubsId)
    requires Sound(t, db, next)
    ensures t.byVar.Keys == db.Keys && (m in t.byMaster <==> MasterDefined(db, m))
    ensures m in t.byMaster ==> t.byMaster[m].v in db && t.byMaster[m] == t.byVar[t.byMaster[m].v]
    ensures forall v :: v in db && db[v].master == m ==> m in t.byMaster && t.byMaster[m].v == v
  {
  }

  /** The virtual table knows exactly the virtual ids of the entries. */
  lemma VirtualTable(t: Tables, db: Db, next: SubsId, id: SubsId)
    requires Sound(t, db, next)
    ensures id in t.byVirtual <==> OwnerOf(db, id).Some?
    ensures id in t.byVirtual ==> OwnerOf(db, id) == Some(t.byVirtual[id].v)
    ensures id in t.byVirtual ==> t.byVirtual[id].v in t.byVar && t.byVar[t.byVirtual[id].v] == t.byVirtual[id]
  {
  }

  /** An entry loses a virtual id, which leaves the virtual table too. */
  lemma DropSound(t: Tables, db: Db, v: VarId, id: SubsId, next: SubsId)
    requires Coherent(t, db, next) && id in t.byVirtual && t.byVirtual[id].v == v
    ensures v in db
    ensures Coherent(t.(byVirtual := t.byVirtual - {id}), db[v := Entry(db[v].master, Without(db[v].virtuals, id))],
                     next)
    ensures t.byVar[v] == t.byVirtual[id]
  {
    var k :| Listed(db, v, k, id);
    RemoveAt(db, v, k, next, id);
    DropLinks(t, db, v, k, id, next);
    var d := db[v := Entry(db[v].master, Without(db[v].virtuals, id))];
    forall w, i, x | Listed(d, w, i, x) ensures Listed(db, w, if w == v && i >= k then i + 1 else i, x) {
    }
  }

  lemma DropLinks(t: Tables, db: Db, v: VarId, k: nat, id: SubsId, next: SubsId)
    requires Coherent(t, db, next) && Listed(db, v, k, id)
    requires Without(db[v].virtuals, id) == db[v].virtuals[..k] + db[v].virtuals[k + 1..]
    ensures Linked(t.(byVirtual := t.byVirtual - {id}), db[v := Entry(db[v].master, Without(db[v].virtuals, id))])
  {
    var d := db[v := Entry(db[v].master, Without(db[v].virtuals, id))];
    forall w, i, x | Listed(d, w, i, x) ensures x != id && x in t.byVirtual && t.byVirtual[x] == t.byVar[w] {
      assert Listed(db, w, if w == v && i >= k then i + 1 else i, x);
    }
    forall x | x in t.byVirtual && x != id ensures exists i :: Listed(d, t.byVirtual[x].v, i, x) {
      var w := t.byVirtual[x].v;
      var i :| Listed(db, w, i, x);
      assert Listed(d, w, if w == v && i > k then i - 1 else i, x);
    }
  }

  /** An emptied entry can leave the other two tables. */
  lemma EraseSound(t: Tables, db: Db, v: VarId, next: SubsId)
    requires Coherent(t, db, next) && v in db && db[v].virtuals == []
    ensures Coherent(t.(byVar := t.byVar - {v}, byMaster := t.byMaster - {db[v].master}), db - {v}, next)
  {
    var d := db - {v};
    forall w, i, id | Listed(d, w, i, id) ensures Listed(db, w, i, id) {
    }
    forall id | id in t.byVirtual ensures exists i :: Listed(d, t.byVirtual[id].v, i, id) {
      var i :| Listed(db, t.byVirtual[id].v, i, id);
      assert Listed(d, t.byVirtual[id].v, i, id);
    }
    assert forall w :: w in d ==> db[w].master != db[v].master;
  }

  /** A variable that is not in the database has left no trace in any of the tables. */
  lemma NoTrace(t: Tables, db: Db, v: VarId, next: SubsId)
    requires Coherent(t, db, next) && v !in db
    ensures v !in t.byVar
    ensures forall m :: m in t.byMaster ==> t.byMaster[m].v != v
    ensures forall id :: id in t.byVirtual ==> t.byVirtual[id].v != v
  {
  }

  lemma Distinct(t: Tables, db: Db, next: SubsId)
    requires Coherent(t, db, next)
    ensures t.byVar.Keys == db.Keys && forall v :: v in t.byVar ==> t.byVar[v].v == v
  {
  }

  lemma SoundIsCoherent(t: Tables, db: Db, next: SubsId)
    ensures Sound(t, db, next) <==> Coherent(t, db, next) && forall v :: v in db ==> db[v].virtuals != []
    ensures Sound(t, db, next) ==> forall v :: v in t.byVar ==> t.byVar[v].v == v
  {
  }

  /** The first id of an entry is in the virtual table and is its only occurrence in the entry. */
  lemma EntryIds(t: Tables, db: Db, v: VarId, next: SubsId)
    requires Coherent(t, db, next) && v in db && db[v].virtuals != []
    ensures var id := db[v].virtuals[0].id;
            && id in t.byVirtual && t.byVirtual[id] == t.byVar[v] && t.byVar[v].v == v
            && Without(db[v].virtuals, id) == db[v].virtuals[1..]
  {
    var id := db[v].virtuals[0].id;
    assert Listed(db, v, 0, id);
    RemoveAt(db, v, 0, next, id);
  }

  class SubscriptionDb {
    var varIdMap: map<VarId, DbEntry>
    var masterMap: map<SubsId, DbEntry>
    var virtualMap: map<SubsId, DbEntry>
    const ids: IdSource
    ghost var Repr: set<DbEntry>  // the entries made so far

    /** The map the tables stand for. */
    ghost function View(): Db
      reads this, Repr
    {
      map v | v in varIdMap && varIdMap[v] in Repr :: Entry(varIdMap[v].master, varIdMap[v].virtuals)
    }

    ghost predicate Valid()
      reads this, ids, Repr
    {
      Sound(Tables(varIdMap, masterMap, virtualMap), View(), ids.next) && Contained()
    }

    ghost predicate Contained()
      reads this
    {
      forall v :: v in varIdMap ==> varIdMap[v] in Repr
    }

    constructor ()
      ensures Valid() && View() == map[] && ids.next == 1
      ensures fresh(ids) && Repr == {}
    {
      ids := new IdSource();
      Repr := {};
      varIdMap, masterMap, virtualMap := map[], map[], map[];
    }

    method EntryDefined(v: VarId) returns (defined: bool)
      requires Valid()
      ensures defined == (v in View())
    {
      defined := v in varIdMap;
    }

    method CreateEntry(v: VarId, master: SubsId, handler: Handler) returns (r: Result<SubsId>)
      requires Valid()
      modifies this, ids
      ensures Valid() && old(Repr) <= Repr && fresh(Repr - old(Repr))
      ensures After(View(), ids.next, r) == Creating(old(View()), old(ids.next), v, master, handler)
    {
      hide Sound, Coherent, FilledBut, View, MasterDefined, AddVirtual;
      MasterTable(Tables(varIdMap, masterMap, virtualMap), View(), ids.next, master);
      if v in varIdMap {
        return Err(VariableAlreadyExists(v));
      }
      if master in masterMap {
        return Err(MasterAlreadyExists(master));
      }
      InitEntry(v, master);
      r := Append(v, handler);
    }

    method InitEntry(v: VarId, master: SubsId)
      requires Valid() && v !in View() && !MasterDefined(View(), master)
      modifies this
      ensures Contained() && old(Repr) <= Repr && fresh(Repr - old(Repr))
      ensures Coherent(Tables(varIdMap, masterMap, virtualMap), View(), ids.next) && FilledBut(View(), v)
      ensures View() == old(View())[v := Entry(master, [])]
      ensures v in varIdMap && fresh(varIdMap[v]) && varIdMap == old(varIdMap)[v := varIdMap[v]]
    {
      hide Sound, Coherent, FilledBut;
      ghost var was, t := View(), Tables(varIdMap, masterMap, virtualMap);
      var e := new DbEntry(v, master);
      InitCoherent(t, was, e, ids.next);
      varIdMap := varIdMap[v := e];
      masterMap := masterMap[master := e];
      Repr := Repr + {e};
      assert View() == was[v := Entry(master, [])];
    }

    method Append(v: VarId, handler: Handler) returns (r: Result<SubsId>)
      requires Coherent(Tables(varIdMap, masterMap, virtualMap), View(), ids.next) && FilledBut(View(), v)
               && Contained()
      modifies this`virtualMap, ids, if v in varIdMap then {varIdMap[v]} else {}
      ensures Valid()
      ensures After(View(), ids.next, r) == Adding(old(View()), old(ids.next), v, handler)
    {
      hide Coherent, Sound, FilledBut;
      ghost var was, t := View(), Tables(varIdMap, masterMap, virtualMap);
      AddSound(t, was, v, ids.next, handler);
      if v !in varIdMap {
        return Err(NoSuchVariable(v));
      }
      var id := ids.Make();
      var e := varIdMap[v];
      e.PushBack(Virtual(id, handler));
      virtualMap := virtualMap[id := e];
      assert View() == AddVirtual(was, v, Virtual(id, handler));
      r := Ok(id);
    }

    method AddVirtualSubscription(v: VarId, handler: Handler) returns (r: Result<SubsId>)
      requires Valid()
      modifies this`virtualMap, ids, Repr
      ensures Valid()
      ensures After(View(), ids.next, r) == Adding(old(View()), old(ids.next), v, handler)
    {
      hide Sound, Coherent, View, Adding;
      SoundIsCoherent(Tables(varIdMap, masterMap, virtualMap), View(), ids.next);
      r := Append(v, handler);
    }

    method AddOrCreate(v: VarId, master: SubsId, handler: Handler) returns (r: Result<SubsId>)
      requires Valid()
      modifies this, ids, Repr
      ensures Valid() && old(Repr) <= Repr && fresh(Repr - old(Repr))
      ensures After(View(), ids.next, r) == if v in old(View()) then Adding(old(View()), old(ids.next), v, handler)
                                            else Creating(old(View()), old(ids.next), v, master, handler)
    {
      hide Valid, View, Adding, Creating;
      var defined := EntryDefined(v);
      if defined {
        r := AddVirtualSubscription(v, handler);
      } else {
        r := CreateEntry(v, master, handler);
      }
    }

    /** Takes one virtual id out of its entry, which may be left empty. */
    method RemoveVirtual(id: SubsId) returns (n: nat)
      requires Coherent(Tables(varIdMap, masterMap, virtualMap), View(), ids.next) && id in virtualMap
      modifies this`virtualMap, virtualMap[id]
      ensures virtualMap == old(virtualMap) - {id}
      ensures var v := old(virtualMap)[id].v;
              && v in old(View())
              && View() == old(View())[v := Entry(old(View())[v].master, Without(old(View())[v].virtuals, id))]
              && n == |View()[v].virtuals|
      ensures Coherent(Tables(varIdMap, masterMap, virtualMap), View(), ids.next)
    {
      hide Coherent;
      ghost var was, t := View(), Tables(varIdMap, masterMap, virtualMap);
      Distinct(t, was, ids.next);
      var e := virtualMap[id];
      DropSound(t, was, e.v, id, ids.next);
      e.RemoveIf(id);
      virtualMap := virtualMap - {id};
      assert View() == was[e.v := Entry(was[e.v].master, Without(was[e.v].virtuals, id))];
      n := |e.virtuals|;
    }

    /** Takes the virtual ids of an entry out one by one. */
    method Empty(e: DbEntry)
      requires Coherent(Tables(varIdMap, masterMap, virtualMap), View(), ids.next)
      requires e.v in varIdMap && varIdMap[e.v] == e
      modifies this`virtualMap, e
      ensures Coherent(Tables(varIdMap, masterMap, virtualMap), View(), ids.next)
      ensures e.v in old(View()) && View() == old(View())[e.v := Entry(e.master, [])]
    {
      hide Coherent, Without;
      ghost var was := View();
      Distinct(Tables(varIdMap, masterMap, virtualMap), was, ids.next);
      var virtuals := e.virtuals;
      var i := 0;
      while i < |virtuals|
        invariant 0 <= i <= |virtuals|
        invariant e.v in View() && View() == was[e.v := Entry(e.master, virtuals[i..])]
        invariant Coherent(Tables(varIdMap, masterMap, virtualMap), View(), ids.next)
      {
        EntryIds(Tables(varIdMap, masterMap, virtualMap), View(), e.v, ids.next);
        assert View()[e.v].virtuals[0].id == virtuals[i].id;
        var _ := RemoveVirtual(virtuals[i].id);
        assert virtuals[i..][1..] == virtuals[i + 1..];
        i := i + 1;
      }
    }

    method RemoveEntry(v: VarId) returns (r: Result<()>)
      requires Coherent(Tables(varIdMap, masterMap, virtualMap), View(), ids.next)
      modifies this`varIdMap, this`masterMap, this`virtualMap, if v in varIdMap then {varIdMap[v]} else {}
      ensures Coherent(Tables(varIdMap, masterMap, virtualMap), View(), ids.next)
      ensures varIdMap == old(varIdMap) - {v}
      ensures if v in old(View()) then r == Ok(()) && View() == old(View()) - {v}
              else r == Err(NoSuchVariable(v)) && View() == old(View())
    {
      hide Coherent;
      ghost var was := View();
      Distinct(Tables(varIdMap, masterMap, virtualMap), was, ids.next);
      if v !in varIdMap {
        return Err(NoSuchVariable(v));
      }
      var e := varIdMap[v];
      Empty(e);
      EraseSound(Tables(varIdMap, masterMap, virtualMap), View(), v, ids.next);
      assert was[v := Entry(e.master, [])] - {v} == was - {v};
      masterMap := masterMap - {e.master};
      varIdMap := varIdMap - {v};
      assert View() == was - {v};
      r := Ok(());
    }

    method RemoveVirtualSubscription(id: SubsId) returns (r: Result<bool>)
      requires Valid()
      modifies this`varIdMap, this`masterMap, this`virtualMap, Repr
      ensures Valid()
      ensures match OwnerOf(old(View()), id)
              case None => r == Err(NoSuchVirtual(id)) && View() == old(View())
              case Some(v) =>
                && v in old(View()) && View() == ClientModel.RemoveVirtual(old(View()), v, id)
                && r == Ok(v !in View())
    {
      hide Sound, Coherent;
      ghost var was, t := View(), Tables(varIdMap, masterMap, virtualMap);
      VirtualTable(t, was, ids.next, id);
      if id !in virtualMap {
        return Err(NoSuchVirtual(id));
      }
      var e := virtualMap[id];
      SoundIsCoherent(t, was, ids.next);
      var n := RemoveVirtual(id);
      if n == 0 {
        var _ := RemoveEntry(e.v);
        assert View() == was - {e.v};
      }
      SoundIsCoherent(Tables(varIdMap, masterMap, virtualMap), View(), ids.next);
      r := Ok(n == 0);
    }

    method MasterOfVariable(v: VarId) returns (r: Result<SubsId>)
      requires Valid()
      ensures r == if v in View() then Ok(View()[v].master) else Err(NoSuchVariable(v))
    {
      r := if v in varIdMap then Ok(varIdMap[v].master) else Err(NoSuchVariable(v));
    }

    method MasterOfVirtual(id: SubsId) returns (r: Result<SubsId>)
      requires Valid()
      ensures match OwnerOf(View(), id)
              case None => r == Err(NoSuchVirtual(id))
              case Some(v) => v in View() && r == Ok(View()[v].master)
    {
      hide Sound;
      VirtualTable(Tables(varIdMap, masterMap, virtualMap), View(), ids.next, id);
      r := if id in virtualMap then Ok(virtualMap[id].master) else Err(NoSuchVirtual(id));
    }

    /** The calls made, in order. The list of virtual subscriptions is copied before the first one. */
    method InvokeHandlers(master: SubsId, value: Value) returns (r: Result<seq<Call>>)
      requires Valid()
      ensures forall v :: v in View() && View()[v].master == master ==>
                r == Ok(CallsFor(v, View()[v].virtuals, value))
      ensures !MasterDefined(View(), master) ==> r == Err(NoSuchMaster(master))
    {
      hide Sound;
      MasterTable(Tables(varIdMap, masterMap, virtualMap), View(), ids.next, master);
      if master !in masterMap {
        return Err(NoSuchMaster(master));
      }
      var e := masterMap[master];
      var virtuals := e.virtuals;
      var calls := [];
      var i := 0;
      while i < |virtuals|
        invariant 0 <= i <= |virtuals|
        invariant calls == CallsFor(e.v, virtuals, value)[..i]
      {
        calls := calls + [Call(virtuals[i].handler, e.v, value)];
        i := i + 1;
      }
      assert calls == CallsFor(e.v, View()[e.v].virtuals, value);
      r := Ok(calls);
    }
  }
}
