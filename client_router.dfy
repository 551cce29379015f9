/** The client endpoints: a bulk upsert that refuses a batch reusing a login or an id,
    and a lookup by id. */
module ClientRouter {
  import opened Domain
  import opened Seqs
  import opened Schemas
  import opened Store

  /** The stored record for an upsert entry. */
  function ClientOf(u: ClientUpsert): Client {
    Client(u.login, u.age, u.location, u.gender)
  }

  function Logins(batch: seq<ClientUpsert>): seq<string> {
    seq(|batch|, i requires 0 <= i < |batch| => batch[i].login)
  }

  function Ids(batch: seq<ClientUpsert>): seq<ClientId> {
    seq(|batch|, i requires 0 <= i < |batch| => batch[i].clientId)
  }

  /** The writes of a batch, one per entry, in order. */
  function Entries(batch: seq<ClientUpsert>): seq<(ClientId, Client)> {
    seq(|batch|, i requires 0 <= i < |batch| => (batch[i].clientId, ClientOf(batch[i])))
  }

  /** Another stored client already holds the entry's login. */
  predicate LoginTaken(clients: map<ClientId, Client>, u: ClientUpsert) {
    exists id | id in clients :: clients[id].login == u.login && id != u.clientId
  }

  /** The response to a bulk upsert against the stored clients: a malformed entry fails
      validation; a login held by another client, or a login or id repeated within the
      batch, is refused; otherwise the batch is echoed back. */
  function BatchOutcome(clients: map<ClientId, Client>, batch: seq<ClientUpsert>): Result<seq<ClientUpsert>> {
    if !(forall i | 0 <= i < |batch| :: ValidClientUpsert(batch[i])) then Err(SchemaViolation)
    else if (exists i | 0 <= i < |batch| :: LoginTaken(clients, batch[i])) then Err(ValidationFailure)
    else if !Distinct(Logins(batch)) || !Distinct(Ids(batch)) then Err(ValidationFailure)
    else Ok(batch)
  }

  /** Upserts a batch of clients: every entry is checked before anything is written, then
      each entry creates its client or overwrites the stored one. */
  method CreateClients(st: Store, batch: seq<ClientUpsert>) returns (r: Result<seq<ClientUpsert>>)
    requires st.Valid()
    modifies st
    ensures st.Valid()
    ensures r == BatchOutcome(old(st.clients), batch)
    ensures r.Ok? ==> st.Snapshot() == old(st.Snapshot()).(clients := PutAll(old(st.clients), Entries(batch)))
    ensures r.Err? ==> st.Snapshot() == old(st.Snapshot())
  {
    if !(forall i | 0 <= i < |batch| :: ValidClientUpsert(batch[i])) {
      return Err(SchemaViolation);
    }
    assert UniqueLogins(st.clients);
    var free, logins, ids := CollectBatchKeys(st.clients, batch);
    if !free {
      return Err(ValidationFailure);
    }
    DistinctIffSameSize(logins);
    DistinctIffSameSize(ids);
    if |logins| != |ToSet(logins)| || |ids| != |ToSet(ids)| {
      return Err(ValidationFailure);
    }

    BatchKeepsInv(st.Snapshot(), batch);
    UpsertClients(st, batch);
    r := Ok(batch);
  }

  /** The second pass over an accepted batch: each entry creates its client or overwrites
      the stored client's fields. */
  method UpsertClients(st: Store, batch: seq<ClientUpsert>)
    modifies st
    ensures st.Snapshot() == old(st.Snapshot()).(clients := PutAll(old(st.clients), Entries(batch)))
  {
    ghost var s0 := st.Snapshot();
    ghost var writes := Entries(batch);
    var i := 0;
    while i < |batch|
      invariant 0 <= i <= |batch|
      invariant st.Snapshot() == s0.(clients := PutAll(s0.clients, writes[..i]))
    {
      var u := batch[i];
      if u.clientId !in st.clients {
        st.clients := st.clients[u.clientId := Client(u.login, u.age, u.location, u.gender)];
      } else {
        var client := st.clients[u.clientId];
        st.clients := st.clients[u.clientId := client.(login := u.login, age := u.age, location := u.location, gender := u.gender)];
      }
      assert writes[..i + 1][..i] == writes[..i];
      i := i + 1;
    }
    assert writes[..i] == writes;
  }

  /** The first pass over a batch: looks up the client holding each entry's login and
      stops at the first held by a different id; otherwise returns the batch's logins and
      ids in order. */
  method CollectBatchKeys(clients: map<ClientId, Client>, batch: seq<ClientUpsert>)
    returns (free: bool, logins: seq<string>, ids: seq<ClientId>)
    requires UniqueLogins(clients)
    ensures free <==> forall i | 0 <= i < |batch| :: !LoginTaken(clients, batch[i])
    ensures free ==> logins == Logins(batch) && ids == Ids(batch)
  {
    logins, ids := [], [];
    var i := 0;
    while i < |batch|
      invariant 0 <= i <= |batch|
      invariant |logins| == i && |ids| == i
      invariant forall j | 0 <= j < i :: logins[j] == batch[j].login && ids[j] == batch[j].clientId
      invariant forall j | 0 <= j < i :: !LoginTaken(clients, batch[j])
    {
      var u := batch[i];
      var holders := set id | id in clients && clients[id].login == u.login;
      if holders != {} {
        var h :| h in holders;
        if h != u.clientId {
          assert LoginTaken(clients, batch[i]);
          return false, logins, ids;
        }
      }
      forall id | id in clients && clients[id].login == u.login ensures id == u.clientId {
        assert id in holders;
      }
      logins := logins + [u.login];
      ids := ids + [u.clientId];
      i := i + 1;
    }
    assert logins == Logins(batch) && ids == Ids(batch);
    free := true;
  }

  /** What an accepted batch writes: each entry's client holds exactly the entry's fields,
      every client outside the batch is untouched, and no client disappears. */
  lemma BatchStoresEachClient(clients: map<ClientId, Client>, batch: seq<ClientUpsert>)
    requires BatchOutcome(clients, batch).Ok?
    ensures PutAll(clients, Entries(batch)).Keys == clients.Keys + ToSet(Ids(batch))
    ensures forall i | 0 <= i < |batch| ::
              batch[i].clientId in PutAll(clients, Entries(batch)) && PutAll(clients, Entries(batch))[batch[i].clientId] == ClientOf(batch[i])
    ensures forall id | id in clients && id !in Ids(batch) :: PutAll(clients, Entries(batch))[id] == clients[id]
  {
    assert Firsts(Entries(batch)) == Ids(batch);
    PutAllLookup(clients, Entries(batch));
    forall i | 0 <= i < |batch|
      ensures batch[i].clientId in PutAll(clients, Entries(batch)) && PutAll(clients, Entries(batch))[batch[i].clientId] == ClientOf(batch[i])
    {
      assert Entries(batch)[i] == (batch[i].clientId, ClientOf(batch[i]));
    }
  }

  /** An accepted batch keeps logins unique across all stored clients. */
  lemma BatchKeepsUniqueLogins(clients: map<ClientId, Client>, batch: seq<ClientUpsert>)
    requires UniqueLogins(clients) && BatchOutcome(clients, batch).Ok?
    ensures UniqueLogins(PutAll(clients, Entries(batch)))
  {
    var after := PutAll(clients, Entries(batch));
    forall a, b | a in after && b in after && a != b ensures after[a].login != after[b].login {
      BatchPairLogins(clients, batch, a, b);
    }
  }

  /** Two distinct clients after an accepted batch have different logins: two entries of
      the batch by the batch's own distinctness, an entry and an untouched client because
      the entry's login was not held by another client, two untouched clients as before. */
  lemma BatchPairLogins(clients: map<ClientId, Client>, batch: seq<ClientUpsert>, a: ClientId, b: ClientId)
    requires UniqueLogins(clients) && BatchOutcome(clients, batch).Ok?
    requires a in PutAll(clients, Entries(batch)) && b in PutAll(clients, Entries(batch)) && a != b
    ensures PutAll(clients, Entries(batch))[a].login != PutAll(clients, Entries(batch))[b].login
  {
    var j := BatchSource(clients, batch, a);
    var k := BatchSource(clients, batch, b);
    if j >= 0 && k >= 0 {
      assert Logins(batch)[j] != Logins(batch)[k];
    } else if j >= 0 {
      assert !LoginTaken(clients, batch[j]);
    } else if k >= 0 {
      assert !LoginTaken(clients, batch[k]);
    }
  }

  /** Where a client after an accepted batch comes from: the entry at index `j`, or (with
      `j` = -1) the untouched stored client. */
  lemma BatchSource(clients: map<ClientId, Client>, batch: seq<ClientUpsert>, x: ClientId) returns (j: int)
    requires BatchOutcome(clients, batch).Ok? && x in PutAll(clients, Entries(batch))
    ensures -1 <= j < |batch|
    ensures j >= 0 ==> batch[j].clientId == x && PutAll(clients, Entries(batch))[x] == ClientOf(batch[j])
    ensures j < 0 ==> x in clients && PutAll(clients, Entries(batch))[x] == clients[x]
                      && forall i | 0 <= i < |batch| :: batch[i].clientId != x
  {
    BatchStoresEachClient(clients, batch);
    if x in Ids(batch) {
      j :| 0 <= j < |batch| && Ids(batch)[j] == x;
    } else {
      j := -1;
      forall i | 0 <= i < |batch| ensures batch[i].clientId != x {
        assert Ids(batch)[i] == batch[i].clientId;
      }
    }
  }

  /** An accepted batch keeps the store's invariant. */
  lemma BatchKeepsInv(s: State, batch: seq<ClientUpsert>)
    requires Inv(s) && BatchOutcome(s.clients, batch).Ok?
    ensures Inv(s.(clients := PutAll(s.clients, Entries(batch))))
  {
    BatchKeepsUniqueLogins(s.clients, batch);
    ReplaceClientsKeepsInv(s, PutAll(s.clients, Entries(batch)));
  }

  /** A batch giving another client's login to some id is refused, whatever else it holds. */
  lemma TakenLoginRefused(clients: map<ClientId, Client>, batch: seq<ClientUpsert>, i: nat, other: ClientId)
    requires i < |batch| && other in clients && other != batch[i].clientId && clients[other].login == batch[i].login
    ensures BatchOutcome(clients, batch).Err?
  {
    assert LoginTaken(clients, batch[i]);
  }

  /** A client by id, or NotFound. */
  method GetClient(st: Store, id: ClientId) returns (r: Result<Client>)
    ensures r.Ok? <==> id in st.clients
    ensures r.Ok? ==> r.value == st.clients[id]
    ensures r.Err? ==> r.error == NotFound
  {
    if id !in st.clients {
      return Err(NotFound);
    }
    r := Ok(st.clients[id]);
  }
}
