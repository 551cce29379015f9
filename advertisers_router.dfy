/** The advertiser endpoints: a bulk upsert that refuses a batch repeating an id, a
    lookup by id, and the upsert of the ML score of a client and advertiser pair. */
module AdvertisersRouter {
  import opened Domain
  import opened Seqs
  import opened Schemas
  import opened Store
  import opened AdsEngine

  function AdvertiserIds(batch: seq<AdvertiserUpsert>): seq<AdvertiserId> {
    seq(|batch|, i requires 0 <= i < |batch| => batch[i].advertiserId)
  }

  /** The writes of a batch, one per entry, in order. */
  function AdvertiserEntries(batch: seq<AdvertiserUpsert>): seq<(AdvertiserId, Advertiser)> {
    seq(|batch|, i requires 0 <= i < |batch| => (batch[i].advertiserId, Advertiser(batch[i].name)))
  }

  /** The response to a bulk upsert: a malformed entry fails validation, an id repeated
      within the batch is refused, otherwise the batch is echoed back. */
  function AdvertiserBatchOutcome(batch: seq<AdvertiserUpsert>): Result<seq<AdvertiserUpsert>> {
    if !(forall i | 0 <= i < |batch| :: ValidAdvertiserUpsert(batch[i])) then Err(SchemaViolation)
    else if !Distinct(AdvertiserIds(batch)) then Err(ValidationFailure)
    else Ok(batch)
  }

  /** Upserts a batch of advertisers once its ids are known to be distinct. */
  method CreateAdvertisers(st: Store, batch: seq<AdvertiserUpsert>) returns (r: Result<seq<AdvertiserUpsert>>)
    requires st.Valid()
    modifies st
    ensures st.Valid()
    ensures r == AdvertiserBatchOutcome(batch)
    ensures r.Ok? ==> st.Snapshot() == old(st.Snapshot()).(advertisers := PutAll(old(st.advertisers), AdvertiserEntries(batch)))
    ensures r.Err? ==> st.Snapshot() == old(st.Snapshot())
  {
    if !(forall i | 0 <= i < |batch| :: ValidAdvertiserUpsert(batch[i])) {
      return Err(SchemaViolation);
    }
    var ids: seq<AdvertiserId> := [];
    var i := 0;
    while i < |batch|
      invariant 0 <= i <= |batch|
      invariant ids == AdvertiserIds(batch)[..i]
    {
      ids := ids + [batch[i].advertiserId];
      i := i + 1;
    }
    assert ids == AdvertiserIds(batch);
    DistinctIffSameSize(ids);
    if |ids| != |ToSet(ids)| {
      return Err(ValidationFailure);
    }

    ReplaceAdvertisersKeepsInv(st.Snapshot(), PutAll(st.advertisers, AdvertiserEntries(batch)));
    UpsertAdvertisers(st, batch);
    r := Ok(batch);
  }

  /** The second pass over an accepted batch: each entry creates its advertiser or
      renames the stored one. */
  method UpsertAdvertisers(st: Store, batch: seq<AdvertiserUpsert>)
    modifies st
    ensures st.Snapshot() == old(st.Snapshot()).(advertisers := PutAll(old(st.advertisers), AdvertiserEntries(batch)))
  {
    ghost var s0 := st.Snapshot();
    ghost var writes := AdvertiserEntries(batch);
    var i := 0;
    while i < |batch|
      invariant 0 <= i <= |batch|
      invariant st.Snapshot() == s0.(advertisers := PutAll(s0.advertisers, writes[..i]))
    {
      var u := batch[i];
      if u.advertiserId !in st.advertisers {
        st.advertisers := st.advertisers[u.advertiserId := Advertiser(u.name)];
      } else {
        var advertiser := st.advertisers[u.advertiserId];
        st.advertisers := st.advertisers[u.advertiserId := advertiser.(name := u.name)];
      }
      assert writes[..i + 1][..i] == writes[..i];
      i := i + 1;
    }
    assert writes[..i] == writes;
  }

  /** What an accepted batch writes: each entry's advertiser carries the entry's name,
      every advertiser outside the batch is untouched, and none disappears. */
  lemma AdvertiserBatchStores(advertisers: map<AdvertiserId, Advertiser>, batch: seq<AdvertiserUpsert>)
    requires AdvertiserBatchOutcome(batch).Ok?
    ensures PutAll(advertisers, AdvertiserEntries(batch)).Keys == advertisers.Keys + ToSet(AdvertiserIds(batch))
    ensures forall i | 0 <= i < |batch| ::
              batch[i].advertiserId in PutAll(advertisers, AdvertiserEntries(batch))
              && PutAll(advertisers, AdvertiserEntries(batch))[batch[i].advertiserId] == Advertiser(batch[i].name)
    ensures forall id | id in advertisers && id !in AdvertiserIds(batch) ::
              PutAll(advertisers, AdvertiserEntries(batch))[id] == advertisers[id]
  {
    assert Firsts(AdvertiserEntries(batch)) == AdvertiserIds(batch);
    PutAllLookup(advertisers, AdvertiserEntries(batch));
    forall i | 0 <= i < |batch|
      ensures batch[i].advertiserId in PutAll(advertisers, AdvertiserEntries(batch))
              && PutAll(advertisers, AdvertiserEntries(batch))[batch[i].advertiserId] == Advertiser(batch[i].name)
    {
      assert AdvertiserEntries(batch)[i] == (batch[i].advertiserId, Advertiser(batch[i].name));
    }
  }

  /** An advertiser by id, or NotFound. */
  method GetAdvertiser(st: Store, id: AdvertiserId) returns (r: Result<Advertiser>)
    ensures r.Ok? <==> id in st.advertisers
    ensures r.Ok? ==> r.value == st.advertisers[id]
    ensures r.Err? ==> r.error == NotFound
  {
    if id !in st.advertisers {
      return Err(NotFound);
    }
    r := Ok(st.advertisers[id]);
  }

  /** Creates or overwrites the score of a stored client and advertiser and returns the
      stored record. */
  method CreateMlScore(st: Store, m: MLScore) returns (r: Result<MLScore>)
    requires st.Valid()
    modifies st
    ensures st.Valid()
    ensures !ValidMLScore(m) ==> r == Err(SchemaViolation)
    ensures ValidMLScore(m) && (m.clientId !in old(st.clients) || m.advertiserId !in old(st.advertisers)) ==> r == Err(NotFound)
    ensures r.Ok? <==> ValidMLScore(m) && m.clientId in old(st.clients) && m.advertiserId in old(st.advertisers)
    ensures r.Ok? ==> r == Ok(m) && st.Snapshot() == old(st.Snapshot()).(mlScores := old(st.mlScores)[(m.clientId, m.advertiserId) := m.score])
    ensures r.Err? ==> st.Snapshot() == old(st.Snapshot())
  {
    if !ValidMLScore(m) {
      return Err(SchemaViolation);
    }
    if m.clientId !in st.clients || m.advertiserId !in st.advertisers {
      return Err(NotFound);
    }
    PutScoreKeepsInv(st.Snapshot(), m.clientId, m.advertiserId, m.score);
    var key := (m.clientId, m.advertiserId);
    st.mlScores := st.mlScores[key := m.score];
    r := Ok(MLScore(m.clientId, m.advertiserId, st.mlScores[key]));
  }

  /** The ranking reads back exactly the score last written for the pair, and 0 for a
      pair never scored; the scores of other pairs are not affected by a write. */
  lemma ScoreReachesRanking(scores: map<(ClientId, AdvertiserId), int>, cl: ClientId, adv: AdvertiserId, score: int,
                            cl': ClientId, adv': AdvertiserId)
    ensures MlOf(scores[(cl, adv) := score], cl, adv) == score
    ensures (cl', adv') != (cl, adv) ==> MlOf(scores[(cl, adv) := score], cl', adv') == MlOf(scores, cl', adv')
    ensures (cl', adv') !in scores ==> MlOf(scores, cl', adv') == 0
  {
  }
}
