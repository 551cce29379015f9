/** The action ledger: counts and selections over the append-only sequence of actions,
    and how they change when one action is appended or a campaign's actions are deleted. */
module Ledger {
  import opened Domain

  predicate IsAction(a: Action, cl: ClientId, id: CampaignId, k: ActionKind) {
    a.clientId == cl && a.campaignId == id && a.kind == k
  }

  /** Number of actions of kind `k` on campaign `id`. */
  function CountOf(acts: seq<Action>, id: CampaignId, k: ActionKind): nat {
    if acts == [] then 0
    else
      var a := acts[|acts| - 1];
      CountOf(acts[..|acts| - 1], id, k) + (if a.campaignId == id && a.kind == k then 1 else 0)
  }

  /** Number of actions of kind `k` by client `cl` on campaign `id`. */
  function CountPair(acts: seq<Action>, cl: ClientId, id: CampaignId, k: ActionKind): nat {
    if acts == [] then 0
    else CountPair(acts[..|acts| - 1], cl, id, k) + (if IsAction(acts[|acts| - 1], cl, id, k) then 1 else 0)
  }

  /** The ledger holds an action of kind `k` by `cl` on `id`. */
  predicate Has(acts: seq<Action>, cl: ClientId, id: CampaignId, k: ActionKind) {
    exists i | 0 <= i < |acts| :: IsAction(acts[i], cl, id, k)
  }

  /** A campaign's actions, in ledger order. */
  function CampaignActions(acts: seq<Action>, id: CampaignId): seq<Action> {
    if acts == [] then []
    else
      var a := acts[|acts| - 1];
      CampaignActions(acts[..|acts| - 1], id) + (if a.campaignId == id then [a] else [])
  }

  /** A client's actions, in ledger order. */
  function ClientActions(acts: seq<Action>, cl: ClientId): seq<Action> {
    if acts == [] then []
    else
      var a := acts[|acts| - 1];
      ClientActions(acts[..|acts| - 1], cl) + (if a.clientId == cl then [a] else [])
  }

  /** The ledger after a campaign's actions are deleted with it. */
  function WithoutCampaign(acts: seq<Action>, id: CampaignId): seq<Action> {
    if acts == [] then []
    else
      var a := acts[|acts| - 1];
      WithoutCampaign(acts[..|acts| - 1], id) + (if a.campaignId != id then [a] else [])
  }

  /** The campaigns that some action of kind `k` in `acts` refers to. */
  function KindIds(acts: seq<Action>, k: ActionKind): set<CampaignId> {
    if acts == [] then {}
    else
      var a := acts[|acts| - 1];
      KindIds(acts[..|acts| - 1], k) + (if a.kind == k then {a.campaignId} else {})
  }

  // ---- appending one action ----

  lemma CountOfSnoc(acts: seq<Action>, a: Action, id: CampaignId, k: ActionKind)
    ensures CountOf(acts + [a], id, k) == CountOf(acts, id, k) + (if a.campaignId == id && a.kind == k then 1 else 0)
  {
    assert (acts + [a])[..|acts|] == acts;
  }

  lemma CountPairSnoc(acts: seq<Action>, a: Action, cl: ClientId, id: CampaignId, k: ActionKind)
    ensures CountPair(acts + [a], cl, id, k) == CountPair(acts, cl, id, k) + (if IsAction(a, cl, id, k) then 1 else 0)
  {
    assert (acts + [a])[..|acts|] == acts;
  }

  lemma HasSnoc(acts: seq<Action>, a: Action, cl: ClientId, id: CampaignId, k: ActionKind)
    ensures Has(acts + [a], cl, id, k) <==> Has(acts, cl, id, k) || IsAction(a, cl, id, k)
  {
    var t := acts + [a];
    if Has(acts, cl, id, k) {
      var i :| 0 <= i < |acts| && IsAction(acts[i], cl, id, k);
      assert t[i] == acts[i];
    }
    if IsAction(a, cl, id, k) {
      assert t[|acts|] == a;
    }
    if Has(t, cl, id, k) {
      var i :| 0 <= i < |t| && IsAction(t[i], cl, id, k);
      if i < |acts| {
        assert t[i] == acts[i];
      }
    }
  }

  // ---- counts versus existence ----

  /** A pair count is positive exactly when the ledger holds such an action. */
  lemma {:induction false} CountPairPositive(acts: seq<Action>, cl: ClientId, id: CampaignId, k: ActionKind)
    ensures CountPair(acts, cl, id, k) > 0 <==> Has(acts, cl, id, k)
    decreases |acts|
  {
    if acts != [] {
      var init, a := acts[..|acts| - 1], acts[|acts| - 1];
      CountPairPositive(init, cl, id, k);
      assert acts == init + [a];
      HasSnoc(init, a, cl, id, k);
    }
  }

  /** One client's actions on a campaign are among all actions on that campaign. */
  lemma {:induction false} CountPairAtMostCountOf(acts: seq<Action>, cl: ClientId, id: CampaignId, k: ActionKind)
    ensures CountPair(acts, cl, id, k) <= CountOf(acts, id, k)
    decreases |acts|
  {
    if acts != [] {
      CountPairAtMostCountOf(acts[..|acts| - 1], cl, id, k);
    }
  }

  /** A campaign no action refers to has no actions counted. */
  lemma {:induction false} CountOfUnreferenced(acts: seq<Action>, id: CampaignId, k: ActionKind)
    requires forall i | 0 <= i < |acts| :: acts[i].campaignId != id
    ensures CountOf(acts, id, k) == 0
    decreases |acts|
  {
    if acts != [] {
      CountOfUnreferenced(acts[..|acts| - 1], id, k);
    }
  }

  // ---- the client's history ----

  /** A campaign id is among the client's actions of kind `k` exactly when the ledger holds
      an action of kind `k` by that client on that campaign. */
  lemma {:induction false} ClientKindIds(acts: seq<Action>, cl: ClientId, id: CampaignId, k: ActionKind)
    ensures id in KindIds(ClientActions(acts, cl), k) <==> Has(acts, cl, id, k)
    decreases |acts|
  {
    if acts != [] {
      var init, a := acts[..|acts| - 1], acts[|acts| - 1];
      ClientKindIds(init, cl, id, k);
      assert Has(acts, cl, id, k) <==> Has(init, cl, id, k) || IsAction(a, cl, id, k) by {
        assert acts == init + [a];
        HasSnoc(init, a, cl, id, k);
      }
      var h := ClientActions(init, cl);
      if a.clientId == cl {
        assert ClientActions(acts, cl) == h + [a];
        assert KindIds(h + [a], k) == KindIds(h, k) + (if a.kind == k then {a.campaignId} else {}) by {
          assert (h + [a])[..|h|] == h;
        }
      } else {
        assert ClientActions(acts, cl) == h;
      }
    }
  }

  // ---- cascade deletion ----

  /** Deleting campaign `id`'s actions removes all of them and leaves every other
      campaign's counts and every other pair's history unchanged. */
  lemma {:induction false} WithoutCampaignEffect(acts: seq<Action>, id: CampaignId, cl: ClientId, other: CampaignId, k: ActionKind)
    ensures forall i | 0 <= i < |WithoutCampaign(acts, id)| :: WithoutCampaign(acts, id)[i] in acts && WithoutCampaign(acts, id)[i].campaignId != id
    ensures other != id ==> CountOf(WithoutCampaign(acts, id), other, k) == CountOf(acts, other, k)
    ensures other != id ==> CountPair(WithoutCampaign(acts, id), cl, other, k) == CountPair(acts, cl, other, k)
    ensures other != id ==> (Has(WithoutCampaign(acts, id), cl, other, k) <==> Has(acts, cl, other, k))
    ensures !Has(WithoutCampaign(acts, id), cl, id, k)
    ensures CountPair(WithoutCampaign(acts, id), cl, id, k) == 0
    decreases |acts|
  {
    var r := WithoutCampaign(acts, id);
    if acts != [] {
      var init, a := acts[..|acts| - 1], acts[|acts| - 1];
      var r0 := WithoutCampaign(init, id);
      WithoutCampaignEffect(init, id, cl, other, k);
      CountPairPositive(init, cl, other, k);
      CountPairPositive(r0, cl, other, k);
      CountPairPositive(r, cl, other, k);
      CountPairPositive(r0, cl, id, k);
      CountPairPositive(r, cl, id, k);
      CountPairPositive(acts, cl, other, k);
      if a.campaignId != id {
        assert r == r0 + [a];
        CountOfSnoc(r0, a, other, k);
        CountPairSnoc(r0, a, cl, other, k);
        CountPairSnoc(r0, a, cl, id, k);
        forall i | 0 <= i < |r| ensures r[i] in acts && r[i].campaignId != id {
          if i < |r0| {
            assert r[i] == r0[i];
          }
        }
      } else {
        assert r == r0;
        forall i | 0 <= i < |r| ensures r[i] in acts && r[i].campaignId != id {
          assert r[i] == r0[i] && r0[i] in init;
        }
      }
    }
  }
}
