/** The backend's persistent state as one in-memory store: the four tables, the ML-score
    table keyed by (client, advertiser), the append-only action ledger and the simulated
    day. `Inv` is the invariant every handler keeps; the lemmas below show that each kind
    of write keeps it. */
module Store {
  import opened Domain
  import opened Ledger

  datatype State = State(
    day: nat,
    clients: map<ClientId, Client>,
    advertisers: map<AdvertiserId, Advertiser>,
    campaigns: map<CampaignId, Campaign>,
    mlScores: map<(ClientId, AdvertiserId), int>,
    actions: seq<Action>)

  /** The state at start-up: empty tables and day 0. */
  const Initial := State(0, map[], map[], map[], map[], [])

  /** Caps and costs of a stored campaign are non-negative (the request bounds). */
  predicate StoredCampaignOk(c: Campaign) {
    c.impressionsLimit >= 0 && c.clicksLimit >= 0 && c.costPerImpression >= 0.0 && c.costPerClick >= 0.0
  }

  /** Each campaign is stored under its own id, belongs to an existing advertiser, keeps
      impressions within their cap, and has no traffic before its start day. */
  ghost predicate CampaignsWellFormed(s: State) {
    forall id | id in s.campaigns ::
      && s.campaigns[id].id == id
      && s.campaigns[id].advertiserId in s.advertisers
      && StoredCampaignOk(s.campaigns[id])
      && s.campaigns[id].impressions <= s.campaigns[id].impressionsLimit
      && (s.campaigns[id].startDate > s.day ==> s.campaigns[id].impressions == 0 && s.campaigns[id].clicks == 0)
  }

  /** The counters of every campaign equal the number of its actions in the ledger. */
  ghost predicate CountersMatchLedger(s: State) {
    forall id | id in s.campaigns ::
      s.campaigns[id].impressions == CountOf(s.actions, id, Impression) &&
      s.campaigns[id].clicks == CountOf(s.actions, id, Click)
  }

  /** Every action refers to a stored campaign and client, costs a non-negative amount and
      lies no later than the current day. */
  ghost predicate LedgerWellFormed(s: State) {
    forall i | 0 <= i < |s.actions| ::
      && s.actions[i].campaignId in s.campaigns
      && s.actions[i].clientId in s.clients
      && s.actions[i].cost >= 0.0
      && s.actions[i].day <= s.day
  }

  /** At most one impression and at most one click per (client, campaign). */
  ghost predicate PairsUnique(acts: seq<Action>) {
    forall cl, id, k :: CountPair(acts, cl, id, k) <= 1
  }

  /** A client has clicked a campaign only after an impression of it. */
  ghost predicate ClicksFollowImpressions(acts: seq<Action>) {
    forall cl, id :: Has(acts, cl, id, Click) ==> Has(acts, cl, id, Impression)
  }

  /** No two stored clients share a login, so the login lookup finds at most one row. */
  ghost predicate UniqueLogins(clients: map<ClientId, Client>) {
    forall a, b | a in clients && b in clients && a != b :: clients[a].login != clients[b].login
  }

  /** Every ML score belongs to a stored client and advertiser and is non-negative. */
  ghost predicate ScoresWellFormed(s: State) {
    forall p | p in s.mlScores :: p.0 in s.clients && p.1 in s.advertisers && s.mlScores[p] >= 0
  }

  ghost predicate Inv(s: State) {
    && CampaignsWellFormed(s)
    && CountersMatchLedger(s)
    && LedgerWellFormed(s)
    && PairsUnique(s.actions)
    && ClicksFollowImpressions(s.actions)
    && UniqueLogins(s.clients)
    && ScoresWellFormed(s)
  }

  // ---- the billing writes ----

  /** Serving a new impression: the campaign's impression counter goes up by one and one
      impression action, costed at the campaign's current cost per impression, is appended
      on the current day. */
  function AddImpression(s: State, cl: ClientId, id: CampaignId): State
    requires id in s.campaigns
  {
    var c := s.campaigns[id];
    s.(campaigns := s.campaigns[id := c.(impressions := c.impressions + 1)],
       actions := s.actions + [Action(cl, id, c.costPerImpression, Impression, s.day)])
  }

  /** Confirming a click: the click counter goes up by one and one click action, costed at
      the current cost per click, is appended on the current day. */
  function AddClick(s: State, cl: ClientId, id: CampaignId): State
    requires id in s.campaigns
  {
    var c := s.campaigns[id];
    s.(campaigns := s.campaigns[id := c.(clicks := c.clicks + 1)],
       actions := s.actions + [Action(cl, id, c.costPerClick, Click, s.day)])
  }

  /** Appending an action whose (client, campaign, kind) is new keeps one action per pair. */
  lemma SnocKeepsPairsUnique(acts: seq<Action>, a: Action)
    requires PairsUnique(acts) && !Has(acts, a.clientId, a.campaignId, a.kind)
    ensures PairsUnique(acts + [a])
  {
    CountPairPositive(acts, a.clientId, a.campaignId, a.kind);
    forall cl, id, k ensures CountPair(acts + [a], cl, id, k) <= 1 {
      CountPairSnoc(acts, a, cl, id, k);
    }
  }

  /** Appending an impression, or a click that follows an impression of the same pair,
      keeps clicks after impressions. */
  lemma SnocKeepsClicksFollow(acts: seq<Action>, a: Action)
    requires ClicksFollowImpressions(acts)
    requires a.kind == Click ==> Has(acts, a.clientId, a.campaignId, Impression)
    ensures ClicksFollowImpressions(acts + [a])
  {
    forall cl, id | Has(acts + [a], cl, id, Click) ensures Has(acts + [a], cl, id, Impression) {
      HasSnoc(acts, a, cl, id, Click);
      HasSnoc(acts, a, cl, id, Impression);
    }
  }

  /** Appending an action of a stored campaign and client, with a non-negative cost, on the
      current day keeps the ledger well formed. */
  lemma SnocKeepsLedgerWellFormed(s: State, t: State, a: Action)
    requires LedgerWellFormed(s)
    requires t.actions == s.actions + [a] && t.day == s.day
    requires s.campaigns.Keys <= t.campaigns.Keys && s.clients == t.clients
    requires a.campaignId in t.campaigns && a.clientId in t.clients && a.cost >= 0.0 && a.day <= t.day
    ensures LedgerWellFormed(t)
  {
    forall i | 0 <= i < |t.actions|
      ensures t.actions[i].campaignId in t.campaigns && t.actions[i].clientId in t.clients
      ensures t.actions[i].cost >= 0.0 && t.actions[i].day <= t.day
    {
      if i < |s.actions| {
        assert t.actions[i] == s.actions[i];
      }
    }
  }

  /** Bumping one counter of campaign `id` together with appending one action of that kind
      keeps every counter equal to its ledger count. */
  lemma SnocKeepsCounters(s: State, t: State, a: Action)
    requires CountersMatchLedger(s)
    requires t.actions == s.actions + [a] && a.campaignId in s.campaigns
    requires t.campaigns.Keys == s.campaigns.Keys
    requires forall id | id in s.campaigns && id != a.campaignId :: t.campaigns[id] == s.campaigns[id]
    requires t.campaigns[a.campaignId].impressions ==
               s.campaigns[a.campaignId].impressions + (if a.kind == Impression then 1 else 0)
    requires t.campaigns[a.campaignId].clicks ==
               s.campaigns[a.campaignId].clicks + (if a.kind == Click then 1 else 0)
    ensures CountersMatchLedger(t)
  {
    forall id | id in t.campaigns
      ensures t.campaigns[id].impressions == CountOf(t.actions, id, Impression)
      ensures t.campaigns[id].clicks == CountOf(t.actions, id, Click)
    {
      CountOfSnoc(s.actions, a, id, Impression);
      CountOfSnoc(s.actions, a, id, Click);
    }
  }

  /** Replacing one well-formed campaign and the ledger keeps every campaign well formed. */
  lemma PutCampaignKeepsWellFormed(s: State, c: Campaign, acts: seq<Action>)
    requires CampaignsWellFormed(s) && c.advertiserId in s.advertisers && StoredCampaignOk(c)
    requires c.impressions <= c.impressionsLimit
    requires c.startDate > s.day ==> c.impressions == 0 && c.clicks == 0
    ensures CampaignsWellFormed(s.(campaigns := s.campaigns[c.id := c], actions := acts))
  {
  }

  /** A client's first impression of a campaign under its cap, on or after its start day,
      keeps the invariant: in particular the cap, one impression per pair, and counters
      equal to ledger counts. */
  lemma AddImpressionKeepsInv(s: State, cl: ClientId, id: CampaignId)
    requires Inv(s)
    requires cl in s.clients && id in s.campaigns
    requires s.campaigns[id].impressions < s.campaigns[id].impressionsLimit
    requires s.campaigns[id].startDate <= s.day
    requires !Has(s.actions, cl, id, Impression)
    ensures Inv(AddImpression(s, cl, id))
  {
    var t := AddImpression(s, cl, id);
    var a := Action(cl, id, s.campaigns[id].costPerImpression, Impression, s.day);
    PutCampaignKeepsWellFormed(s, t.campaigns[id], t.actions);
    SnocKeepsCounters(s, t, a);
    SnocKeepsLedgerWellFormed(s, t, a);
    SnocKeepsPairsUnique(s.actions, a);
    SnocKeepsClicksFollow(s.actions, a);
  }

  /** A first click by a client who has seen the campaign keeps the invariant (the click
      cap is not part of it: nothing checks it on this path). */
  lemma AddClickKeepsInv(s: State, cl: ClientId, id: CampaignId)
    requires Inv(s)
    requires cl in s.clients && id in s.campaigns
    requires Has(s.actions, cl, id, Impression)
    requires !Has(s.actions, cl, id, Click)
    ensures Inv(AddClick(s, cl, id))
  {
    var t := AddClick(s, cl, id);
    var a := Action(cl, id, s.campaigns[id].costPerClick, Click, s.day);
    CountPairPositive(s.actions, cl, id, Impression);
    CountPairAtMostCountOf(s.actions, cl, id, Impression);
    assert s.campaigns[id].startDate <= s.day;
    PutCampaignKeepsWellFormed(s, t.campaigns[id], t.actions);
    SnocKeepsCounters(s, t, a);
    SnocKeepsLedgerWellFormed(s, t, a);
    SnocKeepsPairsUnique(s.actions, a);
    SnocKeepsClicksFollow(s.actions, a);
  }

  // ---- the other writes ----

  /** Moving the day forward keeps the invariant. */
  lemma AdvanceKeepsInv(s: State, d: nat)
    requires Inv(s) && s.day <= d
    ensures Inv(s.(day := d))
  {
  }

  /** Storing a new campaign with zero counters under a fresh id keeps the invariant. */
  lemma InsertCampaignKeepsInv(s: State, c: Campaign)
    requires Inv(s)
    requires c.id !in s.campaigns && c.advertiserId in s.advertisers
    requires StoredCampaignOk(c) && c.impressions == 0 && c.clicks == 0
    ensures Inv(s.(campaigns := s.campaigns[c.id := c]))
  {
    CountOfUnreferenced(s.actions, c.id, Impression);
    CountOfUnreferenced(s.actions, c.id, Click);
  }

  /** Replacing a campaign keeps the invariant when the counters and owner stay, and a
      campaign that has started keeps its start day and impression cap. */
  lemma ReplaceCampaignKeepsInv(s: State, c: Campaign)
    requires Inv(s)
    requires c.id in s.campaigns && StoredCampaignOk(c)
    requires c.advertiserId == s.campaigns[c.id].advertiserId
    requires c.impressions == s.campaigns[c.id].impressions && c.clicks == s.campaigns[c.id].clicks
    requires s.campaigns[c.id].startDate <= s.day ==>
               c.startDate == s.campaigns[c.id].startDate && c.impressionsLimit == s.campaigns[c.id].impressionsLimit
    ensures Inv(s.(campaigns := s.campaigns[c.id := c]))
  {
  }

  /** Deleting a campaign together with its actions keeps the invariant. */
  lemma DeleteCampaignKeepsInv(s: State, id: CampaignId)
    requires Inv(s) && id in s.campaigns
    ensures Inv(s.(campaigns := s.campaigns - {id}, actions := WithoutCampaign(s.actions, id)))
  {
    var t := s.(campaigns := s.campaigns - {id}, actions := WithoutCampaign(s.actions, id));
    assert CountersMatchLedger(t) by {
      forall id' | id' in t.campaigns
        ensures t.campaigns[id'].impressions == CountOf(t.actions, id', Impression)
        ensures t.campaigns[id'].clicks == CountOf(t.actions, id', Click)
      {
        WithoutCampaignEffect(s.actions, id, 0, id', Impression);
        WithoutCampaignEffect(s.actions, id, 0, id', Click);
      }
    }
    WithoutCampaignEffect(s.actions, id, 0, 0, Impression);
    assert LedgerWellFormed(t) by {
      forall i | 0 <= i < |t.actions|
        ensures t.actions[i].campaignId in t.campaigns && t.actions[i].clientId in t.clients
        ensures t.actions[i].cost >= 0.0 && t.actions[i].day <= t.day
      {
        var j :| 0 <= j < |s.actions| && s.actions[j] == t.actions[i];
      }
    }
    WithoutCampaignKeepsPairs(s.actions, id);
  }

  /** Dropping a campaign's actions keeps one action per (client, campaign, kind) and
      keeps every click preceded by an impression. */
  lemma WithoutCampaignKeepsPairs(acts: seq<Action>, id: CampaignId)
    requires PairsUnique(acts) && ClicksFollowImpressions(acts)
    ensures PairsUnique(WithoutCampaign(acts, id)) && ClicksFollowImpressions(WithoutCampaign(acts, id))
  {
    var rest := WithoutCampaign(acts, id);
    forall cl, id', k ensures CountPair(rest, cl, id', k) <= 1 {
      WithoutCampaignEffect(acts, id, cl, id', k);
    }
    forall cl, id' | Has(rest, cl, id', Click) ensures Has(rest, cl, id', Impression) {
      WithoutCampaignEffect(acts, id, cl, id', Click);
      WithoutCampaignEffect(acts, id, cl, id', Impression);
    }
  }

  /** Replacing the client table keeps the invariant when no client disappears and logins
      stay unique. */
  lemma ReplaceClientsKeepsInv(s: State, clients: map<ClientId, Client>)
    requires Inv(s) && s.clients.Keys <= clients.Keys && UniqueLogins(clients)
    ensures Inv(s.(clients := clients))
  {
  }

  /** Replacing the advertiser table keeps the invariant when no advertiser disappears. */
  lemma ReplaceAdvertisersKeepsInv(s: State, advertisers: map<AdvertiserId, Advertiser>)
    requires Inv(s) && s.advertisers.Keys <= advertisers.Keys
    ensures Inv(s.(advertisers := advertisers))
  {
  }

  /** Writing a non-negative score for a stored client and advertiser keeps the invariant. */
  lemma PutScoreKeepsInv(s: State, cl: ClientId, adv: AdvertiserId, score: int)
    requires Inv(s) && cl in s.clients && adv in s.advertisers && score >= 0
    ensures Inv(s.(mlScores := s.mlScores[(cl, adv) := score]))
  {
  }

  /** The store the handlers share (the database session and the day key together). */
  class Store {
    var day: nat
    var clients: map<ClientId, Client>
    var advertisers: map<AdvertiserId, Advertiser>
    var campaigns: map<CampaignId, Campaign>
    var mlScores: map<(ClientId, AdvertiserId), int>
    var actions: seq<Action>

    function Snapshot(): State
      reads this
    {
      State(day, clients, advertisers, campaigns, mlScores, actions)
    }

    ghost predicate Valid()
      reads this
    {
      Inv(Snapshot())
    }

    /** Start-up: empty tables, and the day key set to 0. */
    constructor ()
      ensures Valid() && Snapshot() == Initial
    {
      day := 0;
      clients := map[];
      advertisers := map[];
      campaigns := map[];
      mlScores := map[];
      actions := [];
    }
  }
}
