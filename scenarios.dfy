/** The serve-then-click flow end to end: a campaign with no traffic is shown to a client
    once and clicked once, and its statistics then report one impression, one click and
    the two prices as spend. */
module Scenarios {
  import opened Domain
  import opened Ledger
  import opened Schemas
  import opened Store
  import opened Statistics

  /** A campaign without actions has zero counters and has been neither seen nor clicked
      by any client. */
  lemma NoTrafficYet(s: State, cl: ClientId, id: CampaignId)
    requires Inv(s) && id in s.campaigns && CampaignActions(s.actions, id) == []
    ensures s.campaigns[id].impressions == 0 && s.campaigns[id].clicks == 0
    ensures !Has(s.actions, cl, id, Impression) && !Has(s.actions, cl, id, Click)
  {
    CampaignActionsTally(s.actions, id);
    assert CountersMatchLedger(s);
    CountPairAtMostCountOf(s.actions, cl, id, Impression);
    CountPairPositive(s.actions, cl, id, Impression);
    CountPairAtMostCountOf(s.actions, cl, id, Click);
    CountPairPositive(s.actions, cl, id, Click);
  }

  /** Appending one impression and one click of a campaign without actions leaves the
      campaign with exactly those two actions, which total one of each kind. */
  lemma TwoActionsOnly(acts: seq<Action>, imp: Action, click: Action, id: CampaignId)
    requires CampaignActions(acts, id) == [] && imp.campaignId == id && click.campaignId == id
    requires imp.kind == Impression && click.kind == Click
    ensures CampaignActions(acts + [imp] + [click], id) == [imp, click]
    ensures TallyOf([imp, click]) == Tally(1, 1, imp.cost, click.cost)
  {
    assert (acts + [imp])[..|acts|] == acts;
    assert (acts + [imp] + [click])[..|acts| + 1] == acts + [imp];
    TallyOfSnoc([], imp);
    TallyOfSnoc([imp], click);
    assert [] + [imp] == [imp] && [imp] + [click] == [imp, click];
  }

  /** Serving a campaign without actions to a client: the store stays valid, the client
      has now seen it and not clicked it, and the campaign's only action is the
      impression. */
  lemma ServedOnce(s: State, cl: ClientId, id: CampaignId)
    requires Inv(s) && cl in s.clients && id in s.campaigns && CampaignActions(s.actions, id) == []
    requires s.campaigns[id].startDate <= s.day && s.campaigns[id].impressionsLimit > 0
    ensures Inv(AddImpression(s, cl, id))
    ensures Has(AddImpression(s, cl, id).actions, cl, id, Impression)
    ensures !Has(AddImpression(s, cl, id).actions, cl, id, Click)
  {
    var c := s.campaigns[id];
    NoTrafficYet(s, cl, id);
    AddImpressionKeepsInv(s, cl, id);
    var imp := Action(cl, id, c.costPerImpression, Impression, s.day);
    HasSnoc(s.actions, imp, cl, id, Impression);
    HasSnoc(s.actions, imp, cl, id, Click);
  }

  /** A campaign that has started, has a positive impression cap and no actions yet is
      served to a client and then clicked: the click is accepted (see `ServedOnce`), the
      store stays valid, and the campaign's statistics are exactly one impression and one
      click at the campaign's prices. */
  lemma ServeThenClick(s: State, cl: ClientId, id: CampaignId)
    requires Inv(s) && cl in s.clients && id in s.campaigns && CampaignActions(s.actions, id) == []
    requires s.campaigns[id].startDate <= s.day && s.campaigns[id].impressionsLimit > 0
    ensures Inv(AddClick(AddImpression(s, cl, id), cl, id))
    ensures var c := s.campaigns[id];
      CampaignStats(AddClick(AddImpression(s, cl, id), cl, id), id)
        == Stats(1, 1, 1.0, c.costPerImpression, c.costPerClick, c.costPerImpression + c.costPerClick)
  {
    NoTrafficYet(s, cl, id);
    ServedOnce(s, cl, id);
    AddClickKeepsInv(AddImpression(s, cl, id), cl, id);
    ServeThenClickStats(s, cl, id);
  }

  /** The statistics after one impression and one click of a campaign without traffic. */
  lemma ServeThenClickStats(s: State, cl: ClientId, id: CampaignId)
    requires id in s.campaigns && CampaignActions(s.actions, id) == []
    requires s.campaigns[id].impressions == 0 && s.campaigns[id].clicks == 0
    ensures var c := s.campaigns[id];
      CampaignStats(AddClick(AddImpression(s, cl, id), cl, id), id)
        == Stats(1, 1, 1.0, c.costPerImpression, c.costPerClick, c.costPerImpression + c.costPerClick)
  {
    var c := s.campaigns[id];
    var u := AddClick(AddImpression(s, cl, id), cl, id);
    var imp := Action(cl, id, c.costPerImpression, Impression, s.day);
    var click := Action(cl, id, c.costPerClick, Click, s.day);
    TwoActionsOnly(s.actions, imp, click, id);
    assert u.actions == s.actions + [imp] + [click];
    assert u.campaigns[id] == c.(impressions := 1, clicks := 1);
    assert CampaignTally(u, id) == Tally(1, 1, c.costPerImpression, c.costPerClick);
    OneOfEach(c.costPerImpression, c.costPerClick);
  }

  /** One impression and one click convert at exactly 1. */
  lemma OneOfEach(impressionCost: real, clickCost: real)
    ensures StatsOf(Tally(1, 1, impressionCost, clickCost)) == Stats(1, 1, 1.0, impressionCost, clickCost, impressionCost + clickCost)
  {
    assert Conversion(1, 1) * 1.0 == 1.0;
  }
}
