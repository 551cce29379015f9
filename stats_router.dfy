/** The clock and statistics endpoints: advancing the simulated day, and reporting totals
    and per-day tables for a campaign and for an advertiser. */
module StatsRouter {
  import opened Domain
  import opened Seqs
  import opened Ledger
  import opened Schemas
  import opened Store
  import opened Statistics

  /** Moves the day to `newDay`: a negative day is refused by the body schema, an earlier
      day by the handler; the same or a later day is stored and echoed back. */
  method SetNewDay(st: Store, newDay: int) returns (r: Result<int>)
    requires st.Valid()
    modifies st
    ensures st.Valid()
    ensures !ValidDateSetting(newDay) ==> r == Err(SchemaViolation)
    ensures ValidDateSetting(newDay) && newDay < old(st.day) ==> r == Err(InvalidTransition)
    ensures r.Ok? <==> 0 <= newDay && old(st.day) <= newDay
    ensures r.Ok? ==> r.value == newDay && st.Snapshot() == old(st.Snapshot()).(day := newDay)
    ensures r.Err? ==> st.Snapshot() == old(st.Snapshot())
  {
    if !ValidDateSetting(newDay) {
      return Err(SchemaViolation);
    }
    var currentDay := st.day;
    if newDay < currentDay {
      return Err(InvalidTransition);
    }
    AdvanceKeepsInv(st.Snapshot(), newDay);
    st.day := newDay;
    r := Ok(newDay);
  }

  /** A campaign's totals: spend summed by kind over its actions, counts from its
      counters. */
  method GetCampaignStats(st: Store, id: CampaignId) returns (r: Result<Stats>)
    ensures id !in st.campaigns ==> r == Err(NotFound)
    ensures id in st.campaigns ==> r == Ok(CampaignStats(st.Snapshot(), id))
  {
    if id !in st.campaigns {
      return Err(NotFound);
    }
    var campaign := st.campaigns[id];
    var acts := CampaignActions(st.actions, id);
    var clicksCost := 0.0;
    var impressionsCost := 0.0;
    var i := 0;
    while i < |acts|
      invariant 0 <= i <= |acts|
      invariant clicksCost == TallyOf(acts[..i]).spentClicks
      invariant impressionsCost == TallyOf(acts[..i]).spentImpressions
    {
      var a := acts[i];
      if a.kind == Click {
        clicksCost := clicksCost + a.cost;
      } else {
        impressionsCost := impressionsCost + a.cost;
      }
      assert acts[..i + 1][..i] == acts[..i];
      i := i + 1;
    }
    assert acts[..i] == acts;
    var conversion := Conversion(campaign.clicks, campaign.impressions);
    r := Ok(Stats(campaign.impressions, campaign.clicks, conversion,
                  impressionsCost, clicksCost, impressionsCost + clicksCost));
  }

  /** The per-day dictionary after the actions `acts`: its keys in insertion order, and for
      each day the counts and spend of that day's actions. */
  ghost predicate DailyIndex(daily: map<nat, Tally>, order: seq<nat>, acts: seq<Action>) {
    && order == Keys(acts, ByDay)
    && (forall d :: d in daily <==> d in order)
    && (forall d | d in daily :: daily[d] == TallyOf(Group(acts, ByDay, d)))
  }

  /** Adds one action to the per-day dictionary, creating its day's entry at zero first. */
  method AddToDaily(daily: map<nat, Tally>, order: seq<nat>, a: Action, ghost acts: seq<Action>)
    returns (daily': map<nat, Tally>, order': seq<nat>)
    requires DailyIndex(daily, order, acts)
    ensures DailyIndex(daily', order', acts + [a])
  {
    daily', order' := daily, order;
    assert (acts + [a])[..|acts|] == acts;
    if a.day !in daily' {
      GroupOfUnlisted(acts, ByDay, a.day);
      daily' := daily'[a.day := Zero];
      order' := order' + [a.day];
    }
    var e := daily'[a.day];
    assert e == TallyOf(Group(acts, ByDay, a.day));
    if a.kind == Click {
      daily' := daily'[a.day := e.(spentClicks := e.spentClicks + a.cost, clicks := e.clicks + 1)];
    } else {
      daily' := daily'[a.day := e.(spentImpressions := e.spentImpressions + a.cost, impressions := e.impressions + 1)];
    }
    assert daily'[a.day] == Plus(e, Single(a));
    assert daily' == daily[a.day := Plus(TallyOf(Group(acts, ByDay, a.day)), Single(a))];
    DailyEntriesSnoc(daily, acts, a);
  }

  /** Adding an action's contribution to its own day's entry keeps every entry equal to
      the totals of that day's actions. */
  lemma DailyEntriesSnoc(daily: map<nat, Tally>, acts: seq<Action>, a: Action)
    requires forall d | d in daily :: daily[d] == TallyOf(Group(acts, ByDay, d))
    ensures var daily' := daily[a.day := Plus(TallyOf(Group(acts, ByDay, a.day)), Single(a))];
      forall d | d in daily' :: daily'[d] == TallyOf(Group(acts + [a], ByDay, d))
  {
    var daily' := daily[a.day := Plus(TallyOf(Group(acts, ByDay, a.day)), Single(a))];
    forall d | d in daily' ensures daily'[d] == TallyOf(Group(acts + [a], ByDay, d)) {
      GroupSnoc(acts, a, ByDay, d);
      if d == a.day {
        TallyOfSnoc(Group(acts, ByDay, d), a);
      } else {
        assert Group(acts + [a], ByDay, d) == Group(acts, ByDay, d);
      }
    }
  }

  /** Turns the per-day dictionary into its records, in insertion order, and sorts them by
      date. */
  method DailyResult(daily: map<nat, Tally>, order: seq<nat>, ghost acts: seq<Action>)
    returns (result: seq<DailyStats>)
    requires DailyIndex(daily, order, acts)
    ensures result == DailyTable(acts)
  {
    var list: seq<DailyStats> := [];
    var j := 0;
    while j < |order|
      invariant 0 <= j <= |order|
      invariant list == Records(acts, order[..j])
    {
      var day := order[j];
      assert day in order;
      var e := daily[day];
      var conversion := Conversion(e.clicks, e.impressions);
      var record := DailyStats(day, Stats(e.impressions, e.clicks, conversion,
                                          e.spentImpressions, e.spentClicks, e.spentImpressions + e.spentClicks));
      assert order[..j + 1][..j] == order[..j];
      list := list + [record];
      j := j + 1;
    }
    assert order[..j] == order;
    result := SortBy(list, DateKey);
  }

  /** A campaign's per-day table, from its actions. */
  method GetCampaignDailyStats(st: Store, id: CampaignId) returns (r: Result<seq<DailyStats>>)
    ensures id !in st.campaigns ==> r == Err(NotFound)
    ensures id in st.campaigns ==> r == Ok(DailyTable(CampaignActions(st.actions, id)))
  {
    if id !in st.campaigns {
      return Err(NotFound);
    }
    var acts := CampaignActions(st.actions, id);
    var daily: map<nat, Tally> := map[];
    var order: seq<nat> := [];
    var i := 0;
    while i < |acts|
      invariant 0 <= i <= |acts|
      invariant DailyIndex(daily, order, acts[..i])
    {
      assert acts[..i + 1] == acts[..i] + [acts[i]];
      daily, order := AddToDaily(daily, order, acts[i], acts[..i]);
      i := i + 1;
    }
    assert acts[..i] == acts;
    var result := DailyResult(daily, order, acts);
    r := Ok(result);
  }

  /** An advertiser's totals: its campaigns, in the order the database lists them
      (`ids`), each contributing its counters and the spend of its actions. */
  method GetAdvertiserStats(st: Store, adv: AdvertiserId) returns (r: Result<Stats>, ghost ids: seq<CampaignId>)
    ensures adv !in st.advertisers ==> r == Err(NotFound)
    ensures adv in st.advertisers ==>
      && Enumerates(ids, AdvertiserCampaignIds(st.Snapshot(), adv))
      && r == Ok(StatsOf(AdvertiserTally(st.Snapshot(), ids)))
  {
    ids := [];
    if adv !in st.advertisers {
      return Err(NotFound), ids;
    }
    ghost var s := st.Snapshot();
    var campaignIds := Enumerate(AdvertiserCampaignIds(st.Snapshot(), adv));
    ids := campaignIds;
    var impressionsCount, clicksCount := 0, 0;
    var spentImpressions, spentClicks := 0.0, 0.0;
    var k := 0;
    while k < |campaignIds|
      invariant 0 <= k <= |campaignIds|
      invariant Tally(impressionsCount, clicksCount, spentImpressions, spentClicks) == AdvertiserTally(s, campaignIds[..k])
    {
      var campaign := st.campaigns[campaignIds[k]];
      var acts := CampaignActions(st.actions, campaignIds[k]);
      ghost var base := Tally(impressionsCount, clicksCount, spentImpressions, spentClicks);
      var i := 0;
      while i < |acts|
        invariant 0 <= i <= |acts|
        invariant Tally(impressionsCount, clicksCount, spentImpressions, spentClicks) ==
                  base.(spentImpressions := base.spentImpressions + TallyOf(acts[..i]).spentImpressions,
                        spentClicks := base.spentClicks + TallyOf(acts[..i]).spentClicks)
      {
        var a := acts[i];
        if a.kind == Click {
          spentClicks := spentClicks + a.cost;
        } else {
          spentImpressions := spentImpressions + a.cost;
        }
        assert acts[..i + 1][..i] == acts[..i];
        i := i + 1;
      }
      assert acts[..i] == acts;
      impressionsCount := impressionsCount + campaign.impressions;
      clicksCount := clicksCount + campaign.clicks;
      assert campaignIds[..k + 1][..k] == campaignIds[..k];
      k := k + 1;
    }
    assert campaignIds[..k] == campaignIds;
    var conversion := Conversion(clicksCount, impressionsCount);
    r := Ok(Stats(impressionsCount, clicksCount, conversion,
                  spentImpressions, spentClicks, spentImpressions + spentClicks));
  }

  /** Folds a run of actions into the day index, one action at a time. */
  method AddAllToDaily(daily: map<nat, Tally>, order: seq<nat>, acts: seq<Action>, ghost pooled: seq<Action>)
    returns (daily': map<nat, Tally>, order': seq<nat>)
    requires DailyIndex(daily, order, pooled)
    ensures DailyIndex(daily', order', pooled + acts)
  {
    daily', order' := daily, order;
    var i := 0;
    assert pooled + acts[..i] == pooled;
    while i < |acts|
      invariant 0 <= i <= |acts|
      invariant DailyIndex(daily', order', pooled + acts[..i])
    {
      assert pooled + acts[..i + 1] == (pooled + acts[..i]) + [acts[i]];
      daily', order' := AddToDaily(daily', order', acts[i], pooled + acts[..i]);
      i := i + 1;
    }
    assert acts[..i] == acts;
  }

  /** An advertiser's per-day table: the actions of its campaigns, campaign after campaign
      in the order the database lists them (`ids`), folded into one dictionary. */
  method GetAdvertiserDailyStats(st: Store, adv: AdvertiserId)
    returns (r: Result<seq<DailyStats>>, ghost ids: seq<CampaignId>)
    ensures adv !in st.advertisers ==> r == Err(NotFound)
    ensures adv in st.advertisers ==>
      && Enumerates(ids, AdvertiserCampaignIds(st.Snapshot(), adv))
      && r == Ok(DailyTable(Pool(st.actions, ids)))
  {
    ids := [];
    if adv !in st.advertisers {
      return Err(NotFound), ids;
    }
    var campaignIds := Enumerate(AdvertiserCampaignIds(st.Snapshot(), adv));
    ids := campaignIds;
    var daily: map<nat, Tally> := map[];
    var order: seq<nat> := [];
    var k := 0;
    while k < |campaignIds|
      invariant 0 <= k <= |campaignIds|
      invariant DailyIndex(daily, order, Pool(st.actions, campaignIds[..k]))
    {
      daily, order := AddAllToDaily(daily, order, CampaignActions(st.actions, campaignIds[k]),
                                    Pool(st.actions, campaignIds[..k]));
      assert campaignIds[..k + 1][..k] == campaignIds[..k];
      k := k + 1;
    }
    assert campaignIds[..k] == campaignIds;
    var result := DailyResult(daily, order, Pool(st.actions, campaignIds));
    r := Ok(result);
  }

  // ---- the advertiser statistics query as written ----

  /** The mapped entities an advertiser statistics query touches. */
  datatype Entity = AdvertiserRow | CampaignRow | ActionRow

  /** The relationships an eager-load option may name. */
  datatype Relationship = CampaignsOfAdvertiser | ActionsOfCampaign

  function Source(rel: Relationship): Entity {
    match rel
    case CampaignsOfAdvertiser => AdvertiserRow
    case ActionsOfCampaign => CampaignRow
  }

  function Target(rel: Relationship): Entity {
    match rel
    case CampaignsOfAdvertiser => CampaignRow
    case ActionsOfCampaign => ActionRow
  }

  /** The ORM accepts an eager-load path for a query over `root` when the path starts at
      `root` and each step starts where the previous one ended. */
  predicate PathFrom(root: Entity, path: seq<Relationship>) {
    && |path| > 0
    && Source(path[0]) == root
    && forall i :: 0 < i < |path| ==> Source(path[i]) == Target(path[i - 1])
  }

  /** Every eager-load option of a statement is accepted; otherwise building the statement
      raises before any row is read. */
  predicate OptionsApply(root: Entity, options: seq<seq<Relationship>>) {
    forall p | p in options :: PathFrom(root, p)
  }

  /** The two options both advertiser statistics handlers give: the campaigns of the
      advertiser, and separately the actions of a campaign. */
  const WrittenOptions: seq<seq<Relationship>> := [[CampaignsOfAdvertiser], [ActionsOfCampaign]]

  /** The options chained from the advertiser, as the loops over campaigns and their
      actions need. */
  const ChainedOptions: seq<seq<Relationship>> := [[CampaignsOfAdvertiser, ActionsOfCampaign]]

  /** The advertiser totals for the database listing `ids`, with the statement built from
      `options`: a server failure when the ORM refuses the options, else NotFound for an
      unknown advertiser, else the totals. */
  function AdvertiserStatsWith(options: seq<seq<Relationship>>, s: State, adv: AdvertiserId, ids: seq<CampaignId>)
    : Result<Stats>
    requires forall i | 0 <= i < |ids| :: ids[i] in s.campaigns
  {
    if !OptionsApply(AdvertiserRow, options) then Err(ServerFailure)
    else if adv !in s.advertisers then Err(NotFound)
    else Ok(StatsOf(AdvertiserTally(s, ids)))
  }

  /** The advertiser per-day table with the statement built from `options`. */
  function AdvertiserDailyStatsWith(options: seq<seq<Relationship>>, s: State, adv: AdvertiserId, ids: seq<CampaignId>)
    : Result<seq<DailyStats>>
  {
    if !OptionsApply(AdvertiserRow, options) then Err(ServerFailure)
    else if adv !in s.advertisers then Err(NotFound)
    else Ok(DailyTable(Pool(s.actions, ids)))
  }

  /** As written, the second option names a path that starts at the campaign, not at the
      queried advertiser, so both advertiser statistics requests fail with a server error
      whatever the advertiser, and never answer with the totals or the table. */
  lemma AdvertiserStatsFailAsWritten(s: State, adv: AdvertiserId, ids: seq<CampaignId>)
    requires forall i | 0 <= i < |ids| :: ids[i] in s.campaigns
    ensures AdvertiserStatsWith(WrittenOptions, s, adv, ids) == Err(ServerFailure)
    ensures AdvertiserDailyStatsWith(WrittenOptions, s, adv, ids) == Err(ServerFailure)
  {
    assert WrittenOptions[1] in WrittenOptions;
    assert !PathFrom(AdvertiserRow, WrittenOptions[1]);
  }

  /** With the options chained from the advertiser, the statement is accepted and the two
      requests give what `GetAdvertiserStats` and `GetAdvertiserDailyStats` promise. */
  lemma ChainedOptionsGiveModelledStats(s: State, adv: AdvertiserId, ids: seq<CampaignId>)
    requires forall i | 0 <= i < |ids| :: ids[i] in s.campaigns
    ensures AdvertiserStatsWith(ChainedOptions, s, adv, ids) ==
              if adv in s.advertisers then Ok(StatsOf(AdvertiserTally(s, ids))) else Err(NotFound)
    ensures AdvertiserDailyStatsWith(ChainedOptions, s, adv, ids) ==
              if adv in s.advertisers then Ok(DailyTable(Pool(s.actions, ids))) else Err(NotFound)
  {
    forall p | p in ChainedOptions
      ensures PathFrom(AdvertiserRow, p)
    {
      assert p == [CampaignsOfAdvertiser, ActionsOfCampaign];
    }
  }
}
