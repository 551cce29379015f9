/** The two ad endpoints over the store: serving an ad to a client (and billing a new
    impression) and confirming a click (and billing it). */
module AdsRouter {
  import opened Domain
  import opened Seqs
  import opened Ledger
  import opened Store
  import opened AdsEngine

  /** Splits eligible campaigns into the new-impression, new-click and repeat buckets:
      first the ids the client has seen and clicked are collected from the client's
      actions, then every campaign goes to the first bucket whose rule it meets. */
  method FilterCampaigns(rows: seq<Campaign>, history: seq<Action>)
    returns (canImpression: seq<Campaign>, canClick: seq<Campaign>, showAgain: seq<Campaign>)
    ensures canImpression == Bucket(rows, KindIds(history, Impression), KindIds(history, Click), NewImpression)
    ensures canClick == Bucket(rows, KindIds(history, Impression), KindIds(history, Click), NewClick)
    ensures showAgain == Bucket(rows, KindIds(history, Impression), KindIds(history, Click), RepeatExposure)
  {
    var seen: set<CampaignId> := {};
    var clicked: set<CampaignId> := {};
    var i := 0;
    while i < |history|
      invariant 0 <= i <= |history|
      invariant seen == KindIds(history[..i], Impression)
      invariant clicked == KindIds(history[..i], Click)
    {
      var a := history[i];
      if a.kind == Impression {
        seen := seen + {a.campaignId};
      }
      if a.kind == Click {
        clicked := clicked + {a.campaignId};
      }
      assert history[..i + 1][..i] == history[..i];
      i := i + 1;
    }
    assert history[..i] == history;

    canImpression, canClick, showAgain := [], [], [];
    var j := 0;
    while j < |rows|
      invariant 0 <= j <= |rows|
      invariant canImpression == Bucket(rows[..j], seen, clicked, NewImpression)
      invariant canClick == Bucket(rows[..j], seen, clicked, NewClick)
      invariant showAgain == Bucket(rows[..j], seen, clicked, RepeatExposure)
    {
      var c := rows[j];
      var impressioned := c.id in seen;
      var isClicked := c.id in clicked;
      if c.impressions < c.impressionsLimit && c.clicks < c.clicksLimit && !impressioned {
        canImpression := canImpression + [c];
      } else if c.clicks < c.clicksLimit && !isClicked {
        canClick := canClick + [c];
      } else if isClicked {
        showAgain := showAgain + [c];
      }
      assert rows[..j + 1][..j] == rows[..j];
      j := j + 1;
    }
    assert rows[..j] == rows;
  }

  /** Scores every candidate (a running maximum of profit and relevance, then the blend
      of both normalised values) and sorts by descending score. */
  method CalcCombinedScores(cands: seq<Campaign>, scores: map<(ClientId, AdvertiserId), int>, cl: ClientId)
    returns (ranked: seq<Scored>)
    ensures ranked == Ranked(cands, scores, cl)
  {
    var maxMl := 0;
    var maxProfit := 0.0;
    var profits: seq<real> := [];
    var mls: seq<int> := [];
    var i := 0;
    while i < |cands|
      invariant 0 <= i <= |cands|
      invariant |profits| == i && |mls| == i
      invariant forall j | 0 <= j < i :: profits[j] == Profit(cands[j])
      invariant forall j | 0 <= j < i :: mls[j] == MlFor(scores, cl, cands[j])
      invariant maxProfit == MaxProfit(cands[..i])
      invariant maxMl == MaxMl(cands[..i], scores, cl)
    {
      var c := cands[i];
      var profit := Profit(c);
      var ml := MlOf(scores, cl, c.advertiserId);
      profits := profits + [profit];
      mls := mls + [ml];
      maxMl := if maxMl < ml then ml else maxMl;
      maxProfit := if maxProfit < profit then profit else maxProfit;
      assert cands[..i + 1][..i] == cands[..i];
      i := i + 1;
    }
    assert cands[..i] == cands;

    ghost var all := ScoredAll(cands, scores, cl);
    var data: seq<Scored> := [];
    i := 0;
    while i < |cands|
      invariant 0 <= i <= |cands|
      invariant data == all[..i]
    {
      var normalizedMl := Normalized(mls[i] as real, maxMl as real);
      var normalizedProfit := Normalized(profits[i], maxProfit);
      var item := Scored(cands[i], Alpha * normalizedProfit + Beta * normalizedMl);
      assert all[i] == item;
      data := data + [item];
      assert all[..i + 1] == all[..i] + [all[i]];
      i := i + 1;
    }
    assert data == all;
    ranked := SortBy(data, NegScore);
  }

  /** Serves an ad to client `cl`. The campaigns table comes back in an order the service
      does not choose (`rows`); the outcome is the selection for that order. Only a new
      impression changes the store: its counter and one ledger row. */
  method GetAdForClient(st: Store, cl: ClientId) returns (r: Result<Ad>, ghost rows: seq<Campaign>)
    requires st.Valid()
    modifies st
    ensures st.Valid()
    ensures cl !in old(st.clients) ==> r == Err(NotFound) && st.Snapshot() == old(st.Snapshot())
    ensures cl in old(st.clients) ==>
      && Enumerates(rows, old(st.campaigns).Values)
      && Outcome(old(st.Snapshot()), cl, Select(old(st.Snapshot()), cl, rows), r, st.Snapshot())
  {
    rows := [];
    if cl !in st.clients {
      return Err(NotFound), rows;
    }
    ghost var s := st.Snapshot();
    var client := st.clients[cl];
    var day := st.day;
    var all := Enumerate(st.campaigns.Values);
    rows := all;
    EnumeratedRowsAreStored(s, all);
    var ok := EligibleCampaigns(day, all, client);
    if ok == [] {
      return Err(NoInventory), rows;
    }
    r := ServeAmong(st, cl, ok);
  }

  /** How a served request ends for a selection: a billed impression returns the ad and
      records the impression; a click offer or a repeat returns an ad and changes nothing;
      no selection is an error. */
  ghost predicate Outcome(s: State, cl: ClientId, sel: Selection, r: Result<Ad>, after: State) {
    match sel
    case Bill(c) => r == Ok(AdOf(c)) && c.id in s.campaigns && after == AddImpression(s, cl, c.id)
    case Show(c) => r == Ok(AdOf(c)) && after == s
    case Repeat(pool) => (exists c | c in pool :: r == Ok(AdOf(c))) && after == s
    case NoAd => r == Err(NoInventory) && after == s
  }

  /** The part of serving after the eligible campaigns are known: bucket them, score the
      first non-empty scored bucket and take its top, or pick any campaign to repeat. */
  method ServeAmong(st: Store, cl: ClientId, eligible: seq<Campaign>) returns (r: Result<Ad>)
    requires st.Valid() && cl in st.clients
    requires forall x | x in eligible :: x.id in st.campaigns && st.campaigns[x.id] == x
    requires forall x | x in eligible :: Eligible(st.day, x, st.clients[cl])
    modifies st
    ensures st.Valid()
    ensures Outcome(old(st.Snapshot()), cl, SelectAmong(old(st.Snapshot()), cl, eligible), r, st.Snapshot())
  {
    ghost var s := st.Snapshot();
    var day := st.day;
    var canImpression, canClick, showAgain := FilterCampaigns(eligible, ClientActions(st.actions, cl));
    assert canImpression == Bucket(eligible, SeenIds(s, cl), ClickedIds(s, cl), NewImpression);
    assert canClick == Bucket(eligible, SeenIds(s, cl), ClickedIds(s, cl), NewClick);
    assert showAgain == Bucket(eligible, SeenIds(s, cl), ClickedIds(s, cl), RepeatExposure);
    if canImpression != [] {
      var ranked := CalcCombinedScores(canImpression, st.mlScores, cl);
      var c := ranked[0].campaign;
      TopIsFirstBest(canImpression, st.mlScores, cl);
      assert c in eligible;
      SeenAndClickedFromLedger(s, cl, c.id);
      RecordImpression(st, cl, c);
      r := Ok(AdOf(c));
    } else if canClick != [] {
      var ranked := CalcCombinedScores(canClick, st.mlScores, cl);
      r := Ok(AdOf(ranked[0].campaign));
    } else if showAgain != [] {
      assert showAgain[0] in showAgain;
      var c :| c in showAgain;
      r := Ok(AdOf(c));
    } else {
      r := Err(NoInventory);
    }
  }

  /** Bills a first impression of campaign `c` to client `cl`: the impression counter goes
      up by one and the impression is appended to the ledger. */
  method RecordImpression(st: Store, cl: ClientId, c: Campaign)
    requires st.Valid() && cl in st.clients && c.id in st.campaigns && st.campaigns[c.id] == c
    requires c.impressions < c.impressionsLimit && c.startDate <= st.day
    requires !Has(st.actions, cl, c.id, Impression)
    modifies st
    ensures st.Valid()
    ensures st.Snapshot() == AddImpression(old(st.Snapshot()), cl, c.id)
  {
    ghost var s := st.Snapshot();
    AddImpressionKeepsInv(s, cl, c.id);
    st.campaigns := st.campaigns[c.id := c.(impressions := c.impressions + 1)];
    st.actions := st.actions + [Action(cl, c.id, c.costPerImpression, Impression, st.day)];
    assert st.Snapshot() == AddImpression(s, cl, c.id);
  }

  /** Confirms that client `cl` clicked ad `adId`. The click must follow an impression; a
      repeated confirmation changes nothing; the click cap is not consulted. */
  method SetEdClick(st: Store, adId: CampaignId, cl: ClientId) returns (r: Result<()>)
    requires st.Valid()
    modifies st
    ensures st.Valid()
    ensures r.Ok? <==> adId in old(st.campaigns) && cl in old(st.clients) && Has(old(st.actions), cl, adId, Impression)
    ensures adId !in old(st.campaigns) || cl !in old(st.clients) ==> r == Err(NotFound)
    ensures adId in old(st.campaigns) && cl in old(st.clients) && !Has(old(st.actions), cl, adId, Impression) ==>
              r == Err(PrecursorMissing)
    ensures if r.Ok? && !Has(old(st.actions), cl, adId, Click)
            then adId in old(st.campaigns) && st.Snapshot() == AddClick(old(st.Snapshot()), cl, adId)
            else st.Snapshot() == old(st.Snapshot())
  {
    ghost var s := st.Snapshot();
    if adId !in st.campaigns {
      return Err(NotFound);
    }
    var campaign := st.campaigns[adId];
    if cl !in st.clients {
      return Err(NotFound);
    }
    var day := st.day;
    var impressioned := Has(st.actions, cl, adId, Impression);
    if !impressioned {
      return Err(PrecursorMissing);
    }
    var clicked := Has(st.actions, cl, adId, Click);
    if !clicked {
      AddClickKeepsInv(s, cl, adId);
      st.campaigns := st.campaigns[adId := campaign.(clicks := campaign.clicks + 1)];
      st.actions := st.actions + [Action(cl, adId, campaign.costPerClick, Click, day)];
      assert st.Snapshot() == AddClick(s, cl, adId);
    }
    r := Ok(());
  }

  /** After a confirmed click the ledger holds exactly one click for the pair, so a second
      confirmation is a no-op and the pair is billed once. */
  lemma ClickRecordedOnce(s: State, cl: ClientId, id: CampaignId)
    requires Inv(s) && cl in s.clients && id in s.campaigns
    requires Has(s.actions, cl, id, Impression) && !Has(s.actions, cl, id, Click)
    ensures Has(AddClick(s, cl, id).actions, cl, id, Click)
    ensures CountPair(AddClick(s, cl, id).actions, cl, id, Click) == 1
  {
    var a := Action(cl, id, s.campaigns[id].costPerClick, Click, s.day);
    HasSnoc(s.actions, a, cl, id, Click);
    CountPairSnoc(s.actions, a, cl, id, Click);
    CountPairPositive(s.actions, cl, id, Click);
  }

  /** Confirmation does not check the click cap: in a valid store where a campaign is at
      its click cap and a client has seen but not clicked it, confirming bills the click
      and takes the counter past the cap. */
  lemma ConfirmationIgnoresClickCap(s: State, cl: ClientId, id: CampaignId)
    requires Inv(s) && cl in s.clients && id in s.campaigns
    requires Has(s.actions, cl, id, Impression) && !Has(s.actions, cl, id, Click)
    requires s.campaigns[id].clicks >= s.campaigns[id].clicksLimit
    ensures Inv(AddClick(s, cl, id))
    ensures AddClick(s, cl, id).campaigns[id].clicks > AddClick(s, cl, id).campaigns[id].clicksLimit
  {
    AddClickKeepsInv(s, cl, id);
  }
}
