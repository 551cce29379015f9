/** The ad engine's rules as functions: which campaigns a client may be shown on a day,
    how a client's history splits them into exposure buckets, how a bucket is scored and
    ranked, and which campaign an ad request selects. */
module AdsEngine {
  import opened Domain
  import opened Seqs
  import opened Ledger
  import opened Schemas
  import opened Store

  // ---- eligibility ----

  /** A gender target of MALE or FEMALE admits that gender only; no target, or the value
      that is neither, admits every client. */
  predicate GenderMatches(target: Option<GenderAll>, g: Gender) {
    match target
    case Some(Only(x)) => x == g
    case _ => true
  }

  /** Every targeting field is either absent or matched: the age bounds inclusively, the
      location by exact equality. */
  predicate TargetingMatches(t: Targeting, c: Client) {
    && GenderMatches(t.gender, c.gender)
    && (t.ageFrom.None? || t.ageFrom.value <= c.age)
    && (t.ageTo.None? || t.ageTo.value >= c.age)
    && (t.location.None? || t.location.value == c.location)
  }

  /** A campaign may be shown on `day` when the day lies in its window, both ends included,
      and its targeting admits the client. */
  predicate Eligible(day: int, camp: Campaign, c: Client) {
    camp.startDate <= day <= camp.endDate && TargetingMatches(camp.targeting, c)
  }

  /** The rows the ad query returns, in the order the rows come. */
  function EligibleCampaigns(day: int, rows: seq<Campaign>, c: Client): (r: seq<Campaign>)
    ensures forall x :: x in r <==> x in rows && Eligible(day, x, c)
  {
    Filter(rows, camp => Eligible(day, camp, c))
  }

  /** Some targeting key is stored as null; the create handler writes null for every key
      the request leaves out. */
  predicate HasNullKey(t: Targeting) {
    t.gender.None? || t.ageFrom.None? || t.ageTo.None? || t.location.None?
  }

  /** A key left null imposes no condition: a targeting with every key null admits every
      client, and clearing a key never turns a client away. */
  lemma NullKeyImposesNothing(t: Targeting, c: Client)
    ensures TargetingMatches(Targeting(None, None, None, None), c)
    ensures TargetingMatches(t, c) ==>
              && TargetingMatches(t.(gender := None), c)
              && TargetingMatches(t.(ageFrom := None), c)
              && TargetingMatches(t.(ageTo := None), c)
              && TargetingMatches(t.(location := None), c)
  {
  }

  // ---- eligibility as the ad query is written ----

  /** The ad query as written. Its null arm tests the key's JSON value for SQL NULL, which a
      stored JSON null is not, and its other arm compares the key's text or integer, which
      a JSON null makes unknown: a null key admits no client. */
  predicate TargetingMatchesAsWritten(t: Targeting, c: Client) {
    && t.gender.Some? && GenderMatches(t.gender, c.gender)
    && t.ageFrom.Some? && t.ageFrom.value <= c.age
    && t.ageTo.Some? && t.ageTo.value >= c.age
    && t.location.Some? && t.location.value == c.location
  }

  predicate EligibleAsWritten(day: int, camp: Campaign, c: Client) {
    camp.startDate <= day <= camp.endDate && TargetingMatchesAsWritten(camp.targeting, c)
  }

  /** The rows the ad query as written returns, in the order the rows come. */
  function EligibleCampaignsAsWritten(day: int, rows: seq<Campaign>, c: Client): (r: seq<Campaign>)
    ensures forall x :: x in r <==> x in rows && EligibleAsWritten(day, x, c)
  {
    Filter(rows, camp => EligibleAsWritten(day, camp, c))
  }

  /** As written, no campaign stored with a null targeting key is ever returned. */
  lemma NullKeyNeverServedAsWritten(day: int, rows: seq<Campaign>, c: Client)
    ensures forall x | x in EligibleCampaignsAsWritten(day, rows, c) :: !HasNullKey(x.targeting)
  {
  }

  /** The written query admits a subset of the intended one, and the two agree on a
      targeting with every key set. */
  lemma AsWrittenAgreesOnFullTargeting(t: Targeting, c: Client)
    ensures TargetingMatchesAsWritten(t, c) ==> TargetingMatches(t, c)
    ensures !HasNullKey(t) ==> (TargetingMatchesAsWritten(t, c) <==> TargetingMatches(t, c))
  {
  }

  /** A campaign targeting only MALE, requested by a 25-year-old man in Moscow on a day in
      its window: intended to be served, dropped by the query as written. */
  lemma GenderOnlyCampaignDroppedAsWritten(camp: Campaign)
    requires camp.startDate <= 2 <= camp.endDate
    requires camp.targeting == Targeting(Some(Only(Male)), None, None, None)
    ensures var c := Client("client", 25, "Moscow", Male);
      && camp in EligibleCampaigns(2, [camp], c)
      && camp !in EligibleCampaignsAsWritten(2, [camp], c)
  {
    assert Eligible(2, camp, Client("client", 25, "Moscow", Male));
  }

  /** Since the age-range validator is never registered, a campaign may store age_from
      above age_to; such a campaign is shown to nobody. */
  lemma InvertedAgeRangeNeverMatches(t: Targeting, c: Client)
    requires ValidTargeting(t) && !AgeRangeOrdered(t)
    ensures !TargetingMatches(t, c)
  {
  }

  // ---- exposure buckets ----

  datatype Exposure = NewImpression | NewClick | RepeatExposure | Dropped

  /** The bucket of one eligible campaign, given the ids the client has seen and clicked,
      by the first rule that applies. */
  function Classify(c: Campaign, seen: set<CampaignId>, clicked: set<CampaignId>): Exposure {
    if c.impressions < c.impressionsLimit && c.clicks < c.clicksLimit && c.id !in seen then NewImpression
    else if c.clicks < c.clicksLimit && c.id !in clicked then NewClick
    else if c.id in clicked then RepeatExposure
    else Dropped
  }

  /** The campaigns of `rows` in bucket `e`, in row order. */
  function Bucket(rows: seq<Campaign>, seen: set<CampaignId>, clicked: set<CampaignId>, e: Exposure): (r: seq<Campaign>)
    ensures forall x :: x in r <==> x in rows && Classify(x, seen, clicked) == e
  {
    Filter(rows, c => Classify(c, seen, clicked) == e)
  }

  /** The buckets are pairwise disjoint and each keeps the row order. */
  lemma BucketsDisjointAndOrdered(rows: seq<Campaign>, seen: set<CampaignId>, clicked: set<CampaignId>, e1: Exposure, e2: Exposure)
    ensures IsSubsequence(Bucket(rows, seen, clicked, e1), rows)
    ensures e1 != e2 ==> forall x | x in Bucket(rows, seen, clicked, e1) :: x !in Bucket(rows, seen, clicked, e2)
  {
    FilterSubsequence(rows, c => Classify(c, seen, clicked) == e1);
  }

  /** A campaign the client has never seen, at its impression cap but under its click cap,
      is offered for a click it cannot be confirmed for. */
  lemma UnseenCappedCampaignOfferedForClick(c: Campaign, seen: set<CampaignId>, clicked: set<CampaignId>)
    requires c.id !in seen && c.id !in clicked
    requires c.impressions >= c.impressionsLimit && c.clicks < c.clicksLimit
    ensures Classify(c, seen, clicked) == NewClick
  {
  }

  /** A campaign the client has seen and clicked is only ever shown again. */
  lemma ClickedCampaignRepeats(c: Campaign, seen: set<CampaignId>, clicked: set<CampaignId>)
    requires c.id in seen && c.id in clicked
    ensures Classify(c, seen, clicked) == RepeatExposure
  {
  }

  // ---- scoring ----

  const Alpha: real := 0.8
  const Beta: real := 0.2

  /** Laplace-smoothed click-through estimate: positive, and at most 1 exactly when the
      clicks exceed the impressions by at most one. */
  function Ctr(c: Campaign): (r: real)
    ensures 0.0 < r
    ensures r <= 1.0 <==> c.clicks <= c.impressions + 1
  {
    (c.clicks + 1) as real / (c.impressions + 2) as real
  }

  /** Expected revenue of one more showing. */
  function Profit(c: Campaign): real {
    c.costPerImpression + c.costPerClick * Ctr(c)
  }

  /** The client's relevance score for an advertiser; 0 when none is stored. */
  function MlOf(scores: map<(ClientId, AdvertiserId), int>, cl: ClientId, adv: AdvertiserId): int {
    if (cl, adv) in scores then scores[(cl, adv)] else 0
  }

  function MlFor(scores: map<(ClientId, AdvertiserId), int>, cl: ClientId, c: Campaign): int {
    MlOf(scores, cl, c.advertiserId)
  }

  /** The running maximum of the profits, starting from 0. */
  function MaxProfit(cands: seq<Campaign>): real {
    if cands == [] then 0.0
    else
      var m, p := MaxProfit(cands[..|cands| - 1]), Profit(cands[|cands| - 1]);
      if m < p then p else m
  }

  /** The running maximum of the relevance scores, starting from 0. */
  function MaxMl(cands: seq<Campaign>, scores: map<(ClientId, AdvertiserId), int>, cl: ClientId): int {
    if cands == [] then 0
    else
      var m, v := MaxMl(cands[..|cands| - 1], scores, cl), MlFor(scores, cl, cands[|cands| - 1]);
      if m < v then v else m
  }

  /** The profit maximum is at least 0, bounds every candidate's profit, and is either 0
      or the profit of some candidate. */
  lemma {:induction false} MaxProfitIsMaximum(cands: seq<Campaign>)
    ensures MaxProfit(cands) >= 0.0
    ensures forall i | 0 <= i < |cands| :: Profit(cands[i]) <= MaxProfit(cands)
    ensures MaxProfit(cands) == 0.0 || exists i | 0 <= i < |cands| :: Profit(cands[i]) == MaxProfit(cands)
    decreases |cands|
  {
    if cands != [] {
      var init := cands[..|cands| - 1];
      MaxProfitIsMaximum(init);
      if MaxProfit(cands) != 0.0 && MaxProfit(cands) == MaxProfit(init) {
        var i :| 0 <= i < |init| && Profit(init[i]) == MaxProfit(init);
        assert cands[i] == init[i];
      }
    }
  }

  /** The relevance maximum is at least 0, bounds every candidate's score, and is either
      0 or the score of some candidate. */
  lemma {:induction false} MaxMlIsMaximum(cands: seq<Campaign>, scores: map<(ClientId, AdvertiserId), int>, cl: ClientId)
    ensures MaxMl(cands, scores, cl) >= 0
    ensures forall i | 0 <= i < |cands| :: MlFor(scores, cl, cands[i]) <= MaxMl(cands, scores, cl)
    ensures MaxMl(cands, scores, cl) == 0 || exists i | 0 <= i < |cands| :: MlFor(scores, cl, cands[i]) == MaxMl(cands, scores, cl)
    decreases |cands|
  {
    if cands != [] {
      var init := cands[..|cands| - 1];
      MaxMlIsMaximum(init, scores, cl);
      if MaxMl(cands, scores, cl) != 0 && MaxMl(cands, scores, cl) == MaxMl(init, scores, cl) {
        var i :| 0 <= i < |init| && MlFor(scores, cl, init[i]) == MaxMl(init, scores, cl);
        assert cands[i] == init[i];
      }
    }
  }

  /** `x` divided by the maximum, and 0 when the maximum is 0. */
  function Normalized(x: real, max: real): real {
    if max != 0.0 then x / max else 0.0
  }

  lemma NormalizedInUnitInterval(x: real, max: real)
    requires 0.0 <= x <= max
    ensures 0.0 <= Normalized(x, max) <= 1.0
  {
    if max != 0.0 {
      var q := x / max;
      assert q * max == x;
      if q > 1.0 {
        assert (q - 1.0) * max > 0.0;
      }
    }
  }

  function CombinedScore(c: Campaign, maxProfit: real, maxMl: int, ml: int): real {
    Alpha * Normalized(Profit(c), maxProfit) + Beta * Normalized(ml as real, maxMl as real)
  }

  datatype Scored = Scored(campaign: Campaign, score: real)

  /** Sorting by the negated score ascending is Python's sort by score with reverse=True. */
  function NegScore(x: Scored): real {
    -x.score
  }

  /** Each candidate with its combined score, in candidate order. */
  function ScoredAll(cands: seq<Campaign>, scores: map<(ClientId, AdvertiserId), int>, cl: ClientId): seq<Scored> {
    var mp, mm := MaxProfit(cands), MaxMl(cands, scores, cl);
    seq(|cands|, i requires 0 <= i < |cands| => Scored(cands[i], CombinedScore(cands[i], mp, mm, MlFor(scores, cl, cands[i]))))
  }

  /** The candidates by descending score, stably. */
  function Ranked(cands: seq<Campaign>, scores: map<(ClientId, AdvertiserId), int>, cl: ClientId): seq<Scored> {
    SortBy(ScoredAll(cands, scores, cl), NegScore)
  }

  predicate CostsNonNegative(cands: seq<Campaign>) {
    forall i | 0 <= i < |cands| :: cands[i].costPerImpression >= 0.0 && cands[i].costPerClick >= 0.0
  }

  predicate ScoresNonNegative(scores: map<(ClientId, AdvertiserId), int>) {
    forall p | p in scores :: scores[p] >= 0
  }

  /** With non-negative costs and relevance scores every combined score lies in [0, 1]. */
  lemma ScoreInUnitInterval(cands: seq<Campaign>, scores: map<(ClientId, AdvertiserId), int>, cl: ClientId, i: int)
    requires CostsNonNegative(cands) && ScoresNonNegative(scores)
    requires 0 <= i < |cands|
    ensures 0.0 <= ScoredAll(cands, scores, cl)[i].score <= 1.0
  {
    var c := cands[i];
    var ctr := Ctr(c);
    assert c.costPerClick * ctr >= 0.0;
    MaxProfitIsMaximum(cands);
    MaxMlIsMaximum(cands, scores, cl);
    NormalizedInUnitInterval(Profit(c), MaxProfit(cands));
    NormalizedInUnitInterval(MlFor(scores, cl, c) as real, MaxMl(cands, scores, cl) as real);
  }

  /** The ranking is a permutation of the scored candidates, non-increasing by score, and
      keeps the candidate order among equal scores. */
  lemma RankedIsStableDescendingPermutation(cands: seq<Campaign>, scores: map<(ClientId, AdvertiserId), int>, cl: ClientId, v: real)
    ensures multiset(Ranked(cands, scores, cl)) == multiset(ScoredAll(cands, scores, cl))
    ensures forall i, j | 0 <= i < j < |Ranked(cands, scores, cl)| :: Ranked(cands, scores, cl)[i].score >= Ranked(cands, scores, cl)[j].score
    ensures WithKey(Ranked(cands, scores, cl), NegScore, v) == WithKey(ScoredAll(cands, scores, cl), NegScore, v)
  {
    var s := ScoredAll(cands, scores, cl);
    SortByPermutes(s, NegScore);
    SortBySorted(s, NegScore);
    SortByStable(s, NegScore, v);
    var r := Ranked(cands, scores, cl);
    forall i, j | 0 <= i < j < |r| ensures r[i].score >= r[j].score {
      assert NegScore(r[i]) <= NegScore(r[j]);
    }
  }

  /** In a descending sort by score, the head is an element with the highest score. */
  lemma SortedHeadIsMax(s: seq<Scored>)
    requires s != []
    ensures |SortBy(s, NegScore)| == |s|
    ensures SortBy(s, NegScore)[0] in s
    ensures forall i | 0 <= i < |s| :: s[i].score <= SortBy(s, NegScore)[0].score
  {
    var r := SortBy(s, NegScore);
    SortByMembers(s, NegScore);
    SortBySorted(s, NegScore);
    forall i | 0 <= i < |s| ensures s[i].score <= r[0].score {
      assert s[i] in r;
      var j :| 0 <= j < |r| && r[j] == s[i];
      if j > 0 {
        assert NegScore(r[0]) <= NegScore(r[j]);
      }
    }
  }

  /** In a stable descending sort by score, the head is the first element with the
      highest score. */
  lemma SortedHeadIsFirstBest(s: seq<Scored>)
    requires s != []
    ensures |SortBy(s, NegScore)| == |s|
    ensures SortBy(s, NegScore)[0] in s
    ensures forall i | 0 <= i < |s| :: s[i].score <= SortBy(s, NegScore)[0].score
    ensures exists k | 0 <= k < |s| ::
              && SortBy(s, NegScore)[0] == s[k]
              && forall j | 0 <= j < k :: s[j].score < SortBy(s, NegScore)[0].score
  {
    SortedHeadIsMax(s);
    var r := SortBy(s, NegScore);
    var top := r[0];
    var v := NegScore(top);
    var k := FirstWithScore(s, v);
    SortByStable(s, NegScore, v);
    WithKeyFirst(s, NegScore, v, k);
    WithKeyFirst(r, NegScore, v, 0);
    assert top == s[k];
    forall j | 0 <= j < k ensures s[j].score < top.score {
      assert s[j].score != top.score;
    }
  }

  /** The index of the first element with key `v`, given that one exists. */
  lemma FirstWithScore(s: seq<Scored>, v: real) returns (k: int)
    requires exists i | 0 <= i < |s| :: NegScore(s[i]) == v
    ensures 0 <= k < |s| && NegScore(s[k]) == v
    ensures forall j | 0 <= j < k :: NegScore(s[j]) != v
  {
    var k0 :| 0 <= k0 < |s| && NegScore(s[k0]) == v;
    k := 0;
    while NegScore(s[k]) != v
      invariant 0 <= k <= k0
      invariant forall j | 0 <= j < k :: NegScore(s[j]) != v
      decreases k0 - k
    {
      k := k + 1;
    }
  }

  /** The top of the ranking is the first candidate with the highest score. */
  lemma TopIsFirstBest(cands: seq<Campaign>, scores: map<(ClientId, AdvertiserId), int>, cl: ClientId)
    requires cands != []
    ensures |Ranked(cands, scores, cl)| == |cands|
    ensures Ranked(cands, scores, cl)[0].campaign in cands
    ensures forall i | 0 <= i < |cands| :: ScoredAll(cands, scores, cl)[i].score <= Ranked(cands, scores, cl)[0].score
    ensures exists k | 0 <= k < |cands| ::
              && Ranked(cands, scores, cl)[0] == ScoredAll(cands, scores, cl)[k]
              && forall j | 0 <= j < k :: ScoredAll(cands, scores, cl)[j].score < Ranked(cands, scores, cl)[0].score
  {
    var s := ScoredAll(cands, scores, cl);
    SortedHeadIsFirstBest(s);
    var k :| 0 <= k < |s| && SortBy(s, NegScore)[0] == s[k];
    assert s[k].campaign == cands[k];
  }

  // ---- selection ----

  /** The campaigns the client has an impression of, and the ones they have clicked. */
  function SeenIds(s: State, cl: ClientId): set<CampaignId> {
    KindIds(ClientActions(s.actions, cl), Impression)
  }

  function ClickedIds(s: State, cl: ClientId): set<CampaignId> {
    KindIds(ClientActions(s.actions, cl), Click)
  }

  /** What an ad request decides: bill a new impression of a campaign, show a campaign for
      a click without billing, repeat one of the clicked campaigns, or find nothing. */
  datatype Selection = Bill(campaign: Campaign) | Show(campaign: Campaign) | Repeat(pool: seq<Campaign>) | NoAd

  /** The selection among the eligible campaigns: the top-ranked new-impression
      candidate, else the top-ranked new-click candidate, else the pool of campaigns to
      repeat, else nothing. */
  function SelectAmong(s: State, cl: ClientId, eligible: seq<Campaign>): Selection {
    var seen, clicked := SeenIds(s, cl), ClickedIds(s, cl);
    var unseen := Bucket(eligible, seen, clicked, NewImpression);
    var clickable := Bucket(eligible, seen, clicked, NewClick);
    var again := Bucket(eligible, seen, clicked, RepeatExposure);
    if unseen != [] then Bill(Ranked(unseen, s.mlScores, cl)[0].campaign)
    else if clickable != [] then Show(Ranked(clickable, s.mlScores, cl)[0].campaign)
    else if again != [] then Repeat(again)
    else NoAd
  }

  /** The selection for client `cl` when the campaigns table returns `rows`; nothing when
      no campaign is eligible. */
  function Select(s: State, cl: ClientId, rows: seq<Campaign>): Selection
    requires cl in s.clients
  {
    var eligible := EligibleCampaigns(s.day, rows, s.clients[cl]);
    if eligible == [] then NoAd else SelectAmong(s, cl, eligible)
  }

  /** Every row is the stored campaign under its own id. */
  ghost predicate StoredRows(s: State, rows: seq<Campaign>) {
    forall i | 0 <= i < |rows| :: rows[i].id in s.campaigns && s.campaigns[rows[i].id] == rows[i]
  }

  lemma EnumeratedRowsAreStored(s: State, rows: seq<Campaign>)
    requires CampaignsWellFormed(s) && Enumerates(rows, s.campaigns.Values)
    ensures StoredRows(s, rows)
  {
    forall i | 0 <= i < |rows| ensures rows[i].id in s.campaigns && s.campaigns[rows[i].id] == rows[i] {
      assert rows[i] in s.campaigns.Values;
      var id :| id in s.campaigns && s.campaigns[id] == rows[i];
    }
  }

  /** The buckets follow the client's ledger history. */
  lemma SeenAndClickedFromLedger(s: State, cl: ClientId, id: CampaignId)
    ensures id in SeenIds(s, cl) <==> Has(s.actions, cl, id, Impression)
    ensures id in ClickedIds(s, cl) <==> Has(s.actions, cl, id, Click)
  {
    ClientKindIds(s.actions, cl, id, Impression);
    ClientKindIds(s.actions, cl, id, Click);
  }

  /** Bucket priority: a new impression whenever one is possible, else a new click, else a
      repeat; and nothing exactly when every eligible campaign is dropped. */
  lemma SelectPriority(s: State, cl: ClientId, rows: seq<Campaign>)
    requires cl in s.clients
    ensures Select(s, cl, rows).Bill? <==>
              exists x | x in rows :: Eligible(s.day, x, s.clients[cl]) && Classify(x, SeenIds(s, cl), ClickedIds(s, cl)) == NewImpression
    ensures Select(s, cl, rows).Show? <==>
              && (forall x | x in rows && Eligible(s.day, x, s.clients[cl]) :: Classify(x, SeenIds(s, cl), ClickedIds(s, cl)) != NewImpression)
              && (exists x | x in rows :: Eligible(s.day, x, s.clients[cl]) && Classify(x, SeenIds(s, cl), ClickedIds(s, cl)) == NewClick)
    ensures Select(s, cl, rows).NoAd? <==>
              forall x | x in rows && Eligible(s.day, x, s.clients[cl]) :: Classify(x, SeenIds(s, cl), ClickedIds(s, cl)) == Dropped
  {
    var eligible := EligibleCampaigns(s.day, rows, s.clients[cl]);
    var seen, clicked := SeenIds(s, cl), ClickedIds(s, cl);
    var unseen := Bucket(eligible, seen, clicked, NewImpression);
    var clickable := Bucket(eligible, seen, clicked, NewClick);
    var again := Bucket(eligible, seen, clicked, RepeatExposure);
    if unseen != [] {
      assert unseen[0] in unseen;
    }
    if clickable != [] {
      assert clickable[0] in clickable;
    }
    if again != [] {
      assert again[0] in again;
    }
    if eligible != [] {
      assert eligible[0] in eligible;
    }
  }

  /** A billed campaign is a stored, eligible campaign under both caps that the client has
      never been shown: exactly what a new impression needs to keep the invariant. */
  lemma SelectBill(s: State, cl: ClientId, rows: seq<Campaign>)
    requires cl in s.clients && StoredRows(s, rows)
    requires Select(s, cl, rows).Bill?
    ensures var c := Select(s, cl, rows).campaign;
      && c.id in s.campaigns && s.campaigns[c.id] == c
      && Eligible(s.day, c, s.clients[cl])
      && c.impressions < c.impressionsLimit && c.clicks < c.clicksLimit
      && !Has(s.actions, cl, c.id, Impression)
  {
    var eligible := EligibleCampaigns(s.day, rows, s.clients[cl]);
    var unseen := Bucket(eligible, SeenIds(s, cl), ClickedIds(s, cl), NewImpression);
    TopIsFirstBest(unseen, s.mlScores, cl);
    var c := Select(s, cl, rows).campaign;
    assert c in rows;
    SeenAndClickedFromLedger(s, cl, c.id);
  }

  /** A campaign shown for a click is stored, eligible, under its click cap and not yet
      clicked by the client. */
  lemma SelectShow(s: State, cl: ClientId, rows: seq<Campaign>)
    requires cl in s.clients && StoredRows(s, rows)
    requires Select(s, cl, rows).Show?
    ensures var c := Select(s, cl, rows).campaign;
      && c.id in s.campaigns && s.campaigns[c.id] == c
      && Eligible(s.day, c, s.clients[cl])
      && c.clicks < c.clicksLimit
      && !Has(s.actions, cl, c.id, Click)
  {
    var eligible := EligibleCampaigns(s.day, rows, s.clients[cl]);
    var clickable := Bucket(eligible, SeenIds(s, cl), ClickedIds(s, cl), NewClick);
    TopIsFirstBest(clickable, s.mlScores, cl);
    var c := Select(s, cl, rows).campaign;
    assert c in rows;
    SeenAndClickedFromLedger(s, cl, c.id);
  }

  /** Every campaign in the repeat pool is stored, eligible and already clicked by the
      client, and the pool is not empty. */
  lemma SelectRepeat(s: State, cl: ClientId, rows: seq<Campaign>)
    requires cl in s.clients && StoredRows(s, rows)
    requires Select(s, cl, rows).Repeat?
    ensures Select(s, cl, rows).pool != []
    ensures forall x | x in Select(s, cl, rows).pool ::
              && x.id in s.campaigns && s.campaigns[x.id] == x
              && Eligible(s.day, x, s.clients[cl])
              && Has(s.actions, cl, x.id, Click)
  {
    forall x | x in Select(s, cl, rows).pool
      ensures x.id in s.campaigns && s.campaigns[x.id] == x && Has(s.actions, cl, x.id, Click)
    {
      SeenAndClickedFromLedger(s, cl, x.id);
    }
  }

  /** Once a client has clicked a campaign, no request of theirs bills it or offers it for
      another click. */
  lemma ClickedCampaignNeverBilledAgain(s: State, cl: ClientId, rows: seq<Campaign>, id: CampaignId)
    requires Inv(s) && cl in s.clients && StoredRows(s, rows)
    requires Has(s.actions, cl, id, Click)
    ensures Select(s, cl, rows).Bill? ==> Select(s, cl, rows).campaign.id != id
    ensures Select(s, cl, rows).Show? ==> Select(s, cl, rows).campaign.id != id
  {
    assert Has(s.actions, cl, id, Impression);
    if Select(s, cl, rows).Bill? {
      SelectBill(s, cl, rows);
    }
    if Select(s, cl, rows).Show? {
      SelectShow(s, cl, rows);
    }
  }
}
