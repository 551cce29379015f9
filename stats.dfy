/** The statistics the backend reports: folds of the action ledger into totals, and into
    per-day tables sorted by date, per campaign and per advertiser. */
module Statistics {
  import opened Domain
  import opened Seqs
  import opened Ledger
  import opened Schemas
  import opened Store

  // ---- totals over actions ----

  /** Counts and spend by kind. */
  datatype Tally = Tally(impressions: int, clicks: int, spentImpressions: real, spentClicks: real)

  const Zero := Tally(0, 0, 0.0, 0.0)

  function Plus(x: Tally, y: Tally): Tally {
    Tally(x.impressions + y.impressions, x.clicks + y.clicks,
          x.spentImpressions + y.spentImpressions, x.spentClicks + y.spentClicks)
  }

  /** One action's contribution: a click counts as a click, every other action as an
      impression. */
  function Single(a: Action): Tally {
    if a.kind == Click then Tally(0, 1, 0.0, a.cost) else Tally(1, 0, a.cost, 0.0)
  }

  /** The totals of a sequence of actions. */
  function TallyOf(acts: seq<Action>): Tally {
    if acts == [] then Zero else Plus(TallyOf(acts[..|acts| - 1]), Single(acts[|acts| - 1]))
  }

  lemma TallyOfSnoc(acts: seq<Action>, a: Action)
    ensures TallyOf(acts + [a]) == Plus(TallyOf(acts), Single(a))
  {
    assert (acts + [a])[..|acts|] == acts;
  }

  /** Totals add up over concatenation. */
  lemma {:induction false} TallyOfAppend(xs: seq<Action>, ys: seq<Action>)
    ensures TallyOf(xs + ys) == Plus(TallyOf(xs), TallyOf(ys))
    decreases |ys|
  {
    if ys == [] {
      assert xs + ys == xs;
    } else {
      var init, last := ys[..|ys| - 1], ys[|ys| - 1];
      calc {
        TallyOf(xs + ys);
        { assert xs + ys == (xs + init) + [last]; }
        TallyOf((xs + init) + [last]);
        { TallyOfSnoc(xs + init, last); }
        Plus(TallyOf(xs + init), Single(last));
        { TallyOfAppend(xs, init); }
        Plus(Plus(TallyOf(xs), TallyOf(init)), Single(last));
        { PlusShuffle(TallyOf(xs), TallyOf(init), Single(last)); }
        Plus(TallyOf(xs), Plus(TallyOf(init), Single(last)));
        { assert ys == init + [last]; TallyOfSnoc(init, last); }
        Plus(TallyOf(xs), TallyOf(ys));
      }
    }
  }

  /** Actions that cost nothing negative give totals with no negative field. */
  lemma {:induction false} TallyOfNonNegative(acts: seq<Action>)
    requires forall i | 0 <= i < |acts| :: acts[i].cost >= 0.0
    ensures TallyOf(acts).impressions >= 0 && TallyOf(acts).clicks >= 0
    ensures TallyOf(acts).spentImpressions >= 0.0 && TallyOf(acts).spentClicks >= 0.0
    decreases |acts|
  {
    if acts != [] {
      TallyOfNonNegative(acts[..|acts| - 1]);
    }
  }

  /** Clicks over impressions, and exactly 0 when there are no impressions. */
  function Conversion(clicks: int, impressions: int): (r: real)
    ensures 0 <= clicks ==> 0.0 <= r
    ensures 0 <= clicks <= impressions ==> r <= 1.0
    ensures impressions > 0 ==> r * impressions as real == clicks as real
  {
    if impressions > 0 then
      QuotientBounds(clicks as real, impressions as real);
      clicks as real / impressions as real
    else 0.0
  }

  lemma QuotientBounds(x: real, y: real)
    requires y > 0.0
    ensures (x / y) * y == x
    ensures 0.0 <= x ==> 0.0 <= x / y
    ensures 0.0 <= x <= y ==> x / y <= 1.0
  {
    var q := x / y;
    assert q * y == x;
  }

  /** The response record for totals; the total spend is the sum of both kinds. */
  function StatsOf(t: Tally): Stats {
    Stats(t.impressions, t.clicks, Conversion(t.clicks, t.impressions),
          t.spentImpressions, t.spentClicks, t.spentImpressions + t.spentClicks)
  }

  /** The totals a response record carries. */
  function TallyOfStats(st: Stats): Tally {
    Tally(st.impressionsCount, st.clicksCount, st.spentImpressions, st.spentClicks)
  }

  /** Non-negative totals give a record inside the response bounds. */
  lemma StatsOfValid(t: Tally)
    requires t.impressions >= 0 && t.clicks >= 0 && t.spentImpressions >= 0.0 && t.spentClicks >= 0.0
    ensures ValidStats(StatsOf(t))
    ensures TallyOfStats(StatsOf(t)) == t
  {
  }

  // ---- one campaign ----

  /** Campaign totals: the counts are the campaign's counters, the spend is summed from its
      actions. */
  function CampaignTally(s: State, id: CampaignId): Tally
    requires id in s.campaigns
  {
    var spent := TallyOf(CampaignActions(s.actions, id));
    Tally(s.campaigns[id].impressions, s.campaigns[id].clicks, spent.spentImpressions, spent.spentClicks)
  }

  function CampaignStats(s: State, id: CampaignId): Stats
    requires id in s.campaigns
  {
    StatsOf(CampaignTally(s, id))
  }

  /** Counting a campaign's actions by kind gives the ledger counts of that campaign. */
  lemma {:induction false} CampaignActionsTally(acts: seq<Action>, id: CampaignId)
    ensures TallyOf(CampaignActions(acts, id)).impressions == CountOf(acts, id, Impression)
    ensures TallyOf(CampaignActions(acts, id)).clicks == CountOf(acts, id, Click)
    ensures forall i | 0 <= i < |CampaignActions(acts, id)| :: CampaignActions(acts, id)[i] in acts
    decreases |acts|
  {
    if acts != [] {
      var init, a := acts[..|acts| - 1], acts[|acts| - 1];
      CampaignActionsTally(init, id);
      var h := CampaignActions(init, id);
      if a.campaignId == id {
        TallyOfSnoc(h, a);
        assert CampaignActions(acts, id) == h + [a];
        assert acts == init + [a];
      } else {
        assert CampaignActions(acts, id) == h;
      }
    }
  }

  /** The clients with an action of kind `k` on campaign `id`. */
  function ClientsWith(acts: seq<Action>, id: CampaignId, k: ActionKind): set<ClientId> {
    if acts == [] then {}
    else
      var a := acts[|acts| - 1];
      ClientsWith(acts[..|acts| - 1], id, k) + (if a.campaignId == id && a.kind == k then {a.clientId} else {})
  }

  /** With one action per (client, campaign, kind), a campaign's count of a kind is the
      number of distinct clients with such an action. */
  lemma {:induction false} CountIsClients(acts: seq<Action>, id: CampaignId, k: ActionKind)
    requires PairsUnique(acts)
    ensures CountOf(acts, id, k) == |ClientsWith(acts, id, k)|
    ensures forall cl :: cl in ClientsWith(acts, id, k) <==> Has(acts, cl, id, k)
    decreases |acts|
  {
    if acts != [] {
      var init, a := acts[..|acts| - 1], acts[|acts| - 1];
      PairsUniquePrefix(acts);
      CountIsClients(init, id, k);
      forall cl ensures cl in ClientsWith(acts, id, k) <==> Has(acts, cl, id, k) {
        assert Has(acts, cl, id, k) <==> Has(init, cl, id, k) || IsAction(a, cl, id, k) by {
          assert acts == init + [a];
          HasSnoc(init, a, cl, id, k);
        }
      }
      if a.campaignId == id && a.kind == k {
        assert CountPair(acts, a.clientId, id, k) == CountPair(init, a.clientId, id, k) + 1;
        CountPairPositive(init, a.clientId, id, k);
        assert a.clientId !in ClientsWith(init, id, k);
      }
    }
  }

  /** Dropping the last action keeps one action per (client, campaign, kind). */
  lemma PairsUniquePrefix(acts: seq<Action>)
    requires PairsUnique(acts) && acts != []
    ensures PairsUnique(acts[..|acts| - 1])
  {
    var init := acts[..|acts| - 1];
    forall cl, id, k ensures CountPair(init, cl, id, k) <= 1 {
      assert CountPair(acts, cl, id, k) <= 1;
    }
  }

  /** Every click follows an impression by the same client, so a campaign never has more
      clicks than impressions. */
  lemma ClicksAtMostImpressions(s: State, id: CampaignId)
    requires Inv(s) && id in s.campaigns
    ensures s.campaigns[id].clicks <= s.campaigns[id].impressions
  {
    assert CountersMatchLedger(s);
    LedgerClicksAtMostImpressions(s.actions, id);
  }

  lemma LedgerClicksAtMostImpressions(acts: seq<Action>, id: CampaignId)
    requires PairsUnique(acts) && ClicksFollowImpressions(acts)
    ensures CountOf(acts, id, Click) <= CountOf(acts, id, Impression)
  {
    CountIsClients(acts, id, Click);
    CountIsClients(acts, id, Impression);
    var clicked, seen := ClientsWith(acts, id, Click), ClientsWith(acts, id, Impression);
    assert clicked <= seen;
    SubsetCardinality(clicked, seen);
  }

  /** In a valid store a campaign's statistics are the totals of its ledger rows (the
      counters agree with the ledger), lie inside the response bounds, and have a
      conversion of at most 1. */
  lemma CampaignStatsFromLedger(s: State, id: CampaignId)
    requires Inv(s) && id in s.campaigns
    ensures CampaignTally(s, id) == TallyOf(CampaignActions(s.actions, id))
    ensures ValidStats(CampaignStats(s, id))
    ensures CampaignStats(s, id).conversion <= 1.0
  {
    CampaignActionsTally(s.actions, id);
    var acts := CampaignActions(s.actions, id);
    TallyOfNonNegative(acts);
    ClicksAtMostImpressions(s, id);
  }

  // ---- grouping actions by a key ----

  /** What actions are grouped by: their day, or their campaign. */
  datatype Grouping = ByDay | ByCampaign

  function KeyOf(g: Grouping, a: Action): nat {
    match g
    case ByDay => a.day
    case ByCampaign => a.campaignId
  }

  /** The actions whose key is `k`, in their order. */
  function Group(acts: seq<Action>, g: Grouping, k: int): seq<Action> {
    if acts == [] then []
    else
      var a := acts[|acts| - 1];
      Group(acts[..|acts| - 1], g, k) + (if KeyOf(g, a) == k then [a] else [])
  }

  /** The actions whose key is one of `ks`, in their order. */
  function Kept(acts: seq<Action>, g: Grouping, ks: seq<nat>): (r: seq<Action>)
    ensures forall a :: a in r <==> a in acts && KeyOf(g, a) in ks
  {
    if acts == [] then []
    else
      var init, a := acts[..|acts| - 1], acts[|acts| - 1];
      assert acts == init + [a];
      Kept(init, g, ks) + (if KeyOf(g, a) in ks then [a] else [])
  }

  /** The keys of `acts` in order of first appearance, each once (the order in which a
      dictionary keyed by them is filled). */
  function Keys(acts: seq<Action>, g: Grouping): seq<nat> {
    if acts == [] then []
    else
      var ks := Keys(acts[..|acts| - 1], g);
      var a := acts[|acts| - 1];
      if KeyOf(g, a) in ks then ks else ks + [KeyOf(g, a)]
  }

  /** The first-appearance keys are distinct and are exactly the keys of the actions. */
  lemma {:induction false} KeysSpec(acts: seq<Action>, g: Grouping)
    ensures Distinct(Keys(acts, g))
    ensures forall k :: k in Keys(acts, g) <==> exists i | 0 <= i < |acts| :: KeyOf(g, acts[i]) == k
    decreases |acts|
  {
    if acts != [] {
      var init, a := acts[..|acts| - 1], acts[|acts| - 1];
      KeysSpec(init, g);
      forall k ensures k in Keys(acts, g) <==> exists i | 0 <= i < |acts| :: KeyOf(g, acts[i]) == k {
        if exists i | 0 <= i < |init| :: KeyOf(g, init[i]) == k {
          var i :| 0 <= i < |init| && KeyOf(g, init[i]) == k;
          assert acts[i] == init[i];
        }
        if exists i | 0 <= i < |acts| :: KeyOf(g, acts[i]) == k {
          var i :| 0 <= i < |acts| && KeyOf(g, acts[i]) == k;
          if i < |init| {
            assert acts[i] == init[i];
          }
        }
      }
    }
  }

  /** A key no action has selects nothing. */
  lemma {:induction false} GroupAbsent(acts: seq<Action>, g: Grouping, k: int)
    requires forall i | 0 <= i < |acts| :: KeyOf(g, acts[i]) != k
    ensures Group(acts, g, k) == []
    decreases |acts|
  {
    if acts != [] {
      GroupAbsent(acts[..|acts| - 1], g, k);
    }
  }

  /** Sum over the keys `ks` of each group's totals. */
  function SumGroups(acts: seq<Action>, g: Grouping, ks: seq<nat>): Tally {
    if ks == [] then Zero
    else Plus(SumGroups(acts, g, ks[..|ks| - 1]), TallyOf(Group(acts, g, ks[|ks| - 1])))
  }

  /** Appending an action whose key is not among `ks` leaves the sum of their groups. */
  lemma {:induction false} SumGroupsSnocAbsent(acts: seq<Action>, a: Action, g: Grouping, ks: seq<nat>)
    requires KeyOf(g, a) !in ks
    ensures SumGroups(acts + [a], g, ks) == SumGroups(acts, g, ks)
    decreases |ks|
  {
    if ks != [] {
      var init, k := ks[..|ks| - 1], ks[|ks| - 1];
      assert KeyOf(g, a) !in init && KeyOf(g, a) != k by {
        assert ks == init + [k];
      }
      SumGroupsSnocAbsent(acts, a, g, init);
      GroupSnoc(acts, a, g, k);
      assert Group(acts + [a], g, k) == Group(acts, g, k);
    }
  }

  /** Appending an action whose key is among the distinct keys `ks` adds it to their sum
      once. */
  lemma {:induction false} SumGroupsSnocPresent(acts: seq<Action>, a: Action, g: Grouping, ks: seq<nat>)
    requires Distinct(ks) && KeyOf(g, a) in ks
    ensures SumGroups(acts + [a], g, ks) == Plus(SumGroups(acts, g, ks), Single(a))
    decreases |ks|
  {
    var init, k := ks[..|ks| - 1], ks[|ks| - 1];
    assert ks == init + [k];
    assert Distinct(init);
    var before, after := TallyOf(Group(acts, g, k)), TallyOf(Group(acts + [a], g, k));
    var x, x' := SumGroups(acts, g, init), SumGroups(acts + [a], g, init);
    assert SumGroups(acts + [a], g, ks) == Plus(x', after);
    assert SumGroups(acts, g, ks) == Plus(x, before);
    GroupSnoc(acts, a, g, k);
    if KeyOf(g, a) == k {
      assert KeyOf(g, a) !in init;
      SumGroupsSnocAbsent(acts, a, g, init);
      TallyOfSnoc(Group(acts, g, k), a);
      PlusShuffle(x, before, Single(a));
    } else {
      assert KeyOf(g, a) in init;
      SumGroupsSnocPresent(acts, a, g, init);
      assert Group(acts + [a], g, k) == Group(acts, g, k);
      PlusShuffle(x, Single(a), before);
    }
  }

  lemma GroupSnoc(acts: seq<Action>, a: Action, g: Grouping, k: int)
    ensures Group(acts + [a], g, k) == Group(acts, g, k) + (if KeyOf(g, a) == k then [a] else [])
  {
    assert (acts + [a])[..|acts|] == acts;
  }

  lemma PlusShuffle(x: Tally, y: Tally, z: Tally)
    ensures Plus(x, Plus(y, z)) == Plus(Plus(x, y), z)
    ensures Plus(Plus(x, y), z) == Plus(Plus(x, z), y)
    ensures Plus(x, Zero) == x
  {
  }

  /** Summing the groups of distinct keys gives the totals of the actions with those keys. */
  lemma {:induction false} SumGroupsIsKept(acts: seq<Action>, g: Grouping, ks: seq<nat>)
    requires Distinct(ks)
    ensures SumGroups(acts, g, ks) == TallyOf(Kept(acts, g, ks))
    decreases |acts|
  {
    if acts == [] {
      SumGroupsEmpty(g, ks);
    } else {
      var init, a := acts[..|acts| - 1], acts[|acts| - 1];
      SumGroupsIsKept(init, g, ks);
      assert acts == init + [a];
      if KeyOf(g, a) in ks {
        SumGroupsSnocPresent(init, a, g, ks);
        TallyOfSnoc(Kept(init, g, ks), a);
        assert Kept(acts, g, ks) == Kept(init, g, ks) + [a];
      } else {
        SumGroupsSnocAbsent(init, a, g, ks);
        assert Kept(acts, g, ks) == Kept(init, g, ks);
      }
    }
  }

  lemma {:induction false} SumGroupsEmpty(g: Grouping, ks: seq<nat>)
    ensures SumGroups([], g, ks) == Zero
    decreases |ks|
  {
    if ks != [] {
      SumGroupsEmpty(g, ks[..|ks| - 1]);
    }
  }

  /** Keeping the actions whose key is among all the keys that occur keeps everything. */
  lemma {:induction false} KeptAll(acts: seq<Action>, g: Grouping, ks: seq<nat>)
    requires forall i | 0 <= i < |acts| :: KeyOf(g, acts[i]) in ks
    ensures Kept(acts, g, ks) == acts
    decreases |acts|
  {
    if acts != [] {
      var init, a := acts[..|acts| - 1], acts[|acts| - 1];
      KeptAll(init, g, ks);
      assert KeyOf(g, a) in ks;
      assert Kept(acts, g, ks) == init + [a];
      assert acts == init + [a];
    }
  }

  // ---- per-day tables ----

  /** The record for one day of `acts`: that day's actions counted and summed by kind. */
  function DailyRecord(acts: seq<Action>, d: int): DailyStats {
    DailyStats(d, StatsOf(TallyOf(Group(acts, ByDay, d))))
  }

  /** One record per day of `ds`, in the order of `ds`. */
  function Records(acts: seq<Action>, ds: seq<nat>): (r: seq<DailyStats>)
    ensures |r| == |ds|
  {
    if ds == [] then [] else Records(acts, ds[..|ds| - 1]) + [DailyRecord(acts, ds[|ds| - 1])]
  }

  function DateKey(r: DailyStats): real { r.date as real }

  /** The per-day table: one record per day with actions, sorted by date. */
  function DailyTable(acts: seq<Action>): seq<DailyStats> {
    SortBy(Records(acts, Keys(acts, ByDay)), DateKey)
  }

  /** Sum of the totals the records of a table carry. */
  function SumRecords(recs: seq<DailyStats>): Tally {
    if recs == [] then Zero else Plus(SumRecords(recs[..|recs| - 1]), TallyOfStats(recs[|recs| - 1].stats))
  }

  lemma {:induction false} SumRecordsInsert(recs: seq<DailyStats>, x: DailyStats)
    ensures SumRecords(Insert(recs, x, DateKey)) == Plus(SumRecords(recs), TallyOfStats(x.stats))
    decreases |recs|
  {
    if recs == [] || DateKey(recs[|recs| - 1]) <= DateKey(x) {
      assert (recs + [x])[..|recs|] == recs;
    } else {
      var init, last := recs[..|recs| - 1], recs[|recs| - 1];
      SumRecordsInsert(init, x);
      var r := Insert(init, x, DateKey);
      assert (r + [last])[..|r|] == r;
    }
  }

  /** Sorting the records does not change their sum. */
  lemma {:induction false} SumRecordsSort(recs: seq<DailyStats>)
    ensures SumRecords(SortBy(recs, DateKey)) == SumRecords(recs)
    decreases |recs|
  {
    if recs != [] {
      SumRecordsSort(recs[..|recs| - 1]);
      SumRecordsInsert(SortBy(recs[..|recs| - 1], DateKey), recs[|recs| - 1]);
    }
  }

  lemma {:induction false} SumRecordsOfRecords(acts: seq<Action>, ds: seq<nat>)
    ensures SumRecords(Records(acts, ds)) == SumGroups(acts, ByDay, ds)
    decreases |ds|
  {
    if ds != [] {
      var r := Records(acts, ds[..|ds| - 1]);
      SumRecordsOfRecords(acts, ds[..|ds| - 1]);
      assert (r + [DailyRecord(acts, ds[|ds| - 1])])[..|r|] == r;
    }
  }

  /** The daily records add up to the totals of all the actions: no action is lost or
      counted twice. */
  lemma DailyTableSums(acts: seq<Action>)
    ensures SumRecords(DailyTable(acts)) == TallyOf(acts)
  {
    var ds := Keys(acts, ByDay);
    KeysSpec(acts, ByDay);
    SumRecordsSort(Records(acts, ds));
    SumRecordsOfRecords(acts, ds);
    SumGroupsIsKept(acts, ByDay, ds);
    forall i | 0 <= i < |acts| ensures KeyOf(ByDay, acts[i]) in ds {
    }
    KeptAll(acts, ByDay, ds);
  }

  lemma {:induction false} RecordsMembers(acts: seq<Action>, ds: seq<nat>)
    ensures forall i | 0 <= i < |ds| :: Records(acts, ds)[i] == DailyRecord(acts, ds[i])
    decreases |ds|
  {
    if ds != [] {
      RecordsMembers(acts, ds[..|ds| - 1]);
    }
  }

  /** Records of distinct days are distinct. */
  lemma RecordsDistinct(acts: seq<Action>, ds: seq<nat>)
    requires Distinct(ds)
    ensures Distinct(Records(acts, ds))
  {
    RecordsMembers(acts, ds);
    var recs := Records(acts, ds);
    forall i, j | 0 <= i < j < |recs| ensures recs[i] != recs[j] {
      assert recs[i].date == ds[i] && recs[j].date == ds[j];
    }
  }

  /** A key that is not listed has no actions. */
  lemma GroupOfUnlisted(acts: seq<Action>, g: Grouping, k: int)
    requires k !in Keys(acts, g)
    ensures Group(acts, g, k) == []
  {
    KeysSpec(acts, g);
    GroupAbsent(acts, g, k);
  }

  lemma KeysDistinct(acts: seq<Action>, g: Grouping)
    ensures Distinct(Keys(acts, g))
  {
    KeysSpec(acts, g);
  }

  lemma KeyHasAction(acts: seq<Action>, g: Grouping, k: int) returns (i: int)
    requires k in Keys(acts, g)
    ensures 0 <= i < |acts| && KeyOf(g, acts[i]) == k
  {
    KeysSpec(acts, g);
    i :| 0 <= i < |acts| && KeyOf(g, acts[i]) == k;
  }

  lemma ActionKeyListed(acts: seq<Action>, g: Grouping, i: int)
    requires 0 <= i < |acts|
    ensures KeyOf(g, acts[i]) in Keys(acts, g)
  {
    KeysSpec(acts, g);
  }

  /** Each record of the per-day table is the record of its own day. */
  lemma DailyTableOwnDays(acts: seq<Action>)
    ensures forall r | r in DailyTable(acts) :: r == DailyRecord(acts, r.date)
  {
    var ds := Keys(acts, ByDay);
    var recs := Records(acts, ds);
    RecordsMembers(acts, ds);
    SortByMembers(recs, DateKey);
    forall r | r in DailyTable(acts) ensures r == DailyRecord(acts, r.date) {
      assert r in recs;
    }
  }

  /** Each record of the per-day table is the record of its own day, for a day on which
      some action happened. */
  lemma DailyTableRecords(acts: seq<Action>)
    ensures forall r | r in DailyTable(acts) ::
              r == DailyRecord(acts, r.date) && exists i | 0 <= i < |acts| :: acts[i].day == r.date
  {
    var ds := Keys(acts, ByDay);
    var recs := Records(acts, ds);
    RecordsMembers(acts, ds);
    SortByMembers(recs, DateKey);
    DailyTableOwnDays(acts);
    forall r | r in DailyTable(acts) ensures exists i | 0 <= i < |acts| :: acts[i].day == r.date {
      assert r in recs;
      var k :| 0 <= k < |recs| && recs[k] == r;
      var i := KeyHasAction(acts, ByDay, ds[k]);
      assert acts[i].day == r.date;
    }
  }

  /** Every day on which an action happened has its record in the per-day table. */
  lemma DailyTableCovers(acts: seq<Action>)
    ensures forall i | 0 <= i < |acts| :: DailyRecord(acts, acts[i].day) in DailyTable(acts)
  {
    var ds := Keys(acts, ByDay);
    var recs := Records(acts, ds);
    RecordsMembers(acts, ds);
    SortByMembers(recs, DateKey);
    forall i | 0 <= i < |acts| ensures DailyRecord(acts, acts[i].day) in DailyTable(acts) {
      ActionKeyListed(acts, ByDay, i);
      var k :| 0 <= k < |ds| && ds[k] == KeyOf(ByDay, acts[i]);
      assert recs[k] in recs;
    }
  }

  /** The per-day table is sorted by strictly increasing date, so it holds one record per
      day. */
  lemma DailyTableStrictlyIncreasing(acts: seq<Action>)
    ensures forall i, j | 0 <= i < j < |DailyTable(acts)| :: DailyTable(acts)[i].date < DailyTable(acts)[j].date
  {
    var ds := Keys(acts, ByDay);
    var recs := Records(acts, ds);
    var t := DailyTable(acts);
    KeysDistinct(acts, ByDay);
    RecordsDistinct(acts, ds);
    SortByPermutes(recs, DateKey);
    DistinctPermutation(recs, t);
    SortBySorted(recs, DateKey);
    DailyTableOwnDays(acts);
    forall i, j | 0 <= i < j < |t| ensures t[i].date < t[j].date {
      assert DateKey(t[i]) <= DateKey(t[j]);
      assert t[i] in t && t[j] in t;
      assert t[i] != t[j];
    }
  }

  /** The actions of a group belong to the sequence and carry the group's key. */
  lemma {:induction false} GroupMembers(acts: seq<Action>, g: Grouping, k: int)
    ensures forall a | a in Group(acts, g, k) :: a in acts && KeyOf(g, a) == k
    decreases |acts|
  {
    if acts != [] {
      var init, a := acts[..|acts| - 1], acts[|acts| - 1];
      GroupMembers(init, g, k);
      assert acts == init + [a];
    }
  }

  /** With no negative cost in the ledger, every record of a per-day table lies inside the
      bounds of the daily response body. */
  lemma DailyTableValid(acts: seq<Action>)
    requires forall i | 0 <= i < |acts| :: acts[i].cost >= 0.0
    ensures forall r | r in DailyTable(acts) :: ValidDailyStats(r)
  {
    DailyTableRecords(acts);
    forall r | r in DailyTable(acts) ensures ValidDailyStats(r) {
      var grp := Group(acts, ByDay, r.date);
      GroupMembers(acts, ByDay, r.date);
      forall i | 0 <= i < |grp| ensures grp[i].cost >= 0.0 {
        assert grp[i] in acts;
      }
      TallyOfNonNegative(grp);
      StatsOfValid(TallyOf(grp));
    }
  }

  // ---- one advertiser ----

  /** The ids of an advertiser's campaigns. */
  function AdvertiserCampaignIds(s: State, adv: AdvertiserId): set<CampaignId> {
    set id | id in s.campaigns && s.campaigns[id].advertiserId == adv
  }

  /** Advertiser totals over its campaigns in the order `ids`: counters for counts,
      ledger costs for spend. */
  function AdvertiserTally(s: State, ids: seq<CampaignId>): Tally
    requires forall i | 0 <= i < |ids| :: ids[i] in s.campaigns
  {
    if ids == [] then Zero else Plus(AdvertiserTally(s, ids[..|ids| - 1]), CampaignTally(s, ids[|ids| - 1]))
  }

  /** The actions of the campaigns `ids`, one campaign after another (the order in which
      the per-advertiser loops visit them). */
  function Pool(acts: seq<Action>, ids: seq<CampaignId>): seq<Action> {
    if ids == [] then [] else Pool(acts, ids[..|ids| - 1]) + CampaignActions(acts, ids[|ids| - 1])
  }

  lemma {:induction false} GroupByCampaign(acts: seq<Action>, id: CampaignId)
    ensures Group(acts, ByCampaign, id) == CampaignActions(acts, id)
    decreases |acts|
  {
    if acts != [] {
      GroupByCampaign(acts[..|acts| - 1], id);
    }
  }

  lemma {:induction false} PoolTally(s: State, ids: seq<CampaignId>)
    requires Inv(s)
    requires forall i | 0 <= i < |ids| :: ids[i] in s.campaigns
    ensures AdvertiserTally(s, ids) == TallyOf(Pool(s.actions, ids))
    ensures AdvertiserTally(s, ids) == SumGroups(s.actions, ByCampaign, ids)
    decreases |ids|
  {
    if ids != [] {
      var init, id := ids[..|ids| - 1], ids[|ids| - 1];
      PoolTally(s, init);
      CampaignStatsFromLedger(s, id);
      TallyOfAppend(Pool(s.actions, init), CampaignActions(s.actions, id));
      GroupByCampaign(s.actions, id);
    }
  }

  /** In a valid store the advertiser totals, taken over an enumeration of its campaigns,
      are the totals of exactly the ledger rows of its campaigns, and they lie inside the
      response bounds with a conversion of at most 1. */
  lemma AdvertiserStatsFromLedger(s: State, adv: AdvertiserId, ids: seq<CampaignId>)
    requires Inv(s) && Enumerates(ids, AdvertiserCampaignIds(s, adv))
    ensures AdvertiserTally(s, ids) == TallyOf(Pool(s.actions, ids))
    ensures AdvertiserTally(s, ids) == TallyOf(Kept(s.actions, ByCampaign, ids))
    ensures forall a :: a in Kept(s.actions, ByCampaign, ids) <==>
                        a in s.actions && a.campaignId in s.campaigns && s.campaigns[a.campaignId].advertiserId == adv
    ensures ValidStats(StatsOf(AdvertiserTally(s, ids)))
    ensures StatsOf(AdvertiserTally(s, ids)).conversion <= 1.0
  {
    PoolTally(s, ids);
    SumGroupsIsKept(s.actions, ByCampaign, ids);
    forall a | a in s.actions ensures a.campaignId in s.campaigns {
      var i :| 0 <= i < |s.actions| && s.actions[i] == a;
    }
    AdvertiserTallyBounds(s, ids);
    StatsOfValid(AdvertiserTally(s, ids));
  }

  lemma {:induction false} AdvertiserTallyBounds(s: State, ids: seq<CampaignId>)
    requires Inv(s)
    requires forall i | 0 <= i < |ids| :: ids[i] in s.campaigns
    ensures 0 <= AdvertiserTally(s, ids).clicks <= AdvertiserTally(s, ids).impressions
    ensures AdvertiserTally(s, ids).spentImpressions >= 0.0 && AdvertiserTally(s, ids).spentClicks >= 0.0
    decreases |ids|
  {
    if ids != [] {
      var init, id := ids[..|ids| - 1], ids[|ids| - 1];
      AdvertiserTallyBounds(s, init);
      CampaignStatsFromLedger(s, id);
      ClicksAtMostImpressions(s, id);
    }
  }

  // ---- the per-day tables against the totals ----

  /** The pooled actions are actions of the ledger. */
  lemma {:induction false} PoolMembers(acts: seq<Action>, ids: seq<CampaignId>)
    ensures forall a | a in Pool(acts, ids) :: a in acts
    decreases |ids|
  {
    if ids != [] {
      PoolMembers(acts, ids[..|ids| - 1]);
      CampaignActionsTally(acts, ids[|ids| - 1]);
    }
  }

  /** In a well-formed ledger the per-day tables of a campaign and of a pool of campaigns
      hold only records inside the daily response bounds. */
  lemma LedgerDailyTablesValid(s: State, id: CampaignId, ids: seq<CampaignId>)
    requires LedgerWellFormed(s)
    ensures forall r | r in DailyTable(CampaignActions(s.actions, id)) :: ValidDailyStats(r)
    ensures forall r | r in DailyTable(Pool(s.actions, ids)) :: ValidDailyStats(r)
  {
    var own, pooled := CampaignActions(s.actions, id), Pool(s.actions, ids);
    CampaignActionsTally(s.actions, id);
    PoolMembers(s.actions, ids);
    forall i | 0 <= i < |own| ensures own[i].cost >= 0.0 {
      var j :| 0 <= j < |s.actions| && s.actions[j] == own[i];
    }
    forall i | 0 <= i < |pooled| ensures pooled[i].cost >= 0.0 {
      assert pooled[i] in s.actions;
      var j :| 0 <= j < |s.actions| && s.actions[j] == pooled[i];
    }
    DailyTableValid(own);
    DailyTableValid(pooled);
  }

  /** In a valid store a campaign's per-day table adds up to its totals. */
  lemma CampaignDailyMatchesTotals(s: State, id: CampaignId)
    requires Inv(s) && id in s.campaigns
    ensures SumRecords(DailyTable(CampaignActions(s.actions, id))) == CampaignTally(s, id)
  {
    DailyTableSums(CampaignActions(s.actions, id));
    CampaignStatsFromLedger(s, id);
  }

  /** In a valid store an advertiser's per-day table, pooled over its campaigns, adds up to
      its totals. */
  lemma AdvertiserDailyMatchesTotals(s: State, ids: seq<CampaignId>)
    requires Inv(s)
    requires forall i | 0 <= i < |ids| :: ids[i] in s.campaigns
    ensures SumRecords(DailyTable(Pool(s.actions, ids))) == AdvertiserTally(s, ids)
  {
    DailyTableSums(Pool(s.actions, ids));
    PoolTally(s, ids);
  }
}
