/** The campaign endpoints: create (with optional generated ad text), list an advertiser's
    campaigns a page at a time, fetch, update under the rules that freeze a started
    campaign, and delete together with its actions. */
module CampaignsRouter {
  import opened Domain
  import opened Seqs
  import opened Ledger
  import opened Schemas
  import opened Store

  function GetOr<T>(o: Option<T>, d: T): T {
    if o.Some? then o.value else d
  }

  // ---- generated ad text ----

  /** The ad-text generator, as the reply it gives to attempt `k` for a title: some text,
      or a failure. */
  type Generator = (string, nat) -> Option<string>

  /** The reply of the first of three attempts that succeeds, or nothing. */
  function FirstReply(gen: Generator, title: string): (r: Option<string>)
    ensures r.Some? <==> exists k | 0 <= k < 3 :: gen(title, k).Some?
    ensures r.Some? ==> exists k | 0 <= k < 3 :: r == gen(title, k) && forall j | 0 <= j < k :: gen(title, j).None?
  {
    if gen(title, 0).Some? then gen(title, 0)
    else if gen(title, 1).Some? then gen(title, 1)
    else gen(title, 2)
  }

  /** Asks the generator for a text up to three times and stops at the first success;
      `calls` is how many times it was asked. */
  method GenerateAdText(gen: Generator, title: string) returns (text: Option<string>, calls: nat)
    ensures text == FirstReply(gen, title)
    ensures 1 <= calls <= 3
    ensures text.Some? ==> text == gen(title, calls - 1) && forall k | 0 <= k < calls - 1 :: gen(title, k).None?
    ensures text.None? ==> calls == 3
  {
    var attempts := 3;
    calls := 0;
    while true
      invariant 0 < attempts <= 3 && calls == 3 - attempts
      invariant forall k | 0 <= k < calls :: gen(title, k).None?
      decreases attempts
    {
      var reply := gen(title, calls);
      calls := calls + 1;
      if reply.Some? {
        return reply, calls;
      }
      attempts := attempts - 1;
      if attempts == 0 {
        return None, calls;
      }
    }
  }

  // ---- create ----

  /** The stored campaign for a create request: every field copied from the request, the
      given ad text, the targeting's four keys, and zero counters. */
  function NewCampaign(id: CampaignId, adv: AdvertiserId, data: CampaignCreate, adText: string): Campaign {
    Campaign(id, adv, data.impressionsLimit, data.clicksLimit, data.costPerImpression, data.costPerClick,
             data.adTitle, adText, data.startDate, data.endDate, data.targeting, 0, 0)
  }

  /** The date window a campaign must have: it starts today or later and ends no earlier
      than it starts. */
  predicate WindowOk(day: int, start: int, end: int) {
    day <= start <= end
  }

  /** Creates a campaign under the fresh id `newId`. Bounds are checked first, then the
      advertiser, then the date window, then (with `llm`) the text generation; only a
      request that passes all four adds the campaign. */
  method CreateCampaign(st: Store, adv: AdvertiserId, data: CampaignCreate, llm: bool, gen: Generator, newId: CampaignId)
    returns (r: Result<Campaign>)
    requires st.Valid() && newId !in st.campaigns
    modifies st
    ensures st.Valid()
    ensures !ValidCampaignCreate(data) ==> r == Err(SchemaViolation)
    ensures ValidCampaignCreate(data) && adv !in old(st.advertisers) ==> r == Err(NotFound)
    ensures ValidCampaignCreate(data) && adv in old(st.advertisers) && !WindowOk(old(st.day), data.startDate, data.endDate) ==>
              r == Err(InvalidTransition)
    ensures ValidCampaignCreate(data) && adv in old(st.advertisers) && WindowOk(old(st.day), data.startDate, data.endDate) ==>
              r == (if !llm then Ok(NewCampaign(newId, adv, data, data.adText))
                    else if FirstReply(gen, data.adTitle).Some? then Ok(NewCampaign(newId, adv, data, FirstReply(gen, data.adTitle).value))
                    else Err(ExternalServiceFailure))
    ensures r.Ok? ==> st.Snapshot() == old(st.Snapshot()).(campaigns := old(st.campaigns)[newId := r.value])
    ensures r.Err? ==> st.Snapshot() == old(st.Snapshot())
  {
    if !ValidCampaignCreate(data) {
      return Err(SchemaViolation);
    }
    if adv !in st.advertisers {
      return Err(NotFound);
    }
    var currentDay := st.day;
    if !(currentDay <= data.startDate <= data.endDate) {
      return Err(InvalidTransition);
    }
    var campaign := NewCampaign(newId, adv, data, data.adText);
    if llm {
      var text, calls := GenerateAdText(gen, data.adTitle);
      if text.None? {
        return Err(ExternalServiceFailure);
      }
      campaign := campaign.(adText := text.value);
    }
    InsertCampaignKeepsInv(st.Snapshot(), campaign);
    st.campaigns := st.campaigns[newId := campaign];
    r := Ok(campaign);
  }

  /** A created campaign has no traffic yet and cannot be served before its start day. */
  lemma CreatedCampaignStartsIdle(s: State, adv: AdvertiserId, data: CampaignCreate, text: string, id: CampaignId)
    requires Inv(s) && id !in s.campaigns && adv in s.advertisers && ValidCampaignCreate(data)
    requires WindowOk(s.day, data.startDate, data.endDate)
    ensures Inv(s.(campaigns := s.campaigns[id := NewCampaign(id, adv, data, text)]))
    ensures CountOf(s.actions, id, Impression) == 0 && CountOf(s.actions, id, Click) == 0
  {
    InsertCampaignKeepsInv(s, NewCampaign(id, adv, data, text));
    CountOfUnreferenced(s.actions, id, Impression);
    CountOfUnreferenced(s.actions, id, Click);
  }

  /** The date-order rule of the unregistered validator is enforced by the handler
      instead: a request whose start day lies after its end day fails the window check,
      whatever the current day. */
  lemma UnorderedDatesFailWindow(day: int, data: CampaignCreate)
    requires ValidCampaignCreate(data) && !DateRangeOrdered(data)
    ensures !WindowOk(day, data.startDate, data.endDate)
  {
  }

  // ---- list ----

  function StartKey(c: Campaign): real { c.startDate as real }

  /** The stored campaigns of an advertiser. */
  function CampaignsOf(s: State, adv: AdvertiserId): set<Campaign> {
    set c | c in s.campaigns.Values && c.advertiserId == adv
  }

  /** A page of `xs`: everything without a size; the first `size` with a size only; the
      `page`-th run of `size` (counting from 1) with both. */
  function Paginate<T>(xs: seq<T>, size: Option<int>, page: Option<int>): seq<T>
    requires size.Some? ==> size.value >= 1
    requires page.Some? ==> page.value >= 1
  {
    if size.None? then xs
    else if page.None? then xs[..Min(size.value, |xs|)]
    else
      var offset := (page.value - 1) * size.value;
      xs[Min(offset, |xs|)..Min(offset + size.value, |xs|)]
  }

  function Min(a: int, b: int): int { if a <= b then a else b }

  /** The query bounds: a page size and a page number, when given, are both above 1. */
  predicate ValidPaging(size: Option<int>, page: Option<int>) {
    (size.Some? ==> size.value > 1) && (page.Some? ==> page.value > 1)
  }

  /** Lists an advertiser's campaigns ordered by start day (campaigns with equal start
      days in the order the database returns them, `rows`), a page at a time. */
  method GetCampaignsByAuthor(st: Store, adv: AdvertiserId, size: Option<int>, page: Option<int>)
    returns (r: Result<seq<Campaign>>, ghost rows: seq<Campaign>)
    ensures !ValidPaging(size, page) ==> r == Err(SchemaViolation)
    ensures ValidPaging(size, page) && adv !in st.advertisers ==> r == Err(NotFound)
    ensures ValidPaging(size, page) && adv in st.advertisers ==>
      && Enumerates(rows, CampaignsOf(st.Snapshot(), adv))
      && r == Ok(Paginate(SortBy(rows, StartKey), size, page))
  {
    rows := [];
    if !ValidPaging(size, page) {
      return Err(SchemaViolation), rows;
    }
    if adv !in st.advertisers {
      return Err(NotFound), rows;
    }
    var found := Enumerate(CampaignsOf(st.Snapshot(), adv));
    rows := found;
    var query := SortBy(found, StartKey);
    var result;
    if size.None? {
      result := query;
    } else if page.None? {
      result := query[..Min(size.value, |query|)];
    } else {
      var offset := (page.value - 1) * size.value;
      result := query[Min(offset, |query|)..Min(offset + size.value, |query|)];
    }
    r := Ok(result);
  }

  /** A page is the contiguous run of the ordered list starting at `(page - 1) * size`,
      never longer than `size`. */
  lemma PageIsSlice<T>(xs: seq<T>, size: int, page: int)
    requires size >= 1 && page >= 1
    ensures |Paginate(xs, Some(size), Some(page))| <= size
    ensures forall i | 0 <= i < |Paginate(xs, Some(size), Some(page))| ::
              Paginate(xs, Some(size), Some(page))[i] == xs[(page - 1) * size + i]
  {
    var offset := (page - 1) * size;
    assert offset >= 0 by {
      assert page - 1 >= 0;
    }
  }

  /** The pages of the listing tile the ordered list: the first `size` (a size without a
      page) followed by pages 2 to `n` is exactly the first `n * size` campaigns. */
  function PagesUpTo<T>(xs: seq<T>, size: int, n: int): seq<T>
    requires size >= 1 && n >= 1
    decreases n
  {
    if n == 1 then Paginate(xs, Some(size), None)
    else PagesUpTo(xs, size, n - 1) + Paginate(xs, Some(size), Some(n))
  }

  lemma {:induction false} PagesTile<T>(xs: seq<T>, size: int, n: int)
    requires size >= 1 && n >= 1
    ensures PagesUpTo(xs, size, n) == xs[..Min(n * size, |xs|)]
    decreases n
  {
    if n > 1 {
      PagesTile(xs, size, n - 1);
      var lo := Min((n - 1) * size, |xs|);
      var hi := Min((n - 1) * size + size, |xs|);
      assert n * size == (n - 1) * size + size;
      assert (n - 1) * size >= 0 by {
        assert n - 1 >= 1;
      }
      assert xs[..lo] + xs[lo..hi] == xs[..hi];
    }
  }

  /** Asking for page 1 is refused: the page bound admits only pages from 2 on. */
  lemma FirstPageRefused(size: Option<int>)
    ensures !ValidPaging(size, Some(1))
  {
  }

  // ---- fetch ----

  /** A campaign of the advertiser, or NotFound when the pair does not exist. */
  method GetCampaign(st: Store, adv: AdvertiserId, id: CampaignId) returns (r: Result<Campaign>)
    ensures r.Ok? <==> id in st.campaigns && st.campaigns[id].advertiserId == adv
    ensures r.Ok? ==> r.value == st.campaigns[id]
    ensures r.Err? ==> r.error == NotFound
  {
    if id !in st.campaigns || st.campaigns[id].advertiserId != adv {
      return Err(NotFound);
    }
    r := Ok(st.campaigns[id]);
  }

  // ---- update ----

  /** The request gives one of the fields that freeze once the campaign has started. */
  predicate TouchesFrozen(data: CampaignUpdate) {
    data.startDate.Some? || data.endDate.Some? || data.impressionsLimit.Some? || data.clicksLimit.Some?
  }

  /** The campaign after an accepted update with final ad text `adText`: each given field
      replaces the stored one, an omitted field keeps it, and the targeting is replaced by
      the request's. */
  function Merge(c: Campaign, data: CampaignUpdate, adText: string): Campaign {
    c.(startDate := GetOr(data.startDate, c.startDate),
       endDate := GetOr(data.endDate, c.endDate),
       impressionsLimit := GetOr(data.impressionsLimit, c.impressionsLimit),
       clicksLimit := GetOr(data.clicksLimit, c.clicksLimit),
       costPerImpression := GetOr(data.costPerImpression, c.costPerImpression),
       costPerClick := GetOr(data.costPerClick, c.costPerClick),
       adTitle := GetOr(data.adTitle, c.adTitle),
       adText := adText,
       targeting := data.targeting)
  }

  /** The outcome of the update rules for stored campaign `c` on day `day`: the frozen
      fields, then the merged date window, then (with `llm`) the text generated for the
      updated title. */
  function Revise(c: Campaign, day: int, data: CampaignUpdate, llm: bool, gen: Generator): Result<Campaign> {
    if c.startDate <= day && TouchesFrozen(data) then Err(InvalidTransition)
    else if !WindowOk(day, GetOr(data.startDate, c.startDate), GetOr(data.endDate, c.endDate)) then Err(InvalidTransition)
    else if !llm then Ok(Merge(c, data, GetOr(data.adText, c.adText)))
    else
      var text := FirstReply(gen, GetOr(data.adTitle, c.adTitle));
      if text.Some? then Ok(Merge(c, data, text.value)) else Err(ExternalServiceFailure)
  }

  /** The outcome of an update request against state `s`. */
  function UpdateOutcome(s: State, adv: AdvertiserId, id: CampaignId, data: CampaignUpdate, llm: bool, gen: Generator)
    : Result<Campaign>
  {
    if !ValidCampaignUpdate(data) then Err(SchemaViolation)
    else if id !in s.campaigns || s.campaigns[id].advertiserId != adv then Err(NotFound)
    else Revise(s.campaigns[id], s.day, data, llm, gen)
  }

  /** Applies the update rules to a loaded campaign, assigning the given fields one at a
      time as the handler does. */
  method ReviseCampaign(c0: Campaign, currentDay: int, data: CampaignUpdate, llm: bool, gen: Generator)
    returns (r: Result<Campaign>)
    ensures r == Revise(c0, currentDay, data, llm, gen)
  {
    var c := c0;
    if c.startDate <= currentDay {
      if data.startDate.Some? || data.endDate.Some? {
        return Err(InvalidTransition);
      }
      if data.impressionsLimit.Some? || data.clicksLimit.Some? {
        return Err(InvalidTransition);
      }
    }
    var currentStartDate := c.startDate;
    if data.startDate.Some? {
      currentStartDate := data.startDate.value;
    }
    var currentEndDate := c.endDate;
    if data.endDate.Some? {
      currentEndDate := data.endDate.value;
    }
    if !(currentDay <= currentStartDate <= currentEndDate) {
      return Err(InvalidTransition);
    }
    var impressionsLimit := c.impressionsLimit;
    if data.impressionsLimit.Some? {
      impressionsLimit := data.impressionsLimit.value;
    }
    var clicksLimit := c.clicksLimit;
    if data.clicksLimit.Some? {
      clicksLimit := data.clicksLimit.value;
    }
    var costPerImpression := c.costPerImpression;
    if data.costPerImpression.Some? {
      costPerImpression := data.costPerImpression.value;
    }
    var costPerClick := c.costPerClick;
    if data.costPerClick.Some? {
      costPerClick := data.costPerClick.value;
    }
    var adTitle := c.adTitle;
    if data.adTitle.Some? {
      adTitle := data.adTitle.value;
    }
    var adText := c.adText;
    if data.adText.Some? {
      adText := data.adText.value;
    }
    if llm {
      var text, calls := GenerateAdText(gen, adTitle);
      if text.None? {
        return Err(ExternalServiceFailure);
      }
      adText := text.value;
    }
    c := c.(startDate := currentStartDate, endDate := currentEndDate, impressionsLimit := impressionsLimit,
            clicksLimit := clicksLimit, costPerImpression := costPerImpression, costPerClick := costPerClick,
            adTitle := adTitle, adText := adText, targeting := data.targeting);
    assert c == Merge(c0, data, adText);
    r := Ok(c);
  }

  /** Updates a campaign of the advertiser and commits only when every check and the
      optional text generation succeeded. */
  method UpdateCampaign(st: Store, adv: AdvertiserId, id: CampaignId, data: CampaignUpdate, llm: bool, gen: Generator)
    returns (r: Result<Campaign>)
    requires st.Valid()
    modifies st
    ensures st.Valid()
    ensures r == UpdateOutcome(old(st.Snapshot()), adv, id, data, llm, gen)
    ensures r.Ok? ==> st.Snapshot() == old(st.Snapshot()).(campaigns := old(st.campaigns)[id := r.value])
    ensures r.Err? ==> st.Snapshot() == old(st.Snapshot())
  {
    if !ValidCampaignUpdate(data) {
      return Err(SchemaViolation);
    }
    if id !in st.campaigns || st.campaigns[id].advertiserId != adv {
      return Err(NotFound);
    }
    r := ReviseCampaign(st.campaigns[id], st.day, data, llm, gen);
    if r.Ok? {
      UpdateKeepsInv(st.Snapshot(), adv, id, data, llm, gen);
      st.campaigns := st.campaigns[id := r.value];
    }
  }

  /** An accepted update keeps the invariant. */
  lemma UpdateKeepsInv(s: State, adv: AdvertiserId, id: CampaignId, data: CampaignUpdate, llm: bool, gen: Generator)
    requires Inv(s)
    ensures UpdateOutcome(s, adv, id, data, llm, gen).Ok? ==>
              Inv(s.(campaigns := s.campaigns[id := UpdateOutcome(s, adv, id, data, llm, gen).value]))
  {
    var r := UpdateOutcome(s, adv, id, data, llm, gen);
    if r.Ok? {
      ReplaceCampaignKeepsInv(s, r.value);
    }
  }

  /** Once a campaign has started, a request giving its dates or caps is refused. */
  lemma StartedCampaignFrozen(s: State, adv: AdvertiserId, id: CampaignId, data: CampaignUpdate, llm: bool, gen: Generator)
    requires ValidCampaignUpdate(data) && id in s.campaigns && s.campaigns[id].advertiserId == adv
    requires s.campaigns[id].startDate <= s.day && TouchesFrozen(data)
    ensures UpdateOutcome(s, adv, id, data, llm, gen) == Err(InvalidTransition)
  {
  }

  /** A campaign that started before today cannot be updated at all: its dates may not be
      given, and its stored start day fails the window check. */
  lemma StartedBeforeTodayNeverUpdates(s: State, adv: AdvertiserId, id: CampaignId, data: CampaignUpdate, llm: bool, gen: Generator)
    requires id in s.campaigns && s.campaigns[id].startDate < s.day
    ensures UpdateOutcome(s, adv, id, data, llm, gen).Err?
  {
  }

  /** What an accepted update changes: each given field takes the request's value, each
      omitted field keeps the stored one, the targeting is the request's, and the id, the
      owner and the counters are untouched. */
  lemma UpdateFieldEffects(s: State, adv: AdvertiserId, id: CampaignId, data: CampaignUpdate, llm: bool, gen: Generator)
    requires UpdateOutcome(s, adv, id, data, llm, gen).Ok?
    ensures id in s.campaigns
    ensures var c, c' := s.campaigns[id], UpdateOutcome(s, adv, id, data, llm, gen).value;
      && c'.id == c.id && c'.advertiserId == c.advertiserId == adv
      && c'.impressions == c.impressions && c'.clicks == c.clicks
      && c'.targeting == data.targeting
      && c'.startDate == (if data.startDate.Some? then data.startDate.value else c.startDate)
      && c'.endDate == (if data.endDate.Some? then data.endDate.value else c.endDate)
      && c'.impressionsLimit == (if data.impressionsLimit.Some? then data.impressionsLimit.value else c.impressionsLimit)
      && c'.clicksLimit == (if data.clicksLimit.Some? then data.clicksLimit.value else c.clicksLimit)
      && c'.costPerImpression == (if data.costPerImpression.Some? then data.costPerImpression.value else c.costPerImpression)
      && c'.costPerClick == (if data.costPerClick.Some? then data.costPerClick.value else c.costPerClick)
      && c'.adTitle == (if data.adTitle.Some? then data.adTitle.value else c.adTitle)
      && (!llm ==> c'.adText == (if data.adText.Some? then data.adText.value else c.adText))
      && (llm ==> Some(c'.adText) == FirstReply(gen, c'.adTitle))
      && WindowOk(s.day, c'.startDate, c'.endDate)
  {
  }

  /** The row an accepted update leaves behind as the handler is written. It assigns the
      targeting into the loaded JSON dictionary in place, a change the ORM does not track
      on a plain JSON column, so the row keeps its stored targeting while every other field
      takes the revised value. */
  function PersistedAsWritten(stored: Campaign, revised: Campaign): (p: Campaign)
    ensures p.targeting == stored.targeting
    ensures p.(targeting := revised.targeting) == revised
  {
    revised.(targeting := stored.targeting)
  }

  /** As written, an accepted update that changes the targeting answers with the new
      targeting but leaves the old one stored, so later ad requests still filter by the
      old one. */
  lemma TargetingEditLostAsWritten(s: State, adv: AdvertiserId, id: CampaignId, data: CampaignUpdate, llm: bool, gen: Generator)
    requires UpdateOutcome(s, adv, id, data, llm, gen).Ok?
    requires id in s.campaigns && data.targeting != s.campaigns[id].targeting
    ensures var r := UpdateOutcome(s, adv, id, data, llm, gen).value;
      && r.targeting == data.targeting
      && PersistedAsWritten(s.campaigns[id], r).targeting == s.campaigns[id].targeting
      && PersistedAsWritten(s.campaigns[id], r) != r
  {
    UpdateFieldEffects(s, adv, id, data, llm, gen);
  }

  // ---- delete ----

  /** Deletes a campaign of the advertiser and, by cascade, its actions. */
  method DeleteCampaign(st: Store, adv: AdvertiserId, id: CampaignId) returns (r: Result<()>)
    requires st.Valid()
    modifies st
    ensures st.Valid()
    ensures r.Ok? <==> id in old(st.campaigns) && old(st.campaigns)[id].advertiserId == adv
    ensures r.Err? ==> r.error == NotFound && st.Snapshot() == old(st.Snapshot())
    ensures r.Ok? ==> st.Snapshot() == old(st.Snapshot()).(campaigns := old(st.campaigns) - {id},
                                                          actions := WithoutCampaign(old(st.actions), id))
  {
    if id !in st.campaigns || st.campaigns[id].advertiserId != adv {
      return Err(NotFound);
    }
    DeleteCampaignKeepsInv(st.Snapshot(), id);
    st.campaigns := st.campaigns - {id};
    st.actions := WithoutCampaign(st.actions, id);
    r := Ok(());
  }

  /** Deleting a campaign leaves every other campaign's actions as they were. */
  lemma {:induction false} DeleteLeavesOtherCampaigns(acts: seq<Action>, id: CampaignId, other: CampaignId)
    requires other != id
    ensures CampaignActions(WithoutCampaign(acts, id), other) == CampaignActions(acts, other)
    ensures CampaignActions(WithoutCampaign(acts, id), id) == []
    decreases |acts|
  {
    if acts != [] {
      var init, a := acts[..|acts| - 1], acts[|acts| - 1];
      DeleteLeavesOtherCampaigns(init, id, other);
      var w := WithoutCampaign(init, id);
      if a.campaignId != id {
        assert WithoutCampaign(acts, id) == w + [a];
        assert (w + [a])[..|w|] == w;
      } else {
        assert WithoutCampaign(acts, id) == w;
      }
    }
  }
}
