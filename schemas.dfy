/** Request and response bodies and their declared field bounds. A body outside its bounds
    is refused before a handler runs (SchemaViolation). */
module Schemas {
  import opened Domain

  // ---- campaign bodies ----

  /** Targeting bounds: every field optional; when present age_from >= 0, age_to <= 100,
      location at least 3 characters. */
  predicate ValidTargeting(t: Targeting) {
    && (t.ageFrom.Some? ==> t.ageFrom.value >= 0)
    && (t.ageTo.Some? ==> t.ageTo.value <= 100)
    && (t.location.Some? ==> |t.location.value| >= 3)
  }

  /** The age-range rule the targeting body declares a validator for. That validator is
      decorated with `@classmethod` above `@field_validator`, so it is never registered and
      the rule is not part of `ValidTargeting`. */
  predicate AgeRangeOrdered(t: Targeting) {
    t.ageFrom.Some? && t.ageTo.Some? ==> t.ageFrom.value <= t.ageTo.value
  }

  datatype CampaignCreate = CampaignCreate(
    impressionsLimit: int,
    clicksLimit: int,
    costPerImpression: real,
    costPerClick: real,
    adTitle: string,
    adText: string,
    startDate: int,
    endDate: int,
    targeting: Targeting)

  predicate ValidCampaignCreate(d: CampaignCreate) {
    && d.impressionsLimit >= 0 && d.clicksLimit >= 0
    && d.costPerImpression >= 0.0 && d.costPerClick >= 0.0
    && |d.adTitle| >= 3 && |d.adText| >= 3
    && d.startDate >= 0 && d.endDate >= 0
    && ValidTargeting(d.targeting)
  }

  /** The date-order rule of the campaign body's second unregistered validator. */
  predicate DateRangeOrdered(d: CampaignCreate) {
    d.startDate <= d.endDate
  }

  /** A partial update: every scalar optional with the same bounds; targeting required. */
  datatype CampaignUpdate = CampaignUpdate(
    impressionsLimit: Option<int>,
    clicksLimit: Option<int>,
    costPerImpression: Option<real>,
    costPerClick: Option<real>,
    adTitle: Option<string>,
    adText: Option<string>,
    startDate: Option<int>,
    endDate: Option<int>,
    targeting: Targeting)

  predicate ValidCampaignUpdate(d: CampaignUpdate) {
    && (d.impressionsLimit.Some? ==> d.impressionsLimit.value >= 0)
    && (d.clicksLimit.Some? ==> d.clicksLimit.value >= 0)
    && (d.costPerImpression.Some? ==> d.costPerImpression.value >= 0.0)
    && (d.costPerClick.Some? ==> d.costPerClick.value >= 0.0)
    && (d.adTitle.Some? ==> |d.adTitle.value| >= 3)
    && (d.adText.Some? ==> |d.adText.value| >= 3)
    && (d.startDate.Some? ==> d.startDate.value >= 0)
    && (d.endDate.Some? ==> d.endDate.value >= 0)
    && ValidTargeting(d.targeting)
  }

  // ---- client, advertiser and ML-score bodies ----

  datatype ClientUpsert = ClientUpsert(
    clientId: ClientId, login: string, age: int, location: string, gender: Gender)

  /** login and location at least 3 characters, age in [0, 100]; the gender is one of the
      enumeration's values by construction. */
  predicate ValidClientUpsert(u: ClientUpsert) {
    |u.login| >= 3 && 0 <= u.age <= 100 && |u.location| >= 3
  }

  datatype AdvertiserUpsert = AdvertiserUpsert(advertiserId: AdvertiserId, name: string)

  predicate ValidAdvertiserUpsert(u: AdvertiserUpsert) {
    |u.name| >= 3
  }

  datatype MLScore = MLScore(clientId: ClientId, advertiserId: AdvertiserId, score: int)

  predicate ValidMLScore(m: MLScore) {
    m.score >= 0
  }

  // ---- statistics bodies ----

  datatype Stats = Stats(
    impressionsCount: int,
    clicksCount: int,
    conversion: real,
    spentImpressions: real,
    spentClicks: real,
    spentTotal: real)

  /** Every field of a statistics record is non-negative. */
  predicate ValidStats(s: Stats) {
    && s.impressionsCount >= 0 && s.clicksCount >= 0
    && s.conversion >= 0.0
    && s.spentImpressions >= 0.0 && s.spentClicks >= 0.0 && s.spentTotal >= 0.0
  }

  datatype DailyStats = DailyStats(date: int, stats: Stats)

  predicate ValidDailyStats(d: DailyStats) {
    d.date >= 0 && ValidStats(d.stats)
  }

  /** The body of an advance-day request. */
  predicate ValidDateSetting(currentDate: int) {
    currentDate >= 0
  }
}
