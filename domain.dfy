/** The records the ad-serving backend stores (the shapes of its ORM models) and the
    outcomes its handlers return. Identifiers (UUIDs in the service) are naturals. */
module Domain {

  type ClientId = nat
  type AdvertiserId = nat
  type CampaignId = nat

  datatype Option<T> = None | Some(value: T)

  /** A client's gender. */
  datatype Gender = Male | Female

  /** A campaign's gender target: one gender, or a value other than MALE/FEMALE, which
      the ad filter lets through for every client. */
  datatype GenderAll = Only(gender: Gender) | All

  /** Targeting as stored with a campaign: always the four keys, each possibly null. */
  datatype Targeting = Targeting(
    gender: Option<GenderAll>,
    ageFrom: Option<int>,
    ageTo: Option<int>,
    location: Option<string>)

  datatype Client = Client(login: string, age: int, location: string, gender: Gender)

  datatype Advertiser = Advertiser(name: string)

  /** A stored campaign; `impressions` and `clicks` are the running counters, which start
      at 0 when the campaign is created. */
  datatype Campaign = Campaign(
    id: CampaignId,
    advertiserId: AdvertiserId,
    impressionsLimit: int,
    clicksLimit: int,
    costPerImpression: real,
    costPerClick: real,
    adTitle: string,
    adText: string,
    startDate: int,
    endDate: int,
    targeting: Targeting,
    impressions: nat,
    clicks: nat)

  datatype ActionKind = Impression | Click

  /** One row of the append-only action ledger: who saw or clicked which campaign, on which
      simulated day, and the cost charged at that moment. */
  datatype Action = Action(
    clientId: ClientId,
    campaignId: CampaignId,
    cost: real,
    kind: ActionKind,
    day: nat)

  /** The ad returned to a client. */
  datatype Ad = Ad(adId: CampaignId, adTitle: string, adText: string, advertiserId: AdvertiserId)

  function AdOf(c: Campaign): Ad {
    Ad(c.id, c.adTitle, c.adText, c.advertiserId)
  }

  /** Error outcomes of the handlers:
      NotFound (404 for a missing client, advertiser, campaign or ad),
      NoInventory (404 "No campaigns found"),
      PrecursorMissing (403, click before impression),
      InvalidTransition (400 for a day moved backwards, a date window that does not hold,
        or a date or limit edit after the campaign started),
      ValidationFailure (400 for repeated keys in a bulk upsert or a login held by another client),
      SchemaViolation (422, a request body or query parameter outside its declared bounds),
      ExternalServiceFailure (500, ad-text generation failed three times),
      ServerFailure (500, an exception the handler does not catch). */
  datatype Error =
    | NotFound
    | NoInventory
    | PrecursorMissing
    | InvalidTransition
    | ValidationFailure
    | SchemaViolation
    | ExternalServiceFailure
    | ServerFailure

  datatype Result<T> = Ok(value: T) | Err(error: Error)
}
