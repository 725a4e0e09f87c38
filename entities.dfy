/** The stored entities the operations read and write. */
module Entities {

  import opened Errors

  /** Row identities. The database generates them; the model draws them from
      the table's clock (see Tables.Table). */
  type Id = nat

  /** User identities. */
  type UserId = nat

  /** A stored row of a table whose rows belong to one user: the row's
      identity, its owner, its creation stamp and its own columns. */
  datatype Row<D> = Row(id: Id, userId: UserId, createdAt: nat, data: D)

  /** The lifecycle status of a campaign. */
  datatype Status = Draft | Active | Paused

  /** The columns of a Campaign row that the operations set. */
  datatype CampaignFields = CampaignFields(
    productName: string,
    targetAudience: string,
    tone: string,
    status: Status)

  type Campaign = Row<CampaignFields>

  /** The arguments of createCampaign. A caller may send a status as well; no
      version of createCampaign reads it. */
  datatype NewCampaign = NewCampaign(
    productName: string,
    targetAudience: string,
    tone: string,
    status: Option<Status>)

  /** The arguments of updateCampaign besides the id: every field is optional
      and an absent field leaves the column as it is. */
  datatype CampaignPatch = CampaignPatch(
    status: Option<Status>,
    productName: Option<string>,
    targetAudience: Option<string>,
    tone: Option<string>)

  /** The patch applied by updateCampaign (either version): the fields
      present replace the stored ones. */
  function ApplyPatch(d: CampaignFields, patch: CampaignPatch): CampaignFields
  {
    CampaignFields(
      if patch.productName.Some? then patch.productName.value else d.productName,
      if patch.targetAudience.Some? then patch.targetAudience.value else d.targetAudience,
      if patch.tone.Some? then patch.tone.value else d.tone,
      if patch.status.Some? then patch.status.value else d.status)
  }

  /** The columns either createCampaign stores: the three strings as given,
      and status draft whatever the caller sent. */
  function DraftOf(input: NewCampaign): CampaignFields
  {
    CampaignFields(input.productName, input.targetAudience, input.tone, Draft)
  }

  /** The columns of a GptResponse row. */
  datatype GptResponseFields = GptResponseFields(content: string, response: string)

  type GptResponse = Row<GptResponseFields>

  /** The patch applied by updateGptResponse: a response present replaces the
      stored one; the content column is left alone. */
  function ApplyResponsePatch(d: GptResponseFields, response: Option<string>): GptResponseFields
  {
    if response.Some? then d.(response := response.value) else d
  }

  /** A JSON value of any shape, as `JSON.parse` returns it. */
  datatype Json =
    | JNull
    | JBool(b: bool)
    | JNumber(n: real)
    | JString(s: string)
    | JArray(items: seq<Json>)
    | JObject(fields: map<string, Json>)

  /** One generated advertisement and its alternatives. */
  datatype AdCopy = AdCopy(headline: string, body: string, cta: string, variations: seq<string>)

  /** What a generation returns to its caller; it is never stored. */
  datatype AdCopies = AdCopies(adCopies: seq<AdCopy>)
}
