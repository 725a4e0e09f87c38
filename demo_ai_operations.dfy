/** The campaign operations of app/src/demo-ai-app/operations.ts. Each
    rejects with 401 when the context has no user. Update and delete select the
    row by id alone, so they reach a row of any owner. */
module DemoAiOperations {

  import opened Errors
  import opened Entities
  import opened Tables

  method CreateCampaign(campaigns: Table<CampaignFields>, caller: Option<UserId>, input: NewCampaign)
    returns (r: Result<Campaign>)
    requires campaigns.Valid()
    modifies campaigns
    ensures campaigns.Valid()
    ensures caller.None? ==> r == Err(Unauthorized) && unchanged(campaigns)
    ensures caller.Some? ==>
              && r.Ok?
              && r.value.userId == caller.value
              && r.value.data == CampaignFields(input.productName, input.targetAudience, input.tone, Draft)
              && r.value.id !in old(campaigns.rows)
              && campaigns.rows == old(campaigns.rows)[r.value.id := r.value]
              && campaigns.ListOwned(caller.value) == [r.value] + old(campaigns.ListOwned(caller.value))
  {
    if caller.None? {
      return Err(Unauthorized);
    }
    var row := campaigns.Insert(caller.value, DraftOf(input));
    r := Ok(row);
  }

  method UpdateCampaign(campaigns: Table<CampaignFields>, caller: Option<UserId>, id: Id, patch: CampaignPatch)
    returns (r: Result<Campaign>)
    requires campaigns.Valid()
    modifies campaigns
    ensures campaigns.Valid()
    ensures caller.None? ==> r == Err(Unauthorized) && unchanged(campaigns)
    ensures caller.Some? && id in old(campaigns.rows) ==>
              var updated := old(campaigns.rows)[id].(data := ApplyPatch(old(campaigns.rows)[id].data, patch));
              r == Ok(updated) && campaigns.rows == old(campaigns.rows)[id := updated]
    ensures caller.Some? && id !in old(campaigns.rows) ==>
              r == Err(RecordToUpdateNotFound) && campaigns.rows == old(campaigns.rows)
  {
    if caller.None? {
      return Err(Unauthorized);
    }
    r := campaigns.UpdateWhere(id, None, d => ApplyPatch(d, patch));
  }

  method DeleteCampaign(campaigns: Table<CampaignFields>, caller: Option<UserId>, id: Id)
    returns (r: Result<Campaign>)
    requires campaigns.Valid()
    modifies campaigns
    ensures campaigns.Valid()
    ensures caller.None? ==> r == Err(Unauthorized) && unchanged(campaigns)
    ensures caller.Some? && id in old(campaigns.rows) ==>
              r == Ok(old(campaigns.rows)[id]) && campaigns.rows == old(campaigns.rows) - {id}
    ensures caller.Some? && id !in old(campaigns.rows) ==>
              r == Err(RecordToDeleteNotFound) && campaigns.rows == old(campaigns.rows)
    // the deleted row's owner, whoever that is, no longer sees it listed
    ensures r.Ok? ==>
              var listed := campaigns.ListOwned(r.value.userId);
              forall i :: 0 <= i < |listed| ==> listed[i].id != id
  {
    if caller.None? {
      return Err(Unauthorized);
    }
    r := campaigns.DeleteWhere(id, None);
  }

  function GetAllCampaignsByUser(campaigns: Table<CampaignFields>, caller: Option<UserId>): (r: Result<seq<Campaign>>)
    reads campaigns
    requires campaigns.Valid()
    ensures caller.None? ==> r == Err(Unauthorized)
    ensures caller.Some? ==> r.Ok? && ExactlyOwned(r.value, campaigns.rows, caller.value) && NewestFirst(r.value)
  {
    if caller.None? then Err(Unauthorized) else Ok(campaigns.ListOwned(caller.value))
  }
}
