/** The operations of app/src/campaign/operations.ts. Campaign and
    GptResponse updates and deletes select the row by id AND owner. None of
    them checks for a user first: the ones that read `user.id` reject with a
    TypeError when the context has none, and getAllCampaignsByUser rejects
    with its own error. getPaginatedUsers and updateUserById do not look at
    the caller at all. */
module CampaignOperations {

  import opened Errors
  import opened Entities
  import opened Tables
  import opened Users

  const NotAuthenticated := Error(None, "User must be authenticated")

  /** The content createGptResponse stores, whatever the caller asked for. */
  const DefaultContent := "default content"

  // Campaigns

  method CreateCampaign(campaigns: Table<CampaignFields>, caller: Option<UserId>, input: NewCampaign)
    returns (r: Result<Campaign>)
    requires campaigns.Valid()
    modifies campaigns
    ensures campaigns.Valid()
    ensures caller.None? ==> r == Err(NoUserTypeError) && unchanged(campaigns)
    ensures caller.Some? ==>
              && r.Ok?
              && r.value.userId == caller.value
              && r.value.data == CampaignFields(input.productName, input.targetAudience, input.tone, Draft)
              && r.value.id !in old(campaigns.rows)
              && campaigns.rows == old(campaigns.rows)[r.value.id := r.value]
              && campaigns.ListOwned(caller.value) == [r.value] + old(campaigns.ListOwned(caller.value))
  {
    if caller.None? {
      return Err(NoUserTypeError);
    }
    var row := campaigns.Insert(caller.value, DraftOf(input));
    r := Ok(row);
  }

  function GetAllCampaignsByUser(campaigns: Table<CampaignFields>, caller: Option<UserId>): (r: Result<seq<Campaign>>)
    reads campaigns
    requires campaigns.Valid()
    ensures caller.None? ==> r == Err(Error(None, "User must be authenticated"))
    ensures caller.Some? ==> r.Ok? && ExactlyOwned(r.value, campaigns.rows, caller.value) && NewestFirst(r.value)
  {
    if caller.None? then Err(NotAuthenticated) else Ok(campaigns.ListOwned(caller.value))
  }

  /** Round trip on an empty store: the campaign a signed-in user creates is
      the only row that user's listing then shows, as a draft with the
      strings sent. */
  method CreateThenListOnEmptyStore(caller: UserId, input: NewCampaign)
    returns (created: Campaign, listed: seq<Campaign>)
    ensures listed == [created]
    ensures created.userId == caller
    ensures created.data == CampaignFields(input.productName, input.targetAudience, input.tone, Draft)
  {
    var campaigns := new Table<CampaignFields>();
    var r := CreateCampaign(campaigns, Some(caller), input);
    created := r.value;
    var all := GetAllCampaignsByUser(campaigns, Some(caller));
    listed := all.value;
  }

  method UpdateCampaign(campaigns: Table<CampaignFields>, caller: Option<UserId>, id: Id, patch: CampaignPatch)
    returns (r: Result<Campaign>)
    requires campaigns.Valid()
    modifies campaigns
    ensures campaigns.Valid()
    ensures caller.None? ==> r == Err(NoUserTypeError) && unchanged(campaigns)
    ensures caller.Some? && Matches(old(campaigns.rows), id, caller) ==>
              var updated := old(campaigns.rows)[id].(data := ApplyPatch(old(campaigns.rows)[id].data, patch));
              r == Ok(updated) && campaigns.rows == old(campaigns.rows)[id := updated]
    ensures caller.Some? && !Matches(old(campaigns.rows), id, caller) ==>
              r == Err(RecordToUpdateNotFound) && campaigns.rows == old(campaigns.rows)
    // a row of another owner is never touched
    ensures caller.Some? ==>
              forall k :: k in old(campaigns.rows) && old(campaigns.rows)[k].userId != caller.value ==>
                            k in campaigns.rows && campaigns.rows[k] == old(campaigns.rows)[k]
  {
    if caller.None? {
      return Err(NoUserTypeError);
    }
    r := campaigns.UpdateWhere(id, caller, d => ApplyPatch(d, patch));
  }

  method DeleteCampaign(campaigns: Table<CampaignFields>, caller: Option<UserId>, id: Id)
    returns (r: Result<Campaign>)
    requires campaigns.Valid()
    modifies campaigns
    ensures campaigns.Valid()
    ensures caller.None? ==> r == Err(NoUserTypeError) && unchanged(campaigns)
    ensures caller.Some? && Matches(old(campaigns.rows), id, caller) ==>
              r == Ok(old(campaigns.rows)[id]) && campaigns.rows == old(campaigns.rows) - {id}
    ensures caller.Some? && !Matches(old(campaigns.rows), id, caller) ==>
              r == Err(RecordToDeleteNotFound) && campaigns.rows == old(campaigns.rows)
    // a row of another owner survives
    ensures caller.Some? ==>
              forall k :: k in old(campaigns.rows) && old(campaigns.rows)[k].userId != caller.value ==>
                            k in campaigns.rows && campaigns.rows[k] == old(campaigns.rows)[k]
    // the caller's listing no longer shows the deleted id
    ensures r.Ok? ==>
              var listed := campaigns.ListOwned(caller.value);
              forall i :: 0 <= i < |listed| ==> listed[i].id != id
  {
    if caller.None? {
      return Err(NoUserTypeError);
    }
    r := campaigns.DeleteWhere(id, caller);
  }

  // GptResponses

  function GetGptResponses(responses: Table<GptResponseFields>, caller: Option<UserId>): (r: Result<seq<GptResponse>>)
    reads responses
    requires responses.Valid()
    ensures caller.None? ==> r == Err(NoUserTypeError)
    ensures caller.Some? ==> r.Ok? && ExactlyOwned(r.value, responses.rows, caller.value)
  {
    if caller.None? then Err(NoUserTypeError) else Ok(responses.ListOwned(caller.value))
  }

  method CreateGptResponse(responses: Table<GptResponseFields>, caller: Option<UserId>, response: string)
    returns (r: Result<GptResponse>)
    requires responses.Valid()
    modifies responses
    ensures responses.Valid()
    ensures caller.None? ==> r == Err(NoUserTypeError) && unchanged(responses)
    ensures caller.Some? ==>
              && r.Ok?
              && r.value.userId == caller.value
              && r.value.data == GptResponseFields("default content", response)
              && r.value.id !in old(responses.rows)
              && responses.rows == old(responses.rows)[r.value.id := r.value]
  {
    if caller.None? {
      return Err(NoUserTypeError);
    }
    var row := responses.Insert(caller.value, GptResponseFields(DefaultContent, response));
    r := Ok(row);
  }

  method UpdateGptResponse(responses: Table<GptResponseFields>, caller: Option<UserId>, id: Id, response: Option<string>)
    returns (r: Result<GptResponse>)
    requires responses.Valid()
    modifies responses
    ensures responses.Valid()
    ensures caller.None? ==> r == Err(NoUserTypeError) && unchanged(responses)
    ensures caller.Some? && Matches(old(responses.rows), id, caller) ==>
              var updated := old(responses.rows)[id].(data := ApplyResponsePatch(old(responses.rows)[id].data, response));
              r == Ok(updated) && responses.rows == old(responses.rows)[id := updated]
    ensures caller.Some? && !Matches(old(responses.rows), id, caller) ==>
              r == Err(RecordToUpdateNotFound) && responses.rows == old(responses.rows)
  {
    if caller.None? {
      return Err(NoUserTypeError);
    }
    r := responses.UpdateWhere(id, caller, d => ApplyResponsePatch(d, response));
  }

  method DeleteGptResponse(responses: Table<GptResponseFields>, caller: Option<UserId>, id: Id)
    returns (r: Result<GptResponse>)
    requires responses.Valid()
    modifies responses
    ensures responses.Valid()
    ensures caller.None? ==> r == Err(NoUserTypeError) && unchanged(responses)
    ensures caller.Some? && Matches(old(responses.rows), id, caller) ==>
              r == Ok(old(responses.rows)[id]) && responses.rows == old(responses.rows) - {id}
    ensures caller.Some? && !Matches(old(responses.rows), id, caller) ==>
              r == Err(RecordToDeleteNotFound) && responses.rows == old(responses.rows)
  {
    if caller.None? {
      return Err(NoUserTypeError);
    }
    r := responses.DeleteWhere(id, caller);
  }

  // Users

  /** At most `first` users, after skipping `skip`, in the table's order. */
  function GetPaginatedUsers(users: UserTable, first: nat, skip: nat): (page: seq<User>)
    reads users
    requires users.Valid()
    ensures |page| == Min(first, Max(0, |users.order| - skip))
    ensures forall i :: 0 <= i < |page| ==> page[i] == users.rows[users.order[skip + i]]
  {
    users.Page(first, skip)
  }

  method UpdateCurrentUser(users: UserTable, caller: Option<UserId>, patch: ProfilePatch)
    returns (r: Result<User>)
    requires users.Valid()
    modifies users
    ensures users.Valid() && users.order == old(users.order)
    ensures caller.None? ==> r == Err(NoUserTypeError) && unchanged(users)
    ensures caller.Some? && caller.value in old(users.rows) ==>
              r == Ok(Patched(old(users.rows)[caller.value], patch)) &&
              users.rows == old(users.rows)[caller.value := r.value]
    ensures caller.Some? && caller.value !in old(users.rows) ==>
              r == Err(RecordToUpdateNotFound) && users.rows == old(users.rows)
  {
    if caller.None? {
      return Err(NoUserTypeError);
    }
    r := users.UpdateProfile(caller.value, patch);
  }

  /** No authentication and no ownership check: any caller may patch any user. */
  method UpdateUserById(users: UserTable, id: UserId, patch: ProfilePatch)
    returns (r: Result<User>)
    requires users.Valid()
    modifies users
    ensures users.Valid() && users.order == old(users.order)
    ensures id in old(users.rows) ==>
              r == Ok(Patched(old(users.rows)[id], patch)) && users.rows == old(users.rows)[id := r.value]
    ensures id !in old(users.rows) ==> r == Err(RecordToUpdateNotFound) && users.rows == old(users.rows)
  {
    r := users.UpdateProfile(id, patch);
  }

  // Generation stub

  /** The placeholder generateGptResponse: one fixed ad copy with two
      variations, whatever the arguments; it reads and writes nothing. */
  function GenerateGptResponse(productName: string, targetAudience: string, tone: string): (r: AdCopies)
    ensures |r.adCopies| == 1
    ensures |r.adCopies[0].variations| == 2
    ensures r.adCopies[0].cta == "Learn More"
  {
    AdCopies([AdCopy("AI-generated headline", "Compelling ad copy...", "Learn More", ["Variation 1", "Variation 2"])])
  }
}
