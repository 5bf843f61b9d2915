/**
 * The `kyc` slice of the client store (kycSlice.ts): the record on screen,
 * the officers' two lists, and the loading and error flags, with one
 * reducer per outcome of each request.
 */
module KycSlice {
  import opened Wrappers
  import opened Common
  import opened FrontTypes
  import Seqs
  import KycController
  import KycDto

  /** The requests the slice tracks; each has its own fallback error text. */
  datatype Request = Submit | Update | GetById | GetPending | GetReviewed | Approve | Reject

  function FallbackMessage(req: Request): string {
    match req
    case Submit => "Failed to submit KYC"
    case Update => "Failed to update KYC"
    case GetById => "Failed to fetch KYC"
    case GetPending => "Failed to fetch pending KYCs"
    case GetReviewed => "Failed to fetch reviewed KYCs"
    case Approve => "Failed to approve KYC"
    case Reject => "Failed to reject KYC"
  }

  /** `findIndex((kyc) => kyc.id === id)`, with `None` for -1. */
  function FindIndex(s: seq<KycData>, id: Option<Uuid>): (r: Option<nat>)
    ensures r.Some? ==> r.value < |s| && s[r.value].id == id
    ensures r.Some? ==> forall j :: 0 <= j < r.value ==> s[j].id != id
    ensures r.None? <==> forall j :: 0 <= j < |s| ==> s[j].id != id
  {
    if s == [] then None
    else if s[0].id == id then Some(0)
    else
      match FindIndex(s[1..], id)
      case None => None
      case Some(i) => Some(i + 1)
  }

  /** The pending list after an update: the first entry with the payload's id is replaced. */
  function ReplaceFirst(s: seq<KycData>, payload: KycData): seq<KycData> {
    match FindIndex(s, payload.id)
    case None => s
    case Some(i) => s[i := payload]
  }

  /**
   * Only the first match changes: the length stays, every other entry stays,
   * and a list without the id is left as it was.
   */
  lemma ReplaceFirstChangesOneEntry(s: seq<KycData>, payload: KycData)
    ensures |ReplaceFirst(s, payload)| == |s|
    ensures (forall j :: 0 <= j < |s| ==> s[j].id != payload.id) ==> ReplaceFirst(s, payload) == s
    ensures forall j :: 0 <= j < |s| && s[j].id != payload.id ==> ReplaceFirst(s, payload)[j] == s[j]
    ensures (exists j :: 0 <= j < |s| && s[j].id == payload.id) ==>
      payload in ReplaceFirst(s, payload) &&
      (forall j :: 0 <= j < |s| && s[j].id == payload.id && j != FindIndex(s, payload.id).value ==>
        ReplaceFirst(s, payload)[j] == s[j])
  {
    var i := FindIndex(s, payload.id);
    if i.Some? {
      assert ReplaceFirst(s, payload)[i.value] == payload;
    }
  }

  /** `filter((kyc) => kyc.id !== id)`. */
  function WithoutId(s: seq<KycData>, id: Option<Uuid>): (r: seq<KycData>)
    ensures forall k :: k in r <==> k in s && k.id != id
  {
    Seqs.Filter(s, (k: KycData) => k.id != id)
  }

  /**
   * `rejectKYC` calls the client's `reject(id)` without a reason, so the
   * body `{ reason: undefined }` goes out as `{}`, which the reject route
   * refuses before the service is reached.
   */
  lemma ClientRejectIsRefused()
    ensures KycController.ParseRejectBody(map[]) == Err(BadRequest(None))
    ensures forall body: map<string, KycDto.Json> :: "reason" !in body ==> KycController.ParseRejectBody(body).Err?
  {
  }

  class KycState {
    var data: Option<KycData>
    var pendingList: seq<KycData>
    var reviewedList: seq<KycData>
    var loading: bool
    var error: Option<string>

    /** `initialState`. */
    constructor ()
      ensures data.None? && pendingList == [] && reviewedList == [] && !loading && error.None?
    {
      data := None;
      pendingList := [];
      reviewedList := [];
      loading := false;
      error := None;
    }

    /** `clearKYC`: the record and the error go; the lists and the flag stay. */
    method ClearKyc()
      modifies this
      ensures data.None? && error.None?
      ensures pendingList == old(pendingList) && reviewedList == old(reviewedList) && loading == old(loading)
    {
      data := None;
      error := None;
    }

    /** Every `.pending` case. */
    method Started(req: Request)
      modifies this
      ensures loading && error.None?
      ensures data == old(data) && pendingList == old(pendingList) && reviewedList == old(reviewedList)
    {
      loading := true;
      error := None;
    }

    /** Every `.rejected` case: the thrown message, or the request's fallback text. */
    method Failed(req: Request, message: Option<string>)
      modifies this
      ensures !loading && error == Some(OrElse(message, FallbackMessage(req)))
      ensures error.value != ""
      ensures data == old(data) && pendingList == old(pendingList) && reviewedList == old(reviewedList)
    {
      loading := false;
      error := Some(OrElse(message, FallbackMessage(req)));
    }

    /**
     * `submitKYC.fulfilled` and `getKYCById.fulfilled`: the payload is the
     * record on screen. The second case is unreachable as written, since that
     * thunk calls a service method the client does not define.
     */
    method Loaded(payload: KycData)
      modifies this
      ensures !loading && data == Some(payload)
      ensures error == old(error) && pendingList == old(pendingList) && reviewedList == old(reviewedList)
    {
      loading := false;
      data := Some(payload);
    }

    /** `updateKYC.fulfilled`: also written over the first pending entry with its id. */
    method Updated(payload: KycData)
      modifies this
      ensures !loading && data == Some(payload)
      ensures pendingList == ReplaceFirst(old(pendingList), payload)
      ensures error == old(error) && reviewedList == old(reviewedList)
    {
      loading := false;
      data := Some(payload);
      var pendingIndex := FindIndex(pendingList, payload.id);
      if pendingIndex.Some? {
        pendingList := pendingList[pendingIndex.value := payload];
      }
    }

    /** `getPendingKYCs.fulfilled`. */
    method PendingLoaded(list: seq<KycData>)
      modifies this
      ensures !loading && pendingList == list
      ensures data == old(data) && error == old(error) && reviewedList == old(reviewedList)
    {
      loading := false;
      pendingList := list;
    }

    /** `getReviewedKYCs.fulfilled`. */
    method ReviewedLoaded(list: seq<KycData>)
      modifies this
      ensures !loading && reviewedList == list
      ensures data == old(data) && error == old(error) && pendingList == old(pendingList)
    {
      loading := false;
      reviewedList := list;
    }

    /**
     * `approveKYC.fulfilled` and `rejectKYC.fulfilled`: the reviewed record
     * leaves the pending list and heads the reviewed list.
     */
    method Reviewed(payload: KycData)
      modifies this
      ensures !loading && data == Some(payload) && error == old(error)
      ensures pendingList == WithoutId(old(pendingList), payload.id)
      ensures reviewedList == [payload] + old(reviewedList)
      ensures forall k :: k in pendingList ==> k.id != payload.id
      ensures |reviewedList| == |old(reviewedList)| + 1
    {
      loading := false;
      data := Some(payload);
      pendingList := WithoutId(pendingList, payload.id);
      reviewedList := [payload] + reviewedList;
    }
  }
}
