/**
 * The KYC service (kyc.service.ts): the `kyc` table as a map from id to
 * record, the submission, review and revision of a record, and the queries
 * the officers' pages run.
 */
module Kyc {
  import opened Wrappers
  import opened Common
  import opened KycEntity
  import opened KycDto
  import Seqs

  /**
   * What every stored record satisfies: the hook's net worth, review columns
   * that are set exactly when the record has been reviewed, and a
   * non-empty reason on every rejection.
   */
  ghost predicate WellFormed(k: KycRecord) {
    && k.netWorth == NetWorthOf(k)
    && (k.status == Pending <==> k.reviewedAt.None?)
    && (k.status == Pending <==> k.reviewedBy.None?)
    && (k.status == Rejected ==> k.rejectReason.Some? && k.rejectReason.value != "")
  }

  /** The row `create` saves: the disclosure, its owner, PENDING, nothing reviewed. */
  function Submitted(id: Uuid, owner: Uuid, dto: CreateKycDto): (k: KycRecord)
    ensures WellFormed(k) && k.status == Pending
    ensures k.id == id && k.owner == owner && k.rejectReason.None?
    ensures k.incomes == dto.incomes && k.assets == dto.assets
    ensures k.liabilities == dto.liabilities && k.wealthSources == dto.wealthSources
    ensures k.investmentExperience == dto.investmentExperience && k.riskTolerance == dto.riskTolerance
    ensures k.netWorth == Total(dto.assets) - Total(dto.liabilities)
  {
    CalculateNetWorth(KycRecord(id, owner, dto.incomes, dto.assets, dto.liabilities, dto.wealthSources,
      dto.investmentExperience, dto.riskTolerance, 0, Pending, None, None, None))
  }

  /** `approve` on a loaded record: the decision, its time and its officer; nothing else moves. */
  function ApprovedBy(k: KycRecord, officer: Uuid, at: Timestamp): (r: KycRecord)
    ensures r.status == Approved && r.reviewedAt == Some(at) && r.reviewedBy == Some(officer)
    ensures r.netWorth == NetWorthOf(k)
    ensures r.(status := k.status, reviewedAt := k.reviewedAt, reviewedBy := k.reviewedBy, netWorth := k.netWorth) == k
    ensures WellFormed(k) ==> WellFormed(r)
  {
    CalculateNetWorth(k.(status := Approved, reviewedAt := Some(at), reviewedBy := Some(officer)))
  }

  /** `reject` on a loaded record: as `approve`, and the reason is kept. */
  function RejectedBy(k: KycRecord, officer: Uuid, at: Timestamp, reason: string): (r: KycRecord)
    ensures r.status == Rejected && r.reviewedAt == Some(at) && r.reviewedBy == Some(officer)
    ensures r.rejectReason == Some(reason) && r.netWorth == NetWorthOf(k)
    ensures r.(status := k.status, reviewedAt := k.reviewedAt, reviewedBy := k.reviewedBy,
               rejectReason := k.rejectReason, netWorth := k.netWorth) == k
    ensures WellFormed(k) && reason != "" ==> WellFormed(r)
  {
    CalculateNetWorth(k.(status := Rejected, reviewedAt := Some(at), reviewedBy := Some(officer),
                         rejectReason := Some(reason)))
  }

  /**
   * `update` on a loaded record: `Object.assign` of the keys present in the
   * patch, then back to PENDING with the review columns cleared. The reject
   * reason is not cleared.
   */
  function Revised(k: KycRecord, patch: UpdateKycDto): (r: KycRecord)
    ensures WellFormed(r) && r.status == Pending
    ensures r.id == k.id && r.owner == k.owner && r.rejectReason == k.rejectReason
    ensures r.incomes == patch.incomes.GetOr(k.incomes) && r.assets == patch.assets.GetOr(k.assets)
    ensures r.liabilities == patch.liabilities.GetOr(k.liabilities)
    ensures r.wealthSources == patch.wealthSources.GetOr(k.wealthSources)
    ensures r.investmentExperience == patch.investmentExperience.GetOr(k.investmentExperience)
    ensures r.riskTolerance == patch.riskTolerance.GetOr(k.riskTolerance)
  {
    CalculateNetWorth(k.(
      incomes := patch.incomes.GetOr(k.incomes),
      assets := patch.assets.GetOr(k.assets),
      liabilities := patch.liabilities.GetOr(k.liabilities),
      wealthSources := patch.wealthSources.GetOr(k.wealthSources),
      investmentExperience := patch.investmentExperience.GetOr(k.investmentExperience),
      riskTolerance := patch.riskTolerance.GetOr(k.riskTolerance),
      status := Pending, reviewedAt := None, reviewedBy := None))
  }

  /** Sending the same patch twice leaves the record as sending it once. */
  lemma RevisedIdempotent(k: KycRecord, patch: UpdateKycDto)
    ensures Revised(Revised(k, patch), patch) == Revised(k, patch)
  {
  }

  /** An empty patch on a pending, well-formed record changes nothing. */
  lemma EmptyRevisionOfPendingIsNoOp(k: KycRecord)
    requires WellFormed(k) && k.status == Pending
    ensures Revised(k, UpdateKycDto(None, None, None, None, None, None)) == k
  {
  }

  /**
   * A rejected record that its owner revises is pending again yet still
   * carries the officer's reason, and a later approval keeps that reason too.
   */
  lemma RevisionAfterRejectionKeepsReason(k: KycRecord, officer: Uuid, at: Timestamp, reason: string,
                                          patch: UpdateKycDto, at2: Timestamp)
    ensures Revised(RejectedBy(k, officer, at, reason), patch).status == Pending
    ensures Revised(RejectedBy(k, officer, at, reason), patch).rejectReason == Some(reason)
    ensures ApprovedBy(Revised(RejectedBy(k, officer, at, reason), patch), officer, at2).rejectReason == Some(reason)
  {
  }

  /** `order: { reviewedAt: 'DESC' }`: later reviews first, unreviewed rows (NULL) before all of them. */
  function ReviewedLaterOrder(): (le: (KycRecord, KycRecord) -> bool)
    ensures Seqs.TotalPreorder(le)
  {
    var le := (a: KycRecord, b: KycRecord) =>
      a.reviewedAt.None? || (b.reviewedAt.Some? && a.reviewedAt.value >= b.reviewedAt.value);
    assert forall a, b :: le(a, b) || le(b, a) by {
      forall a, b ensures le(a, b) || le(b, a) {
        if a.reviewedAt.Some? && b.reviewedAt.Some? {
          assert a.reviewedAt.value >= b.reviewedAt.value || b.reviewedAt.value >= a.reviewedAt.value;
        }
      }
    }
    assert forall a, b, c :: le(a, b) && le(b, c) ==> le(a, c) by {
      forall a, b, c | le(a, b) && le(b, c) ensures le(a, c) {
        if a.reviewedAt.Some? {
          assert b.reviewedAt.Some? && c.reviewedAt.Some?;
        }
      }
    }
    le
  }

  /** `reviewedAt DESC`, ties broken by the owner's `createdAt` ascending. */
  function PendingOrder(createdAt: Uuid -> Timestamp): (le: (KycRecord, KycRecord) -> bool)
    ensures Seqs.TotalPreorder(le)
  {
    var later := ReviewedLaterOrder();
    (a: KycRecord, b: KycRecord) =>
      later(a, b) && (!later(b, a) || createdAt(a.owner) <= createdAt(b.owner))
  }

  predicate IsPending(k: KycRecord) {
    k.status == Pending
  }

  predicate IsReviewed(k: KycRecord) {
    k.status == Approved || k.status == Rejected
  }

  class KycService {
    /** The `kyc` table. */
    var records: map<Uuid, KycRecord>
    /** The key the next insert receives. */
    var nextId: Uuid

    ghost predicate Valid()
      reads this
    {
      && (forall id :: id in records ==> id < nextId && records[id].id == id && WellFormed(records[id]))
      // the UNIQUE constraint on `kyc.userId`: one record per user
      && (forall a, b :: a in records && b in records && records[a].owner == records[b].owner ==> a == b)
    }

    constructor ()
      ensures Valid() && records == map[] && nextId == 0
    {
      records := map[];
      nextId := 0;
    }

    /** The user already has a record (`findOne({ where: { user: { id } } })`). */
    predicate HasRecordOf(owner: Uuid)
      reads this
    {
      exists id :: id in records && records[id].owner == owner
    }

    /** The user's record, as the `user.kyc` relation loads it (`null` when there is none). */
    function RecordOf(owner: Uuid): (r: Option<KycRecord>)
      reads this
      requires Valid()
      ensures r.Some? <==> HasRecordOf(owner)
      ensures r.Some? ==> r.value in records.Values && r.value.owner == owner
    {
      var mine := Seqs.Filter(Rows(), (k: KycRecord) => k.owner == owner);
      assert HasRecordOf(owner) ==> mine != [] by {
        if HasRecordOf(owner) {
          var id :| id in records && records[id].owner == owner;
          assert records[id] in Rows();
        }
      }
      if mine == [] then None else Some(mine[0])
    }

    /** `findOne(id)`: the record, or NotFound. */
    function FindOne(id: Uuid): (r: Result<KycRecord, Error>)
      reads this
      ensures r.Ok? <==> id in records
      ensures r.Ok? ==> r.value == records[id]
      ensures r.Err? ==> r.error == NotFound("KYC not found")
    {
      if id in records then Ok(records[id]) else Err(NotFound("KYC not found"))
    }

    /** The table's rows in key order. */
    function Rows(): (rows: seq<KycRecord>)
      reads this
      requires Valid()
      ensures forall k :: k in rows <==> k in records.Values
      ensures Seqs.Distinct(rows)
    {
      Seqs.Scan(records, nextId)
    }

    /**
     * `findPending`: every pending record once, ordered by `reviewedAt DESC`
     * and then by the owner's `createdAt` (supplied by the join).
     */
    function FindPending(createdAt: Uuid -> Timestamp): (r: seq<KycRecord>)
      reads this
      requires Valid()
      ensures forall k :: k in r <==> k in records.Values && k.status == Pending
      ensures multiset(r) == multiset(Seqs.Filter(Rows(), IsPending))
      ensures Seqs.Distinct(r)
      ensures Seqs.SortedBy(r, PendingOrder(createdAt))
    {
      var pending := Seqs.Filter(Rows(), IsPending);
      Seqs.FilterDistinct(Rows(), IsPending);
      var r := Seqs.InsertionSort(pending, PendingOrder(createdAt));
      Seqs.SameElements(r, pending);
      r
    }

    /** `findReviewed`: every approved or rejected record once, latest review first. */
    function FindReviewed(): (r: seq<KycRecord>)
      reads this
      requires Valid()
      ensures forall k :: k in r <==> k in records.Values && (k.status == Approved || k.status == Rejected)
      ensures multiset(r) == multiset(Seqs.Filter(Rows(), IsReviewed))
      ensures Seqs.Distinct(r)
      ensures forall i :: 0 <= i < |r| ==> r[i].reviewedAt.Some?
      ensures forall i, j :: 0 <= i < j < |r| ==> r[i].reviewedAt.value >= r[j].reviewedAt.value
    {
      var reviewed := Seqs.Filter(Rows(), IsReviewed);
      Seqs.FilterDistinct(Rows(), IsReviewed);
      ReviewedRowsAreTimestamped();
      var rs := Seqs.InsertionSort(reviewed, ReviewedLaterOrder());
      Seqs.SameElements(rs, reviewed);
      ReviewedNewestFirst(rs);
      rs
    }

    /** Every approved or rejected row carries its review time. */
    lemma ReviewedRowsAreTimestamped()
      requires Valid()
      ensures forall k :: k in Seqs.Filter(Rows(), IsReviewed) ==> k.reviewedAt.Some?
    {
      forall k | k in Seqs.Filter(Rows(), IsReviewed) ensures k.reviewedAt.Some? {
        assert k in records.Values;
        var id :| id in records && records[id] == k;
        assert WellFormed(records[id]);
      }
    }

    /**
     * `create`: only a USER may submit, and only once; the new row is the
     * hook-processed submission, PENDING.
     */
    method Create(user: Caller, dto: CreateKycDto) returns (r: Result<KycRecord, Error>)
      requires Valid()
      modifies this
      ensures Valid()
      ensures user.role != User ==> r == Err(Forbidden("Only users can submit KYC"))
      ensures user.role == User && old(HasRecordOf(user.id)) ==>
        r == Err(Forbidden("KYC already exists for this user"))
      ensures user.role == User && !old(HasRecordOf(user.id)) ==>
        r == Ok(Submitted(old(nextId), user.id, dto))
      ensures r.Ok? ==> records == old(records)[r.value.id := r.value] && nextId == old(nextId) + 1
      ensures r.Err? ==> records == old(records) && nextId == old(nextId)
    {
      if user.role != User {
        return Err(Forbidden("Only users can submit KYC"));
      }
      if HasRecordOf(user.id) {
        return Err(Forbidden("KYC already exists for this user"));
      }
      var k := Submitted(nextId, user.id, dto);
      records := records[nextId := k];
      nextId := nextId + 1;
      r := Ok(k);
    }

    /** `approve`: officers only, on an existing PENDING record. */
    method Approve(id: Uuid, officer: Caller, now: Timestamp) returns (r: Result<KycRecord, Error>)
      requires Valid()
      modifies this
      ensures Valid() && nextId == old(nextId)
      ensures officer.role != Officer ==> r == Err(Forbidden("Only officers can approve KYC"))
      ensures officer.role == Officer && id !in old(records) ==> r == Err(NotFound("KYC not found"))
      ensures officer.role == Officer && id in old(records) && old(records[id].status) != Pending ==>
        r == Err(Forbidden("KYC is not in pending status"))
      ensures officer.role == Officer && id in old(records) && old(records[id].status) == Pending ==>
        r == Ok(ApprovedBy(old(records[id]), officer.id, now))
      ensures r.Ok? ==> records == old(records)[id := r.value]
      ensures r.Err? ==> records == old(records)
    {
      if officer.role != Officer {
        return Err(Forbidden("Only officers can approve KYC"));
      }
      var found := FindOne(id);
      if found.Err? {
        return Err(found.error);
      }
      var k := found.value;
      if k.status != Pending {
        return Err(Forbidden("KYC is not in pending status"));
      }
      var saved := ApprovedBy(k, officer.id, now);
      records := records[id := saved];
      r := Ok(saved);
    }

    /** `reject`: as `approve`, recording the reason, which RejectKycDto has checked is non-empty. */
    method Reject(id: Uuid, officer: Caller, reason: string, now: Timestamp) returns (r: Result<KycRecord, Error>)
      requires Valid()
      requires reason != ""
      modifies this
      ensures Valid() && nextId == old(nextId)
      ensures officer.role != Officer ==> r == Err(Forbidden("Only officers can reject KYC"))
      ensures officer.role == Officer && id !in old(records) ==> r == Err(NotFound("KYC not found"))
      ensures officer.role == Officer && id in old(records) && old(records[id].status) != Pending ==>
        r == Err(Forbidden("KYC is not in pending status"))
      ensures officer.role == Officer && id in old(records) && old(records[id].status) == Pending ==>
        r == Ok(RejectedBy(old(records[id]), officer.id, now, reason))
      ensures r.Ok? ==> records == old(records)[id := r.value]
      ensures r.Err? ==> records == old(records)
    {
      if officer.role != Officer {
        return Err(Forbidden("Only officers can reject KYC"));
      }
      var found := FindOne(id);
      if found.Err? {
        return Err(found.error);
      }
      var k := found.value;
      if k.status != Pending {
        return Err(Forbidden("KYC is not in pending status"));
      }
      var saved := RejectedBy(k, officer.id, now, reason);
      records := records[id := saved];
      r := Ok(saved);
    }

    /** `update`: any record but an approved one is revised and goes back to PENDING. */
    method Update(id: Uuid, patch: UpdateKycDto) returns (r: Result<KycRecord, Error>)
      requires Valid()
      modifies this
      ensures Valid() && nextId == old(nextId)
      ensures id !in old(records) ==> r == Err(NotFound("KYC not found"))
      ensures id in old(records) && old(records[id].status) == Approved ==>
        r == Err(Forbidden("Cannot update an approved KYC"))
      ensures id in old(records) && old(records[id].status) != Approved ==>
        r == Ok(Revised(old(records[id]), patch))
      ensures r.Ok? ==> records == old(records)[id := r.value]
      ensures r.Err? ==> records == old(records)
    {
      var found := FindOne(id);
      if found.Err? {
        return Err(found.error);
      }
      var k := found.value;
      if k.status == Approved {
        return Err(Forbidden("Cannot update an approved KYC"));
      }
      var saved := Revised(k, patch);
      records := records[id := saved];
      r := Ok(saved);
    }
  }

  lemma ReviewedNewestFirst(rs: seq<KycRecord>)
    requires forall k :: k in rs ==> k.reviewedAt.Some?
    requires Seqs.SortedBy(rs, ReviewedLaterOrder())
    ensures forall i, j :: 0 <= i < j < |rs| ==> rs[i].reviewedAt.value >= rs[j].reviewedAt.value
  {
    forall i, j | 0 <= i < j < |rs| ensures rs[i].reviewedAt.value >= rs[j].reviewedAt.value {
      assert rs[i] in rs && rs[j] in rs;
      assert ReviewedLaterOrder()(rs[i], rs[j]);
    }
  }

  /** Pending rows are all unreviewed, so the pending list runs by owner sign-up time. */
  lemma PendingListBySignUp(svc: KycService, createdAt: Uuid -> Timestamp)
    requires svc.Valid()
    ensures forall i, j :: 0 <= i < j < |svc.FindPending(createdAt)| ==>
      createdAt(svc.FindPending(createdAt)[i].owner) <= createdAt(svc.FindPending(createdAt)[j].owner)
  {
    var r := svc.FindPending(createdAt);
    forall i, j | 0 <= i < j < |r|
      ensures createdAt(r[i].owner) <= createdAt(r[j].owner)
    {
      assert r[i] in r && r[j] in r;
      assert r[i].reviewedAt.None? && r[j].reviewedAt.None?;
      assert PendingOrder(createdAt)(r[i], r[j]);
    }
  }

  /** The pending and reviewed lists split the table: every record is in exactly one. */
  lemma QueuesPartitionTable(svc: KycService, createdAt: Uuid -> Timestamp, k: KycRecord)
    requires svc.Valid()
    requires k in svc.records.Values
    ensures k in svc.FindPending(createdAt) <==> k !in svc.FindReviewed()
  {
  }
}
