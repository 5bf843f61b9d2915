/**
 * The decisions of the KYC page (KYC.tsx): who may edit, whether the form
 * or the read-only view is shown, which request a submitted form sends,
 * and the totals the view prints. `isEditing` is a parameter: it is the
 * page's own flag, set by the Edit button and cleared by Cancel and by
 * every submit.
 */
module KycPage {
  import opened Wrappers
  import opened Common
  import opened KycEntity
  import opened FrontTypes
  import KycForm

  /** `user?.kyc`: nothing without a signed-in user. */
  function KycOf(user: Option<UserView>): (r: Option<KycSummary>)
    ensures r.Some? ==> user.Some? && user.value.kyc == r
  {
    if user.None? then None else user.value.kyc
  }

  /** `canEdit = !readOnly && (isPending || !user?.kyc)`. */
  predicate CanEdit(readOnly: bool, user: Option<UserView>) {
    var kyc := KycOf(user);
    !readOnly && (kyc.None? || kyc.value.status == Pending)
  }

  /**
   * A record the page lets its owner edit is never approved, so the
   * service would accept the update; a rejected record, which the service
   * would also accept, is locked here.
   */
  lemma PageStricterThanService(readOnly: bool, user: Option<UserView>)
    ensures CanEdit(readOnly, user) && KycOf(user).Some? ==> KycOf(user).value.status != Approved
    ensures KycOf(user).Some? && KycOf(user).value.status == Rejected ==> !CanEdit(readOnly, user)
    ensures KycOf(user).Some? && KycOf(user).value.status != Approved && !CanEdit(readOnly, user) ==>
      readOnly || KycOf(user).value.status == Rejected
  {
  }

  /** The request `onSubmit` sends. */
  datatype Call = UpdateCall(id: Uuid) | CreateCall

  /** `user?.kyc?.id ? update(user.kyc.id, values) : create(values)`; ids are never empty. */
  function SubmitCall(user: Option<UserView>): (c: Call)
    ensures c.UpdateCall? <==> KycOf(user).Some?
    ensures c.UpdateCall? ==> c.id == KycOf(user).value.id
  {
    match KycOf(user)
    case Some(kyc) => UpdateCall(kyc.id)
    case None => CreateCall
  }

  /** `!isEditing && canEdit && user?.kyc?.id`. */
  predicate ShowEditButton(isEditing: bool, readOnly: bool, user: Option<UserView>) {
    !isEditing && CanEdit(readOnly, user) && KycOf(user).Some?
  }

  /** `isEditing || !user?.kyc`: otherwise the read-only view. */
  predicate ShowForm(isEditing: bool, user: Option<UserView>) {
    isEditing || KycOf(user).None?
  }

  /**
   * The Edit button appears exactly for an editable page over a pending
   * record while the view is shown; the view is shown only over a record.
   */
  lemma EditButtonMeaning(isEditing: bool, readOnly: bool, user: Option<UserView>)
    ensures ShowEditButton(isEditing, readOnly, user) <==>
      (!isEditing && !readOnly && KycOf(user).Some? && KycOf(user).value.status == Pending)
    ensures ShowEditButton(isEditing, readOnly, user) ==> !ShowForm(isEditing, user)
    ensures !ShowForm(isEditing, user) ==> KycOf(user).Some? && !isEditing
  {
  }

  /** A form opened through the Edit button, or over no record, sends the matching request. */
  lemma FormSendsMatchingCall(isEditing: bool, readOnly: bool, user: Option<UserView>)
    ensures ShowEditButton(isEditing, readOnly, user) ==> SubmitCall(user) == UpdateCall(KycOf(user).value.id)
    ensures ShowForm(isEditing, user) && KycOf(user).None? ==> SubmitCall(user) == CreateCall
  {
  }

  /**
   * Over a rejected record the page shows the view and no Edit button, so
   * its owner has no way to send the update the service would take.
   */
  lemma RejectedRecordIsLocked(readOnly: bool, user: Option<UserView>)
    requires KycOf(user).Some? && KycOf(user).value.status == Rejected
    ensures !ShowForm(false, user) && !ShowEditButton(false, readOnly, user)
  {
  }

  /** The view's `netWorth`: the same four totals as the form. */
  function ViewNetWorth(d: KycData): int {
    Total(d.incomes) + Total(d.assets) + Total(d.wealthSources) - Total(d.liabilities)
  }

  /** The form filled with the lists of a fetched record. */
  function FormOfData(d: KycData): KycForm.FormValues {
    KycForm.FormValues(Some(KycForm.RowsOf(d.incomes)), Some(KycForm.RowsOf(d.assets)),
                       Some(KycForm.RowsOf(d.liabilities)), Some(KycForm.RowsOf(d.wealthSources)))
  }

  /**
   * The view prints what the form would show for the same record; against
   * the `netWorth` the server stored, both are off by total incomes plus
   * total wealth sources.
   */
  lemma ViewAgreesWithForm(d: KycData)
    ensures ViewNetWorth(d) == KycForm.ClientNetWorth(FormOfData(d))
    ensures d.netWorth == Total(d.assets) - Total(d.liabilities) ==>
      ViewNetWorth(d) - d.netWorth == Total(d.incomes) + Total(d.wealthSources)
  {
    KycForm.SumRowsOfEntries(d.incomes);
    KycForm.SumRowsOfEntries(d.assets);
    KycForm.SumRowsOfEntries(d.liabilities);
    KycForm.SumRowsOfEntries(d.wealthSources);
  }
}
