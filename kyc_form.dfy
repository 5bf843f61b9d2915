/**
 * The running net worth of the KYC form (KYCForm.tsx): every change of the
 * form recomputes it from the four lists as the form holds them, where a
 * list, a row or an amount may still be missing.
 */
module KycForm {
  import opened Wrappers
  import opened KycEntity

  /** A row of a form list; its amount is missing until the user types one. */
  datatype FormRow = FormRow(amount: Option<int>)

  /** A form list: missing altogether, or rows of which any may be missing. */
  type FormList = Option<seq<Option<FormRow>>>

  /** The values of the form, reduced to the four lists the total reads. */
  datatype FormValues = FormValues(incomes: FormList, assets: FormList, liabilities: FormList, wealthSources: FormList)

  /** `row?.amount || 0`. */
  function RowAmount(row: Option<FormRow>): int {
    if row.Some? && row.value.amount.Some? then row.value.amount.value else 0
  }

  /** `rows.reduce((sum, row) => sum + (row?.amount || 0), 0)`, folded from the left. */
  function SumRows(rows: seq<Option<FormRow>>): int {
    if rows == [] then 0
    else SumRows(rows[..|rows| - 1]) + RowAmount(rows[|rows| - 1])
  }

  /** `list?.reduce(…) || 0`: a missing list adds nothing. */
  function ListTotal(l: FormList): int {
    if l.None? then 0 else SumRows(l.value)
  }

  /** `calculateNetWorth`: incomes, assets and wealth sources count up, liabilities down. */
  function ClientNetWorth(v: FormValues): int {
    ListTotal(v.incomes) + ListTotal(v.assets) + ListTotal(v.wealthSources) - ListTotal(v.liabilities)
  }

  /** A missing list, a missing row and a row without an amount all add nothing. */
  lemma MissingCountsAsZero(rows: seq<Option<FormRow>>)
    ensures ListTotal(None) == 0
    ensures SumRows(rows + [None]) == SumRows(rows)
    ensures SumRows(rows + [Some(FormRow(None))]) == SumRows(rows)
  {
    assert (rows + [None])[..|rows|] == rows;
    assert (rows + [Some(FormRow(None))])[..|rows|] == rows;
  }

  /** The rows the form holds for a list of complete entries. */
  function RowsOf<K>(es: seq<Entry<K>>): (r: seq<Option<FormRow>>)
    ensures |r| == |es| && forall i :: 0 <= i < |es| ==> r[i] == Some(FormRow(Some(es[i].amount)))
  {
    seq(|es|, i requires 0 <= i < |es| => Some(FormRow(Some(es[i].amount))))
  }

  /** On complete entries the form's fold is the server's `Total`. */
  lemma {:induction false} SumRowsOfEntries<K>(es: seq<Entry<K>>)
    ensures SumRows(RowsOf(es)) == Total(es)
  {
    if es != [] {
      assert RowsOf(es)[..|es| - 1] == RowsOf(es[..|es| - 1]);
      SumRowsOfEntries(es[..|es| - 1]);
    }
  }

  /** The form filled with the lists of a record. */
  function FormOf(k: KycRecord): FormValues {
    FormValues(Some(RowsOf(k.incomes)), Some(RowsOf(k.assets)), Some(RowsOf(k.liabilities)), Some(RowsOf(k.wealthSources)))
  }

  /**
   * The form counts incomes and wealth sources, which the server's hook
   * leaves out: the two figures differ by exactly those totals, and agree
   * exactly when they cancel.
   */
  lemma FormDisagreesWithServer(k: KycRecord)
    ensures ClientNetWorth(FormOf(k)) == NetWorthOf(k) + Total(k.incomes) + Total(k.wealthSources)
    ensures ClientNetWorth(FormOf(k)) == CalculateNetWorth(k).netWorth <==> Total(k.incomes) + Total(k.wealthSources) == 0
  {
    SumRowsOfEntries(k.incomes);
    SumRowsOfEntries(k.assets);
    SumRowsOfEntries(k.liabilities);
    SumRowsOfEntries(k.wealthSources);
  }

  /** One salary of 100 and nothing else: the form shows 100, the server stores 0. */
  lemma SalaryOnlyExample(k: KycRecord)
    requires k.incomes == [Entry(Salary, 100, None)] && k.assets == [] && k.liabilities == [] && k.wealthSources == []
    ensures ClientNetWorth(FormOf(k)) == 100
    ensures CalculateNetWorth(k).netWorth == 0
  {
    FormDisagreesWithServer(k);
    assert Total(k.incomes) == Total(k.incomes[..0]) + 100;
  }

  /** The form's own state: the figure it shows under the lists. */
  class NetWorthField {
    var netWorth: int

    /** `useState<number>(0)`. */
    constructor ()
      ensures netWorth == 0
    {
      netWorth := 0;
    }

    /** `handleValuesChange`: the figure is recomputed from all the current values, whatever changed. */
    method OnValuesChange(values: FormValues)
      modifies this
      ensures netWorth == ClientNetWorth(values)
    {
      netWorth := ListTotal(values.incomes) + ListTotal(values.assets) + ListTotal(values.wealthSources)
        - ListTotal(values.liabilities);
    }
  }
}
