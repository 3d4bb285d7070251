/** The entry list screen (src/components/BaseContas.tsx): the list filter, the new-entry
    form with its submit check and reset, and the pending/completed toggle. */
module Entries {
  import opened Wrappers
  import opened Text
  import opened Types
  import opened Folds
  import opened Records
  import Money

  // ------------------------------------------------------------ list filter

  /** The type filter (None is 'all') and a case-insensitive search in the description or
      the supplier. */
  predicate Matches(t: Transaction, filter: Option<TxType>, term: string)
  {
    (filter.None? || t.txType == filter.value)
    && (term == [] || ContainsIgnoringCase(t.description, term)
        || (t.supplier.Some? && ContainsIgnoringCase(t.supplier.value, term)))
  }

  function FilteredTransactions(ts: seq<Transaction>, filter: Option<TxType>, term: string): (r: seq<Transaction>)
    ensures forall t :: t in r <==> t in ts && Matches(t, filter, term)
    ensures filter.None? && term == [] ==> r == ts
  {
    var keep := (t: Transaction) => Matches(t, filter, term);
    FilterMembers(ts, keep);
    assert filter.None? && term == [] ==> Filter(ts, keep) == ts by {
      if filter.None? && term == [] { FilterAll(ts, keep); }
    }
    Filter(ts, keep)
  }

  // ------------------------------------------------------------ new-entry form

  /** The amount field: untouched, or a `Decimal` built from what was typed. A `Decimal`
      is an object, so every edited amount is truthy, zero included. */
  datatype Amount = Untouched | Edited(cents: int)

  /** The form's fields. An unset category or bank account is the empty text. */
  datatype Form = Form(txType: TxType, description: string, supplier: Option<string>, amount: Amount,
                       category: string, competenceDate: Date, dueDate: Date, status: Status,
                       invoiceNumber: Option<string>, bankAccount: string)

  /** The defaults the form opens with and returns to: an income, pending, dated today. */
  function Fresh(today: Date): (r: Form)
    ensures r.txType == Income && r.status == Pending && r.amount == Untouched && r.description == []
    ensures r.competenceDate == today && r.dueDate == today
    ensures r.supplier.None? && r.invoiceNumber.None? && r.category == [] && r.bankAccount == []
  {
    Form(Income, [], None, Untouched, [], today, today, Pending, None, [])
  }

  /** The amount input: the number field hands over `parseFloat` of the text, and the
      form stores `new Decimal(value || 0)`, so a cleared or unreadable field becomes 0. */
  function AmountChange(f: Form, typed: string): (r: Form)
    ensures r.amount.Edited? && r == f.(amount := r.amount)
    ensures Money.ParseFloat(typed).None? ==> r.amount == Edited(0)
    ensures Money.ParseFloat(typed).Some? ==> r.amount == Edited(Money.ParseFloat(typed).value)
  {
    var value := Money.ParseFloat(typed);
    f.(amount := Edited(if value.Some? then value.value else 0))
  }

  /** The entry a valid form adds: the form's fields, the current instant `nowMs` as its id,
      and nothing in the fields the form does not have. */
  function EntryOf(f: Form, cents: int, nowMs: nat): Transaction
  {
    Transaction(NatToString(nowMs), f.txType, f.description, cents, f.category, f.competenceDate,
                f.dueDate, f.invoiceNumber, f.status, f.bankAccount, f.supplier, false, None, None, None)
  }

  /** The entry carries every field typed into the form. */
  predicate CarriesForm(e: Transaction, f: Form, cents: int, nowMs: nat)
  {
    && e.id == NatToString(nowMs) && e.txType == f.txType && e.description == f.description
    && e.amount == cents && e.category == f.category && e.supplier == f.supplier
    && e.competenceDate == f.competenceDate && e.dueDate == f.dueDate && e.status == f.status
    && e.invoiceNumber == f.invoiceNumber && e.bankAccount == f.bankAccount
    && !e.reconciled && e.transferId.None? && e.costCenter.None? && e.attachments.None?
  }

  /** What a submit does: the entry added, if any, and the form afterwards. */
  datatype Submitted = Submitted(added: Option<Transaction>, form: Form)

  /** `handleSubmit` as written: a description and a truthy amount are required; the entry
      is added and the form reset to its defaults, otherwise nothing happens. */
  function Submit(f: Form, nowMs: nat, today: Date): (r: Submitted)
    ensures r.added.Some? <==> f.description != [] && f.amount.Edited?
    ensures r.added.Some? ==> CarriesForm(r.added.value, f, f.amount.cents, nowMs) && r.form == Fresh(today)
    ensures r.added.None? ==> r.form == f
  {
    if f.description != [] && f.amount.Edited? then
      Submitted(Some(EntryOf(f, f.amount.cents, nowMs)), Fresh(today))
    else Submitted(None, f)
  }

  /** A cleared amount field reads as zero and passes the check: the entry is added with
      amount zero. */
  lemma ClearedAmountAccepted(f: Form, nowMs: nat, today: Date)
    requires f.description != []
    ensures var g := AmountChange(f, "");
      Submit(g, nowMs, today).added.Some? && Submit(g, nowMs, today).added.value.amount == 0
  {
    assert Money.ParseFloat("").None?;
  }

  /** `handleSubmit` as the truthiness check intends it for a plain number: a zero amount
      is refused like a missing one. */
  function SubmitIntended(f: Form, nowMs: nat, today: Date): (r: Submitted)
    ensures r.added.Some? <==> f.description != [] && f.amount.Edited? && f.amount.cents != 0
    ensures r.added.Some? ==> r.added.value.amount != 0 && r.form == Fresh(today)
    ensures r.added.None? ==> r.form == f
    ensures f.amount != Edited(0) ==> r == Submit(f, nowMs, today)
  {
    if f.amount == Edited(0) then Submitted(None, f) else Submit(f, nowMs, today)
  }

  // ------------------------------------------------------------ status toggle

  function Flipped(s: Status): (r: Status)
    ensures r != s
  {
    if s == Pending then Completed else Pending
  }

  /** `handleStatusChange`: the first entry with the id has its status switched between
      pending and completed; its reconciliation flag and every other entry stay as they
      were, and an unknown id changes nothing. */
  function Toggled(ts: seq<Transaction>, id: string): (r: seq<Transaction>)
    ensures |r| == |ts|
    ensures forall i: nat :: FirstWith(ts, TxId, id, i) ==>
      r[i] == ts[i].(status := Flipped(ts[i].status)) && r[i].reconciled == ts[i].reconciled
      && forall j :: 0 <= j < |ts| && j != i ==> r[j] == ts[j]
    ensures (forall j :: 0 <= j < |ts| ==> ts[j].id != id) ==> r == ts
  {
    var i := IndexOf(ts, TxId, id);
    forall k: nat | FirstWith(ts, TxId, id, k) ensures i == Some(k) { IndexOfFirst(ts, TxId, id, k); }
    if i.None? then ts else ts[i.value := ts[i.value].(status := Flipped(ts[i.value].status))]
  }

  /** Toggling twice restores the list. */
  lemma ToggleTwice(ts: seq<Transaction>, id: string)
    ensures Toggled(Toggled(ts, id), id) == ts
  {
    var once := Toggled(ts, id);
    assert forall j :: 0 <= j < |ts| ==> TxId(once[j]) == TxId(ts[j]);
    IndexOfSameKeys(ts, once, TxId, id);
  }
}
