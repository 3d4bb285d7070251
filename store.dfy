/** The in-memory financial store: the collections every screen reads, and the local
    update each action makes once its server call has succeeded. The records the server
    returns (saved rows, fresh ids) are parameters of the actions. */
module Store {
  import opened Wrappers
  import opened Types
  import opened Folds
  import opened Records
  import opened Ledger
  import Reconciliation

  /** Everything the store holds that the modelled actions touch. */
  datatype State = State(
    transactions: seq<Transaction>,
    bankAccounts: seq<BankAccount>,
    categoryTypes: seq<CategoryType>,
    dreGroups: seq<DreGroup>,
    costCenters: seq<CostCenter>,
    contacts: seq<Contact>,
    bankStatements: seq<BankStatement>,
    initialized: bool,
    loading: bool,
    error: Option<string>)

  /** The state `resetStore` leaves behind. */
  const Empty := State([], [], [], [], [], [], [], false, false, None)

  // ------------------------------------------------------------ transactions

  /** `{...old, ...saved}`: the saved row replaces every column; the attachment list is
      not a column of the row and is kept from the old record. */
  function Overlay(previous: Transaction, saved: Transaction): Transaction
  {
    saved.(attachments := previous.attachments)
  }

  function TransactionUpdated(st: State, id: string, saved: Transaction): State
  {
    var i := IndexOf(st.transactions, TxId, id);
    if i.None? then st
    else st.(transactions := st.transactions[i.value := Overlay(st.transactions[i.value], saved)])
  }

  /** Updating overlays the saved row on the first record with the id and on no other;
      an absent id changes nothing. */
  lemma TransactionUpdatedSpec(st: State, id: string, saved: Transaction, i: nat)
    requires FirstWith(st.transactions, TxId, id, i)
    ensures var after := TransactionUpdated(st, id, saved);
      && after.(transactions := st.transactions) == st
      && |after.transactions| == |st.transactions|
      && after.transactions[i] == saved.(attachments := st.transactions[i].attachments)
      && forall j :: 0 <= j < |after.transactions| && j != i ==> after.transactions[j] == st.transactions[j]
  {
    IndexOfFirst(st.transactions, TxId, id, i);
  }

  lemma TransactionUpdatedAbsent(st: State, id: string, saved: Transaction)
    requires forall j :: 0 <= j < |st.transactions| ==> st.transactions[j].id != id
    ensures TransactionUpdated(st, id, saved) == st
  {
    assert forall j :: 0 <= j < |st.transactions| ==> TxId(st.transactions[j]) != id;
  }

  /** A transaction's reconciliation fields set, on the first record with the id. */
  function Marked(ts: seq<Transaction>, id: string, status: Status, reconciled: bool): seq<Transaction>
  {
    var i := IndexOf(ts, TxId, id);
    if i.None? then ts else ts[i.value := ts[i.value].(status := status, reconciled := reconciled)]
  }

  lemma MarkedSpec(ts: seq<Transaction>, id: string, status: Status, reconciled: bool, i: nat)
    requires FirstWith(ts, TxId, id, i)
    ensures Marked(ts, id, status, reconciled) == ts[i := ts[i].(status := status, reconciled := reconciled)]
  {
    IndexOfFirst(ts, TxId, id, i);
  }

  // ------------------------------------------------------------ reconciliation

  /** `reconcileTransaction`: the transaction becomes completed and reconciled, the
      statement reconciled and linked to it. */
  function Reconciled(st: State, statementId: string, transactionId: string): State
  {
    var i := IndexOf(st.bankStatements, StatementKey, statementId);
    st.(transactions := Marked(st.transactions, transactionId, Completed, true),
        bankStatements :=
          if i.None? then st.bankStatements
          else st.bankStatements[i.value := st.bankStatements[i.value].(reconciled := true, transactionId := Some(transactionId))])
  }

  /** A statement link that is present and not the empty text (which reads as false). */
  predicate Linked(s: BankStatement)
  {
    s.transactionId.Some? && s.transactionId.value != ""
  }

  /** `unreconcileTransaction`: only a linked statement is undone, and then its
      transaction reverts to pending and unreconciled. */
  function Unreconciled(st: State, statementId: string): State
  {
    var i := IndexOf(st.bankStatements, StatementKey, statementId);
    if i.None? || !Linked(st.bankStatements[i.value]) then st
    else
      var s := st.bankStatements[i.value];
      st.(transactions := Marked(st.transactions, s.transactionId.value, Pending, false),
          bankStatements := st.bankStatements[i.value := s.(reconciled := false, transactionId := None)])
  }

  /** Reconciling marks the first transaction with the id completed and reconciled and
      links the first statement with its id to it; every other record is left alone. */
  lemma ReconciledSpec(st: State, statementId: string, transactionId: string, ti: nat, si: nat)
    requires FirstWith(st.transactions, TxId, transactionId, ti)
    requires FirstWith(st.bankStatements, StatementKey, statementId, si)
    ensures var after := Reconciled(st, statementId, transactionId);
      && after.(transactions := st.transactions, bankStatements := st.bankStatements) == st
      && |after.transactions| == |st.transactions| && |after.bankStatements| == |st.bankStatements|
      && after.transactions[ti].status == Completed && after.transactions[ti].reconciled
      && after.transactions[ti] == st.transactions[ti].(status := Completed, reconciled := true)
      && after.bankStatements[si].reconciled && after.bankStatements[si].transactionId == Some(transactionId)
      && after.bankStatements[si] == st.bankStatements[si].(reconciled := true, transactionId := Some(transactionId))
      && (forall j :: 0 <= j < |st.transactions| && j != ti ==> after.transactions[j] == st.transactions[j])
      && (forall j :: 0 <= j < |st.bankStatements| && j != si ==> after.bankStatements[j] == st.bankStatements[j])
  {
    MarkedSpec(st.transactions, transactionId, Completed, true, ti);
    IndexOfFirst(st.bankStatements, StatementKey, statementId, si);
  }

  /** Unreconciling changes nothing unless the first statement with the id carries a
      link; then the statement is unlinked and unreconciled, and the first transaction
      it linked, if any, reverts to pending and unreconciled. */
  lemma UnreconciledSpec(st: State, statementId: string, si: nat)
    requires FirstWith(st.bankStatements, StatementKey, statementId, si)
    ensures !Linked(st.bankStatements[si]) ==> Unreconciled(st, statementId) == st
    ensures Linked(st.bankStatements[si]) ==>
      var after := Unreconciled(st, statementId);
      && after.(transactions := st.transactions, bankStatements := st.bankStatements) == st
      && after.bankStatements == st.bankStatements[si := st.bankStatements[si].(reconciled := false, transactionId := None)]
      && after.transactions == Marked(st.transactions, st.bankStatements[si].transactionId.value, Pending, false)
  {
    IndexOfFirst(st.bankStatements, StatementKey, statementId, si);
  }

  /** The transaction a statement was linked to, once unreconciled, is pending and not
      reconciled, and no other transaction changes. */
  lemma UnreconciledTransaction(st: State, statementId: string, si: nat, ti: nat)
    requires FirstWith(st.bankStatements, StatementKey, statementId, si)
    requires Linked(st.bankStatements[si])
    requires FirstWith(st.transactions, TxId, st.bankStatements[si].transactionId.value, ti)
    ensures var after := Unreconciled(st, statementId).transactions;
      && |after| == |st.transactions|
      && after[ti] == st.transactions[ti].(status := Pending, reconciled := false)
      && forall j :: 0 <= j < |after| && j != ti ==> after[j] == st.transactions[j]
  {
    UnreconciledSpec(st, statementId, si);
    MarkedSpec(st.transactions, st.bankStatements[si].transactionId.value, Pending, false, ti);
  }

  /** Without a statement of that id unreconciling does nothing. */
  lemma UnreconciledMissing(st: State, statementId: string)
    requires forall k :: 0 <= k < |st.bankStatements| ==> st.bankStatements[k].id != statementId
    ensures Unreconciled(st, statementId) == st
  {
    assert forall k :: 0 <= k < |st.bankStatements| ==> StatementKey(st.bankStatements[k]) != statementId;
  }

  // ------------------------------------------------------------ attachments

  /** The attachment list of a transaction, an absent one read as empty. */
  function AttachmentsOf(t: Transaction): seq<Attachment>
  {
    if t.attachments.None? then [] else t.attachments.value
  }

  function AttachmentAdded(st: State, transactionId: string, a: Attachment): State
  {
    var i := IndexOf(st.transactions, TxId, transactionId);
    if i.None? then st
    else st.(transactions := st.transactions[i.value :=
      st.transactions[i.value].(attachments := Some(AttachmentsOf(st.transactions[i.value]) + [a]))])
  }

  /** Adding an attachment appends it to the first transaction with the id, creating its
      list when it had none, and touches nothing else. */
  lemma AttachmentAddedSpec(st: State, transactionId: string, a: Attachment, i: nat)
    requires FirstWith(st.transactions, TxId, transactionId, i)
    ensures var after := AttachmentAdded(st, transactionId, a);
      && after.(transactions := st.transactions) == st
      && |after.transactions| == |st.transactions|
      && after.transactions[i].attachments.Some?
      && after.transactions[i].attachments.value == AttachmentsOf(st.transactions[i]) + [a]
      && (st.transactions[i].attachments.None? ==> after.transactions[i].attachments == Some([a]))
      && after.transactions[i].(attachments := st.transactions[i].attachments) == st.transactions[i]
      && forall j :: 0 <= j < |st.transactions| && j != i ==> after.transactions[j] == st.transactions[j]
  {
    IndexOfFirst(st.transactions, TxId, transactionId, i);
    if st.transactions[i].attachments.None? {
      assert AttachmentsOf(st.transactions[i]) + [a] == [a];
    }
  }

  /** One transaction with the attachment filtered out of its list, if it has one. */
  function Stripped(t: Transaction, attachmentId: string): Transaction
  {
    if t.attachments.None? then t
    else t.(attachments := Some(Without(t.attachments.value, AttachmentKey, attachmentId)))
  }

  function AttachmentDeleted(st: State, attachmentId: string): State
  {
    st.(transactions := seq(|st.transactions|, j requires 0 <= j < |st.transactions| =>
      Stripped(st.transactions[j], attachmentId)))
  }

  /** Deleting an attachment removes that id from every transaction's list, keeps every
      other attachment and changes nothing else. */
  lemma AttachmentDeletedSpec(st: State, attachmentId: string)
    ensures var after := AttachmentDeleted(st, attachmentId);
      && after.(transactions := st.transactions) == st
      && |after.transactions| == |st.transactions|
      && forall j :: 0 <= j < |st.transactions| ==>
        && after.transactions[j].(attachments := st.transactions[j].attachments) == st.transactions[j]
        && after.transactions[j].attachments.None? == st.transactions[j].attachments.None?
        && forall x :: x in AttachmentsOf(after.transactions[j]) <==>
             x in AttachmentsOf(st.transactions[j]) && x.id != attachmentId
  {
    var after := AttachmentDeleted(st, attachmentId);
    forall j | 0 <= j < |st.transactions|
      ensures forall x :: x in AttachmentsOf(after.transactions[j]) <==>
        x in AttachmentsOf(st.transactions[j]) && x.id != attachmentId
    {
      var t := st.transactions[j];
      if t.attachments.Some? {
        WithoutMembers(t.attachments.value, AttachmentKey, attachmentId);
      }
    }
  }

  // ------------------------------------------------------------ transfers

  const TransferCategory := "Transferência entre Contas"
  const TransferPrefix := "Transferência: "

  /** One half of a transfer: completed and reconciled on the day of the transfer. */
  function TransferLeg(id: string, ty: TxType, transfer: Reconciliation.TransferData, account: string): Transaction
  {
    Transaction(id, ty, TransferPrefix + transfer.description, transfer.amount, TransferCategory,
                transfer.date, transfer.date, None, Completed, account, None, true, None, None, None)
  }

  /** The category a transfer creates when none carries its name. */
  function NewTransferCategory(id: string, userId: string): CategoryType
  {
    CategoryType(id, TransferCategory, Expense, GroupId(DespesasFinanceiras), userId)
  }

  function Bump(a: BankAccount, delta: int): BankAccount
  {
    a.(currentBalance := a.currentBalance + delta)
  }

  /** `if (i !== -1) accounts[i].currentBalance += delta`. */
  function Adjusted(accounts: seq<BankAccount>, i: Option<nat>, delta: int): seq<BankAccount>
  {
    if i.None? || i.value >= |accounts| then accounts else accounts[i.value := Bump(accounts[i.value], delta)]
  }

  /** The source account's balance lowered and the destination's raised, both positions
      found by `findIndex` before either update. */
  function Moved(accounts: seq<BankAccount>, fromId: string, toId: string, amount: int): seq<BankAccount>
  {
    var fi := IndexOf(accounts, AccountKey, fromId);
    var ti := IndexOf(accounts, AccountKey, toId);
    Adjusted(Adjusted(accounts, fi, -amount), ti, amount)
  }

  /** The categories after a transfer: the transfer category is created when no category
      carries its name. */
  function WithTransferCategory(cats: seq<CategoryType>, id: string, userId: string): seq<CategoryType>
  {
    if IndexOf(cats, CategoryName, TransferCategory).Some? then cats
    else cats + [NewTransferCategory(id, userId)]
  }

  /** The withdrawal from the source and the deposit into the destination. */
  function TransferLegs(transfer: Reconciliation.TransferData, withdrawalId: string, depositId: string): seq<Transaction>
  {
    [TransferLeg(withdrawalId, Expense, transfer, transfer.fromAccountId),
     TransferLeg(depositId, Income, transfer, transfer.toAccountId)]
  }

  /** `transferBetweenAccounts`; the two fresh transaction ids and the id the server gives
      a created category are inputs. */
  function Transferred(st: State, transfer: Reconciliation.TransferData,
                       withdrawalId: string, depositId: string, categoryId: string): Result<State, string>
  {
    var from := IndexOf(st.bankAccounts, AccountKey, transfer.fromAccountId);
    if from.None? then Err(Reconciliation.ErrSourceMissing)
    else if st.bankAccounts[from.value].currentBalance < transfer.amount then Err(Reconciliation.ErrInsufficient)
    else
      Ok(st.(categoryTypes := WithTransferCategory(st.categoryTypes, categoryId, st.bankAccounts[from.value].userId),
             transactions := st.transactions + TransferLegs(transfer, withdrawalId, depositId),
             bankAccounts := Moved(st.bankAccounts, transfer.fromAccountId, transfer.toAccountId, transfer.amount)))
  }

  /** `find` and `findIndex` pick the same account. */
  lemma {:induction false} FindAccountFirst(accounts: seq<BankAccount>, id: string)
    ensures FindAccount(accounts, id).None? <==> IndexOf(accounts, AccountKey, id).None?
    ensures FindAccount(accounts, id).Some? ==>
      FindAccount(accounts, id).value == accounts[IndexOf(accounts, AccountKey, id).value]
  {
    if accounts != [] && accounts[0].id != id {
      FindAccountFirst(accounts[1..], id);
    }
  }

  function CurrentBalance(a: BankAccount): int { a.currentBalance }

  lemma AdjustedSpec(accounts: seq<BankAccount>, i: Option<nat>, delta: int)
    ensures |Adjusted(accounts, i, delta)| == |accounts|
    ensures forall j :: 0 <= j < |accounts| ==>
      Adjusted(accounts, i, delta)[j] == if i == Some(j) then Bump(accounts[j], delta) else accounts[j]
  {
  }

  lemma AdjustedSum(accounts: seq<BankAccount>, i: Option<nat>, delta: int)
    ensures Sum(Adjusted(accounts, i, delta), CurrentBalance) ==
      Sum(accounts, CurrentBalance) + if i.Some? && i.value < |accounts| then delta else 0
  {
    if i.Some? && i.value < |accounts| {
      SumUpdate(accounts, i.value, Bump(accounts[i.value], delta), CurrentBalance);
    }
  }

  /** A transfer is refused exactly when the source account is missing or holds less
      than the amount, with the store's message; a refused transfer changes nothing. */
  lemma TransferGuards(st: State, transfer: Reconciliation.TransferData, w: string, d: string, c: string)
    ensures var from := FindAccount(st.bankAccounts, transfer.fromAccountId);
      && (Transferred(st, transfer, w, d, c) == Err(Reconciliation.ErrSourceMissing) <==> from.None?)
      && (Transferred(st, transfer, w, d, c) == Err(Reconciliation.ErrInsufficient) <==>
            from.Some? && from.value.currentBalance < transfer.amount)
      && (Transferred(st, transfer, w, d, c).Ok? <==> from.Some? && from.value.currentBalance >= transfer.amount)
  {
    FindAccountFirst(st.bankAccounts, transfer.fromAccountId);
  }

  /** The two records of a transfer: an expense on the source and an income on the
      destination, of the same amount, both completed and reconciled, in the transfer
      category, dated the day of the transfer. */
  lemma TransferLegsSpec(transfer: Reconciliation.TransferData, w: string, d: string)
    ensures var legs := TransferLegs(transfer, w, d);
      && |legs| == 2
      && legs[0].txType == Expense && legs[1].txType == Income
      && legs[0].amount == legs[1].amount == transfer.amount
      && legs[0].bankAccount == transfer.fromAccountId && legs[1].bankAccount == transfer.toAccountId
      && legs[0].status == legs[1].status == Completed && legs[0].reconciled && legs[1].reconciled
      && legs[0].category == legs[1].category == TransferCategory
      && legs[0].competenceDate == legs[0].dueDate == legs[1].competenceDate == legs[1].dueDate == transfer.date
      && Net(legs) == 0
  {
    var legs := TransferLegs(transfer, w, d);
    assert legs[..1] == [legs[0]] && legs[..1][..0] == [];
    assert Sum(legs[..1], Signed) == Signed(legs[0]);
  }

  /** After a transfer a category with the transfer name exists; it was created, as an
      expense category of the financial-expenses group, only when none existed. */
  lemma WithTransferCategorySpec(cats: seq<CategoryType>, id: string, userId: string)
    ensures FindCategory(WithTransferCategory(cats, id, userId), TransferCategory).Some?
    ensures FindCategory(cats, TransferCategory).Some? ==> WithTransferCategory(cats, id, userId) == cats
    ensures FindCategory(cats, TransferCategory).None? ==>
      var after := WithTransferCategory(cats, id, userId);
      && |after| == |cats| + 1 && after[..|cats|] == cats
      && after[|cats|].catType == Expense && after[|cats|].dreGroup == "despesas_financeiras"
  {
    var after := WithTransferCategory(cats, id, userId);
    var found := IndexOf(cats, CategoryName, TransferCategory);
    if found.Some? {
      assert cats[found.value].name == TransferCategory;
      assert cats[found.value] in cats;
    } else {
      assert forall k :: 0 <= k < |cats| ==> CategoryName(cats[k]) != TransferCategory;
      assert after[|cats|] in after && after[|cats|].name == TransferCategory;
    }
  }

  /** An accepted transfer appends the two records, adds the transfer category if it
      was missing, moves the two balances and changes nothing else. */
  lemma TransferredParts(st: State, transfer: Reconciliation.TransferData, w: string, d: string, c: string)
    requires Transferred(st, transfer, w, d, c).Ok?
    ensures var after := Transferred(st, transfer, w, d, c).value;
      && FindAccount(st.bankAccounts, transfer.fromAccountId).Some?
      && after.(transactions := st.transactions, bankAccounts := st.bankAccounts, categoryTypes := st.categoryTypes) == st
      && after.transactions == st.transactions + TransferLegs(transfer, w, d)
      && after.categoryTypes ==
           WithTransferCategory(st.categoryTypes, c, FindAccount(st.bankAccounts, transfer.fromAccountId).value.userId)
      && after.bankAccounts == Moved(st.bankAccounts, transfer.fromAccountId, transfer.toAccountId, transfer.amount)
  {
    FindAccountFirst(st.bankAccounts, transfer.fromAccountId);
  }

  /** Moving balances changes nothing but current balances. */
  lemma MovedKeeps(accounts: seq<BankAccount>, fromId: string, toId: string, amount: int)
    ensures var after := Moved(accounts, fromId, toId, amount);
      && |after| == |accounts|
      && forall j :: 0 <= j < |accounts| ==> after[j].(currentBalance := accounts[j].currentBalance) == accounts[j]
  {
    var fi := IndexOf(accounts, AccountKey, fromId);
    AdjustedSpec(accounts, fi, -amount);
    AdjustedSpec(Adjusted(accounts, fi, -amount), IndexOf(accounts, AccountKey, toId), amount);
  }

  /** The source loses the amount. */
  lemma MovedSource(accounts: seq<BankAccount>, fromId: string, toId: string, amount: int, fi: nat)
    requires FirstWith(accounts, AccountKey, fromId, fi) && fromId != toId
    ensures Moved(accounts, fromId, toId, amount)[fi].currentBalance == accounts[fi].currentBalance - amount
  {
    var ti := IndexOf(accounts, AccountKey, toId);
    IndexOfFirst(accounts, AccountKey, fromId, fi);
    AdjustedSpec(accounts, Some(fi), -amount);
    AdjustedSpec(Adjusted(accounts, Some(fi), -amount), ti, amount);
    assert ti != Some(fi);
  }

  /** The destination gains the amount. */
  lemma MovedDestination(accounts: seq<BankAccount>, fromId: string, toId: string, amount: int, ti: nat)
    requires FirstWith(accounts, AccountKey, toId, ti) && fromId != toId
    ensures Moved(accounts, fromId, toId, amount)[ti].currentBalance == accounts[ti].currentBalance + amount
  {
    var fi := IndexOf(accounts, AccountKey, fromId);
    IndexOfFirst(accounts, AccountKey, toId, ti);
    AdjustedSpec(accounts, fi, -amount);
    AdjustedSpec(Adjusted(accounts, fi, -amount), Some(ti), amount);
    assert fi != Some(ti);
  }

  /** A move from an account to itself changes nothing. */
  lemma MovedSelf(accounts: seq<BankAccount>, id: string, amount: int)
    ensures Moved(accounts, id, id, amount) == accounts
  {
    var i := IndexOf(accounts, AccountKey, id);
    AdjustedSpec(accounts, i, -amount);
    AdjustedSpec(Adjusted(accounts, i, -amount), i, amount);
    if i.Some? {
      assert Bump(Bump(accounts[i.value], -amount), amount) == accounts[i.value];
    }
  }

  /** The sum of all balances is preserved when both accounts exist; when only the
      source exists, the amount leaves the books. */
  lemma MovedTotal(accounts: seq<BankAccount>, fromId: string, toId: string, amount: int)
    requires IndexOf(accounts, AccountKey, fromId).Some?
    ensures IndexOf(accounts, AccountKey, toId).Some? ==>
      Sum(Moved(accounts, fromId, toId, amount), CurrentBalance) == Sum(accounts, CurrentBalance)
    ensures IndexOf(accounts, AccountKey, toId).None? ==>
      Sum(Moved(accounts, fromId, toId, amount), CurrentBalance) == Sum(accounts, CurrentBalance) - amount
  {
    var fi := IndexOf(accounts, AccountKey, fromId);
    var ti := IndexOf(accounts, AccountKey, toId);
    assert Moved(accounts, fromId, toId, amount) == Adjusted(Adjusted(accounts, fi, -amount), ti, amount);
    AdjustedTwice(accounts, fi, ti, amount);
  }

  lemma AdjustedTwice(accounts: seq<BankAccount>, fi: Option<nat>, ti: Option<nat>, amount: int)
    requires fi.Some? && fi.value < |accounts|
    ensures Sum(Adjusted(Adjusted(accounts, fi, -amount), ti, amount), CurrentBalance) ==
      Sum(accounts, CurrentBalance) - amount + if ti.Some? && ti.value < |accounts| then amount else 0
  {
    var mid := Adjusted(accounts, fi, -amount);
    assert |mid| == |accounts|;
    AdjustedSum(accounts, fi, -amount);
    AdjustedSum(mid, ti, amount);
  }

  // ------------------------------------------------------------ the store

  class FinancialStore {
    var transactions: seq<Transaction>
    var bankAccounts: seq<BankAccount>
    var categoryTypes: seq<CategoryType>
    var dreGroups: seq<DreGroup>
    var costCenters: seq<CostCenter>
    var contacts: seq<Contact>
    var bankStatements: seq<BankStatement>
    var initialized: bool
    var loading: bool
    var error: Option<string>

    function Snapshot(): State
      reads this
    {
      State(transactions, bankAccounts, categoryTypes, dreGroups, costCenters, contacts,
            bankStatements, initialized, loading, error)
    }

    constructor()
      ensures Snapshot() == Empty
    {
      transactions, bankAccounts, categoryTypes, dreGroups := [], [], [], [];
      costCenters, contacts, bankStatements := [], [], [];
      initialized, loading, error := false, false, None;
    }

    /** `resetStore`: every collection emptied, not initialized, not loading, no error. */
    method Reset()
      modifies this
      ensures Snapshot() == Empty
    {
      transactions, bankAccounts, categoryTypes, dreGroups := [], [], [], [];
      costCenters, contacts, bankStatements := [], [], [];
      initialized, loading, error := false, false, None;
    }

    /** `addTransaction` pushes the saved record. */
    method AddTransaction(saved: Transaction)
      modifies this
      ensures Snapshot() == old(Snapshot()).(transactions := old(transactions) + [saved])
    {
      transactions := transactions + [saved];
    }

    method UpdateTransaction(id: string, saved: Transaction)
      modifies this
      ensures Snapshot() == TransactionUpdated(old(Snapshot()), id, saved)
    {
      var index := IndexOf(transactions, TxId, id);
      if index.Some? {
        transactions := transactions[index.value := Overlay(transactions[index.value], saved)];
      }
    }

    method DeleteTransaction(id: string)
      modifies this
      ensures Snapshot() == old(Snapshot()).(transactions := Without(old(transactions), TxId, id))
    {
      transactions := Without(transactions, TxId, id);
    }

    method AddBankAccount(saved: BankAccount)
      modifies this
      ensures Snapshot() == old(Snapshot()).(bankAccounts := old(bankAccounts) + [saved])
    {
      bankAccounts := bankAccounts + [saved];
    }

    /** `updateBankAccount` replaces the first account with the id by the saved one. */
    method UpdateBankAccount(id: string, saved: BankAccount)
      modifies this
      ensures Snapshot() == old(Snapshot()).(bankAccounts := ReplaceFirst(old(bankAccounts), AccountKey, id, saved))
    {
      var index := IndexOf(bankAccounts, AccountKey, id);
      if index.Some? {
        bankAccounts := bankAccounts[index.value := saved];
      }
    }

    method DeleteBankAccount(id: string)
      modifies this
      ensures Snapshot() == old(Snapshot()).(bankAccounts := Without(old(bankAccounts), AccountKey, id))
    {
      bankAccounts := Without(bankAccounts, AccountKey, id);
    }

    method AddBankStatement(saved: BankStatement)
      modifies this
      ensures Snapshot() == old(Snapshot()).(bankStatements := old(bankStatements) + [saved])
    {
      bankStatements := bankStatements + [saved];
    }

    method ReconcileTransaction(statementId: string, transactionId: string)
      modifies this
      ensures Snapshot() == Reconciled(old(Snapshot()), statementId, transactionId)
    {
      var t := IndexOf(transactions, TxId, transactionId);
      if t.Some? {
        transactions := transactions[t.value := transactions[t.value].(status := Completed, reconciled := true)];
      }
      var s := IndexOf(bankStatements, StatementKey, statementId);
      if s.Some? {
        bankStatements := bankStatements[s.value := bankStatements[s.value].(reconciled := true, transactionId := Some(transactionId))];
      }
    }

    method UnreconcileTransaction(statementId: string)
      modifies this
      ensures Snapshot() == Unreconciled(old(Snapshot()), statementId)
    {
      var s := IndexOf(bankStatements, StatementKey, statementId);
      if s.Some? && Linked(bankStatements[s.value]) {
        var statement := bankStatements[s.value];
        var t := IndexOf(transactions, TxId, statement.transactionId.value);
        if t.Some? {
          transactions := transactions[t.value := transactions[t.value].(status := Pending, reconciled := false)];
        }
        bankStatements := bankStatements[s.value := statement.(reconciled := false, transactionId := None)];
      }
    }

    method AddCategoryType(saved: CategoryType)
      modifies this
      ensures Snapshot() == old(Snapshot()).(categoryTypes := old(categoryTypes) + [saved])
    {
      categoryTypes := categoryTypes + [saved];
    }

    /** `updateCategoryType` looks categories up by their old name. */
    method UpdateCategoryType(oldName: string, saved: CategoryType)
      modifies this
      ensures Snapshot() == old(Snapshot()).(categoryTypes := ReplaceFirst(old(categoryTypes), CategoryName, oldName, saved))
    {
      var index := IndexOf(categoryTypes, CategoryName, oldName);
      if index.Some? {
        categoryTypes := categoryTypes[index.value := saved];
      }
    }

    method DeleteCategoryType(name: string)
      modifies this
      ensures Snapshot() == old(Snapshot()).(categoryTypes := Without(old(categoryTypes), CategoryName, name))
    {
      categoryTypes := Without(categoryTypes, CategoryName, name);
    }

    method AddAttachment(transactionId: string, saved: Attachment)
      modifies this
      ensures Snapshot() == AttachmentAdded(old(Snapshot()), transactionId, saved)
    {
      var index := IndexOf(transactions, TxId, transactionId);
      if index.Some? {
        var t := transactions[index.value];
        var list := if t.attachments.None? then [] else t.attachments.value;
        transactions := transactions[index.value := t.(attachments := Some(list + [saved]))];
      }
    }

    /** `deleteAttachment` walks every transaction and filters its list. */
    method DeleteAttachment(attachmentId: string)
      modifies this
      ensures Snapshot() == AttachmentDeleted(old(Snapshot()), attachmentId)
    {
      var i := 0;
      while i < |transactions|
        invariant 0 <= i <= |transactions| == |old(transactions)|
        invariant Snapshot() == old(Snapshot()).(transactions := transactions)
        invariant forall j :: 0 <= j < i ==> transactions[j] == Stripped(old(transactions)[j], attachmentId)
        invariant forall j :: i <= j < |transactions| ==> transactions[j] == old(transactions)[j]
      {
        transactions := transactions[i := Stripped(transactions[i], attachmentId)];
        i := i + 1;
      }
    }

    /** The balance updates of a booked transfer: the source account found by `findIndex`
        loses the amount, then the destination found the same way gains it. */
    method MoveBalances(fromId: string, toId: string, amount: int)
      modifies this
      ensures Snapshot() == old(Snapshot()).(bankAccounts := Moved(old(bankAccounts), fromId, toId, amount))
    {
      var fromIndex := IndexOf(bankAccounts, AccountKey, fromId);
      var toIndex := IndexOf(bankAccounts, AccountKey, toId);
      if fromIndex.Some? {
        var a := bankAccounts[fromIndex.value];
        bankAccounts := bankAccounts[fromIndex.value := a.(currentBalance := a.currentBalance - amount)];
      }
      if toIndex.Some? {
        var a := bankAccounts[toIndex.value];
        bankAccounts := bankAccounts[toIndex.value := a.(currentBalance := a.currentBalance + amount)];
      }
    }

    /** `transferBetweenAccounts`: on a refusal nothing changes and the message is returned. */
    method TransferBetweenAccounts(transfer: Reconciliation.TransferData,
                                   withdrawalId: string, depositId: string, categoryId: string)
      returns (r: Result<(), string>)
      modifies this
      ensures var expected := Transferred(old(Snapshot()), transfer, withdrawalId, depositId, categoryId);
        && (r.Err? <==> expected.Err?)
        && (r.Err? ==> r.error == expected.error && Snapshot() == old(Snapshot()))
        && (r.Ok? ==> Snapshot() == expected.value)
    {
      ghost var st := Snapshot();
      var from := IndexOf(bankAccounts, AccountKey, transfer.fromAccountId);
      if from.None? {
        return Err(Reconciliation.ErrSourceMissing);
      }
      var fromAccount := bankAccounts[from.value];
      if fromAccount.currentBalance < transfer.amount {
        return Err(Reconciliation.ErrInsufficient);
      }
      if IndexOf(categoryTypes, CategoryName, TransferCategory).None? {
        AddCategoryType(NewTransferCategory(categoryId, fromAccount.userId));
      }
      transactions := transactions + [TransferLeg(withdrawalId, Expense, transfer, transfer.fromAccountId)];
      transactions := transactions + [TransferLeg(depositId, Income, transfer, transfer.toAccountId)];
      MoveBalances(transfer.fromAccountId, transfer.toAccountId, transfer.amount);
      assert transactions == st.transactions + TransferLegs(transfer, withdrawalId, depositId);
      assert categoryTypes == WithTransferCategory(st.categoryTypes, categoryId, fromAccount.userId);
      return Ok(());
    }
  }
}
