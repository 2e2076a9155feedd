/** The dashboard's own copy of the ledger and the add-transaction form:
    validation of the form, and the add, edit and delete updates to the
    local transaction list once the server call has returned. */
module FinanceState {
  import opened Common
  import opened Calendar
  import opened Ledger

  /** The add dialog's fields. An empty amount or date field is `None`; the
      `isRecurring` flag is not kept. */
  datatype TransactionForm = TransactionForm(
    kind: string,
    amount: Option<real>,
    category: string,
    description: string,
    date: Option<Date>,
    familyMember: string)

  const AMOUNT_ERROR: (string, string) := ("amount", "Please enter a valid amount")
  const CATEGORY_ERROR: (string, string) := ("category", "Please select a category")
  const MEMBER_ERROR: (string, string) := ("familyMember", "Please select a family member")
  const DATE_ERROR: (string, string) := ("date", "Please select a date")

  const ADD_FAILED: string := "Failed to add transaction"
  const UPDATE_FAILED: string := "Failed to update transaction"
  const DELETE_FAILED: string := "Failed to delete transaction"

  /** The form the dialog opens with and is reset to: an expense dated today. */
  function BlankForm(today: Date): TransactionForm
  {
    TransactionForm(EXPENSE, None, "", "", Some(today), "")
  }

  /** The amount is missing or not positive. */
  predicate AmountInvalid(f: TransactionForm)
  {
    f.amount.None? || f.amount.value <= 0.0
  }

  /** The errors object, as (field, message) pairs in the order the fields
      are checked. */
  function ValidateTransaction(f: TransactionForm): (errors: seq<(string, string)>)
    ensures AMOUNT_ERROR in errors <==> AmountInvalid(f)
    ensures CATEGORY_ERROR in errors <==> f.category == ""
    ensures MEMBER_ERROR in errors <==> f.familyMember == ""
    ensures DATE_ERROR in errors <==> f.date.None?
    ensures errors == [] <==>
      f.amount.Some? && f.amount.value > 0.0 && f.category != "" && f.familyMember != "" && f.date.Some?
    ensures forall e :: e in errors ==> e in [AMOUNT_ERROR, CATEGORY_ERROR, MEMBER_ERROR, DATE_ERROR]
  {
    (if AmountInvalid(f) then [AMOUNT_ERROR] else [])
    + (if f.category == "" then [CATEGORY_ERROR] else [])
    + (if f.familyMember == "" then [MEMBER_ERROR] else [])
    + (if f.date.None? then [DATE_ERROR] else [])
  }

  /** `{...newTransaction, id}`: the record appended after a successful add.
      It carries no user id. */
  function Record(f: TransactionForm, id: int): (t: Transaction)
    requires ValidateTransaction(f) == []
    ensures t.id == id && t.amount > 0.0 && t.category != "" && t.familyMember != ""
    ensures t.kind == f.kind && Some(t.date) == f.date && t.userId.None?
  {
    Transaction(id, f.kind, f.amount.value, f.category, Some(f.description), f.date.value, f.familyMember, None)
  }

  function IdsOf(ts: seq<Transaction>): (ids: seq<int>)
    ensures |ids| == |ts| && forall i :: 0 <= i < |ts| ==> ids[i] == ts[i].id
  {
    seq(|ts|, i requires 0 <= i < |ts| => ts[i].id)
  }

  /** `prev.map(t => t.id === updated.id ? updated : t)`. */
  function ReplaceById(ts: seq<Transaction>, updated: Transaction): (r: seq<Transaction>)
    ensures |r| == |ts|
    ensures forall i :: 0 <= i < |ts| && ts[i].id != updated.id ==> r[i] == ts[i]
    ensures forall i :: 0 <= i < |ts| && ts[i].id == updated.id ==> r[i] == updated
  {
    seq(|ts|, i requires 0 <= i < |ts| => if ts[i].id == updated.id then updated else ts[i])
  }

  predicate NotId(id: int, t: Transaction)
  {
    t.id != id
  }

  /** `prev.filter(t => t.id !== id)`. */
  function RemoveById(ts: seq<Transaction>, id: int): (r: seq<Transaction>)
    ensures forall t :: t in r <==> t in ts && t.id != id
    ensures |r| <= |ts|
  {
    Filter(ts, t => NotId(id, t))
  }

  // ---------------------------------------------------------------------
  // What the list updates keep

  /** An edit keeps every id at its place. */
  lemma ReplaceKeepsIds(ts: seq<Transaction>, updated: Transaction)
    ensures IdsOf(ReplaceById(ts, updated)) == IdsOf(ts)
  {
    assert forall i :: 0 <= i < |ts| ==> ReplaceById(ts, updated)[i].id == ts[i].id;
  }

  /** Editing twice with the same record is editing once. */
  lemma ReplaceIdempotent(ts: seq<Transaction>, updated: Transaction)
    ensures ReplaceById(ReplaceById(ts, updated), updated) == ReplaceById(ts, updated)
  {
  }

  /** Deleting an id that is not listed leaves the list as it is. */
  lemma {:induction false} RemoveAbsent(ts: seq<Transaction>, id: int)
    requires id !in IdsOf(ts)
    ensures RemoveById(ts, id) == ts
  {
    if ts != [] {
      var rest := ts[..|ts| - 1];
      assert IdsOf(rest) == IdsOf(ts)[..|ts| - 1];
      assert IdsOf(ts)[|ts| - 1] == ts[|ts| - 1].id;
      RemoveAbsent(rest, id);
      LastSplit(ts);
    }
  }

  /** Deleting keeps the other records in their order: it distributes over
      any split of the list. */
  lemma {:induction false} RemoveSplits(a: seq<Transaction>, b: seq<Transaction>, id: int)
    ensures RemoveById(a + b, id) == RemoveById(a, id) + RemoveById(b, id)
    decreases |b|
  {
    if b != [] {
      var b', x := b[..|b| - 1], b[|b| - 1];
      RemoveSplits(a, b', id);
      assert a + b == (a + b') + [x];
      assert b == b' + [x];
      FilterSnoc(a + b', x, t => NotId(id, t));
      FilterSnoc(b', x, t => NotId(id, t));
    } else {
      assert a + b == a;
    }
  }

  /** Deleting the same id twice is deleting it once. */
  lemma RemoveIdempotent(ts: seq<Transaction>, id: int)
    ensures RemoveById(RemoveById(ts, id), id) == RemoveById(ts, id)
  {
    var r := RemoveById(ts, id);
    assert id !in IdsOf(r) by {
      forall i | 0 <= i < |r|
        ensures IdsOf(r)[i] != id
      {
        assert r[i] in r;
      }
    }
    RemoveAbsent(r, id);
  }

  // ---------------------------------------------------------------------
  // The component state touched by the add, edit and delete handlers

  /** The transaction list with the add dialog's state. The server call of
      each handler is the `apiOk` outcome; the id the server assigns is
      `newId`; the confirmation dialog's answer is `confirmed`. */
  class TransactionStore {
    var transactions: seq<Transaction>
    var form: TransactionForm
    var showAddModal: bool
    var error: Option<string>

    constructor(today: Date)
      ensures transactions == [] && form == BlankForm(today) && !showAddModal && error == None
    {
      transactions := [];
      form := BlankForm(today);
      showAddModal := false;
      error := None;
    }

    /** handleAddTransaction: nothing happens while the form has errors;
        a failed call only records the error; a successful one appends the
        record, closes the dialog and resets the form. */
    method HandleAdd(apiOk: bool, newId: int, today: Date)
      modifies this
      ensures ValidateTransaction(old(form)) != [] ==>
        transactions == old(transactions) && form == old(form)
        && showAddModal == old(showAddModal) && error == old(error)
      ensures ValidateTransaction(old(form)) == [] && !apiOk ==>
        transactions == old(transactions) && form == old(form)
        && showAddModal == old(showAddModal) && error == Some(ADD_FAILED)
      ensures ValidateTransaction(old(form)) == [] && apiOk ==>
        transactions == old(transactions) + [Record(old(form), newId)]
        && form == BlankForm(today) && !showAddModal && error == old(error)
    {
      var errors := ValidateTransaction(form);
      if errors != [] {
        return;
      }
      if !apiOk {
        error := Some(ADD_FAILED);
        return;
      }
      transactions := transactions + [Record(form, newId)];
      showAddModal := false;
      form := BlankForm(today);
    }

    /** handleEditTransaction: the record with the edited id is replaced,
        every other record stays as it was. */
    method HandleEdit(updated: Transaction, apiOk: bool)
      modifies this
      ensures apiOk ==> transactions == ReplaceById(old(transactions), updated) && error == old(error)
      ensures !apiOk ==> transactions == old(transactions) && error == Some(UPDATE_FAILED)
      ensures form == old(form) && showAddModal == old(showAddModal)
    {
      if !apiOk {
        error := Some(UPDATE_FAILED);
        return;
      }
      transactions := ReplaceById(transactions, updated);
    }

    /** handleDeleteTransaction: nothing happens unless the user confirms;
        then the records with that id are dropped. */
    method HandleDelete(id: int, confirmed: bool, apiOk: bool)
      modifies this
      ensures !confirmed ==> transactions == old(transactions) && error == old(error)
      ensures confirmed && apiOk ==> transactions == RemoveById(old(transactions), id) && error == old(error)
      ensures confirmed && !apiOk ==> transactions == old(transactions) && error == Some(DELETE_FAILED)
      ensures form == old(form) && showAddModal == old(showAddModal)
    {
      if !confirmed {
        return;
      }
      if !apiOk {
        error := Some(DELETE_FAILED);
        return;
      }
      transactions := RemoveById(transactions, id);
    }
  }
}
