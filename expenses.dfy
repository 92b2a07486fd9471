/** The expenses page: the expense list with its create, edit and delete
    forms, and a search over description, spender and date. */
module Expenses {
  import opened Text
  import opened Js
  import opened Wrappers
  import opened RecordList

  /** The keys an expense is posted with, on create and on update alike. */
  const EXPENSE_FIELDS: set<string> := {"description", "amount"}

  /** The empty new-expense form. */
  const EMPTY_EXPENSE: Record := map["description" := Str(""), "amount" := Str("")]

  /** `{ description, amount }` taken from a form. */
  function ExpensePayload(form: Record): (payload: Record)
    ensures payload.Keys == EXPENSE_FIELDS
    ensures forall k :: k in EXPENSE_FIELDS ==> Get(payload, k) == Get(form, k)
  {
    Pick(form, EXPENSE_FIELDS)
  }

  /** The fields the search reads: a text description, and a spender name
      that is text or missing. The search fails on any other expense. */
  predicate Searchable(e: Record) {
    Get(e, "description").Str? && (!Truthy(Get(e, "spent_by_username")) || Get(e, "spent_by_username").Str?)
  }

  /** `(e.spent_by_username || '')`. */
  function Spender(e: Record): (name: string)
    requires Searchable(e)
    ensures !Truthy(Get(e, "spent_by_username")) ==> name == ""
    ensures Truthy(Get(e, "spent_by_username")) ==> name == Get(e, "spent_by_username").s
  {
    if Truthy(Get(e, "spent_by_username")) then Get(e, "spent_by_username").s else ""
  }

  /** The lower-cased term occurs in the lower-cased description, spender or
      date; `dateText` is the browser's local rendering of `spent_at`. */
  predicate ExpenseMatches(e: Record, term: string, dateText: Record -> string)
    requires Searchable(e)
  {
    Includes(Lower(Get(e, "description").s), Lower(term))
    || Includes(Lower(Spender(e)), Lower(term))
    || Includes(Lower(dateText(e)), Lower(term))
  }

  /** Every expense in the list can be searched. */
  predicate AllSearchable(expenses: seq<Record>) {
    forall i :: 0 <= i < |expenses| ==> Searchable(expenses[i])
  }

  /** `filteredExpenses`: the matching expenses, in list order. */
  function FilteredExpenses(expenses: seq<Record>, term: string, dateText: Record -> string): (r: seq<Record>)
    requires AllSearchable(expenses)
    ensures |r| <= |expenses|
    ensures forall i :: 0 <= i < |r| ==> r[i] in expenses && ExpenseMatches(r[i], term, dateText)
    ensures forall i :: 0 <= i < |expenses| && ExpenseMatches(expenses[i], term, dateText) ==> expenses[i] in r
  {
    if expenses == [] then []
    else (if ExpenseMatches(expenses[0], term, dateText) then [expenses[0]] else [])
         + FilteredExpenses(expenses[1..], term, dateText)
  }

  /** The filter works expense by expense: a single expense is kept exactly
      when it matches, and filtering a concatenation concatenates the results,
      so order and repetitions are kept. */
  lemma {:induction false} FilteredExpensesAppend(a: seq<Record>, b: seq<Record>, term: string, dateText: Record -> string)
    requires AllSearchable(a) && AllSearchable(b)
    ensures AllSearchable(a + b)
    ensures FilteredExpenses(a + b, term, dateText) == FilteredExpenses(a, term, dateText) + FilteredExpenses(b, term, dateText)
  {
    if a == [] {
      assert a + b == b;
    } else {
      assert (a + b)[1..] == a[1..] + b;
      assert AllSearchable(a[1..]);
      FilteredExpensesAppend(a[1..], b, term, dateText);
    }
  }

  /** A single expense is kept exactly when it matches. */
  lemma FilteredExpensesSingle(x: Record, term: string, dateText: Record -> string)
    requires Searchable(x)
    ensures FilteredExpenses([x], term, dateText) == if ExpenseMatches(x, term, dateText) then [x] else []
  {
    assert [x][1..] == [];
  }

  /** Typing any piece of an expense's description, in any case, finds the expense. */
  lemma DescriptionPieceFindsExpense(e: Record, i: int, j: int, typed: string, dateText: Record -> string)
    requires Searchable(e) && 0 <= i <= j <= |Get(e, "description").s|
    requires Lower(typed) == Lower(Get(e, "description").s[i..j])
    ensures ExpenseMatches(e, typed, dateText)
  {
    var description := Get(e, "description").s;
    assert Lower(description[i..j]) == Lower(description)[i..j];
    assert OccursAt(Lower(description), Lower(typed), i);
    IncludesIffOccurs(Lower(description), Lower(typed));
  }

  /** An empty search shows every expense. */
  lemma {:induction false} EmptySearchShowsAll(expenses: seq<Record>, dateText: Record -> string)
    requires AllSearchable(expenses)
    ensures FilteredExpenses(expenses, "", dateText) == expenses
  {
    if expenses != [] {
      IncludesEmpty(Lower(Get(expenses[0], "description").s));
      EmptySearchShowsAll(expenses[1..], dateText);
    }
  }

  /** An expense without a spender is found by its spender only through the
      empty term. */
  lemma MissingSpenderMatchesOnlyEmpty(e: Record, term: string)
    requires Searchable(e) && !Truthy(Get(e, "spent_by_username"))
    ensures Includes(Lower(Spender(e)), Lower(term)) <==> Lower(term) == ""
  {
    IncludesIffOccurs(Lower(Spender(e)), Lower(term));
    if Lower(term) == "" {
      assert OccursAt(Lower(Spender(e)), Lower(term), 0);
    }
  }

  class ExpensesPage {
    var expenses: seq<Record>
    var newExpense: Record
    var editExpense: Option<Record>
    var searchTerm: string

    constructor ()
      ensures expenses == [] && newExpense == EMPTY_EXPENSE && editExpense == None && searchTerm == ""
    {
      expenses := [];
      newExpense := EMPTY_EXPENSE;
      editExpense := None;
      searchTerm := "";
    }

    /** `fetchExpenses`. */
    method FetchExpenses(reply: ListReply)
      modifies this`expenses
      ensures expenses == if reply.Loaded? then reply.records else old(expenses)
    {
      if reply.Loaded? {
        expenses := reply.records;
      }
    }

    /** `handleInputChange`: edits go to the expense being edited, if any,
        else to the new expense. */
    method HandleInputChange(name: string, value: string)
      modifies this`newExpense, this`editExpense
      ensures old(editExpense).Some? ==>
        editExpense == Some(With(old(editExpense).value, name, Str(value))) && newExpense == old(newExpense)
      ensures old(editExpense).None? ==>
        editExpense == None && newExpense == With(old(newExpense), name, Str(value))
    {
      if editExpense.Some? {
        editExpense := Some(editExpense.value[name := Str(value)]);
      } else {
        newExpense := newExpense[name := Str(value)];
      }
    }

    /** `handleCreateExpense`: two fields are posted; the created expense is
        appended and the form emptied; a refusal changes nothing. */
    method HandleCreateExpense(reply: Reply) returns (payload: Record)
      modifies this`expenses, this`newExpense
      ensures payload == ExpensePayload(old(newExpense))
      ensures reply.Success? ==> expenses == old(expenses) + [reply.data] && newExpense == EMPTY_EXPENSE
      ensures reply.Failure? ==> expenses == old(expenses) && newExpense == old(newExpense)
    {
      payload := Pick(newExpense, EXPENSE_FIELDS);
      if reply.Success? {
        expenses := expenses + [reply.data];
        newExpense := EMPTY_EXPENSE;
      }
    }

    /** `handleEdit`: the expense goes into the edit form with its time
        rewritten, `spentAt` being that time as ISO text to the minute. */
    method HandleEdit(expense: Record, spentAt: string)
      modifies this`editExpense
      ensures editExpense == Some(With(expense, "spent_at", Str(spentAt)))
    {
      editExpense := Some(expense["spent_at" := Str(spentAt)]);
    }

    /** `handleUpdateExpense`, reachable only from the edit form. */
    method HandleUpdateExpense(reply: Reply) returns (payload: Record)
      requires editExpense.Some?
      modifies this`expenses, this`editExpense
      ensures payload == ExpensePayload(old(editExpense).value)
      ensures reply.Success? ==>
        expenses == ReplaceById(old(expenses), Id(old(editExpense).value), reply.data) && editExpense == None
      ensures reply.Failure? ==> expenses == old(expenses) && editExpense == old(editExpense)
    {
      payload := Pick(editExpense.value, EXPENSE_FIELDS);
      if reply.Success? {
        expenses := ReplaceById(expenses, Id(editExpense.value), reply.data);
        editExpense := None;
      }
    }

    /** `handleDelete`. */
    method HandleDelete(id: Value, deleted: bool)
      modifies this`expenses
      ensures expenses == if deleted then RemoveById(old(expenses), id) else old(expenses)
    {
      if deleted {
        expenses := RemoveById(expenses, id);
      }
    }

    /** The search box. */
    method SetSearchTerm(term: string)
      modifies this`searchTerm
      ensures searchTerm == term
    {
      searchTerm := term;
    }
  }
}
