/** The state and event handlers of the root React component (App.jsx).
    Each `useState` slot is a field of class App; each handler is a method
    that takes the settled outcome of its network call as a parameter. */
module ExpenseApp {
  import opened Values

  /** An expense document as the server lists it: `_id` plus the stored fields. */
  datatype Expense = Expense(id: string, userId: Json, amount: Json, category: Json, description: Json, date: Json)

  /** The names of the three inputs of the add-expense form. */
  datatype FieldName = AmountField | CategoryField | DescriptionField

  /** `newExpense`: the text of the three add-expense inputs. */
  datatype ExpenseForm = ExpenseForm(amount: string, category: string, description: string)

  /** `editData`: the fields copied from the expense being edited. */
  datatype EditData = EditData(amount: Json, category: Json, description: Json)

  /** A budget as GET /budget returns it. */
  datatype Budget = Budget(amount: real, currentSpent: real, createdAt: string, updatedAt: string)

  /** The colour of the "Remaining" line: "red" or "inherit". */
  datatype Style = Warning | Inherit

  const EmptyForm := ExpenseForm("", "", "")
  const EmptyEditData := EditData(Str(""), Str(""), Str(""))

  // ---------------------------------------------------------------------------
  // The add-expense form
  // ---------------------------------------------------------------------------

  function FieldOf(f: ExpenseForm, name: FieldName): string {
    match name
    case AmountField => f.amount
    case CategoryField => f.category
    case DescriptionField => f.description
  }

  /** `{ ...newExpense, [name]: value }`. */
  function WithField(f: ExpenseForm, name: FieldName, value: string): (r: ExpenseForm)
    ensures FieldOf(r, name) == value
    ensures forall other :: other != name ==> FieldOf(r, other) == FieldOf(f, other)
  {
    match name
    case AmountField => f.(amount := value)
    case CategoryField => f.(category := value)
    case DescriptionField => f.(description := value)
  }

  /** Typing a field's current text again leaves the form as it was, and a
      second change to the same field overrides the first. */
  lemma WithFieldLaws(f: ExpenseForm, name: FieldName, v: string, w: string)
    ensures WithField(f, name, FieldOf(f, name)) == f
    ensures WithField(WithField(f, name, v), name, w) == WithField(f, name, w)
  {
  }

  // ---------------------------------------------------------------------------
  // The cached expense list
  // ---------------------------------------------------------------------------

  /** `expense._id === editExpenseId`, where `null` matches no id. */
  predicate IsEdited(e: Expense, editId: Option<string>) {
    editId.Some? && e.id == editId.value
  }

  function Ids(list: seq<Expense>): seq<string> {
    if list == [] then [] else [list[0].id] + Ids(list[1..])
  }

  /** The optimistic merge of the update handler:
      `prev.map(e => e._id === editId ? { ...e, amount } : e)`. */
  function MergeAmount(list: seq<Expense>, editId: Option<string>, amount: Json): (r: seq<Expense>)
    ensures |r| == |list|
    ensures forall i :: 0 <= i < |list| ==>
              r[i] == if IsEdited(list[i], editId) then list[i].(amount := amount) else list[i]
  {
    if list == [] then []
    else [if IsEdited(list[0], editId) then list[0].(amount := amount) else list[0]]
         + MergeAmount(list[1..], editId, amount)
  }

  /** The delete handler's `prev.filter(e => e._id !== id)`. */
  function RemoveById(list: seq<Expense>, id: string): (r: seq<Expense>)
    ensures |r| <= |list|
    ensures forall e :: e in r <==> e in list && e.id != id
  {
    if list == [] then []
    else if list[0].id == id then RemoveById(list[1..], id)
    else [list[0]] + RemoveById(list[1..], id)
  }

  /** The merge keeps the list's ids in their order. */
  lemma {:induction false} MergeAmountKeepsIds(list: seq<Expense>, editId: Option<string>, amount: Json)
    ensures Ids(MergeAmount(list, editId, amount)) == Ids(list)
  {
    if list != [] {
      MergeAmountKeepsIds(list[1..], editId, amount);
      assert MergeAmount(list, editId, amount)[1..] == MergeAmount(list[1..], editId, amount);
    }
  }

  /** With no expense selected (`editExpenseId` null), or none carrying the
      selected id, the merge changes nothing. */
  lemma MergeAmountWithoutMatch(list: seq<Expense>, editId: Option<string>, amount: Json)
    requires forall i :: 0 <= i < |list| ==> !IsEdited(list[i], editId)
    ensures MergeAmount(list, editId, amount) == list
  {
  }

  /** Merging the same amount twice is merging it once. */
  lemma MergeAmountIdempotent(list: seq<Expense>, editId: Option<string>, amount: Json)
    ensures MergeAmount(MergeAmount(list, editId, amount), editId, amount) == MergeAmount(list, editId, amount)
  {
  }

  /** The filter keeps the order of what it keeps: it works piecewise over a
      concatenation. */
  lemma {:induction false} RemoveByIdConcat(a: seq<Expense>, b: seq<Expense>, id: string)
    ensures RemoveById(a + b, id) == RemoveById(a, id) + RemoveById(b, id)
  {
    if a == [] {
      assert a + b == b;
    } else {
      assert (a + b)[0] == a[0];
      assert (a + b)[1..] == a[1..] + b;
      RemoveByIdConcat(a[1..], b, id);
    }
  }

  function CountId(list: seq<Expense>, id: string): nat {
    if list == [] then 0 else (if list[0].id == id then 1 else 0) + CountId(list[1..], id)
  }

  /** The filter drops exactly the entries carrying the id. */
  lemma {:induction false} RemoveByIdLength(list: seq<Expense>, id: string)
    ensures |RemoveById(list, id)| == |list| - CountId(list, id)
  {
    if list != [] {
      RemoveByIdLength(list[1..], id);
    }
  }

  /** Deleting an id the list does not hold leaves the list as it is. */
  lemma {:induction false} RemoveAbsentId(list: seq<Expense>, id: string)
    requires CountId(list, id) == 0
    ensures RemoveById(list, id) == list
  {
    if list != [] {
      RemoveAbsentId(list[1..], id);
    }
  }

  /** Deleting an expense after updating it leaves what deleting it alone leaves. */
  lemma {:induction false} RemoveAfterMerge(list: seq<Expense>, id: string, amount: Json)
    ensures RemoveById(MergeAmount(list, Some(id), amount), id) == RemoveById(list, id)
  {
    if list != [] {
      var merged := MergeAmount(list, Some(id), amount);
      assert merged[1..] == MergeAmount(list[1..], Some(id), amount);
      RemoveAfterMerge(list[1..], id, amount);
    }
  }

  // ---------------------------------------------------------------------------
  // The budget panel
  // ---------------------------------------------------------------------------

  /** `currentBudget.amount - currentBudget.current_spent`. */
  function Remaining(b: Budget): (r: real)
    ensures r + b.currentSpent == b.amount
    ensures r < 0.0 <==> b.currentSpent > b.amount
  {
    b.amount - b.currentSpent
  }

  /** The colour of the Remaining line. */
  function RemainingStyle(b: Budget): (s: Style)
    ensures s == Warning <==> b.currentSpent > b.amount
  {
    if Remaining(b) < 0.0 then Warning else Inherit
  }

  // ---------------------------------------------------------------------------
  // The component
  // ---------------------------------------------------------------------------

  /** All state slots of the component, in one value. */
  datatype State = State(
    email: string,
    password: string,
    token: string,
    expenses: seq<Expense>,
    newExpense: ExpenseForm,
    editExpenseId: Option<string>,
    editData: EditData,
    budgetAmount: string,
    currentBudget: Option<Budget>,
    budgetMessage: string,
    expenseMessage: string,
    budgetError: string,
    expenseError: string,
    error: string,
    refreshTrigger: int)

  const InitialState := State("", "", "", [], EmptyForm, None, EmptyEditData, "", None, "", "", "", "", "", 0)

  class App {
    var email: string
    var password: string
    var token: string
    var expenses: seq<Expense>
    var newExpense: ExpenseForm
    var editExpenseId: Option<string>
    var editData: EditData
    var budgetAmount: string
    var currentBudget: Option<Budget>
    var budgetMessage: string
    var expenseMessage: string
    var budgetError: string
    var expenseError: string
    var error: string
    var refreshTrigger: int

    function Snapshot(): State
      reads this
    {
      State(email, password, token, expenses, newExpense, editExpenseId, editData, budgetAmount,
            currentBudget, budgetMessage, expenseMessage, budgetError, expenseError, error, refreshTrigger)
    }

    /** The login form is shown while there is no token. */
    predicate LoggedIn()
      reads this
    {
      token != ""
    }

    /** The initial values of the `useState` calls. */
    constructor ()
      ensures Snapshot() == InitialState && !LoggedIn()
    {
      email, password, token := "", "", "";
      expenses := [];
      newExpense := EmptyForm;
      editExpenseId := None;
      editData := EmptyEditData;
      budgetAmount := "";
      currentBudget := None;
      budgetMessage, expenseMessage, budgetError, expenseError, error := "", "", "", "", "";
      refreshTrigger := 0;
    }

    /** The `onChange` of the email input. */
    method SetEmail(value: string)
      modifies this
      ensures Snapshot() == old(Snapshot()).(email := value)
    {
      email := value;
    }

    /** The `onChange` of the password input. */
    method SetPassword(value: string)
      modifies this
      ensures Snapshot() == old(Snapshot()).(password := value)
    {
      password := value;
    }

    /** The `onChange` of the budget input. */
    method SetBudgetAmount(value: string)
      modifies this
      ensures Snapshot() == old(Snapshot()).(budgetAmount := value)
    {
      budgetAmount := value;
    }

    /** handleLogin; `response` is the token of the login call's reply. */
    method HandleLogin(response: Outcome<string>)
      modifies this
      ensures response.Success? ==> Snapshot() == old(Snapshot()).(error := "", token := response.value)
      ensures response.Failure? ==>
                Snapshot() == old(Snapshot()).(error := "Login failed: Invalid credentials or server error.")
    {
      error := "";
      match response
      case Success(userToken) =>
        token := userToken;
      case Failure =>
        error := "Login failed: Invalid credentials or server error.";
    }

    /** handleFetchExpenses: the fetched list replaces the cached one. */
    method HandleFetchExpenses(response: Outcome<seq<Expense>>)
      modifies this
      ensures response.Success? ==> Snapshot() == old(Snapshot()).(expenses := response.value)
      ensures response.Failure? ==>
                Snapshot() == old(Snapshot()).(error := "Add an expense or please check your token.")
    {
      match response
      case Success(list) =>
        expenses := list;
      case Failure =>
        error := "Add an expense or please check your token.";
    }

    /** handleInputChange for the input named `name`. */
    method HandleInputChange(name: FieldName, value: string)
      modifies this
      ensures Snapshot() == old(Snapshot()).(newExpense := WithField(old(newExpense), name, value))
      ensures FieldOf(newExpense, name) == value
      ensures forall other :: other != name ==> FieldOf(newExpense, other) == FieldOf(old(newExpense), other)
    {
      newExpense := WithField(newExpense, name, value);
    }

    /** handleAddExpense; the re-fetches it starts are HandleFetchExpenses
        and HandleFetchBudget. */
    method HandleAddExpense(response: Outcome<()>)
      modifies this
      ensures response.Success? ==>
                Snapshot() == old(Snapshot()).(expenseError := "", expenseMessage := "Expense added successfully!",
                                               newExpense := EmptyForm, refreshTrigger := old(refreshTrigger) + 1)
      ensures response.Failure? ==> Snapshot() == old(Snapshot()).(expenseError := "Error adding expense.")
    {
      match response
      case Success(_) =>
        expenseError := "";
        expenseMessage := "Expense added successfully!";
        newExpense := EmptyForm;
        refreshTrigger := refreshTrigger + 1;
      case Failure =>
        expenseError := "Error adding expense.";
    }

    /** handleEditClick(expense). */
    method HandleEditClick(e: Expense)
      modifies this
      ensures Snapshot() == old(Snapshot()).(editExpenseId := Some(e.id),
                                             editData := EditData(e.amount, e.category, e.description))
    {
      editExpenseId := Some(e.id);
      editData := EditData(e.amount, e.category, e.description);
    }

    /** handleUpdateExpense; `toNumber` is JavaScript's Number conversion. */
    method HandleUpdateExpense(response: Outcome<()>, toNumber: Json -> Json)
      modifies this
      ensures response.Success? ==>
                Snapshot() == old(Snapshot()).(
                  expenses := MergeAmount(old(expenses), old(editExpenseId), toNumber(old(editData).amount)),
                  editExpenseId := None,
                  refreshTrigger := old(refreshTrigger) + 1,
                  expenseError := "")
      ensures response.Failure? ==> Snapshot() == old(Snapshot()).(expenseError := "Error updating expense.")
    {
      var amount := toNumber(editData.amount);
      match response
      case Success(_) =>
        expenses := MergeAmount(expenses, editExpenseId, amount);
        editExpenseId := None;
        refreshTrigger := refreshTrigger + 1;
        expenseError := "";
      case Failure =>
        expenseError := "Error updating expense.";
    }

    /** handleDeleteExpense(id). */
    method HandleDeleteExpense(id: string, response: Outcome<()>)
      modifies this
      ensures response.Success? ==>
                Snapshot() == old(Snapshot()).(
                  expenses := RemoveById(old(expenses), id),
                  expenseError := "",
                  expenseMessage := "Expense deleted successfully!",
                  refreshTrigger := old(refreshTrigger) + 1)
      ensures response.Failure? ==>
                Snapshot() == old(Snapshot()).(expenseError := "Error deleting expense. Please try again.")
    {
      match response
      case Success(_) =>
        expenses := RemoveById(expenses, id);
        expenseError := "";
        expenseMessage := "Expense deleted successfully!";
        refreshTrigger := refreshTrigger + 1;
      case Failure =>
        expenseError := "Error deleting expense. Please try again.";
    }

    /** handleFetchBudget. */
    method HandleFetchBudget(response: Outcome<Budget>)
      modifies this
      ensures response.Success? ==> Snapshot() == old(Snapshot()).(currentBudget := Some(response.value))
      ensures response.Failure? ==> Snapshot() == old(Snapshot()).(budgetError := "Set a budget.")
    {
      match response
      case Success(b) =>
        currentBudget := Some(b);
      case Failure =>
        budgetError := "Set a budget.";
    }

    /** handleUpsertBudget; the re-fetch it starts is HandleFetchBudget. */
    method HandleUpsertBudget(response: Outcome<()>)
      modifies this
      ensures response.Success? ==>
                Snapshot() == old(Snapshot()).(budgetError := "", budgetMessage := "Budget updated successfully!",
                                               budgetAmount := "")
      ensures response.Failure? ==>
                Snapshot() == old(Snapshot()).(budgetError := "Error updating/creating budget. Please try again.")
    {
      match response
      case Success(_) =>
        budgetError := "";
        budgetMessage := "Budget updated successfully!";
        budgetAmount := "";
      case Failure =>
        budgetError := "Error updating/creating budget. Please try again.";
    }

    /** The Remaining line of the budget panel, which is shown only in the
        logged-in view and only once a budget is loaded: the figure and its
        colour. */
    method RemainingLine() returns (line: Option<(real, Style)>)
      ensures !LoggedIn() || currentBudget.None? ==> line.None?
      ensures LoggedIn() && currentBudget.Some? ==>
                line.Some? && line.value.0 + currentBudget.value.currentSpent == currentBudget.value.amount
                && (line.value.1 == Warning <==> line.value.0 < 0.0)
    {
      if !LoggedIn() {
        return None;
      }
      match currentBudget
      case None =>
        line := None;
      case Some(b) =>
        line := Some((Remaining(b), RemainingStyle(b)));
    }
  }

  /** Edit, then a call of handleUpdateExpense that succeeds: the amount of
      that one entry becomes Number(amount) and nothing else in the list
      changes. */
  method EditThenUpdate(app: App, i: nat, toNumber: Json -> Json)
    requires i < |app.expenses|
    requires forall j :: 0 <= j < |app.expenses| && j != i ==> app.expenses[j].id != app.expenses[i].id
    modifies app
    ensures |app.expenses| == |old(app.expenses)|
    ensures app.expenses[i] == old(app.expenses[i]).(amount := toNumber(old(app.expenses[i]).amount))
    ensures forall j :: 0 <= j < |app.expenses| && j != i ==> app.expenses[j] == old(app.expenses[j])
    ensures app.editExpenseId.None? && app.refreshTrigger == old(app.refreshTrigger) + 1
  {
    app.HandleEditClick(app.expenses[i]);
    app.HandleUpdateExpense(Success(()), toNumber);
  }
}
