/**
 * The record store the server's write endpoints change (backend/main.py,
 * `create_expense`, `delete_expense`, `signup`): the `expenses` and `users`
 * tables, each a sequence of rows in insertion order.
 */
module Store {
  import opened Wrappers
  import opened Backend

  /** A `users` row; the password arrives already hashed. */
  datatype User = User(id: int, email: string, hashedPassword: string)

  /** The body of `POST /expenses` (`ExpenseCreate`): every column but `id` and `user_id`. */
  datatype ExpenseCreate = ExpenseCreate(amount: int, category: string, description: Option<string>,
                                         date: Date, kind: string)

  ghost predicate UniqueIds<T>(xs: seq<T>, id: T -> int) {
    forall i, j :: 0 <= i < j < |xs| ==> id(xs[i]) != id(xs[j])
  }

  function ExpenseId(e: Expense): int { e.id }
  function UserId(u: User): int { u.id }

  /**
   * The primary key the database hands out for a new row: one more than the
   * largest key in use, and 1 in an empty table.
   */
  function NextId<T>(xs: seq<T>, id: T -> int): (n: int)
    ensures n >= 1
    ensures forall i :: 0 <= i < |xs| ==> id(xs[i]) < n
  {
    if xs == [] then 1
    else
      var rest := NextId(xs[..|xs| - 1], id);
      var last := id(xs[|xs| - 1]);
      if last < rest then rest else last + 1
  }

  /** The row `filter(Expense.id == id, Expense.user_id == user).first()` finds, by position. */
  function FindOwned(s: seq<Expense>, id: int, user: int): (r: Option<nat>)
    ensures r.None? <==> forall e :: e in s ==> !(e.id == id && e.userId == user)
    ensures r.Some? ==> r.value < |s| && s[r.value].id == id && s[r.value].userId == user
    ensures r.Some? ==> forall j :: 0 <= j < r.value ==> !(s[j].id == id && s[j].userId == user)
  {
    if s == [] then None
    else if s[0].id == id && s[0].userId == user then Some(0)
    else
      match FindOwned(s[1..], id, user)
      case None =>
        assert s == [s[0]] + s[1..];
        None
      case Some(k) => Some(k + 1)
  }

  /** A table whose keys are distinct loses exactly the row with key `id` when that row is cut out. */
  lemma RemoveKeyed(s: seq<Expense>, i: nat)
    requires i < |s| && UniqueIds(s, ExpenseId)
    ensures UniqueIds(s[..i] + s[i + 1..], ExpenseId)
    ensures forall e :: e in s[..i] + s[i + 1..] <==> e in s && e.id != s[i].id
  {
    var t := s[..i] + s[i + 1..];
    assert forall k :: 0 <= k < |t| ==> t[k] == s[if k < i then k else k + 1];
    forall e | e in s && e.id != s[i].id ensures e in t {
      var k :| 0 <= k < |s| && s[k] == e;
      assert k != i;
      if k < i { assert t[k] == e; } else { assert t[k - 1] == e; }
    }
  }

  class Database {
    var expenses: seq<Expense>
    var users: seq<User>

    /** Keys are unique in both tables, and so are e-mail addresses (`unique=True`). */
    ghost predicate Valid()
      reads this
    {
      && UniqueIds(expenses, ExpenseId)
      && UniqueIds(users, UserId)
      && forall i, j :: 0 <= i < j < |users| ==> users[i].email != users[j].email
    }

    constructor ()
      ensures Valid() && expenses == [] && users == []
    {
      expenses := [];
      users := [];
    }

    /**
     * `POST /expenses`: stores the submitted record under a fresh key, stamped
     * with the current user as its owner, and returns it.
     */
    method CreateExpense(draft: ExpenseCreate, currentUser: int) returns (created: Expense)
      requires Valid()
      modifies this
      ensures Valid()
      ensures created == Expense(NextId(old(expenses), ExpenseId), draft.amount, draft.category,
                                 draft.description, draft.date, draft.kind, currentUser)
      ensures forall e :: e in old(expenses) ==> e.id != created.id
      ensures expenses == old(expenses) + [created]
      ensures users == old(users)
    {
      var id := NextId(expenses, ExpenseId);
      created := Expense(id, draft.amount, draft.category, draft.description, draft.date, draft.kind, currentUser);
      expenses := expenses + [created];
    }

    /**
     * `DELETE /expenses/{id}`: removes the row with that key only when it
     * belongs to the current user; otherwise answers 404 and changes nothing.
     */
    method DeleteExpense(id: int, currentUser: int) returns (r: Result<string, HttpError>)
      requires Valid()
      modifies this
      ensures Valid()
      ensures r.Err? <==> forall e :: e in old(expenses) ==> !(e.id == id && e.userId == currentUser)
      ensures r.Err? ==> r.error == HttpError(404, "Expense not found") && expenses == old(expenses)
      ensures r.Ok? ==> r.value == "Expense deleted"
      ensures r.Ok? ==> |expenses| == |old(expenses)| - 1
      ensures r.Ok? ==> forall e :: e in expenses <==> e in old(expenses) && e.id != id
      ensures forall e :: e in old(expenses) && e.userId != currentUser ==> e in expenses
      ensures users == old(users)
    {
      match FindOwned(expenses, id, currentUser)
      case None =>
        r := Err(HttpError(404, "Expense not found"));
      case Some(i) =>
        RemoveKeyed(expenses, i);
        expenses := expenses[..i] + expenses[i + 1..];
        r := Ok("Expense deleted");
    }

    /**
     * `POST /signup`: rejects an e-mail address that is already registered
     * with 400 and adds nobody; otherwise adds the user under a fresh key.
     */
    method Signup(email: string, hashedPassword: string) returns (r: Result<User, HttpError>)
      requires Valid()
      modifies this
      ensures Valid()
      ensures r.Err? <==> exists u :: u in old(users) && u.email == email
      ensures r.Err? ==> r.error == HttpError(400, "Email already registered") && users == old(users)
      ensures r.Ok? ==> r.value == User(NextId(old(users), UserId), email, hashedPassword)
      ensures r.Ok? ==> users == old(users) + [r.value]
      ensures r.Ok? ==> forall u :: u in old(users) ==> u.id != r.value.id
      ensures expenses == old(expenses)
    {
      if exists u :: u in users && u.email == email {
        return Err(HttpError(400, "Email already registered"));
      }
      var user := User(NextId(users, UserId), email, hashedPassword);
      users := users + [user];
      r := Ok(user);
    }
  }
}
