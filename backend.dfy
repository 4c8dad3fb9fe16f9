/** The Flask request handlers of app.py, run against an in-memory store that
    stands in for the MongoDB collections `users` and `expenses`. Each route is
    a method that returns the HTTP status and JSON body the handler sends. */
module Backend {
  import opened Values

  // ---------------------------------------------------------------------------
  // Expense identifiers (bson ObjectId)
  // ---------------------------------------------------------------------------

  predicate IsHexDigit(c: char) {
    '0' <= c <= '9' || 'a' <= c <= 'f' || 'A' <= c <= 'F'
  }

  /** ObjectId.is_valid on a string: exactly 24 hexadecimal digits. */
  predicate IsValidObjectId(s: string) {
    |s| == 24 && forall i :: 0 <= i < |s| ==> IsHexDigit(s[i])
  }

  /** The spelling str(ObjectId(...)) produces: valid and lower case. */
  predicate IsCanonicalId(s: string) {
    IsValidObjectId(s) && forall i :: 0 <= i < |s| ==> !('A' <= s[i] <= 'F')
  }

  function LowerHex(c: char): char {
    if 'A' <= c <= 'F' then (c as int + 32) as char else c
  }

  /** ObjectId(s) as a key: the hex digits are read case-insensitively, so
      every spelling of one identifier names the same stored document. */
  function CanonicalId(s: string): (r: string)
    requires IsValidObjectId(s)
    ensures IsCanonicalId(r)
    ensures |r| == |s| && forall i :: 0 <= i < |s| ==> LowerHex(r[i]) == LowerHex(s[i])
  {
    seq(|s|, i requires 0 <= i < |s| => LowerHex(s[i]))
  }

  /** A canonical identifier names itself. */
  lemma CanonicalIdFixesCanonical(s: string)
    requires IsCanonicalId(s)
    ensures CanonicalId(s) == s
  {
  }

  /** Two spellings of a valid id resolve to the same key exactly when they
      agree up to the case of their letters. */
  lemma CanonicalIdIgnoresCase(s: string, t: string)
    requires IsValidObjectId(s) && IsValidObjectId(t)
    ensures CanonicalId(s) == CanonicalId(t) <==>
            forall i :: 0 <= i < 24 ==> LowerHex(s[i]) == LowerHex(t[i])
  {
  }

  // ---------------------------------------------------------------------------
  // Documents, requests and responses
  // ---------------------------------------------------------------------------

  /** A document of the `users` collection; `createdAt` is datetime.utcnow(). */
  datatype User = User(email: Json, passwordHash: string, createdAt: int)

  /** A document of the `expenses` collection (without its `_id`). */
  datatype Expense = Expense(userId: string, amount: Json, category: Json, description: Json, date: int)

  /** An expense as sent back to the client, with its `_id` as a string. */
  datatype Doc = Doc(id: string, expense: Expense)

  /** request.get_json() for a JSON object body; None stands for a `null` body. */
  type Payload = Option<map<string, Json>>

  datatype Body =
    | Message(text: string)
    | LoggedIn(text: string, token: string)
    | ExpenseList(docs: seq<Doc>)
    | OneExpense(doc: Doc)
    | Updated(text: string, updatedAmount: Json)

  datatype Response = Response(status: int, body: Body)

  /** What Flask answers when a handler without a try block raises. */
  const InternalError := Response(500, Message("Internal Server Error"))

  /** data[key] / data.get(key): the value at `key`, if the body has one. */
  function Get(data: Payload, key: string): Option<Json> {
    if data.Some? && key in data.value then Some(data.value[key]) else None
  }

  /** `not data` on the decoded body: no body, or an empty object. */
  predicate IsEmpty(data: Payload) {
    data.None? || data.value == map[]
  }

  const RequiredFields: seq<string> := ["amount", "category", "description"]

  /** all(k in data for k in ['amount', 'category', 'description']). */
  predicate HasRequiredFields(data: map<string, Json>) {
    forall k :: k in RequiredFields ==> k in data
  }

  /** The new document add_expense inserts for `identity`. */
  function NewExpense(identity: string, data: map<string, Json>, now: int): Expense
    requires HasRequiredFields(data)
  {
    Expense(identity, data["amount"], data["category"], data["description"], now)
  }

  // ---------------------------------------------------------------------------
  // The amount guard of update_expense
  // ---------------------------------------------------------------------------

  /** Python's isinstance(v, (int, float)): bool is a subclass of int. */
  predicate IsPyNumber(j: Json) {
    j.Int? || j.Float? || j.Bool?
  }

  function PyNumberValue(j: Json): real
    requires IsPyNumber(j)
  {
    match j
    case Int(i) => i as real
    case Float(f) => f
    case Bool(b) => if b then 1.0 else 0.0
  }

  /** The guard at app.py:153 as written, negated: `new_amount` is not None,
      passes isinstance(new_amount, (int, float)) and is not <= 0. */
  predicate AmountAcceptedAsWritten(amount: Option<Json>) {
    amount.Some? && IsPyNumber(amount.value) && PyNumberValue(amount.value) > 0.0
  }

  /** The guard as its message states it: the amount is a positive JSON number. */
  predicate IsPositiveAmount(amount: Option<Json>) {
    amount.Some? &&
    match amount.value
    case Int(i) => i > 0
    case Float(f) => f > 0.0
    case _ => false
  }

  /** The guard as written lets exactly one non-number through: JSON `true`. */
  lemma AmountGuardAcceptsTrue(amount: Option<Json>)
    ensures AmountAcceptedAsWritten(amount) <==> IsPositiveAmount(amount) || amount == Some(Bool(true))
  {
  }

  /** The corrected guard accepts numbers only, and every positive one. */
  lemma PositiveAmountIsNumber(amount: Option<Json>)
    ensures IsPositiveAmount(amount) ==> (amount.value.Int? || amount.value.Float?) && PyNumberValue(amount.value) > 0.0
    ensures amount.Some? && amount.value.Int? && amount.value.i > 0 ==> IsPositiveAmount(amount)
    ensures amount.Some? && amount.value.Float? && amount.value.f > 0.0 ==> IsPositiveAmount(amount)
    ensures !IsPositiveAmount(Some(Bool(true)))
  {
  }

  // ---------------------------------------------------------------------------
  // Ownership
  // ---------------------------------------------------------------------------

  /** The `_id`s that find({"user_id": u}) matches. */
  ghost function OwnedIds(m: map<string, Expense>, u: string): set<string> {
    set k | k in m && m[k].userId == u
  }

  /** find_one({"_id": k, "user_id": u}) finds a document. */
  predicate Owns(m: map<string, Expense>, u: string, k: string) {
    k in m && m[k].userId == u
  }

  function IdsOf(docs: seq<Doc>): set<string> {
    set i | 0 <= i < |docs| :: docs[i].id
  }

  predicate DistinctIds(docs: seq<Doc>) {
    forall i, j :: 0 <= i < j < |docs| ==> docs[i].id != docs[j].id
  }

  /** `docs` is a listing of u's expenses in m: each one once, in some order. */
  ghost predicate ListsOwned(docs: seq<Doc>, m: map<string, Expense>, u: string) {
    (forall i :: 0 <= i < |docs| ==> Owns(m, u, docs[i].id) && docs[i].expense == m[docs[i].id]) &&
    IdsOf(docs) == OwnedIds(m, u) &&
    DistinctIds(docs)
  }

  lemma {:induction false} DistinctIdsCount(docs: seq<Doc>)
    requires DistinctIds(docs)
    ensures |IdsOf(docs)| == |docs|
  {
    if docs != [] {
      var rest := docs[..|docs| - 1];
      var last := docs[|docs| - 1];
      assert DistinctIds(rest);
      DistinctIdsCount(rest);
      assert IdsOf(docs) == IdsOf(rest) + {last.id};
      assert last.id !in IdsOf(rest);
    }
  }

  /** A listing holds exactly as many entries as the user owns expenses. */
  lemma ListingHasOwnedCount(docs: seq<Doc>, m: map<string, Expense>, u: string)
    requires ListsOwned(docs, m, u)
    ensures |docs| == |OwnedIds(m, u)|
  {
    DistinctIdsCount(docs);
  }

  /** Inserting a document owned by u adds its id to u's expenses and leaves
      every other user's expenses as they were. */
  lemma OwnedAfterInsert(m: map<string, Expense>, k: string, e: Expense, u: string)
    requires k !in m
    ensures OwnedIds(m[k := e], u) == if e.userId == u then OwnedIds(m, u) + {k} else OwnedIds(m, u)
  {
  }

  /** Deleting an owned document removes just that id from its owner's
      expenses and leaves every other user's expenses as they were. */
  lemma OwnedAfterDelete(m: map<string, Expense>, k: string, u: string)
    ensures OwnedIds(m - {k}, u) == OwnedIds(m, u) - {k}
  {
  }

  /** Changing an amount never moves an expense between users. */
  lemma OwnedAfterAmountChange(m: map<string, Expense>, k: string, a: Json, u: string)
    requires k in m
    ensures OwnedIds(m[k := m[k].(amount := a)], u) == OwnedIds(m, u)
  {
  }

  // ---------------------------------------------------------------------------
  // The store and its routes
  // ---------------------------------------------------------------------------

  class Store {
    var users: map<Json, User>
    var expenses: map<string, Expense>

    /** Users are found by their own email; expense keys are str(ObjectId). */
    ghost predicate Valid()
      reads this
    {
      (forall e :: e in users ==> users[e].email == e) &&
      (forall k :: k in expenses ==> IsCanonicalId(k))
    }

    constructor ()
      ensures Valid() && users == map[] && expenses == map[]
    {
      users := map[];
      expenses := map[];
    }

    /** POST /auth/register (app.py:28-47). `hashed` is what bcrypt returns
        for the password, `now` the clock. */
    method Register(data: Payload, hashed: string, now: int) returns (r: Response)
      requires Valid()
      modifies this`users
      ensures Valid()
      ensures Get(data, "email").None? ==> r == InternalError && users == old(users)
      ensures Get(data, "email").Some? && Get(data, "email").value in old(users) ==>
                r == Response(400, Message("User already exists.")) && users == old(users)
      ensures Get(data, "email").Some? && Get(data, "email").value !in old(users) && Get(data, "password").None? ==>
                r == InternalError && users == old(users)
      ensures Get(data, "email").Some? && Get(data, "email").value !in old(users) && Get(data, "password").Some? ==>
                var email := Get(data, "email").value;
                && r == Response(201, Message("User registered successfully!"))
                && users == old(users)[email := User(email, hashed, now)]
                && |users| == |old(users)| + 1
    {
      var email := Get(data, "email");
      if email.None? {
        return InternalError;
      }
      if email.value in users {
        return Response(400, Message("User already exists."));
      }
      if Get(data, "password").None? {
        return InternalError;
      }
      assert (users[email.value := User(email.value, hashed, now)]).Keys == users.Keys + {email.value};
      users := users[email.value := User(email.value, hashed, now)];
      r := Response(201, Message("User registered successfully!"));
    }

    /** POST /auth/login (app.py:51-68). `checkPw` stands for
        bcrypt.check_password_hash and `mint` for create_access_token. */
    method Login(data: Payload, checkPw: (string, Json) -> bool, mint: Json -> string) returns (r: Response)
      requires Valid()
      ensures Get(data, "email").None? ==> r == InternalError
      ensures Get(data, "email").Some? && Get(data, "email").value !in users ==>
                r == Response(404, Message("User not found."))
      ensures Get(data, "email").Some? && Get(data, "email").value in users && Get(data, "password").None? ==>
                r == InternalError
      ensures Get(data, "email").Some? && Get(data, "email").value in users && Get(data, "password").Some? ==>
                var email := Get(data, "email").value;
                if checkPw(users[email].passwordHash, Get(data, "password").value)
                then r == Response(200, LoggedIn("Login successful! Token valid for 1 hour.", mint(email)))
                else r == Response(400, Message("Incorrect password."))
    {
      var email := Get(data, "email");
      if email.None? {
        return InternalError;
      }
      if email.value !in users {
        return Response(404, Message("User not found."));
      }
      var user := users[email.value];
      var password := Get(data, "password");
      if password.None? {
        return InternalError;
      }
      if checkPw(user.passwordHash, password.value) {
        r := Response(200, LoggedIn("Login successful! Token valid for 1 hour.", mint(user.email)));
      } else {
        r := Response(400, Message("Incorrect password."));
      }
    }

    /** POST /expenses (app.py:73-93) for the caller `identity`.
        `freshId` is the `_id` MongoDB assigns to the inserted document. */
    method AddExpense(identity: string, data: Payload, freshId: string, now: int) returns (r: Response)
      requires Valid()
      requires IsCanonicalId(freshId) && freshId !in expenses
      modifies this`expenses
      ensures Valid()
      ensures IsEmpty(data) ==>
                r == Response(400, Message("No data provided")) && expenses == old(expenses)
      ensures !IsEmpty(data) && !HasRequiredFields(data.value) ==>
                r == Response(400, Message("Missing required fields.")) && expenses == old(expenses)
      ensures !IsEmpty(data) && HasRequiredFields(data.value) ==>
                && r == Response(200, Message("Expense added successfully."))
                && expenses == old(expenses)[freshId := NewExpense(identity, data.value, now)]
                && OwnedIds(expenses, identity) == OwnedIds(old(expenses), identity) + {freshId}
    {
      if IsEmpty(data) {
        return Response(400, Message("No data provided"));
      }
      if !HasRequiredFields(data.value) {
        return Response(400, Message("Missing required fields."));
      }
      OwnedAfterInsert(expenses, freshId, NewExpense(identity, data.value, now), identity);
      expenses := expenses[freshId := NewExpense(identity, data.value, now)];
      r := Response(200, Message("Expense added successfully."));
    }

    /** GET /expenses (app.py:101-111): the caller's expenses, each once. */
    method GetExpenses(identity: string) returns (r: Response)
      requires Valid()
      ensures r.status == 404 <==> OwnedIds(expenses, identity) == {}
      ensures r.status == 404 ==> r.body == Message("No expenses found for this user.")
      ensures r.status != 404 ==> r.status == 200 && r.body.ExpenseList? && ListsOwned(r.body.docs, expenses, identity)
    {
      var pending := expenses.Keys;
      var docs: seq<Doc> := [];
      while pending != {}
        invariant pending <= expenses.Keys
        invariant forall i :: 0 <= i < |docs| ==>
                    Owns(expenses, identity, docs[i].id) && docs[i].expense == expenses[docs[i].id] && docs[i].id !in pending
        invariant IdsOf(docs) == OwnedIds(expenses, identity) - pending
        invariant DistinctIds(docs)
        decreases pending
      {
        var k :| k in pending;
        ghost var before := docs;
        if expenses[k].userId == identity {
          docs := docs + [Doc(k, expenses[k])];
          assert IdsOf(docs) == IdsOf(before) + {k} by {
            assert forall i :: 0 <= i < |before| ==> docs[i] == before[i];
            assert docs[|before|].id == k;
          }
        }
        pending := pending - {k};
      }
      if docs == [] {
        assert OwnedIds(expenses, identity) == IdsOf(docs);
        r := Response(404, Message("No expenses found for this user."));
      } else {
        assert docs[0].id in OwnedIds(expenses, identity);
        r := Response(200, ExpenseList(docs));
      }
    }

    /** GET /expenses/<id> (app.py:119-130). */
    method GetExpense(identity: string, id: string) returns (r: Response)
      requires Valid()
      ensures !IsValidObjectId(id) ==> r == Response(400, Message("Invalid expense ID"))
      ensures IsValidObjectId(id) && !Owns(expenses, identity, CanonicalId(id)) ==>
                r == Response(404, Message("Access denied or expense not found."))
      ensures IsValidObjectId(id) && Owns(expenses, identity, CanonicalId(id)) ==>
                r == Response(200, OneExpense(Doc(CanonicalId(id), expenses[CanonicalId(id)])))
    {
      if !IsValidObjectId(id) {
        return Response(400, Message("Invalid expense ID"));
      }
      var k := CanonicalId(id);
      if !Owns(expenses, identity, k) {
        return Response(404, Message("Access denied or expense not found."));
      }
      r := Response(200, OneExpense(Doc(k, expenses[k])));
    }

    /** PUT /expenses/<id> (app.py:138-160): with the amount guard corrected
        to reject booleans, see AmountGuardAcceptsTrue. */
    method UpdateExpense(identity: string, id: string, data: Payload) returns (r: Response)
      requires Valid()
      modifies this`expenses
      ensures Valid()
      ensures !IsValidObjectId(id) ==>
                r == Response(400, Message("Invalid expense ID")) && expenses == old(expenses)
      ensures IsValidObjectId(id) && !Owns(old(expenses), identity, CanonicalId(id)) ==>
                r == Response(404, Message("Access denied or expense not found.")) && expenses == old(expenses)
      ensures IsValidObjectId(id) && Owns(old(expenses), identity, CanonicalId(id)) && IsEmpty(data) ==>
                r == Response(400, Message("No data provided.")) && expenses == old(expenses)
      ensures IsValidObjectId(id) && Owns(old(expenses), identity, CanonicalId(id)) && !IsEmpty(data)
              && !IsPositiveAmount(Get(data, "amount")) ==>
                r == Response(400, Message("Invalid input: amount must be a positive number.")) && expenses == old(expenses)
      ensures IsValidObjectId(id) && Owns(old(expenses), identity, CanonicalId(id)) && !IsEmpty(data)
              && IsPositiveAmount(Get(data, "amount")) ==>
                var k, amount := CanonicalId(id), Get(data, "amount").value;
                && r == Response(200, Updated("Expense updated!", amount))
                && expenses == old(expenses)[k := old(expenses)[k].(amount := amount)]
                && OwnedIds(expenses, identity) == OwnedIds(old(expenses), identity)
    {
      if !IsValidObjectId(id) {
        return Response(400, Message("Invalid expense ID"));
      }
      var k := CanonicalId(id);
      if !Owns(expenses, identity, k) {
        return Response(404, Message("Access denied or expense not found."));
      }
      if IsEmpty(data) {
        return Response(400, Message("No data provided."));
      }
      var amount := Get(data, "amount");
      if !IsPositiveAmount(amount) {
        return Response(400, Message("Invalid input: amount must be a positive number."));
      }
      OwnedAfterAmountChange(expenses, k, amount.value, identity);
      expenses := expenses[k := expenses[k].(amount := amount.value)];
      r := Response(200, Updated("Expense updated!", amount.value));
    }

    /** DELETE /expenses/<id> (app.py:168-182). */
    method DeleteExpense(identity: string, id: string) returns (r: Response)
      requires Valid()
      modifies this`expenses
      ensures Valid()
      ensures !IsValidObjectId(id) ==>
                r == Response(400, Message("Invalid expense ID")) && expenses == old(expenses)
      ensures IsValidObjectId(id) && !Owns(old(expenses), identity, CanonicalId(id)) ==>
                r == Response(404, Message("Access denied or expense not found.")) && expenses == old(expenses)
      ensures IsValidObjectId(id) && Owns(old(expenses), identity, CanonicalId(id)) ==>
                && r == Response(200, Message("Expense deleted."))
                && expenses == old(expenses) - {CanonicalId(id)}
                && OwnedIds(expenses, identity) == OwnedIds(old(expenses), identity) - {CanonicalId(id)}
    {
      if !IsValidObjectId(id) {
        return Response(400, Message("Invalid expense ID"));
      }
      var k := CanonicalId(id);
      if !Owns(expenses, identity, k) {
        return Response(404, Message("Access denied or expense not found."));
      }
      OwnedAfterDelete(expenses, k, identity);
      expenses := expenses - {k};
      r := Response(200, Message("Expense deleted."));
    }

    /** DELETE /users/<email> (app.py:195-204). The user's expenses stay. */
    method DeleteUser(email: string) returns (r: Response)
      requires Valid()
      modifies this`users
      ensures Valid()
      ensures Str(email) !in old(users) ==>
                r == Response(404, Message("Email " + email + " not found.")) && users == old(users)
      ensures Str(email) in old(users) ==>
                r == Response(200, Message("Deleted " + email + " from users.")) && users == old(users) - {Str(email)}
    {
      if Str(email) !in users {
        return Response(404, Message("Email " + email + " not found."));
      }
      users := users - {Str(email)};
      r := Response(200, Message("Deleted " + email + " from users."));
    }
  }

  /** A registered user can log in with a password the hash accepts, and the
      token names the email that was registered. */
  method RegisterThenLogin(s: Store, email: string, password: Json, hashed: string, now: int,
                           checkPw: (string, Json) -> bool, mint: Json -> string)
    returns (registered: Response, loggedIn: Response)
    requires s.Valid() && Str(email) !in s.users
    requires checkPw(hashed, password)
    modifies s
    ensures registered.status == 201
    ensures loggedIn == Response(200, LoggedIn("Login successful! Token valid for 1 hour.", mint(Str(email))))
  {
    var body := Some(map["email" := Str(email), "password" := password]);
    registered := s.Register(body, hashed, now);
    loggedIn := s.Login(body, checkPw, mint);
  }
}
