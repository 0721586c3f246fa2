# Laundry payment backend: a model of its request handlers

The backend tracks users (name, netid, balance), dorms, the washers and
dryers in them, and the recorded uses of those machines. Its HTTP
handlers in `src/app.py` are each one transition of a small store. A
handler checks that rows exist and that fields are present, in a fixed
order. The first failing check gets its own status code and changes
nothing. Otherwise the handler makes one change and answers with the row.

The model keeps that store in memory as class `App.Store`:
- `users`, `dorms` and `laundries` are maps from id to row.
- `sessions` is the laundry-time table, as a sequence in insertion order.
- Each table has a next-id counter.

Each endpoint is a method that returns `Responses.Response`, which is
either `Ok(code, payload)` or `Err(code, message)`. Message texts and status
codes are the handlers' own. A request-body field read with
`body.get(key, None)` becomes an `Option`. A missing key and an explicit
JSON null are both `None`, because the handlers test `is None`.

Money is held in integer cents. A washer costs 175 and a dryer 130.

The centre of the model is the reservation `App.Store.AddLaundryToUser`.
It checks, in this order:
1. the user exists (404);
2. the machine exists (404);
3. a duration is given (400);
4. the balance covers the cost (403).

Only after all four does it debit exactly the machine's cost and append
exactly one session. On every failure the users and the sessions stay as
they were. A successful reservation never leaves the balance below zero.
By contrast, a transaction (`CreateTransaction`) adds a signed amount with
no floor. The balance may go negative.

`App.Store.Valid()` is the store's invariant, and every handler keeps it:
- every row is stored under its own id;
- ids are handed out from 1 upwards and never reused;
- the i-th session has id i + 1;
- every machine's cost is the price of its type (`Pricing.CostFor`).

Module `Ledger` relates repeated transactions on one user to the sum of
their amounts. It proves that their order does not matter. Module
`Scenario` holds client methods. They run sessions of requests whose
answers follow from the contracts alone. One is the dorm → washer →
user with 2.00 → two reservations sequence. There, the first reservation
leaves 0.25 and the second is refused with 403. Another makes two
transactions through `CreateTransaction` and shows the user ends exactly
as `Ledger.AfterTransactions` of those amounts, in either order.

Three behaviours of the code are worth stating plainly:
- Balances can be negative. A user can be created with any balance, and
  a transaction can take the balance below zero.
- The lookup of a machine that has sessions returns one session: the
  first of that machine's sessions in insertion order (`.first()`).
- No handler deletes a machine.

## Model

| member | source | states |
|---|---|---|
| `Responses.SuccessResponse` | src/app.py:17-18 | a success carries the payload and the given status, 200 by default |
| `Responses.FailureResponse` | src/app.py:20-21 | a failure carries only the error message and the given status, 404 by default |
| `Pricing.CostFor` | src/app.py:184-187 | the cost is 175 cents exactly when the type is the string "washer", otherwise 130; it is always positive |
| `Pricing.CapitalisedWasherIsDryerPriced` | src/app.py:184 | `("washer" or "Washer")` is the one string "washer", so "Washer" and "WASHER" are dryer-priced |
| `App.Store.constructor` | src/app.py:14-15 | the store starts with empty tables and every id counter at 1, and satisfies the invariant |
| `App.Store.CreateUser` | src/app.py:35-55 | a missing name gives 400 before the netid is looked at; then a missing netid gives 400; both failures leave users unchanged. Otherwise exactly one user is added under a fresh id with the given balance or 0, and the answer is 201 with that user |
| `App.Store.GetUser` | src/app.py:57-65 | 200 with the stored user when the id exists, otherwise 404 "User not found" |
| `App.Store.DeleteUser` | src/app.py:67-78 | an unknown id gives 404 and removes nothing; otherwise exactly that user is removed and the answer is 200 with the removed row |
| `App.Store.CreateDorm` | src/app.py:87-101 | a missing name gives 400 and adds nothing; otherwise exactly one dorm is added under a fresh id, answered with 201 |
| `App.Store.GetDorm` | src/app.py:103-111 | 200 with the stored dorm when the id exists, otherwise 404 "Dorm not found" |
| `App.Store.DeleteDorm` | src/app.py:113-124 | an unknown id gives 404 and removes nothing; otherwise exactly that dorm is removed and the answer is 200 with the removed row |
| `App.Store.AddLaundryToUser` | src/app.py:126-153 | errors in order: unknown user 404, unknown machine 404, missing duration 400, balance below cost 403; every error leaves users and sessions unchanged; success happens exactly when all four checks pass, debits exactly the machine's cost from that user only, appends exactly one session with the given machine, user and duration, answers 201 with it, and leaves the balance at least 0 |
| `App.Store.GetLaundryForUser` | src/app.py:155-166 | an unknown machine gives 404; a machine with no sessions answers 200 with the machine; otherwise the answer is 200 with the first session in insertion order whose machine id matches |
| `App.Store.CreateALaundry` | src/app.py:169-196 | errors in order: unknown dorm 404, missing number 400, missing type 400, each leaving the machines unchanged; otherwise exactly one machine is added under a fresh id with cost 175 for type "washer" and 130 for any other type, answered with 201 |
| `App.Store.CreateTransaction` | src/app.py:198-212 | unknown user 404, then missing amount 400, both leaving users unchanged; otherwise that user's balance becomes old balance plus the amount, with no floor, no other user changes, and the answer is 201 with the updated user |
| `Ledger.Credited` | src/app.py:210 | a transaction changes the balance by exactly the amount and keeps the user's id, name and netid |
| `Ledger.AfterTransactionsAddsSum` | src/app.py:210 | a run of transactions on one user changes only the balance, by the sum of the amounts |
| `Ledger.TransactionOrderIrrelevant` | src/app.py:198-212 | two runs of transactions holding the same amounts leave the user identical, whatever their order |

## Left out

- Flask routing, `app.run`, the `hello_world` route, and JSON encoding and decoding of bodies. A malformed body raises in `json.loads`. That exception is not modelled. Neither is where it happens: before the dorm check in `create_a_laundry`, before the user lookup in `create_transaction` (so a malformed body for an unknown user raises instead of answering 404), and after the user check in `add_laundry_to_user`.
- JSON values of unexpected types are not modelled. The machine number and the duration are integers. The amount and the balance are integer cents. The names, netid and machine type are strings.
- `create_user` with an explicit `"balance": null` would store a null balance. Every `balance` here is an integer, and an absent or null balance is modelled as the default 0.
- The SQLAlchemy session, `commit`, `create_all` and the query machinery are not modelled. The `serialize()` methods are not modelled either, and `db.py` is not part of this model. A payload is the row itself.
- Cascades on delete depend on the relationships in `db.py`, which is not part of this model. `DeleteUser` and `DeleteDorm` remove only the row itself. Sessions of a deleted user and machines of a deleted dorm stay.
- SQLite's reuse of the highest row id after that row is deleted is not modelled. The model hands out ids from a counter that never goes back.
- Floating-point money (1.75, 1.30, `+=`, `-=`) is modelled as exact integer cents, so float rounding is not captured.
- The check-then-debit race between concurrent reservations is out of scope. The model is sequential.
- The list-all endpoints `get_users` and `get_dorms` only project a table to a list, and are not modelled.
