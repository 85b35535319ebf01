# Mobile financial service ledger, modelled in Dafny

This project models the ledger behind the request handlers of a small
mobile-financial-service server (`index.js`). It has two stores. The users
collection is a map from email to an account record holding role, status
and balance. The transactions collection is an append-only log of records
holding from, to, amount, type and fee. The model covers:

- the three money-moving endpoints: `send-money`, `cash-out` and `cash-in`;
- the account lifecycle: `register`, `users/approve` and `users/block`;
- the role gate `verifyRole` in front of every protected endpoint;
- the read-only endpoints: `balance`, `agent-balance`,
  `transaction-history` and `agent-transactions`.

Files and modules:

- `fees.dfy` (`Fees`): the send fee and the cash-out fee.
- `store.dfy` (`Store`): the records, the `$inc` update (`Adjust`), the role
  gate, the PIN test, register/approve/block as functions, and the sum of
  all balances (`Total`) with its lemmas.
- `transfers.dfy` (`Transfers`): the guard chain of each transfer as a
  function, the balances each one leaves, and the lemmas about them:
  effect, conservation, status blindness, and concrete scenarios.
- `history.dfy` (`Queries`): the history query and its proof against the
  filter / sort newest-first / limit 10 reading.
- `ledger.dfy` (`Endpoints`): class `Ledger`, which holds the two
  collections as fields and runs each endpoint as one method. Each method
  is specified by the functions above.

Modelling choices:

- Money is `real`. The cash-out fee is `amount * 0.015`, which Dafny reads as
  the exact rational 3/200 of the amount. Balances therefore become
  fractional, as they do in the server.
- The caller's email is a parameter. It stands for the identity decoded
  from the request's token. That identity is not authenticated: `/jwt`
  (index.js:34-38) signs whatever body it receives without checking a PIN,
  so any client can obtain a token for any email, an admin's included. A
  free `caller` parameter captures exactly that.
- bcrypt's compare is the constant `pinMatches` of a `Ledger`, fixed when
  the ledger is created. `register` receives the PIN already hashed, because
  the salted hash is random.
- The date of a record is its position in the log. `Ledger.Valid()` keeps
  `log[i].date == i`, so "sort by date, descending" is "newest position
  first".
- Each endpoint is one atomic step. It runs the role gate, then the
  handler's guards in the handler's order, then the two balance updates in
  their order, then the single append.

The model follows the code, including these behaviours:

- The funds test of `send-money` and `cash-out` is `balance >= amount`,
  without the fee. A successful transfer between two different accounts can
  leave the sender as low as minus the fee (`SendEffect`, `CashOutEffect`,
  `CashOutOverdraftScenario`).
- `cash-in` never looks at the agent's balance, so an agent can go
  negative (`CashInEffect`, `CashInUncheckedScenario`).
- No transfer looks at account status (`TransfersIgnoreStatus`). No amount
  is checked for sign (`NegativeSendScenario`).
- Approval overwrites the balance with 40, so an approved agent loses its
  starting 10000 (`ApproveAfterRegister`).
- `register` takes the role from the request, and the admin gate checks
  only the role. A self-registered admin therefore passes while still
  pending (`SelfRegisteredAdmin`).
- Fees are credited to nobody. The sum of all balances drops by exactly the
  fee (`SendConserves`, `CashOutConserves`).

No handler carries an idempotency key. Every transfer's balance update is
an unconditional `$inc`, and approval's `$set` of the balance to 40 is
unconditional too: there is no conditional update that would refuse an
overdraft or a stale balance.

## Model

| member | source | states |
|---|---|---|
| `Fees.SendFee` | index.js:120 | The send fee is 5 exactly when the amount exceeds 100, and 0 otherwise. |
| `Fees.CashOutFee` | index.js:157 | The cash-out fee is exactly 3/200 (1.5%) of the amount. It lies between 0 and the amount for a non-negative amount. |
| `Store.RoleGate` | index.js:56-65 | The gate passes only a caller whose account exists, so every handler behind it can read the caller's account; its partner `RoleGateExclusive` states that the role must match exactly. |
| `Store.PinOk` | index.js:116 | The PIN test passes only for an existing account whose stored hash matches the supplied PIN under the bcrypt compare; the same test guards index.js:153 and index.js:190. |
| `Store.RoleGateExclusive` | index.js:56-65 | A known caller passes the gate of its own account's role, a caller passes at most one role's gate, and an unknown caller passes none. Together: a caller passes role r's gate exactly when its account exists with role r. |
| `Store.Adjust` | index.js:121-128 | `$inc` changes only the named account's balance by the delta. Every other account and field stays the same, and an unknown email changes nothing. |
| `Store.InitialBalance` | index.js:71 | The starting balance is 10000 for the role `agent` and 0 for any other role. |
| `Store.Register` | index.js:68-74 | Registering a new email adds a pending account with the request's role and its starting balance. An email already present leaves the collection as it was. |
| `Store.Approve` | index.js:95-99 | Approval sets status approved and balance 40 on the target, whatever the balance was. No other account changes. |
| `Store.Block` | index.js:101-105 | Blocking sets status blocked on the target and keeps its balance. No other account changes. |
| `Store.RegisterTotal` | index.js:71 | Registering a new email raises the sum of all balances by the starting balance: 10000 for an agent, 0 otherwise. |
| `Store.ApproveTotal` | index.js:97 | Approval changes the sum of all balances by 40 minus the target's former balance. |
| `Store.BlockTotal` | index.js:103 | Blocking leaves the sum of all balances unchanged. |
| `Store.SelfRegisteredAdmin` | index.js:56-74 | An account registered with the role `admin` passes the admin gate at once, while its status is still pending. |
| `Store.ApproveAfterRegister` | index.js:71-97 | A newly registered account that is then approved is approved and holds 40, whatever its role. |
| `Transfers.SendOutcome` | index.js:113-148 | `send-money` succeeds exactly when the caller passes the `user` gate, the PIN matches, balance >= amount, and the recipient exists. Each error answers exactly the first failing guard in that order: Forbidden when the gate fails; Invalid PIN when the gate passes and the PIN does not match; Insufficient balance when gate and PIN pass and the balance is below the amount; Recipient not found when all of those pass and `to` is unknown. |
| `Transfers.CashOutOutcome` | index.js:150-185 | `cash-out` succeeds exactly when the caller passes the `user` gate, the PIN matches, balance >= amount, and the target exists with role `agent`. Each error answers exactly the first failing guard in that order: Forbidden, then Invalid PIN, then Insufficient balance, then Agent not found (an unknown email or an account of another role). |
| `Transfers.CashInOutcome` | index.js:187-217 | `cash-in` succeeds exactly when the caller passes the `user` gate, the PIN matches, and the target exists with role `agent`. Each error answers exactly the first failing guard in that order: Forbidden, then Invalid PIN, then Agent not found. Insufficient balance is never answered: no balance is consulted. |
| `Transfers.Move` | index.js:121-128 | The two `$inc` updates of a fee-carrying transfer keep the set of accounts and touch no account other than payer and payee; its partners `MoveEffect` and `MoveTotal` state the new balances and that the sum drops by exactly the fee. |
| `Transfers.MoveEffect` | index.js:121-128 | Between two different existing accounts the payer loses amount + fee and the payee gains the amount; for one account alone the balance drops by the fee. Only the balance field changes. |
| `Transfers.MoveTotal` | index.js:121-128 | The two updates lower the sum of all balances by exactly the fee. |
| `Transfers.SendBalances` | index.js:120-128 | The balances after a successful send keep the set of accounts; `SendEffect` and `SendConserves` state the debit, the credit and the fee lost. |
| `Transfers.CashOutBalances` | index.js:157-165 | The balances after a successful cash-out keep the set of accounts; `CashOutEffect` and `CashOutConserves` state the debit, the credit and the fee lost. |
| `Transfers.CashInBalances` | index.js:193-200 | The balances after a successful cash-in keep the set of accounts and touch nobody but customer and agent; `CashInEffect` and `CashInConserves` state the credit, the debit and that the sum is unchanged. |
| `Transfers.SendEffect` | index.js:117-128 | After a successful send, the sender has lost amount + fee and the recipient has gained the amount. Nothing else changes. When sender and recipient are different accounts, the sender ends at no less than minus the fee. A send to oneself costs just the fee. |
| `Transfers.SendConserves` | index.js:120-128 | A send lowers the sum of all balances by exactly the send fee. |
| `Transfers.CashOutEffect` | index.js:154-165 | After a successful cash-out, the customer and the agent are distinct accounts. The customer has lost amount + 1.5% and the agent has gained the amount. Nothing else changes. The customer ends at no less than minus the fee. |
| `Transfers.CashOutConserves` | index.js:157-165 | A cash-out lowers the sum of all balances by exactly `amount * 3/200`. |
| `Transfers.CashInEffect` | index.js:191-200 | After a successful cash-in, the customer has gained the amount and the agent has lost it, whatever the agent held. Nothing else changes. |
| `Transfers.CashInConserves` | index.js:193-200 | A cash-in leaves the sum of all balances unchanged. |
| `Transfers.TransfersIgnoreStatus` | index.js:113-217 | Changing any account's status changes none of the three transfer responses. |
| `Transfers.SendScenario` | index.js:117-128 | Customer C with 1000 sends 150 to D: the fee is 5, C keeps 845 and D holds 150. D is blocked and still receives. |
| `Transfers.CashOutOverdraftScenario` | index.js:154-165 | Customer C with 100 cashes out 100: the transfer succeeds and leaves C at -1.5. |
| `Transfers.CashInUncheckedScenario` | index.js:191-200 | An agent holding 0 pays out a cash-in of 500 and ends at -500. |
| `Transfers.NegativeSendScenario` | index.js:117-128 | A send of -50 passes every guard and moves 50 from the recipient to the sender. |
| `Queries.Recent` | index.js:225 | The backward walk returns at most `n` records, each taken from the log and naming the email as sender or recipient. |
| `Queries.History` | index.js:225 | The history holds at most 10 records, each from the log and naming the caller. |
| `Queries.Filter` | index.js:225 | The `$or` filter keeps at most as many records as the log holds; `FilterMembers` states which ones. |
| `Queries.FilterMembers` | index.js:225 | The `$or` filter keeps exactly the log records whose `from` or `to` is the email. |
| `Queries.RecentIsQuery` | index.js:225 | The backward walk equals the database query: filter, sort newest first, take the first `n`. |
| `Queries.RecentNewestFirst` | index.js:225 | On a log with increasing dates, the walk returns records in strictly decreasing date order. |
| `Queries.HistoryCorrect` | index.js:224-233 | On a chronological log, the history is the filtered log reversed and cut at 10. It has min(10, number of matches) records, each naming the caller, in strictly decreasing date order. |
| `Endpoints.Ledger.constructor` | index.js:30-31 | A new ledger has empty users and transactions collections and uses the given PIN comparison. |
| `Endpoints.Ledger.Register` | index.js:68-74 | The users map becomes `Store.Register` of the old one. A new email gets a pending account with the starting balance of its role. The log is unchanged. |
| `Endpoints.Ledger.Approve` | index.js:95-99 | A non-admin caller gets Forbidden and nothing changes. An admin caller gets Ok, and the target becomes approved with balance 40. The log is unchanged. |
| `Endpoints.Ledger.Block` | index.js:101-105 | A non-admin caller gets Forbidden and nothing changes. An admin caller gets Ok, and the target becomes blocked with its balance unchanged. The log is unchanged. |
| `Endpoints.Ledger.SendMoney` | index.js:113-148 | The response is the guard chain: role gate, PIN, funds, recipient. On Ok, the users map is `SendBalances` of the old one and exactly one `send` record with the fee and the next date is appended. On any failure, users and log are unchanged. |
| `Endpoints.Ledger.CashOut` | index.js:150-185 | The response is the guard chain: role gate, PIN, funds, agent. On Ok, the users map is `CashOutBalances` of the old one and exactly one `cash-out` record with fee `amount * 0.015` is appended. On any failure, nothing changes. |
| `Endpoints.Ledger.CashIn` | index.js:187-217 | The response is the guard chain: role gate, PIN, agent. On Ok, the customer is credited and the agent debited (`CashInBalances`), and exactly one `cash-in` record from the agent to the caller with fee 0 is appended. On any failure, nothing changes. |
| `Endpoints.Ledger.Balance` | index.js:219-222 | A caller with role `user` gets its own balance; anyone else is denied. State is unchanged. |
| `Endpoints.Ledger.AgentBalance` | index.js:235-238 | A caller with role `agent` gets its own balance; anyone else is denied. State is unchanged. |
| `Endpoints.Ledger.TransactionHistory` | index.js:224-227 | A caller with role `user` gets the 10 newest records naming it, newest first; anyone else is denied. State is unchanged. |
| `Endpoints.Ledger.AgentTransactions` | index.js:230-233 | A caller with role `agent` gets the 10 newest records naming it, newest first; anyone else is denied. State is unchanged. |

## Left out

- Express routing, CORS, `app.listen`, the MongoDB client and its connection (index.js:1-31, 240-254): transport and I/O.
- Token issuing and checking (`/jwt`, `verifyToken`, `/login`, index.js:33-53, 76-87): signing and checking use the jsonwebtoken library, which is not modelled; `/jwt` signs any body it is given, so the caller is a free parameter. The decoded caller email is a parameter, and the 401 answers of a missing or bad token are not modelled.
- bcrypt hashing and comparison: a foreign library. Register receives the hash, and comparison is the `pinMatches` constant.
- The admin listings `GET /users` and `GET /transactions` (index.js:90-93, 107-110): whole-collection reads behind the admin gate, with nothing to state beyond the gate itself.
- Concurrency: each handler is modelled as one atomic step, so the minus-the-fee floor of `SendEffect` and `CashOutEffect` and the `*Conserves` facts hold per atomic step only. No update is lost: every balance write is a relative `$inc` (index.js:121-128, 158-165, 193-200) or a `$set` to a constant (index.js:97), each applied atomically to its document. But the handlers await between the lookup and the two separate updates, and the model captures neither of two effects of that:
  - The funds test of `send-money` and `cash-out` (index.js:117, 154) uses a balance read before either `$inc` (index.js:115, 152). Two concurrent sends of 100 from a balance of 100 both pass it, and the sender ends at -100.
  - Between the two `$inc`, a reader such as `GET /balance` sees the debit without the credit. A failure at that point keeps the debit, with no credit and no record.
- Fees.CashOutFee: computes the fee in exact rational arithmetic, not in JavaScript's floating-point `amount * 0.015`, so IEEE rounding of the fee and of the balances is not modelled.
- Timestamps: `new Date()` is replaced by the record's position in the log. Two records written in the same millisecond have no defined order in the server; in the model they never tie.
- Non-numeric amounts: the request body's `amount` is a number here. In the server, a string amount would compare and concatenate under JavaScript's coercions.
- Non-string `to` and `agent`: these fields are strings here. In the server, a JSON object such as `{"$ne": null}` in the request body goes straight into the MongoDB filters (index.js:118, 126, 155, 163, 191, 198), where it acts as a query operator and can match some other account.
- Missing or non-string `pin`: the PIN is a string here. In the server, `bcrypt.hash` and `bcrypt.compare` reject such a value (index.js:70, 116, 153, 190); the handler then sends no response and writes nothing, which the model has no response for.
- Store.Register: the users collection is a map by email, so registering an email that is already present leaves the map unchanged. The server instead inserts a second document with that email. Cash-out and cash-in look the agent up by email *and* role (index.js:155, 191), so they can find that later document, while the `$inc` that follows filters on email alone (index.js:162-165, 197-200) and hits the earlier one. Example: X registers as `user`, then again as `agent`; a cash-out of 100 to X succeeds in the server and credits X's user document, but the model answers Agent not found and changes nothing. Collections with several documents per email are not modelled.
- Endpoints.Ledger.Register: its users map is `Store.Register` of the old one, so it shares the duplicate-email gap of the line above.
- Store.Approve: the server addresses approve and block by the document's `_id`; the model addresses the same account by its email. An `_id` that is not a valid ObjectId makes the server fail with an error, which is not modelled.
- Store.Block: addresses the account by email instead of `_id`, as approve does.
- Response bodies: the MongoDB result objects sent by register, approve and block, the message texts, and the HTTP status codes are reduced to the `Response` and `Query` values.
- `name` and `mobile` are stored on registration but play no part in the modelled endpoints (login is left out).
