/** The two collections the server keeps: the users collection, keyed by
    email, and the append-only transactions collection. This module holds the
    records, the `$inc` balance update, the role gate, the PIN test, the
    lifecycle updates (register, approve, block) as functions on the users
    collection, and the sum of all balances with the facts about it. */
module Store {

  const UserRole: string := "user"
  const AgentRole: string := "agent"
  const AdminRole: string := "admin"

  datatype Status = Pending | Approved | Blocked

  /** One document of the users collection. `pinHash` is the stored bcrypt
      hash; `role` is whatever string the registration request carried. */
  datatype Account = Account(
    name: string,
    pinHash: string,
    mobile: string,
    role: string,
    status: Status,
    balance: real)

  datatype Kind = Send | CashOut | CashIn

  /** One document of the transactions collection. `date` is the position of
      the record in the log, standing for the timestamp taken when it was
      written. */
  datatype Txn = Txn(from: string, to: string, amount: real, kind: Kind, fee: real, date: nat)

  type Users = map<string, Account>

  /** The role gate in front of every protected endpoint: the caller's
      account must exist and carry exactly the required role. */
  predicate RoleGate(users: Users, email: string, role: string)
    ensures RoleGate(users, email, role) ==> email in users
  {
    email in users && users[email].role == role
  }

  /** A known caller passes the gate of its own role and of no other, and an
      unknown caller passes none. */
  lemma RoleGateExclusive(users: Users, email: string, r1: string, r2: string)
    ensures email in users ==> RoleGate(users, email, users[email].role)
    ensures RoleGate(users, email, r1) && RoleGate(users, email, r2) ==> r1 == r2
    ensures email !in users ==> !RoleGate(users, email, r1)
  {
  }

  /** The PIN test of the transfer handlers: the account exists and the
      supplied PIN matches its stored hash under `matches` (bcrypt's compare,
      which is not modelled further). */
  predicate PinOk(users: Users, matches: (string, string) -> bool, email: string, pin: string)
    ensures PinOk(users, matches, email, pin) ==> email in users
  {
    email in users && matches(pin, users[email].pinHash)
  }

  /** `$inc` of one account's balance by `delta`; an update that matches no
      document changes nothing. */
  function Adjust(users: Users, email: string, delta: real): (r: Users)
    ensures r.Keys == users.Keys
    ensures email in users ==> r[email] == users[email].(balance := users[email].balance + delta)
    ensures forall e :: e in users && e != email ==> r[e] == users[e]
  {
    if email in users then users[email := users[email].(balance := users[email].balance + delta)]
    else users
  }

  /** Starting balance given at registration. */
  function InitialBalance(role: string): (b: real)
    ensures b == 10000.0 <==> role == AgentRole
    ensures b == 0.0 <==> role != AgentRole
  {
    if role == AgentRole then 10000.0 else 0.0
  }

  /** Registration inserts a pending account. The users collection is a map
      by email, so an email that is already present keeps its one account and
      the map is left as it was; the server would store a second document. */
  function Register(users: Users, name: string, pinHash: string, mobile: string, email: string, role: string): (r: Users)
    ensures email !in users ==> r == users[email := Account(name, pinHash, mobile, role, Pending, InitialBalance(role))]
    ensures email in users ==> r == users
  {
    if email in users then users
    else users[email := Account(name, pinHash, mobile, role, Pending, InitialBalance(role))]
  }

  /** Approval sets the status to approved and overwrites the balance with 40,
      whatever it was; an unknown account is left alone. */
  function Approve(users: Users, email: string): (r: Users)
    ensures r.Keys == users.Keys
    ensures email in users ==> r[email] == users[email].(status := Approved, balance := 40.0)
    ensures forall e :: e in users && e != email ==> r[e] == users[e]
  {
    if email in users then users[email := users[email].(status := Approved, balance := 40.0)]
    else users
  }

  /** Blocking sets the status to blocked and touches nothing else. */
  function Block(users: Users, email: string): (r: Users)
    ensures r.Keys == users.Keys
    ensures email in users ==> r[email] == users[email].(status := Blocked)
    ensures forall e :: e in users && e != email ==> r[e] == users[e]
  {
    if email in users then users[email := users[email].(status := Blocked)]
    else users
  }

  /** Sum of all balances in the users collection. */
  ghost function Total(users: Users): (t: real)
    decreases |users|
  {
    if users == map[] then 0.0
    else
      var e :| e in users;
      users[e].balance + Total(users - {e})
  }

  /** The sum does not depend on which account is taken out first. */
  lemma {:induction false} TotalRemove(users: Users, email: string)
    requires email in users
    ensures Total(users) == users[email].balance + Total(users - {email})
    decreases |users|
  {
    var e :| e in users && Total(users) == users[e].balance + Total(users - {e});
    if e != email {
      TotalRemove(users - {e}, email);
      TotalRemove(users - {email}, e);
      assert users - {e} - {email} == users - {email} - {e};
    }
  }

  /** Replacing one account changes the sum by the change of its balance. */
  lemma TotalReplace(users: Users, email: string, a: Account)
    requires email in users
    ensures Total(users[email := a]) == Total(users) - users[email].balance + a.balance
  {
    TotalRemove(users, email);
    TotalRemove(users[email := a], email);
    assert users[email := a] - {email} == users - {email};
  }

  /** Adding a new account adds its balance to the sum. */
  lemma TotalInsert(users: Users, email: string, a: Account)
    requires email !in users
    ensures Total(users[email := a]) == Total(users) + a.balance
  {
    TotalRemove(users[email := a], email);
    assert users[email := a] - {email} == users;
  }

  /** `$inc` on an existing account moves the sum by exactly `delta`. */
  lemma TotalAdjust(users: Users, email: string, delta: real)
    ensures email in users ==> Total(Adjust(users, email, delta)) == Total(users) + delta
    ensures email !in users ==> Total(Adjust(users, email, delta)) == Total(users)
  {
    if email in users {
      TotalReplace(users, email, users[email].(balance := users[email].balance + delta));
    }
  }

  /** Registration adds the starting balance of the new account to the sum:
      10000 for an agent, nothing for anyone else. */
  lemma RegisterTotal(users: Users, name: string, pinHash: string, mobile: string, email: string, role: string)
    ensures email !in users ==> Total(Register(users, name, pinHash, mobile, email, role)) == Total(users) + InitialBalance(role)
    ensures email in users ==> Total(Register(users, name, pinHash, mobile, email, role)) == Total(users)
  {
    if email !in users {
      TotalInsert(users, email, Account(name, pinHash, mobile, role, Pending, InitialBalance(role)));
    }
  }

  /** Approval replaces the account's balance by 40 in the sum. */
  lemma ApproveTotal(users: Users, email: string)
    ensures email in users ==> Total(Approve(users, email)) == Total(users) - users[email].balance + 40.0
    ensures email !in users ==> Total(Approve(users, email)) == Total(users)
  {
    if email in users {
      TotalReplace(users, email, users[email].(status := Approved, balance := 40.0));
    }
  }

  /** Blocking leaves the sum of balances unchanged. */
  lemma BlockTotal(users: Users, email: string)
    ensures Total(Block(users, email)) == Total(users)
  {
    if email in users {
      TotalReplace(users, email, users[email].(status := Blocked));
    }
  }

  /** Registration is open and takes the role from the request, and the
      admin gate looks only at the role: a self-registered admin passes it
      while still pending. */
  lemma SelfRegisteredAdmin(users: Users, name: string, pinHash: string, mobile: string, email: string)
    requires email !in users
    ensures var r := Register(users, name, pinHash, mobile, email, AdminRole);
      RoleGate(r, email, AdminRole) && r[email].status == Pending
  {
  }

  /** A freshly registered agent who is then approved holds 40, not 10000. */
  lemma ApproveAfterRegister(users: Users, name: string, pinHash: string, mobile: string, email: string, role: string)
    requires email !in users
    ensures var r := Approve(Register(users, name, pinHash, mobile, email, role), email);
      r[email].status == Approved && r[email].balance == 40.0 && r[email].role == role
  {
  }
}
