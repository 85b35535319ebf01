/** The three money-moving endpoints, `send-money`, `cash-out` and `cash-in`,
    as pure functions of the users collection: which response the guard chain
    gives, and which balances the two `$inc` updates leave behind. The
    `Ledger` class performs the same steps in place. */
module Transfers {
  import opened Store
  import opened Fees

  /** What an endpoint answers. `Ok` stands for the success message of each
      endpoint; `Forbidden` is the answer of the role gate. */
  datatype Response = Ok | Forbidden | InvalidPin | InsufficientBalance | RecipientNotFound | AgentNotFound

  /** Guard chain of `send-money`: role gate, PIN, funds, recipient. The funds
      test compares the balance with the amount alone, not amount plus fee. */
  function SendOutcome(users: Users, matches: (string, string) -> bool,
                       caller: string, to: string, amount: real, pin: string): (r: Response)
    ensures r == Ok <==>
      RoleGate(users, caller, UserRole) && PinOk(users, matches, caller, pin)
      && users[caller].balance >= amount && to in users
    ensures r == Forbidden <==> !RoleGate(users, caller, UserRole)
    ensures r == InvalidPin <==> RoleGate(users, caller, UserRole) && !PinOk(users, matches, caller, pin)
    ensures r == InsufficientBalance <==>
      RoleGate(users, caller, UserRole) && PinOk(users, matches, caller, pin)
      && users[caller].balance < amount
    ensures r == RecipientNotFound <==>
      RoleGate(users, caller, UserRole) && PinOk(users, matches, caller, pin)
      && users[caller].balance >= amount && to !in users
    ensures r != AgentNotFound
  {
    if !RoleGate(users, caller, UserRole) then Forbidden
    else if !PinOk(users, matches, caller, pin) then InvalidPin
    else if !(users[caller].balance >= amount) then InsufficientBalance
    else if to !in users then RecipientNotFound
    else Ok
  }

  /** Guard chain of `cash-out`: role gate, PIN, funds, then an account with
      that email whose role is agent. */
  function CashOutOutcome(users: Users, matches: (string, string) -> bool,
                          caller: string, agent: string, amount: real, pin: string): (r: Response)
    ensures r == Ok <==>
      RoleGate(users, caller, UserRole) && PinOk(users, matches, caller, pin)
      && users[caller].balance >= amount && RoleGate(users, agent, AgentRole)
    ensures r == Forbidden <==> !RoleGate(users, caller, UserRole)
    ensures r == InvalidPin <==> RoleGate(users, caller, UserRole) && !PinOk(users, matches, caller, pin)
    ensures r == InsufficientBalance <==>
      RoleGate(users, caller, UserRole) && PinOk(users, matches, caller, pin)
      && users[caller].balance < amount
    ensures r == AgentNotFound <==>
      RoleGate(users, caller, UserRole) && PinOk(users, matches, caller, pin)
      && users[caller].balance >= amount && !RoleGate(users, agent, AgentRole)
    ensures r != RecipientNotFound
  {
    if !RoleGate(users, caller, UserRole) then Forbidden
    else if !PinOk(users, matches, caller, pin) then InvalidPin
    else if !(users[caller].balance >= amount) then InsufficientBalance
    else if !RoleGate(users, agent, AgentRole) then AgentNotFound
    else Ok
  }

  /** Guard chain of `cash-in`: role gate, PIN, agent. Nobody's balance is
      consulted. */
  function CashInOutcome(users: Users, matches: (string, string) -> bool,
                         caller: string, agent: string, amount: real, pin: string): (r: Response)
    ensures r == Ok <==>
      RoleGate(users, caller, UserRole) && PinOk(users, matches, caller, pin)
      && RoleGate(users, agent, AgentRole)
    ensures r == Forbidden <==> !RoleGate(users, caller, UserRole)
    ensures r == InvalidPin <==> RoleGate(users, caller, UserRole) && !PinOk(users, matches, caller, pin)
    ensures r == AgentNotFound <==>
      RoleGate(users, caller, UserRole) && PinOk(users, matches, caller, pin)
      && !RoleGate(users, agent, AgentRole)
    ensures r != InsufficientBalance && r != RecipientNotFound
  {
    if !RoleGate(users, caller, UserRole) then Forbidden
    else if !PinOk(users, matches, caller, pin) then InvalidPin
    else if !RoleGate(users, agent, AgentRole) then AgentNotFound
    else Ok
  }

  /** The two updates of a transfer that carries a fee, in their order: the
      payer is debited amount plus fee, then the payee is credited the amount.
      The fee is credited to nobody. */
  function Move(users: Users, payer: string, payee: string, amount: real, fee: real): (r: Users)
    ensures r.Keys == users.Keys
    ensures forall e :: e in users && e != payer && e != payee ==> r[e] == users[e]
  {
    Adjust(Adjust(users, payer, -(amount + fee)), payee, amount)
  }

  /** The updates of a successful `send-money`. */
  function SendBalances(users: Users, from: string, to: string, amount: real): (r: Users)
    ensures r.Keys == users.Keys
  {
    Move(users, from, to, amount, SendFee(amount))
  }

  /** The updates of a successful `cash-out`. */
  function CashOutBalances(users: Users, from: string, agent: string, amount: real): (r: Users)
    ensures r.Keys == users.Keys
  {
    Move(users, from, agent, amount, CashOutFee(amount))
  }

  /** The two updates of a successful `cash-in`: the customer first, then the
      agent. */
  function CashInBalances(users: Users, customer: string, agent: string, amount: real): (r: Users)
    ensures r.Keys == users.Keys
    ensures forall e :: e in users && e != customer && e != agent ==> r[e] == users[e]
  {
    Adjust(Adjust(users, customer, amount), agent, -amount)
  }

  /** A transfer with a fee between existing accounts: each side's balance
      moves by its own amount, or by minus the fee when payer and payee are
      one account; no other account and no other field changes. */
  lemma MoveEffect(users: Users, payer: string, payee: string, amount: real, fee: real)
    requires payer in users && payee in users
    ensures var r := Move(users, payer, payee, amount, fee);
      && r.Keys == users.Keys
      && (payer != payee ==>
            r[payer].balance == users[payer].balance - (amount + fee) && r[payee].balance == users[payee].balance + amount)
      && (payer == payee ==> r[payer].balance == users[payer].balance - fee)
      && (forall e :: e in users && e != payer && e != payee ==> r[e] == users[e])
      && (forall e :: e in users ==> r[e] == users[e].(balance := r[e].balance))
  {
  }

  /** Debiting the payer by amount plus fee and then crediting an existing
      payee with the amount lowers the sum of all balances by the fee. */
  lemma MoveTotal(users: Users, payer: string, payee: string, amount: real, fee: real)
    requires payer in users && payee in users
    ensures Total(Move(users, payer, payee, amount, fee)) == Total(users) - fee
  {
    TotalAdjust(users, payer, -(amount + fee));
    TotalAdjust(Adjust(users, payer, -(amount + fee)), payee, amount);
  }

  /** A successful `send-money`: the sender loses amount plus fee, the
      recipient gains the amount and everyone else is untouched. Because the
      funds test ignores the fee, a sender paying another account may end as
      low as minus the fee. Sending to oneself costs just the fee. */
  lemma SendEffect(users: Users, matches: (string, string) -> bool,
                   caller: string, to: string, amount: real, pin: string)
    requires SendOutcome(users, matches, caller, to, amount, pin) == Ok
    ensures var r, fee := SendBalances(users, caller, to, amount), SendFee(amount);
      && r.Keys == users.Keys
      && (caller != to ==>
            && r[caller].balance == users[caller].balance - (amount + fee)
            && r[to].balance == users[to].balance + amount
            && r[caller].balance >= -fee)
      && (caller == to ==> r[caller].balance == users[caller].balance - fee)
      && (forall e :: e in users && e != caller && e != to ==> r[e] == users[e])
      && (forall e :: e in users ==> r[e] == users[e].(balance := r[e].balance))
  {
    MoveEffect(users, caller, to, amount, SendFee(amount));
  }

  /** A `send-money` between existing accounts removes exactly the fee from
      the money in the system: the fee is credited to nobody. */
  lemma SendConserves(users: Users, caller: string, to: string, amount: real)
    requires caller in users && to in users
    ensures Total(SendBalances(users, caller, to, amount)) == Total(users) - SendFee(amount)
  {
    MoveTotal(users, caller, to, amount, SendFee(amount));
  }

  /** A successful `cash-out`: the customer loses amount plus 1.5 percent,
      the agent gains the amount, and the customer may end as low as minus
      the fee. The customer and the agent are always two different accounts,
      since their roles differ. */
  lemma CashOutEffect(users: Users, matches: (string, string) -> bool,
                      caller: string, agent: string, amount: real, pin: string)
    requires CashOutOutcome(users, matches, caller, agent, amount, pin) == Ok
    ensures var r, fee := CashOutBalances(users, caller, agent, amount), CashOutFee(amount);
      && caller != agent
      && r.Keys == users.Keys
      && r[caller].balance == users[caller].balance - (amount + fee)
      && r[agent].balance == users[agent].balance + amount
      && r[caller].balance >= -fee
      && (forall e :: e in users && e != caller && e != agent ==> r[e] == users[e])
      && (forall e :: e in users ==> r[e] == users[e].(balance := r[e].balance))
  {
    MoveEffect(users, caller, agent, amount, CashOutFee(amount));
  }

  /** A `cash-out` between existing accounts removes exactly its 1.5 percent
      fee from the money in the system. */
  lemma CashOutConserves(users: Users, caller: string, agent: string, amount: real)
    requires caller in users && agent in users
    ensures Total(CashOutBalances(users, caller, agent, amount)) == Total(users) - CashOutFee(amount)
  {
    MoveTotal(users, caller, agent, amount, CashOutFee(amount));
  }

  /** A successful `cash-in`: the customer gains the amount and the agent
      loses it, whatever the agent's balance was, so the agent may go below
      zero. */
  lemma CashInEffect(users: Users, matches: (string, string) -> bool,
                     caller: string, agent: string, amount: real, pin: string)
    requires CashInOutcome(users, matches, caller, agent, amount, pin) == Ok
    ensures var r := CashInBalances(users, caller, agent, amount);
      && caller != agent
      && r.Keys == users.Keys
      && r[caller].balance == users[caller].balance + amount
      && r[agent].balance == users[agent].balance - amount
      && (forall e :: e in users && e != caller && e != agent ==> r[e] == users[e])
      && (forall e :: e in users ==> r[e] == users[e].(balance := r[e].balance))
  {
  }

  /** A `cash-in` between existing accounts leaves the money in the system
      unchanged. */
  lemma CashInConserves(users: Users, caller: string, agent: string, amount: real)
    requires caller in users && agent in users
    ensures Total(CashInBalances(users, caller, agent, amount)) == Total(users)
  {
    TotalAdjust(users, caller, amount);
    TotalAdjust(Adjust(users, caller, amount), agent, -amount);
  }

  /** No transfer looks at an account's status: giving any account any other
      status changes none of the three responses. */
  lemma TransfersIgnoreStatus(users: Users, matches: (string, string) -> bool, email: string, s: Status,
                              caller: string, other: string, amount: real, pin: string)
    requires email in users
    ensures var u := users[email := users[email].(status := s)];
      && SendOutcome(u, matches, caller, other, amount, pin) == SendOutcome(users, matches, caller, other, amount, pin)
      && CashOutOutcome(u, matches, caller, other, amount, pin) == CashOutOutcome(users, matches, caller, other, amount, pin)
      && CashInOutcome(u, matches, caller, other, amount, pin) == CashInOutcome(users, matches, caller, other, amount, pin)
  {
  }

  /** Two customers and one agent, used by the scenarios below. */
  function Sample(c: real, d: real, a: real): (u: Users)
  {
    map["c" := Account("C", "h", "1", UserRole, Approved, c),
        "d" := Account("D", "h", "2", UserRole, Blocked, d),
        "a" := Account("A", "h", "3", AgentRole, Approved, a)]
  }

  /** Customer C with 1000 sends 150 to D: the fee is 5, C keeps 845 and D
      holds 150. D is blocked and still receives. */
  lemma SendScenario()
    ensures var u := Sample(1000.0, 0.0, 0.0);
      && SendOutcome(u, (p, h) => true, "c", "d", 150.0, "pin") == Ok
      && SendBalances(u, "c", "d", 150.0)["c"].balance == 845.0
      && SendBalances(u, "c", "d", 150.0)["d"].balance == 150.0
  {
  }

  /** Customer C with 100 cashes out 100: the funds test passes although the
      fee of 1.5 is not covered, and C is left at -1.5. */
  lemma CashOutOverdraftScenario()
    ensures var u := Sample(100.0, 0.0, 0.0);
      && CashOutOutcome(u, (p, h) => true, "c", "a", 100.0, "pin") == Ok
      && CashOutBalances(u, "c", "a", 100.0)["c"].balance == -1.5
  {
  }

  /** An agent holding nothing still pays out a cash-in and goes negative. */
  lemma CashInUncheckedScenario()
    ensures var u := Sample(0.0, 0.0, 0.0);
      && CashInOutcome(u, (p, h) => true, "c", "a", 500.0, "pin") == Ok
      && CashInBalances(u, "c", "a", 500.0)["a"].balance == -500.0
  {
  }

  /** A negative amount passes every guard of `send-money` and moves money
      from the recipient to the sender. */
  lemma NegativeSendScenario()
    ensures var u := Sample(0.0, 50.0, 0.0);
      && SendOutcome(u, (p, h) => true, "c", "d", -50.0, "pin") == Ok
      && SendBalances(u, "c", "d", -50.0)["c"].balance == 50.0
      && SendBalances(u, "c", "d", -50.0)["d"].balance == 0.0
  {
  }
}
