/** The server's request handlers over its two collections. Each handler runs
    as one atomic step: its guards in the order the handler tests them, then
    the balance updates in their order, then the one append to the log. The
    caller's email is the identity carried by the token; the server signs a
    token for whatever body it is given, so that identity is not
    authenticated. */
module Endpoints {
  import opened Store
  import opened Fees
  import opened Transfers
  import opened Queries

  /** Answer of a read-only endpoint: the value, or the role gate's refusal. */
  datatype Query<T> = Granted(value: T) | Denied

  class Ledger {
    /** The users collection, by email. */
    var users: Users
    /** The transactions collection, oldest first. */
    var log: seq<Txn>
    /** bcrypt's compare of a supplied PIN with a stored hash. */
    const pinMatches: (string, string) -> bool

    /** Every record's date is its position in the log: the counter that
        stands for the clock only moves forward. */
    ghost predicate Valid()
      reads this
    {
      forall i :: 0 <= i < |log| ==> log[i].date == i
    }

    constructor (pinMatches: (string, string) -> bool)
      ensures Valid()
      ensures users == map[] && log == [] && this.pinMatches == pinMatches
    {
      users := map[];
      log := [];
      this.pinMatches := pinMatches;
    }

    /** `register`: open to anyone. `pinHash` is the hash of the chosen PIN;
        `role` is taken from the request as it stands. */
    method Register(name: string, pinHash: string, mobile: string, email: string, role: string)
      requires Valid()
      modifies this
      ensures Valid()
      ensures users == Store.Register(old(users), name, pinHash, mobile, email, role)
      ensures email !in old(users) ==>
        users[email].status == Pending && users[email].balance == InitialBalance(role) && users[email].role == role
      ensures log == old(log)
    {
      users := Store.Register(users, name, pinHash, mobile, email, role);
    }

    /** `users/approve`: admins only; status becomes approved and the balance
        is overwritten with 40. */
    method Approve(caller: string, target: string) returns (r: Response)
      requires Valid()
      modifies this
      ensures Valid()
      ensures r == (if RoleGate(old(users), caller, AdminRole) then Ok else Forbidden)
      ensures users == (if r == Ok then Store.Approve(old(users), target) else old(users))
      ensures r == Ok && target in old(users) ==>
        users[target].status == Approved && users[target].balance == 40.0
      ensures log == old(log)
    {
      if !RoleGate(users, caller, AdminRole) {
        return Forbidden;
      }
      users := Store.Approve(users, target);
      r := Ok;
    }

    /** `users/block`: admins only; status becomes blocked, the balance stays. */
    method Block(caller: string, target: string) returns (r: Response)
      requires Valid()
      modifies this
      ensures Valid()
      ensures r == (if RoleGate(old(users), caller, AdminRole) then Ok else Forbidden)
      ensures users == (if r == Ok then Store.Block(old(users), target) else old(users))
      ensures r == Ok && target in old(users) ==>
        users[target].status == Blocked && users[target].balance == old(users)[target].balance
      ensures log == old(log)
    {
      if !RoleGate(users, caller, AdminRole) {
        return Forbidden;
      }
      users := Store.Block(users, target);
      r := Ok;
    }

    /** `send-money`: on success the sender is debited amount plus fee, the
        recipient credited the amount and one `send` record appended; on any
        failure nothing changes. */
    method SendMoney(caller: string, to: string, amount: real, pin: string) returns (r: Response)
      requires Valid()
      modifies this
      ensures Valid()
      ensures r == SendOutcome(old(users), pinMatches, caller, to, amount, pin)
      ensures r == Ok ==>
        && users == SendBalances(old(users), caller, to, amount)
        && log == old(log) + [Txn(caller, to, amount, Send, SendFee(amount), |old(log)|)]
      ensures r != Ok ==> users == old(users) && log == old(log)
    {
      if !RoleGate(users, caller, UserRole) {
        return Forbidden;
      }
      var fromUser := users[caller];
      if !pinMatches(pin, fromUser.pinHash) {
        return InvalidPin;
      }
      if !(fromUser.balance >= amount) {
        return InsufficientBalance;
      }
      if to !in users {
        return RecipientNotFound;
      }
      users := Adjust(users, caller, -(amount + SendFee(amount)));
      users := Adjust(users, to, amount);
      log := log + [Txn(caller, to, amount, Send, SendFee(amount), |log|)];
      r := Ok;
    }

    /** `cash-out`: the target must be an account with role agent; on success
        the customer pays amount plus 1.5 percent, the agent receives the
        amount and one `cash-out` record is appended; on any failure nothing
        changes. */
    method CashOut(caller: string, agent: string, amount: real, pin: string) returns (r: Response)
      requires Valid()
      modifies this
      ensures Valid()
      ensures r == CashOutOutcome(old(users), pinMatches, caller, agent, amount, pin)
      ensures r == Ok ==>
        && users == CashOutBalances(old(users), caller, agent, amount)
        && log == old(log) + [Txn(caller, agent, amount, Kind.CashOut, CashOutFee(amount), |old(log)|)]
      ensures r != Ok ==> users == old(users) && log == old(log)
    {
      if !RoleGate(users, caller, UserRole) {
        return Forbidden;
      }
      var fromUser := users[caller];
      if !pinMatches(pin, fromUser.pinHash) {
        return InvalidPin;
      }
      if !(fromUser.balance >= amount) {
        return InsufficientBalance;
      }
      if !RoleGate(users, agent, AgentRole) {
        return AgentNotFound;
      }
      users := Adjust(users, caller, -(amount + CashOutFee(amount)));
      users := Adjust(users, agent, amount);
      log := log + [Txn(caller, agent, amount, Kind.CashOut, CashOutFee(amount), |log|)];
      r := Ok;
    }

    /** `cash-in`: the caller is the customer and is credited, the named agent
        is debited without any look at its balance, one `cash-in` record with
        fee 0 is appended; on any failure nothing changes. */
    method CashIn(caller: string, agent: string, amount: real, pin: string) returns (r: Response)
      requires Valid()
      modifies this
      ensures Valid()
      ensures r == CashInOutcome(old(users), pinMatches, caller, agent, amount, pin)
      ensures r == Ok ==>
        && users == CashInBalances(old(users), caller, agent, amount)
        && log == old(log) + [Txn(agent, caller, amount, Kind.CashIn, 0.0, |old(log)|)]
      ensures r != Ok ==> users == old(users) && log == old(log)
    {
      if !RoleGate(users, caller, UserRole) {
        return Forbidden;
      }
      var toUser := users[caller];
      if !pinMatches(pin, toUser.pinHash) {
        return InvalidPin;
      }
      if !RoleGate(users, agent, AgentRole) {
        return AgentNotFound;
      }
      users := Adjust(users, caller, amount);
      users := Adjust(users, agent, -amount);
      log := log + [Txn(agent, caller, amount, Kind.CashIn, 0.0, |log|)];
      r := Ok;
    }

    /** `balance`: a user's own balance. */
    method Balance(caller: string) returns (r: Query<real>)
      ensures r.Granted? <==> RoleGate(users, caller, UserRole)
      ensures r.Granted? ==> caller in users && r.value == users[caller].balance
    {
      if !RoleGate(users, caller, UserRole) {
        return Denied;
      }
      r := Granted(users[caller].balance);
    }

    /** `agent-balance`: an agent's own balance. */
    method AgentBalance(caller: string) returns (r: Query<real>)
      ensures r.Granted? <==> RoleGate(users, caller, AgentRole)
      ensures r.Granted? ==> caller in users && r.value == users[caller].balance
    {
      if !RoleGate(users, caller, AgentRole) {
        return Denied;
      }
      r := Granted(users[caller].balance);
    }

    /** `transaction-history`: the ten newest records naming the user. */
    method TransactionHistory(caller: string) returns (r: Query<seq<Txn>>)
      requires Valid()
      ensures r.Granted? <==> RoleGate(users, caller, UserRole)
      ensures r.Granted? ==>
        && r.value == Take(Reversed(Filter(log, caller)), HistoryLimit)
        && |r.value| <= HistoryLimit
        && (forall t :: t in r.value ==> t in log && Involves(t, caller))
        && DatesDescending(r.value)
    {
      if !RoleGate(users, caller, UserRole) {
        return Denied;
      }
      HistoryCorrect(log, caller);
      r := Granted(History(log, caller));
    }

    /** `agent-transactions`: the ten newest records naming the agent. */
    method AgentTransactions(caller: string) returns (r: Query<seq<Txn>>)
      requires Valid()
      ensures r.Granted? <==> RoleGate(users, caller, AgentRole)
      ensures r.Granted? ==>
        && r.value == Take(Reversed(Filter(log, caller)), HistoryLimit)
        && |r.value| <= HistoryLimit
        && (forall t :: t in r.value ==> t in log && Involves(t, caller))
        && DatesDescending(r.value)
    {
      if !RoleGate(users, caller, AgentRole) {
        return Denied;
      }
      HistoryCorrect(log, caller);
      r := Granted(History(log, caller));
    }
  }
}
