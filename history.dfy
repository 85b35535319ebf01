/** The history query of `transaction-history` and `agent-transactions`:
    the records in which the caller is sender or recipient, newest first, at
    most ten of them. Recency is position in the log. */
module Queries {
  import opened Store

  const HistoryLimit: nat := 10

  predicate Involves(t: Txn, email: string)
  {
    t.from == email || t.to == email
  }

  /** The `$or` filter, keeping log order. */
  function Filter(log: seq<Txn>, email: string): (r: seq<Txn>)
    ensures |r| <= |log|
  {
    if log == [] then []
    else (if Involves(log[0], email) then [log[0]] else []) + Filter(log[1..], email)
  }

  function Reversed(s: seq<Txn>): (r: seq<Txn>)
  {
    if s == [] then [] else Reversed(s[1..]) + [s[0]]
  }

  function Take(s: seq<Txn>, n: nat): (r: seq<Txn>)
  {
    if |s| <= n then s else s[..n]
  }

  /** Walks the log from its newest record backwards and collects up to `n`
      records that involve `email`. */
  function Recent(log: seq<Txn>, email: string, n: nat): (r: seq<Txn>)
    ensures |r| <= n
    ensures forall t :: t in r ==> t in log && Involves(t, email)
    decreases |log|
  {
    if n == 0 || log == [] then []
    else
      var last := log[|log| - 1];
      if Involves(last, email) then [last] + Recent(log[..|log| - 1], email, n - 1)
      else Recent(log[..|log| - 1], email, n)
  }

  /** The history the two endpoints return. */
  function History(log: seq<Txn>, email: string): (r: seq<Txn>)
    ensures |r| <= HistoryLimit
    ensures forall t :: t in r ==> t in log && Involves(t, email)
  {
    Recent(log, email, HistoryLimit)
  }

  /** The filter keeps exactly the records that name `email`. */
  lemma {:induction false} FilterMembers(log: seq<Txn>, email: string)
    ensures forall t :: t in Filter(log, email) <==> t in log && Involves(t, email)
  {
    if log != [] {
      FilterMembers(log[1..], email);
      assert log == [log[0]] + log[1..];
    }
  }

  lemma {:induction false} FilterAppend(log: seq<Txn>, t: Txn, email: string)
    ensures Filter(log + [t], email) == Filter(log, email) + (if Involves(t, email) then [t] else [])
  {
    if log == [] {
      assert [t][1..] == [];
    } else {
      var head := if Involves(log[0], email) then [log[0]] else [];
      var tail := if Involves(t, email) then [t] else [];
      assert (log + [t])[0] == log[0];
      assert (log + [t])[1..] == log[1..] + [t];
      FilterAppend(log[1..], t, email);
      calc {
        Filter(log + [t], email);
        head + Filter(log[1..] + [t], email);
        head + (Filter(log[1..], email) + tail);
        (head + Filter(log[1..], email)) + tail;
        Filter(log, email) + tail;
      }
    }
  }

  lemma {:induction false} ReversedAppend(s: seq<Txn>, t: Txn)
    ensures Reversed(s + [t]) == [t] + Reversed(s)
  {
    if s == [] {
      assert [t][1..] == [];
    } else {
      assert (s + [t])[1..] == s[1..] + [t];
      ReversedAppend(s[1..], t);
    }
  }

  /** The backwards walk is the query as the database states it: filter,
      sort newest first, keep the first `n`. */
  lemma {:induction false} RecentIsQuery(log: seq<Txn>, email: string, n: nat)
    ensures Recent(log, email, n) == Take(Reversed(Filter(log, email)), n)
    decreases |log|
  {
    if log == [] {
    } else {
      var init, last := log[..|log| - 1], log[|log| - 1];
      assert log == init + [last];
      FilterAppend(init, last, email);
      if Involves(last, email) {
        ReversedAppend(Filter(init, email), last);
        if n > 0 {
          RecentIsQuery(init, email, n - 1);
        }
      } else {
        assert Filter(log, email) == Filter(init, email);
        RecentIsQuery(init, email, n);
      }
    }
  }

  lemma {:induction false} ReversedLength(s: seq<Txn>)
    ensures |Reversed(s)| == |s|
  {
    if s != [] {
      ReversedLength(s[1..]);
    }
  }

  /** Dates increase along the log. */
  ghost predicate Chronological(log: seq<Txn>)
  {
    forall i, j :: 0 <= i < j < |log| ==> log[i].date < log[j].date
  }

  ghost predicate DatesDescending(r: seq<Txn>)
  {
    forall i, j :: 0 <= i < j < |r| ==> r[i].date > r[j].date
  }

  /** Dropping the newest record keeps the log chronological, and every
      record left is older than the one dropped. */
  lemma ChronologicalInit(log: seq<Txn>)
    requires Chronological(log) && log != []
    ensures Chronological(log[..|log| - 1])
    ensures forall t :: t in log[..|log| - 1] ==> t.date < log[|log| - 1].date
  {
    forall t | t in log[..|log| - 1]
      ensures t.date < log[|log| - 1].date
    {
      var k :| 0 <= k < |log| - 1 && log[..|log| - 1][k] == t;
    }
  }

  /** A record newer than all of a newest-first list can go in front of it. */
  lemma PrependNewest(t: Txn, rest: seq<Txn>)
    requires DatesDescending(rest)
    requires forall u :: u in rest ==> u.date < t.date
    ensures DatesDescending([t] + rest)
  {
    var r := [t] + rest;
    forall i, j | 0 <= i < j < |r|
      ensures r[i].date > r[j].date
    {
      assert r[j] == rest[j - 1];
      if i > 0 {
        assert r[i] == rest[i - 1];
      }
    }
  }

  /** On a log whose dates increase, the walk returns records in strictly
      decreasing date order. */
  lemma {:induction false} RecentNewestFirst(log: seq<Txn>, email: string, n: nat)
    requires Chronological(log)
    ensures DatesDescending(Recent(log, email, n))
    decreases |log|
  {
    if n > 0 && log != [] {
      var init, last := log[..|log| - 1], log[|log| - 1];
      var m: nat := if Involves(last, email) then n - 1 else n;
      ChronologicalInit(log);
      RecentNewestFirst(init, email, m);
      if Involves(last, email) {
        PrependNewest(last, Recent(init, email, m));
      }
    }
  }

  /** What the history endpoints promise: at most ten records, each naming
      the caller, newest first, and exactly the ten newest such records (or
      all of them when there are fewer). */
  lemma HistoryCorrect(log: seq<Txn>, email: string)
    requires Chronological(log)
    ensures var r := History(log, email);
      && r == Take(Reversed(Filter(log, email)), HistoryLimit)
      && |r| == (if |Filter(log, email)| < HistoryLimit then |Filter(log, email)| else HistoryLimit)
      && (forall t :: t in r ==> t in log && Involves(t, email))
      && DatesDescending(r)
  {
    RecentIsQuery(log, email, HistoryLimit);
    ReversedLength(Filter(log, email));
    RecentNewestFirst(log, email, HistoryLimit);
  }
}
