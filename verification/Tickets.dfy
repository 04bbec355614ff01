/**
 The ticket table of one lane. Ticket number t (counted from 1) is entry t-1 of the table, which records
 what became of that admission. The table is history: the engine keeps only the two counters `admitted`
 and `settled`, and the proofs show what those counters know about it.
 */
module Tickets {

  datatype Fate = InSend(producer: nat) | WasSent | GaveUp

  datatype Kind = SendKind | SentKind | GaveUpKind

  function KindOf(f: Fate): Kind {
    match f
    case InSend(_) => SendKind
    case WasSent => SentKind
    case GaveUp => GaveUpKind
  }

  function One(f: Fate, k: Kind): nat {
    if KindOf(f) == k then 1 else 0
  }

  /** How many of the first n tickets met a fate of kind k. */
  function Tally(s: seq<Fate>, n: nat, k: Kind): nat
    requires n <= |s|
  {
    if n == 0 then 0 else Tally(s, n - 1, k) + One(s[n - 1], k)
  }

  lemma {:induction false} TallyAppend(s: seq<Fate>, f: Fate, n: nat, k: Kind)
    requires n <= |s|
    ensures Tally(s + [f], n, k) == Tally(s, n, k)
  {
    if n > 0 {
      TallyAppend(s, f, n - 1, k);
    }
  }

  lemma {:induction false} TallyUpdate(s: seq<Fate>, i: nat, f: Fate, n: nat, k: Kind)
    requires i < |s| && n <= |s|
    ensures Tally(s[i := f], n, k) == Tally(s, n, k) + (if i < n then One(f, k) - One(s[i], k) else 0)
  {
    if n > 0 {
      TallyUpdate(s, i, f, n - 1, k);
    }
  }

  /** Every ticket has exactly one fate, so the three tallies add up. */
  lemma {:induction false} TallyTotal(s: seq<Fate>, n: nat)
    requires n <= |s|
    ensures Tally(s, n, SendKind) + Tally(s, n, SentKind) + Tally(s, n, GaveUpKind) == n
  {
    if n > 0 {
      TallyTotal(s, n - 1);
    }
  }

  lemma {:induction false} TallyMonotone(s: seq<Fate>, m: nat, n: nat, k: Kind)
    requires m <= n <= |s|
    ensures Tally(s, m, k) <= Tally(s, n, k) <= Tally(s, m, k) + (n - m)
  {
    if m < n {
      TallyMonotone(s, m, n - 1, k);
    }
  }

  lemma {:induction false} TallyNone(s: seq<Fate>, n: nat, k: Kind)
    requires n <= |s|
    requires forall i :: 0 <= i < n ==> KindOf(s[i]) != k
    ensures Tally(s, n, k) == 0
  {
    if n > 0 {
      TallyNone(s, n - 1, k);
    }
  }
}
