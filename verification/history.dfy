/**
 Sequences of calls on the registry, as the menu issues them one after
 another, and the properties that hold of every state such a sequence can
 reach: keys stay consistent, accounts are never removed or renamed, and
 balances stay non-negative as long as no account is opened below zero.
 */
module History {
  import A = AccountModel
  import L = LedgerModel

  /** One call on the registry. */
  datatype Request =
    | CreateReq(number: string, holder: string, initialDeposit: real)
    | DepositReq(number: string, amount: real)
    | WithdrawReq(number: string, amount: real)
    | CheckReq(number: string)

  /** The request does not open an account below zero. */
  predicate OpensSolvent(q: Request)
  {
    q.CreateReq? ==> q.initialDeposit >= 0.0
  }

  /** One call: its outcome and the registry afterwards. */
  function Step(l: L.Ledger, q: Request): (r: (A.Status, L.Ledger))
    ensures r.0 != A.Ok ==> r.1 == l
    ensures q.CheckReq? ==> r.1 == l
    ensures !q.CreateReq? && q.number !in l ==> r == (A.AccountNotFound, l)
    ensures q.CreateReq? && q.number in l ==> r == (A.AccountExists, l)
    ensures l.Keys <= r.1.Keys
    ensures forall k | k in l :: A.SameIdentity(l[k], r.1[k])
    ensures L.KeysMatch(l) ==> L.KeysMatch(r.1)
    ensures L.Solvent(l) && OpensSolvent(q) ==> L.Solvent(r.1)
  {
    match q
    case CreateReq(n, h, d) => L.CreateAccount(l, n, h, d)
    case DepositReq(n, x) => L.DepositToAccount(l, n, x)
    case WithdrawReq(n, x) => L.WithdrawFromAccount(l, n, x)
    case CheckReq(n) => (if n in l then A.Ok else A.AccountNotFound, l)
  }

  /** The registry after a whole sequence of calls. */
  function Run(l: L.Ledger, qs: seq<Request>): L.Ledger
    decreases |qs|
  {
    if qs == [] then l else Run(Step(l, qs[0]).1, qs[1..])
  }

  /** Running two sequences one after the other is running their concatenation. */
  lemma {:induction false} RunAppend(l: L.Ledger, xs: seq<Request>, ys: seq<Request>)
    ensures Run(l, xs + ys) == Run(Run(l, xs), ys)
    decreases |xs|
  {
    if xs != [] {
      assert (xs + ys)[0] == xs[0];
      assert (xs + ys)[1..] == xs[1..] + ys;
      RunAppend(Step(l, xs[0]).1, xs[1..], ys);
    } else {
      assert xs + ys == ys;
    }
  }

  /** Every key keeps naming its own account, whatever is called. */
  lemma {:induction false} RunKeepsKeysMatch(l: L.Ledger, qs: seq<Request>)
    requires L.KeysMatch(l)
    ensures L.KeysMatch(Run(l, qs))
    decreases |qs|
  {
    if qs != [] {
      RunKeepsKeysMatch(Step(l, qs[0]).1, qs[1..]);
    }
  }

  /** No account is ever removed, and its number and holder never change. */
  lemma {:induction false} RunKeepsAccounts(l: L.Ledger, qs: seq<Request>)
    ensures l.Keys <= Run(l, qs).Keys
    ensures forall k | k in l :: A.SameIdentity(l[k], Run(l, qs)[k])
    decreases |qs|
  {
    if qs != [] {
      var l1 := Step(l, qs[0]).1;
      RunKeepsAccounts(l1, qs[1..]);
      assert forall k | k in l :: A.SameIdentity(l[k], l1[k]);
    }
  }

  /** Deposits and withdrawals never drive a balance below zero: only an
      account opened with a negative initial deposit can hold one. */
  lemma {:induction false} RunKeepsSolvent(l: L.Ledger, qs: seq<Request>)
    requires L.Solvent(l)
    requires forall i | 0 <= i < |qs| :: OpensSolvent(qs[i])
    ensures L.Solvent(Run(l, qs))
    decreases |qs|
  {
    if qs != [] {
      assert OpensSolvent(qs[0]);
      RunKeepsSolvent(Step(l, qs[0]).1, qs[1..]);
    }
  }

  /** Starting from the empty registry, every reachable registry has
      consistent keys. */
  lemma ReachableKeysMatch(qs: seq<Request>)
    ensures L.KeysMatch(Run(map[], qs))
  {
    RunKeepsKeysMatch(map[], qs);
  }

  /** A run of deposits of the given amounts into one account. */
  function Deposits(number: string, amounts: seq<real>): (qs: seq<Request>)
    ensures |qs| == |amounts|
    ensures forall i | 0 <= i < |qs| :: qs[i] == DepositReq(number, amounts[i])
  {
    if amounts == [] then [] else [DepositReq(number, amounts[0])] + Deposits(number, amounts[1..])
  }

  /** What one deposit of the amount credits. */
  function Gain(amount: real): real
  {
    if amount > 0.0 then amount else 0.0
  }

  /** The part of the amounts a deposit actually credits: the positive ones. */
  function Credited(amounts: seq<real>): real
  {
    if amounts == [] then 0.0 else Gain(amounts[0]) + Credited(amounts[1..])
  }

  lemma {:induction false} CreditedAppend(xs: seq<real>, ys: seq<real>)
    ensures Credited(xs + ys) == Credited(xs) + Credited(ys)
  {
    if xs != [] {
      assert (xs + ys)[0] == xs[0];
      assert (xs + ys)[1..] == xs[1..] + ys;
      CreditedAppend(xs[1..], ys);
    } else {
      assert xs + ys == ys;
    }
  }

  /** The registry with total added to the balance of the account under
      number, if there is one. */
  function Credit(l: L.Ledger, number: string, total: real): L.Ledger
  {
    if number in l then l[number := l[number].(balance := l[number].balance + total)] else l
  }

  /** A series of deposits into one account raises its balance by exactly the
      sum of the positive amounts and changes nothing else; into a missing
      account it changes nothing. */
  lemma {:induction false} DepositsAccumulate(l: L.Ledger, number: string, amounts: seq<real>)
    ensures Run(l, Deposits(number, amounts)) == Credit(l, number, Credited(amounts))
    decreases |amounts|
  {
    if amounts != [] {
      var qs := Deposits(number, amounts);
      assert qs[0] == DepositReq(number, amounts[0]);
      assert qs[1..] == Deposits(number, amounts[1..]);
      DepositsAccumulate(Step(l, qs[0]).1, number, amounts[1..]);
    }
  }

  /** The order of deposits does not matter to the final registry. */
  lemma DepositsCommute(l: L.Ledger, number: string, xs: seq<real>, ys: seq<real>)
    ensures Run(l, Deposits(number, xs + ys)) == Run(l, Deposits(number, ys + xs))
  {
    DepositsAccumulate(l, number, xs + ys);
    DepositsAccumulate(l, number, ys + xs);
    CreditedAppend(xs, ys);
    CreditedAppend(ys, xs);
  }

  /** Taking one amount out of the series takes its gain out of the total. */
  lemma CreditedAt(ys: seq<real>, i: nat)
    requires i < |ys|
    ensures Credited(ys) == Gain(ys[i]) + Credited(ys[..i] + ys[i + 1..])
  {
    var pre, post := ys[..i], ys[i + 1..];
    assert ys == pre + ([ys[i]] + post);
    CreditedAppend(pre, [ys[i]] + post);
    assert ([ys[i]] + post)[1..] == post;
    CreditedAppend(pre, post);
  }

  /** Removing the element at i removes one occurrence of it from the multiset. */
  lemma MultisetRemoveAt(ys: seq<real>, i: nat)
    requires i < |ys|
    ensures multiset(ys[..i] + ys[i + 1..]) == multiset(ys) - multiset{ys[i]}
  {
    assert ys == ys[..i] + [ys[i]] + ys[i + 1..];
  }

  /** Credited depends only on which amounts there are, not on their order. */
  lemma {:induction false} CreditedPermutation(xs: seq<real>, ys: seq<real>)
    requires multiset(xs) == multiset(ys)
    ensures Credited(xs) == Credited(ys)
    decreases |xs|
  {
    if xs == [] {
      assert |ys| == |multiset(ys)| == 0;
    } else {
      var i := IndexOf(ys, xs[0]);
      var rest := ys[..i] + ys[i + 1..];
      assert multiset(xs[1..]) == multiset(rest) by {
        MultisetRemoveAt(ys, i);
        MultisetRemoveAt(xs, 0);
        assert xs[..0] + xs[1..] == xs[1..];
      }
      calc {
        Credited(xs);
        Gain(xs[0]) + Credited(xs[1..]);
        { CreditedPermutation(xs[1..], rest); }
        Gain(ys[i]) + Credited(rest);
        { CreditedAt(ys, i); }
        Credited(ys);
      }
    }
  }

  /** A position at which x occurs in ys. */
  lemma IndexOf(ys: seq<real>, x: real) returns (i: nat)
    requires x in multiset(ys)
    ensures i < |ys| && ys[i] == x
  {
    assert x in ys;
    i :| i < |ys| && ys[i] == x;
  }

  /** Any reordering of a series of deposits into one account leaves the same
      final registry. */
  lemma DepositsReorder(l: L.Ledger, number: string, xs: seq<real>, ys: seq<real>)
    requires multiset(xs) == multiset(ys)
    ensures Run(l, Deposits(number, xs)) == Run(l, Deposits(number, ys))
  {
    DepositsAccumulate(l, number, xs);
    DepositsAccumulate(l, number, ys);
    CreditedPermutation(xs, ys);
  }

  /** A call that fails, or a balance check, changes nothing: it can be
      removed from any sequence of calls without changing the final registry. */
  lemma IneffectiveCallErasable(l: L.Ledger, xs: seq<Request>, q: Request, ys: seq<Request>)
    requires Step(Run(l, xs), q).0 != A.Ok || q.CheckReq?
    ensures Run(l, xs + [q] + ys) == Run(l, xs + ys)
  {
    RunAppend(l, xs + [q], ys);
    RunAppend(l, xs, [q]);
    RunAppend(l, xs, ys);
    assert [q][1..] == [];
  }
}
