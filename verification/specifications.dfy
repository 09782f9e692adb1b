/** Query predicates over ledger entries, their conjunction, the repository's
    findAll(Specification), and the bank statement built from them.
    A predicate whose argument is null compares against SQL NULL and so
    matches no entry. */
module Specifications {
  import opened Wrappers
  import opened Entity
  import opened Dto

  /** A Specification<Transference>: one of the three predicates of
      TransferenceSpecifications, or the conjunction Specification.and. */
  datatype Specification =
    | WithAccountId(accountId: Option<int>)
    | WithInitDateAndEndDate(initDate: Option<Timestamp>, endDate: Option<Timestamp>)
    | WithTransactionOperator(transactionOperator: Option<string>)
    | And(left: Specification, right: Specification)

  /** Whether an entry satisfies a specification. Each SQL comparison with a
      null column fails, so only a saved account's entries match an account
      predicate, only dated entries within a non-empty range match a date
      predicate, and only entries with a counterparty match a counterparty
      predicate. */
  predicate Matches(spec: Specification, t: Transference)
    ensures Matches(spec, t) && spec.WithAccountId? ==> t.account.id.Some?
    ensures Matches(spec, t) && spec.WithInitDateAndEndDate? ==>
      && t.transferenceDate.Some? && spec.initDate.Some? && spec.endDate.Some?
      && spec.initDate.value <= spec.endDate.value
    ensures Matches(spec, t) && spec.WithTransactionOperator? ==> t.transactionOperatorName.Some?
  {
    match spec
    case WithAccountId(id) =>
      id.Some? && t.account.id == id
    case WithInitDateAndEndDate(initDate, endDate) =>
      && initDate.Some? && endDate.Some? && t.transferenceDate.Some?
      && initDate.value <= t.transferenceDate.value <= endDate.value
    case WithTransactionOperator(name) =>
      name.Some? && t.transactionOperatorName == name
    case And(left, right) =>
      Matches(left, t) && Matches(right, t)
  }

  /** `xs` is `ys` with some elements left out, the rest kept in order. */
  predicate IsSubsequence<T(==)>(xs: seq<T>, ys: seq<T>)
    decreases |ys|
  {
    if ys == [] then xs == []
    else (xs != [] && xs[0] == ys[0] && IsSubsequence(xs[1..], ys[1..])) || IsSubsequence(xs, ys[1..])
  }

  /** TransferenceRepository.findAll(spec): the matching entries, in the
      store's insertion order. */
  function FindAll(entries: seq<Transference>, spec: Specification): (r: seq<Transference>)
    ensures |r| <= |entries|
    ensures forall t :: t in r <==> t in entries && Matches(spec, t)
  {
    if entries == [] then []
    else (if Matches(spec, entries[0]) then [entries[0]] else []) + FindAll(entries[1..], spec)
  }

  /** The result of findAll keeps the store's order. */
  lemma {:induction false} FindAllIsSubsequence(entries: seq<Transference>, spec: Specification)
    ensures IsSubsequence(FindAll(entries, spec), entries)
  {
    if entries != [] {
      FindAllIsSubsequence(entries[1..], spec);
      var rest := FindAll(entries[1..], spec);
      var r := FindAll(entries, spec);
      if Matches(spec, entries[0]) {
        assert r == [entries[0]] + rest;
        assert r[0] == entries[0] && r[1..] == rest;
      } else {
        assert r == rest;
      }
    }
  }

  /** A new entry appended to the store is appended to every result it matches. */
  lemma {:induction false} FindAllAppend(entries: seq<Transference>, t: Transference, spec: Specification)
    ensures FindAll(entries + [t], spec) ==
            FindAll(entries, spec) + (if Matches(spec, t) then [t] else [])
  {
    if entries == [] {
      assert [] + [t] == [t];
      assert FindAll([t], spec) == (if Matches(spec, t) then [t] else []) + FindAll([], spec);
    } else {
      assert (entries + [t])[1..] == entries[1..] + [t];
      FindAllAppend(entries[1..], t, spec);
    }
  }

  /** Specifications that hold of the same entries select the same entries. */
  lemma {:induction false} FindAllExtensional(entries: seq<Transference>, a: Specification, b: Specification)
    requires forall t :: Matches(a, t) <==> Matches(b, t)
    ensures FindAll(entries, a) == FindAll(entries, b)
  {
    if entries != [] {
      FindAllExtensional(entries[1..], a, b);
    }
  }

  /** Conjoining a predicate is filtering the first result again. */
  lemma {:induction false} FindAllAnd(entries: seq<Transference>, a: Specification, b: Specification)
    ensures FindAll(entries, And(a, b)) == FindAll(FindAll(entries, a), b)
  {
    if entries != [] {
      FindAllAnd(entries[1..], a, b);
      var rest := FindAll(entries[1..], a);
      if Matches(a, entries[0]) {
        assert FindAll(entries, a) == [entries[0]] + rest;
        assert ([entries[0]] + rest)[1..] == rest;
        assert FindAll([entries[0]] + rest, b) ==
               (if Matches(b, entries[0]) then [entries[0]] else []) + FindAll(rest, b);
      } else {
        assert FindAll(entries, a) == rest;
      }
    }
  }

  /** Adding a predicate never enlarges the result: the narrower result is a
      subsequence of the wider one. */
  lemma AndNeverEnlarges(entries: seq<Transference>, a: Specification, b: Specification)
    ensures IsSubsequence(FindAll(entries, And(a, b)), FindAll(entries, a))
    ensures |FindAll(entries, And(a, b))| <= |FindAll(entries, a)|
  {
    FindAllAnd(entries, a, b);
    FindAllIsSubsequence(FindAll(entries, a), b);
  }

  /** The order in which predicates are conjoined does not matter. */
  lemma AndCommutes(entries: seq<Transference>, a: Specification, b: Specification)
    ensures FindAll(entries, And(a, b)) == FindAll(entries, And(b, a))
  {
    FindAllExtensional(entries, And(a, b), And(b, a));
  }

  /** A specification nothing satisfies gives an empty result, not an error. */
  lemma {:induction false} NoMatchIsEmpty(entries: seq<Transference>, spec: Specification)
    requires forall i :: 0 <= i < |entries| ==> !Matches(spec, entries[i])
    ensures FindAll(entries, spec) == []
  {
    if entries != [] {
      assert forall i :: 0 <= i < |entries[1..]| ==> entries[1..][i] == entries[i + 1];
      NoMatchIsEmpty(entries[1..], spec);
    }
  }

  /** What a statement filter asks of an entry, beyond the account: each
      supplied predicate must hold. The date range counts as supplied only
      when both dates are. */
  predicate FilterAccepts(filter: Option<StatementFilter>, t: Transference)
    // no filter, or a filter without a counterparty and with at most one date, accepts every entry
    ensures filter.None? ==> FilterAccepts(filter, t)
    ensures
      && filter.Some? && filter.value.transactionOperator.None?
      && (filter.value.initDate.None? || filter.value.endDate.None?)
      ==> FilterAccepts(filter, t)
    // a counterparty filter rejects deposits and withdrawals, which have none
    ensures FilterAccepts(filter, t) && filter.Some? && filter.value.transactionOperator.Some? ==>
      t.transactionOperatorName.Some?
  {
    filter.Some? ==>
      && (filter.value.initDate.Some? && filter.value.endDate.Some? ==>
            && t.transferenceDate.Some?
            && filter.value.initDate.value <= t.transferenceDate.value <= filter.value.endDate.value)
      && (filter.value.transactionOperator.Some? ==>
            t.transactionOperatorName == filter.value.transactionOperator)
  }

  /** The specification of a bank statement: the account predicate, AND the
      date predicate when both dates are given, AND the counterparty
      predicate when it is given. */
  function StatementSpecification(accountId: Option<int>, filter: Option<StatementFilter>): (s: Specification)
    ensures forall t :: Matches(s, t) <==> Matches(WithAccountId(accountId), t) && FilterAccepts(filter, t)
  {
    var base := WithAccountId(accountId);
    if filter.None? then base
    else
      var f := filter.value;
      var dated := if f.initDate.Some? && f.endDate.Some?
                   then And(base, WithInitDateAndEndDate(f.initDate, f.endDate)) else base;
      assert forall t :: Matches(dated, t) <==>
        Matches(base, t) && FilterAccepts(Some(StatementFilter(None, f.initDate, f.endDate)), t);
      if f.transactionOperator.Some? then
        var s := And(dated, WithTransactionOperator(f.transactionOperator));
        assert forall t :: Matches(s, t) <==>
          Matches(dated, t) && Matches(WithTransactionOperator(f.transactionOperator), t);
        s
      else dated
  }

  /** getBankStatements: the entries of the account accepted by the filter, in
      the store's order. */
  function BankStatement(entries: seq<Transference>, account: Account, filter: Option<StatementFilter>): (r: seq<Transference>)
    ensures IsSubsequence(r, entries)
    ensures forall t :: t in r <==>
      t in entries && account.id.Some? && t.account.id == account.id && FilterAccepts(filter, t)
  {
    FindAllIsSubsequence(entries, StatementSpecification(account.id, filter));
    FindAll(entries, StatementSpecification(account.id, filter))
  }

  /** With no filter, or a filter with no field given, a statement is the
      account's whole history; any filter narrows that history. */
  lemma StatementNarrowsHistory(entries: seq<Transference>, account: Account, filter: Option<StatementFilter>)
    ensures filter.None? || filter == Some(StatementFilter(None, None, None)) ==>
            BankStatement(entries, account, filter) == FindAll(entries, WithAccountId(account.id))
    ensures IsSubsequence(BankStatement(entries, account, filter), FindAll(entries, WithAccountId(account.id)))
  {
    var s := StatementSpecification(account.id, filter);
    FindAllExtensional(entries, s, And(WithAccountId(account.id), s));
    AndNeverEnlarges(entries, WithAccountId(account.id), s);
  }

  /** An entry written later shows up at the end of exactly the statements
      whose predicates it satisfies. */
  lemma StatementAppend(entries: seq<Transference>, t: Transference, account: Account, filter: Option<StatementFilter>)
    ensures BankStatement(entries + [t], account, filter) ==
            BankStatement(entries, account, filter) +
            (if account.id.Some? && t.account.id == account.id && FilterAccepts(filter, t) then [t] else [])
  {
    FindAllAppend(entries, t, StatementSpecification(account.id, filter));
  }
}
