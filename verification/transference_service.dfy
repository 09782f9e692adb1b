/** TransferenceService: builds ledger entries for deposits, withdrawals and
    transfers and writes them to the transference repository, modelled as the
    sequence of stored entries in insertion order. */
module TransferenceServices {
  import opened Wrappers
  import opened Exceptions
  import opened Entity
  import opened Dto
  import opened Specifications

  /** getDeposit: a `+value` DEPOSIT entry of the account, with no counterparty. */
  function GetDeposit(account: Option<Account>, value: Option<real>): (r: Result<Transference, Error>)
    ensures r.Ok? <==> account.Some? && value.Some?
    ensures value.None? ==> r == Err(NullPointer(ValueMandatory))
    ensures value.Some? && account.None? ==> r == Err(NullPointer(AccountMandatory))
    ensures r.Ok? ==> r.value == Transference(None, None, value.value, DEPOSIT, None, account.value)
  {
    NewTransference(value, Some(DEPOSIT), account, None)
  }

  /** getWithdraw: a `-value` WITHDRAW entry of the account, with no
      counterparty. Negating a null value fails before the constructor runs. */
  function GetWithdraw(account: Option<Account>, value: Option<real>): (r: Result<Transference, Error>)
    ensures r.Ok? <==> account.Some? && value.Some?
    ensures value.None? ==> r == Err(NullPointer(ValueUnboxedWhileNull))
    ensures value.Some? && account.None? ==> r == Err(NullPointer(AccountMandatory))
    ensures r.Ok? ==> r.value == Transference(None, None, -value.value, WITHDRAW, None, account.value)
  {
    if value.None? then Err(NullPointer(ValueUnboxedWhileNull))
    else NewTransference(Some(-value.value), Some(WITHDRAW), account, None)
  }

  /** getOwnerTransference: the paying leg, `-value` on the source account,
      naming the destination's owner. Java evaluates `-value`, then
      `destinationAccount.getOwnerName()`, then the constructor's checks. */
  function GetOwnerTransference(account: Option<Account>, destinationAccount: Option<Account>,
                                value: Option<real>): (r: Result<Transference, Error>)
    ensures r.Ok? <==> account.Some? && destinationAccount.Some? && value.Some?
    ensures value.None? ==> r == Err(NullPointer(ValueUnboxedWhileNull))
    ensures value.Some? && destinationAccount.None? ==> r == Err(NullPointer(DestinationOwnerNameWhileNull))
    ensures value.Some? && destinationAccount.Some? && account.None? ==> r == Err(NullPointer(AccountMandatory))
    ensures r.Ok? ==> r.value == Transference(None, None, -value.value, TRANSFERENCE,
                                              Some(destinationAccount.value.ownerName), account.value)
  {
    if value.None? then Err(NullPointer(ValueUnboxedWhileNull))
    else if destinationAccount.None? then Err(NullPointer(DestinationOwnerNameWhileNull))
    else NewTransference(Some(-value.value), Some(TRANSFERENCE), account,
                         Some(destinationAccount.value.ownerName))
  }

  /** getDestinationTransference: the receiving leg, `+value` on the
      destination account, naming the source's owner. Java evaluates
      `account.getOwnerName()` before the constructor's checks. */
  function GetDestinationTransference(account: Option<Account>, destinationAccount: Option<Account>,
                                      value: Option<real>): (r: Result<Transference, Error>)
    ensures r.Ok? <==> account.Some? && destinationAccount.Some? && value.Some?
    ensures account.None? ==> r == Err(NullPointer(AccountOwnerNameWhileNull))
    ensures account.Some? && value.None? ==> r == Err(NullPointer(ValueMandatory))
    ensures account.Some? && value.Some? && destinationAccount.None? ==> r == Err(NullPointer(AccountMandatory))
    ensures r.Ok? ==> r.value == Transference(None, None, value.value, TRANSFERENCE,
                                              Some(account.value.ownerName), destinationAccount.value)
  {
    if account.None? then Err(NullPointer(AccountOwnerNameWhileNull))
    else NewTransference(value, Some(TRANSFERENCE), destinationAccount, Some(account.value.ownerName))
  }

  /** The two legs realizeTransfer builds before saving anything: the paying
      leg first, then the receiving leg. */
  function TransferLegs(account: Option<Account>, destinationAccount: Option<Account>,
                        value: Option<real>): (r: Result<(Transference, Transference), Error>)
    ensures r.Ok? <==> account.Some? && destinationAccount.Some? && value.Some?
    ensures r.Err? ==> r.error == GetOwnerTransference(account, destinationAccount, value).error
    ensures r.Ok? ==>
      var (source, destination) := r.value;
      // the amounts cancel: -value on the payer, +value on the payee
      && source.value == -value.value && destination.value == value.value
      && source.value + destination.value == 0.0
      && source.kind == TRANSFERENCE && destination.kind == TRANSFERENCE
      && source.account == account.value && destination.account == destinationAccount.value
      // each leg names the other party's owner
      && source.transactionOperatorName == Some(destination.account.ownerName)
      && destination.transactionOperatorName == Some(source.account.ownerName)
      && source.id == None && destination.id == None
  {
    match GetOwnerTransference(account, destinationAccount, value)
    case Err(e) => Err(e)
    case Ok(source) =>
      var destination := GetDestinationTransference(account, destinationAccount, value);
      Ok((source, destination.value))
  }

  /** An entry as the store keeps it: with its generated id and creation time. */
  function Stamped(t: Transference, id: int, now: Timestamp): (r: Transference)
    ensures r.id == Some(id) && r.transferenceDate == Some(now)
    // nothing else about the entry changes
    ensures r.(id := t.id, transferenceDate := t.transferenceDate) == t
  {
    t.(id := Some(id), transferenceDate := Some(now))
  }

  /** A saved entry equals, as an object of another identity, exactly the
      entries that carry its generated id. */
  lemma StampedEqualsById(t: Transference, id: int, now: Timestamp, u: Transference)
    ensures TransferenceEquals(Stamped(t, id, now), Some(u), false) <==> u.id == Some(id)
  {
  }

  /** Each leg of a transfer is owned by its own account and names the owner
      of the other leg as its counterparty. */
  lemma LegOwnersCross(account: Account, destinationAccount: Account, value: real)
    ensures TransferLegs(Some(account), Some(destinationAccount), Some(value)).Ok?
    ensures var (source, destination) := TransferLegs(Some(account), Some(destinationAccount), Some(value)).value;
      && OwnerName(source) == account.ownerName && OwnerName(destination) == destinationAccount.ownerName
      && source.transactionOperatorName == Some(OwnerName(destination))
      && destination.transactionOperatorName == Some(OwnerName(source))
  {
  }

  /** The response to a deposit, built from the saved entry, reports the
      account owner's name and the amount deposited. */
  lemma DepositResponseReportsEntry(account: Account, value: real, id: int, now: Timestamp)
    ensures GetDeposit(Some(account), Some(value)).Ok?
    ensures DepositResponseOf(Stamped(GetDeposit(Some(account), Some(value)).value, id, now)) ==
            DepositResponse(account.ownerName, value)
  {
  }

  /** The response to a withdrawal, built from the saved entry, reports the
      account owner's name and the entry's amount, which is the requested
      amount negated. */
  lemma WithdrawResponseReportsEntry(account: Account, value: real, id: int, now: Timestamp)
    ensures GetWithdraw(Some(account), Some(value)).Ok?
    ensures WithdrawResponseOf(Stamped(GetWithdraw(Some(account), Some(value)).value, id, now)) ==
            WithdrawResponse(account.ownerName, -value)
  {
  }

  /** The repository's lookup by id. */
  function IndexOfId(entries: seq<Transference>, id: int): (r: Option<nat>)
    ensures r.Some? ==> r.value < |entries| && entries[r.value].id == Some(id)
    ensures r.None? <==> forall i :: 0 <= i < |entries| ==> entries[i].id != Some(id)
  {
    if entries == [] then None
    else if entries[0].id == Some(id) then Some(0)
    else match IndexOfId(entries[1..], id)
      case None => None
      case Some(k) => Some(k + 1)
  }

  /** What the store guarantees of its entries: each has an id below `nextId`
      and a creation time, and ids increase in insertion order. */
  ghost predicate Stored(entries: seq<Transference>, nextId: int)
  {
    && (forall i :: 0 <= i < |entries| ==>
          entries[i].id.Some? && 1 <= entries[i].id.value < nextId && entries[i].transferenceDate.Some?)
    && (forall i, j :: 0 <= i < j < |entries| && entries[i].id.Some? && entries[j].id.Some? ==>
          entries[i].id.value < entries[j].id.value)
  }

  /** In a store, two different positions hold different ids. */
  lemma StoredIdsDistinct(entries: seq<Transference>, nextId: int, i: int, j: int)
    requires Stored(entries, nextId)
    requires 0 <= i < |entries| && 0 <= j < |entries| && i != j
    ensures entries[i].id != entries[j].id
  {
  }

  class TransferenceService {
    /** The repository: every stored entry, in insertion order. */
    var entries: seq<Transference>
    /** The next id the store will generate. */
    var nextId: int

    ghost predicate Valid()
      reads this
    {
      nextId >= 1 && Stored(entries, nextId)
    }

    constructor ()
      ensures Valid() && entries == [] && nextId == 1
    {
      entries := [];
      nextId := 1;
    }

    /** save: the store assigns the next id and the creation time, appends
        the entry and returns it as saved. */
    method Save(transference: Transference, now: Timestamp) returns (saved: Transference)
      requires Valid() && transference.id == None
      modifies this
      ensures Valid()
      ensures saved == Stamped(transference, old(nextId), now)
      ensures entries == old(entries) + [saved] && nextId == old(nextId) + 1
    {
      saved := Stamped(transference, nextId, now);
      entries := entries + [saved];
      nextId := nextId + 1;
    }

    /** findById: the stored entry with that id, or IllegalArgumentException. */
    method FindById(id: int) returns (r: Result<Transference, Error>)
      requires Valid()
      ensures r.Ok? <==> exists i :: 0 <= i < |entries| && entries[i].id == Some(id)
      ensures r.Ok? ==> r.value in entries && r.value.id == Some(id)
      ensures r.Err? ==> r.error == IllegalArgument(NonExistingIdMessage)
    {
      var k := IndexOfId(entries, id);
      if k.None? {
        r := Err(IllegalArgument(NonExistingIdMessage));
      } else {
        r := Ok(entries[k.value]);
      }
    }

    /** delete: looks the entry up first, so an absent id fails and removes
        nothing; a present id removes exactly that one entry. */
    method Delete(id: int) returns (r: Result<(), Error>)
      requires Valid()
      modifies this
      ensures Valid() && nextId == old(nextId)
      ensures r.Err? <==> forall i :: 0 <= i < |old(entries)| ==> old(entries)[i].id != Some(id)
      ensures r.Err? ==> r.error == IllegalArgument(NonExistingIdMessage) && entries == old(entries)
      ensures r.Ok? ==> |entries| == |old(entries)| - 1
      ensures r.Ok? ==> forall t :: t in entries <==> t in old(entries) && t.id != Some(id)
      ensures IsSubsequence(entries, old(entries))
    {
      var found := FindById(id);
      if found.Err? {
        RemoveNothing(entries);
        return Err(found.error);
      }
      var k := IndexOfId(entries, id);
      ghost var before := entries;
      entries := entries[..k.value] + entries[k.value + 1..];
      RemoveOne(before, nextId, k.value, id);
      r := Ok(());
    }

    /** Every entry of the account accepted by the filter, in insertion order
        (the getBankStatements of the service's interface). */
    function GetBankStatements(account: Account, filter: Option<StatementFilter>): (r: seq<Transference>)
      reads this
      ensures IsSubsequence(r, entries)
      ensures forall t :: t in r <==>
        t in entries && account.id.Some? && t.account.id == account.id && FilterAccepts(filter, t)
    {
      BankStatement(entries, account, filter)
    }

    /** deposit: saves the DEPOSIT entry and returns it as saved; nothing is
        saved when the entry cannot be built. */
    method Deposit(account: Option<Account>, value: Option<real>, now: Timestamp) returns (r: Result<Transference, Error>)
      requires Valid()
      modifies this
      ensures Valid()
      ensures GetDeposit(account, value).Err? ==>
        r == Err(GetDeposit(account, value).error) && entries == old(entries) && nextId == old(nextId)
      ensures GetDeposit(account, value).Ok? ==>
        && r == Ok(Stamped(GetDeposit(account, value).value, old(nextId), now))
        && entries == old(entries) + [r.value] && nextId == old(nextId) + 1
    {
      var deposit := GetDeposit(account, value);
      if deposit.Err? {
        return Err(deposit.error);
      }
      var saved := Save(deposit.value, now);
      r := Ok(saved);
    }

    /** withdraw: saves the WITHDRAW entry and returns it as saved; nothing is
        saved when the entry cannot be built. */
    method Withdraw(account: Option<Account>, value: Option<real>, now: Timestamp) returns (r: Result<Transference, Error>)
      requires Valid()
      modifies this
      ensures Valid()
      ensures GetWithdraw(account, value).Err? ==>
        r == Err(GetWithdraw(account, value).error) && entries == old(entries) && nextId == old(nextId)
      ensures GetWithdraw(account, value).Ok? ==>
        && r == Ok(Stamped(GetWithdraw(account, value).value, old(nextId), now))
        && entries == old(entries) + [r.value] && nextId == old(nextId) + 1
    {
      var withdraw := GetWithdraw(account, value);
      if withdraw.Err? {
        return Err(withdraw.error);
      }
      var saved := Save(withdraw.value, now);
      r := Ok(saved);
    }

    /** realizeTransfer: builds both legs, then saves the paying leg and the
        receiving leg in that order and returns the saved paying leg. A leg
        that cannot be built fails before anything is saved. */
    method RealizeTransfer(account: Option<Account>, destinationAccount: Option<Account>,
                           value: Option<real>, now: Timestamp) returns (r: Result<Transference, Error>)
      requires Valid()
      modifies this
      ensures Valid()
      ensures TransferLegs(account, destinationAccount, value).Err? ==>
        && r == Err(TransferLegs(account, destinationAccount, value).error)
        && entries == old(entries) && nextId == old(nextId)
      ensures TransferLegs(account, destinationAccount, value).Ok? ==>
        var (source, destination) := TransferLegs(account, destinationAccount, value).value;
        && r == Ok(Stamped(source, old(nextId), now))
        && entries == old(entries) + [Stamped(source, old(nextId), now), Stamped(destination, old(nextId) + 1, now)]
        && nextId == old(nextId) + 2
    {
      var transference := GetOwnerTransference(account, destinationAccount, value);
      if transference.Err? {
        return Err(transference.error);
      }
      var destinationTransference := GetDestinationTransference(account, destinationAccount, value);
      var saved := Save(transference.value, now);
      var _ := Save(destinationTransference.value, now);
      r := Ok(saved);
    }
  }

  /** A failed lookup leaves the sequence a subsequence of itself. */
  lemma {:induction false} RemoveNothing(entries: seq<Transference>)
    ensures IsSubsequence(entries, entries)
  {
    if entries != [] {
      RemoveNothing(entries[1..]);
    }
  }

  /** Cutting out the entry at index k keeps a store, removes that entry's
      id and nothing else, and keeps the order. */
  lemma RemoveOne(before: seq<Transference>, nextId: int, k: nat, id: int)
    requires Stored(before, nextId) && k < |before| && before[k].id == Some(id)
    ensures var after := before[..k] + before[k + 1..];
      && Stored(after, nextId)
      && |after| == |before| - 1
      && (forall t :: t in after <==> t in before && t.id != Some(id))
      && IsSubsequence(after, before)
  {
    var after := before[..k] + before[k + 1..];
    DropAtIndex(before, k, after);
    RemoveOneStored(before, nextId, k);
    forall t | t in before && t.id != Some(id) ensures t in after {
      var i :| 0 <= i < |before| && before[i] == t;
      assert after[if i < k then i else i - 1] == t;
    }
    forall t | t in after ensures t in before && t.id != Some(id) {
      var i :| 0 <= i < |after| && after[i] == t;
      var j := if i < k then i else i + 1;
      assert before[j] == t;
      StoredIdsDistinct(before, nextId, j, k);
    }
    DropAt(before, k);
  }

  /** Where each element of the shortened sequence came from. */
  lemma DropAtIndex(s: seq<Transference>, k: nat, after: seq<Transference>)
    requires k < |s| && after == s[..k] + s[k + 1..]
    ensures |after| == |s| - 1
    ensures forall i :: 0 <= i < k ==> after[i] == s[i]
    ensures forall i :: k <= i < |after| ==> after[i] == s[i + 1]
  {
  }

  /** Cutting out one entry keeps the store's guarantees. */
  lemma RemoveOneStored(before: seq<Transference>, nextId: int, k: nat)
    requires Stored(before, nextId) && k < |before|
    ensures Stored(before[..k] + before[k + 1..], nextId)
  {
  }

  /** Cutting out one element leaves a subsequence. */
  lemma {:induction false} DropAt(s: seq<Transference>, k: nat)
    requires k < |s|
    ensures IsSubsequence(s[..k] + s[k + 1..], s)
  {
    if k == 0 {
      assert s[..0] + s[1..] == s[1..];
      RemoveNothing(s[1..]);
    } else {
      DropAt(s[1..], k - 1);
      var xs := s[..k] + s[k + 1..];
      assert xs[0] == s[0];
      assert xs[1..] == s[1..][..k - 1] + s[1..][k..];
    }
  }
}
