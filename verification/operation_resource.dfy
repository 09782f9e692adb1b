/** OperationResource: the three money-moving endpoints. Each validates its
    request body, looks the accounts up and hands over to the transference
    service; the ledger it builds obeys the conventions stated here. */
module Controller {
  import opened Wrappers
  import opened Exceptions
  import opened Entity
  import opened Dto
  import opened Specifications
  import opened TransferenceServices
  import opened AccountServices

  /** A deposit entry: at least the minimum deposit, on the account itself. */
  predicate IsDepositEntry(t: Transference)
  {
    t.kind == DEPOSIT && t.value >= MinDepositValue as real && t.transactionOperatorName.None?
  }

  /** A withdrawal entry: at least the minimum withdrawal taken out. */
  predicate IsWithdrawEntry(t: Transference)
  {
    t.kind == WITHDRAW && t.value <= -(MinWithdrawValue as real) && t.transactionOperatorName.None?
  }

  /** The two legs of one transfer: the payer's non-positive leg and the
      payee's leg cancel, each names the other party's owner, and the two
      accounts are different stored accounts. */
  predicate IsTransferPair(source: Transference, destination: Transference)
  {
    && source.kind == TRANSFERENCE && destination.kind == TRANSFERENCE
    && source.value <= 0.0 && source.value + destination.value == 0.0
    && source.transactionOperatorName == Some(destination.account.ownerName)
    && destination.transactionOperatorName == Some(source.account.ownerName)
    && source.account.id.Some? && destination.account.id.Some?
    && source.account.id != destination.account.id
  }

  /** The first `n` entries form the ledger the endpoints write: a history of
      single deposit and withdrawal entries and of transfer pairs stored one
      right after the other, payer first. */
  predicate LedgerUpTo(entries: seq<Transference>, n: nat)
    requires n <= |entries|
    decreases n
  {
    if n == 0 then true
    else if entries[n - 1].kind == TRANSFERENCE then
      n >= 2 && IsTransferPair(entries[n - 2], entries[n - 1]) && LedgerUpTo(entries, n - 2)
    else
      (IsDepositEntry(entries[n - 1]) || IsWithdrawEntry(entries[n - 1])) && LedgerUpTo(entries, n - 1)
  }

  /** The whole sequence of entries forms a ledger. */
  predicate Ledger(entries: seq<Transference>)
  {
    LedgerUpTo(entries, |entries|)
  }

  /** Whether a prefix forms a ledger depends on that prefix only. */
  lemma {:induction false} LedgerUpToPrefix(a: seq<Transference>, b: seq<Transference>, n: nat)
    requires n <= |a| && n <= |b|
    requires forall i :: 0 <= i < n ==> a[i] == b[i]
    ensures LedgerUpTo(a, n) == LedgerUpTo(b, n)
    decreases n
  {
    if n >= 2 {
      LedgerUpToPrefix(a, b, n - 2);
      LedgerUpToPrefix(a, b, n - 1);
    } else if n == 1 {
      LedgerUpToPrefix(a, b, 0);
    }
  }

  /** The sum of the amounts of the first `n` entries. */
  function Total(entries: seq<Transference>, n: nat): real
    requires n <= |entries|
  {
    if n == 0 then 0.0 else Total(entries, n - 1) + entries[n - 1].value
  }

  /** The sum of the amounts of the transfer entries among the first `n`. */
  function TransferTotal(entries: seq<Transference>, n: nat): real
    requires n <= |entries|
  {
    if n == 0 then 0.0
    else TransferTotal(entries, n - 1) + (if entries[n - 1].kind == TRANSFERENCE then entries[n - 1].value else 0.0)
  }

  /** The sum of the amounts of the deposit and withdrawal entries among the
      first `n`. */
  function CashTotal(entries: seq<Transference>, n: nat): real
    requires n <= |entries|
  {
    if n == 0 then 0.0
    else CashTotal(entries, n - 1) + (if entries[n - 1].kind != TRANSFERENCE then entries[n - 1].value else 0.0)
  }

  /** Transfers move money between accounts and create none: in a ledger the
      transfer entries sum to zero. */
  lemma {:induction false} TransfersSumToZero(entries: seq<Transference>, n: nat)
    requires n <= |entries| && LedgerUpTo(entries, n)
    ensures TransferTotal(entries, n) == 0.0
    decreases n
  {
    if n > 0 {
      if entries[n - 1].kind == TRANSFERENCE {
        TransfersSumToZero(entries, n - 2);
      } else {
        TransfersSumToZero(entries, n - 1);
      }
    }
  }

  /** Every amount is either a transfer amount or a cash amount. */
  lemma {:induction false} TotalSplits(entries: seq<Transference>, n: nat)
    requires n <= |entries|
    ensures Total(entries, n) == TransferTotal(entries, n) + CashTotal(entries, n)
  {
    if n > 0 {
      TotalSplits(entries, n - 1);
    }
  }

  /** The money held by all accounts together changes only by deposits and
      withdrawals. */
  lemma MoneyEntersOnlyAsCash(entries: seq<Transference>)
    requires Ledger(entries)
    ensures Total(entries, |entries|) == CashTotal(entries, |entries|)
  {
    TotalSplits(entries, |entries|);
    TransfersSumToZero(entries, |entries|);
  }

  /** The shape of each single entry of a ledger: an entry names a
      counterparty exactly when it is a transfer leg, deposits are at least
      the minimum deposit, withdrawals take out at least the minimum. */
  lemma {:induction false} LedgerEntryShape(entries: seq<Transference>, n: nat, i: int)
    requires n <= |entries| && LedgerUpTo(entries, n) && 0 <= i < n
    ensures entries[i].kind == TRANSFERENCE <==> entries[i].transactionOperatorName.Some?
    ensures entries[i].kind == DEPOSIT ==> IsDepositEntry(entries[i])
    ensures entries[i].kind == WITHDRAW ==> IsWithdrawEntry(entries[i])
    ensures entries[i].kind == TRANSFERENCE ==> entries[i].account.id.Some?
    decreases n
  {
    if entries[n - 1].kind == TRANSFERENCE {
      if i < n - 2 {
        LedgerEntryShape(entries, n - 2, i);
      }
    } else if i < n - 1 {
      LedgerEntryShape(entries, n - 1, i);
    }
  }

  /** A statement narrowed by a counterparty name lists transfer legs only. */
  lemma OperatorStatementListsTransfers(entries: seq<Transference>, accountId: Option<int>,
                                        name: string, t: Transference)
    requires Ledger(entries)
    requires t in FindAll(entries, And(WithAccountId(accountId), WithTransactionOperator(Some(name))))
    ensures t.kind == TRANSFERENCE && t.transactionOperatorName == Some(name)
  {
    var spec := And(WithAccountId(accountId), WithTransactionOperator(Some(name)));
    assert t in entries && Matches(spec, t);
    assert Matches(WithTransactionOperator(Some(name)), t);
    var i :| 0 <= i < |entries| && entries[i] == t;
    LedgerEntryShape(entries, |entries|, i);
  }

  /** Appending one deposit or withdrawal keeps a ledger. */
  lemma AppendCash(entries: seq<Transference>, t: Transference)
    requires Ledger(entries) && (IsDepositEntry(t) || IsWithdrawEntry(t))
    ensures Ledger(entries + [t])
  {
    LedgerUpToPrefix(entries, entries + [t], |entries|);
  }

  /** Appending the two legs of a transfer between two different stored
      accounts, payer first, keeps a ledger. */
  lemma AppendTransfer(entries: seq<Transference>, source: Transference, destination: Transference)
    requires Ledger(entries) && IsTransferPair(source, destination)
    ensures Ledger(entries + [source, destination])
  {
    LedgerUpToPrefix(entries, entries + [source, destination], |entries|);
  }

  /** The stamped legs of a non-negative transfer between two different
      stored accounts form a transfer pair. */
  lemma StampedLegsArePair(account: Account, destinationAccount: Account, value: real, id: int, now: Timestamp)
    requires account.id.Some? && destinationAccount.id.Some? && account.id != destinationAccount.id
    requires value >= 0.0
    ensures var legs := TransferLegs(Some(account), Some(destinationAccount), Some(value)).value;
            IsTransferPair(Stamped(legs.0, id, now), Stamped(legs.1, id + 1, now))
  {
  }

  /** Two entries written one after the other show up at the end of an
      account's full statement, each exactly when it belongs to the account. */
  lemma StatementAfterTwo(entries: seq<Transference>, first: Transference, second: Transference, account: Account)
    ensures BankStatement(entries + [first, second], account, None) ==
            BankStatement(entries, account, None)
            + (if account.id.Some? && first.account.id == account.id then [first] else [])
            + (if account.id.Some? && second.account.id == account.id then [second] else [])
  {
    assert entries + [first, second] == (entries + [first]) + [second];
    StatementAppend(entries, first, account, None);
    StatementAppend(entries + [first], second, account, None);
  }

  /** After a transfer, the payer's full statement gains the paying leg only
      and the payee's gains the receiving leg only. */
  lemma StatementAfterTransfer(entries: seq<Transference>, source: Transference, destination: Transference)
    requires IsTransferPair(source, destination)
    ensures BankStatement(entries + [source, destination], source.account, None) ==
            BankStatement(entries, source.account, None) + [source]
    ensures BankStatement(entries + [source, destination], destination.account, None) ==
            BankStatement(entries, destination.account, None) + [destination]
  {
    StatementAfterTwo(entries, source, destination, source.account);
    StatementAfterTwo(entries, source, destination, destination.account);
  }

  /** Account 1 (Joseph Smith) deposits 100, then transfers 50 to account 2
      (Carlos Maia): the ledger then holds the deposit, the paying leg and
      the receiving leg. */
  function ExampleLedger(depositTime: Timestamp, transferTime: Timestamp): (r: seq<Transference>)
    ensures Ledger(r)
    ensures r == [Transference(Some(1), Some(depositTime), 100.0, DEPOSIT, None, Account(Some(1), "Joseph Smith")),
                  Transference(Some(2), Some(transferTime), -50.0, TRANSFERENCE, Some("Carlos Maia"),
                               Account(Some(1), "Joseph Smith")),
                  Transference(Some(3), Some(transferTime), 50.0, TRANSFERENCE, Some("Joseph Smith"),
                               Account(Some(2), "Carlos Maia"))]
  {
    var joseph := Account(Some(1), "Joseph Smith");
    var carlos := Account(Some(2), "Carlos Maia");
    var legs := TransferLegs(Some(joseph), Some(carlos), Some(50.0)).value;
    var deposit := Stamped(GetDeposit(Some(joseph), Some(100.0)).value, 1, depositTime);
    var paying := Stamped(legs.0, 2, transferTime);
    var receiving := Stamped(legs.1, 3, transferTime);
    AppendCash([], deposit);
    assert [] + [deposit] == [deposit];
    AppendTransfer([deposit], paying, receiving);
    assert [deposit] + [paying, receiving] == [deposit, paying, receiving];
    [deposit, paying, receiving]
  }

  /** A deposit by the payer followed by a transfer to the payee: the payer's
      statement lists the deposit and the paying leg, the payee's lists the
      receiving leg only. */
  lemma DepositThenTransferStatements(deposit: Transference, paying: Transference, receiving: Transference)
    requires IsDepositEntry(deposit) && deposit.account == paying.account
    requires IsTransferPair(paying, receiving)
    ensures BankStatement([deposit, paying, receiving], paying.account, None) == [deposit, paying]
    ensures BankStatement([deposit, paying, receiving], receiving.account, None) == [receiving]
  {
    assert [deposit, paying, receiving] == [deposit] + [paying, receiving];
    assert [] + [deposit] == [deposit];
    StatementAppend([], deposit, paying.account, None);
    StatementAppend([], deposit, receiving.account, None);
    StatementAfterTransfer([deposit], paying, receiving);
  }

  /** The example's statements: Joseph Smith's lists the deposit of 100 and
      the transfer of -50 to Carlos Maia, and Carlos Maia's lists the transfer
      of +50 from Joseph Smith. */
  lemma StatementExample(depositTime: Timestamp, transferTime: Timestamp)
    ensures var entries := ExampleLedger(depositTime, transferTime);
      && BankStatement(entries, entries[0].account, None) == entries[..2]
      && BankStatement(entries, entries[2].account, None) == entries[2..]
  {
    var entries := ExampleLedger(depositTime, transferTime);
    assert entries[..2] == [entries[0], entries[1]] && entries[2..] == [entries[2]];
    DepositThenTransferStatements(entries[0], entries[1], entries[2]);
  }

  /** The result of the transfer endpoint for a given directory of accounts:
      the body is validated first, then the source account is looked up,
      then the destination account, then the two are compared. */
  function TransferOutcome(accounts: map<int, Account>, accountId: int, dto: TransferenceDto)
    : (r: Result<TransferenceResponse, Error>)
    requires StoredUnderOwnId(accounts)
    ensures r.Ok? <==>
      && TransferenceViolations(dto) == {}
      && accountId in accounts && dto.destinationAccountId.value in accounts
      && accountId != dto.destinationAccountId.value
    ensures TransferenceViolations(dto) != {} ==> r == Err(Validation(TransferenceViolations(dto)))
    ensures TransferenceViolations(dto) == {} && r.Err? ==>
      r.error == AccountNotFound || r.error == SameAccountId(SameAccountIdMessage)
    ensures TransferenceViolations(dto) == {}
      && (accountId !in accounts || dto.destinationAccountId.value !in accounts)
      ==> r == Err(AccountNotFound)
    ensures TransferenceViolations(dto) == {}
      && accountId in accounts && dto.destinationAccountId.value == accountId
      ==> r == Err(SameAccountId(SameAccountIdMessage))
    ensures r.Ok? ==> r.value == TransferenceResponse(accounts[accountId].ownerName,
      accounts[dto.destinationAccountId.value].ownerName, dto.value.value)
  {
    var violations := TransferenceViolations(dto);
    if violations != {} then Err(Validation(violations))
    else if accountId !in accounts then Err(AccountNotFound)
    else
      var destinationId := dto.destinationAccountId.value;
      if destinationId !in accounts then Err(AccountNotFound)
      else match CheckEquals(accounts[accountId], accounts[destinationId])
        case Err(e) => Err(e)
        case Ok(_) =>
          Ok(TransferenceResponse(accounts[accountId].ownerName, accounts[destinationId].ownerName,
                                  dto.value.value))
  }

  /** The result of the withdraw endpoint: the owner's name and the negative
      amount of the new entry. */
  function WithdrawOutcome(accounts: map<int, Account>, accountId: int, dto: WithdrawDto)
    : (r: Result<WithdrawResponse, Error>)
    ensures r.Ok? <==> WithdrawViolations(dto) == {} && accountId in accounts
    ensures WithdrawViolations(dto) != {} ==> r == Err(Validation(WithdrawViolations(dto)))
    ensures WithdrawViolations(dto) == {} && accountId !in accounts ==> r == Err(AccountNotFound)
    ensures r.Ok? ==>
      && r.value.name == accounts[accountId].ownerName
      && r.value.withdrawalAmount == -dto.value.value
      && r.value.withdrawalAmount <= -(MinWithdrawValue as real)
  {
    var violations := WithdrawViolations(dto);
    if violations != {} then Err(Validation(violations))
    else if accountId !in accounts then Err(AccountNotFound)
    else Ok(WithdrawResponseOf(GetWithdraw(Some(accounts[accountId]), dto.value).value))
  }

  /** The result of the deposit endpoint: the owner's name and the amount of
      the new entry. */
  function DepositOutcome(accounts: map<int, Account>, accountId: int, dto: DepositDto)
    : (r: Result<DepositResponse, Error>)
    ensures r.Ok? <==> DepositViolations(dto) == {} && accountId in accounts
    ensures DepositViolations(dto) != {} ==> r == Err(Validation(DepositViolations(dto)))
    ensures DepositViolations(dto) == {} && accountId !in accounts ==> r == Err(AccountNotFound)
    ensures r.Ok? ==>
      && r.value.name == accounts[accountId].ownerName
      && r.value.depositAmount == dto.value.value
      && r.value.depositAmount >= MinDepositValue as real
  {
    var violations := DepositViolations(dto);
    if violations != {} then Err(Validation(violations))
    else if accountId !in accounts then Err(AccountNotFound)
    else Ok(DepositResponseOf(GetDeposit(Some(accounts[accountId]), dto.value).value))
  }

  class OperationResource {
    const accountService: AccountService
    const transferenceService: TransferenceService

    /** Both services are consistent and the stored entries form a ledger. */
    ghost predicate Valid()
      reads this, accountService, transferenceService
    {
      accountService.Valid() && transferenceService.Valid() && Ledger(transferenceService.entries)
    }

    constructor (accountService: AccountService, transferenceService: TransferenceService)
      requires accountService.Valid() && transferenceService.Valid()
      requires Ledger(transferenceService.entries)
      ensures Valid()
      ensures this.accountService == accountService && this.transferenceService == transferenceService
    {
      this.accountService := accountService;
      this.transferenceService := transferenceService;
    }

    /** transfer: validation, both lookups and the same-account check all
        come before anything is saved; a transfer that passes them appends
        its two legs, payer first. */
    method Transfer(accountId: int, transferenceDto: TransferenceDto, now: Timestamp)
      returns (r: Result<TransferenceResponse, Error>)
      requires Valid()
      modifies transferenceService
      ensures Valid()
      ensures r == TransferOutcome(accountService.accounts, accountId, transferenceDto)
      ensures r.Err? ==> transferenceService.entries == old(transferenceService.entries)
                         && transferenceService.nextId == old(transferenceService.nextId)
      ensures r.Ok? ==>
        var legs := TransferLegs(Some(accountService.accounts[accountId]),
                                 Some(accountService.accounts[transferenceDto.destinationAccountId.value]),
                                 transferenceDto.value).value;
        && transferenceService.entries == old(transferenceService.entries)
             + [Stamped(legs.0, old(transferenceService.nextId), now),
                Stamped(legs.1, old(transferenceService.nextId) + 1, now)]
        && transferenceService.nextId == old(transferenceService.nextId) + 2
    {
      var violations := TransferenceViolations(transferenceDto);
      if violations != {} {
        return Err(Validation(violations));
      }
      var account := accountService.FindById(accountId);
      if account.Err? {
        return Err(account.error);
      }
      var destinationAccount := accountService.FindById(transferenceDto.destinationAccountId.value);
      if destinationAccount.Err? {
        return Err(destinationAccount.error);
      }
      var same := CheckEquals(account.value, destinationAccount.value);
      if same.Err? {
        return Err(same.error);
      }
      var transferenceValue := transferenceDto.value;
      WriteTransfer(account.value, destinationAccount.value, transferenceValue.value, now);
      r := Ok(TransferenceResponse(account.value.ownerName, destinationAccount.value.ownerName,
                                   transferenceValue.value));
    }

    /** The write of transfer, once both accounts are resolved and differ:
        realizeTransfer appends both legs, which keeps the ledger. */
    method WriteTransfer(account: Account, destinationAccount: Account, value: real, now: Timestamp)
      requires Valid()
      requires account.id.Some? && destinationAccount.id.Some? && account.id != destinationAccount.id
      requires value >= 0.0
      modifies transferenceService
      ensures Valid()
      ensures
        var legs := TransferLegs(Some(account), Some(destinationAccount), Some(value)).value;
        && transferenceService.entries == old(transferenceService.entries)
             + [Stamped(legs.0, old(transferenceService.nextId), now),
                Stamped(legs.1, old(transferenceService.nextId) + 1, now)]
        && transferenceService.nextId == old(transferenceService.nextId) + 2
    {
      ghost var before := transferenceService.entries;
      ghost var firstId := transferenceService.nextId;
      ghost var legs := TransferLegs(Some(account), Some(destinationAccount), Some(value)).value;
      ghost var source, destination := Stamped(legs.0, firstId, now), Stamped(legs.1, firstId + 1, now);
      StampedLegsArePair(account, destinationAccount, value, firstId, now);
      AppendTransfer(before, source, destination);
      var _ := transferenceService.RealizeTransfer(Some(account), Some(destinationAccount), Some(value), now);
      assert transferenceService.entries == before + [source, destination];
    }

    /** witdraw: a valid request on a stored account appends one WITHDRAW
        entry; any failure saves nothing. */
    method Withdraw(accountId: int, withdrawDto: WithdrawDto, now: Timestamp)
      returns (r: Result<WithdrawResponse, Error>)
      requires Valid()
      modifies transferenceService
      ensures Valid()
      ensures r == WithdrawOutcome(accountService.accounts, accountId, withdrawDto)
      ensures r.Err? ==> transferenceService.entries == old(transferenceService.entries)
                         && transferenceService.nextId == old(transferenceService.nextId)
      ensures r.Ok? ==>
        && transferenceService.entries == old(transferenceService.entries)
             + [Stamped(GetWithdraw(Some(accountService.accounts[accountId]), withdrawDto.value).value,
                        old(transferenceService.nextId), now)]
        && transferenceService.nextId == old(transferenceService.nextId) + 1
    {
      var violations := WithdrawViolations(withdrawDto);
      if violations != {} {
        return Err(Validation(violations));
      }
      var account := accountService.FindById(accountId);
      if account.Err? {
        return Err(account.error);
      }
      ghost var before := transferenceService.entries;
      var transference := transferenceService.Withdraw(Some(account.value), withdrawDto.value, now);
      AppendCash(before, transference.value);
      r := Ok(WithdrawResponseOf(transference.value));
    }

    /** deposit: a valid request on a stored account appends one DEPOSIT
        entry; any failure saves nothing. */
    method Deposit(accountId: int, depositDto: DepositDto, now: Timestamp)
      returns (r: Result<DepositResponse, Error>)
      requires Valid()
      modifies transferenceService
      ensures Valid()
      ensures r == DepositOutcome(accountService.accounts, accountId, depositDto)
      ensures r.Err? ==> transferenceService.entries == old(transferenceService.entries)
                         && transferenceService.nextId == old(transferenceService.nextId)
      ensures r.Ok? ==>
        && transferenceService.entries == old(transferenceService.entries)
             + [Stamped(GetDeposit(Some(accountService.accounts[accountId]), depositDto.value).value,
                        old(transferenceService.nextId), now)]
        && transferenceService.nextId == old(transferenceService.nextId) + 1
    {
      var violations := DepositViolations(depositDto);
      if violations != {} {
        return Err(Validation(violations));
      }
      var account := accountService.FindById(accountId);
      if account.Err? {
        return Err(account.error);
      }
      ghost var before := transferenceService.entries;
      var transference := transferenceService.Deposit(Some(account.value), depositDto.value, now);
      AppendCash(before, transference.value);
      r := Ok(DepositResponseOf(transference.value));
    }
  }
}
