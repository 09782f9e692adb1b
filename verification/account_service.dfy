/** AccountService: the account directory, modelled as the map from stored
    id to account that the account repository holds. */
module AccountServices {
  import opened Wrappers
  import opened Exceptions
  import opened Entity

  /** updateFields: the existing account takes the updated owner name and
      keeps everything else, its id included. */
  function UpdateFields(updatedAccount: Account, existingAccount: Account): (r: Account)
    ensures r.id == existingAccount.id && r.ownerName == updatedAccount.ownerName
  {
    existingAccount.(ownerName := updatedAccount.ownerName)
  }

  /** An update keeps the account's identity: the updated account equals the
      existing one exactly when the existing one is stored. */
  lemma UpdateKeepsIdentity(updatedAccount: Account, existingAccount: Account)
    ensures AccountEquals(UpdateFields(updatedAccount, existingAccount), Some(existingAccount), false)
            <==> existingAccount.id.Some?
  {
  }

  /** checkEquals: fails with SameAccountIdException when the two ids are
      equal, and succeeds otherwise. The id of the first account is
      dereferenced, so a first account without an id fails with a
      NullPointerException, which is not caught. */
  function CheckEquals(account: Account, destinationAccount: Account): (r: Result<(), Error>)
    ensures account.id.Some? ==> (r.Ok? <==> account.id != destinationAccount.id)
    ensures account.id.Some? && r.Err? ==> r.error == SameAccountId(SameAccountIdMessage)
    ensures account.id.None? ==> r == Err(NullPointer(AccountIdWhileNull))
  {
    if account.id.None? then Err(NullPointer(AccountIdWhileNull))
    else if account.id == destinationAccount.id then Err(SameAccountId(SameAccountIdMessage))
    else Ok(())
  }

  /** The same-account failure is a different kind of error from the
      not-found failure of a lookup. */
  lemma SameAccountIsNotNotFound(account: Account, destinationAccount: Account)
    requires account.id.Some?
    ensures CheckEquals(account, destinationAccount).Err? ==>
            CheckEquals(account, destinationAccount).error.SameAccountId? &&
            CheckEquals(account, destinationAccount).error != AccountNotFound
  {
  }

  /** Every account is stored under its own id. */
  predicate StoredUnderOwnId(accounts: map<int, Account>)
  {
    forall id :: id in accounts ==> accounts[id].id == Some(id)
  }

  /** The accounts of a directory are stored under their own ids, all below
      the next id to generate. */
  ghost predicate Directory(accounts: map<int, Account>, nextId: int)
  {
    StoredUnderOwnId(accounts) && forall id :: id in accounts ==> 1 <= id < nextId
  }

  class AccountService {
    /** The repository: each stored account under its id. */
    var accounts: map<int, Account>
    /** The next id the store will generate. */
    var nextId: int

    ghost predicate Valid()
      reads this
    {
      nextId >= 1 && Directory(accounts, nextId)
    }

    constructor ()
      ensures Valid() && accounts == map[] && nextId == 1
    {
      accounts := map[];
      nextId := 1;
    }

    /** save of a new account: the store assigns the next id. */
    method Save(account: Account) returns (saved: Account)
      requires Valid() && account.id == None
      modifies this
      ensures Valid()
      ensures saved == account.(id := Some(old(nextId))) && old(nextId) !in old(accounts)
      ensures accounts == old(accounts)[old(nextId) := saved] && nextId == old(nextId) + 1
    {
      saved := account.(id := Some(nextId));
      accounts := accounts[nextId := saved];
      nextId := nextId + 1;
    }

    /** findById: the stored account, or a BusinessException wrapping the
        repository's IllegalArgumentException. */
    method FindById(id: int) returns (r: Result<Account, Error>)
      requires Valid()
      ensures r.Ok? <==> id in accounts
      ensures r.Ok? ==> r.value == accounts[id] && r.value.id == Some(id)
      ensures r.Err? ==> r.error == AccountNotFound
    {
      if id in accounts {
        r := Ok(accounts[id]);
      } else {
        r := Err(AccountNotFound);
      }
    }

    /** update: looks the account up by the updated account's id, replaces
        its owner name and saves it back; an absent id fails with NotFound
        before anything is saved. */
    method Update(updatedAccount: Account) returns (r: Result<Account, Error>)
      requires Valid() && updatedAccount.id.Some?
      modifies this
      ensures Valid() && nextId == old(nextId)
      ensures var id := updatedAccount.id.value;
        && (r.Ok? <==> id in old(accounts))
        && (r.Err? ==> r.error == AccountNotFound && accounts == old(accounts))
        && (r.Ok? ==> r.value == Account(Some(id), updatedAccount.ownerName)
                      && accounts == old(accounts)[id := r.value])
    {
      var existingAccount := FindById(updatedAccount.id.value);
      if existingAccount.Err? {
        return Err(existingAccount.error);
      }
      var account := UpdateFields(updatedAccount, existingAccount.value);
      accounts := accounts[updatedAccount.id.value := account];
      r := Ok(account);
    }

    /** delete: looks the account up first, so an absent id fails with
        NotFound and removes nothing; a present id removes that account only. */
    method Delete(id: int) returns (r: Result<(), Error>)
      requires Valid()
      modifies this
      ensures Valid() && nextId == old(nextId)
      ensures r.Ok? <==> id in old(accounts)
      ensures r.Err? ==> r.error == AccountNotFound && accounts == old(accounts)
      ensures r.Ok? ==> accounts == old(accounts) - {id}
    {
      var account := FindById(id);
      if account.Err? {
        return Err(account.error);
      }
      accounts := accounts - {id};
      r := Ok(());
    }
  }

  /** Two stored accounts pass checkEquals exactly when they are different
      accounts of the directory. */
  lemma CheckEqualsOnStored(accounts: map<int, Account>, nextId: int, a: int, b: int)
    requires Directory(accounts, nextId) && a in accounts && b in accounts
    ensures CheckEquals(accounts[a], accounts[b]).Ok? <==> a != b
  {
  }
}
