/** The two persisted entities: an account and a ledger entry ("transference").
    Both are modelled as values; the store that assigns their ids and creation
    timestamps lives in the service classes. */
module Entity {
  import opened Wrappers
  import opened Exceptions

  /** An instant on the store's clock. */
  type Timestamp = int

  /** The kind of a ledger entry (the enum Type). */
  datatype Type = DEPOSIT | WITHDRAW | TRANSFERENCE

  /** An account: `id` is null until the store assigns one. */
  datatype Account = Account(id: Option<int>, ownerName: string)

  /** A ledger entry. `id` and `transferenceDate` are null until the store
      saves the entry; `transactionOperatorName` names the other party of a
      transfer. The field `kind` is the entity's `type`. */
  datatype Transference = Transference(
    id: Option<int>,
    transferenceDate: Option<Timestamp>,
    value: real,
    kind: Type,
    transactionOperatorName: Option<string>,
    account: Account)

  /** The constructor Account(String ownerName). */
  function NewAccount(ownerName: Option<string>): (r: Result<Account, Error>)
    ensures r.Ok? <==> ownerName.Some?
    ensures r.Ok? ==> r.value.id == None && r.value.ownerName == ownerName.value
    ensures r.Err? ==> r.error == NullPointer(OwnerNameMandatory)
  {
    if ownerName.None? then Err(NullPointer(OwnerNameMandatory))
    else Ok(Account(None, ownerName.value))
  }

  /** The constructor Transference(value, type, account, transactionOperatorName).
      The fourth null check tests `account` a second time, so a null operator
      name is accepted. */
  function NewTransference(value: Option<real>, kind: Option<Type>, account: Option<Account>,
                           transactionOperatorName: Option<string>): (r: Result<Transference, Error>)
    ensures r.Ok? <==> value.Some? && kind.Some? && account.Some?
    ensures value.None? ==> r == Err(NullPointer(ValueMandatory))
    ensures value.Some? && kind.None? ==> r == Err(NullPointer(TypeMandatory))
    ensures value.Some? && kind.Some? && account.None? ==> r == Err(NullPointer(AccountMandatory))
    ensures r.Ok? ==>
      && r.value.id == None && r.value.transferenceDate == None
      && r.value.value == value.value && r.value.kind == kind.value
      && r.value.account == account.value
      && r.value.transactionOperatorName == transactionOperatorName
  {
    if value.None? then Err(NullPointer(ValueMandatory))
    else if kind.None? then Err(NullPointer(TypeMandatory))
    else if account.None? then Err(NullPointer(AccountMandatory))
    else if account.None? then Err(NullPointer("Transaction Operator Name is mandatory."))
    else Ok(Transference(None, None, value.value, kind.value, transactionOperatorName, account.value))
  }

  /** Transference.getOwnerName: the owner of the entry's account. */
  function OwnerName(t: Transference): string
  {
    t.account.ownerName
  }

  /** Account.equals(o). Object identity (`this == o`) cannot be observed on
      values, so it is the parameter `sameObject`; the same object has the
      same value. Otherwise a null `o` is unequal, and two accounts are equal
      when this one has an id and both ids are the same. */
  predicate AccountEquals(a: Account, o: Option<Account>, sameObject: bool)
    requires sameObject ==> o == Some(a)
  {
    if sameObject then true
    else if o.None? then false
    else a.id.Some? && a.id == o.value.id
  }

  /** Transference.equals(o), with the same reading of `this == o`. */
  predicate TransferenceEquals(t: Transference, o: Option<Transference>, sameObject: bool)
    requires sameObject ==> o == Some(t)
  {
    if sameObject then true
    else if o.None? then false
    else t.id.Some? && t.id == o.value.id
  }

  /** getClass().hashCode() of each entity class: some fixed number. */
  const AccountClassHash: int := 1
  const TransferenceClassHash: int := 2

  function AccountHashCode(a: Account): int
  {
    AccountClassHash
  }

  function TransferenceHashCode(t: Transference): int
  {
    TransferenceClassHash
  }

  /** The hash code of an account depends on none of its fields. */
  lemma AccountHashIgnoresFields(a: Account, b: Account)
    ensures AccountHashCode(a) == AccountHashCode(b)
  {
  }

  /** The hash code of an entry depends on none of its fields. */
  lemma TransferenceHashIgnoresFields(t: Transference, u: Transference)
    ensures TransferenceHashCode(t) == TransferenceHashCode(u)
  {
  }

  /** Distinct account objects are equal exactly when both carry the same id;
      the owner name plays no part. */
  lemma AccountEqualsById(a: Account, b: Account)
    ensures AccountEquals(a, Some(b), false) <==> a.id.Some? && b.id.Some? && a.id == b.id
    ensures AccountEquals(a, Some(b), false) ==
            AccountEquals(a.(ownerName := b.ownerName), Some(b), false)
  {
  }

  /** A freshly constructed account (no id yet) equals only itself. */
  lemma FreshAccountEqualsOnlyItself(name: string, o: Option<Account>)
    ensures NewAccount(Some(name)).Ok?
    ensures !AccountEquals(NewAccount(Some(name)).value, o, false)
  {
  }

  /** Account equality between distinct objects is symmetric and transitive. */
  lemma AccountEqualsSymmetricTransitive(a: Account, b: Account, c: Account)
    ensures AccountEquals(a, Some(b), false) == AccountEquals(b, Some(a), false)
    ensures AccountEquals(a, Some(b), false) && AccountEquals(b, Some(c), false) ==>
            AccountEquals(a, Some(c), false)
  {
  }

  /** Equal accounts have equal hash codes. */
  lemma AccountHashConsistent(a: Account, o: Account, sameObject: bool)
    requires sameObject ==> o == a
    ensures AccountEquals(a, Some(o), sameObject) ==> AccountHashCode(a) == AccountHashCode(o)
  {
  }

  /** Distinct entry objects are equal exactly when both carry the same id;
      amount, type, date, account and counterparty play no part. */
  lemma TransferenceEqualsById(t: Transference, u: Transference)
    ensures TransferenceEquals(t, Some(u), false) <==> t.id.Some? && u.id.Some? && t.id == u.id
    ensures TransferenceEquals(t, Some(u), false) == TransferenceEquals(u, Some(t), false)
  {
  }

  /** An entry not yet saved (no id) equals only itself. */
  lemma UnsavedTransferenceEqualsOnlyItself(t: Transference, o: Option<Transference>)
    requires t.id == None
    ensures !TransferenceEquals(t, o, false)
  {
  }

  /** Equal entries have equal hash codes. */
  lemma TransferenceHashConsistent(t: Transference, o: Transference, sameObject: bool)
    requires sameObject ==> o == t
    ensures TransferenceEquals(t, Some(o), sameObject) ==>
            TransferenceHashCode(t) == TransferenceHashCode(o)
  {
  }
}
