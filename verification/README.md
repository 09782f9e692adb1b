# Banking ledger core, modelled in Dafny

This project models the ledger layer of a small Spring banking service. The service keeps accounts and a ledger of monetary movements ("transferences"). It offers three money-moving endpoints: deposit, withdraw and transfer. It also answers bank-statement queries built from composable query predicates.

What the model covers:

- **Entities** (`entity.dfy`). `Account` and `Transference` are value datatypes. Their constructors' null checks are modelled, including the fourth check, which tests the account a second time. The model also covers the id-only `equals` and the constant `hashCode`.
- **Request validation** (`dto.dfy`). The Bean Validation constraints of the four request bodies return a set of violations. `@Min` is inclusive and lets a null through, `@NotNull` rejects a null, `@NotBlank` follows `String.trim`, and `@Size(max = 50)` lets a null through. `toEntity` is modelled too.
- **Query predicates** (`specifications.dfy`). The three predicates of `TransferenceSpecifications` and their conjunction form a datatype. A null argument compares against SQL NULL, so that predicate matches nothing. The repository's `findAll(spec)` filters the entries in insertion order. A bank statement is the account predicate AND the date range (only when both dates are given) AND the counterparty predicate (when it is given).
- **TransferenceService** (`transference_service.dfy`). A class holds the repository as a sequence of entries plus the next id to generate. The four private builders are functions. `save`, `findById`, `delete`, `deposit`, `withdraw` and `realizeTransfer` are methods, each proved against those functions.
- **AccountService** (`account_service.dfy`). A class holds the repository as a map from id to account. The model covers lookup, update of the owner name, delete and the same-account check.
- **OperationResource** (`operation_resource.dfy`). The three endpoints run their steps in the source's order: validation, source lookup, destination lookup, same-account check, then the write. Each endpoint is proved against a pure reference function of the account directory. The ledger the endpoints write obeys conventions, and these are proved to be preserved:
  - deposits are at least 10;
  - withdrawals take out at least 10;
  - transfer legs come in adjacent, zero-sum pairs with crossed counterparty names between different accounts.

  From these conventions the model proves that transfers create no money and that a counterparty filter only ever lists transfer legs.

Representation choices:

- Amounts are `real`. The source only negates and compares them. The sums the model forms (the zero-sum of a transfer's legs, the ledger totals) are the model's own and stay exact over reals.
- The store's generated ids come from a counter that starts at 1.
- The creation timestamp is a `now` parameter of each writing operation.
- Java `null` is `Option.None`.
- An exception is `Result.Err`. `Error` distinguishes a `NullPointerException` (with the message Java would give), `IllegalArgumentException`, `BusinessException` (not found), `SameAccountIdException` and a validation failure.
- Localised messages are the constants of the message bundle.

Where the code differs from its interface:

- `ITransferenceService` declares `transfer` and `getBankStatements` (src/main/java/br/com/banco/service/ITransferenceService.java:14-17).
- The implementation provides `realizeTransfer` and no statement method.
- The model follows the implementation for transfers. The statement is reconstructed from the predicates and the interface's signature.

## Model

| member | source | states |
|---|---|---|
| `Entity.NewAccount` | src/main/java/br/com/banco/entity/Account.java:24-27 | succeeds exactly for a non-null owner name, giving an account with that name and no id; a null name fails with "Owner name is mandatory." |
| `Entity.NewTransference` | src/main/java/br/com/banco/entity/Transference.java:41-50 | fails on a null value, then a null type, then a null account, each with its own message; a null counterparty is accepted; otherwise value, type, account and counterparty are stored unchanged with no id and no date |
| `Entity.AccountEqualsById` | src/main/java/br/com/banco/entity/Account.java:29-38 | two distinct account objects are equal iff both ids are non-null and the same; the owner name plays no part |
| `Entity.FreshAccountEqualsOnlyItself` | src/main/java/br/com/banco/entity/Account.java:24-38 | a freshly constructed account has no id and so equals no other object |
| `Entity.AccountEqualsSymmetricTransitive` | src/main/java/br/com/banco/entity/Account.java:29-38 | account equality between distinct objects is symmetric and transitive |
| `Entity.AccountHashConsistent` | src/main/java/br/com/banco/entity/Account.java:29-43 | equal accounts have equal hash codes |
| `Entity.TransferenceEqualsById` | src/main/java/br/com/banco/entity/Transference.java:56-65 | two distinct entry objects are equal iff both ids are non-null and the same; equality is symmetric |
| `Entity.UnsavedTransferenceEqualsOnlyItself` | src/main/java/br/com/banco/entity/Transference.java:56-65 | an entry without an id equals no other object |
| `Entity.TransferenceHashConsistent` | src/main/java/br/com/banco/entity/Transference.java:56-70 | equal entries have equal hash codes |
| `Entity.AccountHashIgnoresFields` | src/main/java/br/com/banco/entity/Account.java:40-43 | every account has the same hash code, whatever its id and owner name |
| `Entity.TransferenceHashIgnoresFields` | src/main/java/br/com/banco/entity/Transference.java:67-70 | every entry has the same hash code, whatever its fields |
| `Dto.NotNullViolations` | src/main/java/br/com/banco/dto/DepositDto.java:15 | `@NotNull` reports no violation iff the field is non-null |
| `Dto.MinViolations` | src/main/java/br/com/banco/dto/DepositDto.java:16 | `@Min` on a `Double` reports no violation iff the field is null or at least the bound |
| `Dto.MinIntViolations` | src/main/java/br/com/banco/dto/TransferenceDto.java:17 | `@Min` on an `Integer` reports no violation iff the field is null or at least the bound |
| `Dto.TrimStart` | src/main/java/br/com/banco/dto/AccountDto.java:17 | the result is a suffix of the string; every dropped character is at most U+0020 and the result starts with a character above it |
| `Dto.TrimEnd` | src/main/java/br/com/banco/dto/AccountDto.java:17 | the result is a prefix of the string; every dropped character is at most U+0020 and the result ends with a character above it |
| `Dto.Trim` | src/main/java/br/com/banco/dto/AccountDto.java:17 | `String.trim` gives exactly the infix of the string starting where the leading characters up to U+0020 end, with only such characters behind it, and empty or starting and ending above U+0020 |
| `Dto.BlankIffTrimsToEmpty` | src/main/java/br/com/banco/dto/AccountDto.java:17 | `@NotBlank`'s test, trimming to nothing, holds iff every character is at most U+0020 |
| `Dto.DepositViolations` | src/main/java/br/com/banco/dto/DepositDto.java:15-17 | a deposit body is valid iff its value is non-null and at least 10; a null value or a value below 10 gives exactly its one violation |
| `Dto.WithdrawViolations` | src/main/java/br/com/banco/dto/WithdrawDto.java:12-14 | a withdraw body is valid iff its value is non-null and at least 10; a null value or a value below 10 gives exactly its one violation |
| `Dto.TransferenceViolations` | src/main/java/br/com/banco/dto/TransferenceDto.java:12-18 | a transfer body is valid iff the value is non-null and at least 0 and the destination id is non-null and at least 1; each of the four violations is reported iff its condition holds, and no other violation is |
| `Dto.AccountViolations` | src/main/java/br/com/banco/dto/AccountDto.java:17-19 | an account body is valid iff the owner name is non-null, not blank after trimming, and at most 50 characters; the blank and size violations are each reported iff their condition holds, and no other violation is |
| `Dto.ToEntity` | src/main/java/br/com/banco/dto/AccountDto.java:21-23 | a non-null owner name, valid or not, gives an account with that name and no id; a null name fails in the constructor |
| `Dto.AmountBoundaries` | src/main/java/br/com/banco/dto/DepositDto.java:16 | 10 is accepted for deposits and withdrawals and anything below is rejected; 0 is accepted for transfers and a negative value gives exactly the minimum violation |
| `Dto.LongBlankNameBreaksBoth` | src/main/java/br/com/banco/dto/AccountDto.java:17-18 | a blank 51-character name violates both constraints at once |
| `Specifications.FindAll` | src/main/java/br/com/banco/repository/TransferenceRepository.java:12 | the result holds exactly the stored entries satisfying the specification, and is no longer than the store |
| `Specifications.FindAllIsSubsequence` | src/main/java/br/com/banco/repository/TransferenceRepository.java:12 | the result keeps the store's insertion order |
| `Specifications.FindAllAppend` | src/main/java/br/com/banco/repository/TransferenceRepository.java:12 | an entry written later appears at the end of the result iff it satisfies the specification |
| `Specifications.FindAllExtensional` | src/main/java/br/com/banco/repository/TransferenceRepository.java:12 | two specifications that accept the same entries give the same result |
| `Specifications.FindAllAnd` | src/main/java/br/com/banco/specifications/TransferenceSpecifications.java:8-22 | the conjunction of two predicates filters the result of the first by the second, so the result is the intersection |
| `Specifications.AndNeverEnlarges` | src/main/java/br/com/banco/specifications/TransferenceSpecifications.java:8-22 | adding a predicate never enlarges the result: it is an order-preserving subsequence of the wider result |
| `Specifications.AndCommutes` | src/main/java/br/com/banco/specifications/TransferenceSpecifications.java:8-22 | the order in which predicates are conjoined does not matter |
| `Specifications.Matches` | src/main/java/br/com/banco/specifications/TransferenceSpecifications.java:10-20 | a null column never matches: an account predicate only matches entries of saved accounts, a date predicate only dated entries in a non-empty range given by two non-null dates, a counterparty predicate only entries with a counterparty |
| `Specifications.FilterAccepts` | src/main/java/br/com/banco/dto/StatementFilter.java:10-14 | no filter, or one with no counterparty and at most one date, accepts every entry; a counterparty filter rejects entries without a counterparty |
| `Specifications.NoMatchIsEmpty` | src/main/java/br/com/banco/specifications/TransferenceSpecifications.java:18-20 | a predicate no entry satisfies, such as an unknown counterparty name, gives an empty result and no error |
| `Specifications.StatementSpecification` | src/main/java/br/com/banco/specifications/TransferenceSpecifications.java:10-20 | the statement specification accepts an entry iff the account predicate holds and each supplied filter field holds: the inclusive date range when both dates are given, the exact counterparty when one is given |
| `Specifications.BankStatement` | src/main/java/br/com/banco/service/ITransferenceService.java:17 | a statement lists exactly the stored entries of the account that the filter accepts, in insertion order; an account without an id has an empty statement |
| `Specifications.StatementNarrowsHistory` | src/main/java/br/com/banco/service/ITransferenceService.java:17 | with no filter, or one with no field given, the statement is the account's whole history; any filter gives a subsequence of that history |
| `Specifications.StatementAppend` | src/main/java/br/com/banco/service/ITransferenceService.java:17 | a newly written entry appears at the end of exactly the statements that accept it |
| `TransferenceServices.GetDeposit` | src/main/java/br/com/banco/service/impl/TransferenceService.java:71-78 | builds a `+value` DEPOSIT entry of the account with no counterparty; a null value, then a null account, fails with the constructor's message |
| `TransferenceServices.GetWithdraw` | src/main/java/br/com/banco/service/impl/TransferenceService.java:80-87 | builds a `-value` WITHDRAW entry with no counterparty; a null value fails on unboxing before the constructor, then a null account |
| `TransferenceServices.GetOwnerTransference` | src/main/java/br/com/banco/service/impl/TransferenceService.java:89-95 | builds the `-value` TRANSFERENCE leg of the payer naming the payee's owner; fails on a null value, then a null destination, then a null account, in Java's evaluation order |
| `TransferenceServices.GetDestinationTransference` | src/main/java/br/com/banco/service/impl/TransferenceService.java:97-103 | builds the `+value` TRANSFERENCE leg of the payee naming the payer's owner; fails on a null source account first |
| `TransferenceServices.TransferLegs` | src/main/java/br/com/banco/service/impl/TransferenceService.java:50-51 | both legs are built iff both accounts and the value are non-null; their amounts sum to zero, the counterparty names cross, and a failure is that of the payer's leg |
| `TransferenceServices.Stamped` | src/main/java/br/com/banco/entity/Transference.java:19-25 | saving gives the entry its generated id and creation time and changes nothing else |
| `TransferenceServices.StampedEqualsById` | src/main/java/br/com/banco/entity/Transference.java:56-65 | a saved entry equals another object exactly when that object carries its generated id |
| `TransferenceServices.LegOwnersCross` | src/main/java/br/com/banco/entity/Transference.java:52-54 | each transfer leg's owner is its own account's owner, and each names the other leg's owner as counterparty |
| `TransferenceServices.DepositResponseReportsEntry` | src/main/java/br/com/banco/dto/DepositResponse.java:13-16 | the deposit response built from the saved entry reports the owner's name and the deposited amount |
| `TransferenceServices.WithdrawResponseReportsEntry` | src/main/java/br/com/banco/dto/WithdrawResponse.java:13-16 | the withdrawal response built from the saved entry reports the owner's name and the requested amount negated |
| `TransferenceServices.IndexOfId` | src/main/java/br/com/banco/service/impl/TransferenceService.java:30-31 | finds a position holding the id, or reports that no position holds it |
| `TransferenceServices.StoredIdsDistinct` | src/main/java/br/com/banco/entity/Transference.java:19-21 | two different positions of the store hold different generated ids |
| `TransferenceServices.TransferenceService.constructor` | src/main/java/br/com/banco/service/impl/TransferenceService.java:19-22 | a new service has an empty, consistent store |
| `TransferenceServices.TransferenceService.Save` | src/main/java/br/com/banco/service/impl/TransferenceService.java:24-27 | appends the entry with the next generated id and the current time and returns it as saved |
| `TransferenceServices.TransferenceService.FindById` | src/main/java/br/com/banco/service/impl/TransferenceService.java:29-35 | returns a stored entry with that id iff one exists; otherwise fails with IllegalArgumentException and the not-found message; the store is unchanged |
| `TransferenceServices.TransferenceService.Delete` | src/main/java/br/com/banco/service/impl/TransferenceService.java:42-46 | an absent id fails and removes nothing; a present id removes exactly that one entry and keeps the order of the rest |
| `TransferenceServices.TransferenceService.GetBankStatements` | src/main/java/br/com/banco/service/ITransferenceService.java:17 | the statement over the current store: the account's entries accepted by the filter, in order |
| `TransferenceServices.TransferenceService.Deposit` | src/main/java/br/com/banco/service/impl/TransferenceService.java:65-69 | appends exactly the built DEPOSIT entry, stamped, and returns it as saved; if it cannot be built nothing is saved |
| `TransferenceServices.TransferenceService.Withdraw` | src/main/java/br/com/banco/service/impl/TransferenceService.java:59-63 | appends exactly the built WITHDRAW entry, stamped, and returns it as saved; if it cannot be built nothing is saved |
| `TransferenceServices.TransferenceService.RealizeTransfer` | src/main/java/br/com/banco/service/impl/TransferenceService.java:48-57 | if either leg cannot be built nothing is saved; otherwise appends the payer's leg and then the payee's leg with consecutive ids and returns the saved payer's leg |
| `AccountServices.UpdateFields` | src/main/java/br/com/banco/service/impl/AccountService.java:53-55 | the existing account takes the new owner name and keeps its id |
| `AccountServices.UpdateKeepsIdentity` | src/main/java/br/com/banco/service/impl/AccountService.java:46-55 | the updated account equals the existing one iff the existing one is stored |
| `AccountServices.CheckEquals` | src/main/java/br/com/banco/service/impl/AccountService.java:63-75 | for an account with an id, succeeds iff the two ids differ and otherwise fails with SameAccountIdException; a null id fails with NullPointerException |
| `AccountServices.SameAccountIsNotNotFound` | src/main/java/br/com/banco/service/impl/AccountService.java:71-73 | the same-account failure is a SameAccountIdException and never the not-found BusinessException |
| `AccountServices.CheckEqualsOnStored` | src/main/java/br/com/banco/service/impl/AccountService.java:63-75 | two stored accounts pass the check iff they are different accounts of the directory |
| `AccountServices.AccountService.constructor` | src/main/java/br/com/banco/service/impl/AccountService.java:19-22 | a new service has an empty, consistent directory |
| `AccountServices.AccountService.Save` | src/main/java/br/com/banco/service/impl/AccountService.java:24-27 | stores the new account under the next generated id, which was free, and returns it |
| `AccountServices.AccountService.FindById` | src/main/java/br/com/banco/service/impl/AccountService.java:29-39 | returns the stored account iff the id is present; otherwise fails with the not-found BusinessException |
| `AccountServices.AccountService.Update` | src/main/java/br/com/banco/service/impl/AccountService.java:46-51 | an absent id fails with not-found before anything is saved; a present id replaces only that account's owner name, leaving its id and every other account unchanged |
| `AccountServices.AccountService.Delete` | src/main/java/br/com/banco/service/impl/AccountService.java:57-61 | an absent id fails with not-found and removes nothing; a present id removes exactly that account |
| `Controller.LedgerUpToPrefix` | src/main/java/br/com/banco/service/impl/TransferenceService.java:24-27 | whether the first entries form a ledger depends on those entries only, so appending never disturbs it |
| `Controller.TransfersSumToZero` | src/main/java/br/com/banco/service/impl/TransferenceService.java:89-103 | in a ledger the amounts of all transfer legs sum to zero |
| `Controller.TotalSplits` | src/main/java/br/com/banco/service/impl/TransferenceService.java:59-103 | the total of all amounts is the transfer total plus the deposit-and-withdrawal total |
| `Controller.MoneyEntersOnlyAsCash` | src/main/java/br/com/banco/service/impl/TransferenceService.java:59-103 | in a ledger the money held by all accounts together is the sum of deposits and withdrawals |
| `Controller.LedgerEntryShape` | src/main/java/br/com/banco/service/impl/TransferenceService.java:71-103 | in a ledger an entry names a counterparty iff it is a transfer leg; deposits are at least 10 and withdrawals at most -10 |
| `Controller.OperatorStatementListsTransfers` | src/main/java/br/com/banco/specifications/TransferenceSpecifications.java:18-20 | a statement narrowed by a counterparty name lists only transfer legs with that exact name, never a deposit or withdrawal |
| `Controller.AppendCash` | src/main/java/br/com/banco/controller/OperationResource.java:49-69 | appending one valid deposit or withdrawal keeps the ledger conventions |
| `Controller.AppendTransfer` | src/main/java/br/com/banco/controller/OperationResource.java:31-47 | appending the pair of a transfer, payer first, keeps the ledger conventions |
| `Controller.StampedLegsArePair` | src/main/java/br/com/banco/service/impl/TransferenceService.java:89-103 | the two legs of a non-negative transfer between different stored accounts, once stamped, form a transfer pair |
| `Controller.StatementAfterTwo` | src/main/java/br/com/banco/service/impl/TransferenceService.java:53-54 | two entries saved one after the other appear at the end of an account's statement, each exactly when it belongs to the account |
| `Controller.StatementAfterTransfer` | src/main/java/br/com/banco/service/impl/TransferenceService.java:48-57 | after a transfer the payer's statement gains only the paying leg and the payee's gains only the receiving leg |
| `Controller.ExampleLedger` | src/main/java/br/com/banco/controller/OperationResource.java:31-69 | a deposit of 100 by account 1 (Joseph Smith) and a transfer of 50 to account 2 (Carlos Maia) give the ledger `[DEPOSIT +100, TRANSFERENCE -50 naming Carlos Maia, TRANSFERENCE +50 naming Joseph Smith]`, which keeps the ledger conventions |
| `Controller.DepositThenTransferStatements` | src/main/java/br/com/banco/service/impl/TransferenceService.java:48-78 | after a deposit by the payer and a transfer, the payer's statement is the deposit and the paying leg and the payee's is the receiving leg alone |
| `Controller.StatementExample` | src/main/java/br/com/banco/controller/OperationResource.java:31-69 | in that example Joseph Smith's statement is `[DEPOSIT +100, TRANSFERENCE -50]` and Carlos Maia's is `[TRANSFERENCE +50]` |
| `Controller.TransferOutcome` | src/main/java/br/com/banco/controller/OperationResource.java:31-47 | a transfer succeeds iff the body is valid, both accounts exist and they differ; an invalid body fails with its violations; otherwise a missing source or destination account fails with not-found, and a destination equal to the source with SameAccountIdException; success reports sender, addressee and the requested value |
| `Controller.WithdrawOutcome` | src/main/java/br/com/banco/controller/OperationResource.java:49-58 | a withdrawal succeeds iff the body is valid and the account exists, reporting the owner's name and `-value`, at most -10 |
| `Controller.DepositOutcome` | src/main/java/br/com/banco/controller/OperationResource.java:60-69 | a deposit succeeds iff the body is valid and the account exists, reporting the owner's name and `+value`, at least 10 |
| `Controller.OperationResource.constructor` | src/main/java/br/com/banco/controller/OperationResource.java:26-29 | the resource wires the two services and keeps their consistency |
| `Controller.OperationResource.Transfer` | src/main/java/br/com/banco/controller/OperationResource.java:31-47 | returns the reference outcome; a failure writes no entry; a success appends exactly the two legs in order; the ledger conventions are preserved |
| `Controller.OperationResource.WriteTransfer` | src/main/java/br/com/banco/controller/OperationResource.java:39-41 | once both accounts are resolved and differ, the transfer appends exactly its two legs, payer first, and keeps the ledger conventions |
| `Controller.OperationResource.Withdraw` | src/main/java/br/com/banco/controller/OperationResource.java:49-58 | returns the reference outcome; a failure writes no entry; a success appends exactly one WITHDRAW entry; the ledger conventions are preserved |
| `Controller.OperationResource.Deposit` | src/main/java/br/com/banco/controller/OperationResource.java:60-69 | returns the reference outcome; a failure writes no entry; a success appends exactly one DEPOSIT entry; the ledger conventions are preserved |

## Left out

- The database and JPA: repositories are an in-memory sequence and map. Generated ids come from a counter and `@CreationTimestamp` from a `now` parameter. Both legs of a transfer carry the same `now`.
- Store failures and rollback of the transactional scope: the store never fails here. Every failure the source can raise in a transfer happens before the first save, so "both legs or none" holds by construction.
- Concurrency and transaction isolation.
- `Double` arithmetic: amounts are exact reals, so NaN, infinities and -0.0 are not modelled.
- `MessageSource` localisation: messages are the bundle's constants.
- HTTP routing, `ResponseEntity`, the exception handler's status mapping and the response DTOs beyond their two or three fields.
- Hibernate proxy class checks in `equals`.
- Object identity: entities are values, so `this == o` is a parameter of the equality predicates.
- Aliasing: an entry holds a snapshot of its account, so renaming an account does not change the name seen through earlier entries.
- `findAll` of both services: it only returns the whole store.
- The database's foreign-key constraint that blocks deleting an account that still has entries.
- `TransferenceServices.TransferenceService.Save`: only saves of new entries (no id) are modelled; JPA's merge of an entity that already has an id is not.
- `AccountServices.AccountService.Save`: only saves of new accounts are modelled, for the same reason.
- `AccountServices.AccountService.Update`: the updated account must carry an id. The repository's rejection of a null id is not modelled.
- `Dto.AccountViolations`: length counts Dafny characters, not Java's UTF-16 code units, so names with characters outside the Basic Multilingual Plane may measure differently.
- `Specifications.StatementSpecification`: no implementation of the statement is part of this model. It is reconstructed as described above. A filter with only one of its two dates does not narrow by date.
- `Dto.TransferenceViolations`: a transfer of exactly 0 is accepted, as `@Min(0)` is inclusive, and it writes a pair of zero legs.
- `Entity.Account`: owner names are never null in the model, and so `AccountServices.AccountService.Update` cannot store a null name. The source's `Account` can hold one (its no-argument constructor and setter, and a nullable column), but every write path the application exposes, `AccountResource.save` and `AccountResource.update`, passes through `@NotBlank` on `AccountDto`. What is lost: a transfer to an account with a null name would write a paying leg with no counterparty, which the crossed-names statements of `TransferenceServices.TransferLegs` and the counterparty-iff-transfer statement of `Controller.LedgerEntryShape` rule out.
- `AccountServices.CheckEquals`: the classes `BusinessException` and `SameAccountIdException` are not part of this model. The model's `Error` constructors are disjoint, so any subtype relation between the two exceptions is not expressed.
- `AccountServices.CheckEquals`: the destination account is never null in the model. The source's `checkEquals(account, null)` throws `NullPointerException`, which callers never trigger because both accounts come from `findById`.
- Deleting single transfer legs through `TransferenceService.delete` can break the pairing convention. The ledger conventions are therefore an invariant of the resource's operations only.
