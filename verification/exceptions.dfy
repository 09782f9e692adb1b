/** The exceptions the banking core throws, and the constraint violations
    that Bean Validation reports before a request reaches it. */
module Exceptions {

  /** A Bean Validation constraint, as declared on a request field. */
  datatype Constraint =
    | NotNull               // @NotNull
    | Min(bound: int)       // @Min(value = bound), inclusive
    | NotBlank              // @NotBlank
    | SizeMax(max: int)     // @Size(max = max)

  /** One violated constraint on one request field. */
  datatype Violation = Violation(field: string, constraint: Constraint)

  /** Every way a call into the core can fail. */
  datatype Error =
    | NullPointer(message: string)             // java.lang.NullPointerException
    | IllegalArgument(message: string)         // java.lang.IllegalArgumentException
    | Business(message: string)                // BusinessException
    | SameAccountId(message: string)           // SameAccountIdException
    | Validation(violations: set<Violation>)   // MethodArgumentNotValidException

  // Messages passed to Objects.requireNonNull by the entity constructors.
  const ValueMandatory := "Value is mandatory."
  const TypeMandatory := "Type is mandatory."
  const AccountMandatory := "Account is mandatory."
  const OwnerNameMandatory := "Owner name is mandatory."

  // Messages the JVM gives a NullPointerException raised by unboxing or by a
  // method call on null.
  const ValueUnboxedWhileNull :=
    "Cannot invoke \"java.lang.Double.doubleValue()\" because \"value\" is null"
  const DestinationOwnerNameWhileNull :=
    "Cannot invoke \"br.com.banco.entity.Account.getOwnerName()\" because \"destinationAccount\" is null"
  const AccountOwnerNameWhileNull :=
    "Cannot invoke \"br.com.banco.entity.Account.getOwnerName()\" because \"account\" is null"
  const AccountIdWhileNull :=
    "Cannot invoke \"java.lang.Integer.equals(Object)\" because the return value of \"br.com.banco.entity.Account.getId()\" is null"

  // Localised messages of the message source (keys non-existing.id.error.message
  // and same.account.id.message.error), in the default locale.
  const NonExistingIdMessage :=
    "Invalid ID. The specified ID does not exist in our records. Please check and try again."
  const SameAccountIdMessage := "Source and destination account IDs cannot be the same."

  /** The error AccountService raises for an id that is not stored. */
  const AccountNotFound := Business(NonExistingIdMessage)
}
