/** Request bodies with their Bean Validation constraints, and the response
    bodies the operations return. A request is valid when its set of
    violations is empty. */
module Dto {
  import opened Wrappers
  import opened Exceptions
  import opened Entity

  const MinDepositValue := 10
  const MinWithdrawValue := 10
  const MinTransferValue := 0
  const MinDestinationAccountId := 1
  const MaxOwnerNameSize := 50

  /** @NotNull: a null field is the only violation. */
  function NotNullViolations<T>(field: string, v: Option<T>): (r: set<Violation>)
    ensures r == {} <==> v.Some?
  {
    if v.None? then {Violation(field, NotNull)} else {}
  }

  /** @Min on a Double: inclusive, and a null field satisfies it. */
  function MinViolations(field: string, v: Option<real>, bound: int): (r: set<Violation>)
    ensures r == {} <==> v.None? || v.value >= bound as real
  {
    if v.Some? && v.value < bound as real then {Violation(field, Min(bound))} else {}
  }

  /** @Min on an Integer: inclusive, and a null field satisfies it. */
  function MinIntViolations(field: string, v: Option<int>, bound: int): (r: set<Violation>)
    ensures r == {} <==> v.None? || v.value >= bound
  {
    if v.Some? && v.value < bound then {Violation(field, Min(bound))} else {}
  }

  /** A string is blank when trimming leaves nothing: Java's trim removes
      every character up to U+0020 from both ends. */
  predicate IsBlank(s: string)
  {
    forall i :: 0 <= i < |s| ==> s[i] <= ' '
  }

  /** String.trim with its leading part only: drops every character up to
      U+0020 from the front. */
  function TrimStart(s: string): (r: string)
    ensures |r| <= |s| && r == s[|s| - |r|..]
    ensures forall i :: 0 <= i < |s| - |r| ==> s[i] <= ' '
    ensures r == [] || r[0] > ' '
  {
    if s != [] && s[0] <= ' ' then TrimStart(s[1..]) else s
  }

  /** String.trim with its trailing part only: drops every character up to
      U+0020 from the back. */
  function TrimEnd(s: string): (r: string)
    ensures |r| <= |s| && r == s[..|r|]
    ensures forall i :: |r| <= i < |s| ==> s[i] <= ' '
    ensures r == [] || r[|r| - 1] > ' '
  {
    if s != [] && s[|s| - 1] <= ' ' then TrimEnd(s[..|s| - 1]) else s
  }

  /** `r` is what String.trim leaves of `s` when its first `i` characters
      are dropped: the infix of `s` from `i`, empty or starting and ending
      above U+0020, with only characters up to U+0020 around it. */
  predicate TrimmedInfix(s: string, i: int, r: string)
  {
    && 0 <= i && i + |r| <= |s|
    && r == s[i..i + |r|]
    && (forall k :: 0 <= k < i ==> s[k] <= ' ')
    && (forall k :: i + |r| <= k < |s| ==> s[k] <= ' ')
    && (r == [] || (r[0] > ' ' && r[|r| - 1] > ' '))
  }

  /** A trimmed prefix `r` of a trimmed suffix `u` of `s` is what trimming
      leaves of `s`. */
  lemma PrefixOfSuffix(s: string, u: string, r: string)
    requires |u| <= |s| && u == s[|s| - |u|..]
    requires forall k :: 0 <= k < |s| - |u| ==> s[k] <= ' '
    requires u == [] || u[0] > ' '
    requires |r| <= |u| && r == u[..|r|]
    requires forall k :: |r| <= k < |u| ==> u[k] <= ' '
    requires r == [] || r[|r| - 1] > ' '
    ensures TrimmedInfix(s, |s| - |u|, r)
  {
  }

  /** String.trim, which @NotBlank applies before asking for a non-empty
      result: the front is trimmed where TrimStart stops, and the rest is
      trimmed at the back. */
  function Trim(s: string): (r: string)
    ensures TrimmedInfix(s, |s| - |TrimStart(s)|, r)
  {
    var u := TrimStart(s);
    var r := TrimEnd(u);
    PrefixOfSuffix(s, u, r);
    r
  }

  /** @NotBlank's test (trim leaves nothing) is the same as every character
      being at most U+0020. */
  lemma BlankIffTrimsToEmpty(s: string)
    ensures IsBlank(s) <==> Trim(s) == []
  {
  }

  datatype DepositDto = DepositDto(value: Option<real>)

  datatype WithdrawDto = WithdrawDto(value: Option<real>)

  datatype TransferenceDto = TransferenceDto(value: Option<real>, destinationAccountId: Option<int>)

  datatype AccountDto = AccountDto(ownerName: Option<string>)

  /** The optional fields a bank statement may be narrowed by. */
  datatype StatementFilter = StatementFilter(
    transactionOperator: Option<string>,
    initDate: Option<Timestamp>,
    endDate: Option<Timestamp>)

  datatype TransferenceResponse = TransferenceResponse(sender: string, addressee: string, value: real)

  datatype WithdrawResponse = WithdrawResponse(name: string, withdrawalAmount: real)

  datatype DepositResponse = DepositResponse(name: string, depositAmount: real)

  /** DepositDto: `value` is @NotNull and @Min(10). */
  function DepositViolations(dto: DepositDto): (r: set<Violation>)
    ensures r == {} <==> dto.value.Some? && dto.value.value >= 10.0
    ensures dto.value.None? ==> r == {Violation("value", NotNull)}
    ensures dto.value.Some? && dto.value.value < 10.0 ==> r == {Violation("value", Min(10))}
  {
    NotNullViolations("value", dto.value) + MinViolations("value", dto.value, MinDepositValue)
  }

  /** WithdrawDto: `value` is @NotNull and @Min(10). */
  function WithdrawViolations(dto: WithdrawDto): (r: set<Violation>)
    ensures r == {} <==> dto.value.Some? && dto.value.value >= 10.0
    ensures dto.value.None? ==> r == {Violation("value", NotNull)}
    ensures dto.value.Some? && dto.value.value < 10.0 ==> r == {Violation("value", Min(10))}
  {
    NotNullViolations("value", dto.value) + MinViolations("value", dto.value, MinWithdrawValue)
  }

  /** TransferenceDto: `value` is @NotNull and @Min(0); `destinationAccountId`
      is @NotNull and @Min(1). Both fields are checked, so both can be reported. */
  function TransferenceViolations(dto: TransferenceDto): (r: set<Violation>)
    ensures r == {} <==>
      && dto.value.Some? && dto.value.value >= 0.0
      && dto.destinationAccountId.Some? && dto.destinationAccountId.value >= 1
    ensures Violation("value", NotNull) in r <==> dto.value.None?
    ensures Violation("value", Min(0)) in r <==> dto.value.Some? && dto.value.value < 0.0
    ensures Violation("destinationAccountId", NotNull) in r <==> dto.destinationAccountId.None?
    ensures Violation("destinationAccountId", Min(1)) in r <==>
            dto.destinationAccountId.Some? && dto.destinationAccountId.value < 1
    // and nothing else is reported
    ensures r <= {Violation("value", NotNull), Violation("value", Min(0)),
                  Violation("destinationAccountId", NotNull), Violation("destinationAccountId", Min(1))}
  {
    NotNullViolations("value", dto.value)
    + MinViolations("value", dto.value, MinTransferValue)
    + NotNullViolations("destinationAccountId", dto.destinationAccountId)
    + MinIntViolations("destinationAccountId", dto.destinationAccountId, MinDestinationAccountId)
  }

  /** AccountDto: `ownerName` is @NotBlank and @Size(max = 50); a null name
      satisfies @Size, a long blank name violates both. */
  function AccountViolations(dto: AccountDto): (r: set<Violation>)
    ensures r == {} <==>
      dto.ownerName.Some? && !IsBlank(dto.ownerName.value) && |dto.ownerName.value| <= 50
    ensures Violation("ownerName", NotBlank) in r <==>
      dto.ownerName.None? || IsBlank(dto.ownerName.value)
    ensures Violation("ownerName", SizeMax(50)) in r <==>
      dto.ownerName.Some? && |dto.ownerName.value| > 50
    // and nothing else is reported
    ensures r <= {Violation("ownerName", NotBlank), Violation("ownerName", SizeMax(50))}
  {
    (if dto.ownerName.None? || IsBlank(dto.ownerName.value)
     then {Violation("ownerName", NotBlank)} else {})
    + (if dto.ownerName.Some? && |dto.ownerName.value| > MaxOwnerNameSize
       then {Violation("ownerName", SizeMax(MaxOwnerNameSize))} else {})
  }

  /** AccountDto.toEntity: a new account with the requested owner name and no id. */
  function ToEntity(dto: AccountDto): (r: Result<Account, Error>)
    ensures dto.ownerName.Some? ==> r == Ok(Account(None, dto.ownerName.value))
    ensures dto.ownerName.None? ==> r == Err(NullPointer(OwnerNameMandatory))
  {
    NewAccount(dto.ownerName)
  }

  /** WithdrawResponse(Transference): the entry owner's name and its amount. */
  function WithdrawResponseOf(t: Transference): WithdrawResponse
  {
    WithdrawResponse(OwnerName(t), t.value)
  }

  /** DepositResponse(Transference): the entry owner's name and its amount. */
  function DepositResponseOf(t: Transference): DepositResponse
  {
    DepositResponse(OwnerName(t), t.value)
  }

  /** The boundaries of the amount constraints: 10 is the smallest deposit or
      withdrawal accepted, 0 the smallest transfer. */
  lemma AmountBoundaries(v: real)
    ensures DepositViolations(DepositDto(Some(10.0))) == {}
    ensures WithdrawViolations(WithdrawDto(Some(10.0))) == {}
    ensures v < 10.0 ==> DepositViolations(DepositDto(Some(v))) != {}
    ensures v < 10.0 ==> WithdrawViolations(WithdrawDto(Some(v))) != {}
    ensures TransferenceViolations(TransferenceDto(Some(0.0), Some(1))) == {}
    ensures v < 0.0 ==> TransferenceViolations(TransferenceDto(Some(v), Some(1))) ==
                        {Violation("value", Min(0))}
  {
  }

  /** A blank name of 51 spaces breaks both constraints of AccountDto. */
  lemma LongBlankNameBreaksBoth()
    ensures var dto := AccountDto(Some(seq(51, _ => ' ')));
            AccountViolations(dto) ==
              {Violation("ownerName", NotBlank), Violation("ownerName", SizeMax(50))}
  {
  }
}
