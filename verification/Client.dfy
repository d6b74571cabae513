/**
 The client's path from its command line to a request: validate every argument, then tokenise the
 operation's arguments a second time and format the request.
 */
module Client {
  import opened Bank
  import opened CString

  const MAX_OP_DELAY_MS := 99999

  datatype Code =
    | OK | NEG_ACCOUNT_ID | LRG_ACCOUNT_ID | SRT_PASSWORD | LNG_PASSWORD | BAD_PASSWORD
    | NEG_DELAY | LNG_DELAY | INV_OPERATION | INV_NEW_ACCOUNT_ID | SRT_BALANCE | LRG_BALANCE
    | INV_NEW_PASSWORD | INV_TRS_ACCOUNT | SML_TRSF_AMOUNT | LRG_TRSF_AMOUNT | INV_OP_ARGUMENTS | OTHER_ERROR

  /** A validation ends with a code, or with a null pointer given to the C library. */
  datatype Verdict = Code(code: Code) | NullPointer

  // ----- Single arguments -----

  function ValidAccount(text: string): Code {
    if !IsWhole(text) then OTHER_ERROR
    else if ToInt(Strtol(text)) < 0 then INV_TRS_ACCOUNT
    else if ToInt(Strtol(text)) >= MAX_BANK_ACCOUNTS then INV_TRS_ACCOUNT
    else OK
  }

  function ValidNewPassword(text: string): Code {
    if |text| < MIN_PASSWORD_LEN then SRT_PASSWORD
    else if |text| > MAX_PASSWORD_LEN then LNG_PASSWORD
    else OK
  }

  function ValidBalance(text: string): Code {
    if !IsWhole(text) then OTHER_ERROR
    else if ToUnsigned(Strtol(text)) < 1 then SRT_BALANCE
    else if ToUnsigned(Strtol(text)) > MAX_BALANCE then LRG_BALANCE
    else OK
  }

  function ValidAmount(text: string): Code {
    if !IsWhole(text) then OTHER_ERROR
    else if ToUnsigned(Strtol(text)) < 1 then SML_TRSF_AMOUNT
    else if ToUnsigned(Strtol(text)) > MAX_BALANCE then LRG_TRSF_AMOUNT
    else OK
  }

  function UserAccountCode(text: string): Code {
    var id := ToInt(Strtol(text));
    if !IsWhole(text) then OTHER_ERROR else if id < 0 then NEG_ACCOUNT_ID
    else if id >= MAX_BANK_ACCOUNTS then LRG_ACCOUNT_ID else OK
  }

  /** The length is tested before the spaces; eight to twenty spaces make a null token. */
  function PasswordVerdict(text: string): Verdict {
    if |text| < MIN_PASSWORD_LEN then Code(SRT_PASSWORD) else if |text| > MAX_PASSWORD_LEN then Code(LNG_PASSWORD)
    else if Tokens(text) == [] then NullPointer
    else if ' ' in text then Code(BAD_PASSWORD) else Code(OK)
  }

  function DelayCode(text: string): Code {
    var delay := ToInt(Strtol(text));
    if !IsWhole(text) then OTHER_ERROR else if delay < 0 then NEG_DELAY
    else if delay > MAX_OP_DELAY_MS then LNG_DELAY else OK
  }

  function OperationCode(text: string): Code {
    if !IsWhole(text) then OTHER_ERROR else if 0 <= ToInt(Strtol(text)) <= 3 then OK else INV_OPERATION
  }

  /** The first refusal among the five arguments, in the order of the command line. */
  function CommandVerdict(accountText: string, passwordText: string, delayText: string, operationText: string,
                          argumentsText: string): Verdict
  {
    if UserAccountCode(accountText) != OK then Code(UserAccountCode(accountText))
    else if PasswordVerdict(passwordText) != Code(OK) then PasswordVerdict(passwordText)
    else if DelayCode(delayText) != OK then Code(DelayCode(delayText))
    else if OperationCode(operationText) != OK then Code(OperationCode(operationText))
    else ArgumentsVerdict(ToInt(Strtol(operationText)), argumentsText)
  }

  /** The 64-bit unsigned comparison accepts exactly the numerals of 1..MAX_BALANCE, and `atoi` reads their value. */
  lemma BalanceAcceptedExactlyInRange(text: string)
    ensures ValidBalance(text) == OK <==> IsWhole(text) && MIN_BALANCE <= Number(text).0 <= MAX_BALANCE
    ensures ValidAmount(text) == OK <==> ValidBalance(text) == OK
    ensures ValidBalance(text) == OK ==> Atoi(text) == Number(text).0
  {
  }

  /**
   The identifier test is weaker than it looks: the conversion to `int` keeps the low 32 bits of a
   numeral.  An accepted numeral is itself an account identifier exactly when it fits in an `int`.
   */
  lemma AcceptedIdIsItsNumeralExactlyWhen(text: string)
    requires ValidAccount(text) == OK
    ensures 0 <= Atoi(text) < MAX_BANK_ACCOUNTS
    ensures (0 <= Number(text).0 < MAX_BANK_ACCOUNTS) <==> -0x8000_0000 <= Number(text).0 < 0x8000_0000
    ensures (0 <= Number(text).0 < MAX_BANK_ACCOUNTS) <==> Atoi(text) == Number(text).0
  {
  }

  /** Numerals that fit in an `int` are judged by the number they write: identifiers, delays and operations alike. */
  lemma IntNumeralsAreJudgedByValue(text: string)
    requires -0x8000_0000 <= Number(text).0 < 0x8000_0000
    ensures UserAccountCode(text) == OK <==> IsWhole(text) && 0 <= Number(text).0 < MAX_BANK_ACCOUNTS
    ensures DelayCode(text) == OK <==> IsWhole(text) && 0 <= Number(text).0 <= MAX_OP_DELAY_MS
    ensures OperationCode(text) == OK <==> IsWhole(text) && 0 <= Number(text).0 <= 3
  {
  }

  lemma FirstFiveDigits()
    ensures forall k :: 0 <= k < 5 ==> IsDigit("42949"[k])
    ensures Numeral("42949") == 42949
  {
    NumeralAppend("", '4', "4");
    NumeralAppend("4", '2', "42");
    NumeralAppend("42", '9', "429");
    NumeralAppend("429", '4', "4294");
    NumeralAppend("4294", '9', "42949");
  }

  /** 2^32 + 5 is accepted, as account 5. */
  lemma WrappedIdIsAccepted()
    ensures ValidAccount("4294967301") == OK && Number("4294967301").0 == 4294967301 && Atoi("4294967301") == 5
  {
    FirstFiveDigits();
    NumeralAppend("42949", '6', "429496");
    NumeralAppend("429496", '7', "4294967");
    NumeralAppend("4294967", '3', "42949673");
    NumeralAppend("42949673", '0', "429496730");
    NumeralAppend("429496730", '1', "4294967301");
    NumberOfDigits("4294967301");
  }

  // ----- The arguments of an operation -----

  /** The verdict on the arguments of a creation, as a function of their words. */
  function CreationVerdict(arguments: string): Verdict {
    var words := Tokens(arguments);
    if arguments == "" then Code(INV_OP_ARGUMENTS)
    else if |words| == 0 then NullPointer
    else if ValidAccount(words[0]) != OK then Code(INV_NEW_ACCOUNT_ID)
    else if |words| == 1 then Code(INV_OP_ARGUMENTS)
    else if ValidBalance(words[1]) != OK then Code(ValidBalance(words[1]))
    else if |words| == 2 then Code(INV_OP_ARGUMENTS)
    else if ValidNewPassword(words[2]) != OK then Code(INV_NEW_PASSWORD)
    else if |words| > 3 then Code(INV_OP_ARGUMENTS)
    else Code(OK)
  }

  function TransferArgumentsVerdict(arguments: string): Verdict {
    var words := Tokens(arguments);
    if arguments == "" then Code(INV_OP_ARGUMENTS)
    else if |words| == 0 then NullPointer
    else if ValidAccount(words[0]) != OK then Code(INV_TRS_ACCOUNT)
    else if |words| == 1 then Code(INV_OP_ARGUMENTS)
    else if ValidAmount(words[1]) != OK then Code(ValidAmount(words[1]))
    else if |words| > 2 then Code(INV_OP_ARGUMENTS)
    else Code(OK)
  }

  method ValidCreationOperation(arguments: string) returns (verdict: Verdict)
    requires IsCString(arguments)
    ensures verdict == CreationVerdict(arguments)
  {
    if |arguments| == 0 {
      return Code(INV_OP_ARGUMENTS);
    }
    var tokens := new Tokenizer(arguments);
    var newAccountId := tokens.Next();
    if newAccountId.None? {
      return NullPointer;
    }
    if ValidAccount(newAccountId.value) != OK {
      return Code(INV_NEW_ACCOUNT_ID);
    }
    var balance := tokens.Next();
    if balance.None? {
      return Code(INV_OP_ARGUMENTS);
    }
    var code := ValidBalance(balance.value);
    if code != OK {
      return Code(code);
    }
    var password := tokens.Next();
    if password.None? {
      return Code(INV_OP_ARGUMENTS);
    }
    if ValidNewPassword(password.value) != OK {
      return Code(INV_NEW_PASSWORD);
    }
    var extra := tokens.Next();
    if extra.Some? {
      return Code(INV_OP_ARGUMENTS);
    }
    return Code(OK);
  }

  method ValidTransferOperation(arguments: string) returns (verdict: Verdict)
    requires IsCString(arguments)
    ensures verdict == TransferArgumentsVerdict(arguments)
  {
    if |arguments| == 0 {
      return Code(INV_OP_ARGUMENTS);
    }
    var tokens := new Tokenizer(arguments);
    var recipientId := tokens.Next();
    if recipientId.None? {
      return NullPointer;
    }
    if ValidAccount(recipientId.value) != OK {
      return Code(INV_TRS_ACCOUNT);
    }
    var amount := tokens.Next();
    if amount.None? {
      return Code(INV_OP_ARGUMENTS);
    }
    var code := ValidAmount(amount.value);
    if code != OK {
      return Code(code);
    }
    var extra := tokens.Next();
    if extra.Some? {
      return Code(INV_OP_ARGUMENTS);
    }
    return Code(OK);
  }

  // ----- The command -----

  /** The command that the validators fill in and the formatter reads. */
  class Command {
    var accountId: uint32
    var password: string
    var delay: uint32
    var operation: int
    var arguments: string

    constructor ()
    {
      accountId, password, delay, operation, arguments := 0, "", 0, 0, "";
    }

    method ValidUserAccount(text: string) returns (code: Code)
      modifies this`accountId
      ensures code == UserAccountCode(text)
      ensures accountId == if IsWhole(text) then Wrap(ToInt(Strtol(text))) else old(accountId)
      ensures code == OK <==> IsWhole(text) && accountId == ToInt(Strtol(text)) < MAX_BANK_ACCOUNTS
    {
      var id := ToInt(Strtol(text));
      if !IsWhole(text) {
        return OTHER_ERROR;
      }
      accountId := Wrap(id);
      if id < 0 {
        return NEG_ACCOUNT_ID;
      }
      if id >= MAX_BANK_ACCOUNTS {
        return LRG_ACCOUNT_ID;
      }
      return OK;
    }

    /** A password is accepted exactly when it has 8 to 20 bytes and no space. */
    method ValidPassword(text: string) returns (verdict: Verdict)
      requires IsCString(text)
      modifies this`password
      ensures verdict == PasswordVerdict(text)
      ensures verdict == Code(OK) <==> MIN_PASSWORD_LEN <= |text| <= MAX_PASSWORD_LEN && ' ' !in text
      ensures password == if verdict == Code(OK) then text else old(password)
    {
      if |text| < MIN_PASSWORD_LEN {
        return Code(SRT_PASSWORD);
      }
      if |text| > MAX_PASSWORD_LEN {
        return Code(LNG_PASSWORD);
      }
      FirstTokenIsAll(text);
      var tokens := new Tokenizer(text);
      var token := tokens.Next();
      if token.None? {
        return NullPointer;
      }
      if |token.value| != |text| {
        return Code(BAD_PASSWORD);
      }
      password := token.value;
      return Code(OK);
    }

    method ValidDelay(text: string) returns (code: Code)
      modifies this`delay
      ensures code == DelayCode(text)
      ensures if code == OK then delay == ToInt(Strtol(text)) <= MAX_OP_DELAY_MS else delay == old(delay)
    {
      var value := ToInt(Strtol(text));
      if !IsWhole(text) {
        return OTHER_ERROR;
      }
      if value < 0 {
        return NEG_DELAY;
      }
      if value > MAX_OP_DELAY_MS {
        return LNG_DELAY;
      }
      delay := value;
      return OK;
    }

    method ValidOperation(text: string) returns (code: Code)
      modifies this`operation
      ensures code == OperationCode(text)
      ensures operation == if code == OK then ToInt(Strtol(text)) else old(operation)
    {
      var number := ToInt(Strtol(text));
      if !IsWhole(text) {
        return OTHER_ERROR;
      }
      if number < 0 || number > 3 {
        return INV_OPERATION;
      }
      operation := number;
      return OK;
    }

    method ValidArguments(text: string) returns (verdict: Verdict)
      requires IsCString(text)
      modifies this`arguments
      ensures arguments == text
      ensures verdict == ArgumentsVerdict(operation, text)
    {
      arguments := text;
      match operation {
        case 0 => verdict := ValidCreationOperation(text);
        case 1 => verdict := Code(if |text| != 0 then INV_OP_ARGUMENTS else OK);
        case 2 => verdict := ValidTransferOperation(text);
        case 3 => verdict := Code(if |text| != 0 then INV_OP_ARGUMENTS else OK);
        case _ => verdict := Code(OTHER_ERROR);
      }
    }

    /** The command holds what the formatter and the server rely on. */
    ghost predicate Checked()
      reads this
    {
      && accountId < MAX_BANK_ACCOUNTS && delay <= MAX_OP_DELAY_MS
      && MIN_PASSWORD_LEN <= |password| <= MAX_PASSWORD_LEN && ' ' !in password && IsCString(password)
      && IsCString(arguments) && ArgumentsVerdict(operation, arguments) == Code(OK)
    }

    method CheckArguments(accountText: string, passwordText: string, delayText: string,
                          operationText: string, argumentsText: string) returns (verdict: Verdict)
      requires IsCString(passwordText) && IsCString(argumentsText)
      modifies this
      ensures verdict == CommandVerdict(accountText, passwordText, delayText, operationText, argumentsText)
      ensures verdict == Code(OK) ==> Checked()
      ensures verdict == Code(OK) ==>
        && accountId == ToInt(Strtol(accountText)) && password == passwordText
        && operation == ToInt(Strtol(operationText)) && arguments == argumentsText
      ensures verdict == Code(OK) <==>
        && IsWhole(accountText) && 0 <= ToInt(Strtol(accountText)) < MAX_BANK_ACCOUNTS
        && MIN_PASSWORD_LEN <= |passwordText| <= MAX_PASSWORD_LEN && ' ' !in passwordText
        && IsWhole(delayText) && 0 <= ToInt(Strtol(delayText)) <= MAX_OP_DELAY_MS
        && IsWhole(operationText) && 0 <= ToInt(Strtol(operationText)) <= 3
        && ArgumentsVerdict(ToInt(Strtol(operationText)), argumentsText) == Code(OK)
    {
      var code := ValidUserAccount(accountText);
      if code != OK {
        return Code(code);
      }
      verdict := ValidPassword(passwordText);
      if verdict != Code(OK) {
        return;
      }
      code := ValidDelay(delayText);
      if code != OK {
        return Code(code);
      }
      code := ValidOperation(operationText);
      if code != OK {
        return Code(code);
      }
      verdict := ValidArguments(argumentsText);
    }

    /** The arguments of a creation, tokenised a second time. */
    method FormatCreate() returns (op: Operation)
      requires IsCString(arguments) && CreationVerdict(arguments) == Code(OK)
      ensures op == CreationMeant(arguments)
      ensures
        var words := Tokens(arguments);
        |words| == 3 && op.CreateAccount? && op.id == Atoi(words[0]) && op.balance == Number(words[1]).0
        && op.newPassword == words[2]
    {
      AcceptedCreation(arguments);
      var tokens := new Tokenizer(arguments);
      var accountId := tokens.Next();
      var balance := tokens.Next();
      var newPassword := tokens.Next();
      var id, amount := Atoi(accountId.value), Atoi(balance.value);
      op := CreateAccount(Wrap(id), newPassword.value, Wrap(amount));
    }

    method FormatTransfer() returns (op: Operation)
      requires IsCString(arguments) && TransferArgumentsVerdict(arguments) == Code(OK)
      ensures op == TransferMeant(arguments)
      ensures
        var words := Tokens(arguments);
        |words| == 2 && op.Transfer? && op.dest == Atoi(words[0]) && op.amount == Number(words[1]).0
    {
      AcceptedTransfer(arguments);
      var tokens := new Tokenizer(arguments);
      var recipientId := tokens.Next();
      var amount := tokens.Next();
      var id, value := Atoi(recipientId.value), Atoi(amount.value);
      op := Transfer(Wrap(id), Wrap(value));
    }

    method FormatRequest(pid: int) returns (req: Request)
      requires Checked()
      ensures req == Request(pid, accountId, password, delay, req.op)
      ensures req.op == Meant(operation, arguments)
      ensures (operation == 0 <==> req.op.CreateAccount?) && (operation == 1 <==> req.op.CheckBalance?)
      ensures (operation == 2 <==> req.op.Transfer?) && (operation == 3 <==> req.op.Shutdown?)
      ensures operation == 0 ==>
        var words := Tokens(arguments);
        && |words| == 3 && req.op.id == Atoi(words[0]) && req.op.balance == Number(words[1]).0
        && req.op.newPassword == words[2]
      ensures operation == 2 ==>
        var words := Tokens(arguments);
        |words| == 2 && req.op.dest == Atoi(words[0]) && req.op.amount == Number(words[1]).0
      ensures Sendable(req)
    {
      assert Accepted(operation, arguments);
      var op;
      match operation {
        case 0 => op := FormatCreate();
        case 1 => op := CheckBalance;
        case 2 => op := FormatTransfer();
        case _ => op := Shutdown;
      }
      req := Request(pid, accountId, password, delay, op);
    }
  }

  function ArgumentsVerdict(operation: int, arguments: string): Verdict {
    match operation
    case 0 => CreationVerdict(arguments)
    case 1 => Code(if |arguments| != 0 then INV_OP_ARGUMENTS else OK)
    case 2 => TransferArgumentsVerdict(arguments)
    case 3 => Code(if |arguments| != 0 then INV_OP_ARGUMENTS else OK)
    case _ => Code(OTHER_ERROR)
  }

  predicate Accepted(operation: int, arguments: string) {
    IsCString(arguments) && ArgumentsVerdict(operation, arguments) == Code(OK)
  }

  /** What the formatter makes of an accepted command. */
  ghost predicate Sendable(req: Request) {
    && req.account < MAX_BANK_ACCOUNTS && req.delay <= MAX_OP_DELAY_MS
    && MIN_PASSWORD_LEN <= |req.password| <= MAX_PASSWORD_LEN && ' ' !in req.password && IsCString(req.password)
    && exists operation, arguments :: Accepted(operation, arguments) && req.op == Meant(operation, arguments)
  }

  // ----- What accepted arguments mean -----

  /** Accepted creation arguments are three words: an identifier, a balance in range, a password. */
  lemma AcceptedCreation(arguments: string)
    requires CreationVerdict(arguments) == Code(OK)
    ensures
      var words := Tokens(arguments);
      && |words| == 3
      && 0 <= Atoi(words[0]) < MAX_BANK_ACCOUNTS
      && Wrap(Atoi(words[0])) == Atoi(words[0]) && Wrap(Atoi(words[1])) == Atoi(words[1])
      && Atoi(words[1]) == Number(words[1]).0 && MIN_BALANCE <= Atoi(words[1]) <= MAX_BALANCE
      && MIN_PASSWORD_LEN <= |words[2]| <= MAX_PASSWORD_LEN
  {
    var words := Tokens(arguments);
    AcceptedIdIsItsNumeralExactlyWhen(words[0]);
    BalanceAcceptedExactlyInRange(words[1]);
  }

  lemma AcceptedTransfer(arguments: string)
    requires TransferArgumentsVerdict(arguments) == Code(OK)
    ensures
      var words := Tokens(arguments);
      && |words| == 2
      && 0 <= Atoi(words[0]) < MAX_BANK_ACCOUNTS
      && Wrap(Atoi(words[0])) == Atoi(words[0]) && Wrap(Atoi(words[1])) == Atoi(words[1])
      && Atoi(words[1]) == Number(words[1]).0 && MIN_BALANCE <= Atoi(words[1]) <= MAX_BALANCE
  {
    var words := Tokens(arguments);
    AcceptedIdIsItsNumeralExactlyWhen(words[0]);
    BalanceAcceptedExactlyInRange(words[1]);
  }

  /** The creation that accepted arguments ask for: the balance is the number written, not a truncation of it. */
  ghost function CreationMeant(arguments: string): (op: Operation)
    requires CreationVerdict(arguments) == Code(OK)
    ensures op.CreateAccount? && MIN_BALANCE <= op.balance <= MAX_BALANCE
    ensures MIN_PASSWORD_LEN <= |op.newPassword| <= MAX_PASSWORD_LEN
  {
    AcceptedCreation(arguments);
    var words := Tokens(arguments);
    CreateAccount(Atoi(words[0]), words[2], Number(words[1]).0)
  }

  ghost function TransferMeant(arguments: string): (op: Operation)
    requires TransferArgumentsVerdict(arguments) == Code(OK)
    ensures op.Transfer? && MIN_BALANCE <= op.amount <= MAX_BALANCE
  {
    AcceptedTransfer(arguments);
    var words := Tokens(arguments);
    Transfer(Atoi(words[0]), Number(words[1]).0)
  }

  ghost function Meant(operation: int, arguments: string): Operation
    requires ArgumentsVerdict(operation, arguments) == Code(OK)
  {
    match operation
    case 0 => CreationMeant(arguments)
    case 1 => CheckBalance
    case 2 => TransferMeant(arguments)
    case _ => Shutdown
  }
}
