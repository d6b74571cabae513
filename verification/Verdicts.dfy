/**
 What the client accepts, as a function of what its arguments write: every code of every validator.
 */
module Verdicts {
  import opened CString
  import opened Client

  // ----- Whole numbers -----

  /** Optional white space, an optional sign, and digits. */
  predicate IsNumeral(white: string, sign: string, digits: string) {
    AllWhite(white) && IsSign(sign) && digits != "" && AllDigits(digits)
  }

  lemma NumeralValue(white: string, sign: string, digits: string)
    requires IsNumeral(white, sign, digits)
    ensures
      var text, value: int := white + sign + digits, Numeral(digits);
      IsWhole(text) && Number(text).0 == if sign == "-" then -value else value
  {
    NumberIs(white, sign, digits, "");
    assert white + sign + digits + "" == white + sign + digits;
  }

  /** A text is read as a whole exactly when it is a numeral, or empty: an empty text reads as 0. */
  lemma WholeExactlyWhen(text: string)
    ensures IsWhole(text) <==>
      text == "" || exists white, sign, digits :: IsNumeral(white, sign, digits) && text == white + sign + digits
    ensures Number("") == (0, "")
  {
    var white, sign, digits, rest := NumberForms(text);
    if digits == "" {
      assert text == white + sign + rest;
      NumberIsNone(white, sign, rest);
    } else {
      NumberIs(white, sign, digits, rest);
      if rest == "" {
        assert text == white + sign + digits;
      }
    }
    if w, g, d :| IsNumeral(w, g, d) && text == w + g + d {
      NumeralValue(w, g, d);
    }
  }

  // ----- Single arguments -----

  /** A text that is not a whole number is refused everywhere with the same code. */
  lemma OtherTexts(text: string)
    requires !IsWhole(text)
    ensures UserAccountCode(text) == ValidAccount(text) == DelayCode(text) == OperationCode(text) == OTHER_ERROR
    ensures ValidBalance(text) == ValidAmount(text) == OTHER_ERROR
  {
  }

  /** An empty text passes for account 0, for no delay and for operation 0, and is too small a balance. */
  lemma EmptyText()
    ensures UserAccountCode("") == ValidAccount("") == DelayCode("") == OperationCode("") == OK
    ensures ValidBalance("") == SRT_BALANCE && ValidAmount("") == SML_TRSF_AMOUNT
  {
  }

  /** A minus sign makes every number but 0 inacceptable; balances and amounts then count as too large. */
  lemma NegativeTexts(white: string, digits: string)
    requires IsNumeral(white, "-", digits) && Numeral(digits) > 0
    ensures
      var text := white + "-" + digits;
      && ValidBalance(text) == LRG_BALANCE && ValidAmount(text) == LRG_TRSF_AMOUNT
      && (Numeral(digits) <= 0x8000_0000 ==>
            && UserAccountCode(text) == NEG_ACCOUNT_ID && ValidAccount(text) == INV_TRS_ACCOUNT
            && DelayCode(text) == NEG_DELAY && OperationCode(text) == INV_OPERATION)
  {
    NumeralValue(white, "-", digits);
  }

  /** Any other number is judged by its size. */
  lemma OtherSums(white: string, sign: string, digits: string)
    requires IsNumeral(white, sign, digits) && (sign != "-" || Numeral(digits) == 0)
    ensures
      var text, value := white + sign + digits, Numeral(digits);
      && ValidBalance(text) == (if value == 0 then SRT_BALANCE else if value <= 1_000_000_000 then OK else LRG_BALANCE)
      && ValidAmount(text) ==
           (if value == 0 then SML_TRSF_AMOUNT else if value <= 1_000_000_000 then OK else LRG_TRSF_AMOUNT)
  {
    NumeralValue(white, sign, digits);
  }

  lemma OtherNumbers(white: string, sign: string, digits: string)
    requires IsNumeral(white, sign, digits) && (sign != "-" || Numeral(digits) == 0)
    ensures
      var text, value := white + sign + digits, Numeral(digits);
      value < 0x8000_0000 ==>
        && Atoi(text) == value
        && UserAccountCode(text) == (if value < 4096 then OK else LRG_ACCOUNT_ID)
        && ValidAccount(text) == (if value < 4096 then OK else INV_TRS_ACCOUNT)
        && DelayCode(text) == (if value <= 99999 then OK else LNG_DELAY)
        && OperationCode(text) == (if value <= 3 then OK else INV_OPERATION)
  {
    NumeralValue(white, sign, digits);
  }

  /** Beyond an `int` an identifier, a delay or an operation is judged by the low 32 bits of the clamped number. */
  lemma LargeTexts(text: string)
    requires IsWhole(text)
    ensures
      var value := ToInt(Strtol(text));
      && (UserAccountCode(text) == NEG_ACCOUNT_ID <==> value < 0)
      && (UserAccountCode(text) == LRG_ACCOUNT_ID <==> value >= 4096)
      && (ValidAccount(text) == OK <==> UserAccountCode(text) == OK) && (ValidAccount(text) in {OK, INV_TRS_ACCOUNT})
      && (DelayCode(text) == NEG_DELAY <==> value < 0) && (DelayCode(text) == LNG_DELAY <==> value > 99999)
      && (OperationCode(text) == INV_OPERATION <==> value < 0 || value > 3)
  {
  }

  /** Each code of a password, and of a new account's password. */
  lemma PasswordExactlyWhen(text: string)
    ensures PasswordVerdict(text) == Code(SRT_PASSWORD) <==> |text| < 8
    ensures PasswordVerdict(text) == Code(LNG_PASSWORD) <==> |text| > 20
    ensures PasswordVerdict(text) == NullPointer <==> 8 <= |text| <= 20 && AllSpaces(text)
    ensures PasswordVerdict(text) == Code(BAD_PASSWORD) <==> 8 <= |text| <= 20 && ' ' in text && !AllSpaces(text)
    ensures PasswordVerdict(text) == Code(OK) <==> 8 <= |text| <= 20 && ' ' !in text
    ensures ValidNewPassword(text) == SRT_PASSWORD <==> |text| < 8
    ensures ValidNewPassword(text) == LNG_PASSWORD <==> |text| > 20
    ensures ValidNewPassword(text) == OK <==> 8 <= |text| <= 20
  {
    NoWordsMeansSpaces(text);
  }

  lemma {:induction false} NoWordsMeansSpaces(text: string)
    ensures Tokens(text) == [] <==> AllSpaces(text)
  {
    if text != "" && text[0] == ' ' {
      NoWordsMeansSpaces(text[1..]);
      assert AllSpaces(text) <==> AllSpaces(text[1..]);
    }
  }

  // ----- The arguments of an operation -----

  /** Each verdict on the arguments of a creation. */
  lemma CreationVerdictExactlyWhen(arguments: string)
    ensures
      var words, verdict := Tokens(arguments), CreationVerdict(arguments);
      var idFits := |words| > 0 && ValidAccount(words[0]) == OK;
      var balanceFits := idFits && |words| > 1 && ValidBalance(words[1]) == OK;
      var passwordFits := balanceFits && |words| > 2 && 8 <= |words[2]| <= 20;
      && (verdict == NullPointer <==> arguments != "" && AllSpaces(arguments))
      && (verdict == Code(INV_NEW_ACCOUNT_ID) <==> |words| > 0 && !idFits)
      && (verdict == Code(SRT_BALANCE) <==> idFits && |words| > 1 && ValidBalance(words[1]) == SRT_BALANCE)
      && (verdict == Code(LRG_BALANCE) <==> idFits && |words| > 1 && ValidBalance(words[1]) == LRG_BALANCE)
      && (verdict == Code(OTHER_ERROR) <==> idFits && |words| > 1 && !IsWhole(words[1]))
      && (verdict == Code(INV_NEW_PASSWORD) <==> balanceFits && |words| > 2 && !passwordFits)
      && (verdict == Code(INV_OP_ARGUMENTS) <==>
            || arguments == "" || (idFits && |words| == 1)
            || (balanceFits && |words| == 2) || (passwordFits && |words| > 3))
      && (verdict == Code(OK) <==> passwordFits && |words| == 3)
  {
    NoWordsMeansSpaces(arguments);
  }

  /** Each verdict on the arguments of a transfer. */
  lemma TransferVerdictExactlyWhen(arguments: string)
    ensures
      var words, verdict := Tokens(arguments), TransferArgumentsVerdict(arguments);
      var idFits := |words| > 0 && ValidAccount(words[0]) == OK;
      var amountFits := idFits && |words| > 1 && ValidAmount(words[1]) == OK;
      && (verdict == NullPointer <==> arguments != "" && AllSpaces(arguments))
      && (verdict == Code(INV_TRS_ACCOUNT) <==> |words| > 0 && !idFits)
      && (verdict == Code(SML_TRSF_AMOUNT) <==> idFits && |words| > 1 && ValidAmount(words[1]) == SML_TRSF_AMOUNT)
      && (verdict == Code(LRG_TRSF_AMOUNT) <==> idFits && |words| > 1 && ValidAmount(words[1]) == LRG_TRSF_AMOUNT)
      && (verdict == Code(OTHER_ERROR) <==> idFits && |words| > 1 && !IsWhole(words[1]))
      && (verdict == Code(INV_OP_ARGUMENTS) <==>
            arguments == "" || (idFits && |words| == 1) || (amountFits && |words| > 2))
      && (verdict == Code(OK) <==> amountFits && |words| == 2)
  {
    NoWordsMeansSpaces(arguments);
  }

  /** Balance checks and shutdowns take no arguments; other operation numbers are refused. */
  lemma OtherArguments(operation: int, arguments: string)
    requires operation != 0 && operation != 2
    ensures ArgumentsVerdict(operation, arguments) == Code(OK)
       <==> (operation == 1 || operation == 3) && arguments == ""
    ensures ArgumentsVerdict(operation, arguments) == Code(INV_OP_ARGUMENTS) <==>
      (operation == 1 || operation == 3) && arguments != ""
    ensures ArgumentsVerdict(operation, arguments) == Code(OTHER_ERROR) <==> operation != 1 && operation != 3
  {
  }

  // ----- The command -----

  /** Which argument a refusal is about: the first one, in the order of the command line, that is refused. */
  lemma CommandVerdictExactlyWhen(account: string, password: string, delay: string, operation: string,
                                  arguments: string)
    ensures
      var verdict := CommandVerdict(account, password, delay, operation, arguments);
      var accountFits := UserAccountCode(account) == OK;
      var passwordFits := accountFits && PasswordVerdict(password) == Code(OK);
      var delayFits := passwordFits && DelayCode(delay) == OK;
      && (verdict == Code(NEG_ACCOUNT_ID) <==> UserAccountCode(account) == NEG_ACCOUNT_ID)
      && (verdict == Code(LRG_ACCOUNT_ID) <==> UserAccountCode(account) == LRG_ACCOUNT_ID)
      && (verdict == Code(SRT_PASSWORD) <==> accountFits && |password| < 8)
      && (verdict == Code(LNG_PASSWORD) <==> accountFits && |password| > 20)
      && (verdict == Code(BAD_PASSWORD) <==>
            accountFits && 8 <= |password| <= 20 && ' ' in password && !AllSpaces(password))
      && (verdict == Code(NEG_DELAY) <==> passwordFits && DelayCode(delay) == NEG_DELAY)
      && (verdict == Code(LNG_DELAY) <==> passwordFits && DelayCode(delay) == LNG_DELAY)
      && (verdict == Code(INV_OPERATION) <==> delayFits && OperationCode(operation) == INV_OPERATION)
      && (delayFits && OperationCode(operation) == OK ==>
            verdict == ArgumentsVerdict(ToInt(Strtol(operation)), arguments))
  {
    PasswordExactlyWhen(password);
    var number := ToInt(Strtol(operation));
    if number == 0 {
      CreationVerdictExactlyWhen(arguments);
    } else if number == 2 {
      TransferVerdictExactlyWhen(arguments);
    }
  }
}
