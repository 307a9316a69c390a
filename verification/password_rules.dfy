/** The password-strength policy. The password-update modal checks it as a
    list of rules tried in order; the sign-up screen and the profile editor
    check it as an if/else chain. Both report the message of the first rule
    that fails, or nothing when every rule holds. */
module PasswordRules {
  import opened Text

  datatype Rule = MinLength | HasUppercase | HasLowercase | HasDigit | HasSpecial | NoSpaces

  /** The order in which the rules are tried. */
  const RuleOrder: seq<Rule> := [MinLength, HasUppercase, HasLowercase, HasDigit, HasSpecial, NoSpaces]

  function Message(r: Rule): string {
    match r
    case MinLength => "Password must be at least 8 characters long."
    case HasUppercase => "Password must contain at least one uppercase letter."
    case HasLowercase => "Password must contain at least one lowercase letter."
    case HasDigit => "Password must contain at least one number."
    case HasSpecial => "Password must contain at least one special character."
    case NoSpaces => "Password cannot contain spaces."
  }

  /** The test attached to each rule of the list. */
  predicate Holds(r: Rule, p: string) {
    match r
    case MinLength => |p| >= 8
    case HasUppercase => ContainsClass(p, Upper)
    case HasLowercase => ContainsClass(p, Lower)
    case HasDigit => ContainsClass(p, Digit)
    case HasSpecial => ContainsClass(p, Special)
    case NoSpaces => !ContainsClass(p, Space)
  }

  /** The policy itself: at least eight characters, an upper-case letter, a
      lower-case letter, a digit, a special character and no white space. */
  predicate Strong(p: string) {
    && |p| >= 8
    && (exists i | 0 <= i < |p| :: IsAsciiUpper(p[i]))
    && (exists i | 0 <= i < |p| :: IsAsciiLower(p[i]))
    && (exists i | 0 <= i < |p| :: IsAsciiDigit(p[i]))
    && (exists i | 0 <= i < |p| :: p[i] in SpecialChars)
    && (forall i | 0 <= i < |p| :: !IsWhitespace(p[i]))
  }

  /** Rule number `i` is the first rule that `p` breaks. */
  predicate FirstFailing(p: string, i: int) {
    && 0 <= i < |RuleOrder|
    && !Holds(RuleOrder[i], p)
    && forall j | 0 <= j < i :: Holds(RuleOrder[j], p)
  }

  /** What the rule-list validator reports for `p`: nothing for a strong
      password, otherwise the message of the first failing rule. */
  predicate ReportsFirstFailure(p: string, msg: string) {
    || (Strong(p) && msg == "")
    || (exists i | 0 <= i < |RuleOrder| :: FirstFailing(p, i) && msg == Message(RuleOrder[i]))
  }

  /** A password passes every rule of the list exactly when it is strong. */
  lemma AllRulesIffStrong(p: string)
    ensures (forall j | 0 <= j < |RuleOrder| :: Holds(RuleOrder[j], p)) <==> Strong(p)
  {
    if forall j | 0 <= j < |RuleOrder| :: Holds(RuleOrder[j], p) {
      assert Holds(RuleOrder[0], p) && Holds(RuleOrder[1], p) && Holds(RuleOrder[2], p);
      assert Holds(RuleOrder[3], p) && Holds(RuleOrder[4], p) && Holds(RuleOrder[5], p);
    }
  }

  /** At most one rule is the first to fail. */
  lemma FirstFailingUnique(p: string, i: int, j: int)
    requires FirstFailing(p, i) && FirstFailing(p, j)
    ensures i == j
  {
  }

  /** Every message is non-empty, so an empty report means success. */
  lemma MessagesNonEmpty(r: Rule)
    ensures Message(r) != ""
  {
  }

  /** The if/else chain of the sign-up screen and the profile editor: the
      message of the first failing rule, or the empty string. */
  function ChainMessage(p: string): string {
    if |p| < 8 then "Password must be at least 8 characters long."
    else if !ContainsClass(p, Upper) then "Password must contain at least one uppercase letter."
    else if !ContainsClass(p, Lower) then "Password must contain at least one lowercase letter."
    else if !ContainsClass(p, Digit) then "Password must contain at least one number."
    else if !ContainsClass(p, Special) then "Password must contain at least one special character."
    else if ContainsClass(p, Space) then "Password cannot contain spaces."
    else ""
  }

  /** The chain reports what the rule list reports, message for message, and
      is silent exactly on strong passwords. */
  lemma ChainReportsFirstFailure(p: string)
    ensures ReportsFirstFailure(p, ChainMessage(p))
    ensures ChainMessage(p) == "" <==> Strong(p)
  {
    AllRulesIffStrong(p);
    if |p| < 8 {
      assert FirstFailing(p, 0);
    } else if !ContainsClass(p, Upper) {
      assert FirstFailing(p, 1);
    } else if !ContainsClass(p, Lower) {
      assert FirstFailing(p, 2);
    } else if !ContainsClass(p, Digit) {
      assert FirstFailing(p, 3);
    } else if !ContainsClass(p, Special) {
      assert FirstFailing(p, 4);
    } else if ContainsClass(p, Space) {
      assert FirstFailing(p, 5);
    } else {
      assert forall j | 0 <= j < |RuleOrder| :: Holds(RuleOrder[j], p);
    }
  }

  /** Whatever message the rule list reports, the chain reports the same. */
  lemma ChainAgreesWithRuleList(p: string, msg: string)
    requires ReportsFirstFailure(p, msg)
    ensures ChainMessage(p) == msg
  {
    ChainReportsFirstFailure(p);
    AllRulesIffStrong(p);
    if Strong(p) {
      forall i | 0 <= i < |RuleOrder|
        ensures !FirstFailing(p, i)
      {
      }
    } else {
      var i :| FirstFailing(p, i) && msg == Message(RuleOrder[i]);
      var j :| FirstFailing(p, j) && ChainMessage(p) == Message(RuleOrder[j]);
      FirstFailingUnique(p, i, j);
    }
  }

  /** "abc12345" has no upper-case letter (nor a special character); the
      first of these is reported. */
  lemma NoUppercaseExample()
    ensures ChainMessage("abc12345") == Message(HasUppercase)
  {
    var p := "abc12345";
    forall i | 0 <= i < |p|
      ensures !InClass(p[i], Upper)
    {
    }
  }

  /** "Abc123!" is one character too short. */
  lemma TooShortExample()
    ensures ChainMessage("Abc123!") == Message(MinLength)
  {
  }

  /** "Abcdef1!" meets every rule. */
  lemma StrongExample()
    ensures ChainMessage("Abcdef1!") == ""
  {
    var p := "Abcdef1!";
    assert ContainsClass(p, Upper) by { assert InClass(p[0], Upper); }
    assert ContainsClass(p, Lower) by { assert InClass(p[1], Lower); }
    assert ContainsClass(p, Digit) by { assert InClass(p[6], Digit); }
    assert ContainsClass(p, Special) by {
      assert p[7] == SpecialChars[0];
      assert InClass(p[7], Special);
    }
    assert !ContainsClass(p, Space) by {
      forall i | 0 <= i < |p|
        ensures !InClass(p[i], Space)
      {
        PrintableIsNotSpace(p[i]);
      }
    }
  }

  lemma PrintableIsNotSpace(c: char)
    requires '!' <= c <= '~'
    ensures !InClass(c, Space)
  {
  }
}
