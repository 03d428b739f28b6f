/**
 * `src/lib/auth.ts`: the three session slots kept in browser storage, and the password,
 * email and Zimbabwe phone-number validators.
 */
module Auth {
  import opened Wrappers
  import opened Ascii
  import opened Seqs
  import opened Types
  import opened BrowserStorage

  const AuthTokenKey: string := "authToken"
  const RefreshTokenKey: string := "refreshToken"
  const UserKey: string := "user"

  /** The keys `clearAuth` removes. */
  const SessionKeys: set<string> := {AuthTokenKey, RefreshTokenKey, UserKey}

  // ---------------------------------------------------------------------------------------
  // Session slots. Reads are functions of the storage contents; writes change the storage.

  /** `getAuthToken`: null when nothing is stored under the token key. */
  function GetAuthToken(store: map<string, string>): (r: Option<string>)
    ensures r.Some? <==> AuthTokenKey in store
    ensures r.Some? ==> r.value == store[AuthTokenKey]
  {
    if AuthTokenKey in store then Some(store[AuthTokenKey]) else None
  }

  /** `getRefreshToken`: null when nothing is stored under the refresh-token key. */
  function GetRefreshToken(store: map<string, string>): (r: Option<string>)
    ensures r.Some? <==> RefreshTokenKey in store
    ensures r.Some? ==> r.value == store[RefreshTokenKey]
  {
    if RefreshTokenKey in store then Some(store[RefreshTokenKey]) else None
  }

  /** `getUser`: null when the slot is missing or empty, and null (never an exception) when
      its content does not parse. */
  function GetUser(store: map<string, string>): (r: Option<User>)
    ensures UserKey !in store ==> r == None
    ensures UserKey in store && ParseUser(store[UserKey]).None? ==> r == None
    ensures r.Some? ==> UserKey in store && ParseUser(store[UserKey]) == r
    ensures UserKey in store && store[UserKey] != "" && ParseUser(store[UserKey]).Some? ==>
      r == ParseUser(store[UserKey])
  {
    if UserKey !in store || store[UserKey] == "" then None else ParseUser(store[UserKey])
  }

  method SetAuthToken(ls: LocalStorage, token: string)
    modifies ls
    ensures ls.items == old(ls.items)[AuthTokenKey := token]
    ensures GetAuthToken(ls.items) == Some(token)
  {
    ls.SetItem(AuthTokenKey, token);
  }

  method SetRefreshToken(ls: LocalStorage, token: string)
    modifies ls
    ensures ls.items == old(ls.items)[RefreshTokenKey := token]
    ensures GetRefreshToken(ls.items) == Some(token)
  {
    ls.SetItem(RefreshTokenKey, token);
  }

  method SetUser(ls: LocalStorage, user: User)
    modifies ls
    ensures ls.items == old(ls.items)[UserKey := SerializeUser(user)]
    ensures GetUser(ls.items) == Some(user)
  {
    ls.SetItem(UserKey, SerializeUser(user));
    SetThenGetUser(old(ls.items), user);
  }

  /** Storing a user and reading it back gives the same user. */
  lemma {:induction false} SetThenGetUser(store: map<string, string>, user: User)
    ensures GetUser(store[UserKey := SerializeUser(user)]) == Some(user)
  {
    SerializeUserNonEmpty(user);
    ParseSerializeUser(user);
  }

  method ClearAuth(ls: LocalStorage)
    modifies ls
    ensures ls.items == old(ls.items) - SessionKeys
    ensures forall k :: k !in SessionKeys ==> (k in ls.items <==> k in old(ls.items))
    ensures forall k :: k !in SessionKeys && k in ls.items ==> ls.items[k] == old(ls.items)[k]
    ensures GetAuthToken(ls.items) == None && GetRefreshToken(ls.items) == None && GetUser(ls.items) == None
  {
    ls.RemoveItem(AuthTokenKey);
    ls.RemoveItem(RefreshTokenKey);
    ls.RemoveItem(UserKey);
  }

  /** `!!getAuthToken()`: a token is stored and it is not the empty string. */
  function IsAuthenticated(store: map<string, string>): (b: bool)
    ensures b <==> AuthTokenKey in store && store[AuthTokenKey] != ""
  {
    match GetAuthToken(store)
    case None => false
    case Some(t) => t != ""
  }

  function IsLandlord(store: map<string, string>): (b: bool)
    ensures b <==> GetUser(store).Some? && GetUser(store).value.userType == Landlord
    ensures UserKey !in store ==> !b
  {
    match GetUser(store)
    case None => false
    case Some(u) => u.userType == Landlord
  }

  function IsTenant(store: map<string, string>): (b: bool)
    ensures b <==> GetUser(store).Some? && GetUser(store).value.userType == Tenant
    ensures UserKey !in store ==> !b
    ensures !(b && IsLandlord(store))
  {
    match GetUser(store)
    case None => false
    case Some(u) => u.userType == Tenant
  }

  // ---------------------------------------------------------------------------------------
  // Password strength

  datatype PasswordRule = MinLength | Uppercase | Lowercase | Digit | SpecialCharacter

  /** The rules in the order the validator checks them. */
  const PasswordRules: seq<PasswordRule> := [MinLength, Uppercase, Lowercase, Digit, SpecialCharacter]

  /** The character class `[!@#$%^&*(),.?":{}|<>]`. */
  predicate IsSpecial(c: char) {
    c in {'!', '@', '#', '$', '%', '^', '&', '*', '(', ')', ',', '.', '?', '"', ':', '{', '}', '|', '<', '>'}
  }

  predicate Satisfies(password: string, rule: PasswordRule) {
    match rule
    case MinLength => |password| >= 8
    case Uppercase => Any(password, IsUpper)
    case Lowercase => Any(password, IsLower)
    case Digit => Any(password, IsDigit)
    case SpecialCharacter => Any(password, IsSpecial)
  }

  const MinLengthMessage: string := "Password must be at least 8 characters long"
  const UppercaseMessage: string := "Password must contain at least one uppercase letter"
  const LowercaseMessage: string := "Password must contain at least one lowercase letter"
  const DigitMessage: string := "Password must contain at least one number"
  const SpecialCharacterMessage: string := "Password must contain at least one special character"

  function RuleMessage(rule: PasswordRule): string {
    match rule
    case MinLength => MinLengthMessage
    case Uppercase => UppercaseMessage
    case Lowercase => LowercaseMessage
    case Digit => DigitMessage
    case SpecialCharacter => SpecialCharacterMessage
  }

  function Messages(rules: seq<PasswordRule>): (ms: seq<string>)
    ensures |ms| == |rules|
    ensures forall i :: 0 <= i < |rules| ==> ms[i] == RuleMessage(rules[i])
  {
    if rules == [] then [] else [RuleMessage(rules[0])] + Messages(rules[1..])
  }

  /** Whether `password` breaks `rule`. */
  function Breaks(password: string): PasswordRule -> bool {
    (rule: PasswordRule) => !Satisfies(password, rule)
  }

  /** The rules `password` breaks, in checking order. */
  function FailedRules(password: string): seq<PasswordRule> {
    Filter(PasswordRules, Breaks(password))
  }

  /** The policy stated on its own: at least 8 characters, with an upper-case letter, a
      lower-case letter, a digit and a special character. */
  predicate IsStrongPassword(p: string) {
    && |p| >= 8
    && (exists i :: 0 <= i < |p| && IsUpper(p[i]))
    && (exists i :: 0 <= i < |p| && IsLower(p[i]))
    && (exists i :: 0 <= i < |p| && IsDigit(p[i]))
    && (exists i :: 0 <= i < |p| && IsSpecial(p[i]))
  }

  /** `validatePassword`: one message per broken rule, in the fixed rule order. */
  method ValidatePassword(password: string) returns (errors: seq<string>)
    ensures errors == Messages(FailedRules(password))
    ensures |errors| <= |PasswordRules|
    ensures |errors| == 0 <==> IsStrongPassword(password)
  {
    ghost var failed: seq<PasswordRule> := [];
    errors := [];
    errors := CheckRule(password, MinLength, failed, errors);
    failed := Broken(password, MinLength);
    errors := CheckRule(password, Uppercase, failed, errors);
    failed := failed + Broken(password, Uppercase);
    errors := CheckRule(password, Lowercase, failed, errors);
    failed := failed + Broken(password, Lowercase);
    errors := CheckRule(password, Digit, failed, errors);
    failed := failed + Broken(password, Digit);
    errors := CheckRule(password, SpecialCharacter, failed, errors);
    failed := failed + Broken(password, SpecialCharacter);
    FailedRulesUnfold(password);
    assert failed == FailedRules(password);
    FailedRulesMeaning(password);
  }

  /** One `if (!regex.test(password)) errors.push(message)` step of the validator: the
      message is added exactly when the password breaks the rule. */
  method CheckRule(password: string, rule: PasswordRule, ghost failed: seq<PasswordRule>, errors: seq<string>)
    returns (errors': seq<string>)
    requires errors == Messages(failed)
    ensures errors' == Messages(failed + Broken(password, rule))
    ensures Satisfies(password, rule) ==> errors' == errors
    ensures !Satisfies(password, rule) ==> errors' == errors + [RuleMessage(rule)]
  {
    MessagesStep(failed, rule, password);
    errors' := errors;
    if !Satisfies(password, rule) {
      errors' := errors + [RuleMessage(rule)];
    }
  }

  /** The rule as a one-element list when `password` breaks it, else nothing. */
  function Broken(password: string, rule: PasswordRule): seq<PasswordRule> {
    Kept(rule, Breaks(password))
  }

  /** Checking one more rule adds its message exactly when the rule is broken. */
  lemma {:induction false} MessagesStep(rules: seq<PasswordRule>, rule: PasswordRule, password: string)
    ensures Satisfies(password, rule) ==> Messages(rules + Broken(password, rule)) == Messages(rules)
    ensures !Satisfies(password, rule) ==>
      Messages(rules + Broken(password, rule)) == Messages(rules) + [RuleMessage(rule)]
  {
    if Satisfies(password, rule) {
      assert rules + Broken(password, rule) == rules;
    } else {
      MessagesAppend(rules, rule);
    }
  }

  lemma {:induction false} MessagesAppend(rules: seq<PasswordRule>, rule: PasswordRule)
    ensures Messages(rules + [rule]) == Messages(rules) + [RuleMessage(rule)]
  {
  }

  /** The rules broken, spelled out rule by rule. */
  lemma {:induction false} FailedRulesUnfold(password: string)
    ensures FailedRules(password) == Broken(password, MinLength) + Broken(password, Uppercase) +
      Broken(password, Lowercase) + Broken(password, Digit) + Broken(password, SpecialCharacter)
  {
    FilterFive(MinLength, Uppercase, Lowercase, Digit, SpecialCharacter, Breaks(password));
  }

  /** Every rule is one of the five checked. */
  lemma {:induction false} RuleIsChecked(rule: PasswordRule)
    ensures rule in PasswordRules
  {
    match rule {
      case MinLength => assert PasswordRules[0] == rule;
      case Uppercase => assert PasswordRules[1] == rule;
      case Lowercase => assert PasswordRules[2] == rule;
      case Digit => assert PasswordRules[3] == rule;
      case SpecialCharacter => assert PasswordRules[4] == rule;
    }
  }

  /** The broken rules are exactly those the password does not satisfy. */
  lemma {:induction false} FailedRulesMembers(password: string)
    ensures forall rule :: rule in FailedRules(password) <==> !Satisfies(password, rule)
  {
    var failed := FailedRules(password);
    FilterMembers(PasswordRules, Breaks(password));
    forall rule ensures rule in failed <==> !Satisfies(password, rule) {
      RuleIsChecked(rule);
      if rule in failed {
        var i :| 0 <= i < |failed| && failed[i] == rule;
      }
    }
  }

  /** Satisfying all five rules is being a strong password. */
  lemma {:induction false} SatisfiesAllMeaning(password: string)
    ensures (forall rule :: Satisfies(password, rule)) <==> IsStrongPassword(password)
  {
    AnyMeaning(password, IsUpper);
    AnyMeaning(password, IsLower);
    AnyMeaning(password, IsDigit);
    AnyMeaning(password, IsSpecial);
    if IsStrongPassword(password) {
      forall rule ensures Satisfies(password, rule) {
      }
    } else {
      assert !Satisfies(password, MinLength) || !Satisfies(password, Uppercase) || !Satisfies(password, Lowercase)
        || !Satisfies(password, Digit) || !Satisfies(password, SpecialCharacter);
    }
  }

  /** A password breaks each rule at most once, the broken rules are exactly those it does not
      satisfy, and none is broken exactly when the password is strong. */
  lemma {:induction false} FailedRulesMeaning(password: string)
    ensures |FailedRules(password)| <= |PasswordRules|
    ensures forall rule :: rule in FailedRules(password) <==> !Satisfies(password, rule)
    ensures FailedRules(password) == [] <==> IsStrongPassword(password)
  {
    FailedRulesMembers(password);
    SatisfiesAllMeaning(password);
    if FailedRules(password) != [] {
      assert FailedRules(password)[0] in FailedRules(password);
    }
  }

  /** Distinct rules have distinct messages. */
  lemma {:induction false} RuleMessageInjective(r1: PasswordRule, r2: PasswordRule)
    ensures RuleMessage(r1) == RuleMessage(r2) ==> r1 == r2
  {
    if r1 != r2 {
      var m1, m2 := RuleMessage(r1), RuleMessage(r2);
      if r1 == MinLength || r2 == MinLength {
        assert m1[14] != m2[14];
      } else {
        assert m1[35] != m2[35];
      }
    }
  }

  /** The validator reports a rule's message exactly when the password breaks that rule. */
  lemma {:induction false} PasswordMessagesNameBrokenRules(password: string)
    ensures forall rule :: RuleMessage(rule) in Messages(FailedRules(password)) <==> !Satisfies(password, rule)
  {
    FailedRulesMeaning(password);
    MessagesNamesRules(FailedRules(password));
  }

  /** A message names the rule it came from. */
  lemma {:induction false} MessagesNamesRules(rules: seq<PasswordRule>)
    ensures forall rule :: RuleMessage(rule) in Messages(rules) <==> rule in rules
  {
    forall rule ensures RuleMessage(rule) in Messages(rules) <==> rule in rules {
      if RuleMessage(rule) in Messages(rules) {
        var i :| 0 <= i < |rules| && Messages(rules)[i] == RuleMessage(rule);
        RuleMessageInjective(rules[i], rule);
      }
      if rule in rules {
        var i :| 0 <= i < |rules| && rules[i] == rule;
        assert Messages(rules)[i] == RuleMessage(rule);
      }
    }
  }

  // ---------------------------------------------------------------------------------------
  // Email shape: /^[^\s@]+@[^\s@]+\.[^\s@]+$/

  predicate EmailChar(c: char) {
    !IsSpace(c) && c != '@'
  }

  predicate AllEmailChars(s: string) {
    forall i :: 0 <= i < |s| ==> EmailChar(s[i])
  }

  /** The regular expression read as a language: local part, `@`, domain label, `.`, rest,
      none of the three parts empty or holding whitespace or `@`. */
  ghost predicate MatchesEmailPattern(s: string) {
    exists at, dot ::
      && 0 < at && at + 1 < dot && dot + 1 < |s|
      && s[at] == '@' && s[dot] == '.'
      && AllEmailChars(s[..at]) && AllEmailChars(s[at + 1..dot]) && AllEmailChars(s[dot + 1..])
  }

  predicate IsAt(c: char) {
    c == '@'
  }

  /** The check `validateEmail` makes: no whitespace, exactly one `@`, something before it,
      and a `.` with text on both sides after it. */
  predicate EmailShape(email: string) {
    match FindFirst(email, IsAt)
    case None => false
    case Some(at) =>
      && 0 < at
      && (forall i :: 0 <= i < |email| ==> !IsSpace(email[i]))
      && (forall i :: at < i < |email| ==> email[i] != '@')
      && (exists dot :: at + 1 < dot < |email| - 1 && email[dot] == '.')
  }

  /** `validateEmail`. */
  function ValidateEmail(email: string): (ok: bool)
    ensures ok <==> MatchesEmailPattern(email)
  {
    EmailShapeMatchesPattern(email);
    EmailShape(email)
  }

  lemma {:induction false} EmailShapeMatchesPattern(s: string)
    ensures EmailShape(s) <==> MatchesEmailPattern(s)
  {
    if EmailShape(s) {
      EmailShapeIsPattern(s);
    }
    if MatchesEmailPattern(s) {
      PatternIsEmailShape(s);
    }
  }

  lemma {:induction false} EmailShapeIsPattern(s: string)
    requires EmailShape(s)
    ensures MatchesEmailPattern(s)
  {
    var at := FindFirst(s, IsAt).value;
    var dot :| at + 1 < dot < |s| - 1 && s[dot] == '.';
    assert AllEmailChars(s[..at]);
    assert AllEmailChars(s[at + 1..dot]);
    assert AllEmailChars(s[dot + 1..]);
  }

  /** What a slice of email characters says about the characters themselves. */
  lemma {:induction false} AllEmailCharsSlice(s: string, lo: nat, hi: nat)
    requires lo <= hi <= |s|
    requires AllEmailChars(s[lo..hi])
    ensures forall i :: lo <= i < hi ==> EmailChar(s[i])
  {
    forall i | lo <= i < hi ensures EmailChar(s[i]) {
      assert s[lo..hi][i - lo] == s[i];
    }
  }

  lemma {:induction false} PatternIsEmailShape(s: string)
    requires MatchesEmailPattern(s)
    ensures EmailShape(s)
  {
    var at, dot :|
      && 0 < at && at + 1 < dot && dot + 1 < |s|
      && s[at] == '@' && s[dot] == '.'
      && AllEmailChars(s[..at]) && AllEmailChars(s[at + 1..dot]) && AllEmailChars(s[dot + 1..]);
    AllEmailCharsSlice(s, 0, at);
    AllEmailCharsSlice(s, at + 1, dot);
    AllEmailCharsSlice(s, dot + 1, |s|);
    assert FindFirst(s, IsAt) == Some(at) by {
      var f := FindFirst(s, IsAt);
      assert f.Some? by {
        assert IsAt(s[at]);
      }
    }
    assert forall i :: 0 <= i < |s| ==> !IsSpace(s[i]) by {
      forall i | 0 <= i < |s| ensures !IsSpace(s[i]) {
        if i != at && i != dot {
          assert EmailChar(s[i]);
        }
      }
    }
    assert forall i :: at < i < |s| ==> s[i] != '@' by {
      forall i | at < i < |s| ensures s[i] != '@' {
        if i != dot {
          assert EmailChar(s[i]);
        }
      }
    }
  }

  // ---------------------------------------------------------------------------------------
  // Zimbabwe phone numbers: /^(\+263|0)[0-9]{9}$/ after removing whitespace

  /** `phone.replace(/\s+/g, "")`. */
  function RemoveSpaces(s: string): string {
    Filter(s, c => !IsSpace(c))
  }

  predicate NineDigits(d: string) {
    |d| == 9 && forall i :: 0 <= i < 9 ==> IsDigit(d[i])
  }

  /** The pattern, applied to text already stripped of whitespace. */
  predicate PhonePattern(t: string) {
    || (|t| == 13 && t[..4] == "+263" && NineDigits(t[4..]))
    || (|t| == 10 && t[0] == '0' && NineDigits(t[1..]))
  }

  lemma {:induction false} PhonePatternMeaning(t: string)
    ensures PhonePattern(t) <==> exists d :: NineDigits(d) && (t == "+263" + d || t == "0" + d)
  {
    if |t| == 13 && t[..4] == "+263" && NineDigits(t[4..]) {
      assert t == "+263" + t[4..];
    } else if |t| == 10 && t[0] == '0' && NineDigits(t[1..]) {
      assert t == "0" + t[1..];
    } else {
      forall d | NineDigits(d) ensures t != "+263" + d && t != "0" + d {
        assert ("+263" + d)[..4] == "+263" && ("+263" + d)[4..] == d;
        assert ("0" + d)[1..] == d;
      }
    }
  }

  /** `validatePhoneNumber`: after removing whitespace, `+263` or `0` and then exactly nine digits. */
  function ValidatePhoneNumber(phone: string): (ok: bool)
    ensures ok <==> exists d :: NineDigits(d) && (RemoveSpaces(phone) == "+263" + d || RemoveSpaces(phone) == "0" + d)
  {
    PhonePatternMeaning(RemoveSpaces(phone));
    PhonePattern(RemoveSpaces(phone))
  }

  /** Whitespace anywhere in the input never changes the verdict. */
  lemma {:induction false} PhoneIgnoresWhitespace(a: string, b: string, w: char)
    requires IsSpace(w)
    ensures ValidatePhoneNumber(a + [w] + b) == ValidatePhoneNumber(a + b)
  {
    var p := c => !IsSpace(c);
    FilterAppend(a + [w], b, p);
    FilterAppend(a, [w], p);
    FilterAppend(a, b, p);
    FilterSingleton(w, p);
    assert RemoveSpaces(a + [w] + b) == RemoveSpaces(a + b);
  }
}
