/** A borrower record: contact data, activity flag and the eligibility
    predicates the recovery services consult
    (borrower-service/src/models/Borrower.cpp). */
module Borrowers {
  import opened Wrappers
  import opened Exceptions
  import opened Text

  datatype InactiveReason = PaidOff | AccountClosed | Deceased | Fraud | LegalAction | None

  datatype EmploymentStatus = Employed | Unemployed | SelfEmployed | Student | Retired | Contract | PartTime | None

  datatype Borrower = Borrower(
    id: int,
    firstName: string,
    lastName: string,
    email: string,
    employmentStatus: EmploymentStatus,
    isActive: bool,
    monthlyIncome: real,
    inactiveReason: InactiveReason,
    createdAt: int,
    updatedAt: int,
    inactivatedAt: int)

  /** The constructor: active, no email, no income, no inactivity reason. */
  function NewBorrower(id: int, firstName: string, lastName: string, now: int): (b: Borrower)
    ensures b.isActive && b.email == "" && b.monthlyIncome == 0.0
    ensures b.id == id && b.firstName == firstName && b.lastName == lastName
    ensures b.inactiveReason == InactiveReason.None && b.employmentStatus == EmploymentStatus.None
    ensures b.createdAt == now && b.updatedAt == now
  {
    Borrower(id, firstName, lastName, "", EmploymentStatus.None, true, 0.0, InactiveReason.None, now, now, 0)
  }

  /** Characters of the part before '@' ([a-zA-Z0-9._%+-]). */
  predicate IsLocalChar(c: char) {
    IsLetter(c) || IsDigit(c) || c in {'.', '_', '%', '+', '-'}
  }

  /** Characters of the domain before its final dot ([a-zA-Z0-9.-]). */
  predicate IsDomainChar(c: char) {
    IsLetter(c) || IsDigit(c) || c == '.' || c == '-'
  }

  predicate AllLocal(s: string) {
    forall i :: 0 <= i < |s| ==> IsLocalChar(s[i])
  }

  predicate AllDomain(s: string) {
    forall i :: 0 <= i < |s| ==> IsDomainChar(s[i])
  }

  predicate AllLetters(s: string) {
    forall i :: 0 <= i < |s| ==> IsLetter(s[i])
  }

  /** The three parts of ^[a-zA-Z0-9._%+-]+@[a-zA-Z0-9.-]+\.[a-zA-Z]{2,}$ around its '@' and '.'. */
  predicate EmailParts(local: string, domain: string, tld: string) {
    |local| > 0 && AllLocal(local) && |domain| > 0 && AllDomain(domain) && |tld| >= 2 && AllLetters(tld)
  }

  /** The regular expression read declaratively: some '@' and some later '.'
      cut the address into the three parts. */
  predicate MatchesEmailPattern(e: string) {
    exists i, j | 0 <= i < |e| && 0 <= j < |e| :: SplitsAt(e, i, j)
  }

  /** The '@' at `i` and the '.' at `j` cut `e` into the three parts. */
  predicate SplitsAt(e: string, i: int, j: int) {
    0 < i < j < |e| && e[i] == '@' && e[j] == '.' && EmailParts(e[..i], e[i + 1..j], e[j + 1..])
  }

  /** The same check computed directly: split at the first '@', then at the
      last '.' after it. */
  predicate IsValidEmail(e: string) {
    match EmailSplit(e)
    case None => false
    case Some((i, j)) => EmailParts(e[..i], e[i + 1..j], e[j + 1..])
  }

  /** The position of the first '@' and of the last '.' after it, if both exist. */
  function EmailSplit(e: string): (r: Option<(nat, nat)>)
    ensures r.None? <==> '@' !in e || '.' !in e[IndexOf(e, '@').value + 1..]
    ensures r.Some? ==> r.value.0 < r.value.1 < |e| && e[r.value.0] == '@' && e[r.value.1] == '.'
    ensures r.Some? ==> '@' !in e[..r.value.0] && '.' !in e[r.value.1 + 1..]
  {
    match IndexOf(e, '@')
    case None => Option.None
    case Some(i) =>
      match LastIndexOf(e[i + 1..], '.')
      case None => Option.None
      case Some(k) =>
        assert e[i + 1 + k + 1..] == e[i + 1..][k + 1..];
        Some((i, i + 1 + k))
  }

  /** The computed check accepts exactly the addresses the pattern matches. */
  lemma ValidEmailMatchesPattern(e: string)
    ensures IsValidEmail(e) <==> MatchesEmailPattern(e)
  {
    if IsValidEmail(e) {
      ValidEmailIsMatch(e);
    }
    if MatchesEmailPattern(e) {
      var i, j :| SplitsAt(e, i, j);
      MatchIsValidEmail(e, i, j);
    }
  }

  lemma ValidEmailIsMatch(e: string)
    requires IsValidEmail(e)
    ensures MatchesEmailPattern(e)
  {
    var (i, j) := EmailSplit(e).value;
    assert SplitsAt(e, i, j);
  }

  /** A split the pattern accepts is the one the computed check finds: the
      local part holds no '@' and the top-level domain no '.'. */
  lemma MatchIsValidEmail(e: string, i: int, j: int)
    requires SplitsAt(e, i, j)
    ensures IsValidEmail(e)
  {
    FirstAtOfMatch(e, i, j);
    LastDotOfMatch(e, i, j);
    assert EmailSplit(e) == Some((i, j));
  }

  lemma FirstAtOfMatch(e: string, i: int, j: int)
    requires SplitsAt(e, i, j)
    ensures IndexOf(e, '@') == Some(i)
  {
    LocalHasNoAt(e[..i]);
    IndexOfUnique(e, '@', i);
  }

  lemma LastDotOfMatch(e: string, i: int, j: int)
    requires SplitsAt(e, i, j)
    ensures LastIndexOf(e[i + 1..], '.') == Some(j - i - 1)
  {
    var rest := e[i + 1..];
    assert rest[j - i - 1] == '.';
    assert rest[j - i..] == e[j + 1..];
    LettersHaveNoDot(e[j + 1..]);
    LastIndexOfUnique(rest, '.', j - i - 1);
  }

  lemma LocalHasNoAt(s: string)
    requires AllLocal(s)
    ensures '@' !in s
  {
  }

  lemma LettersHaveNoDot(s: string)
    requires AllLetters(s)
    ensures '.' !in s
  {
  }

  lemma IndexOfUnique(s: string, c: char, i: nat)
    requires i < |s| && s[i] == c && c !in s[..i]
    ensures IndexOf(s, c) == Some(i)
  {
  }

  lemma LastIndexOfUnique(s: string, c: char, k: nat)
    requires k < |s| && s[k] == c && c !in s[k + 1..]
    ensures LastIndexOf(s, c) == Some(k)
  {
  }

  function SetEmail(b: Borrower, email: string, now: int): (r: Result<Borrower, Exception>)
    ensures r.Ok? <==> MatchesEmailPattern(email)
    ensures r.Ok? ==> r.value == b.(email := email, updatedAt := now)
    ensures r.Err? ==> r.error == Invalid("Invalid email format: ", "email")
  {
    ValidEmailMatchesPattern(email);
    if !IsValidEmail(email) then Err(Invalid("Invalid email format: ", "email"))
    else Ok(b.(email := email, updatedAt := now))
  }

  /** setMonthlyIncome. Reals have no NaN or infinity, so only the sign check remains. */
  function SetMonthlyIncome(b: Borrower, income: real, now: int): (r: Result<Borrower, Exception>)
    ensures r.Ok? <==> income >= 0.0
    ensures r.Ok? ==> r.value == b.(monthlyIncome := income, updatedAt := now)
    ensures r.Err? ==> r.error == Invalid("Income cannot be negative", "monthlyIncome")
  {
    if income < 0.0 then Err(Invalid("Income cannot be negative", "monthlyIncome"))
    else Ok(b.(monthlyIncome := income, updatedAt := now))
  }

  /** setActive: the inactivity reason of an earlier setInactive is kept. */
  function SetActive(b: Borrower, now: int): (r: Borrower)
    ensures r.isActive && r.inactiveReason == b.inactiveReason
    ensures r.(isActive := b.isActive, updatedAt := b.updatedAt) == b
  {
    b.(isActive := true, updatedAt := now)
  }

  function SetInactive(b: Borrower, reason: InactiveReason, now: int): (r: Borrower)
    ensures !r.isActive && r.inactiveReason == reason && r.inactivatedAt == now
    ensures r.(isActive := b.isActive, inactiveReason := b.inactiveReason,
               inactivatedAt := b.inactivatedAt, updatedAt := b.updatedAt) == b
  {
    b.(isActive := false, inactiveReason := reason, inactivatedAt := now, updatedAt := now)
  }

  function FullName(b: Borrower): (r: string)
    ensures |r| == |b.firstName| + 1 + |b.lastName|
    ensures r[..|b.firstName|] == b.firstName && r[|b.firstName|] == ' ' && r[|b.firstName| + 1..] == b.lastName
  {
    b.firstName + " " + b.lastName
  }

  predicate HasEmail(b: Borrower) {
    b.email != ""
  }

  predicate HasValidIncome(b: Borrower) {
    b.monthlyIncome > 0.0
  }

  predicate CanContact(b: Borrower) {
    b.email != "" && b.isActive
  }

  predicate CanSendCommunication(b: Borrower) {
    b.isActive && b.email != ""
  }

  predicate HasCompleteProfile(b: Borrower) {
    b.id > 0 && b.firstName != "" && b.lastName != "" && b.email != ""
  }

  predicate CanApplyRecoveryStrategy(b: Borrower) {
    b.isActive && HasCompleteProfile(b) && b.monthlyIncome > 0.0
  }

  /** How the eligibility predicates relate: the two contact checks agree,
      recovery eligibility implies contactability, and the activity
      setters switch contactability exactly as expected. */
  lemma EligibilityRelations(b: Borrower, reason: InactiveReason, now: int)
    ensures CanContact(b) <==> CanSendCommunication(b)
    ensures CanSendCommunication(b) <==> b.isActive && HasEmail(b)
    ensures CanApplyRecoveryStrategy(b) <==> b.isActive && HasCompleteProfile(b) && HasValidIncome(b)
    ensures CanApplyRecoveryStrategy(b) ==> CanSendCommunication(b)
    ensures !CanContact(SetInactive(b, reason, now)) && !CanApplyRecoveryStrategy(SetInactive(b, reason, now))
    ensures CanContact(SetActive(b, now)) <==> HasEmail(b)
  {
  }

  /** A new borrower is active but cannot be contacted until an email is set. */
  lemma NewBorrowerContact(id: int, f: string, l: string, e: string, now: int)
    ensures NewBorrower(id, f, l, now).isActive && !CanContact(NewBorrower(id, f, l, now))
    ensures SetEmail(NewBorrower(id, f, l, now), e, now).Ok? ==> CanContact(SetEmail(NewBorrower(id, f, l, now), e, now).value)
  {
    ValidEmailMatchesPattern(e);
  }

  /** getMaskedEmail on a raw address. */
  function MaskEmail(email: string): (r: string)
    ensures email == "" ==> r == ""
    ensures '@' !in email || email[0] == '@' ==> r == email
    ensures email != "" && '@' in email && email[0] != '@' ==>
              var i := IndexOf(email, '@').value;
              r == [email[0]] + "*****" + email[i..]
  {
    if email == "" then ""
    else
      match IndexOf(email, '@')
      case None => email
      case Some(atPos) =>
        if atPos == 0 then email else email[..1] + "*****" + email[atPos..]
  }

  function GetMaskedEmail(b: Borrower): (r: string)
    ensures r == MaskEmail(b.email)
  {
    MaskEmail(b.email)
  }

  /** Masking keeps the first character and everything from the first '@'
      on, hides the rest, and masking a masked address changes nothing. */
  lemma MaskEmailProperties(email: string)
    ensures |MaskEmail(email)| > 0 <==> |email| > 0
    ensures '@' in email <==> '@' in MaskEmail(email)
    ensures MaskEmail(MaskEmail(email)) == MaskEmail(email)
  {
    if email != "" && '@' in email && email[0] != '@' {
      var i := IndexOf(email, '@').value;
      var m := MaskEmail(email);
      assert m[6] == '@';
      assert '@' !in m[..6];
      IndexOfUnique(m, '@', 6);
      assert m[6..] == email[i..];
    }
  }
}
