/** The field rules of the login request: the account must be a username or an e-mail
    address, the password a run of 6 to 32 allowed characters, and the captcha fields and
    the remember flag are optional. Each pattern is stated twice: as the regular expression
    reads (with explicit split points) and as a check that finds the split points itself;
    lemmas show the two agree. */
module LoginDto {
  import opened Common

  predicate IsAsciiLetter(c: char) {
    'a' <= c <= 'z' || 'A' <= c <= 'Z'
  }

  predicate IsAsciiDigit(c: char) {
    '0' <= c <= '9'
  }

  /** `[a-zA-Z0-9\-._]` */
  predicate UsernameChar(c: char) {
    IsAsciiLetter(c) || IsAsciiDigit(c) || c == '-' || c == '.' || c == '_'
  }

  /** `[a-zA-Z0-9._%+-]` */
  predicate LocalChar(c: char) {
    IsAsciiLetter(c) || IsAsciiDigit(c) || c == '.' || c == '_' || c == '%' || c == '+' || c == '-'
  }

  /** `[a-zA-Z0-9.-]` */
  predicate DomainChar(c: char) {
    IsAsciiLetter(c) || IsAsciiDigit(c) || c == '.' || c == '-'
  }

  /** `[\w!@#$%^&*~\-]`, where `\w` is `[A-Za-z0-9_]`. */
  predicate PasswordChar(c: char) {
    IsAsciiLetter(c) || IsAsciiDigit(c) || c == '_' || c == '!' || c == '@' || c == '#'
    || c == '$' || c == '%' || c == '^' || c == '&' || c == '*' || c == '~' || c == '-'
  }

  predicate AllUsernameChars(s: string) { forall i :: 0 <= i < |s| ==> UsernameChar(s[i]) }
  predicate AllLocalChars(s: string) { forall i :: 0 <= i < |s| ==> LocalChar(s[i]) }
  predicate AllDomainChars(s: string) { forall i :: 0 <= i < |s| ==> DomainChar(s[i]) }
  predicate AllLetters(s: string) { forall i :: 0 <= i < |s| ==> IsAsciiLetter(s[i]) }
  predicate AllPasswordChars(s: string) { forall i :: 0 <= i < |s| ==> PasswordChar(s[i]) }

  /** `[a-zA-Z][a-zA-Z0-9\-._]{3,31}`, matched against the whole string. */
  predicate UsernameForm(s: string) {
    |s| >= 1 && IsAsciiLetter(s[0]) && 3 <= |s[1..]| <= 31 && AllUsernameChars(s[1..])
  }

  /** `[a-zA-Z0-9._%+-]+@[a-zA-Z0-9.-]+\.[a-zA-Z]{2,}` as the regular expression reads it:
      there are an `@` at `at` and a `.` at `dot` that cut the string into a non-empty local
      part, a non-empty domain run and a top-level part of at least two letters. */
  ghost predicate EmailPattern(s: string) {
    exists at: nat, dot: nat ::
      && 0 < at < dot < |s|
      && EmailSplit(s, at, dot)
  }

  predicate EmailSplit(s: string, at: nat, dot: nat)
    requires 0 < at < dot < |s|
  {
    && AllLocalChars(s[..at]) && s[at] == '@'
    && at + 1 < dot && AllDomainChars(s[at + 1..dot])
    && s[dot] == '.' && |s[dot + 1..]| >= 2 && AllLetters(s[dot + 1..])
  }

  /** Position of the first `c` in `s`. */
  function IndexOf(s: string, c: char): (r: Option<nat>)
    ensures r.None? <==> c !in s
    ensures r.Some? ==> r.value < |s| && s[r.value] == c && c !in s[..r.value]
  {
    if |s| == 0 then None
    else if s[0] == c then Some(0)
    else
      match IndexOf(s[1..], c)
      case None => None
      case Some(i) =>
        assert s[..i + 1] == [s[0]] + s[1..][..i];
        Some(i + 1)
  }

  /** Position of the last `c` in `s`. */
  function LastIndexOf(s: string, c: char): (r: Option<nat>)
    ensures r.None? <==> c !in s
    ensures r.Some? ==> r.value < |s| && s[r.value] == c && c !in s[r.value + 1..]
  {
    if |s| == 0 then None
    else if s[|s| - 1] == c then Some(|s| - 1)
    else
      match LastIndexOf(s[..|s| - 1], c)
      case None => None
      case Some(i) =>
        assert s[i + 1..] == s[..|s| - 1][i + 1..] + [s[|s| - 1]];
        Some(i)
  }

  /** The e-mail check without a search for split points: the `@` can only be the first
      one (the local part has none), and the `.` can only be the last one (the top-level
      part is letters only). */
  predicate EmailForm(s: string) {
    match IndexOf(s, '@')
    case None => false
    case Some(at) =>
      && at > 0 && AllLocalChars(s[..at])
      && var domain := s[at + 1..];
      && AllDomainChars(domain)
      && match LastIndexOf(domain, '.')
         case None => false
         case Some(p) => p >= 1 && |domain[p + 1..]| >= 2 && AllLetters(domain[p + 1..])
  }

  /** The check accepts exactly the strings the pattern matches. */
  lemma EmailFormMatchesPattern(s: string)
    ensures EmailForm(s) <==> EmailPattern(s)
  {
    if EmailForm(s) {
      var at := IndexOf(s, '@').value;
      var domain := s[at + 1..];
      var p := LastIndexOf(domain, '.').value;
      var dot := at + 1 + p;
      assert s[at + 1..dot] == domain[..p];
      assert s[dot + 1..] == domain[p + 1..];
      assert EmailSplit(s, at, dot);
    }
    if EmailPattern(s) {
      var at: nat, dot: nat :| 0 < at < dot < |s| && EmailSplit(s, at, dot);
      EmailPatternSplitIsFound(s, at, dot);
    }
  }

  /** Any split the pattern can use is the one the check finds. */
  lemma EmailPatternSplitIsFound(s: string, at: nat, dot: nat)
    requires 0 < at < dot < |s| && EmailSplit(s, at, dot)
    ensures EmailForm(s)
  {
    assert '@' !in s[..at] by {
      forall i | 0 <= i < at ensures s[..at][i] != '@' { assert LocalChar(s[..at][i]); }
    }
    var found := IndexOf(s, '@');
    assert found == Some(at);
    var domain := s[at + 1..];
    var p := dot - at - 1;
    assert domain[p] == '.';
    assert domain[p + 1..] == s[dot + 1..];
    assert domain == s[at + 1..dot] + [s[dot]] + s[dot + 1..];
    assert AllDomainChars(domain) by {
      forall i | 0 <= i < |domain| ensures DomainChar(domain[i]) {
        if i < p { assert domain[i] == s[at + 1..dot][i]; }
        else if i > p { assert domain[i] == s[dot + 1..][i - p - 1]; }
      }
    }
    var last := LastIndexOf(domain, '.');
    assert last == Some(p);
  }

  /** `account`: a username or an e-mail address. */
  predicate AccountForm(s: string) {
    UsernameForm(s) || EmailForm(s)
  }

  /** `^[\w!@#$%^&*~\-]{6,32}$` */
  predicate PasswordPattern(s: string) {
    6 <= |s| <= 32 && AllPasswordChars(s)
  }

  predicate MinLength(s: string, n: nat) { |s| >= n }
  predicate MaxLength(s: string, n: nat) { |s| <= n }

  /** The login request body. */
  datatype LoginDto = LoginDto(
    account: string,
    password: string,
    captcha: Option<string>,
    captchaId: Option<string>,
    remember: Option<bool>)

  /** All decorators of the request body pass. The optional fields are well typed by
      construction, so they impose nothing further. Read against the regexes: the account
      is a username or matches the e-mail pattern, the password pattern subsumes both length
      checks, and an account containing `@` is accepted only as an e-mail address. */
  predicate ValidLoginDto(d: LoginDto)
    ensures ValidLoginDto(d) <==>
      (UsernameForm(d.account) || EmailPattern(d.account)) && PasswordPattern(d.password)
    ensures ValidLoginDto(d) ==> ('@' in d.account <==> EmailForm(d.account))
  {
    LoginDtoFacts(d);
    && AccountForm(d.account)
    && MinLength(d.password, 6) && MaxLength(d.password, 32) && PasswordPattern(d.password)
  }

  /** A username is 4 to 32 characters long and starts with a letter. */
  lemma UsernameShape(s: string)
    requires UsernameForm(s)
    ensures 4 <= |s| <= 32 && IsAsciiLetter(s[0]) && '@' !in s
  {
    assert '@' !in s by {
      forall i | 0 <= i < |s| ensures s[i] != '@' {
        if i > 0 { assert UsernameChar(s[1..][i - 1]); }
      }
    }
  }

  /** No string is both a username and an e-mail address: a username has no `@`. */
  lemma AccountFormsAreDisjoint(s: string)
    ensures !(UsernameForm(s) && EmailForm(s))
  {
    if UsernameForm(s) {
      UsernameShape(s);
    }
  }

  /** The pattern alone already enforces the separate length limits. */
  lemma PasswordPatternImpliesLengths(s: string)
    requires PasswordPattern(s)
    ensures MinLength(s, 6) && MaxLength(s, 32)
  {
  }

  /** The facts `ValidLoginDto` is read by, each stated for every input. */
  lemma LoginDtoFacts(d: LoginDto)
    ensures PasswordPattern(d.password) ==> MinLength(d.password, 6) && MaxLength(d.password, 32)
    ensures UsernameForm(d.account) ==> '@' !in d.account && !EmailForm(d.account)
    ensures EmailForm(d.account) ==> '@' in d.account
    ensures EmailForm(d.account) <==> EmailPattern(d.account)
  {
    EmailFormMatchesPattern(d.account);
    if PasswordPattern(d.password) {
      PasswordPatternImpliesLengths(d.password);
    }
    if UsernameForm(d.account) {
      UsernameShape(d.account);
      AccountFormsAreDisjoint(d.account);
    }
  }
}
