/**
  The field validators of frontend/finsrisk/src/utils/helper.js: each
  returns the message to show, or the empty string when the field is fine.
*/
module Validators {
  import Seqs

  const EmailRequired := "Email is required"
  const EmailInvalid := "Please enter a valid email address"
  const PasswordRequired := "Password is required"
  const PasswordTooShort := "Password must be at least 6 characters long"

  /** The shortest password the form accepts. */
  const MinPasswordLength := 6

  /** A character `\s` matches: the white space and line terminator characters of ECMAScript. */
  predicate IsSpace(c: char)
  {
    var n := c as int;
    || 0x09 <= n <= 0x0D                  // tab, line feed, vertical tab, form feed, carriage return
    || n == 0x20 || n == 0xA0 || n == 0x1680
    || 0x2000 <= n <= 0x200A
    || n == 0x2028 || n == 0x2029         // line and paragraph separators
    || n == 0x202F || n == 0x205F || n == 0x3000
    || n == 0xFEFF                        // byte order mark
  }

  /** `[^\s@]+`: a non-empty run of characters that are neither white space nor '@'. */
  predicate Part(s: string)
  {
    |s| > 0 && forall j :: 0 <= j < |s| ==> !IsSpace(s[j]) && s[j] != '@'
  }

  /** One way of reading `s` as `local@domain.tld`. */
  predicate Split(s: string, local: string, domain: string, tld: string)
  {
    s == local + "@" + domain + "." + tld && Part(local) && Part(domain) && Part(tld)
  }

  /** What `/^[^\s@]+@[^\s@]+\.[^\s@]+$/` accepts: some reading of the whole string as `local@domain.tld`. */
  ghost predicate MatchesEmailPattern(s: string)
  {
    exists local, domain, tld :: Split(s, local, domain, tld)
  }

  /** After the '@': no white space or '@', and a dot that is neither first nor last. */
  predicate DomainShape(d: string)
  {
    Part(d) && exists k :: 0 < k < |d| - 1 && d[k] == '.'
  }

  /** The test the regular expression performs, by positions: a non-empty local part, an '@', a dotted domain. */
  predicate IsEmail(s: string)
  {
    exists i :: 0 < i < |s| && s[i] == '@' && Part(s[..i]) && DomainShape(s[i + 1..])
  }

  /** Cutting a part around an inner position leaves two parts on either side. */
  lemma CutPart(d: string, k: int)
    requires Part(d) && 0 < k < |d| - 1
    ensures d == d[..k] + [d[k]] + d[k + 1..]
    ensures Part(d[..k]) && Part(d[k + 1..])
  {
    assert forall j :: 0 <= j < k ==> d[..k][j] == d[j];
    assert forall j :: k + 1 <= j < |d| ==> d[k + 1..][j - k - 1] == d[j];
  }

  /** Regrouping a five-piece concatenation. */
  lemma ConcatFive(a: string, b: string, c: string, d: string, e: string)
    ensures a + b + (c + d + e) == a + b + c + d + e
  {
  }

  /** A string the positional test accepts can be split as the pattern reads it. */
  lemma IsEmailSplits(s: string)
    requires IsEmail(s)
    ensures MatchesEmailPattern(s)
  {
    var i :| 0 < i < |s| && s[i] == '@' && Part(s[..i]) && DomainShape(s[i + 1..]);
    var d := s[i + 1..];
    var k :| 0 < k < |d| - 1 && d[k] == '.';
    CutPart(d, k);
    var local, domain, tld := s[..i], d[..k], d[k + 1..];
    Seqs.AroundIndex(s, i);
    assert s == local + "@" + d;
    assert d == domain + "." + tld;
    SplitMatches(s, local, domain, tld);
  }

  /** Three parts around an '@' and a dot are a reading the pattern accepts. */
  lemma SplitMatches(s: string, local: string, domain: string, tld: string)
    requires s == local + "@" + (domain + "." + tld)
    requires Part(local) && Part(domain) && Part(tld)
    ensures MatchesEmailPattern(s)
  {
    ConcatFive(local, "@", domain, ".", tld);
    assert Split(s, local, domain, tld);
  }

  /** Any split the pattern accepts puts its '@' where the positional test looks for it. */
  lemma SplitIsEmail(s: string, local: string, domain: string, tld: string)
    requires Split(s, local, domain, tld)
    ensures IsEmail(s)
  {
    var i := |local|;
    var d := domain + "." + tld;
    assert s == local + "@" + d;
    assert s[..i] == local && s[i] == '@' && s[i + 1..] == d;
    assert d[|domain|] == '.';
    forall j | 0 <= j < |d| ensures !IsSpace(d[j]) && d[j] != '@' {
      if j < |domain| {
        assert d[j] == domain[j];
      } else if j > |domain| {
        assert d[j] == tld[j - |domain| - 1];
      }
    }
    assert DomainShape(d);
  }

  /** The positional test accepts exactly the strings the pattern matches. */
  lemma IsEmailMatchesPattern(s: string)
    ensures IsEmail(s) <==> MatchesEmailPattern(s)
  {
    if IsEmail(s) {
      IsEmailSplits(s);
    }
    if MatchesEmailPattern(s) {
      var local, domain, tld :| Split(s, local, domain, tld);
      SplitIsEmail(s, local, domain, tld);
    }
  }

  /**
    `validatedEmail`: the empty address is reported first, then one the
    pattern does not match; the empty string exactly for a matching address.
  */
  function ValidatedEmail(email: string): (r: string)
    ensures r == EmailRequired <==> email == ""
    ensures r == EmailInvalid <==> email != "" && !MatchesEmailPattern(email)
    ensures r == "" <==> email != "" && MatchesEmailPattern(email)
  {
    IsEmailMatchesPattern(email);
    if email == "" then EmailRequired
    else if !IsEmail(email) then EmailInvalid
    else ""
  }

  /** `validatedPassword`: required, then at least six characters. */
  function ValidatedPassword(password: string): (r: string)
    ensures r == PasswordRequired <==> password == ""
    ensures r == PasswordTooShort <==> 0 < |password| < MinPasswordLength
    ensures r == "" <==> |password| >= MinPasswordLength
  {
    if password == "" then PasswordRequired
    else if |password| < MinPasswordLength then PasswordTooShort
    else ""
  }

  /** An address with no dot after its '@' is refused, however the rest looks. */
  lemma NoDotNoEmail(local: string, domain: string)
    requires Part(local) && Part(domain) && forall j :: 0 <= j < |domain| ==> domain[j] != '.'
    ensures ValidatedEmail(local + "@" + domain) == EmailInvalid
  {
    var s := local + "@" + domain;
    assert s[..|local|] == local && s[|local| + 1..] == domain;
    forall i | 0 <= i < |s|
      ensures s[i] == if i < |local| then local[i] else if i == |local| then '@' else domain[i - |local| - 1]
    {
    }
    assert forall i :: 0 <= i < |s| && s[i] == '@' ==> i == |local|;
    assert !DomainShape(domain);
    assert !IsEmail(s);
    IsEmailMatchesPattern(s);
  }
}
