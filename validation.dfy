/**
 * The three format validators of the tool layer: order id, email address and
 * postal code. The source states each as a regular expression; here each is a
 * computable check proved equal to a description of the strings it accepts.
 * Character classes are ASCII (`\d` is 0-9) and `$` matches only at the very
 * end of the text.
 */
module Validation {
  import opened Wrappers
  import opened Text

  // ---------------------------------------------------------------- order id

  /** `validate_order_id`: the pattern `^A\d{4}$`, an "A" and exactly four digits. */
  predicate ValidOrderId(s: string) {
    |s| == 5 && s[0] == 'A' && AllDigits(s[1..])
  }

  /** The accepted and rejected order ids that the test suite pins. */
  lemma OrderIdExamples()
    ensures ValidOrderId("A1001") && ValidOrderId("A9999")
    ensures !ValidOrderId("B1001") && !ValidOrderId("A100") && !ValidOrderId("A10001")
    ensures !ValidOrderId("A100A") && !ValidOrderId("") && !ValidOrderId("1001")
  {
    assert !IsDigit("A100A"[4]);
  }

  // ---------------------------------------------------------------- email

  /** A character of `[a-zA-Z0-9._%+-]`, the part before '@'. */
  predicate IsLocalChar(c: char) {
    IsAsciiLetter(c) || IsDigit(c) || c == '.' || c == '_' || c == '%' || c == '+' || c == '-'
  }

  /** A character of `[a-zA-Z0-9.-]`, the domain before the final dot. */
  predicate IsDomainChar(c: char) {
    IsAsciiLetter(c) || IsDigit(c) || c == '.' || c == '-'
  }

  /**
   * `s` splits as local part, '@' at index `at`, domain, '.' at index `dot`,
   * and a top-level label of at least two letters.
   */
  predicate EmailSplit(s: string, at: int, dot: int) {
    && 0 < at && at + 1 < dot && dot + 2 < |s|
    && s[at] == '@' && s[dot] == '.'
    && (forall k :: 0 <= k < at ==> IsLocalChar(s[k]))
    && (forall k :: at < k < dot ==> IsDomainChar(s[k]))
    && (forall k :: dot < k < |s| ==> IsAsciiLetter(s[k]))
  }

  /** The strings `^[a-zA-Z0-9._%+-]+@[a-zA-Z0-9.-]+\.[a-zA-Z]{2,}$` matches. */
  ghost predicate EmailShape(s: string) {
    exists at, dot :: EmailSplit(s, at, dot)
  }

  /** Index of the first `c` in `s`, if any. */
  function FirstIndexOf(s: string, c: char): (r: Option<nat>)
    ensures r.Some? ==> r.value < |s| && s[r.value] == c
    ensures r.Some? ==> forall k :: 0 <= k < r.value ==> s[k] != c
    ensures r.None? ==> forall k :: 0 <= k < |s| ==> s[k] != c
    decreases |s|
  {
    if |s| == 0 then None
    else if s[0] == c then Some(0)
    else match FirstIndexOf(s[1..], c)
      case None => None
      case Some(i) => Some(i + 1)
  }

  /** Index of the last `c` in `s`, if any. */
  function LastIndexOf(s: string, c: char): (r: Option<nat>)
    ensures r.Some? ==> r.value < |s| && s[r.value] == c
    ensures r.Some? ==> forall k :: r.value < k < |s| ==> s[k] != c
    ensures r.None? ==> forall k :: 0 <= k < |s| ==> s[k] != c
    decreases |s|
  {
    if |s| == 0 then None
    else if s[|s| - 1] == c then Some(|s| - 1)
    else LastIndexOf(s[..|s| - 1], c)
  }

  /**
   * `validate_email`. No character class allows '@' beside the '@' itself, and
   * the final label holds only letters, so the only split worth trying is at
   * the first '@' and the last '.'.
   */
  function ValidateEmail(s: string): bool {
    match FirstIndexOf(s, '@')
    case None => false
    case Some(at) =>
      match LastIndexOf(s, '.')
      case None => false
      case Some(dot) => EmailSplit(s, at, dot)
  }

  /** The computed check accepts exactly the strings the pattern describes. */
  lemma ValidateEmailIsShape(s: string)
    ensures ValidateEmail(s) <==> EmailShape(s)
  {
    if EmailShape(s) {
      var at, dot :| EmailSplit(s, at, dot);
      var first := FirstIndexOf(s, '@');
      assert first == Some(at) by {
        assert !IsLocalChar('@');
        assert first.Some?;
        assert first.value >= at;
      }
      var last := LastIndexOf(s, '.');
      assert last == Some(dot) by {
        assert !IsAsciiLetter('.');
        assert last.Some?;
        assert last.value <= dot;
      }
    }
  }

  /** A local part, '@', a domain, '.' and a label of two or more letters make an accepted address. */
  lemma EmailFromParts(local: string, domain: string, tld: string)
    requires |local| > 0 && |domain| > 0 && |tld| >= 2
    requires forall k :: 0 <= k < |local| ==> IsLocalChar(local[k])
    requires forall k :: 0 <= k < |domain| ==> IsDomainChar(domain[k])
    requires forall k :: 0 <= k < |tld| ==> IsAsciiLetter(tld[k])
    ensures ValidateEmail(local + "@" + domain + "." + tld)
  {
    var s := local + "@" + domain + "." + tld;
    var at, dot := |local|, |local| + 1 + |domain|;
    assert forall k :: 0 <= k < at ==> s[k] == local[k];
    assert forall k :: at < k < dot ==> s[k] == domain[k - at - 1];
    assert forall k :: dot < k < |s| ==> s[k] == tld[k - dot - 1];
    assert EmailSplit(s, at, dot);
    ValidateEmailIsShape(s);
  }

  /** A character that is neither '@' nor allowed in a local part, ahead of every '@', rules the address out. */
  lemma EmailRejectsBadLocalChar(s: string, k: nat)
    requires k < |s| && s[k] != '@' && !IsLocalChar(s[k])
    requires forall j :: 0 <= j < k ==> s[j] != '@'
    ensures !ValidateEmail(s)
  {
  }

  /** When no '.' follows the character after the first '@', the domain cannot be split from its label. */
  lemma EmailRejectsNoDomainDot(s: string, at: nat)
    requires at < |s| && s[at] == '@'
    requires forall j :: 0 <= j < at ==> s[j] != '@'
    requires forall j :: at + 1 < j < |s| ==> s[j] != '.'
    ensures !ValidateEmail(s)
  {
    var first := FirstIndexOf(s, '@');
    assert first == Some(at) by {
      assert first.Some?;
    }
  }

  /** Addresses the test suite accepts. */
  lemma EmailAcceptsExamples()
    ensures ValidateEmail("user" + "@" + "example" + "." + "com")
    ensures ValidateEmail("test.email+tag" + "@" + "domain.co" + "." + "uk")
  {
    EmailFromParts("user", "example", "com");
    EmailFromParts("test.email+tag", "domain.co", "uk");
  }

  /** Addresses the test suite rejects: no '@', nothing before it, nothing after it. */
  lemma EmailRejectsMissingParts()
    ensures !ValidateEmail("invalid") && !ValidateEmail("@" + "example.com")
    ensures !ValidateEmail("user" + "@") && !ValidateEmail("")
  {
    assert FirstIndexOf("@" + "example.com", '@') == Some(0);
    assert LastIndexOf("user" + "@", '.').None?;
  }

  /** Addresses the test suite rejects: an empty domain before the dot, a space in the local part. */
  lemma EmailRejectsMalformed()
    ensures !ValidateEmail("user" + "@" + ".com")
    ensures !ValidateEmail("user space" + "@" + "example.com")
  {
    EmailRejectsNoDomainDot("user" + "@" + ".com", 4);
    EmailRejectsBadLocalChar("user space" + "@" + "example.com", 4);
  }

  // ---------------------------------------------------------------- postal code

  /** `validate_zip_code`: after `strip()`, the pattern `^\d{5,6}$`. */
  predicate ValidZipCode(z: string) {
    var t := Strip(z);
    (|t| == 5 || |t| == 6) && AllDigits(t)
  }

  /** `z` is whitespace, then the digits `z[i..j]` (five or six of them), then whitespace. */
  predicate PaddedZip(z: string, i: int, j: int) {
    && 0 <= i && i + 5 <= j <= i + 6 && j <= |z|
    && (forall k :: 0 <= k < i ==> IsSpace(z[k]))
    && (forall k :: i <= k < j ==> IsDigit(z[k]))
    && (forall k :: j <= k < |z| ==> IsSpace(z[k]))
  }

  /** A postal code is accepted exactly when it is five or six digits with only whitespace around them. */
  lemma ValidZipCodeIsPadded(z: string)
    ensures ValidZipCode(z) <==> exists i, j :: PaddedZip(z, i, j)
  {
    if ValidZipCode(z) {
      var i := StripStart(z);
      var t := z[i..];
      var b := StripEnd(t);
      assert Strip(z) == t[..b];
      assert forall k :: i <= k < i + b ==> z[k] == t[..b][k - i];
      assert forall k :: i + b <= k < |z| ==> z[k] == t[k - i];
      assert PaddedZip(z, i, i + b);
    }
    if exists i, j :: PaddedZip(z, i, j) {
      var i, j :| PaddedZip(z, i, j);
      assert !IsSpace(z[i]) && !IsSpace(z[j - 1]);
      StripIsSlice(z, i, j);
      assert Strip(z) == z[i..j];
    }
  }

  /** Padding by Unicode spaces is stripped as well: a no-break space or an ideographic space around the digits. */
  lemma UnicodePaddedZips()
    ensures ValidZipCode("\U{A0}560001")
    ensures ValidZipCode("560001\U{3000}")
  {
    var z1, z2 := "\U{A0}560001", "560001\U{3000}";
    assert PaddedZip(z1, 1, 7);
    assert PaddedZip(z2, 0, 6);
    ValidZipCodeIsPadded(z1);
    ValidZipCodeIsPadded(z2);
  }
}
