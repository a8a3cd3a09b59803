/**
 * The form validators of utils/validators.py: email, phone, INN (the
 * ten-digit Russian taxpayer number) and rating. Each is modelled as a
 * recogniser that follows the source and is proved equal to a declarative
 * description of the strings it accepts. Digits are the ASCII digits.
 */
module Validators {
  import opened Wrappers

  predicate IsDigit(c: char)
  {
    '0' <= c <= '9'
  }

  predicate IsLetter(c: char)
  {
    'a' <= c <= 'z' || 'A' <= c <= 'Z'
  }

  /** Characters of the email's local part: [a-zA-Z0-9._%+-]. */
  predicate IsLocalChar(c: char)
  {
    IsLetter(c) || IsDigit(c) || c == '.' || c == '_' || c == '%' || c == '+' || c == '-'
  }

  /** Characters of the email's domain: [a-zA-Z0-9.-]. */
  predicate IsDomainChar(c: char)
  {
    IsLetter(c) || IsDigit(c) || c == '.' || c == '-'
  }

  // ---------------------------------------------------------------- digits

  /** Every character of s is a digit (vacuously true of the empty string). */
  predicate AllDigits(s: string)
    ensures AllDigits(s) <==> forall i | 0 <= i < |s| :: IsDigit(s[i])
  {
    |s| == 0 || (IsDigit(s[0]) && AllDigits(s[1..]))
  }

  /** Python's str.isdigit on ASCII: non-empty and digits only. */
  predicate IsDigitString(s: string)
  {
    |s| > 0 && AllDigits(s)
  }

  /** The digits of s in order, as ''.join(filter(str.isdigit, s)) builds them. */
  function Digits(s: string): (d: string)
    ensures |d| <= |s|
    ensures forall i | 0 <= i < |d| :: IsDigit(d[i])
    ensures AllDigits(s) ==> d == s
  {
    if |s| == 0 then ""
    else
      var last := s[|s| - 1];
      assert AllDigits(s) ==> AllDigits(s[..|s| - 1]);
      Digits(s[..|s| - 1]) + (if IsDigit(last) then [last] else "")
  }

  /** The positions of s that hold a digit. */
  ghost function DigitPositions(s: string): set<int>
  {
    set i | 0 <= i < |s| && IsDigit(s[i])
  }

  /** The filtered string has one character per digit position. */
  lemma {:induction false} DigitsCountsPositions(s: string)
    ensures |Digits(s)| == |DigitPositions(s)|
    decreases |s|
  {
    if |s| > 0 {
      var s' := s[..|s| - 1];
      DigitsCountsPositions(s');
      if IsDigit(s[|s| - 1]) {
        assert DigitPositions(s) == DigitPositions(s') + {|s| - 1};
      } else {
        assert DigitPositions(s) == DigitPositions(s');
      }
    }
  }

  /** Filtering distributes over concatenation. */
  lemma {:induction false} DigitsAppend(a: string, b: string)
    ensures Digits(a + b) == Digits(a) + Digits(b)
    decreases |b|
  {
    if |b| == 0 {
      assert a + b == a;
    } else {
      var b' := b[..|b| - 1];
      assert (a + b)[..|a + b| - 1] == a + b';
      DigitsAppend(a, b');
    }
  }

  // ----------------------------------------------------------------- phone

  /** validate_phone: at least ten digit characters, whatever else the string holds. */
  function ValidatePhone(phone: string): (ok: bool)
    ensures ok <==> |DigitPositions(phone)| >= 10
  {
    DigitsCountsPositions(phone);
    |Digits(phone)| >= 10
  }

  /** Inserting a non-digit character anywhere never changes the phone verdict. */
  lemma PhoneIgnoresNonDigits(a: string, c: char, b: string)
    requires !IsDigit(c)
    ensures ValidatePhone(a + [c] + b) == ValidatePhone(a + b)
  {
    DigitsAppend(a + [c], b);
    DigitsAppend(a, [c]);
    DigitsAppend(a, b);
    assert Digits([c]) == "" by {
      assert [c][..0] == "";
    }
  }

  // ------------------------------------------------------------------- INN

  /** validate_inn: isdigit() and exactly ten characters. */
  function ValidateInn(inn: string): (ok: bool)
    ensures ok <==> |inn| == 10 && forall i | 0 <= i < |inn| :: IsDigit(inn[i])
  {
    IsDigitString(inn) && |inn| == 10
  }

  /** A well-formed INN also passes the phone check: it has ten digits. */
  lemma InnPassesPhone(s: string)
    requires ValidateInn(s)
    ensures ValidatePhone(s)
  {
  }

  // ---------------------------------------------------------------- rating

  function DigitValue(c: char): (v: nat)
    requires IsDigit(c)
    ensures v < 10
  {
    (c as int) - ('0' as int)
  }

  /** The value of a string of decimal digits, most significant first. */
  function DecimalValue(d: string): nat
    requires AllDigits(d)
  {
    if |d| == 0 then 0 else DecimalValue(d[..|d| - 1]) * 10 + DigitValue(d[|d| - 1])
  }

  /** A digit string denotes zero exactly when all its digits are '0'. */
  lemma {:induction false} DecimalValueZero(d: string)
    requires AllDigits(d)
    ensures DecimalValue(d) == 0 <==> forall i | 0 <= i < |d| :: d[i] == '0'
    decreases |d|
  {
    if |d| > 0 {
      var d' := d[..|d| - 1];
      DecimalValueZero(d');
      assert forall i | 0 <= i < |d'| :: d'[i] == d[i];
    }
  }

  /** Python's int() on a string: an optional sign followed by at least one digit. */
  function ParseInt(s: string): (r: Option<int>)
    ensures r.Some? <==> IsDigitString(s) || (|s| >= 2 && (s[0] == '+' || s[0] == '-') && IsDigitString(s[1..]))
    ensures r.Some? && s[0] != '-' ==> r.value >= 0
    ensures r.Some? && s[0] == '-' ==> r.value <= 0
  {
    if IsDigitString(s) then Some(DecimalValue(s))
    else if |s| >= 2 && s[0] == '+' && IsDigitString(s[1..]) then Some(DecimalValue(s[1..]))
    else if |s| >= 2 && s[0] == '-' && IsDigitString(s[1..]) then Some(-(DecimalValue(s[1..]) as int))
    else None
  }

  /**
   * The strings validate_rating accepts: unsigned or '+'-signed digits, or a
   * '-' followed only by zeros (which int() reads as 0).
   */
  ghost predicate IsNonNegativeNumeral(s: string)
  {
    || (|s| >= 1 && forall i | 0 <= i < |s| :: IsDigit(s[i]))
    || (|s| >= 2 && s[0] == '+' && forall i | 1 <= i < |s| :: IsDigit(s[i]))
    || (|s| >= 2 && s[0] == '-' && forall i | 1 <= i < |s| :: s[i] == '0')
  }

  /** int() succeeds with a non-negative value exactly on the non-negative numerals. */
  lemma ParsesNonNegative(s: string)
    ensures (ParseInt(s).Some? && ParseInt(s).value >= 0) <==> IsNonNegativeNumeral(s)
  {
    if |s| >= 2 {
      var tail := s[1..];
      assert forall i | 1 <= i < |s| :: s[i] == tail[i - 1];
      if AllDigits(tail) {
        DecimalValueZero(tail);
      }
    }
  }

  /** validate_rating: the string parses as an integer and that integer is not negative. */
  function ValidateRating(rating: string): (ok: bool)
    ensures ok <==> IsNonNegativeNumeral(rating)
  {
    ParsesNonNegative(rating);
    match ParseInt(rating)
    case Some(v) => v >= 0
    case None => false
  }

  // ----------------------------------------------------------------- email

  /** The first position of c in s, if any. */
  function FirstIndex(s: string, c: char): (r: Option<nat>)
    ensures r.Some? ==> r.value < |s| && s[r.value] == c && forall j | 0 <= j < r.value :: s[j] != c
    ensures r.None? ==> forall j | 0 <= j < |s| :: s[j] != c
  {
    if |s| == 0 then None
    else if s[0] == c then Some(0)
    else match FirstIndex(s[1..], c)
      case Some(k) => Some(k + 1)
      case None => None
  }

  /** The last position of c in s, if any. */
  function LastIndex(s: string, c: char): (r: Option<nat>)
    ensures r.Some? ==> r.value < |s| && s[r.value] == c && forall j | r.value < j < |s| :: s[j] != c
    ensures r.None? ==> forall j | 0 <= j < |s| :: s[j] != c
  {
    if |s| == 0 then None
    else if s[|s| - 1] == c then Some(|s| - 1)
    else LastIndex(s[..|s| - 1], c)
  }

  /** [a-zA-Z0-9.-]+\.[a-zA-Z]{2,}$ on the part after the '@'. */
  predicate ValidDomain(domain: string)
  {
    match LastIndex(domain, '.')
    case None => false
    case Some(dot) =>
      && dot >= 1
      && |domain| - dot - 1 >= 2
      && (forall i | 0 <= i < dot :: IsDomainChar(domain[i]))
      && (forall i | dot < i < |domain| :: IsLetter(domain[i]))
  }

  /**
   * validate_email as a scanner: split at the first '@', check the local part,
   * then split the domain at its last '.'. An accepted address holds exactly one '@'.
   */
  function ValidateEmail(email: string): (ok: bool)
    ensures ok ==> multiset(email)['@'] == 1
  {
    match FirstIndex(email, '@')
    case None => false
    case Some(at) =>
      var accepted := at >= 1 && (forall i | 0 <= i < at :: IsLocalChar(email[i])) && ValidDomain(email[at + 1..]);
      assert email == email[..at] + [email[at]] + email[at + 1..];
      assert accepted ==> '@' !in email[..at] && '@' !in email[at + 1..];
      accepted
  }

  /**
   * The email pattern split at its '@' and at the '.' before the top-level
   * domain: a non-empty local part, a non-empty domain head, and at least two
   * letters after the dot.
   */
  ghost predicate EmailShape(s: string, at: int, dot: int)
  {
    && 1 <= at && at + 1 < dot && dot + 3 <= |s|
    && s[at] == '@' && s[dot] == '.'
    && (forall i | 0 <= i < at :: IsLocalChar(s[i]))
    && (forall i | at < i < dot :: IsDomainChar(s[i]))
    && (forall i | dot < i < |s| :: IsLetter(s[i]))
  }

  /** s matches ^[a-zA-Z0-9._%+-]+@[a-zA-Z0-9.-]+\.[a-zA-Z]{2,}$ */
  ghost predicate MatchesEmailPattern(s: string)
  {
    exists at, dot :: EmailShape(s, at, dot)
  }

  /** The scanner accepts exactly the strings the regular expression matches. */
  lemma EmailCharacterisation(s: string)
    ensures ValidateEmail(s) <==> MatchesEmailPattern(s)
  {
    if ValidateEmail(s) {
      var at := FirstIndex(s, '@').value;
      var domain := s[at + 1..];
      var dot := LastIndex(domain, '.').value;
      assert EmailShape(s, at, at + 1 + dot);
    }
    if MatchesEmailPattern(s) {
      var at, dot :| EmailShape(s, at, dot);
      assert FirstIndex(s, '@') == Some(at) by {
        var first := FirstIndex(s, '@');
        assert first.Some?;
        assert !IsLocalChar('@') && !IsDomainChar('@') && !IsLetter('@');
      }
      var domain := s[at + 1..];
      assert LastIndex(domain, '.') == Some(dot - at - 1) by {
        assert domain[dot - at - 1] == '.';
        assert forall j | dot - at - 1 < j < |domain| :: IsLetter(domain[j]);
      }
    }
  }

  /** test_email_valid and test_email_invalid. */
  lemma EmailExamples()
    ensures ValidateEmail("test@example.com")
    ensures !ValidateEmail("test")
  {
    var s := "test@example.com";
    assert EmailShape(s, 4, 12);
    EmailCharacterisation(s);
    EmailCharacterisation("test");
  }

  /** test_phone_valid: eleven digits behind a '+'. */
  lemma PhoneExample()
    ensures ValidatePhone("+74951234567")
  {
    var phone := "+74951234567";
    assert forall i | 1 <= i < 12 :: IsDigit(phone[i]);
    assert DigitPositions(phone) == {1, 2, 3, 4, 5, 6, 7, 8, 9, 10, 11};
  }

  /** test_inn_valid, and the empty string is no INN. */
  lemma InnExamples()
    ensures ValidateInn("1234567890")
    ensures !ValidateInn("")
  {
  }

  /** test_rating_valid, and "-1" is rejected. */
  lemma RatingExamples()
    ensures ValidateRating("5")
    ensures !ValidateRating("-1")
  {
  }
}
