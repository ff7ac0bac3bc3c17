/** The two name patterns of the request schemas, as character-class
    languages: NAME_WITHOUT_DIGITS is a Latin or Cyrillic letter followed by
    letters and hyphens; NAME_WITH_DIGITS also admits digits after the first
    character. The letters are a–z, A–Z, а–я, А–Я, ё and Ё. */
module Schemas {
  import opened Text

  /** The class `[a-zA-Zа-яА-ЯёЁ]`. */
  predicate IsLetter(c: char) {
    ('a' <= c <= 'z') || ('A' <= c <= 'Z') ||
    ('а' <= c <= 'я') || ('А' <= c <= 'Я') || c == 'ё' || c == 'Ё'
  }

  /** The class `[0-9]`. */
  predicate IsDigit(c: char) {
    '0' <= c <= '9'
  }

  /** NAME_WITHOUT_DIGITS: a letter, then letters and hyphens. */
  predicate NameWithoutDigits(s: string) {
    |s| >= 1 && IsLetter(s[0]) &&
    forall i :: 1 <= i < |s| ==> IsLetter(s[i]) || s[i] == '-'
  }

  /** NAME_WITH_DIGITS: a letter, then letters, hyphens and digits. */
  predicate NameWithDigits(s: string) {
    |s| >= 1 && IsLetter(s[0]) &&
    forall i :: 1 <= i < |s| ==> IsLetter(s[i]) || s[i] == '-' || IsDigit(s[i])
  }

  /** Which pattern each field uses: the car name allows digits (CAR_NAME_SCHEMA),
      the car colour and the manufacturer name do not (CAR_COLOR_SCHEMA,
      MANUFACTURER_NAME_SCHEMA). */
  datatype Field = CarName | CarColor | ManufacturerName

  function PatternAccepts(f: Field, s: string): (b: bool)
    ensures b ==> NameWithDigits(s)
    ensures f != CarName && b ==> s != [] && forall i :: 0 <= i < |s| ==> !IsDigit(s[i])
  {
    match f
    case CarName => NameWithDigits(s)
    case CarColor => NameWithoutDigits(s)
    case ManufacturerName => NameWithoutDigits(s)
  }

  /** Every name the stricter pattern accepts, the looser one accepts too. */
  lemma WithoutDigitsIsWithDigits(s: string)
    requires NameWithoutDigits(s)
    ensures NameWithDigits(s)
  {
  }

  /** Digits are allowed, but never as the first character. */
  lemma WithDigitsStartsWithLetter(s: string)
    requires NameWithDigits(s)
    ensures !IsDigit(s[0]) && s[0] != '-'
  {
  }

  /** `str.lower` maps the letter class into itself and leaves hyphens and digits alone. */
  lemma LowerCharKeepsClass(c: char)
    ensures IsLetter(LowerChar(c)) <==> IsLetter(c)
    ensures LowerChar(c) == '-' <==> c == '-'
    ensures IsDigit(LowerChar(c)) <==> IsDigit(c)
  {
  }

  /** Lower-casing an accepted colour or manufacturer name keeps it accepted. */
  lemma LowerKeepsNameWithoutDigits(s: string)
    requires NameWithoutDigits(s)
    ensures NameWithoutDigits(Lower(s))
  {
    var r := Lower(s);
    forall i | 0 <= i < |s| ensures IsLetter(r[i]) || (i > 0 && r[i] == '-') {
      LowerCharKeepsClass(s[i]);
    }
  }

  /** Lower-casing an accepted car name keeps it accepted. */
  lemma LowerKeepsNameWithDigits(s: string)
    requires NameWithDigits(s)
    ensures NameWithDigits(Lower(s))
  {
    var r := Lower(s);
    forall i | 0 <= i < |s| ensures IsLetter(r[i]) || (i > 0 && (r[i] == '-' || IsDigit(r[i]))) {
      LowerCharKeepsClass(s[i]);
    }
  }

  /** No accepted name carries surrounding whitespace, so `str.strip` leaves it
      as it is and the hooks' `lower().strip()` is plain `lower()` on it. */
  lemma AcceptedNormalizesToLower(s: string)
    requires NameWithDigits(s)
    ensures Strip(s) == s
    ensures Normalize(s) == Lower(s)
    ensures IsNormalized(Lower(s))
  {
    assert !IsSpace(s[0]) && !IsSpace(s[|s| - 1]);
    StripNoop(s);
    var l := Lower(s);
    assert !IsSpace(l[0]) && !IsSpace(l[|l| - 1]);
    StripNoop(l);
    LowerIdempotent(s);
  }

  /** "red123" is rejected as a colour: digits are not in the colour pattern. */
  lemma ColorRejectsDigits()
    ensures !PatternAccepts(CarColor, "red123")
  {
    assert "red123"[3] == '1';
  }

  /** "test@car" is rejected as a car name: '@' is in no class. */
  lemma CarNameRejectsAt()
    ensures !PatternAccepts(CarName, "test@car")
  {
    assert "test@car"[4] == '@';
  }

  /** "123456789" is rejected as a manufacturer name. */
  lemma ManufacturerNameRejectsDigits()
    ensures !PatternAccepts(ManufacturerName, "123456789")
  {
  }

  /** Accepted examples from the schemas: 'camry', 'rx-7', 'red', 'volvo'. */
  lemma SchemaExamplesAccepted()
    ensures PatternAccepts(CarName, "camry") && PatternAccepts(CarName, "rx-7")
    ensures PatternAccepts(CarColor, "red") && PatternAccepts(CarColor, "blue")
    ensures PatternAccepts(ManufacturerName, "volvo") && PatternAccepts(ManufacturerName, "mazda")
    ensures PatternAccepts(ManufacturerName, "Ёлка-Лада")
  {
  }
}
