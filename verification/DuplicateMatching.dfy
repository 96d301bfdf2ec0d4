/** When two applications are for the same death: the criteria, and the two ways a name is normalised. */
module DuplicateMatching {

  /** The dates are compared as the text they are stored as. */
  datatype Deceased = Deceased(firstName: string, lastName: string, dateOfBirth: string, dateOfDeath: string,
                               coronersReference: string)

  const DUPLICATE_MATCH_THRESHOLD: nat := 2

  // ------------------------------------------------------------------ normalisers

  /** What the database trims. */
  predicate IsSpace(c: char) { c == ' ' }

  /** What Python strips. */
  predicate IsWhitespace(c: char) {
    var n := c as int;
    || 9 <= n <= 13 || 28 <= n <= 32 || n == 0x85 || n == 0xA0 || n == 0x1680 || 0x2000 <= n <= 0x200A
    || n == 0x2028 || n == 0x2029 || n == 0x202F || n == 0x205F || n == 0x3000
  }

  /** The 29 characters that Python takes for whitespace. */
  lemma WhitespaceExact(c: char)
    ensures IsWhitespace(c) <==>
            c in "\t\n\U{B}\U{C}\r\U{1C}\U{1D}\U{1E}\U{1F} \U{85}\U{A0}\U{1680}\U{2000}\U{2001}\U{2002}\U{2003}"
                 + "\U{2004}\U{2005}\U{2006}\U{2007}\U{2008}\U{2009}\U{200A}\U{2028}\U{2029}\U{202F}\U{205F}\U{3000}"
  {
  }

  function Strip(s: string, drop: char -> bool): (r: string)
    ensures r != "" ==> !drop(r[0]) && !drop(r[|r| - 1])
    ensures s == "" || (!drop(s[0]) && !drop(s[|s| - 1])) ==> r == s
  {
    if s == "" then ""
    else if drop(s[0]) then Strip(s[1..], drop)
    else if drop(s[|s| - 1]) then Strip(s[..|s| - 1], drop)
    else s
  }

  predicate All(s: string, drop: char -> bool) { forall k | 0 <= k < |s| :: drop(s[k]) }

  lemma AllConcat(a: string, b: string, drop: char -> bool)
    requires All(a, drop) && All(b, drop)
    ensures All(a + b, drop)
  {
  }

  lemma Around(first: string, front: string, middle: string, back: string, last: string)
    ensures first + (front + middle + back) + last == (first + front) + middle + (back + last)
  {
  }

  /** Stripping takes off an end of such characters on either side, and nothing else. */
  lemma {:induction false} StripExact(s: string, drop: char -> bool) returns (front: string, back: string)
    ensures s == front + Strip(s, drop) + back && All(front, drop) && All(back, drop)
  {
    hide All;
    front, back := "", "";
    assert All("", drop) by { AllNone(drop); }
    if s != "" && drop(s[0]) {
      var rest, end := StripExact(s[1..], drop);
      front, back := [s[0]] + rest, end;
      AllOne(s[0], drop);
      AllConcat([s[0]], rest, drop);
      Around([s[0]], rest, Strip(s[1..], drop), end, "");
      Whole(s);
    } else if s != "" && drop(s[|s| - 1]) {
      var start, rest := StripExact(s[..|s| - 1], drop);
      front, back := start, rest + [s[|s| - 1]];
      AllOne(s[|s| - 1], drop);
      AllConcat(rest, [s[|s| - 1]], drop);
      Around("", start, Strip(s[..|s| - 1], drop), rest, [s[|s| - 1]]);
      Whole(s);
    }
  }

  lemma Whole(s: string)
    requires s != ""
    ensures s == [s[0]] + s[1..] == [s[0]] + s[1..] + "" && s == s[..|s| - 1] + [s[|s| - 1]]
  {
  }

  lemma AllNone(drop: char -> bool)
    ensures All("", drop)
  {
  }

  lemma AllOne(c: char, drop: char -> bool)
    requires drop(c)
    ensures All([c], drop)
  {
  }

  /** The two lower-casings: of Python, for the application being checked, and of the database, for stored ones. */
  datatype Lowering = Lowering(python: string -> string, sql: string -> string) {
    /** What lower-casings do: Python's adds nothing when applied again, and neither touches whitespace at the ends. */
    ghost predicate Sound() {
      && (forall s: string :: python(python(s)) == python(s))
      && (forall s: string :: KeepsEnds(s, python(s)) && KeepsEnds(s, sql(s)))
    }
  }

  predicate KeepsEnds(s: string, low: string) {
    && (low == "" <==> s == "")
    && (s != "" ==> && IsWhitespace(low[0]) == IsWhitespace(s[0])
                    && IsWhitespace(low[|low| - 1]) == IsWhitespace(s[|s| - 1]))
  }

  function LowerChar(c: char): char {
    if 'A' <= c <= 'Z' then c + 32 as char else c
  }

  /** The lower-casing of the letters A to Z. */
  function Lower(s: string): string { seq(|s|, i requires 0 <= i < |s| => LowerChar(s[i])) }

  const LATIN: Lowering := Lowering(Lower, Lower)

  /** A name of the application being checked. */
  function PythonNormal(low: Lowering, name: string): string { (low.python)(Strip(name, IsWhitespace)) }

  /** A name already stored. */
  function SqlNormal(low: Lowering, name: string): string { (low.sql)(Strip(name, IsSpace)) }

  // --------------------------------------------------------------------- criteria

  function One(b: bool): nat { if b then 1 else 0 }

  /** How many of the three criteria other than the name hold; an absent coroner's reference never matches. */
  function OtherCriteria(newer: Deceased, stored: Deceased): nat {
    One(stored.dateOfBirth == newer.dateOfBirth)
    + One(stored.dateOfDeath == newer.dateOfDeath)
    + One(newer.coronersReference != "" && stored.coronersReference == newer.coronersReference)
  }

  predicate SameName(low: Lowering, newer: Deceased, stored: Deceased) {
    && SqlNormal(low, stored.firstName) == PythonNormal(low, newer.firstName)
    && SqlNormal(low, stored.lastName) == PythonNormal(low, newer.lastName)
  }

  /** The check the code makes of an application against a stored one. */
  predicate Matches(low: Lowering, newer: Deceased, stored: Deceased) {
    OtherCriteria(newer, stored) + One(SameName(low, newer, stored)) >= DUPLICATE_MATCH_THRESHOLD
  }

  // ------------------------------------------------------------ what is meant by it

  /** Names equal but for surrounding whitespace and case. */
  predicate AlikeNames(low: Lowering, a: Deceased, b: Deceased) {
    && PythonNormal(low, a.firstName) == PythonNormal(low, b.firstName)
    && PythonNormal(low, a.lastName) == PythonNormal(low, b.lastName)
  }

  /** At least two of the four criteria, with one normaliser for both sides. */
  predicate Alike(low: Lowering, a: Deceased, b: Deceased) {
    OtherCriteria(a, b) + One(AlikeNames(low, a, b)) >= DUPLICATE_MATCH_THRESHOLD
  }

  /**
   A stored name is clean when both normalisers give the same: spaces are all there is to strip, and lowering agrees.
   */
  predicate CleanName(low: Lowering, name: string) { SqlNormal(low, name) == PythonNormal(low, name) }

  predicate Clean(low: Lowering, d: Deceased) { CleanName(low, d.firstName) && CleanName(low, d.lastName) }

  /** Alike only thanks to the names, and the stored names are not clean: the code misses this pair. */
  predicate Missed(low: Lowering, newer: Deceased, stored: Deceased) {
    OtherCriteria(newer, stored) == 1 && AlikeNames(low, newer, stored) && !Clean(low, stored)
  }

  /** What the database's normaliser makes of a stored one. */
  function AsLowered(low: Lowering, d: Deceased): Deceased {
    d.(firstName := SqlNormal(low, d.firstName), lastName := SqlNormal(low, d.lastName))
  }

  /** Python's normaliser changes nothing. */
  predicate Settled(low: Lowering, d: Deceased) {
    PythonNormal(low, d.firstName) == d.firstName && PythonNormal(low, d.lastName) == d.lastName
  }

  /** To Python the database's lower-casing loses nothing of the name; it does of a final sigma. */
  predicate Folds(low: Lowering, name: string) {
    (low.python)(SqlNormal(low, name)) == (low.python)(Strip(name, IsSpace))
  }

  /** Not alike, but the application is like what the database makes of the stored names: the code finds this pair. */
  predicate Confused(low: Lowering, newer: Deceased, stored: Deceased) {
    && OtherCriteria(newer, stored) == 1 && !AlikeNames(low, newer, stored)
    && AlikeNames(low, newer, AsLowered(low, stored)) && Settled(low, AsLowered(low, stored))
  }

  // ----------------------------------------------------------------------- lemmas

  lemma {:induction false} StripLast(s: string, drop: char -> bool)
    requires s != "" && drop(s[|s| - 1])
    ensures Strip(s, drop) == Strip(s[..|s| - 1], drop)
  {
    if |s| > 1 && drop(s[0]) {
      StripLast(s[1..], drop);
      assert s[1..][..|s| - 2] == s[..|s| - 1][1..];
    }
  }

  /** Trimming spaces first makes no difference to stripping. */
  lemma {:induction false} StripAgain(s: string)
    ensures Strip(Strip(s, IsSpace), IsWhitespace) == Strip(s, IsWhitespace)
  {
    if s != "" {
      if IsSpace(s[0]) {
        StripAgain(s[1..]);
      } else if IsSpace(s[|s| - 1]) {
        StripAgain(s[..|s| - 1]);
        StripLast(s, IsWhitespace);
      }
    }
  }

  /** What Python's normaliser gives it leaves alone. */
  lemma NormalIsSettled(low: Lowering, name: string)
    requires low.Sound()
    ensures PythonNormal(low, PythonNormal(low, name)) == PythonNormal(low, name)
  {
    var stripped := Strip(name, IsWhitespace);
    assert KeepsEnds(stripped, (low.python)(stripped));
  }

  /**
   A stored name equals a checked one exactly when Python makes the checked one equal to what the database made of the
   stored one, which it leaves alone; where the database loses nothing, exactly when the two are alike and the stored
   one is clean.
   */
  lemma NamesAgree(low: Lowering, checked: string, stored: string)
    requires low.Sound()
    ensures var lowered := SqlNormal(low, stored);
            lowered == PythonNormal(low, checked) <==>
            PythonNormal(low, lowered) == PythonNormal(low, checked) && PythonNormal(low, lowered) == lowered
    ensures Folds(low, stored) ==>
              (SqlNormal(low, stored) == PythonNormal(low, checked) <==>
               PythonNormal(low, stored) == PythonNormal(low, checked) && CleanName(low, stored))
  {
    NormalIsSettled(low, checked);
    var trimmed := Strip(stored, IsSpace);
    var lowered := (low.sql)(trimmed);
    assert KeepsEnds(trimmed, lowered);
    if lowered == PythonNormal(low, checked) && Folds(low, stored) {
      var stripped := Strip(checked, IsWhitespace);
      assert KeepsEnds(stripped, lowered);
      StripAgain(stored);
      assert Strip(trimmed, IsWhitespace) == trimmed;
    }
  }

  /**
   The code finds a pair exactly when the two are alike and the pair is not one it misses, or it confuses the two; and
   that only happens where the database loses something of a stored name.
   */
  lemma MatchesExact(low: Lowering, newer: Deceased, stored: Deceased)
    requires low.Sound()
    ensures Matches(low, newer, stored) <==>
            (Alike(low, newer, stored) && !Missed(low, newer, stored)) || Confused(low, newer, stored)
    ensures Confused(low, newer, stored) ==> !Folds(low, stored.firstName) || !Folds(low, stored.lastName)
  {
    hide PythonNormal, SqlNormal, CleanName, Folds;
    NamesAgree(low, newer.firstName, stored.firstName);
    NamesAgree(low, newer.lastName, stored.lastName);
    NormalsAgree(low, stored);
  }

  lemma NormalsAgree(low: Lowering, d: Deceased)
    ensures CleanName(low, d.firstName) <==> SqlNormal(low, d.firstName) == PythonNormal(low, d.firstName)
    ensures CleanName(low, d.lastName) <==> SqlNormal(low, d.lastName) == PythonNormal(low, d.lastName)
  {
  }

  /** Both have a coroner's reference, the same one. */
  predicate SameReference(a: Deceased, b: Deceased) {
    |a.coronersReference| > 0 && a.coronersReference == b.coronersReference
  }

  /** Some two of the four criteria hold: born alike, died alike, of one reference, of alike names. */
  lemma AlikeExactly(low: Lowering, a: Deceased, b: Deceased)
    ensures var born, died := a.dateOfBirth == b.dateOfBirth, a.dateOfDeath == b.dateOfDeath;
            var referred, named := SameReference(a, b), AlikeNames(low, a, b);
            Alike(low, a, b) <==>
            || (born && died) || (born && referred) || (born && named)
            || (died && referred) || (died && named) || (referred && named)
  {
  }

  /** The same of the code's check, with names compared as it compares them. */
  lemma MatchesPairs(low: Lowering, newer: Deceased, stored: Deceased)
    ensures var born, died := newer.dateOfBirth == stored.dateOfBirth, newer.dateOfDeath == stored.dateOfDeath;
            var referred, named := SameReference(newer, stored), SameName(low, newer, stored);
            Matches(low, newer, stored) <==>
            || (born && died) || (born && referred) || (born && named)
            || (died && referred) || (died && named) || (referred && named)
  {
  }

  /** Names decide when just one of the other three criteria holds. */
  lemma NamesDecide(a: Deceased, b: Deceased)
    ensures var born, died := a.dateOfBirth == b.dateOfBirth, a.dateOfDeath == b.dateOfDeath;
            var referred := SameReference(a, b);
            OtherCriteria(a, b) == 1 <==>
            (born && !died && !referred) || (!born && died && !referred) || (!born && !died && referred)
  {
  }

  /** Name and coroner's reference, with both dates different; without the reference or either name none. */
  lemma ReferenceDecides()
    ensures var stored := Deceased("Jane", "Doe", "1950-01-01", "2026-01-01", "C-1");
            var newer := Deceased("Jane", "Doe", "1951-01-01", "2026-02-02", "C-1");
            && Matches(LATIN, newer, stored)
            && !Matches(LATIN, newer.(coronersReference := ""), stored.(coronersReference := ""))
            && !Matches(LATIN, newer.(coronersReference := "C-2"), stored)
            && !Matches(LATIN, newer.(firstName := "Doe"), stored)
            && !Matches(LATIN, newer.(lastName := "Jane"), stored)
  {
    TabNormals();
    NamesDiffer();
    assert "1950-01-01"[3] != "1951-01-01"[3] && "2026-01-01"[6] != "2026-02-02"[6] && "C-1"[2] != "C-2"[2];
    hide PythonNormal, SqlNormal;
  }

  lemma AlikeIsSymmetric(low: Lowering, a: Deceased, b: Deceased)
    ensures Alike(low, a, b) == Alike(low, b, a)
  {
    hide PythonNormal;
  }

  /**
   The order of two applications matters exactly when names decide and, of two that are alike, just one is clean, or, of
   two that are not, just one way round they are confused.
   */
  lemma OrderMatters(low: Lowering, a: Deceased, b: Deceased)
    requires low.Sound()
    ensures Matches(low, a, b) != Matches(low, b, a) <==>
            && OtherCriteria(a, b) == 1
            && if AlikeNames(low, a, b) then Clean(low, a) != Clean(low, b)
               else Confused(low, a, b) != Confused(low, b, a)
  {
    MatchesExact(low, a, b);
    MatchesExact(low, b, a);
    AlikeIsSymmetric(low, a, b);
    hide PythonNormal, Clean, Settled, AsLowered;
  }

  /** A to Z: sound, and nothing is lost. */
  lemma LatinIsSound()
    ensures LATIN.Sound() && forall name: string :: Folds(LATIN, name)
  {
    forall s: string
      ensures Lower(Lower(s)) == Lower(s) && KeepsEnds(s, Lower(s))
    {
    }
  }

  // ------------------------------------------------------------------- final sigma

  function LowerGreekChar(c: char): char {
    if 'Α' <= c <= 'Ω' && c as int != 0x3A2 then c + 32 as char else LowerChar(c)
  }

  /** Letter by letter. */
  function LowerGreek(s: string): string { seq(|s|, i requires 0 <= i < |s| => LowerGreekChar(s[i])) }

  /** A capital sigma that ends a name becomes a final sigma. */
  function LowerGreekWord(s: string): string {
    if |s| > 1 && s[|s| - 1] == 'Σ' then LowerGreek(s[..|s| - 1]) + "ς" else LowerGreek(s)
  }

  const GREEK: Lowering := Lowering(LowerGreekWord, LowerGreek)

  lemma GreekIsSound()
    ensures GREEK.Sound()
  {
    forall s: string
      ensures LowerGreekWord(LowerGreekWord(s)) == LowerGreekWord(s)
      ensures KeepsEnds(s, LowerGreekWord(s)) && KeepsEnds(s, LowerGreek(s))
    {
    }
  }

  /**
   A stored name in capitals that ends in sigma is missed when entered again, and found for one that spells its end
   otherwise.
   */
  lemma FinalSigma()
    ensures var stored := Deceased("ΗΛΙΑΣ", "Doe", "1950-01-01", "2026-01-01", "");
            var again := stored.(dateOfDeath := "2026-02-02");
            var other := again.(firstName := "ηλιασ");
            && GREEK.Sound() && Alike(GREEK, again, stored) && !Matches(GREEK, again, stored)
            && Confused(GREEK, other, stored) && Matches(GREEK, other, stored)
  {
    GreekIsSound();
    GreekNormals();
    assert "2026-01-01"[6] != "2026-02-02"[6] && "ηλιας"[4] != "ηλιασ"[4];
    hide PythonNormal, SqlNormal, Lowering.Sound;
  }

  lemma GreekNormals()
    ensures PythonNormal(GREEK, "ΗΛΙΑΣ") == "ηλιας" && SqlNormal(GREEK, "ΗΛΙΑΣ") == "ηλιασ"
    ensures PythonNormal(GREEK, "ηλιασ") == "ηλιασ"
    ensures PythonNormal(GREEK, "Doe") == "doe" == SqlNormal(GREEK, "Doe") == PythonNormal(GREEK, "doe")
  {
    assert Strip("ΗΛΙΑΣ", IsWhitespace) == Strip("ΗΛΙΑΣ", IsSpace) == "ΗΛΙΑΣ";
    assert Strip("ηλιασ", IsWhitespace) == "ηλιασ";
    assert Strip("Doe", IsWhitespace) == Strip("Doe", IsSpace) == "Doe" && Strip("doe", IsWhitespace) == "doe";
  }

  /**
   A tab after the stored name hides the pair; before it is stored, the same tab does not; and a name does not match
   itself.
   */
  lemma TabHidesADuplicate()
    ensures var plain := Deceased("Jane", "Doe", "1950-01-01", "2026-01-01", "");
            var tabbed := Deceased("Jane\t", "Doe", "1950-01-01", "2026-02-02", "");
            && Matches(LATIN, tabbed, plain) && !Matches(LATIN, plain, tabbed)
            && !Matches(LATIN, tabbed, tabbed.(dateOfDeath := "2026-03-03"))
            && Alike(LATIN, tabbed, tabbed.(dateOfDeath := "2026-03-03"))
  {
    var plain := Deceased("Jane", "Doe", "1950-01-01", "2026-01-01", "");
    var tabbed := Deceased("Jane\t", "Doe", "1950-01-01", "2026-02-02", "");
    LatinIsSound();
    TabNormals();
    assert "2026-01-01"[6] != "2026-02-02"[6] && "2026-02-02"[6] != "2026-03-03"[6];
    hide PythonNormal, SqlNormal;
    MatchesExact(LATIN, tabbed, plain);
    MatchesExact(LATIN, plain, tabbed);
    MatchesExact(LATIN, tabbed, tabbed.(dateOfDeath := "2026-03-03"));
  }

  lemma NamesDiffer()
    ensures SqlNormal(LATIN, "Jane") != PythonNormal(LATIN, "Doe")
    ensures SqlNormal(LATIN, "Doe") != PythonNormal(LATIN, "Jane")
  {
    assert Strip("Jane", IsSpace) == Strip("Jane", IsWhitespace) == "Jane";
    assert Strip("Doe", IsSpace) == Strip("Doe", IsWhitespace) == "Doe";
  }

  lemma TabNormals()
    ensures PythonNormal(LATIN, "Jane\t") == PythonNormal(LATIN, "Jane") && !CleanName(LATIN, "Jane\t")
    ensures CleanName(LATIN, "Jane") && CleanName(LATIN, "Doe")
  {
    assert "Jane\t"[..4] == "Jane";
    assert Strip("Jane\t", IsWhitespace) == Strip("Jane", IsWhitespace) == "Jane";
    assert Strip("Jane\t", IsSpace) == "Jane\t";
    assert |SqlNormal(LATIN, "Jane\t")| == 5 && |PythonNormal(LATIN, "Jane\t")| == 4;
  }
}
