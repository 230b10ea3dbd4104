/**
 * The version value stored by the Java item: a major number, an optional minor and
 * patch number and an optional pre-release tag.  Equality and ordering ignore the
 * pre-release; an absent minor or patch sorts below any present one.
 */
module Versions {
  import opened Wrappers

  type u32 = x: int | 0 <= x < 0x1_0000_0000

  datatype Version = Version(major: u32, minor: Option<u32>, patch: Option<u32>, preRelease: Option<string>)

  /** `std::cmp::Ordering`. */
  datatype Ordering = Less | Equal | Greater {
    function Reverse(): Ordering {
      match this
      case Less => Greater
      case Equal => Equal
      case Greater => Less
    }
  }

  /** `u32::cmp`. */
  function CmpNumber(a: int, b: int): (r: Ordering)
    ensures r == Less <==> a < b
    ensures r == Equal <==> a == b
    ensures r == Greater <==> a > b
  {
    if a < b then Less else if a == b then Equal else Greater
  }

  /** `PartialEq::eq`: compares major, minor and patch only. */
  predicate Eq(a: Version, b: Version): (r: bool)
    ensures r <==> Ranks(a) == Ranks(b)
  {
    a.major == b.major && a.minor == b.minor && a.patch == b.patch
  }

  /** `Ord::cmp`, with the early returns of the source. */
  function Cmp(a: Version, b: Version): (r: Ordering)
    ensures r == Equal <==> Eq(a, b)
  {
    if a.major != b.major then CmpNumber(a.major, b.major)
    else if a.minor != b.minor then
      if a.minor.None? then Less
      else if b.minor.None? then Greater
      else CmpNumber(a.minor.value, b.minor.value)
    else if a.patch != b.patch then
      if a.patch.None? then Less
      else if b.patch.None? then Greater
      else CmpNumber(a.patch.value, b.patch.value)
    else Equal
  }

  // ---------------------------------------------------------------------------
  // An independent reference order: lexicographic on a triple of ranks.

  /** The rank of an optional component: absent is 0, a present `n` is `n + 1`. */
  function Rank(o: Option<u32>): nat {
    match o
    case None => 0
    case Some(n) => n + 1
  }

  /** Lexicographic comparison of rank triples. */
  function CmpRanks(a: (nat, nat, nat), b: (nat, nat, nat)): Ordering {
    if a.0 != b.0 then CmpNumber(a.0, b.0)
    else if a.1 != b.1 then CmpNumber(a.1, b.1)
    else CmpNumber(a.2, b.2)
  }

  function Ranks(v: Version): (nat, nat, nat) {
    (v.major, Rank(v.minor), Rank(v.patch))
  }

  /** `cmp` is exactly the lexicographic order on (major, rank of minor, rank of patch). */
  lemma CmpIsLexicographic(a: Version, b: Version)
    ensures Cmp(a, b) == CmpRanks(Ranks(a), Ranks(b))
  {
    assert Rank(a.minor) == Rank(b.minor) <==> a.minor == b.minor;
    assert Rank(a.patch) == Rank(b.patch) <==> a.patch == b.patch;
  }

  /** Two versions are equal exactly when they agree once the pre-release is dropped. */
  lemma EqIgnoresPreRelease(a: Version, b: Version)
    ensures Eq(a, b) <==> a.(preRelease := None) == b.(preRelease := None)
  {
  }

  /** Whenever the majors differ, they alone decide. */
  lemma CmpByMajor(a: Version, b: Version)
    requires a.major != b.major
    ensures Cmp(a, b) == (if a.major < b.major then Less else Greater)
  {
  }

  /** With equal majors, an absent minor is below a present one; two present minors compare numerically. */
  lemma CmpByMinor(a: Version, b: Version)
    requires a.major == b.major && a.minor != b.minor
    ensures a.minor.None? ==> Cmp(a, b) == Less
    ensures b.minor.None? ==> Cmp(a, b) == Greater
    ensures a.minor.Some? && b.minor.Some? ==>
              Cmp(a, b) == (if a.minor.value < b.minor.value then Less else Greater)
  {
  }

  /** With equal major and minor, patch decides in the same way. */
  lemma CmpByPatch(a: Version, b: Version)
    requires a.major == b.major && a.minor == b.minor && a.patch != b.patch
    ensures a.patch.None? ==> Cmp(a, b) == Less
    ensures b.patch.None? ==> Cmp(a, b) == Greater
    ensures a.patch.Some? && b.patch.Some? ==>
              Cmp(a, b) == (if a.patch.value < b.patch.value then Less else Greater)
  {
  }

  /** Swapping the arguments reverses the answer. */
  lemma CmpAntisymmetric(a: Version, b: Version)
    ensures Cmp(a, b) == Cmp(b, a).Reverse()
  {
    CmpIsLexicographic(a, b);
    CmpIsLexicographic(b, a);
  }

  /** `cmp` is transitive, both for `<=` and for `<`. */
  lemma CmpTransitive(a: Version, b: Version, c: Version)
    ensures Cmp(a, b) != Greater && Cmp(b, c) != Greater ==> Cmp(a, c) != Greater
    ensures Cmp(a, b) == Less && Cmp(b, c) != Greater ==> Cmp(a, c) == Less
    ensures Cmp(a, b) != Greater && Cmp(b, c) == Less ==> Cmp(a, c) == Less
  {
    CmpIsLexicographic(a, b);
    CmpIsLexicographic(b, c);
    CmpIsLexicographic(a, c);
  }

  /** The three comparisons of the source's `ord_test`. */
  lemma OrdExamples()
    ensures Eq(Version(1, Some(0), Some(0), Some("alpha")), Version(1, Some(0), Some(0), None))
    ensures Cmp(Version(1, Some(0), Some(0), Some("alpha")), Version(1, None, Some(0), None)) == Greater
    ensures Cmp(Version(1, Some(0), Some(0), Some("alpha")), Version(1, Some(0), Some(10), None)) == Less
  {
  }

  // ---------------------------------------------------------------------------
  // Display

  predicate IsDigit(c: char) {
    '0' <= c <= '9'
  }

  predicate AllDigits(s: string) {
    forall i | 0 <= i < |s| :: IsDigit(s[i])
  }

  function DigitChar(d: nat): (c: char)
    requires d < 10
    ensures IsDigit(c) && c as int - '0' as int == d
  {
    ('0' as int + d) as char
  }

  /** The decimal rendering of `{}` for an unsigned number. */
  function NumberText(n: nat): (s: string)
    ensures |s| > 0 && AllDigits(s)
    decreases n
  {
    if n < 10 then [DigitChar(n)] else NumberText(n / 10) + [DigitChar(n % 10)]
  }

  /** `Display::fmt`: major, `.minor` if present, `.patch` only when minor is present too, `-pre` if present. */
  function Display(v: Version): (s: string)
    ensures |s| > 0 && IsDigit(s[0])
    ensures v.preRelease.None? ==> forall i | 0 <= i < |s| :: IsDigit(s[i]) || s[i] == '.'
    ensures v.preRelease.Some? ==>
              |s| > |v.preRelease.value| && s[|s| - |v.preRelease.value| - 1..] == "-" + v.preRelease.value
  {
    NumberText(v.major)
    + (match v.minor
       case None => ""
       case Some(minor) =>
         "." + NumberText(minor) + (match v.patch case None => "" case Some(patch) => "." + NumberText(patch)))
    + (match v.preRelease case None => "" case Some(pre) => "-" + pre)
  }

  /** The four renderings of the source's `display_test`. */
  lemma DisplayExamples()
    ensures Display(Version(1, Some(0), Some(0), Some("alpha"))) == "1.0.0-alpha"
    ensures Display(Version(1, Some(0), None, Some("alpha"))) == "1.0-alpha"
    ensures Display(Version(1, None, Some(0), Some("alpha"))) == "1-alpha"
    ensures Display(Version(1, Some(0), Some(2), None)) == "1.0.2"
  {
    assert NumberText(0) == "0" && NumberText(1) == "1" && NumberText(2) == "2";
  }

  // ---------------------------------------------------------------------------
  // A reader for the rendered form, used to state what Display keeps.

  /** What a rendering shows: the numbers written out, and the pre-release. */
  datatype Rendered = Rendered(numbers: seq<nat>, preRelease: Option<string>)

  /** The components Display writes: patch only appears after a minor. */
  function Shown(v: Version): Rendered {
    Rendered(
      [v.major as nat]
      + (match v.minor
         case None => []
         case Some(minor) => [minor as nat] + (match v.patch case None => [] case Some(patch) => [patch as nat])),
      v.preRelease)
  }

  /** Cuts `s` at the first `sep`: the text before it, and the text after it if there is one. */
  function CutAt(s: string, sep: char): (r: (string, Option<string>))
    ensures sep !in r.0
    ensures r.1.None? ==> r.0 == s
    ensures r.1.Some? ==> s == r.0 + [sep] + r.1.value
  {
    if s == [] then ([], None)
    else if s[0] == sep then ([], Some(s[1..]))
    else
      var (head, rest) := CutAt(s[1..], sep);
      ([s[0]] + head, rest)
  }

  /** The pieces of `s` between occurrences of `sep`. */
  function Split(s: string, sep: char): (parts: seq<string>)
    ensures |parts| > 0
    decreases |s|
  {
    var (head, rest) := CutAt(s, sep);
    match rest
    case None => [head]
    case Some(tail) => [head] + Split(tail, sep)
  }

  /** The value of a string of decimal digits. */
  function DecimalValue(s: string): nat
    requires AllDigits(s)
  {
    if s == [] then 0 else 10 * DecimalValue(s[..|s| - 1]) + (s[|s| - 1] as int - '0' as int)
  }

  function ParseNumbers(parts: seq<string>): Option<seq<nat>> {
    if parts == [] then Some([])
    else if parts[0] == [] || !AllDigits(parts[0]) then None
    else match ParseNumbers(parts[1..])
      case None => None
      case Some(rest) => Some([DecimalValue(parts[0])] + rest)
  }

  /** Reads a rendering back: digits separated by dots, then `-` and the pre-release. */
  function ParseDisplay(s: string): Option<Rendered> {
    var (numeric, pre) := CutAt(s, '-');
    match ParseNumbers(Split(numeric, '.'))
    case None => None
    case Some(numbers) => Some(Rendered(numbers, pre))
  }

  lemma {:induction false} DecimalOfNumberText(n: nat)
    ensures DecimalValue(NumberText(n)) == n
    decreases n
  {
    if n >= 10 {
      var s := NumberText(n);
      assert s[..|s| - 1] == NumberText(n / 10);
      DecimalOfNumberText(n / 10);
    }
  }

  lemma NoSeparatorInDigits(s: string, sep: char)
    requires AllDigits(s) && !IsDigit(sep)
    ensures sep !in s
  {
    assert forall i | 0 <= i < |s| :: s[i] != sep;
  }

  lemma {:induction false} CutAtFirst(a: string, sep: char, rest: Option<string>)
    requires sep !in a
    ensures CutAt(a + (match rest case None => [] case Some(t) => [sep] + t), sep) == (a, rest)
  {
    var s := a + (match rest case None => [] case Some(t) => [sep] + t);
    if a != [] {
      assert s[1..] == a[1..] + (match rest case None => [] case Some(t) => [sep] + t);
      CutAtFirst(a[1..], sep, rest);
      assert [a[0]] + a[1..] == a;
    } else if rest.None? {
      assert s == [];
    } else {
      assert s[0] == sep && s[1..] == rest.value;
    }
  }

  /** Parsing a dot-joined sequence of number texts gives back the numbers. */
  lemma {:induction false} ParseJoined(numbers: seq<nat>)
    requires |numbers| > 0
    ensures ParseNumbers(Split(Joined(numbers), '.')) == Some(numbers)
    decreases |numbers|
  {
    var head := NumberText(numbers[0]);
    NoSeparatorInDigits(head, '.');
    DecimalOfNumberText(numbers[0]);
    if |numbers| == 1 {
      CutAtFirst(head, '.', None);
      assert head + [] == head;
      assert Split(head, '.') == [head];
      assert [head][1..] == [];
      assert ParseNumbers([]) == Some([]);
      assert [DecimalValue(head)] + [] == [DecimalValue(head)];
      assert ParseNumbers([head]) == Some([DecimalValue(head)]);
      assert numbers == [numbers[0]];
    } else {
      var tail := Joined(numbers[1..]);
      CutAtFirst(head, '.', Some(tail));
      assert Joined(numbers) == head + ['.'] + tail;
      assert Split(Joined(numbers), '.') == [head] + Split(tail, '.');
      ParseJoined(numbers[1..]);
      assert ([head] + Split(tail, '.'))[1..] == Split(tail, '.');
      assert [numbers[0]] + numbers[1..] == numbers;
    }
  }

  /** The numbers written as decimal texts joined by dots. */
  function Joined(numbers: seq<nat>): (s: string)
    requires |numbers| > 0
    ensures forall i | 0 <= i < |s| :: IsDigit(s[i]) || s[i] == '.'
    decreases |numbers|
  {
    if |numbers| == 1 then NumberText(numbers[0]) else NumberText(numbers[0]) + "." + Joined(numbers[1..])
  }

  /**
   * Display loses nothing that it shows: reading a rendering back yields exactly its
   * numbers (major, minor if present, patch if minor and patch are present) and its
   * pre-release, whatever text the pre-release holds.
   */
  lemma DisplayRoundTrip(v: Version)
    ensures ParseDisplay(Display(v)) == Some(Shown(v))
  {
    var numeric := Joined(Shown(v).numbers);
    DisplayIsJoined(v);
    assert forall i | 0 <= i < |numeric| :: numeric[i] != '-';
    CutAtFirst(numeric, '-', v.preRelease);
    ParseJoined(Shown(v).numbers);
  }

  /** Display is the dot-joined shown numbers followed by the pre-release part. */
  lemma DisplayIsJoined(v: Version)
    ensures Display(v) == Joined(Shown(v).numbers) + (match v.preRelease case None => [] case Some(t) => ['-'] + t)
  {
    var numbers := Shown(v).numbers;
    var major := NumberText(v.major);
    match v.minor {
      case None =>
        assert numbers == [v.major as nat];
      case Some(minor) =>
        match v.patch {
          case None =>
            assert numbers == [v.major as nat, minor as nat];
            assert numbers[1..] == [minor as nat];
            assert Joined(numbers[1..]) == NumberText(minor);
          case Some(patch) =>
            assert numbers == [v.major as nat, minor as nat, patch as nat];
            assert numbers[1..] == [minor as nat, patch as nat];
            assert numbers[1..][1..] == [patch as nat];
            assert Joined(numbers[1..][1..]) == NumberText(patch);
            assert Joined(numbers[1..]) == NumberText(minor) + "." + NumberText(patch);
        }
    }
  }

  /** Without a minor the patch is never rendered: `1`, no minor, patch `0`, `alpha` gives `1-alpha`. */
  lemma DisplayHidesPatchWithoutMinor(v: Version)
    requires v.minor.None?
    ensures Display(v) == Display(v.(patch := None))
    ensures Shown(v).numbers == [v.major as nat]
  {
  }

  /** Two versions with the same rendering show the same components and pre-release. */
  lemma DisplayDeterminesShown(a: Version, b: Version)
    requires Display(a) == Display(b)
    ensures Shown(a) == Shown(b)
  {
    DisplayRoundTrip(a);
    DisplayRoundTrip(b);
  }
}
