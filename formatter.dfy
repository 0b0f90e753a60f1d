/**
 * Phone-number and WhatsApp-ID string transforms (helpers/formatter.js).
 *
 * A private-chat ID is a phone number followed by the suffix "@c.us".
 * `Formatted` is the specification of `phoneNumberFormatter`; the method
 * `PhoneNumberFormatter` follows `phoneNumberFormatter` in helpers/formatter.js
 * step by step and is proved to compute it.
 */
module Formatter {
  import opened Wrappers

  /** The library's private-chat suffix. */
  const Suffix: string := "@c.us"

  /** `\d` in a JavaScript regular expression without the `u` flag: ASCII digits only. */
  predicate IsDigit(c: char) { '0' <= c <= '9' }

  /** The characters that survive the replacement of `/[^\d+]/g`: digits and `+`. */
  predicate IsDialChar(c: char) { IsDigit(c) || c == '+' }

  /** `s.startsWith(c)` for a one-character string `c`. */
  predicate StartsWith(s: string, c: char) { |s| > 0 && s[0] == c }

  predicate EndsWith(s: string, suffix: string)
  {
    |suffix| <= |s| && s[|s| - |suffix|..] == suffix
  }

  // ---------------------------------------------------------------------
  // Global regular-expression replacement by the empty string
  // ---------------------------------------------------------------------

  /** `s.replace(/[^K]/g, "")`: the characters of `s` satisfying `keep`, in order. */
  function Retain(s: string, keep: char -> bool): (r: string)
    ensures |r| <= |s|
    ensures forall i :: 0 <= i < |r| ==> keep(r[i])
  {
    if s == [] then []
    else if keep(s[0]) then [s[0]] + Retain(s[1..], keep)
    else Retain(s[1..], keep)
  }

  /** Filtering distributes over concatenation. */
  lemma {:induction false} RetainAppend(a: string, b: string, keep: char -> bool)
    ensures Retain(a + b, keep) == Retain(a, keep) + Retain(b, keep)
  {
    if a == [] {
      assert a + b == b;
    } else {
      assert (a + b)[0] == a[0];
      assert (a + b)[1..] == a[1..] + b;
      RetainAppend(a[1..], b, keep);
    }
  }

  /** A string made only of kept characters is left as it is. */
  lemma {:induction false} RetainKeepsAll(s: string, keep: char -> bool)
    requires forall i :: 0 <= i < |s| ==> keep(s[i])
    ensures Retain(s, keep) == s
  {
    if s != [] {
      RetainKeepsAll(s[1..], keep);
    }
  }

  /** A string with no kept character filters to the empty string. */
  lemma {:induction false} RetainDropsAll(s: string, keep: char -> bool)
    requires forall i :: 0 <= i < |s| ==> !keep(s[i])
    ensures Retain(s, keep) == []
  {
    if s != [] {
      RetainDropsAll(s[1..], keep);
    }
  }

  /** Two filters that agree on every character of `s` filter it alike. */
  lemma {:induction false} RetainAgrees(s: string, p: char -> bool, q: char -> bool)
    requires forall i :: 0 <= i < |s| ==> p(s[i]) == q(s[i])
    ensures Retain(s, p) == Retain(s, q)
  {
    if s != [] {
      RetainAgrees(s[1..], p, q);
    }
  }

  /** Step 1 of `phoneNumberFormatter`: `number.replace(/[^\d+]/g, "")`. */
  function KeepDialChars(s: string): (r: string)
    ensures |r| <= |s|
    ensures forall i :: 0 <= i < |r| ==> IsDialChar(r[i])
  {
    Retain(s, IsDialChar)
  }

  // ---------------------------------------------------------------------
  // phoneNumberFormatter
  // ---------------------------------------------------------------------

  /**
   * Step 2: the string without its leading `0` characters: a suffix of `s`,
   * everything cut off is `0`, and what is left does not start with `0`.
   */
  function StripLeadingZeros(s: string): (r: string)
    ensures |r| <= |s| && r == s[|s| - |r|..]
    ensures forall i :: 0 <= i < |s| - |r| ==> s[i] == '0'
    ensures !StartsWith(r, '0')
  {
    if StartsWith(s, '0') then StripLeadingZeros(s[1..]) else s
  }

  /** "Ensure it has a plus sign": the result starts with `+` and ends with `s`. */
  function WithPlus(s: string): (r: string)
    ensures StartsWith(r, '+')
    ensures |s| <= |r| <= |s| + 1 && r[|r| - |s|..] == s
    ensures StartsWith(s, '+') ==> r == s
  {
    if StartsWith(s, '+') then s else "+" + s
  }

  /** Stripping zeros keeps a string of dial characters one. */
  lemma StrippedDialChars(s: string)
    requires forall i :: 0 <= i < |s| ==> IsDialChar(s[i])
    ensures forall i :: 0 <= i < |StripLeadingZeros(s)| ==> IsDialChar(StripLeadingZeros(s)[i])
  {
    var r := StripLeadingZeros(s);
    forall i | 0 <= i < |r| ensures IsDialChar(r[i]) {
      assert r[i] == s[|s| - |r| + i];
    }
  }

  /** The phone part of an ID: `+` followed by dial characters only. */
  predicate IsCanonicalPhone(p: string)
  {
    |p| > 0 && p[0] == '+' && forall i :: 0 <= i < |p| ==> IsDialChar(p[i])
  }

  /**
   * Adding the plus to dial characters gives a phone part; a zero right after
   * the plus was not put there by the added plus when `s` has no leading zero.
   */
  lemma WithPlusCanonical(s: string)
    requires forall i :: 0 <= i < |s| ==> IsDialChar(s[i])
    requires !StartsWith(s, '0')
    ensures IsCanonicalPhone(WithPlus(s))
    ensures |WithPlus(s)| > 1 && WithPlus(s)[1] == '0' ==> StartsWith(s, '+')
  {
    if !StartsWith(s, '+') {
      var r := "+" + s;
      forall i | 0 <= i < |r| ensures IsDialChar(r[i]) {
        if i > 0 { assert r[i] == s[i - 1]; }
      }
    }
  }

  /**
   * Steps 1 to 3 of `phoneNumberFormatter`: filter, strip the leading zeros,
   * ensure the `+`. A zero directly after the `+` survives only when the `+`
   * was already there.
   */
  function PhonePart(number: string): (r: string)
    ensures IsCanonicalPhone(r)
    ensures |r| > 1 && r[1] == '0' ==> StartsWith(StripLeadingZeros(KeepDialChars(number)), '+')
  {
    var stripped := StripLeadingZeros(KeepDialChars(number));
    StrippedDialChars(KeepDialChars(number));
    WithPlusCanonical(stripped);
    WithPlus(stripped)
  }

  /** Specification of `phoneNumberFormatter`: the phone part, then the suffix. */
  function Formatted(number: string): (r: string)
    ensures |r| > |Suffix| && r[0] == '+' && EndsWith(r, Suffix)
  {
    PhonePart(number) + Suffix
  }

  /**
   * What `phoneNumberFormatter` promises: the result starts with `+`, holds
   * only dial characters before the suffix, and ends with the suffix exactly
   * once; a zero right after the `+` is one that followed a `+` in the input,
   * never one that led the filtered number.
   */
  lemma FormattedShape(number: string)
    ensures var r := Formatted(number);
            && |r| > |Suffix| && r[0] == '+'
            && EndsWith(r, Suffix)
            && IsCanonicalPhone(r[..|r| - |Suffix|])
            && (r[1] == '0' ==> StartsWith(StripLeadingZeros(KeepDialChars(number)), '+'))
  {
    var phone := PhonePart(number);
    assert (phone + Suffix)[..|phone|] == phone;
    assert (phone + Suffix)[|phone|..] == Suffix;
  }

  /** The suffix filters away entirely: none of `@`, `c`, `.`, `u`, `s` is a dial character. */
  lemma SuffixHasNoDialChar()
    ensures forall i :: 0 <= i < |Suffix| ==> !IsDialChar(Suffix[i])
  {
  }

  /** A string of dial characters never ends with the suffix. */
  lemma NoDialStringEndsWithSuffix(s: string)
    requires forall i :: 0 <= i < |s| ==> IsDialChar(s[i])
    ensures !EndsWith(s, Suffix)
  {
    if |Suffix| <= |s| {
      assert IsDialChar(s[|s| - |Suffix|]);
      assert s[|s| - |Suffix|..][0] == s[|s| - |Suffix|];
    }
  }

  /** A canonical phone part is a fixed point, with or without its suffix. */
  lemma FormattedFixesCanonical(p: string)
    requires IsCanonicalPhone(p)
    ensures Formatted(p) == p + Suffix
    ensures Formatted(p + Suffix) == p + Suffix
  {
    RetainKeepsAll(p, IsDialChar);
    SuffixHasNoDialChar();
    RetainDropsAll(Suffix, IsDialChar);
    RetainAppend(p, Suffix, IsDialChar);
    assert KeepDialChars(p + Suffix) == p;
    assert !StartsWith(p, '0');
  }

  /** The phone part of `Formatted(number)`. */
  lemma FormattedSplits(number: string)
    ensures var r := Formatted(number);
            IsCanonicalPhone(r[..|r| - |Suffix|]) && r == r[..|r| - |Suffix|] + Suffix
  {
    FormattedShape(number);
  }

  /** `phoneNumberFormatter` is idempotent. */
  lemma FormattedIdempotent(number: string)
    ensures Formatted(Formatted(number)) == Formatted(number)
  {
    var r := Formatted(number);
    FormattedSplits(number);
    FormattedFixesCanonical(r[..|r| - |Suffix|]);
  }

  /**
   * `phoneNumberFormatter` as written: reassigns `formatted` step by step and
   * strips leading zeros one at a time.
   */
  method PhoneNumberFormatter(number: string) returns (formatted: string)
    ensures formatted == Formatted(number)
  {
    formatted := KeepDialChars(number);
    ghost var filtered := formatted;
    while StartsWith(formatted, '0')
      invariant StripLeadingZeros(formatted) == StripLeadingZeros(filtered)
      invariant forall i :: 0 <= i < |formatted| ==> IsDialChar(formatted[i])
      decreases |formatted|
    {
      formatted := formatted[1..];
    }
    assert formatted == StripLeadingZeros(filtered);
    if !StartsWith(formatted, '+') {
      formatted := "+" + formatted;
    }
    assert formatted == PhonePart(number);
    // The filter removed every character of the suffix, so this test always
    // succeeds and the suffix is appended exactly once.
    NoDialStringEndsWithSuffix(formatted);
    if !EndsWith(formatted, Suffix) {
      formatted := formatted + Suffix;
    }
  }

  // ---------------------------------------------------------------------
  // extractPhoneNumber
  // ---------------------------------------------------------------------

  /** `p` occurs in `s` starting at index `i`. */
  predicate OccursAt(s: string, p: string, i: int)
  {
    0 <= i && i + |p| <= |s| && s[i..i + |p|] == p
  }

  /** `i` is the first index at which `p` occurs in `s`. */
  predicate FirstOccurrence(s: string, p: string, i: int)
  {
    OccursAt(s, p, i) && forall j :: 0 <= j < i ==> !OccursAt(s, p, j)
  }

  /** `s.indexOf(p, k)`: the first occurrence of `p` in `s` at or after `k`. */
  function IndexFrom(s: string, p: string, k: nat): (r: Option<nat>)
    requires k <= |s|
    ensures r.Some? ==> k <= r.value && OccursAt(s, p, r.value)
    ensures r.Some? ==> forall j :: k <= j < r.value ==> !OccursAt(s, p, j)
    ensures r.None? ==> forall j :: k <= j ==> !OccursAt(s, p, j)
    decreases |s| - k
  {
    if OccursAt(s, p, k) then Some(k)
    else if k == |s| then None
    else IndexFrom(s, p, k + 1)
  }

  /**
   * `s.replace(p, "")` with a string pattern: only the first occurrence of `p`
   * is removed, the rest of `s` is kept as it is.
   */
  function RemoveFirst(s: string, p: string): (r: string)
    ensures (forall j :: !OccursAt(s, p, j)) ==> r == s
    ensures forall i :: FirstOccurrence(s, p, i) ==> r == s[..i] + s[i + |p|..]
  {
    match IndexFrom(s, p, 0)
    case None => s
    case Some(i) =>
      assert FirstOccurrence(s, p, i);
      s[..i] + s[i + |p|..]
  }

  /**
   * `extractPhoneNumber`: the ID with its first suffix removed, then given a
   * leading `+`; the rest of the ID is unchanged.
   */
  function ExtractPhoneNumber(id: string): (r: string)
    ensures |r| > 0 && r[0] == '+'
    ensures var n := RemoveFirst(id, Suffix);
            (StartsWith(n, '+') ==> r == n) && (!StartsWith(n, '+') ==> r == "+" + n)
  {
    WithPlus(RemoveFirst(id, Suffix))
  }

  /** In a canonical phone part followed by the suffix, the first suffix is the last one. */
  lemma RemoveSuffixOfCanonical(p: string)
    requires IsCanonicalPhone(p)
    ensures RemoveFirst(p + Suffix, Suffix) == p
  {
    var s := p + Suffix;
    forall j | 0 <= j < |p| ensures !OccursAt(s, Suffix, j) {
      assert s[j] == p[j];
    }
    assert s[|p|..|p| + |Suffix|] == Suffix;
    assert FirstOccurrence(s, Suffix, |p|);
    assert s[..|p|] + s[|p| + |Suffix|..] == p;
  }

  /** Round trip: extracting from a formatted ID gives its phone part. */
  lemma ExtractAfterFormat(number: string)
    ensures var r := Formatted(number);
            ExtractPhoneNumber(r) == r[..|r| - |Suffix|]
  {
    var r := Formatted(number);
    var p := r[..|r| - |Suffix|];
    FormattedSplits(number);
    RemoveSuffixOfCanonical(p);
    assert RemoveFirst(r, Suffix) == p;
    assert StartsWith(p, '+');
  }

  /** Formatting the extracted phone part gives the ID back. */
  lemma FormatAfterExtract(number: string)
    ensures Formatted(ExtractPhoneNumber(Formatted(number))) == Formatted(number)
  {
    var r := Formatted(number);
    ExtractAfterFormat(number);
    FormattedSplits(number);
    FormattedFixesCanonical(r[..|r| - |Suffix|]);
  }

  // ---------------------------------------------------------------------
  // formatPhoneNumbers
  // ---------------------------------------------------------------------

  /** `Array.prototype.map`: one result per element, in order. */
  function Map<T, U>(xs: seq<T>, f: T -> U): (r: seq<U>)
    ensures |r| == |xs|
    ensures forall i :: 0 <= i < |xs| ==> r[i] == f(xs[i])
  {
    if xs == [] then [] else [f(xs[0])] + Map(xs[1..], f)
  }

  /** `formatPhoneNumbers`: element `i` is the formatted `numbers[i]`. */
  function FormatPhoneNumbers(numbers: seq<string>): (r: seq<string>)
    ensures |r| == |numbers|
    ensures forall i :: 0 <= i < |numbers| ==> r[i] == Formatted(numbers[i])
  {
    Map(numbers, Formatted)
  }

  /** Formatting a formatted list changes nothing. */
  lemma FormatPhoneNumbersIdempotent(numbers: seq<string>)
    ensures FormatPhoneNumbers(FormatPhoneNumbers(numbers)) == FormatPhoneNumbers(numbers)
  {
    var once := FormatPhoneNumbers(numbers);
    forall i | 0 <= i < |once| ensures FormatPhoneNumbers(once)[i] == once[i] {
      FormattedIdempotent(numbers[i]);
    }
  }
}
