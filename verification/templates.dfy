/** Strings of the form `prefix${n}suffix`: a fixed text around the decimal
    numeral of a non-negative integer. Both the calendar-day selector and the
    generated email address have this shape. */
module Templates {
  import Decimal
  import opened Wrappers

  /** The template literal `prefix${n}suffix`. */
  function Fill(prefix: string, n: nat, suffix: string): (s: string)
    ensures |s| > |prefix| + |suffix|
    ensures s[..|prefix|] == prefix
    ensures s[|s| - |suffix|..] == suffix
    ensures Decimal.IsCanonical(s[|prefix|..|s| - |suffix|])
  {
    var digits := Decimal.FromNat(n);
    var s := prefix + digits + suffix;
    assert s[|prefix|..|s| - |suffix|] == digits;
    s
  }

  /** Recovers `n` from a string of the form `prefix${n}suffix`, or None when
      the string has some other shape. */
  function Match(prefix: string, s: string, suffix: string): (r: Option<nat>)
  {
    if |s| > |prefix| + |suffix|
       && s[..|prefix|] == prefix
       && s[|s| - |suffix|..] == suffix
       && Decimal.IsCanonical(s[|prefix|..|s| - |suffix|])
    then Some(Decimal.ToNat(s[|prefix|..|s| - |suffix|]))
    else None
  }

  /** Every filled template is recognised and yields its number. */
  lemma MatchFill(prefix: string, n: nat, suffix: string)
    ensures Match(prefix, Fill(prefix, n, suffix), suffix) == Some(n)
  {
    var s := Fill(prefix, n, suffix);
    assert s[|prefix|..|s| - |suffix|] == Decimal.FromNat(n);
    Decimal.ToNatFromNat(n);
  }

  /** Every recognised string is exactly the filled template of its number. */
  lemma FillMatch(prefix: string, s: string, suffix: string)
    requires Match(prefix, s, suffix).Some?
    ensures Fill(prefix, Match(prefix, s, suffix).value, suffix) == s
  {
    var middle := s[|prefix|..|s| - |suffix|];
    Decimal.FromNatToNat(middle);
    assert s == s[..|prefix|] + middle + s[|s| - |suffix|..];
  }

  /** Distinct numbers give distinct filled templates. */
  lemma FillInjective(prefix: string, a: nat, b: nat, suffix: string)
    ensures Fill(prefix, a, suffix) == Fill(prefix, b, suffix) <==> a == b
  {
    MatchFill(prefix, a, suffix);
    MatchFill(prefix, b, suffix);
  }
}
