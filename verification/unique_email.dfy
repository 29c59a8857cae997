/** `generateRandomEmail` (Mysight/testData/testUtils.js), with the reading of
    `Date.now()` passed in as a millisecond timestamp. */
module UniqueEmail {
  import Templates
  import opened Wrappers

  const LocalPrefix: string := "testuser_"
  const DomainSuffix: string := "@example.com"

  /** The address `testuser_${timestamp}@example.com`. */
  function GenerateRandomEmail(timestamp: nat): (email: string)
    ensures Templates.Match(LocalPrefix, email, DomainSuffix) == Some(timestamp)
  {
    Templates.MatchFill(LocalPrefix, timestamp, DomainSuffix);
    Templates.Fill(LocalPrefix, timestamp, DomainSuffix)
  }

  /** Two clock readings give the same address exactly when they are the same
      millisecond. */
  lemma DistinctTimestampsDistinctEmails(t1: nat, t2: nat)
    ensures GenerateRandomEmail(t1) == GenerateRandomEmail(t2) <==> t1 == t2
  {
    Templates.FillInjective(LocalPrefix, t1, t2, DomainSuffix);
  }

  /** Every string of the shape `testuser_<digits>@example.com` (digits without
      a leading zero) is the address generated at some timestamp. */
  lemma EveryWellFormedAddressIsGenerated(email: string)
    requires Templates.Match(LocalPrefix, email, DomainSuffix).Some?
    ensures GenerateRandomEmail(Templates.Match(LocalPrefix, email, DomainSuffix).value) == email
  {
    Templates.FillMatch(LocalPrefix, email, DomainSuffix);
  }
}
