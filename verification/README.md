# MySight test utilities — a Dafny model

The MySight repository is an end-to-end browser test suite for an optician
appointment-booking site. Its only reusable logic that does not drive a browser
lives in `Mysight/testData/testUtils.js`. This project models that logic as pure
functions and proves what the test scripts rely on:

- **Next valid day** (`selectNextValidDay`): the day of the month and day of the
  week are passed in, where the source reads the clock. The rule advances 2 days
  from a Sunday, 3 from a Saturday and 1 otherwise. It then renders the locator
  `[data-test-id="day_<n>_of_the_month_button"]` (module `NextValidDay`).
- **Unique email** (`generateRandomEmail`): `testuser_<timestamp>@example.com`,
  with the `Date.now()` reading passed in (module `UniqueEmail`).
- **Fixture update** (`updateEmailInTestData`): the parsed JSON fixture is a
  `Json` value whose objects are maps. The operation returns the document that
  would be written back, together with the new address (module `Fixture`).
- **Setup decisions** (`createBrowserContext`): the lookup of the first
  configured project named `Chrome`, and the check that the page title is
  exactly `MySight` (module `Setup`).

Supporting modules:
- `Decimal` holds decimal numerals of non-negative integers, with both round
  trips proved.
- `Templates` holds strings of the form `prefix${n}suffix`, with a parser and
  both round trips.
- `Wrappers` holds `Option`, `Result` and `Outcome`. These stand in for the
  exceptions the source throws.

Behaviour kept as written:
- The day number is raw `getDate() + offset`. It is never wrapped into the next
  month, so from the 31st the selector names a button for day 32, 33 or 34.
  `NextValidDay.NoMonthWrap` exhibits this.
- The rule lands on any day from Tuesday to Saturday. From a Friday it picks the
  Saturday. This matches the code comments and the callers' step name,
  "skipping Sunday and Monday". It does not match a reading of the rule as
  "skip Saturdays and Sundays"; the model follows the code.

Chosen semantics for `testData.user.email = …`:
- The source does not settle whether the file runs as strict or non-strict
  JavaScript; that depends on how the test runner loads it. The model takes the
  mode as a parameter (`Fixture.ScriptMode`) and covers both.
- If the document is not an object, has no `user`, or its `user` is `null`, the
  operation fails in either mode (JavaScript throws a `TypeError`).
- If `user` is an array, the named property is set but serialising the
  document drops it, so the document is written back unchanged. The new
  address is still returned.
- If `user` is a string, number or boolean, a non-strict script ignores the
  assignment (document unchanged, address returned), and a strict one throws.
- Otherwise `email` is set or added.

## Model

| member | source | states |
|---|---|---|
| Decimal.FromNat | Mysight/testData/testUtils.js:69-79 | the rendering of an integer is a canonical numeral (digits only, no leading zero); its first digit is '0' exactly when the integer is 0, and it has one digit exactly when the integer is below 10 |
| Templates.Fill | Mysight/testData/testUtils.js:69-79 | a filled template is the prefix, then a canonical numeral, then the suffix |
| Decimal.ToNatFromNat | Mysight/testData/testUtils.js:69-79 | reading back the decimal rendering of an integer gives the integer |
| Decimal.FromNatToNat | Mysight/testData/testUtils.js:69-79 | every canonical digit string (no leading zero) is the rendering of its value |
| Decimal.FromNatInjective | Mysight/testData/testUtils.js:69-79 | two integers render to the same numeral exactly when they are equal |
| Templates.MatchFill | Mysight/testData/testUtils.js:69-79 | the number interpolated into `prefix${n}suffix` is recovered from the string |
| Templates.FillMatch | Mysight/testData/testUtils.js:69-79 | every string of the shape prefix, canonical digits, suffix is the template of its number |
| Templates.FillInjective | Mysight/testData/testUtils.js:69-79 | distinct numbers give distinct template strings, and equal numbers equal ones |
| NextValidDay.Offset | Mysight/testData/testUtils.js:59-66 | the advance is 1 to 3 days and is the least positive advance landing on Tuesday to Saturday |
| NextValidDay.NextDay | Mysight/testData/testUtils.js:55-66 | the picked day number is above today by at most 3, lies in 2..34, and is the first later day that is not a Sunday or Monday |
| NextValidDay.SelectNextValidDay | Mysight/testData/testUtils.js:54-71 | the returned locator is the day-button template and parses back to exactly the picked day number |
| NextValidDay.OffsetIsUniqueNextBookable | Mysight/testData/testUtils.js:59-66 | the advance is 2 on Sunday, 3 on Saturday, 1 otherwise, and no other advance is the least one to a bookable weekday |
| NextValidDay.SkipsSundayAndMonday | Mysight/testData/bookingAnAppointment.test.js:72-73 | the picked day falls from Tuesday to Saturday, never on Sunday or Monday |
| NextValidDay.WeekendLandsOnTuesday | Mysight/testData/testUtils.js:60-63 | from a Saturday or a Sunday the picked day is the following Tuesday |
| NextValidDay.NoMonthWrap | Mysight/testData/testUtils.js:56-70 | the day number is not reduced by the month length: from the 31st a Saturday gives 34 and a Sunday 33, and the locator names day 34 |
| NextValidDay.SelectorIdentifiesDay | Mysight/testData/testUtils.js:69-70 | two clock readings give the same locator exactly when they pick the same day number |
| UniqueEmail.GenerateRandomEmail | Mysight/testData/testUtils.js:77-80 | the address has the shape `testuser_<digits>@example.com` and its digits are the timestamp |
| UniqueEmail.DistinctTimestampsDistinctEmails | Mysight/testData/testUtils.js:77-80 | two timestamps give the same address exactly when they are equal |
| UniqueEmail.EveryWellFormedAddressIsGenerated | Mysight/testData/testUtils.js:79 | every string of that shape is the address generated at its timestamp |
| Fixture.SetUserEmail | Mysight/testData/testUtils.js:92 | the assignment fails exactly when `user` is missing or null, or is a primitive in strict mode; it stores the address on an object user and changes nothing on an array or (non-strict) primitive user |
| Fixture.UpdateEmailInTestData | Mysight/testData/testUtils.js:87-98 | succeeds exactly when `user` is defined and not null (and, in strict mode, not a primitive) and returns the generated address; when `user` is an object, `user.email` then holds that address, otherwise the document is returned unchanged |
| Fixture.OnlyUserEmailChanges | Mysight/testData/testUtils.js:88-97 | every top-level member other than `user` and every member of `user` other than `email` keeps its value; no member disappears |
| Fixture.LastUpdateWins | Mysight/testData/testUtils.js:87-98 | updating twice gives the same document and address as updating once with the later timestamp |
| Fixture.DistinctRunsStoreDistinctEmails | Mysight/testData/testUtils.js:91-92 | updates at distinct timestamps leave distinct addresses in `user.email` |
| Setup.FindFirstNamed | Mysight/testData/testUtils.js:14 | the result is the index of the first project with the name, and there is none exactly when no project has it |
| Setup.ChromeProject | Mysight/testData/testUtils.js:14-18 | fails with "Chrome project not found" exactly when no project is named Chrome; otherwise returns the first such project |
| Setup.CheckTitle | Mysight/testData/testUtils.js:33-36 | passes exactly when the title is "MySight"; otherwise fails carrying the title received |
| Setup.CreateBrowserContext | Mysight/testData/testUtils.js:13-39 | succeeds exactly when a Chrome project exists and the title is "MySight"; the project lookup error takes precedence over the title error |
| Setup.Message | Mysight/testData/testUtils.js:17-35 | a missing project reads "Chrome project not found"; a mismatch reads `Expected page title "MySight", but received: "` then the received title then a closing quote |
| Setup.MessageIdentifiesError | Mysight/testData/testUtils.js:16-36 | two setup errors have the same message text exactly when they are the same error |
| Setup.FirstChromeEntryWins | Mysight/testData/testUtils.js:14 | with several Chrome entries, the earliest one is launched |

## Left out

- Browser launch, context and page creation, navigation with its 30-second timeout, and the cookie-banner click (`createBrowserContext`, Mysight/testData/testUtils.js:21-30): these are Playwright calls. The model takes the resulting page title as a parameter.
- `closeBrowser` and `login` (Mysight/testData/testUtils.js:45-47, 106-119): these only call the browser library.
- Clock reads (`new Date()`, `Date.now()`): the day of the month, the day of the week and the timestamp are parameters.
- File reading and writing, and `JSON.parse` / `JSON.stringify` (Mysight/testData/testUtils.js:88, 95): the model works on the parsed document. File and parse errors are therefore not modelled, and neither is member order in the written text.
- Fixture.SetUserEmail: which script mode applies is a parameter, not decided by the model; the source does not fix it.
- Fixture.Json: JSON numbers are exact rationals (`real`), not IEEE doubles.
- UniqueEmail.GenerateRandomEmail: the timestamp is an unbounded `nat` in plain decimal. JavaScript prints integers from 10^21 up in exponential notation. Millisecond clock readings are far below that bound.
- The `async` / `await` sequencing, the test scripts themselves, and the runner configuration (`workers: 1`, which runs the tests one at a time; the model has no concurrency).
