# ProTuS form validators in Dafny

This project models the form validators of ProTuS's `src/server/schema/UserSchema.ts`. There are three of them:

- **onboarding** (`onboardingSchema`): name, USN email, ProTuS ID, selected components and leaderboard opt-in;
- **user preference** (`userPreferenceSchema`): new selected components, leaderboard opt-in and name;
- **to-do** (`toDoSchema`): due date, name and user id.

Each validator is a pure function. It takes a raw JavaScript value (`JsValues.JsValue`) and returns either `Success` with a normalised record, or `Failure` with a non-empty list of issues. Each issue is a field path and a message.

The model follows the pipeline of the schemas:

1. Every field of the object is checked. Issues are collected in the order the fields are declared.
2. Only when every field passes, the transform runs. It drops `name` unless `leaderboard` is true.
3. Both name refinements then run independently. Their issues are reported on path `["name"]`.

Two parts of the validators belong to Zod or the database rather than to this file, so the model takes them as parameters:

- Zod's email-syntax rule is the parameter `isEmail: string -> bool`.
- The members of Prisma's `SelectedEnum` are the parameter `members: set<string>`.

Files:

- `js_values.dfy` (module `JsValues`): the JavaScript values, `Option` and `Result`.
- `user_schema.dfy` (module `UserSchema`): the field schemas, `asOptionalField`, normalisation, the refinements and the three validators.
- `user_schema_lemmas.dfy` (module `UserSchemaLemmas`): properties that relate the validators to independent descriptions of what each form accepts.

A few details of the code are easy to miss:

- The fields are named `USNEmail`, `protusId` and `leaderboard`.
- A missing `protusId` gets Zod's "Required" issue. The custom type message "Your ID should be between 24001 and 24100" applies only to a value that is present but is not a number.
- In `onboardingSchema`, the empty string is a present name. Both refinements test the name for truthiness, so for an opted-in user `""` fails both of them, as an absent name does.
- `asOptionalField(z.string())` does not turn `""` into absent (see "## Findings"). Through `userPreferenceSchema` this makes no difference (`AsWrittenHelperSameVerdict`).

## Model

| member | source | states |
|---|---|---|
| UserSchema.EndsWith | src/server/schema/UserSchema.ts:17 | `endsWith(suffix)` holds iff the suffix fits in the string and its characters match the string's last characters, one by one |
| UserSchema.StringValue | src/server/schema/UserSchema.ts:76 | `z.string()` accepts exactly the strings and returns the string itself; anything else gives the invalid-type message for the received type |
| UserSchema.StringField | src/server/schema/UserSchema.ts:76-77 | a string field accepts exactly the strings and returns them; anything else gives one invalid-type issue on the field's key |
| UserSchema.OptionalStringField | src/server/schema/UserSchema.ts:16 | `z.string().optional()` accepts undefined (as absent) and every string, `""` included; null and other values give one type issue on the key |
| UserSchema.BooleanField | src/server/schema/UserSchema.ts:28 | `z.boolean()` accepts exactly the booleans and returns the flag; anything else gives one type issue |
| UserSchema.DateField | src/server/schema/UserSchema.ts:75 | `z.date()` accepts exactly the valid dates and returns their time; an Invalid Date gives exactly an invalid-date issue, and a non-date exactly one invalid-type issue, both on the key |
| UserSchema.UsnEmailField | src/server/schema/UserSchema.ts:17-19 | the email is accepted iff it is a string that passes the email-syntax rule and ends with `usn.no`; a string without the suffix is reported with "Your email must be an USN email."; every issue is on the field's key |
| UserSchema.ProtusIdField | src/server/schema/UserSchema.ts:20-26 | the ID is accepted iff it is a number with 24000 < id < 24101; at or below 24000 exactly the "greater than 24000" issue, at or above 24101 exactly the "lower than 24101" issue; a present non-number gets the custom type message; undefined gets "Required" |
| UserSchema.ParseElement | src/server/schema/UserSchema.ts:27 | an array element is accepted iff it is a string, and for the enum schema a member of the enum; the value is the string itself |
| UserSchema.ParseElements | src/server/schema/UserSchema.ts:51 | the elements are accepted iff every element is; on success the result has the elements' strings in order; on failure every failing element is reported at `[key, index]` and every issue is one such report |
| UserSchema.ArrayField | src/server/schema/UserSchema.ts:27 | `z.array(element)` accepts exactly the arrays whose elements all pass; a non-array gives one type issue |
| UserSchema.AsOptionalField | src/server/schema/UserSchema.ts:7-12 | as written, undefined is absent, and the result agrees with the intended helper on every value except null or `""` when the inner schema accepts that value |
| UserSchema.AsOptionalFieldIntended | src/server/schema/UserSchema.ts:7-12 | undefined, null and `""` are absent; any other value is accepted iff the inner schema accepts it, and is then passed through |
| UserSchema.OptionalStringAsWritten | src/server/schema/UserSchema.ts:53 | as written, `asOptionalField(z.string())` returns every string as present (`""` included), makes undefined and null absent, and rejects everything else with an invalid-union issue |
| UserSchema.OptionalString | src/server/schema/UserSchema.ts:53 | the preference form's optional name is never a present empty string |
| UserSchema.NormaliseName | src/server/schema/UserSchema.ts:30-33 | without opt-in the name is absent; with opt-in it is unchanged |
| UserSchema.NameIssues | src/server/schema/UserSchema.ts:34-47 | no issue iff the user did not opt in or has a name of 3 to 14 characters; at most two issues, all on `["name"]`; an opted-in user with an absent or empty name gets exactly the "at least three" and the "fewer than 15" issues, in that order; an opted-in name of 1 or 2 characters gets only the "at least three" issue, and one of 15 or more characters only the "fewer than 15" issue |
| UserSchema.ParseOnboarding | src/server/schema/UserSchema.ts:14-29 | the field checks pass iff the input is an object whose name is undefined or a string, whose email is a USN email, whose ID is in 24001..24100, whose components are all strings and whose flag is a boolean; the record then holds exactly those fields; a rejection carries at least one issue |
| UserSchema.NormaliseOnboarding | src/server/schema/UserSchema.ts:30-33 | without opt-in the name is absent; with opt-in the record is unchanged; every field except the name is copied |
| UserSchema.ValidateOnboarding | src/server/schema/UserSchema.ts:14-47 | a rejection has at least one issue; an accepted record has an ID in range, an email that passes the syntax rule and ends with `usn.no`, a name that satisfies the name rule, and no name without opt-in |
| UserSchema.ParsePreferenceWith | src/server/schema/UserSchema.ts:49-54 | the field checks pass iff the input is an object whose components are all enum members, whose flag is a boolean and whose name the optional-field helper accepts; the record then holds those components, that flag and the helper's name; a rejection carries at least one issue |
| UserSchema.NormalisePreference | src/server/schema/UserSchema.ts:55-58 | without opt-in the name is absent; with opt-in the record is unchanged; the other fields are copied |
| UserSchema.FinishPreference | src/server/schema/UserSchema.ts:55-72 | shape failures pass through unchanged; a well-shaped record is accepted iff it satisfies the name rule, and then comes back normalised |
| UserSchema.ValidateUserPreference | src/server/schema/UserSchema.ts:49-72 | a rejection has at least one issue; every accepted component is a member of the enum; an accepted record satisfies the name rule and has no name without opt-in |
| UserSchema.ValidateToDo | src/server/schema/UserSchema.ts:74-78 | accepted iff it is an object with a valid due date and string name and user id, which it returns; a non-string name is reported on `["name"]` |
| UserSchemaLemmas.EndsWithIff | src/server/schema/UserSchema.ts:17 | `endsWith(suffix)` holds iff the string is some string followed by the suffix |
| UserSchemaLemmas.OnboardingAcceptedIff | src/server/schema/UserSchema.ts:14-47 | the onboarding validator accepts exactly the objects whose fields have the right shapes, whose ID is in 24001..24100, whose email is a USN email and whose name satisfies the name rule after normalisation; the accepted record holds those fields, with the name only under opt-in |
| UserSchemaLemmas.ProtusIdOutOfRangeReported | src/server/schema/UserSchema.ts:20-26 | an ID at or below 24000 is rejected with "Your ID must be greater than 24000", and one at or above 24101 with "Your ID must be lower than 24101", both on `["protusId"]` |
| UserSchemaLemmas.ProtusIdNotNumberReported | src/server/schema/UserSchema.ts:20-23 | a present ID that is not a number is rejected with "Your ID should be between 24001 and 24100" |
| UserSchemaLemmas.EmailSuffixReported | src/server/schema/UserSchema.ts:17-19 | a string email that is not something followed by `usn.no` is rejected with "Your email must be an USN email." on `["USNEmail"]` |
| UserSchemaLemmas.NormaliseOnboardingIdempotent | src/server/schema/UserSchema.ts:30-33 | applying the transform twice gives the same record as once |
| UserSchemaLemmas.OptOutDropsName | src/server/schema/UserSchema.ts:30-40 | a well-shaped form without opt-in is accepted whatever its name, and comes back with no name and every other field unchanged |
| UserSchemaLemmas.OnboardingMissingNameTwoIssues | src/server/schema/UserSchema.ts:34-47 | an opted-in, well-shaped form with an absent or empty name fails with exactly two issues on `["name"]`: "at least three characters" and "fewer than 15 characters" |
| UserSchemaLemmas.OnboardingRevalidation | src/server/schema/UserSchema.ts:14-47 | submitting an accepted onboarding record again gives back the same record |
| UserSchemaLemmas.OptionalStringSpec | src/server/schema/UserSchema.ts:7-12 | the intended `asOptionalField(z.string())` makes exactly undefined, null and `""` absent, passes every other string through, and rejects exactly the non-strings other than undefined and null |
| UserSchemaLemmas.AsOptionalFieldKeepsEmptyString | src/server/schema/UserSchema.ts:10-12 | as written, `asOptionalField(z.string())` returns `""` as a present value; the intended helper returns absent |
| UserSchemaLemmas.PreferenceAcceptedIff | src/server/schema/UserSchema.ts:49-72 | the preference validator accepts exactly the objects whose components are all enum members, whose flag is a boolean, whose name is undefined, null or a string, and that satisfy the name rule with `""` counted as absent; the accepted record holds those fields |
| UserSchemaLemmas.NonMemberReported | src/server/schema/UserSchema.ts:51 | a component string outside the enum is rejected with an invalid-enum-value issue at `["newSelectedComponents", i]` |
| UserSchemaLemmas.PreferenceMissingNameTwoIssues | src/server/schema/UserSchema.ts:59-72 | an opted-in, well-shaped preference form whose name is undefined, null or `""` fails with exactly the two name issues |
| UserSchemaLemmas.NormalisePreferenceIdempotent | src/server/schema/UserSchema.ts:55-58 | applying the preference transform twice gives the same record as once |
| UserSchemaLemmas.AsWrittenHelperSameVerdict | src/server/schema/UserSchema.ts:53-72 | the preference validator gives the same result whether the name goes through the as-written or the intended `asOptionalField` |
| UserSchemaLemmas.PreferenceRevalidation | src/server/schema/UserSchema.ts:49-72 | submitting an accepted preference record again gives back the same record |

## Left out

- The email-syntax rule of Zod's `.email()` is not modelled. It is library code, so the model takes it as the parameter `isEmail`.
- The members of `SelectedEnum` are not modelled. Prisma generates them from the database schema, so the model takes them as the parameter `members`.
- JavaScript numbers are modelled as integers. Fractions, NaN and the infinities are not modelled, and neither is the `.int()` check, which every integer passes.
- Dates are an opaque tag: a valid time stamp, or an Invalid Date. Date parsing is runtime code.
- Characters outside the Basic Multilingual Plane are not modelled. JavaScript's `length` counts UTF-16 code units, so such a character counts 2. A Dafny `char` cannot be a lone surrogate, so the model counts one per `char`. Names made of BMP characters have the same length in both.
- Zod's built-in messages are constructors of `Message` (for example `ExpectedType`), not their rendered texts. Zod's issue objects (codes, union errors) are reduced to a path and a message.
- UserSchema.ValidateOnboarding: runs the transform and the refinements only when every field check passed. Zod can also run the refinements when a field failed a non-type check, such as a wrong email suffix, and then add their name issues. Onboarding's only checks that do not stop the parse are `.email()`, `.endsWith` and the ID's range checks.
- The TypeScript type aliases (`selectedCompsEnum`, `ToDoForm`, `OnboardingForm`, `UserPreferenceForm`) exist only at compile time.
- Throwing a `ZodError` from `parse` is modelled as a `Failure` result.

## Findings

| source | as written | input that shows it | evidently intended | confidence | as-written member | corrected member |
|---|---|---|---|---|---|---|
| src/server/schema/UserSchema.ts:10-12 | the union tries `schema.optional()` before `emptyStringToUndefined`, and `z.string()` accepts `""`, so `""` is returned as a present empty string | `asOptionalField(z.string())` applied to `""` | `""` becomes absent, as the helper `emptyStringToUndefined` says | medium, not executed; depends on a Zod union returning the first member that accepts | UserSchema.AsOptionalField | UserSchema.AsOptionalFieldIntended |

`UserSchemaLemmas.AsOptionalFieldKeepsEmptyString` exhibits the input. `UserSchemaLemmas.OptionalStringSpec` proves the intended behaviour of the helper the preference validator uses. `UserSchemaLemmas.AsWrittenHelperSameVerdict` shows that `userPreferenceSchema`'s result is the same either way.
