/** Properties of the validators in UserSchema, stated against independent
    descriptions of what each form accepts. */
module UserSchemaLemmas {
  import opened JsValues
  import opened UserSchema

  // ---------------------------------------------------------------------------
  // The email suffix

  /** `endsWith` agrees with "is some string followed by the suffix". */
  lemma EndsWithIff(s: string, suffix: string)
    ensures EndsWith(s, suffix) <==> exists t :: s == t + suffix
  {
    if EndsWith(s, suffix) {
      var t := s[..|s| - |suffix|];
      assert s == t + suffix;
    }
    if t :| s == t + suffix {
      assert s[|s| - |suffix|..] == suffix;
    }
  }

  // ---------------------------------------------------------------------------
  // onboardingSchema

  /** What the onboarding form accepts: the field shapes, and the name rule
      after normalisation. */
  predicate OnboardingAccepts(o: map<string, JsValue>, isEmail: string -> bool)
  {
    var lb := Get(o, "leaderboard");
    && OnboardingShape(o, isEmail)
    && NamePolicy(lb.b, if lb.b then NameOf(Get(o, "name")) else None)
  }

  /** The onboarding validator accepts exactly the objects described by
      OnboardingAccepts, and then returns their fields, with the name dropped
      unless the user opted in to the leaderboard. */
  lemma OnboardingAcceptedIff(raw: JsValue, isEmail: string -> bool)
    ensures ValidateOnboarding(raw, isEmail).Success? <==> raw.Obj? && OnboardingAccepts(raw.fields, isEmail)
    ensures ValidateOnboarding(raw, isEmail).Success? ==>
      var f := ValidateOnboarding(raw, isEmail).value;
      var o := raw.fields;
      && f.leaderboard == Get(o, "leaderboard").b
      && f.name == (if f.leaderboard then NameOf(Get(o, "name")) else None)
      && f.usnEmail == Get(o, "USNEmail").s
      && f.protusId == Get(o, "protusId").n
      && |f.selectedComponents| == |Get(o, "selectedComponents").items|
      && forall i :: 0 <= i < |f.selectedComponents| ==>
           f.selectedComponents[i] == Get(o, "selectedComponents").items[i].s
  {
  }

  /** A protusId outside 24001..24100 is reported on ["protusId"] with the
      message of the bound it crosses. */
  lemma ProtusIdOutOfRangeReported(raw: JsValue, isEmail: string -> bool, n: int)
    requires raw.Obj? && Get(raw.fields, "protusId") == Num(n)
    requires n <= 24000 || n >= 24101
    ensures ValidateOnboarding(raw, isEmail).Failure?
    ensures n <= 24000 ==>
      Issue([Key("protusId")], Text("Your ID must be greater than 24000")) in ValidateOnboarding(raw, isEmail).error
    ensures n >= 24101 ==>
      Issue([Key("protusId")], Text("Your ID must be lower than 24101")) in ValidateOnboarding(raw, isEmail).error
  {
  }

  /** A protusId that is present but not a number gets the custom type message. */
  lemma ProtusIdNotNumberReported(raw: JsValue, isEmail: string -> bool)
    requires raw.Obj? && !Get(raw.fields, "protusId").Num? && !Get(raw.fields, "protusId").Undefined?
    ensures ValidateOnboarding(raw, isEmail).Failure?
    ensures Issue([Key("protusId")], Text("Your ID should be between 24001 and 24100")) in ValidateOnboarding(raw, isEmail).error
  {
  }

  /** A string email without the "usn.no" suffix is reported on ["USNEmail"]. */
  lemma EmailSuffixReported(raw: JsValue, isEmail: string -> bool)
    requires raw.Obj? && Get(raw.fields, "USNEmail").Str?
    requires !(exists t :: Get(raw.fields, "USNEmail").s == t + "usn.no")
    ensures ValidateOnboarding(raw, isEmail).Failure?
    ensures Issue([Key("USNEmail")], Text("Your email must be an USN email.")) in ValidateOnboarding(raw, isEmail).error
  {
    EndsWithIff(Get(raw.fields, "USNEmail").s, EmailSuffix);
  }

  /** Normalisation is idempotent. */
  lemma NormaliseOnboardingIdempotent(f: OnboardingForm)
    ensures NormaliseOnboarding(NormaliseOnboarding(f)) == NormaliseOnboarding(f)
  {
  }

  /** A well-shaped form of a user who did not opt in is accepted, whatever
      its name, and comes back without a name and otherwise unchanged. */
  lemma OptOutDropsName(raw: JsValue, isEmail: string -> bool)
    requires ParseOnboarding(raw, isEmail).Success?
    requires !ParseOnboarding(raw, isEmail).value.leaderboard
    ensures ValidateOnboarding(raw, isEmail) == Success(ParseOnboarding(raw, isEmail).value.(name := None))
  {
  }

  /** An opted-in user with no name, or the empty name, fails both refinements:
      two issues on ["name"] for one cause. */
  lemma OnboardingMissingNameTwoIssues(raw: JsValue, isEmail: string -> bool)
    requires ParseOnboarding(raw, isEmail).Success?
    requires ParseOnboarding(raw, isEmail).value.leaderboard
    requires ParseOnboarding(raw, isEmail).value.name in {None, Some("")}
    ensures ValidateOnboarding(raw, isEmail) == Failure([
      Issue([Key("name")], Text("Name must be at least three characters long")),
      Issue([Key("name")], Text("Name must be fewer than 15 characters"))])
  {
  }

  /** The raw object a valid onboarding record is submitted as. */
  function EncodeOnboarding(f: OnboardingForm): JsValue
  {
    Obj(map[
      "name" := (if f.name.Some? then Str(f.name.value) else Undefined),
      "USNEmail" := Str(f.usnEmail),
      "protusId" := Num(f.protusId),
      "selectedComponents" := Arr(Strs(f.selectedComponents)),
      "leaderboard" := Bool(f.leaderboard)])
  }

  /** Validating the output of a successful validation again returns it
      unchanged. */
  lemma OnboardingRevalidation(raw: JsValue, isEmail: string -> bool)
    requires ValidateOnboarding(raw, isEmail).Success?
    ensures ValidateOnboarding(EncodeOnboarding(ValidateOnboarding(raw, isEmail).value), isEmail)
      == ValidateOnboarding(raw, isEmail)
  {
    var f := ValidateOnboarding(raw, isEmail).value;
    var again := EncodeOnboarding(f);
    OnboardingAcceptedIff(raw, isEmail);
    OnboardingAcceptedIff(again, isEmail);
    assert OnboardingAccepts(again.fields, isEmail);
    var g := ValidateOnboarding(again, isEmail).value;
    assert g.selectedComponents == f.selectedComponents;
  }

  // ---------------------------------------------------------------------------
  // asOptionalField and userPreferenceSchema

  /** asOptionalField(z.string()), as intended: undefined, null and "" are
      absent, any other string passes through, anything else is rejected. */
  lemma OptionalStringSpec(v: JsValue)
    ensures OptionalString(v) == Success(None) <==> v.Undefined? || v.Null? || v == Str("")
    ensures v.Str? && v.s != "" ==> OptionalString(v) == Success(Some(v.s))
    ensures OptionalString(v).Failure? <==> !(v.Undefined? || v.Null? || v.Str?)
  {
  }

  /** As written, asOptionalField(z.string()) keeps "" as a present name. */
  lemma AsOptionalFieldKeepsEmptyString()
    ensures OptionalStringAsWritten(Str("")) == Success(Some(""))
    ensures OptionalString(Str("")) == Success(None)
  {
  }

  /** What the preference form accepts, field by field. */
  predicate PreferenceAccepts(o: map<string, JsValue>, members: set<string>)
  {
    var comps := Get(o, "newSelectedComponents");
    var lb := Get(o, "leaderboard");
    var name := Get(o, "name");
    && comps.Arr? && (forall i :: 0 <= i < |comps.items| ==> comps.items[i].Str? && comps.items[i].s in members)
    && lb.Bool?
    && (name.Undefined? || name.Null? || name.Str?)
    && NamePolicy(lb.b, if lb.b && name.Str? && name.s != "" then Some(name.s) else None)
  }

  /** The preference validator accepts exactly the objects described by
      PreferenceAccepts, and returns their components, their flag and the
      name of an opted-in user. */
  lemma PreferenceAcceptedIff(raw: JsValue, members: set<string>)
    ensures ValidateUserPreference(raw, members).Success? <==> raw.Obj? && PreferenceAccepts(raw.fields, members)
    ensures ValidateUserPreference(raw, members).Success? ==>
      var f := ValidateUserPreference(raw, members).value;
      var o := raw.fields;
      && f.leaderboard == Get(o, "leaderboard").b
      && f.name == (if f.leaderboard then NameOf(Get(o, "name")) else None)
      && |f.newSelectedComponents| == |Get(o, "newSelectedComponents").items|
      && forall i :: 0 <= i < |f.newSelectedComponents| ==>
           f.newSelectedComponents[i] == Get(o, "newSelectedComponents").items[i].s
  {
  }

  /** A component outside the enum is reported at its own index; the
      onboarding form takes the same array without complaint. */
  lemma NonMemberReported(raw: JsValue, members: set<string>, i: nat)
    requires raw.Obj? && Get(raw.fields, "newSelectedComponents").Arr?
    requires i < |Get(raw.fields, "newSelectedComponents").items|
    requires Get(raw.fields, "newSelectedComponents").items[i].Str?
    requires Get(raw.fields, "newSelectedComponents").items[i].s !in members
    ensures ValidateUserPreference(raw, members).Failure?
    ensures Issue([Key("newSelectedComponents"), Index(i)], InvalidEnumValue) in ValidateUserPreference(raw, members).error
  {
  }

  /** An opted-in user with no name, null or the empty name fails both
      refinements of the preference form. */
  lemma PreferenceMissingNameTwoIssues(raw: JsValue, members: set<string>)
    requires ParsePreferenceWith(raw, members, OptionalString).Success?
    requires ParsePreferenceWith(raw, members, OptionalString).value.leaderboard
    requires Get(raw.fields, "name") in {Undefined, Null, Str("")}
    ensures ValidateUserPreference(raw, members) == Failure([
      Issue([Key("name")], Text("Name must be at least three characters long")),
      Issue([Key("name")], Text("Name must be fewer than 15 characters"))])
  {
  }

  /** Normalisation of the preference form is idempotent. */
  lemma NormalisePreferenceIdempotent(f: UserPreferenceForm)
    ensures NormalisePreference(NormalisePreference(f)) == NormalisePreference(f)
  {
  }

  /** Through the validator, the as-written helper and the intended one give
      the same verdict and the same record: a kept "" is dropped by the
      transform, or fails both refinements just as an absent name does. */
  lemma AsWrittenHelperSameVerdict(raw: JsValue, members: set<string>)
    ensures FinishPreference(ParsePreferenceWith(raw, members, OptionalStringAsWritten))
      == ValidateUserPreference(raw, members)
  {
  }

  /** The raw object a valid preference record is submitted as. */
  function EncodePreference(f: UserPreferenceForm): JsValue
  {
    Obj(map[
      "newSelectedComponents" := Arr(Strs(f.newSelectedComponents)),
      "leaderboard" := Bool(f.leaderboard),
      "name" := (if f.name.Some? then Str(f.name.value) else Undefined)])
  }

  /** Validating the output of a successful preference validation again
      returns it unchanged. */
  lemma PreferenceRevalidation(raw: JsValue, members: set<string>)
    requires ValidateUserPreference(raw, members).Success?
    ensures ValidateUserPreference(EncodePreference(ValidateUserPreference(raw, members).value), members)
      == ValidateUserPreference(raw, members)
  {
    var f := ValidateUserPreference(raw, members).value;
    var again := EncodePreference(f);
    PreferenceAcceptedIff(raw, members);
    PreferenceAcceptedIff(again, members);
    assert PreferenceAccepts(again.fields, members);
    var g := ValidateUserPreference(again, members).value;
    assert g.newSelectedComponents == f.newSelectedComponents;
  }
}
