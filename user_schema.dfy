/** The form validators of src/server/schema/UserSchema.ts: the onboarding
    form, the user-preference form and the to-do form, each a function from
    a raw JavaScript value to a normalised record or a non-empty list of
    issues (field path and message). */
module UserSchema {
  import opened JsValues

  // ---------------------------------------------------------------------------
  // Issues

  datatype PathSegment = Key(key: string) | Index(index: nat)

  /** The message of an issue: either a text written out in the schema, or one
      of Zod's built-in messages. */
  datatype Message =
    | Text(text: string)
      /** Zod's invalid_type message ("Expected string, received number", or
          "Required" when the value is undefined). */
    | ExpectedType(expected: JsType, received: JsType)
      /** invalid_type raised by a native enum on a value that is neither a
          string nor a number. */
    | ExpectedEnumType(received: JsType)
    | InvalidEmail
    | InvalidEnumValue
    | InvalidUnion
    | InvalidDate

  datatype Issue = Issue(path: seq<PathSegment>, message: Message)

  /** The issues a failed result carries; none for a success. */
  function IssuesOf<T>(r: Result<T, seq<Issue>>): seq<Issue>
  {
    if r.Failure? then r.error else []
  }

  // ---------------------------------------------------------------------------
  // Constants of the schemas

  const EmailSuffix := "usn.no"
  const EmailMessage := "Your email must be an USN email."
  const IdTypeMessage := "Your ID should be between 24001 and 24100"
  /** `protusId` must be strictly greater than this... */
  const IdAbove := 24000
  const IdLowMessage := "Your ID must be greater than 24000"
  /** ...and strictly lower than this. */
  const IdBelow := 24101
  const IdHighMessage := "Your ID must be lower than 24101"
  const NameShortMessage := "Name must be at least three characters long"
  const NameLongMessage := "Name must be fewer than 15 characters"

  /** String.prototype.endsWith: the last |suffix| characters of `s` are,
      one by one, the characters of `suffix`. */
  predicate EndsWith(s: string, suffix: string): (r: bool)
    ensures r <==> |suffix| <= |s| && forall i :: 0 <= i < |suffix| ==> s[|s| - |suffix| + i] == suffix[i]
  {
    |suffix| <= |s| && s[|s| - |suffix|..] == suffix
  }

  // ---------------------------------------------------------------------------
  // Field schemas. Each one yields the parsed value, or a non-empty list of
  // issues whose paths start at the field's key.

  /** z.string() on a value that is not inside an object. */
  function StringValue(v: JsValue): (r: Result<string, Message>)
    ensures r.Success? <==> v.Str?
    ensures r.Success? ==> r.value == v.s
    ensures r.Failure? ==> r.error == ExpectedType(TString, TypeOf(v))
  {
    if v.Str? then Success(v.s) else Failure(ExpectedType(TString, TypeOf(v)))
  }

  /** z.string() as an object field. */
  function StringField(key: string, v: JsValue): (r: Result<string, seq<Issue>>)
    ensures r.Success? <==> v.Str?
    ensures r.Success? ==> r.value == v.s
    ensures r.Failure? ==> r.error == [Issue([Key(key)], ExpectedType(TString, TypeOf(v)))]
  {
    match StringValue(v)
    case Success(s) => Success(s)
    case Failure(m) => Failure([Issue([Key(key)], m)])
  }

  /** z.string().optional(): undefined is absent, the empty string is kept. */
  function OptionalStringField(key: string, v: JsValue): (r: Result<Option<string>, seq<Issue>>)
    ensures r.Success? <==> v.Undefined? || v.Str?
    ensures r.Success? ==> r.value == (if v.Str? then Some(v.s) else None)
    ensures r.Failure? ==> r.error == [Issue([Key(key)], ExpectedType(TString, TypeOf(v)))]
  {
    if v.Undefined? then Success(None) else
    match StringField(key, v)
    case Success(s) => Success(Some(s))
    case Failure(e) => Failure(e)
  }

  /** z.boolean(). */
  function BooleanField(key: string, v: JsValue): (r: Result<bool, seq<Issue>>)
    ensures r.Success? <==> v.Bool?
    ensures r.Success? ==> r.value == v.b
    ensures r.Failure? ==> r.error == [Issue([Key(key)], ExpectedType(TBoolean, TypeOf(v)))]
  {
    if v.Bool? then Success(v.b) else Failure([Issue([Key(key)], ExpectedType(TBoolean, TypeOf(v)))])
  }

  /** z.date(): a Date object holding a valid time. */
  function DateField(key: string, v: JsValue): (r: Result<int, seq<Issue>>)
    ensures r.Success? <==> v.Date? && v.time.Some?
    ensures r.Success? ==> r.value == v.time.value
    ensures r.Failure? ==> |r.error| == 1 && r.error[0].path == [Key(key)]
    ensures v.Date? && v.time.None? ==> r == Failure([Issue([Key(key)], InvalidDate)])
    ensures !v.Date? ==> r == Failure([Issue([Key(key)], ExpectedType(TDate, TypeOf(v)))])
  {
    if !v.Date? then Failure([Issue([Key(key)], ExpectedType(TDate, TypeOf(v)))])
    else if v.time.None? then Failure([Issue([Key(key)], InvalidDate)])
    else Success(v.time.value)
  }

  /** z.string().email().endsWith("usn.no", ...): a non-string is a type error;
      a string collects one issue per failing check, email syntax first. The
      email syntax rule belongs to Zod and is the parameter `isEmail`. */
  function UsnEmailField(key: string, v: JsValue, isEmail: string -> bool): (r: Result<string, seq<Issue>>)
    ensures r.Success? <==> v.Str? && isEmail(v.s) && EndsWith(v.s, EmailSuffix)
    ensures r.Success? ==> r.value == v.s
    ensures r.Failure? ==> r.error != [] && forall i :: 0 <= i < |r.error| ==> r.error[i].path == [Key(key)]
    ensures v.Str? && !EndsWith(v.s, EmailSuffix) ==> r.Failure? && Issue([Key(key)], Text(EmailMessage)) in r.error
    ensures !v.Str? ==> r == Failure([Issue([Key(key)], ExpectedType(TString, TypeOf(v)))])
  {
    if !v.Str? then Failure([Issue([Key(key)], ExpectedType(TString, TypeOf(v)))])
    else
      var issues :=
        (if isEmail(v.s) then [] else [Issue([Key(key)], InvalidEmail)])
        + (if EndsWith(v.s, EmailSuffix) then [] else [Issue([Key(key)], Text(EmailMessage))]);
      if issues == [] then Success(v.s) else Failure(issues)
  }

  /** z.number({invalid_type_error}).gt(24000).lt(24101).int(). Undefined gets
      Zod's "Required" rather than the custom type message; every integer
      passes `.int()`. */
  function ProtusIdField(key: string, v: JsValue): (r: Result<int, seq<Issue>>)
    ensures r.Success? <==> v.Num? && IdAbove < v.n < IdBelow
    ensures r.Success? ==> r.value == v.n
    ensures r.Failure? ==> |r.error| == 1 && r.error[0].path == [Key(key)]
    ensures v.Num? && v.n <= IdAbove ==> r == Failure([Issue([Key(key)], Text(IdLowMessage))])
    ensures v.Num? && v.n >= IdBelow ==> r == Failure([Issue([Key(key)], Text(IdHighMessage))])
    ensures v.Undefined? ==> r == Failure([Issue([Key(key)], ExpectedType(TNumber, TUndefined))])
    ensures !v.Num? && !v.Undefined? ==> r == Failure([Issue([Key(key)], Text(IdTypeMessage))])
  {
    if v.Undefined? then Failure([Issue([Key(key)], ExpectedType(TNumber, TUndefined))])
    else if !v.Num? then Failure([Issue([Key(key)], Text(IdTypeMessage))])
    else
      var low: seq<Issue> := if v.n > IdAbove then [] else [Issue([Key(key)], Text(IdLowMessage))];
      var high: seq<Issue> := if v.n < IdBelow then [] else [Issue([Key(key)], Text(IdHighMessage))];
      assert low == [] ==> low + high == high;
      assert high == [] ==> low + high == low;
      if low + high == [] then Success(v.n) else Failure(low + high)
  }

  /** The element schema of an array field: z.string() for onboarding's
      components, z.nativeEnum(SelectedEnum) for the preference form, whose
      members come from the database schema. */
  datatype ElementSchema = AnyString | EnumOf(members: set<string>)

  function ParseElement(schema: ElementSchema, v: JsValue): (r: Result<string, Message>)
    ensures r.Success? <==> v.Str? && (schema.EnumOf? ==> v.s in schema.members)
    ensures r.Success? ==> r.value == v.s
  {
    match schema
    case AnyString => StringValue(v)
    case EnumOf(members) =>
      if v.Str? && v.s in members then Success(v.s)
      else if v.Str? || v.Num? then Failure(InvalidEnumValue)
      else Failure(ExpectedEnumType(TypeOf(v)))
  }

  /** The elements of an array field, parsed one by one; every failing
      element contributes one issue at path [key, index], in index order. */
  function ParseElements(key: string, schema: ElementSchema, items: seq<JsValue>): (r: Result<seq<string>, seq<Issue>>)
    ensures r.Success? <==> forall i :: 0 <= i < |items| ==> ParseElement(schema, items[i]).Success?
    ensures r.Success? ==> |r.value| == |items|
    ensures r.Success? ==> forall i :: 0 <= i < |items| ==> r.value[i] == items[i].s
    ensures r.Failure? ==> r.error != []
    ensures r.Failure? ==> forall i :: 0 <= i < |items| && ParseElement(schema, items[i]).Failure? ==>
      Issue([Key(key), Index(i)], ParseElement(schema, items[i]).error) in r.error
    ensures r.Failure? ==> forall j :: 0 <= j < |r.error| ==>
      exists i :: 0 <= i < |items| && ParseElement(schema, items[i]).Failure?
        && r.error[j] == Issue([Key(key), Index(i)], ParseElement(schema, items[i]).error)
    decreases |items|
  {
    if items == [] then Success([])
    else
      var n := |items| - 1;
      var last := ParseElement(schema, items[n]);
      match ParseElements(key, schema, items[..n])
      case Success(xs) =>
        if last.Success? then Success(xs + [last.value])
        else Failure([Issue([Key(key), Index(n)], last.error)])
      case Failure(e) =>
        if last.Success? then Failure(e)
        else Failure(e + [Issue([Key(key), Index(n)], last.error)])
  }

  /** z.array(element). */
  function ArrayField(key: string, schema: ElementSchema, v: JsValue): (r: Result<seq<string>, seq<Issue>>)
    ensures r.Success? <==> v.Arr? && forall i :: 0 <= i < |v.items| ==> ParseElement(schema, v.items[i]).Success?
    ensures r.Success? ==> |r.value| == |v.items| && forall i :: 0 <= i < |v.items| ==> r.value[i] == v.items[i].s
    ensures r.Failure? ==> r.error != []
    ensures !v.Arr? ==> r == Failure([Issue([Key(key)], ExpectedType(TArray, TypeOf(v)))])
  {
    if v.Arr? then ParseElements(key, schema, v.items)
    else Failure([Issue([Key(key)], ExpectedType(TArray, TypeOf(v)))])
  }

  // ---------------------------------------------------------------------------
  // asOptionalField

  /** asOptionalField(inner) as written: the union
      inner.optional().or(nullToUndefined).or(emptyStringToUndefined), where
      the first member that accepts the value decides. Since the inner schema
      is tried before emptyStringToUndefined, an inner schema that accepts ""
      keeps it (see README, "Findings"). */
  function AsOptionalField<T>(inner: JsValue -> Result<T, Message>, v: JsValue): (r: Result<Option<T>, Message>)
    ensures v.Undefined? ==> r == Success(None)
    ensures r == AsOptionalFieldIntended(inner, v) <==> !((v.Null? || v == Str("")) && inner(v).Success?)
  {
    if v.Undefined? then Success(None)
    else if inner(v).Success? then Success(Some(inner(v).value))
    else if v.Null? then Success(None)
    else if v == Str("") then Success(None)
    else Failure(InvalidUnion)
  }

  /** asOptionalField as its helpers' names say it should behave: undefined,
      null and "" are absent, and any other value goes to the inner schema. */
  function AsOptionalFieldIntended<T>(inner: JsValue -> Result<T, Message>, v: JsValue): (r: Result<Option<T>, Message>)
    ensures v.Undefined? || v.Null? || v == Str("") ==> r == Success(None)
    ensures !(v.Undefined? || v.Null? || v == Str("")) ==>
      (r.Success? <==> inner(v).Success?) && (r.Success? ==> r.value == Some(inner(v).value))
  {
    if v.Undefined? || v.Null? || v == Str("") then Success(None)
    else if inner(v).Success? then Success(Some(inner(v).value))
    else Failure(InvalidUnion)
  }

  /** asOptionalField(z.string()), as written. */
  function OptionalStringAsWritten(v: JsValue): (r: Result<Option<string>, Message>)
    ensures v.Str? ==> r == Success(Some(v.s))
    ensures v.Undefined? || v.Null? ==> r == Success(None)
    ensures !(v.Str? || v.Undefined? || v.Null?) ==> r == Failure(InvalidUnion)
  {
    AsOptionalField(StringValue, v)
  }

  /** asOptionalField(z.string()), as intended: the one the validator uses. */
  function OptionalString(v: JsValue): (r: Result<Option<string>, Message>)
    ensures r.Success? ==> r.value != Some("")
  {
    AsOptionalFieldIntended(StringValue, v)
  }

  // ---------------------------------------------------------------------------
  // Normalisation and the two name refinements, shared by both forms.

  /** The transform: `name: data.leaderboard ? data.name : undefined`. */
  function NormaliseName(leaderboard: bool, name: Option<string>): (r: Option<string>)
    ensures !leaderboard ==> r == None
    ensures leaderboard ==> r == name
  {
    if leaderboard then name else None
  }

  /** JavaScript truthiness of an optional string: present and non-empty. */
  predicate Truthy(name: Option<string>)
  {
    name.Some? && name.value != ""
  }

  /** First refine: `!leaderboard || (name ? name.length > 2 : false)`. */
  predicate LongEnough(leaderboard: bool, name: Option<string>)
  {
    !leaderboard || (if Truthy(name) then |name.value| > 2 else false)
  }

  /** Second refine: `!leaderboard || (name ? name.length < 15 : false)`. */
  predicate ShortEnough(leaderboard: bool, name: Option<string>)
  {
    !leaderboard || (if Truthy(name) then |name.value| < 15 else false)
  }

  /** The rule both refinements together stand for: a user on the leaderboard
      has a name of 3 to 14 characters. */
  predicate NamePolicy(leaderboard: bool, name: Option<string>)
  {
    !leaderboard || (name.Some? && 3 <= |name.value| <= 14)
  }

  /** Both refinements, evaluated independently, their failures collected on
      path ["name"] in declaration order. */
  function NameIssues(leaderboard: bool, name: Option<string>): (r: seq<Issue>)
    ensures r == [] <==> NamePolicy(leaderboard, name)
    ensures |r| <= 2 && forall i :: 0 <= i < |r| ==> r[i].path == [Key("name")]
    ensures leaderboard && !Truthy(name) ==>
      r == [Issue([Key("name")], Text(NameShortMessage)), Issue([Key("name")], Text(NameLongMessage))]
    ensures leaderboard && Truthy(name) && |name.value| < 3 ==> r == [Issue([Key("name")], Text(NameShortMessage))]
    ensures leaderboard && name.Some? && |name.value| >= 15 ==> r == [Issue([Key("name")], Text(NameLongMessage))]
  {
    (if LongEnough(leaderboard, name) then [] else [Issue([Key("name")], Text(NameShortMessage))])
    + (if ShortEnough(leaderboard, name) then [] else [Issue([Key("name")], Text(NameLongMessage))])
  }

  // ---------------------------------------------------------------------------
  // onboardingSchema

  datatype OnboardingForm = OnboardingForm(
    name: Option<string>,
    usnEmail: string,
    protusId: int,
    selectedComponents: seq<string>,
    leaderboard: bool)

  /** The optional name an object holds: a string, or absent. */
  function NameOf(v: JsValue): Option<string>
  {
    if v.Str? then Some(v.s) else None
  }

  /** The objects whose fields pass the onboarding field checks. */
  predicate OnboardingShape(o: map<string, JsValue>, isEmail: string -> bool)
  {
    var name := Get(o, "name");
    var email := Get(o, "USNEmail");
    var id := Get(o, "protusId");
    var comps := Get(o, "selectedComponents");
    && (name.Undefined? || name.Str?)
    && email.Str? && isEmail(email.s) && EndsWith(email.s, EmailSuffix)
    && id.Num? && 24001 <= id.n <= 24100
    && comps.Arr? && (forall i :: 0 <= i < |comps.items| ==> comps.items[i].Str?)
    && Get(o, "leaderboard").Bool?
  }

  /** The z.object(...) part: every field parsed, issues in key order. */
  function ParseOnboarding(raw: JsValue, isEmail: string -> bool): (r: Result<OnboardingForm, seq<Issue>>)
    ensures r.Success? <==> raw.Obj? && OnboardingShape(raw.fields, isEmail)
    ensures r.Success? ==>
      var o := raw.fields;
      && r.value.name == NameOf(Get(o, "name"))
      && r.value.usnEmail == Get(o, "USNEmail").s
      && r.value.protusId == Get(o, "protusId").n
      && r.value.leaderboard == Get(o, "leaderboard").b
      && |r.value.selectedComponents| == |Get(o, "selectedComponents").items|
      && forall i :: 0 <= i < |r.value.selectedComponents| ==>
           r.value.selectedComponents[i] == Get(o, "selectedComponents").items[i].s
    ensures r.Failure? ==> r.error != []
  {
    if !raw.Obj? then Failure([Issue([], ExpectedType(TObject, TypeOf(raw)))])
    else
      var o := raw.fields;
      var name := OptionalStringField("name", Get(o, "name"));
      var email := UsnEmailField("USNEmail", Get(o, "USNEmail"), isEmail);
      var id := ProtusIdField("protusId", Get(o, "protusId"));
      var comps := ArrayField("selectedComponents", AnyString, Get(o, "selectedComponents"));
      var lb := BooleanField("leaderboard", Get(o, "leaderboard"));
      if name.Success? && email.Success? && id.Success? && comps.Success? && lb.Success? then
        Success(OnboardingForm(name.value, email.value, id.value, comps.value, lb.value))
      else
        Failure(IssuesOf(name) + IssuesOf(email) + IssuesOf(id) + IssuesOf(comps) + IssuesOf(lb))
  }

  function NormaliseOnboarding(f: OnboardingForm): (r: OnboardingForm)
    ensures !f.leaderboard ==> r.name == None
    ensures f.leaderboard ==> r == f
    ensures r.(name := f.name) == f
  {
    f.(name := NormaliseName(f.leaderboard, f.name))
  }

  /** onboardingSchema.parse: shape checks, then (when they all pass) the
      transform, then both refinements. */
  function ValidateOnboarding(raw: JsValue, isEmail: string -> bool): (r: Result<OnboardingForm, seq<Issue>>)
    ensures r.Failure? ==> r.error != []
    ensures r.Success? ==> IdAbove < r.value.protusId < IdBelow
    ensures r.Success? ==> isEmail(r.value.usnEmail) && EndsWith(r.value.usnEmail, EmailSuffix)
    ensures r.Success? ==> NamePolicy(r.value.leaderboard, r.value.name)
    ensures r.Success? && !r.value.leaderboard ==> r.value.name == None
  {
    match ParseOnboarding(raw, isEmail)
    case Failure(e) => Failure(e)
    case Success(shape) =>
      var f := NormaliseOnboarding(shape);
      var issues := NameIssues(f.leaderboard, f.name);
      if issues == [] then Success(f) else Failure(issues)
  }

  // ---------------------------------------------------------------------------
  // userPreferenceSchema

  datatype UserPreferenceForm = UserPreferenceForm(
    newSelectedComponents: seq<string>,
    leaderboard: bool,
    name: Option<string>)

  /** The objects whose fields pass the preference field checks, for a given
      name helper. */
  predicate PreferenceShape(o: map<string, JsValue>, members: set<string>,
                            optionalName: JsValue -> Result<Option<string>, Message>)
  {
    var comps := Get(o, "newSelectedComponents");
    && comps.Arr? && (forall i :: 0 <= i < |comps.items| ==> comps.items[i].Str? && comps.items[i].s in members)
    && Get(o, "leaderboard").Bool?
    && optionalName(Get(o, "name")).Success?
  }

  /** The z.object(...) part, with the name helper as a parameter so that the
      as-written and the intended asOptionalField can be compared. */
  function ParsePreferenceWith(raw: JsValue, members: set<string>,
                               optionalName: JsValue -> Result<Option<string>, Message>)
    : (r: Result<UserPreferenceForm, seq<Issue>>)
    ensures r.Success? <==> raw.Obj? && PreferenceShape(raw.fields, members, optionalName)
    ensures r.Success? ==>
      var o := raw.fields;
      && r.value.name == optionalName(Get(o, "name")).value
      && r.value.leaderboard == Get(o, "leaderboard").b
      && |r.value.newSelectedComponents| == |Get(o, "newSelectedComponents").items|
      && forall i :: 0 <= i < |r.value.newSelectedComponents| ==>
           r.value.newSelectedComponents[i] == Get(o, "newSelectedComponents").items[i].s
    ensures r.Failure? ==> r.error != []
  {
    if !raw.Obj? then Failure([Issue([], ExpectedType(TObject, TypeOf(raw)))])
    else
      var o := raw.fields;
      var comps := ArrayField("newSelectedComponents", EnumOf(members), Get(o, "newSelectedComponents"));
      var lb := BooleanField("leaderboard", Get(o, "leaderboard"));
      var name := match optionalName(Get(o, "name"))
        case Success(n) => Success(n)
        case Failure(m) => Failure([Issue([Key("name")], m)]);
      if comps.Success? && lb.Success? && name.Success? then
        Success(UserPreferenceForm(comps.value, lb.value, name.value))
      else
        Failure(IssuesOf(comps) + IssuesOf(lb) + IssuesOf(name))
  }

  function NormalisePreference(f: UserPreferenceForm): (r: UserPreferenceForm)
    ensures !f.leaderboard ==> r.name == None
    ensures f.leaderboard ==> r == f
    ensures r.(name := f.name) == f
  {
    f.(name := NormaliseName(f.leaderboard, f.name))
  }

  /** The transform and both refinements after a successful shape check. */
  function FinishPreference(parsed: Result<UserPreferenceForm, seq<Issue>>): (r: Result<UserPreferenceForm, seq<Issue>>)
    ensures parsed.Failure? ==> r == parsed
    ensures parsed.Success? ==> (r.Success? <==> NamePolicy(parsed.value.leaderboard, parsed.value.name))
    ensures r.Success? ==> r.value == NormalisePreference(parsed.value)
  {
    match parsed
    case Failure(e) => Failure(e)
    case Success(shape) =>
      var f := NormalisePreference(shape);
      var issues := NameIssues(f.leaderboard, f.name);
      if issues == [] then Success(f) else Failure(issues)
  }

  /** userPreferenceSchema.parse, with the enum's members as a parameter. */
  function ValidateUserPreference(raw: JsValue, members: set<string>): (r: Result<UserPreferenceForm, seq<Issue>>)
    ensures r.Failure? ==> r.error != []
    ensures r.Success? ==> forall i :: 0 <= i < |r.value.newSelectedComponents| ==> r.value.newSelectedComponents[i] in members
    ensures r.Success? ==> NamePolicy(r.value.leaderboard, r.value.name)
    ensures r.Success? && !r.value.leaderboard ==> r.value.name == None
  {
    FinishPreference(ParsePreferenceWith(raw, members, OptionalString))
  }

  // ---------------------------------------------------------------------------
  // toDoSchema

  datatype ToDoForm = ToDoForm(dueDate: int, name: string, userId: string)

  /** toDoSchema.parse: a shape check with no refinement. */
  function ValidateToDo(raw: JsValue): (r: Result<ToDoForm, seq<Issue>>)
    ensures r.Success? <==>
      raw.Obj? && Get(raw.fields, "dueDate").Date? && Get(raw.fields, "dueDate").time.Some?
      && Get(raw.fields, "name").Str? && Get(raw.fields, "userId").Str?
    ensures r.Success? ==>
      r.value == ToDoForm(Get(raw.fields, "dueDate").time.value, Get(raw.fields, "name").s, Get(raw.fields, "userId").s)
    ensures r.Failure? ==> r.error != []
    ensures raw.Obj? && !Get(raw.fields, "name").Str? ==>
      r.Failure? && Issue([Key("name")], ExpectedType(TString, TypeOf(Get(raw.fields, "name")))) in r.error
  {
    if !raw.Obj? then Failure([Issue([], ExpectedType(TObject, TypeOf(raw)))])
    else
      var o := raw.fields;
      var due := DateField("dueDate", Get(o, "dueDate"));
      var name := StringField("name", Get(o, "name"));
      var user := StringField("userId", Get(o, "userId"));
      if due.Success? && name.Success? && user.Success? then
        Success(ToDoForm(due.value, name.value, user.value))
      else
        Failure(IssuesOf(due) + IssuesOf(name) + IssuesOf(user))
  }
}
