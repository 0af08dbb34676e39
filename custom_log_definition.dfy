/**
 * The CustomLogDefinition document: a user-defined metric with a field type,
 * display options, and the schema's enums and defaults.
 */
module CustomLogDefinitionSchema {
  import opened Wrappers
  import opened Ids
  import opened Validators

  const FieldTypes: set<string> := {"number", "boolean", "text", "multipleChoice", "rating"}
  const Categories: set<string> := {"health", "fitness", "nutrition", "lifestyle", "finance", "productivity", "other"}

  const DefaultTrackStreak: bool := true
  const DefaultReminderEnabled: bool := false
  const DefaultCategory: string := "other"
  const DefaultActive: bool := true

  /** The `options` sub-document; `choices` is an array and so defaults to empty. */
  datatype FieldOptions = FieldOptions(
    choices: seq<string>,
    unit: Option<string>,
    min: Option<real>,
    max: Option<real>,
    maxRating: Option<int>)

  datatype OptionsInput = OptionsInput(
    choices: Option<seq<string>>,
    unit: Option<string>,
    min: Option<real>,
    max: Option<real>,
    maxRating: Option<int>)

  /** A request body: every field may be missing, and it may carry its own `user`. */
  datatype DefinitionInput = DefinitionInput(
    user: Option<UserId>,
    name: Option<string>,
    description: Option<string>,
    fieldType: Option<string>,
    options: Option<OptionsInput>,
    icon: Option<string>,
    color: Option<string>,
    trackStreak: Option<bool>,
    reminderEnabled: Option<bool>,
    reminderTime: Option<string>,
    category: Option<string>,
    active: Option<bool>)

  datatype Definition = Definition(
    id: DefId,
    user: UserId,
    name: Option<string>,
    description: Option<string>,
    fieldType: Option<string>,
    options: FieldOptions,
    icon: Option<string>,
    color: Option<string>,
    trackStreak: bool,
    reminderEnabled: bool,
    reminderTime: Option<string>,
    category: string,
    active: bool)

  function OptionsWithDefaults(o: Option<OptionsInput>): FieldOptions {
    if o.None? then FieldOptions([], None, None, None, None)
    else FieldOptions(o.value.choices.GetOr([]), o.value.unit, o.value.min, o.value.max, o.value.maxRating)
  }

  /**
   * `new CustomLogDefinition({ ...req.body, user: req.user._id })`: the
   * authenticated user replaces any `user` in the body, and the schema
   * defaults fill the fields the body leaves out.
   */
  function WithDefaults(id: DefId, user: UserId, input: DefinitionInput): (d: Definition)
    ensures d.id == id && d.user == user
    ensures d.name == input.name && d.description == input.description && d.fieldType == input.fieldType
    ensures d.icon == input.icon && d.color == input.color && d.reminderTime == input.reminderTime
    ensures input.options.None? ==> d.options == FieldOptions([], None, None, None, None)
    ensures input.options.Some? ==> d.options.choices == input.options.value.choices.GetOr([])
    ensures input.options.Some? ==> d.options.unit == input.options.value.unit
    ensures input.options.Some? ==> d.options.min == input.options.value.min
    ensures input.options.Some? ==> d.options.max == input.options.value.max
    ensures input.options.Some? ==> d.options.maxRating == input.options.value.maxRating
    ensures d.trackStreak == (input.trackStreak.None? || input.trackStreak.value)
    ensures d.reminderEnabled == (input.reminderEnabled.Some? && input.reminderEnabled.value)
    ensures input.category.None? ==> d.category == "other"
    ensures input.category.Some? ==> d.category == input.category.value
    ensures d.active == (input.active.None? || input.active.value)
  {
    Definition(
      id, user, input.name, input.description, input.fieldType,
      OptionsWithDefaults(input.options), input.icon, input.color,
      input.trackStreak.GetOr(DefaultTrackStreak),
      input.reminderEnabled.GetOr(DefaultReminderEnabled),
      input.reminderTime,
      input.category.GetOr(DefaultCategory),
      input.active.GetOr(DefaultActive))
  }

  /** The schema's validators: `name` and `fieldType` required, both enums respected. */
  predicate ValidDefinition(d: Definition) {
    Present(d.name) && d.fieldType.Some? && d.fieldType.value in FieldTypes && d.category in Categories
  }

  /** POST /api/custom-logs/definitions: build the document and save it. */
  function NewDefinition(id: DefId, user: UserId, input: DefinitionInput): (r: Result<Definition, SaveError>)
    ensures r.Ok? <==> Present(input.name) && input.fieldType.Some? && input.fieldType.value in FieldTypes
                       && OneOf(input.category, Categories)
    ensures r.Ok? ==> r.value == WithDefaults(id, user, input) && ValidDefinition(r.value)
  {
    var d := WithDefaults(id, user, input);
    if ValidDefinition(d) then Ok(d) else Err(ValidationError)
  }

  /** A body that names only a valid name and field type gets every default. */
  lemma MinimalDefinition(id: DefId, user: UserId, name: string, fieldType: string)
    requires |name| > 0 && fieldType in FieldTypes
    ensures var input := DefinitionInput(None, Some(name), None, Some(fieldType), None, None, None, None, None, None, None, None);
      NewDefinition(id, user, input) == Ok(Definition(
        id, user, Some(name), None, Some(fieldType), FieldOptions([], None, None, None, None),
        None, None, true, false, None, "other", true))
  {
  }

  /** The `user` of a body never reaches the stored document. */
  lemma BodyUserIgnored(id: DefId, user: UserId, input: DefinitionInput, other: UserId)
    ensures NewDefinition(id, user, input.(user := Some(other))) == NewDefinition(id, user, input)
  {
  }

  /** `find({ user, active: true })`, in stored order. */
  function ActiveFor(defs: seq<Definition>, user: UserId): (r: seq<Definition>)
    ensures |r| <= |defs|
    ensures forall d :: d in r <==> d in defs && d.user == user && d.active
  {
    if defs == [] then []
    else
      var rest := ActiveFor(defs[..|defs| - 1], user);
      var d := defs[|defs| - 1];
      if d.user == user && d.active then rest + [d] else rest
  }

  /**
   * A definition saved without `active: false` is active and so is appended
   * to its owner's listing; the listings of other users do not change.
   */
  lemma CreatedDefinitionIsListed(defs: seq<Definition>, id: DefId, user: UserId, input: DefinitionInput, viewer: UserId)
    requires NewDefinition(id, user, input).Ok?
    requires input.active != Some(false)
    ensures var d := NewDefinition(id, user, input).value;
      && d.active
      && ActiveFor(defs + [d], user) == ActiveFor(defs, user) + [d]
      && (viewer != user ==> ActiveFor(defs + [d], viewer) == ActiveFor(defs, viewer))
  {
    var d := NewDefinition(id, user, input).value;
    assert (defs + [d])[..|defs|] == defs;
  }
}
