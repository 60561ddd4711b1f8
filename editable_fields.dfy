/** The form field helpers (`EditableTextField`, `EditableDatePicker`). */
module EditableFields {
  import opened Wrappers

  /** The optional-string binding's getter: an absent value reads as "". */
  function BindingGet(value: Option<string>): (s: string)
    ensures value.None? ==> s == ""
    ensures value.Some? ==> s == value.value
  {
    if value.Some? then value.value else ""
  }

  /** The optional-string binding's setter: "" is stored as absent. */
  function BindingSet(s: string): (value: Option<string>)
    ensures value.None? <==> s == ""
    ensures value.Some? ==> value.value == s
  {
    if s == "" then None else Some(s)
  }

  /** Whatever is typed is read back unchanged. */
  lemma BindingGetSet(s: string)
    ensures BindingGet(BindingSet(s)) == s
  {
  }

  /** Writing back what was read keeps the value, except that a present "" becomes absent. */
  lemma BindingSetGet(value: Option<string>)
    ensures value != Some("") ==> BindingSet(BindingGet(value)) == value
    ensures value == Some("") ==> BindingSet(BindingGet(value)) == None
  {
  }

  /** `getPlaceholder(for:)`: sample input for the four known labels, "" for any other. */
  function GetPlaceholder(fieldLabel: string): (p: string)
    ensures p != "" <==> fieldLabel in {"Full Name", "Email", "Phone", "City, State"}
    ensures fieldLabel == "Full Name" ==> p == "John Doe"
    ensures fieldLabel == "Email" ==> p == "example@email.com"
    ensures fieldLabel == "Phone" ==> p == "+1 (555) 123-4567"
    ensures fieldLabel == "City, State" ==> p == "New York, NY"
  {
    if fieldLabel == "Full Name" then "John Doe"
    else if fieldLabel == "Email" then "example@email.com"
    else if fieldLabel == "Phone" then "+1 (555) 123-4567"
    else if fieldLabel == "City, State" then "New York, NY"
    else ""
  }

  /** The placeholder both initializers settle on: the given one, or the label's default when it is "". */
  function EffectivePlaceholder(placeholder: string, fieldLabel: string): (p: string)
    ensures placeholder != "" ==> p == placeholder
    ensures placeholder == "" ==> p == GetPlaceholder(fieldLabel)
    ensures p == "" <==> placeholder == "" && fieldLabel !in {"Full Name", "Email", "Phone", "City, State"}
  {
    if placeholder == "" then GetPlaceholder(fieldLabel) else placeholder
  }

  /** Settling twice gives the same placeholder. */
  lemma EffectivePlaceholderStable(placeholder: string, fieldLabel: string)
    ensures EffectivePlaceholder(EffectivePlaceholder(placeholder, fieldLabel), fieldLabel) == EffectivePlaceholder(placeholder, fieldLabel)
  {
  }

  /** The date picker's binding reads the date, or `defaultDate` when there is none. */
  function PickerGet(date: Option<real>, defaultDate: real): (d: real)
    ensures date.Some? ==> d == date.value
    ensures date.None? ==> d == defaultDate
  {
    if date.Some? then date.value else defaultDate
  }

  /** The date picker's binding always stores a date. */
  function PickerSet(d: real): (date: Option<real>)
    ensures date.Some? && date.value == d
  {
    Some(d)
  }

  /** A picked date is read back, whatever the default. */
  lemma PickerRoundTrip(d: real, defaultDate: real)
    ensures PickerGet(PickerSet(d), defaultDate) == d
  {
  }
}
