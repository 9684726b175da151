/** The five-step healer registration wizard: a form record edited field by
    field, a step counter gated by `canProceed`, and the healer data the
    final step submits. */
module HealerRegistration {
  import opened Text
  import opened Lists

  /** A form value: text, a list of choices, or a nested record such as `pricing`. */
  datatype FormValue = TextValue(text: string) | ListValue(items: seq<string>) | Group(fields: map<string, FormValue>)

  type Form = map<string, FormValue>

  /** A text field; a missing or non-text field reads as the falsy "". */
  function TextOf(form: Form, key: string): string {
    if key in form && form[key].TextValue? then form[key].text else ""
  }

  /** A list field; a missing or non-list field reads as the empty list. */
  function ListOf(form: Form, key: string): seq<string> {
    if key in form && form[key].ListValue? then form[key].items else []
  }

  /** The fields of a nested record; anything else spreads as the empty record. */
  function GroupOf(form: Form, key: string): map<string, FormValue> {
    if key in form && form[key].Group? then form[key].fields else map[]
  }

  function SubText(form: Form, parent: string, child: string): string {
    var g := GroupOf(form, parent);
    if child in g && g[child].TextValue? then g[child].text else ""
  }

  const InitialForm: Form := map[
    "name" := TextValue(""), "phone" := TextValue(""), "location" := TextValue(""), "bio" := TextValue(""),
    "categories" := ListValue([]), "specialties" := ListValue([]), "certifications" := ListValue([]),
    "experience" := TextValue(""), "sessionTypes" := ListValue([]),
    "pricing" := Group(map["individual" := TextValue(""), "group" := TextValue(""), "consultation" := TextValue("")]),
    "sessionDuration" := TextValue("60"), "availability" := ListValue([]), "timezone" := TextValue("EST"),
    "languages" := ListValue(["English"]), "approach" := TextValue(""), "credentials" := ListValue([])]

  const LastStep := 4

  /** `canProceed`: what each step needs before Next is enabled. */
  predicate CanProceed(form: Form, step: int) {
    match step
    case 0 => TextOf(form, "name") != "" && TextOf(form, "phone") != ""
              && TextOf(form, "location") != "" && TextOf(form, "bio") != ""
    case 1 => |ListOf(form, "categories")| > 0
    case 2 => |ListOf(form, "sessionTypes")| > 0 && SubText(form, "pricing", "individual") != ""
    case 3 => |ListOf(form, "availability")| > 0
    case 4 => true
    case _ => false
  }

  /** `handleInputChange(field, value)`: "a.b" sets key b of the record a and
      keeps its other keys; an undotted field is set at the top level. */
  function InputChange(form: Form, field: string, value: FormValue): (r: Form)
    ensures '.' !in field ==> field in r && r[field] == value
    ensures forall k :: k in form && k != Split(field, '.')[0] ==> k in r && r[k] == form[k]
    ensures '.' in field ==>
      var parts := Split(field, '.');
      |parts| >= 2 && parts[0] in r && r[parts[0]].Group?
      && parts[1] in r[parts[0]].fields && r[parts[0]].fields[parts[1]] == value
      && forall c :: c in GroupOf(form, parts[0]) && c != parts[1] ==>
           c in r[parts[0]].fields && r[parts[0]].fields[c] == GroupOf(form, parts[0])[c]
  {
    if '.' in field then
      SplitAtSeparator(field, '.');
      var parts := Split(field, '.');
      var parent := parts[0];
      var child := parts[1];
      form[parent := Group(GroupOf(form, parent)[child := value])]
    else
      SplitWithoutSeparator(field, '.');
      form[field := value]
  }

  /** A dotted field "parent.child" replaces that one key of the record. */
  lemma SetNestedField(form: Form, parent: string, child: string, value: FormValue)
    requires '.' !in parent && '.' !in child
    ensures InputChange(form, parent + ['.'] + child, value)
         == form[parent := Group(GroupOf(form, parent)[child := value])]
  {
    var field := parent + ['.'] + child;
    assert field[|parent|] == '.';
    SplitAfterHead(parent, '.', child);
    SplitWithoutSeparator(child, '.');
  }

  /** The field the individual-price input edits, "pricing.individual". */
  const IndividualPriceField: string := "pricing" + ['.'] + "individual"

  /** Setting the individual price leaves every other field of the form, and
      the other prices, as they were. */
  lemma SetIndividualPrice(form: Form, price: string)
    ensures var r := InputChange(form, IndividualPriceField, TextValue(price));
      && SubText(r, "pricing", "individual") == price
      && (forall k :: k in form && k != "pricing" ==> k in r && r[k] == form[k])
      && SubText(r, "pricing", "group") == SubText(form, "pricing", "group")
  {
    var parent, child := "pricing", "individual";
    assert '.' !in parent && '.' !in child;
    SetNestedField(form, parent, child, TextValue(price));
    assert "group" != child;
  }

  /** `handleArrayToggle(field, value)`: the value's membership in the list
      field flips; the other fields stay. */
  function ArrayToggle(form: Form, field: string, value: string): (r: Form)
    ensures field in r && r[field].ListValue?
    ensures value in ListOf(r, field) <==> value !in ListOf(form, field)
    ensures forall v :: v != value ==> (v in ListOf(r, field) <==> v in ListOf(form, field))
    ensures forall k :: k in form && k != field ==> k in r && r[k] == form[k]
  {
    var items := ListOf(form, field);
    var toggled := Toggle(items, value);
    assert forall v :: v != value ==> (v in toggled <==> v in items) by {
      forall v | v != value ensures v in toggled <==> v in items {
        if v in items { var i :| 0 <= i < |items| && items[i] == v; }
        if v in toggled { var i :| 0 <= i < |toggled| && toggled[i] == v; }
      }
    }
    form[field := ListValue(toggled)]
  }

  /** Toggling keeps a list field free of duplicates. */
  lemma ArrayToggleNoDup(form: Form, field: string, value: string)
    requires NoDup(ListOf(form, field))
    ensures NoDup(ListOf(ArrayToggle(form, field, value), field))
  {
    ToggleNoDup(ListOf(form, field), value);
  }

  /** The record handed to `onComplete`. */
  datatype HealerData = HealerData(
    bio: string, specialties: seq<string>, experience: string, pricing: string,
    location: string, phone: string, approach: string, certifications: seq<string>,
    sessionTypes: seq<string>, availability: seq<string>, timezone: string,
    languages: seq<string>, sessionDuration: string)

  const Rupee: string := "\U{20B9}"

  function NonEmpty(): string -> bool {
    (s: string) => s != ""
  }

  /** The healer data built in `handleSubmit`. */
  function BuildHealerData(form: Form): (d: HealerData)
    ensures forall i :: 0 <= i < |d.specialties| ==> d.specialties[i] != ""
    ensures IsSubsequence(d.specialties, ListOf(form, "categories") + ListOf(form, "specialties"))
    ensures forall s :: s in ListOf(form, "categories") + ListOf(form, "specialties") && s != "" ==> s in d.specialties
    ensures TextOf(form, "experience") == "" ==> d.experience == "3-5 years"
    ensures TextOf(form, "experience") != "" ==> d.experience == TextOf(form, "experience")
    ensures var individual := SubText(form, "pricing", "individual");
      d.pricing == Rupee + (if individual != "" then individual else "2500") + "/session"
  {
    var chosen := ListOf(form, "categories") + ListOf(form, "specialties");
    FilterIsSubsequence(chosen, NonEmpty());
    var individual := SubText(form, "pricing", "individual");
    assert forall s :: s in chosen && s != "" ==> s in Filter(chosen, NonEmpty()) by {
      forall s | s in chosen && s != "" ensures s in Filter(chosen, NonEmpty()) {
        var i :| 0 <= i < |chosen| && chosen[i] == s;
      }
    }
    HealerData(
      TextOf(form, "bio"),
      Filter(chosen, NonEmpty()),
      if TextOf(form, "experience") != "" then TextOf(form, "experience") else "3-5 years",
      Rupee + (if individual != "" then individual else "2500") + "/session",
      TextOf(form, "location"), TextOf(form, "phone"), TextOf(form, "approach"),
      ListOf(form, "certifications"), ListOf(form, "sessionTypes"), ListOf(form, "availability"),
      TextOf(form, "timezone"), ListOf(form, "languages"), TextOf(form, "sessionDuration"))
  }

  /** A form whose experience, individual price and choices were left empty
      submits the defaults. */
  lemma DefaultsWhenUntouched(form: Form)
    requires TextOf(form, "experience") == "" && SubText(form, "pricing", "individual") == ""
    requires ListOf(form, "categories") == [] && ListOf(form, "specialties") == []
    ensures BuildHealerData(form).experience == "3-5 years"
    ensures BuildHealerData(form).pricing == Rupee + "2500/session"
    ensures BuildHealerData(form).specialties == []
  {
    assert Rupee + "2500" + "/session" == Rupee + "2500/session";
    assert ListOf(form, "categories") + ListOf(form, "specialties") == [];
  }

  /** An untouched form submits the defaults. */
  lemma DefaultsOnEmptyForm()
    ensures BuildHealerData(InitialForm).experience == "3-5 years"
    ensures BuildHealerData(InitialForm).pricing == Rupee + "2500/session"
    ensures BuildHealerData(InitialForm).specialties == []
    ensures BuildHealerData(InitialForm).languages == ["English"]
  {
    var form := InitialForm;
    assert TextOf(form, "experience") == "";
    assert SubText(form, "pricing", "individual") == "";
    assert ListOf(form, "categories") == [] && ListOf(form, "specialties") == [];
    assert ListOf(form, "languages") == ["English"];
    DefaultsWhenUntouched(form);
  }

  /** The wizard's state. */
  class Wizard {
    var currentStep: int
    var isLoading: bool
    var form: Form

    predicate Valid()
      reads this
    {
      0 <= currentStep <= LastStep
    }

    constructor ()
      ensures Valid() && currentStep == 0 && !isLoading && form == InitialForm
    {
      currentStep := 0;
      isLoading := false;
      form := InitialForm;
    }

    /** Previous: `Math.max(0, step - 1)`. */
    method Previous()
      requires Valid()
      modifies this`currentStep
      ensures Valid()
      ensures currentStep == if old(currentStep) > 0 then old(currentStep) - 1 else 0
    {
      currentStep := if currentStep - 1 > 0 then currentStep - 1 else 0;
    }

    /** Next: offered before the last step and enabled by `canProceed`; a
        disabled or absent button does nothing. */
    method Next()
      requires Valid()
      modifies this`currentStep
      ensures Valid()
      ensures currentStep == NextStep(form, old(currentStep))
    {
      if currentStep < LastStep && CanProceed(form, currentStep) {
        currentStep := currentStep + 1;
      }
    }

    method ChangeInput(field: string, value: FormValue)
      modifies this`form
      ensures form == InputChange(old(form), field, value)
    {
      form := InputChange(form, field, value);
    }

    method ToggleChoice(field: string, value: string)
      modifies this`form
      ensures form == ArrayToggle(old(form), field, value)
    {
      form := ArrayToggle(form, field, value);
    }

    /** `handleSubmit` from the review step: the healer data, with loading over afterwards. */
    method Submit() returns (data: HealerData)
      requires Valid() && currentStep == LastStep
      modifies this`isLoading
      ensures data == BuildHealerData(form) && !isLoading
    {
      isLoading := true;
      data := BuildHealerData(form);
      isLoading := false;
    }
  }

  /** The step the Next button leads to from `step`: one further when the
      step is not the last and its fields allow it, otherwise the same step. */
  function NextStep(form: Form, step: int): int {
    if step < LastStep && CanProceed(form, step) then step + 1 else step
  }

  /** The wizard advances from a step exactly when that step's own fields are
      filled in: name, phone, location and bio; a category; a session type and
      an individual price; some availability. It never advances from the
      review step, and otherwise stays where it is. */
  lemma StepsAreGated(form: Form, step: int)
    ensures NextStep(form, step) == step + 1 <==>
      || (step == 0 && TextOf(form, "name") != "" && TextOf(form, "phone") != ""
                    && TextOf(form, "location") != "" && TextOf(form, "bio") != "")
      || (step == 1 && |ListOf(form, "categories")| > 0)
      || (step == 2 && |ListOf(form, "sessionTypes")| > 0 && SubText(form, "pricing", "individual") != "")
      || (step == 3 && |ListOf(form, "availability")| > 0)
    ensures NextStep(form, step) != step + 1 ==> NextStep(form, step) == step
    ensures NextStep(form, LastStep) == LastStep
  {
  }
}
