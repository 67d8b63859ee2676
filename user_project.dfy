/**
 * The project entry form: its required fields, the coupling of the start and
 * end date pickers, and the guard in front of the save call.
 */
module UserProject {
  import opened Wrappers
  import opened LmtAutocompleteParam

  /** A point in time, as the time value of a JavaScript `Date`; only its order matters. */
  type Date = int

  /**
   * The value of the form group. A date control holds a date or nothing;
   * `profiles` and `skills` hold the lists the two autocomplete widgets hand over.
   */
  datatype ProjectForm = ProjectForm(
    entitle: string,
    description: string,
    enterpriseName: string,
    startDate: Option<Date>,
    endDate: Option<Date>,
    profiles: seq<Item>,
    skills: seq<Item>)

  /** The controls of the form group. */
  datatype Field = Entitle | Description | EnterpriseName | StartDate | EndDate | Profiles | Skills

  /** The controls created with the `required` validator; `EndDate` has none. */
  const RequiredFields: set<Field> := {Entitle, Description, EnterpriseName, StartDate, Profiles, Skills}

  /** The value every control starts with (the empty string, read as "nothing"). */
  const InitialForm: ProjectForm := ProjectForm("", "", "", None, None, [], [])

  /** The emptiness the `required` validator rejects: no value, or a value of length 0. */
  predicate IsEmptyValue(f: ProjectForm, fld: Field): (b: bool)
    ensures f == InitialForm ==> b
  {
    match fld
    case Entitle => f.entitle == ""
    case Description => f.description == ""
    case EnterpriseName => f.enterpriseName == ""
    case StartDate => f.startDate.None?
    case EndDate => f.endDate.None?
    case Profiles => f.profiles == []
    case Skills => f.skills == []
  }

  /**
   * `valid` of the form group: no required control is empty, that is, the six
   * required values are all present.
   */
  predicate FormValid(f: ProjectForm): (b: bool)
    ensures b <==>
              && f.entitle != ""
              && f.description != ""
              && f.enterpriseName != ""
              && f.startDate.Some?
              && f.profiles != []
              && f.skills != []
  {
    forall fld :: fld in RequiredFields ==> !IsEmptyValue(f, fld)
  }

  /** The end date is optional: it never decides validity. */
  lemma EndDateOptional(f: ProjectForm, e: Option<Date>)
    ensures FormValid(f.(endDate := e)) <==> FormValid(f)
  {
  }

  /** A freshly built form is not valid. */
  lemma InitialFormInvalid()
    ensures !FormValid(InitialForm)
  {
    assert IsEmptyValue(InitialForm, Entitle);
  }

  /** The form with text control `fld` set to `v`. */
  function WithText(f: ProjectForm, fld: Field, v: string): (g: ProjectForm)
    requires fld in {Entitle, Description, EnterpriseName}
    ensures forall other :: other != fld ==> (IsEmptyValue(g, other) <==> IsEmptyValue(f, other))
    ensures IsEmptyValue(g, fld) <==> v == ""
  {
    match fld
    case Entitle => f.(entitle := v)
    case Description => f.(description := v)
    case EnterpriseName => f.(enterpriseName := v)
  }

  /** The form with selection control `fld` set to `items`. */
  function WithSelection(f: ProjectForm, fld: Field, items: seq<Item>): (g: ProjectForm)
    requires fld in {Profiles, Skills}
    ensures forall other :: other != fld ==> (IsEmptyValue(g, other) <==> IsEmptyValue(f, other))
    ensures IsEmptyValue(g, fld) <==> items == []
  {
    match fld
    case Profiles => f.(profiles := items)
    case Skills => f.(skills := items)
  }

  /** The employee every project is saved for. */
  const HardCodedEmployeeId: int := 1

  /** One call of `saveProject`: the employee id and the form value handed to the mapper. */
  datatype SaveCall = SaveCall(employeeId: int, formValue: ProjectForm)

  /** The autocomplete parameter the form builds when a reference list arrives. */
  function ReferentialParameter(items: seq<Item>): (p: Parameter)
    ensures p.datasource == items
    ensures p.attributeNameForFilter == p.attributeNameToDisplay
    ensures p.attributeNameKey != p.attributeNameForFilter
  {
    Parameter(items, "name", "name", "id", Normalized)
  }

  class UserProjectComponent {
    /** The value of `_userProjectForm`. */
    var form: ProjectForm
    /** `_maxStartDate`: the latest start date the picker offers. */
    var maxStartDate: Date
    /** `_minEndDate`: the earliest end date the picker offers, if any. */
    var minEndDate: Option<Date>
    /** `lmtAutocompleteParamForProfile` and `lmtAutocompleteParamForSkill`. */
    var paramForProfile: Option<Parameter>
    var paramForSkill: Option<Parameter>
    /** Every call of `saveProject`, in order. */
    ghost var saveCalls: seq<SaveCall>
    /** Save calls whose result has not arrived yet. */
    ghost var pendingSaves: nat
    /** How many times `newProjectAdded` has emitted. */
    ghost var projectsAdded: nat

    /**
     * The pickers' bounds follow the date controls, and every emission of
     * `newProjectAdded` answers one save call whose result arrived.
     */
    ghost predicate Valid()
      reads this
    {
      && minEndDate == form.startDate
      && (form.endDate.Some? ==> maxStartDate == form.endDate.value)
      && projectsAdded + pendingSaves == |saveCalls|
    }

    /** The start date picker, bounded by `maxStartDate`, would accept `d`. */
    predicate StartDateAllowed(d: Option<Date>)
      reads this
    {
      d.Some? ==> d.value <= maxStartDate
    }

    /** The end date picker, bounded by `minEndDate` when it is set, would accept `d`. */
    predicate EndDateAllowed(d: Option<Date>)
      reads this
    {
      d.Some? && minEndDate.Some? ==> minEndDate.value <= d.value
    }

    /** When both dates are present, the project does not end before it starts. */
    predicate IntervalOrdered()
      reads this
    {
      form.startDate.Some? && form.endDate.Some? ==> form.startDate.value <= form.endDate.value
    }

    /**
     * Construction and `ngOnInit`: the form is built empty, the latest start
     * date is the current time `now`, and no earliest end date is set.
     */
    constructor (now: Date)
      ensures Valid()
      ensures form == InitialForm && !FormValid(form)
      ensures maxStartDate == now && minEndDate == None
      ensures paramForProfile == None && paramForSkill == None
      ensures saveCalls == [] && pendingSaves == 0 && projectsAdded == 0
    {
      form := InitialForm;
      maxStartDate := now;
      minEndDate := None;
      paramForProfile := None;
      paramForSkill := None;
      saveCalls := [];
      pendingSaves := 0;
      projectsAdded := 0;
      InitialFormInvalid();
    }

    /**
     * The start date control changes to `d` and `updateMinEndDateWhenStartDateChanged`
     * reacts: the earliest end date becomes `d`, or nothing when it is cleared.
     * The latest start date and the end date stay as they are, and an interval that
     * was ordered stays ordered when the picker's bound is respected.
     */
    method StartDateChanged(d: Option<Date>)
      requires Valid()
      modifies this`form, this`minEndDate
      ensures Valid()
      ensures form == old(form).(startDate := d)
      ensures minEndDate == d
      ensures old(StartDateAllowed(d)) && old(IntervalOrdered()) ==> IntervalOrdered()
    {
      form := form.(startDate := d);
      minEndDate := if d.Some? then d else None;
    }

    /**
     * The end date control changes to `d` and `updateMaxStartDateWhenEndDateChanged`
     * reacts: the latest start date becomes `d`, or the current time `now` when
     * it is cleared. The earliest end date and the start date stay as they are.
     */
    method EndDateChanged(d: Option<Date>, now: Date)
      requires Valid()
      modifies this`form, this`maxStartDate
      ensures Valid()
      ensures form == old(form).(endDate := d)
      ensures maxStartDate == if d.Some? then d.value else now
      ensures old(EndDateAllowed(d)) && old(IntervalOrdered()) ==> IntervalOrdered()
    {
      form := form.(endDate := d);
      maxStartDate := if d.Some? then d.value else now;
    }

    /** The user edits a text control. */
    method EditText(fld: Field, v: string)
      requires Valid() && fld in {Entitle, Description, EnterpriseName}
      modifies this`form
      ensures Valid()
      ensures form == WithText(old(form), fld, v)
    {
      form := WithText(form, fld, v);
    }

    /** An embedded autocomplete widget reports its selection list. */
    method EditSelection(fld: Field, items: seq<Item>)
      requires Valid() && fld in {Profiles, Skills}
      modifies this`form
      ensures Valid()
      ensures form == WithSelection(old(form), fld, items)
    {
      form := WithSelection(form, fld, items);
    }

    /** The profiles slice of the store emits; nil values are filtered out. */
    method ProfilesReceived(profiles: Option<seq<Item>>)
      requires Valid()
      modifies this`paramForProfile
      ensures Valid()
      ensures profiles.None? ==> paramForProfile == old(paramForProfile)
      ensures profiles.Some? ==> paramForProfile == Some(ReferentialParameter(profiles.value))
    {
      if profiles.Some? {
        paramForProfile := Some(ReferentialParameter(profiles.value));
      }
    }

    /** The skills slice of the store emits; nil values are filtered out. */
    method SkillsReceived(skills: Option<seq<Item>>)
      requires Valid()
      modifies this`paramForSkill
      ensures Valid()
      ensures skills.None? ==> paramForSkill == old(paramForSkill)
      ensures skills.Some? ==> paramForSkill == Some(ReferentialParameter(skills.value))
    {
      if skills.Some? {
        paramForSkill := Some(ReferentialParameter(skills.value));
      }
    }

    /**
     * `saveUserProject`: an invalid form returns at once, with no save call and
     * no emission. A valid form is saved once, for employee 1, and the emission
     * waits for the save's result.
     */
    method SaveUserProject()
      requires Valid()
      modifies this`saveCalls, this`pendingSaves
      ensures Valid()
      ensures !FormValid(form) ==> saveCalls == old(saveCalls) && pendingSaves == old(pendingSaves)
      ensures FormValid(form) ==>
                && saveCalls == old(saveCalls) + [SaveCall(HardCodedEmployeeId, form)]
                && pendingSaves == old(pendingSaves) + 1
    {
      if !FormValid(form) {
        return;
      }
      saveCalls := saveCalls + [SaveCall(HardCodedEmployeeId, form)];
      pendingSaves := pendingSaves + 1;
    }

    /** The result of a pending save arrives, and `newProjectAdded` emits. */
    method SaveResultArrived()
      requires Valid() && pendingSaves > 0
      modifies this`pendingSaves, this`projectsAdded
      ensures Valid()
      ensures pendingSaves == old(pendingSaves) - 1
      ensures projectsAdded == old(projectsAdded) + 1
    {
      pendingSaves := pendingSaves - 1;
      projectsAdded := projectsAdded + 1;
    }
  }
}
