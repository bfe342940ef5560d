/** The scheduling dialog defined inside the dashboard page: three select
    boxes (role, difficulty, duration), a resume upload and a submit button. */
module DashboardPage {
  import opened Wrappers
  import opened Catalog
  import opened Collections
  import Combobox
  import opened Http

  const Difficulties := ["Easy", "Medium", "Hard"]

  /** The fixed option lists offer each entry once. */
  lemma FixedOptionsDistinct()
    ensures NoDuplicates(Difficulties) && |Difficulties| == 3
    ensures NoDuplicates(Durations) && |Durations| == 2
  {
  }

  class ScheduleForm {
    /** `[...new Set(interviewData.map((i) => i.title))]` */
    const roles: seq<string>
    /** The uploaded resume file; nothing in the page ever assigns it. */
    var resume: Option<string>
    var resumeText: string
    var selectedRole: string
    var selectedDifficulty: string
    var selectedDuration: string
    var message: string

    /** No resume is ever recorded, and each select box holds nothing or one
        of its own options. */
    ghost predicate Valid()
      reads this
    {
      && resume == None
      && (selectedRole == "" || selectedRole in roles)
      && (selectedDifficulty == "" || selectedDifficulty in Difficulties)
      && (selectedDuration == "" || selectedDuration in Durations)
    }

    /** Opening the dialog over the listing `interviewData`. */
    constructor(interviewData: seq<InterviewSummary>)
      ensures Valid()
      ensures roles == RoleOptions(interviewData)
      ensures resume == None && resumeText == "" && message == ""
      ensures selectedRole == "" && selectedDifficulty == "" && selectedDuration == ""
    {
      roles := RoleOptions(interviewData);
      resume := None;
      resumeText := "";
      selectedRole := "";
      selectedDifficulty := "";
      selectedDuration := "";
      message := "";
    }

    /** Picking a row of the role box. */
    method SelectRole(option: string)
      requires Valid() && option in roles
      modifies this
      ensures Valid()
      ensures selectedRole == Combobox.Toggle(old(selectedRole), option)
      ensures selectedDifficulty == old(selectedDifficulty) && selectedDuration == old(selectedDuration)
      ensures resumeText == old(resumeText) && message == old(message)
    {
      selectedRole := Combobox.Toggle(selectedRole, option);
    }

    /** Picking a row of the difficulty box. */
    method SelectDifficulty(option: string)
      requires Valid() && option in Difficulties
      modifies this
      ensures Valid()
      ensures selectedDifficulty == Combobox.Toggle(old(selectedDifficulty), option)
      ensures selectedRole == old(selectedRole) && selectedDuration == old(selectedDuration)
      ensures resumeText == old(resumeText) && message == old(message)
    {
      selectedDifficulty := Combobox.Toggle(selectedDifficulty, option);
    }

    /** Picking a row of the duration box. */
    method SelectDuration(option: string)
      requires Valid() && option in Durations
      modifies this
      ensures Valid()
      ensures selectedDuration == Combobox.Toggle(old(selectedDuration), option)
      ensures selectedRole == old(selectedRole) && selectedDifficulty == old(selectedDifficulty)
      ensures resumeText == old(resumeText) && message == old(message)
    {
      selectedDuration := Combobox.Toggle(selectedDuration, option);
    }

    /** `extractText`: the text pulled out of the chosen PDF, or nothing when
        extraction fails (the failure is only logged). The resume file itself
        is not recorded. */
    method ExtractText(extracted: Option<string>)
      requires Valid()
      modifies this
      ensures Valid()
      ensures resumeText == (if extracted.Some? then extracted.value else old(resumeText))
      ensures resume == old(resume) && message == old(message)
      ensures selectedRole == old(selectedRole) && selectedDifficulty == old(selectedDifficulty)
      ensures selectedDuration == old(selectedDuration)
    {
      if extracted.Some? {
        resumeText := extracted.value;
      }
    }

    /** Whether the submit guard lets the form through. */
    predicate Filled()
      reads this
      ensures Filled() ==> resume.Some?
      ensures Filled() ==> selectedRole != "" && selectedDifficulty != "" && selectedDuration != ""
    {
      resume.Some? && selectedRole != "" && selectedDifficulty != "" && selectedDuration != ""
    }

    /** `handleSubmit`: an unfilled form shows "Fill All Fields!", a filled
        one does nothing. Since no resume is ever recorded, the form is never
        filled and every submission shows the message. */
    method HandleSubmit()
      requires Valid()
      modifies this
      ensures Valid()
      ensures !old(Filled()) ==> message == FillAllFields
      ensures old(Filled()) ==> message == old(message)
      ensures message == FillAllFields
      ensures resume == old(resume) && resumeText == old(resumeText)
      ensures selectedRole == old(selectedRole) && selectedDifficulty == old(selectedDifficulty)
      ensures selectedDuration == old(selectedDuration)
    {
      if !Filled() {
        message := FillAllFields;
      }
    }
  }
}
