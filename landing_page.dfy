/**
 * The public landing page (pages/LandingPage.tsx): the three-step membership
 * application form and the package details dialog.
 */
module LandingPage {
  import opened Records
  import ManageMembers

  datatype FormData = FormData(name: string, email: string, phone: string,
                               farmName: string, farmLocation: string, farmSize: string)

  const EmptyForm := FormData("", "", "", "", "", "")

  /** Step one's fields (name, email, phone) are all non-empty. */
  predicate ContactComplete(f: FormData)
  {
    f.name != "" && f.email != "" && f.phone != ""
  }

  /** Step two's required fields (location and flock size) are non-empty; the farm name is optional. */
  predicate FarmComplete(f: FormData)
  {
    f.farmLocation != "" && f.farmSize != ""
  }

  /** `handleNext`: step one and two advance only when their required fields are filled. */
  function NextStep(step: int, f: FormData): (next: int)
    ensures step == 1 ==> (next == 2 <==> ContactComplete(f)) && (next == 1 <==> !ContactComplete(f))
    ensures step == 2 ==> (next == 3 <==> FarmComplete(f)) && (next == 2 <==> !FarmComplete(f))
    ensures step != 1 && step != 2 ==> next == step
  {
    if step == 1 then (if ContactComplete(f) then 2 else 1)
    else if step == 2 then (if FarmComplete(f) then 3 else 2)
    else step
  }

  /** The farm name never holds the form back. */
  lemma FarmNameIsOptional(step: int, f: FormData, farmName: string)
    ensures NextStep(step, f.(farmName := farmName)) == NextStep(step, f)
  {
  }

  datatype Field = Name | Email | Phone | FarmName | FarmLocation | FarmSize

  /** The step whose panel shows the field's input. */
  function FieldStep(field: Field): (s: int)
    ensures s == 1 || s == 2
  {
    match field
    case Name => 1
    case Email => 1
    case Phone => 1
    case _ => 2
  }

  function WithField(f: FormData, field: Field, value: string): FormData
  {
    match field
    case Name => f.(name := value)
    case Email => f.(email := value)
    case Phone => f.(phone := value)
    case FarmName => f.(farmName := value)
    case FarmLocation => f.(farmLocation := value)
    case FarmSize => f.(farmSize := value)
  }

  datatype StepButton = Next | Back | SubmitApplication

  /** The buttons each step's panel shows. */
  function ButtonsFor(step: int): (bs: seq<StepButton>)
    ensures SubmitApplication in bs <==> step == 3
    ensures Back in bs <==> step == 2 || step == 3
    ensures Next in bs <==> step == 1 || step == 2
  {
    if step == 1 then [Next]
    else if step == 2 then [Back, Next]
    else if step == 3 then [Back, SubmitApplication]
    else []
  }

  /** The document written on submission: every form field, a pending status and the submission time. */
  datatype ApplicationDoc = ApplicationDoc(form: FormData, status: ApplicationStatus, submittedAt: string)

  /** The application as the admin console reads the document back under its generated id. */
  function ReadBack(d: ApplicationDoc, id: string): MembershipApplication
  {
    MembershipApplication(id, d.form.name, d.form.email, d.form.phone, d.form.farmLocation, d.form.farmSize,
                          d.status, d.submittedAt)
  }

  /** A submitted application shows up among the pending applications of the collection that holds it. */
  lemma SubmittedApplicationIsPending(form: FormData, submittedAt: string, id: string,
                                      apps: seq<MembershipApplication>)
    requires ReadBack(ApplicationDoc(form, Pending, submittedAt), id) in apps
    ensures ReadBack(ApplicationDoc(form, Pending, submittedAt), id) in ManageMembers.PendingApplications(apps)
  {
  }

  const SubmitFailedMessage := "Submission failed. Please try again."

  /** The membership form's state. */
  class MembershipSection {
    var step: int
    var formData: FormData
    var isLoading: bool
    var isSuccess: bool
    var error: string

    /**
     * The step is one of the three panels, and a panel is only reached with the
     * earlier panels' required fields filled (their inputs are gone once passed).
     */
    predicate Valid()
      reads this
    {
      1 <= step <= 3 &&
      (step >= 2 ==> ContactComplete(formData)) &&
      (step == 3 ==> FarmComplete(formData))
    }

    constructor ()
      ensures Valid()
      ensures step == 1 && formData == EmptyForm && !isLoading && !isSuccess && error == ""
    {
      step := 1;
      formData := EmptyForm;
      isLoading := false;
      isSuccess := false;
      error := "";
    }

    /** Typing into one of the inputs the current panel shows. */
    method SetField(field: Field, value: string)
      requires Valid() && FieldStep(field) == step
      modifies this`formData
      ensures Valid()
      ensures formData == WithField(old(formData), field, value)
    {
      formData := WithField(formData, field, value);
    }

    method Next()
      requires Valid()
      modifies this`step
      ensures Valid()
      ensures step == NextStep(old(step), formData)
    {
      step := NextStep(step, formData);
    }

    /** The "Back" button of step two. */
    method BackToContact()
      requires Valid() && step == 2
      modifies this`step
      ensures Valid() && step == 1
    {
      step := 1;
    }

    /** The "Back" button of step three. */
    method BackToFarm()
      requires Valid() && step == 3
      modifies this`step
      ensures Valid() && step == 2
    {
      step := 2;
    }

    /**
     * `handleSubmit` up to the write, from the only panel with a submit button:
     * the error is cleared and the document to add is every form field with a
     * pending status, and it carries a complete contact and farm description.
     */
    method BeginSubmit(submittedAt: string) returns (doc: ApplicationDoc)
      requires Valid() && step == 3
      modifies this`isLoading, this`error
      ensures Valid()
      ensures isLoading && error == ""
      ensures doc == ApplicationDoc(formData, Pending, submittedAt)
      ensures ContactComplete(doc.form) && FarmComplete(doc.form)
    {
      isLoading := true;
      error := "";
      doc := ApplicationDoc(formData, Pending, submittedAt);
    }

    /** The rest of `handleSubmit`: success shows the confirmation, failure the error; loading ends either way. */
    method FinishSubmit(succeeded: bool)
      modifies this`isLoading, this`isSuccess, this`error
      ensures succeeded ==> isSuccess && error == old(error)
      ensures !succeeded ==> isSuccess == old(isSuccess) && error == SubmitFailedMessage
      ensures !isLoading
    {
      if succeeded {
        isSuccess := true;
      } else {
        error := SubmitFailedMessage;
      }
      isLoading := false;
    }
  }

  datatype PackageKind = Starter | Business | Franchise

  /** The dialog title `openModal` sets for each package. */
  function PackageTitle(kind: PackageKind): (title: string)
    ensures title != ""
  {
    match kind
    case Starter => "Starter Package"
    case Business => "Business Package"
    case Franchise => "Franchise Tier"
  }

  lemma PackageTitlesDistinct(a: PackageKind, b: PackageKind)
    requires PackageTitle(a) == PackageTitle(b)
    ensures a == b
  {
  }

  /** The package dialog: its title and the package whose inclusions it shows (none when closed). */
  class PackagesSection {
    var modalTitle: string
    var modalContent: Option<PackageKind>

    constructor ()
      ensures modalTitle == "" && modalContent == None
    {
      modalTitle := "";
      modalContent := None;
    }

    predicate IsOpen()
      reads this
    {
      modalContent.Some?
    }

    /** `openModal`: the dialog opens on the chosen package, titled after it. */
    method OpenModal(kind: PackageKind)
      modifies this
      ensures modalContent == Some(kind) && modalTitle == PackageTitle(kind)
      ensures IsOpen()
    {
      modalTitle := PackageTitle(kind);
      modalContent := Some(kind);
    }

    /** `closeModal` clears the content only; the title stays behind. */
    method CloseModal()
      modifies this`modalContent
      ensures !IsOpen()
    {
      modalContent := None;
    }
  }
}
