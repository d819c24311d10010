/** The clinician's medication editor (src/components/MedicationManagement.tsx):
    the form filled from a record, the payload written back from the form,
    the activation toggle and the reset of the form. */
module MedicationManagement {
  import opened Js

  /** A row of `medications`; dates are `yyyy-MM-dd` strings. */
  datatype Medication = Medication(
    id: string,
    medicationName: string,
    dosage: string,
    frequency: string,
    instructions: Option<string>,
    startDate: string,
    endDate: Option<string>,
    isActive: bool,
    prescribedDate: string)

  /** The dialog's form; every field is a string. */
  datatype FormData = FormData(
    medicationName: string,
    dosage: string,
    frequency: string,
    instructions: string,
    startDate: string,
    endDate: string)

  /** The empty form, starting today. */
  function BlankForm(today: string): (f: FormData)
    ensures f.medicationName == "" && f.dosage == "" && f.frequency == ""
    ensures f.instructions == "" && f.endDate == "" && f.startDate == today
  {
    FormData("", "", "", "", today, "")
  }

  /** `openEditDialog`'s form: null instructions and end date become "". */
  function EditFormOf(med: Medication): (f: FormData)
    ensures f.medicationName == med.medicationName && f.dosage == med.dosage
    ensures f.frequency == med.frequency && f.startDate == med.startDate
    ensures f.instructions == (if med.instructions.Some? then med.instructions.value else "")
    ensures f.endDate == (if med.endDate.Some? then med.endDate.value else "")
  {
    FormData(med.medicationName, med.dosage, med.frequency, OptStrOr(med.instructions, ""),
             med.startDate, OptStrOr(med.endDate, ""))
  }

  /** `medicationData`: the form, the patient, the prescriber, and an end
      date that is null when empty.  The instructions stay a string. */
  datatype Payload = Payload(
    medicationName: string,
    dosage: string,
    frequency: string,
    instructions: string,
    startDate: string,
    endDate: Option<string>,
    patientId: string,
    prescribedBy: string)

  function PayloadOf(f: FormData, patientId: string, userId: string): (p: Payload)
    ensures p.patientId == patientId && p.prescribedBy == userId
    ensures p.endDate.None? <==> f.endDate == ""
    ensures p.endDate.Some? ==> p.endDate.value == f.endDate
    ensures p.medicationName == f.medicationName && p.instructions == f.instructions
    ensures p.dosage == f.dosage && p.frequency == f.frequency && p.startDate == f.startDate
  {
    Payload(f.medicationName, f.dosage, f.frequency, f.instructions, f.startDate,
            NonEmpty(f.endDate), patientId, userId)
  }

  /** Editing and saving without changes writes back the original end date,
      whether it was null or a date. */
  lemma EndDateRoundTrip(med: Medication, patientId: string, userId: string)
    requires med.endDate.None? || med.endDate.value != ""
    ensures PayloadOf(EditFormOf(med), patientId, userId).endDate == med.endDate
  {
  }

  /** The other fields of the record also come back unchanged. */
  lemma FieldsRoundTrip(med: Medication, patientId: string, userId: string)
    ensures var p := PayloadOf(EditFormOf(med), patientId, userId);
      && p.medicationName == med.medicationName && p.dosage == med.dosage
      && p.frequency == med.frequency && p.startDate == med.startDate
      && (med.instructions.Some? ==> p.instructions == med.instructions.value)
  {
  }

  /** Null instructions do not come back: they are written as "". */
  lemma NullInstructionsBecomeEmpty(med: Medication, patientId: string, userId: string)
    requires med.instructions.None?
    ensures PayloadOf(EditFormOf(med), patientId, userId).instructions == ""
  {
  }

  /** `handleToggleActive`'s update: `is_active` flipped. */
  function TogglePayload(med: Medication): (isActive: bool)
    ensures isActive != med.isActive
  {
    !med.isActive
  }

  /** Two toggles in a row restore the flag. */
  lemma ToggleTwice(med: Medication)
    ensures TogglePayload(med.(isActive := TogglePayload(med))) == med.isActive
  {
  }

  /** The success message names the action the toggle performed. */
  function ToggleMessage(med: Medication): (m: string)
    ensures m == "Medication deactivated" <==> med.isActive
    ensures m == "Medication activated" <==> !med.isActive
  {
    if med.isActive then "Medication deactivated" else "Medication activated"
  }

  /** The write that `handleSubmit` issues. */
  datatype Write = Update(id: string, payload: Payload) | Insert(payload: Payload)

  /** The editor and its state. */
  class MedicationEditor {
    const patientId: string
    var editingMed: Option<Medication>
    var formData: FormData
    var dialogOpen: bool

    constructor (patientId: string, today: string)
      ensures this.patientId == patientId
      ensures editingMed.None? && formData == BlankForm(today) && !dialogOpen
    {
      this.patientId := patientId;
      editingMed := None;
      formData := FormData("", "", "", "", today, "");
      dialogOpen := false;
    }

    method OpenEditDialog(med: Medication)
      modifies this`editingMed, this`formData, this`dialogOpen
      ensures editingMed == Some(med) && formData == EditFormOf(med) && dialogOpen
    {
      editingMed := Some(med);
      formData := EditFormOf(med);
      dialogOpen := true;
    }

    method ResetForm(today: string)
      modifies this`formData
      ensures formData == BlankForm(today)
    {
      formData := FormData("", "", "", "", today, "");
    }

    /** `handleSubmit`: `user` is the signed-in user's id, `ok` whether the
        write succeeded.  With no user nothing is written; the write is an
        update of the edited record, otherwise an insert; only a successful
        write closes the dialog and resets the form. */
    method HandleSubmit(user: Option<string>, ok: bool, today: string) returns (write: Option<Write>)
      modifies this`editingMed, this`formData, this`dialogOpen
      ensures user.None? ==> write.None?
      ensures user.Some? ==> write.Some?
      ensures user.Some? && old(editingMed).Some? ==>
        write == Some(Update(old(editingMed).value.id, PayloadOf(old(formData), patientId, user.value)))
      ensures user.Some? && old(editingMed).None? ==>
        write == Some(Insert(PayloadOf(old(formData), patientId, user.value)))
      ensures user.Some? && ok ==> !dialogOpen && editingMed.None? && formData == BlankForm(today)
      ensures user.None? || !ok ==>
        dialogOpen == old(dialogOpen) && editingMed == old(editingMed) && formData == old(formData)
    {
      if user.None? {
        return None;
      }
      var data := PayloadOf(formData, patientId, user.value);
      if editingMed.Some? {
        write := Some(Update(editingMed.value.id, data));
      } else {
        write := Some(Insert(data));
      }
      if ok {
        dialogOpen := false;
        editingMed := None;
        ResetForm(today);
      }
    }
  }
}
