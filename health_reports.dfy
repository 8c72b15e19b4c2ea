/** The public-health report form (aquasentry-frontend/src/pages/HealthReports.jsx):
    the `formData` and `status` state cells, the field handlers, the submit
    handler split at its `await`, and the 3-second reset timer as an explicit
    event. */
module HealthReports {
  import opened Models

  /** The body posted to `health-reports/`. */
  datatype FormData = FormData(
    symptomType: SymptomType,
    severity: int,
    latitude: real,
    longitude: real,
    notes: string)

  /** `status`: `''`, `'submitting'`, `'success'` or `'error'`. */
  datatype Status = Idle | Submitting | Success | Error

  /** The form as it is first rendered. */
  const InitialForm: FormData := FormData(GI, 5, 0.0, 0.0, "")

  /** The symptom buttons, in the order they are rendered: exactly the categories of the report table. */
  const SymptomButtons: seq<SymptomType> := [GI, NEURO, DERM, OTHER]

  lemma SymptomButtonsCoverChoices(t: SymptomType)
    ensures t in SymptomButtons
  {
  }

  class HealthReportForm {
    var formData: FormData
    var status: Status
    // every body posted, oldest first
    var sent: seq<FormData>
    // POSTs awaiting their outcome, and reset timers armed but not yet fired
    ghost var pendingPosts: nat
    ghost var pendingResets: nat

    /** Severity stays on the slider's scale; `submitting` means a POST is
        pending and `success` means a reset is armed. */
    ghost predicate Valid()
      reads this
    {
      && 1 <= formData.severity <= 10
      && (status == Submitting ==> pendingPosts > 0)
      && (status == Success ==> pendingResets > 0)
    }

    constructor ()
      ensures Valid()
      ensures formData == InitialForm && status == Idle && sent == []
      ensures pendingPosts == 0 && pendingResets == 0
    {
      formData, status, sent := InitialForm, Idle, [];
      pendingPosts, pendingResets := 0, 0;
    }

    /** A symptom button: only `symptom_type` changes. */
    method SelectSymptom(t: SymptomType)
      requires Valid()
      modifies this
      ensures Valid()
      ensures formData == old(formData).(symptomType := t)
      ensures status == old(status) && sent == old(sent)
      ensures pendingPosts == old(pendingPosts) && pendingResets == old(pendingResets)
    {
      formData := formData.(symptomType := t);
    }

    /** The range input, which only yields 1 to 10: only `severity` changes. */
    method SetSeverity(position: int)
      requires Valid()
      requires 1 <= position <= 10
      modifies this
      ensures Valid()
      ensures formData == old(formData).(severity := position)
      ensures status == old(status) && sent == old(sent)
      ensures pendingPosts == old(pendingPosts) && pendingResets == old(pendingResets)
    {
      formData := formData.(severity := position);
    }

    /** The latitude input: only `latitude` changes. */
    method SetLatitude(x: real)
      requires Valid()
      modifies this
      ensures Valid()
      ensures formData == old(formData).(latitude := x)
      ensures status == old(status) && sent == old(sent)
      ensures pendingPosts == old(pendingPosts) && pendingResets == old(pendingResets)
    {
      formData := formData.(latitude := x);
    }

    /** The longitude input: only `longitude` changes. */
    method SetLongitude(x: real)
      requires Valid()
      modifies this
      ensures Valid()
      ensures formData == old(formData).(longitude := x)
      ensures status == old(status) && sent == old(sent)
      ensures pendingPosts == old(pendingPosts) && pendingResets == old(pendingResets)
    {
      formData := formData.(longitude := x);
    }

    /** The notes area: only `notes` changes. */
    method SetNotes(text: string)
      requires Valid()
      modifies this
      ensures Valid()
      ensures formData == old(formData).(notes := text)
      ensures status == old(status) && sent == old(sent)
      ensures pendingPosts == old(pendingPosts) && pendingResets == old(pendingResets)
    {
      formData := formData.(notes := text);
    }

    /** The submit button is disabled exactly while the status is `submitting`. */
    predicate SubmitDisabled()
      reads this
    {
      status == Submitting
    }

    /** The success banner is shown exactly while the status is `success`. */
    predicate ShowsSuccessBanner()
      reads this
    {
      status == Success
    }

    /** `handleSubmit` up to its `await`: the status becomes `submitting` and
        the current form is posted unchanged. The browser fires no submit while
        the button is disabled. */
    method Submit()
      requires Valid()
      requires !SubmitDisabled()
      modifies this
      ensures Valid()
      ensures status == Submitting && SubmitDisabled()
      ensures formData == old(formData) && sent == old(sent) + [old(formData)]
      ensures pendingPosts == old(pendingPosts) + 1 && pendingResets == old(pendingResets)
    {
      status := Submitting;
      sent := sent + [formData];
      pendingPosts := pendingPosts + 1;
    }

    /** The POST settles: success shows the banner and arms the reset timer;
        failure shows `error`, which nothing resets. */
    method SubmitSettled(ok: bool)
      requires Valid() && pendingPosts > 0
      modifies this
      ensures Valid()
      ensures status == if ok then Success else Error
      ensures ShowsSuccessBanner() <==> ok
      ensures pendingResets == old(pendingResets) + (if ok then 1 else 0)
      ensures formData == old(formData) && sent == old(sent)
      ensures pendingPosts == old(pendingPosts) - 1
    {
      if ok {
        status := Success;
        pendingResets := pendingResets + 1;
      } else {
        status := Error;
      }
      pendingPosts := pendingPosts - 1;
    }

    /** The reset timer fires: the status goes back to `''` whatever it is by
        then, even `submitting` when a newer submission is under way. */
    method ResetTimerFired()
      requires Valid() && pendingResets > 0
      modifies this
      ensures Valid()
      ensures status == Idle && !SubmitDisabled() && !ShowsSuccessBanner()
      ensures formData == old(formData) && sent == old(sent)
      ensures pendingPosts == old(pendingPosts) && pendingResets == old(pendingResets) - 1
    {
      status := Idle;
      pendingResets := pendingResets - 1;
    }
  }

  /** One round trip from a fresh form: fill it in, submit, succeed, wait.
      The form posted is the one filled in, and the page ends where it began
      apart from the fields. */
  method SubmitOnceThenReset(t: SymptomType, severity: int, lat: real, lon: real, notes: string)
    returns (posted: seq<FormData>, final: Status)
    requires 1 <= severity <= 10
    ensures posted == [FormData(t, severity, lat, lon, notes)]
    ensures final == Idle
  {
    var form := new HealthReportForm();
    form.SelectSymptom(t);
    form.SetSeverity(severity);
    form.SetLatitude(lat);
    form.SetLongitude(lon);
    form.SetNotes(notes);
    form.Submit();
    form.SubmitSettled(true);
    form.ResetTimerFired();
    posted, final := form.sent, form.status;
  }

  /** A reset armed by an earlier success fires during a newer submission:
      the button is enabled again while that POST is still pending, so a
      third POST can be issued before the second settles. */
  method StaleResetReenablesSubmit() returns (disabledWhilePending: bool, posts: nat)
    ensures !disabledWhilePending && posts == 3
  {
    var form := new HealthReportForm();
    form.Submit();
    form.SubmitSettled(true);
    form.Submit();
    form.ResetTimerFired();
    disabledWhilePending := form.SubmitDisabled();
    form.Submit();
    posts := |form.sent|;
  }
}
