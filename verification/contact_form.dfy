/**
 * The sales contact form's submission flow: the duplicate check against
 * local storage, the submission itself, recording a successful submission,
 * and the form state and message shown afterwards. What the submission
 * service answers is a parameter: a result it resolves with, or a throw.
 */
module ContactForm {
  import opened Strings
  import opened DuplicateDetection

  datatype FormState = Idle | Submitting | Success | Error | Duplicate

  /** What `submitContactForm` settles with. */
  datatype SubmissionOutcome = Resolved(success: bool, message: string) | Thrown

  const SuccessFallback := "Danke. Wir melden uns binnen 1 Werktag."
  const ErrorFallback := "Ein Fehler ist aufgetreten. Bitte versuchen Sie es erneut."
  const ConnectionFailed := "Verbindung fehlgeschlagen. Bitte versuchen Sie es erneut."

  /** `message || fallback`. */
  function OrElse(message: string, fallback: string): string {
    if message != "" then message else fallback
  }

  /** Where `onSubmit` ends: the state, the message, and whether the submission is recorded and the form reset. */
  datatype Settled = Settled(state: FormState, message: string, records: bool)

  /** The end of `onSubmit` once the duplicate check has answered; nothing is sent for a duplicate, so `outcome` is not consulted. */
  function SubmitResult(duplicate: bool, outcome: SubmissionOutcome): Settled {
    if duplicate then Settled(Duplicate, DuplicateMessage(Sales), false)
    else match outcome
      case Thrown => Settled(Error, ConnectionFailed, false)
      case Resolved(success, message) =>
        if success then Settled(Success, OrElse(message, SuccessFallback), true)
        else Settled(Error, OrElse(message, ErrorFallback), false)
  }

  /**
   * A duplicate wins whatever the service would have said; a submission is
   * recorded exactly when it was no duplicate and the service reported
   * success; every other end is an error, and every end leaves a message.
   */
  lemma SubmitResultCases(duplicate: bool, outcome: SubmissionOutcome, other: SubmissionOutcome)
    ensures duplicate ==> SubmitResult(duplicate, outcome) == SubmitResult(duplicate, other)
    ensures SubmitResult(duplicate, outcome).records <==> !duplicate && outcome.Resolved? && outcome.success
    ensures SubmitResult(duplicate, outcome).state == Success <==> SubmitResult(duplicate, outcome).records
    ensures SubmitResult(duplicate, outcome).state == Duplicate <==> duplicate
    ensures SubmitResult(duplicate, outcome).state in {Success, Duplicate, Error}
    ensures SubmitResult(duplicate, outcome).message != ""
    ensures !duplicate && outcome.Thrown? ==> SubmitResult(duplicate, outcome) == Settled(Error, ConnectionFailed, false)
  {
  }

  /** `isLoading || formState === 'success'`: the inputs and the button are disabled while sending and after a success. */
  predicate IsDisabled(state: FormState) {
    state == Submitting || state == Success
  }

  /** The alert is green after a success or a duplicate, red otherwise; the retry button appears only after an error. */
  predicate AlertIsGreen(state: FormState) { state == Success || state == Duplicate }

  predicate ShowsRetry(state: FormState) { state == Error }

  /** After a submission settles the form can be used again exactly when it did not succeed. */
  lemma SettledDisabled(duplicate: bool, outcome: SubmissionOutcome)
    ensures IsDisabled(SubmitResult(duplicate, outcome).state) <==> !duplicate && outcome.Resolved? && outcome.success
    ensures ShowsRetry(SubmitResult(duplicate, outcome).state) <==> !AlertIsGreen(SubmitResult(duplicate, outcome).state)
  {
  }

  class ContactFormState {
    var formState: FormState
    var submitMessage: string
    /** The e-mail addresses handed to `submitContactForm`, oldest first. */
    var sent: seq<string>
    /** How often `reset()` has cleared the form. */
    var resets: nat
    /** Local storage, shared with the duplicate detection. */
    const storage: SubmissionStore

    constructor (storage: SubmissionStore)
      ensures formState == Idle && submitMessage == "" && sent == [] && resets == 0
      ensures this.storage == storage
    {
      formState := Idle;
      submitMessage := "";
      sent := [];
      resets := 0;
      this.storage := storage;
    }

    /**
     * `onSubmit` up to the `await`: the state becomes `'submitting'` with an
     * empty message; a duplicate ends the run here. `proceed` says whether
     * the data is sent.
     */
    method StartSubmit(email: string, now: int) returns (proceed: bool)
      modifies this, storage
      ensures proceed == !SubmissionStore.IsDuplicate(old(storage.items), StorageKey(email, Sales), now)
      ensures storage.items == SubmissionStore.AfterCheck(old(storage.items), StorageKey(email, Sales), now)
      ensures proceed ==> formState == Submitting && submitMessage == "" && sent == old(sent) + [email]
      ensures !proceed ==> formState == Duplicate && submitMessage == DuplicateMessage(Sales) && sent == old(sent)
      ensures resets == old(resets)
    {
      formState := Submitting;
      submitMessage := "";
      var duplicate := storage.IsDuplicateSubmission(email, Sales, now);
      if duplicate {
        formState := Duplicate;
        submitMessage := DuplicateMessage(Sales);
        return false;
      }
      sent := sent + [email];
      return true;
    }

    /** `onSubmit` after the `await`, at time `now`: a success is recorded and the form reset; anything else is an error. */
    method FinishSubmit(email: string, outcome: SubmissionOutcome, now: int)
      requires formState == Submitting
      modifies this, storage
      ensures formState == SubmitResult(false, outcome).state
      ensures submitMessage == SubmitResult(false, outcome).message
      ensures storage.items == if SubmitResult(false, outcome).records then old(storage.items)[StorageKey(email, Sales) := IntToString(now)] else old(storage.items)
      ensures resets == old(resets) + if SubmitResult(false, outcome).records then 1 else 0
      ensures sent == old(sent)
    {
      match outcome {
        case Thrown =>
          formState := Error;
          submitMessage := ConnectionFailed;
        case Resolved(success, message) =>
          if success {
            storage.RecordSubmission(email, Sales, now);
            formState := Success;
            submitMessage := OrElse(message, SuccessFallback);
            resets := resets + 1;
          } else {
            formState := Error;
            submitMessage := OrElse(message, ErrorFallback);
          }
      }
    }

    /** The whole of `onSubmit`: the duplicate check at `checkedAt`, and a success recorded at `recordedAt`. */
    method OnSubmit(email: string, checkedAt: int, outcome: SubmissionOutcome, recordedAt: int)
      modifies this, storage
      ensures var duplicate := SubmissionStore.IsDuplicate(old(storage.items), StorageKey(email, Sales), checkedAt);
        var checked := SubmissionStore.AfterCheck(old(storage.items), StorageKey(email, Sales), checkedAt);
        var result := SubmitResult(duplicate, outcome);
        formState == result.state && submitMessage == result.message
        && sent == old(sent) + (if duplicate then [] else [email])
        && storage.items == (if result.records then checked[StorageKey(email, Sales) := IntToString(recordedAt)] else checked)
        && resets == old(resets) + (if result.records then 1 else 0)
    {
      var proceed := StartSubmit(email, checkedAt);
      if proceed {
        FinishSubmit(email, outcome, recordedAt);
      }
    }

    /** `handleRetry`: back to `'idle'` with no message. */
    method HandleRetry()
      modifies this
      ensures formState == Idle && submitMessage == ""
      ensures sent == old(sent) && resets == old(resets)
    {
      formState := Idle;
      submitMessage := "";
    }
  }
}
