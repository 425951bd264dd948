/**
 * The `addJobToNotion` message handler shared by src/background.ts and
 * src/background.js: the recently-submitted confirmation, the single-flight
 * flag `isSubmitting`, and how the outcome of a submission becomes the reply
 * and updates the recent set.
 */
module Submission {
  import opened Wrappers
  import opened Notion
  import opened RecentJobs

  /** The reply sent back for an `addJobToNotion` message. */
  datatype Response =
    | Added(data: string)                               // `{success: true, data}`
    | Failed(error: string)                             // `{success: false, error}`
    | NeedsConfirmation(error: string, jobUrl: string)  // `requireConfirmation: true`
    | AlreadyInNotion(error: string, jobUrl: string)    // `requireConfirmation: false`

  const RecentlySubmittedError := "This job URL was recently submitted. To submit anyway, please try again."
  const InProgressError := "A job submission is already in progress. Please wait."

  /** Whether a request starts a submission, or the reply it gets at once. */
  datatype Admission = Rejected(response: Response) | Proceed

  /** The handler's two checks, the recent-set check first. */
  function Admit(recentlySubmitted: bool, forceSubmit: bool, isSubmitting: bool, jobUrl: string): Admission {
    if recentlySubmitted && !forceSubmit then Rejected(NeedsConfirmation(RecentlySubmittedError, jobUrl))
    else if isSubmitting then Rejected(Failed(InProgressError))
    else Proceed
  }

  /** A recent URL without `forceSubmit` is asked to confirm, whether or not a submission is running. */
  lemma ConfirmationComesFirst(isSubmitting: bool, jobUrl: string)
    ensures Admit(true, false, isSubmitting, jobUrl) == Rejected(NeedsConfirmation(RecentlySubmittedError, jobUrl))
  {
  }

  /**
   * Single flight: while a submission runs no request starts another one;
   * when none runs, exactly the requests that are not unconfirmed repeats start.
   */
  lemma SingleFlight(recentlySubmitted: bool, forceSubmit: bool, isSubmitting: bool, jobUrl: string)
    ensures isSubmitting ==> Admit(recentlySubmitted, forceSubmit, isSubmitting, jobUrl).Rejected?
    ensures !isSubmitting ==>
      (Admit(recentlySubmitted, forceSubmit, isSubmitting, jobUrl) == Proceed <==> (!recentlySubmitted || forceSubmit))
    ensures isSubmitting && (!recentlySubmitted || forceSubmit) ==>
      Admit(recentlySubmitted, forceSubmit, isSubmitting, jobUrl) == Rejected(Failed(InProgressError))
  {
  }

  /** The reply to a finished submission: its own response, or the error it was rejected with. */
  function Reply(outcome: Result<Response, string>): (r: Response)
    ensures outcome.Failure? ==> r.Failed? && r.error != []
    ensures outcome.Success? ==> r == outcome.value
  {
    match outcome
    case Success(response) => response
    case Failure(message) => Failed(HandlerError(message))
  }

  /** `result.success && jobUrl`: only a created page with a URL is remembered. */
  predicate Records(outcome: Result<Response, string>, jobUrl: string) {
    outcome.Success? && outcome.value.Added? && jobUrl != []
  }

  /** The handler's module state that outlives one message. */
  class Gate {
    var isSubmitting: bool
    const recent: RecentSubmissions

    ghost predicate Valid()
      reads this, recent
    {
      recent.Valid()
    }

    constructor ()
      ensures Valid() && !isSubmitting && recent.urls == [] && fresh(recent)
    {
      isSubmitting := false;
      recent := new RecentSubmissions();
    }

    /** The checks before a submission: on `Proceed` the flag is set before any work starts. */
    method Start(jobUrl: string, forceSubmit: bool) returns (a: Admission)
      requires Valid()
      modifies this
      ensures Valid()
      ensures a == Admit(jobUrl in old(recent.urls), forceSubmit, old(isSubmitting), jobUrl)
      ensures isSubmitting == (old(isSubmitting) || a == Proceed)
      ensures recent.urls == old(recent.urls)
    {
      var seen := recent.Has(jobUrl);
      if seen && !forceSubmit {
        return Rejected(NeedsConfirmation(RecentlySubmittedError, jobUrl));
      }
      if isSubmitting {
        return Rejected(Failed(InProgressError));
      }
      isSubmitting := true;
      a := Proceed;
    }

    /** The `then` and `catch` of a submission: the flag is cleared on both paths. */
    method Settle(jobUrl: string, outcome: Result<Response, string>) returns (resp: Response)
      requires Valid()
      modifies this, recent
      ensures Valid() && !isSubmitting
      ensures resp == Reply(outcome)
      ensures recent.urls == if Records(outcome, jobUrl) then Inserted(old(recent.urls), jobUrl) else old(recent.urls)
    {
      isSubmitting := false;
      if outcome.Success? {
        if outcome.value.Added? && jobUrl != [] {
          recent.Add(jobUrl);
        }
        resp := outcome.value;
      } else {
        resp := Failed(HandlerError(outcome.error));
      }
    }
  }
}
