/** The newsletter form of the call-to-action section: a two-field state
    (`email`, `isSubscribed`) changed by typing, by submitting and by the
    five-second timer that hides the thank-you message. */
module Newsletter {

  datatype NewsletterState = NewsletterState(email: string, isSubscribed: bool)

  const Initial := NewsletterState("", false)

  /** `handleSubscribe`. The guard is JavaScript truthiness of the raw string:
      only "" is rejected, so white space alone is accepted. A successful
      submit shows the thank-you message and clears the field. */
  function Subscribe(s: NewsletterState): (r: NewsletterState)
    ensures s.email == "" ==> r == s
    ensures s.email != "" ==> r.isSubscribed && r.email == ""
  {
    if s.email != "" then NewsletterState("", true) else s
  }

  /** Whether `handleSubscribe` schedules the reset timer. */
  predicate SchedulesReset(s: NewsletterState) {
    s.email != ""
  }

  /** The reset timer: hides the thank-you message and touches nothing else. */
  function ResetTimeout(s: NewsletterState): (r: NewsletterState)
    ensures !r.isSubscribed && r.email == s.email
  {
    s.(isSubscribed := false)
  }

  /** The input's `onChange`: the value is taken verbatim. */
  function TypeEmail(s: NewsletterState, value: string): (r: NewsletterState)
    ensures r.email == value && r.isSubscribed == s.isSubscribed
  {
    s.(email := value)
  }

  /** A second submit right after a successful one changes nothing: the first
      one cleared the field. */
  lemma SubscribeIdempotent(s: NewsletterState)
    ensures Subscribe(Subscribe(s)) == Subscribe(s)
    ensures !SchedulesReset(Subscribe(s))
  {
  }

  /** A white-space-only address passes the guard. */
  lemma WhitespaceAccepted(blank: string)
    requires blank != "" && forall k :: 0 <= k < |blank| ==> blank[k] == ' '
    ensures Subscribe(NewsletterState(blank, false)).isSubscribed
  {
  }

  /** The newsletter form of a mounted section. */
  class NewsletterForm {
    var email: string
    var isSubscribed: bool

    function State(): NewsletterState
      reads this
    {
      NewsletterState(email, isSubscribed)
    }

    constructor ()
      ensures State() == Initial
    {
      email, isSubscribed := "", false;
    }

    /** The form's submit handler; reports whether it scheduled the reset timer. */
    method HandleSubscribe() returns (scheduled: bool)
      modifies this
      ensures State() == Subscribe(old(State()))
      ensures scheduled == SchedulesReset(old(State()))
    {
      scheduled := false;
      if email != "" {
        isSubscribed := true;
        email := "";
        scheduled := true;
      }
    }

    method OnResetTimeout()
      modifies this`isSubscribed
      ensures State() == ResetTimeout(old(State()))
    {
      isSubscribed := false;
    }

    method OnEmailInput(value: string)
      modifies this`email
      ensures State() == TypeEmail(old(State()), value)
    {
      email := value;
    }
  }
}
