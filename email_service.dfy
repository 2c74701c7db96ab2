/** `EmailService.send_cv_pdf` (celery_tasks/services/email_service.py). */
module EmailService {
  import opened Wrappers
  import opened Celery
  import Text
  import ViewHandlers

  const RecipientRequired := "Valid email address is required"

  /** The service's own recipient check: non-empty and containing `'@'`. */
  predicate RecipientAccepted(recipient: Option<string>) {
    recipient.Some? && recipient.value != "" && '@' in recipient.value
  }

  /**
   * `send_cv_pdf(cv_id, recipient)`: the recipient check, then the Celery task's `.delay`, whose
   * exception message becomes the error.
   */
  function SendCvPdf(recipient: Option<string>, enqueue: Enqueue): (r: Result<string, string>)
    ensures !RecipientAccepted(recipient) ==> r == Err(RecipientRequired)
    ensures RecipientAccepted(recipient) && enqueue.Queued? ==> r == Ok("PDF will be sent to " + recipient.value)
    ensures RecipientAccepted(recipient) && enqueue.EnqueueRaised? ==> r == Err(enqueue.message)
  {
    if recipient.None? || recipient.value == "" || '@' !in recipient.value then Err(RecipientRequired)
    else
      match enqueue
      case Queued(_) => Ok("PDF will be sent to " + recipient.value)
      case EnqueueRaised(msg) => Err(msg)
  }

  /** Every recipient the web form's format check accepts, the service accepts too. */
  lemma FormCheckImpliesServiceCheck(recipient: string)
    requires ViewHandlers.EmailFormatValid(recipient)
    ensures RecipientAccepted(Some(recipient))
  {
  }

  /** The converse fails: `a@b` has no `'.'` after its `'@'` but passes the service's check. */
  lemma ServiceCheckIsWeaker()
    ensures RecipientAccepted(Some("a@b")) && !ViewHandlers.EmailFormatValid("a@b")
  {
    assert "a@b"[..2] == "a@";
    assert Text.AfterLast("a@", '@') == [];
    assert Text.AfterLast("a@b", '@') == "b";
  }
}
