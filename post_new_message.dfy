/** The question form of src/layouts/MessagesPage/components/PostNewMessage.tsx:
    four pieces of component state and the submit handler that guards and
    then updates them. */
module PostNewMessage {
  import opened Wrappers
  import opened AuthContext

  /** The body sent to the message endpoint. */
  datatype Message = Message(title: string, question: string)

  /** The condition under which the handler posts. */
  predicate CanSubmit(a: AuthState, title: string, question: string)
  {
    a.isAuthenticated && title != "" && question != ""
  }

  class MessageForm {
    var title: string
    var question: string
    var displayWarning: bool
    var displaySuccess: bool

    function Snapshot(): FormState
      reads this
    {
      FormState(title, question, displayWarning, displaySuccess)
    }

    /** The two banners are never shown together. */
    ghost predicate Valid()
      reads this
    {
      !(displayWarning && displaySuccess)
    }

    constructor ()
      ensures Valid()
      ensures title == "" && question == "" && !displayWarning && !displaySuccess
    {
      title, question := "", "";
      displayWarning, displaySuccess := false, false;
    }

    /** The title input's `onChange`. */
    method SetTitle(text: string)
      modifies this`title
      ensures title == text
    {
      title := text;
    }

    /** The question textarea's `onChange`. */
    method SetQuestion(text: string)
      modifies this`question
      ensures question == text
    {
      question := text;
    }

    /** `submitNewQuestion`. When the guard holds, the message is sent and,
        once `post` reports success, the fields are cleared and the success
        banner raised; a failed post throws before any update. When the
        guard fails nothing is sent and only the banners change. Returns the
        message sent, if any, and the error thrown, if any. */
    method SubmitNewQuestion(auth: AuthState, post: Reply<()>) returns (sent: Option<Message>, thrown: Option<Fault>)
      requires Valid()
      modifies this
      ensures Valid()
      ensures sent.Some? <==> CanSubmit(auth, old(title), old(question))
      ensures sent.Some? ==> sent.value == Message(old(title), old(question)) && thrown == Thrown(post)
      ensures sent.None? ==> thrown.None?
      ensures Snapshot() == Submit(old(Snapshot()), auth, post)
    {
      if auth.isAuthenticated && title != "" && question != "" {
        sent := Some(Message(title, question));
        match post {
          case Ok(_) =>
            title := "";
            question := "";
            displayWarning := false;
            displaySuccess := true;
            thrown := None;
          case Failed(f) =>
            thrown := Some(f);
        }
      } else {
        sent := None;
        thrown := None;
        displayWarning := true;
        displaySuccess := false;
      }
    }
  }

  /** The four state fields of the form. */
  datatype FormState = FormState(title: string, question: string, displayWarning: bool, displaySuccess: bool)

  /** The form after one submission: posted and cleared with the success
      banner; left as it was when the post throws; or, when the guard fails,
      the warning banner alone with the fields untouched. */
  function Submit(f: FormState, auth: AuthState, post: Reply<()>): (r: FormState)
    ensures !(f.displayWarning && f.displaySuccess) ==> !(r.displayWarning && r.displaySuccess)
    ensures r != f ==> r.displayWarning != r.displaySuccess
    ensures CanSubmit(auth, f.title, f.question) && post.Ok? ==> r == FormState("", "", false, true)
    ensures !CanSubmit(auth, f.title, f.question) ==> r == f.(displayWarning := true, displaySuccess := false)
    ensures CanSubmit(auth, f.title, f.question) && post.Failed? ==> r == f
  {
    if CanSubmit(auth, f.title, f.question) then
      if post.Ok? then FormState("", "", false, true) else f
    else
      f.(displayWarning := true, displaySuccess := false)
  }

  /** Submitting again right after a success, without typing, finds empty
      fields and shows the warning instead of posting twice. */
  lemma NoDoublePost(f: FormState, auth: AuthState, post1: Reply<()>, post2: Reply<()>)
    requires CanSubmit(auth, f.title, f.question) && post1.Ok?
    ensures !CanSubmit(auth, Submit(f, auth, post1).title, Submit(f, auth, post1).question)
    ensures Submit(Submit(f, auth, post1), auth, post2) == FormState("", "", true, false)
  {
  }
}
