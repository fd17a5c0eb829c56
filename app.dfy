/**
 * The App component as an object whose handlers update its state fields
 * one setter after another. Every handler is one atomic step: the replies
 * of the backend calls it awaits are its inputs, and its effect on the
 * fields is the corresponding step of `Transitions`.
 */
module AppComponent {
  import opened Js
  import opened Reports
  import opened Transitions

  class App {
    var session: Option<Session>
    var user: Option<Principal>
    var reports: seq<Report>
    var form: Form
    var editing: Option<Report>
    var alert: Option<Alert>

    /** The fields as one value of the pure model. */
    function Snapshot(): State
      reads this
    {
      State(session, user, reports, form, editing, alert)
    }

    /** The component on mount: no session, no rows, an empty form. */
    constructor ()
      ensures Snapshot() == Initial
    {
      session := None;
      user := None;
      reports := [];
      form := EmptyForm;
      editing := None;
      alert := None;
    }

    /** The `getSession` call made on mount, once it resolves. */
    method RestoreSession(restored: Option<Session>) returns (refetch: bool)
      modifies this
      ensures var e := RestoreStep(old(Snapshot()), restored);
              Snapshot() == e.next && refetch == e.refetch
    {
      session := restored;
      user := UserOf(restored);
      refetch := user.Some?;
    }

    /**
     * The `onAuthStateChange` listener body as written. Its argument is the
     * session the library passes; the body reads `.session` of it.
     */
    method OnAuthStateChange(changed: Option<Session>) returns (refetch: bool)
      modifies this
      ensures var e := AuthChangeStepAsWritten(old(Snapshot()), changed);
              Snapshot() == e.next && refetch == e.refetch
      ensures changed.Some? ==> user.None? && reports == []
      ensures changed.None? ==> Snapshot() == old(Snapshot())
    {
      refetch := false;
      if changed.None? {
        // reading `.session` of null throws before any setter runs
        return;
      }
      // `.session` of a session object is undefined
      session := None;
      user := None;
      reports := [];
    }

    method SignUp(email: string, password: string, reply: Reply<()>) returns (sent: Request)
      modifies this
      ensures var e := SignUpStep(old(Snapshot()), email, password, reply);
              Snapshot() == e.next && Some(sent) == e.sent
    {
      sent := SignUpCall(email, password);
      if reply.Failed? {
        alert := Some(BackendError(reply.message));
        return;
      }
      alert := Some(Alert(SuccessAlert, AccountCreated));
    }

    method SignIn(email: string, password: string, reply: Reply<AuthData>) returns (sent: Request, refetch: bool)
      modifies this
      ensures var e := SignInStep(old(Snapshot()), email, password, reply);
              Snapshot() == e.next && Some(sent) == e.sent && refetch == e.refetch
      ensures reply.Failed? ==> session == old(session) && user == old(user)
    {
      sent := SignInCall(email, password);
      refetch := false;
      if reply.Failed? {
        alert := Some(BackendError(reply.message));
        return;
      }
      session := reply.data.session;
      user := reply.data.user;
      alert := Some(Alert(SuccessAlert, SignedIn));
      refetch := user.Some?;
    }

    method SignOut(reply: Reply<()>) returns (sent: Request)
      modifies this
      ensures var e := SignOutStep(old(Snapshot()), reply);
              Snapshot() == e.next && Some(sent) == e.sent
      ensures session.None? && user.None?
    {
      sent := SignOutCall;
      session := None;
      user := None;
      alert := Some(Alert(SuccessAlert, SignedOut));
    }

    method FetchReports(reply: Reply<Option<seq<Report>>>) returns (sent: Option<Request>)
      modifies this
      ensures var e := FetchStep(old(Snapshot()), reply);
              Snapshot() == e.next && sent == e.sent
      ensures old(user).None? ==> Snapshot() == old(Snapshot())
    {
      if user.None? {
        sent := None;
        return;
      }
      sent := Some(Select(QueryFor(user.value)));
      if reply.Failed? {
        alert := Some(BackendError(reply.message));
        return;
      }
      reports := reply.data.GetOr([]);
    }

    method HandleChange(name: string, value: Value)
      modifies this
      ensures Snapshot() == ChangeStep(old(Snapshot()), name, value).next
      ensures form == old(form)[name := value]
    {
      form := form[name := value];
    }

    method CreateOrUpdate(formInstant: string, now: string, insertReply: Reply<Report>, updateReply: Reply<()>)
      returns (sent: Option<Request>, refetch: bool)
      modifies this
      ensures var e := SubmitStep(old(Snapshot()), formInstant, now, insertReply, updateReply);
              Snapshot() == e.next && sent == e.sent && refetch == e.refetch
      ensures sent.Some? && sent.value.Insert? ==> sent.value.payload.userId == old(user).value.id
    {
      sent, refetch := None, false;
      if user.None? {
        alert := Some(Alert(ErrorAlert, SignInFirst));
        return;
      }
      var payload := BuildPayload(user.value, form, formInstant, now);
      if editing.Some? {
        sent := Some(Update(editing.value.id, PatchOf(payload)));
        if updateReply.Failed? {
          alert := Some(BackendError(updateReply.message));
          return;
        }
        alert := Some(Alert(SuccessAlert, Updated));
        editing := None;
      } else {
        sent := Some(Insert(payload));
        if insertReply.Failed? {
          alert := Some(BackendError(insertReply.message));
          return;
        }
        alert := Some(Alert(SuccessAlert, Inserted));
        reports := Prepend(insertReply.data, reports);
      }
      form := EmptyForm;
      refetch := true;
    }

    method StartEdit(item: Report, localTime: string)
      modifies this
      ensures Snapshot() == StartEditStep(old(Snapshot()), item, localTime).next
    {
      editing := Some(item);
      form := map[ReportAtField := Str(localTime), AmountField := item.amount, DescriptionField := item.description];
    }

    /** The cancel button shown while a row is being edited. */
    method Cancel()
      modifies this
      ensures Snapshot() == CancelStep(old(Snapshot())).next
    {
      editing := None;
      form := EmptyForm;
    }

    method Remove(id: string, confirmed: bool, reply: Reply<()>) returns (sent: Option<Request>)
      modifies this
      ensures var e := RemoveStep(old(Snapshot()), id, confirmed, reply);
              Snapshot() == e.next && sent == e.sent
      ensures forall r :: r in reports ==> r in old(reports)
    {
      if !confirmed {
        sent := None;
        return;
      }
      sent := Some(Delete(id));
      if reply.Failed? {
        alert := Some(BackendError(reply.message));
        return;
      }
      reports := Without(reports, id);
      alert := Some(Alert(SuccessAlert, Deleted));
    }
  }
}
