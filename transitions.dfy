/**
 * The App component's state and its handlers as pure transitions. Each
 * backend call is an input to the step that awaits it (its reply), and
 * each step reports the request it sent and whether it triggered a new
 * list fetch.
 */
module Transitions {
  import opened Js
  import opened Reports

  /** A session from the authentication backend; the token is opaque. */
  datatype Session = Session(token: string, user: Principal)

  /** The `data` of a password sign-in: a session and a user, either may be null. */
  datatype AuthData = AuthData(session: Option<Session>, user: Option<Principal>)

  /** What an awaited backend call resolved to: its data, or an error message. */
  datatype Reply<T> = Ok(data: T) | Failed(message: string)

  /** A call the component makes to the backend. */
  datatype Request =
    | SignUpCall(signUpEmail: string, signUpPassword: string)
    | SignInCall(signInEmail: string, signInPassword: string)
    | SignOutCall
    | Select(query: Query)
    | Insert(payload: Payload)
    | Update(updateId: string, patch: Patch)
    | Delete(deleteId: string)

  datatype AlertKind = ErrorAlert | SuccessAlert

  /**
   * The text of an alert: a message from the backend, or one of the
   * component's fixed messages.
   */
  datatype Message =
    | BackendMessage(text: string)
    | SignInFirst
    | AccountCreated
    | SignedIn
    | SignedOut
    | Updated
    | Inserted
    | Deleted

  datatype Alert = Alert(kind: AlertKind, message: Message)

  /** The state fields of the component, apart from the loading flag. */
  datatype State = State(
    session: Option<Session>,
    user: Option<Principal>,
    reports: seq<Report>,
    form: Form,
    editing: Option<Report>,
    alert: Option<Alert>)

  /** The state of a freshly mounted component. */
  const Initial: State := State(None, None, [], EmptyForm, None, None)

  /**
   * One step's outcome: the new state, the backend call it made (if any)
   * and whether it triggered a `fetchReports` call, which then runs as a
   * step of its own.
   */
  datatype Effect = Effect(next: State, sent: Option<Request>, refetch: bool)

  function BackendError(message: string): Alert {
    Alert(ErrorAlert, BackendMessage(message))
  }

  /** `data.session?.user ?? null` */
  function UserOf(session: Option<Session>): (u: Option<Principal>)
    ensures u.Some? <==> session.Some?
    ensures u.Some? ==> u.value == session.value.user
  {
    match session
    case Some(sn) => Some(sn.user)
    case None => None
  }

  /**
   * The initial `getSession` at mount: session and user are taken from the
   * restored session; a present user triggers the list fetch through the
   * effect that watches `user`.
   */
  function RestoreStep(s: State, restored: Option<Session>): (e: Effect)
    ensures e.next.session == restored && e.next.user == UserOf(restored)
    ensures e.next.reports == s.reports && e.next.form == s.form
    ensures e.next.editing == s.editing && e.next.alert == s.alert
    ensures e.sent.None? && (e.refetch <==> restored.Some?)
  {
    Effect(s.(session := restored, user := UserOf(restored)), None, restored.Some?)
  }

  /**
   * The `onAuthStateChange` listener body as it is evidently meant: session
   * and user follow the event's session; a null session clears the list, a
   * present one asks for a fetch.
   */
  function AuthChangeStep(s: State, session: Option<Session>): (e: Effect)
    ensures e.next.session == session && e.next.user == UserOf(session)
    ensures session.None? ==> e.next.user.None? && e.next.reports == []
    ensures session.Some? ==> e.next.reports == s.reports && e.refetch
    ensures e.next.form == s.form && e.next.editing == s.editing && e.next.alert == s.alert
    ensures e.sent.None?
  {
    if session.Some? then
      Effect(s.(session := session, user := UserOf(session)), None, true)
    else
      Effect(s.(session := None, user := None, reports := []), None, false)
  }

  /**
   * The `onAuthStateChange` listener body as written. The auth library calls
   * it with the session itself (or null) as its second argument, and the
   * body reads `.session` of that argument. For a session object that
   * property is undefined: `session` becomes undefined, `user` null, the
   * list is cleared and no fetch is made. For a null argument the read
   * throws before any setter runs, so nothing changes.
   */
  function AuthChangeStepAsWritten(s: State, session: Option<Session>): (e: Effect)
    ensures session.None? ==> e.next == s
    ensures session.Some? ==> e.next.session.None? && e.next.user.None? && e.next.reports == []
    ensures e.next.form == s.form && e.next.editing == s.editing && e.next.alert == s.alert
    ensures e.sent.None? && !e.refetch
  {
    if session.Some? then
      Effect(s.(session := None, user := None, reports := []), None, false)
    else
      Effect(s, None, false)
  }

  /**
   * The two listener bodies disagree on every event: as written a present
   * session (a token refresh, say) signs the user out locally and
   * empties the list, and a signed-out event leaves the user and the list
   * in place, while the intended body does the opposite.
   */
  lemma ListenerAsWrittenInvertsIntended(s: State, sn: Session)
    requires s.user.Some? && s.reports != []
    ensures AuthChangeStep(s, Some(sn)).next.user == Some(sn.user)
    ensures AuthChangeStepAsWritten(s, Some(sn)).next.user.None?
    ensures AuthChangeStepAsWritten(s, Some(sn)).next.reports == [] && !AuthChangeStepAsWritten(s, Some(sn)).refetch
    ensures AuthChangeStep(s, None).next.reports == [] && AuthChangeStep(s, None).next.user.None?
    ensures AuthChangeStepAsWritten(s, None).next.reports == s.reports && AuthChangeStepAsWritten(s, None).next.user == s.user
  {
  }

  /** `signUp`: only the alert changes, whatever the backend answers. */
  function SignUpStep(s: State, email: string, password: string, reply: Reply<()>): (e: Effect)
    ensures e.sent == Some(SignUpCall(email, password)) && !e.refetch
    ensures e.next.(alert := s.alert) == s
    ensures e.next.alert.Some?
    ensures e.next.alert.value.kind == ErrorAlert <==> reply.Failed?
  {
    match reply
    case Failed(m) => Effect(s.(alert := Some(BackendError(m))), Some(SignUpCall(email, password)), false)
    case Ok(_) => Effect(s.(alert := Some(Alert(SuccessAlert, AccountCreated))), Some(SignUpCall(email, password)), false)
  }

  /**
   * `signIn`: on an error only the alert changes; on success session and
   * user are the returned ones.
   */
  function SignInStep(s: State, email: string, password: string, reply: Reply<AuthData>): (e: Effect)
    ensures e.sent == Some(SignInCall(email, password))
    ensures reply.Failed? ==> e.next == s.(alert := Some(BackendError(reply.message))) && !e.refetch
    ensures reply.Ok? ==> e.next.session == reply.data.session && e.next.user == reply.data.user
    ensures reply.Ok? ==> e.next.alert == Some(Alert(SuccessAlert, SignedIn))
    ensures reply.Ok? ==> (e.refetch <==> reply.data.user.Some?)
    ensures e.next.reports == s.reports && e.next.form == s.form && e.next.editing == s.editing
  {
    match reply
    case Failed(m) =>
      Effect(s.(alert := Some(BackendError(m))), Some(SignInCall(email, password)), false)
    case Ok(d) =>
      Effect(s.(session := d.session, user := d.user, alert := Some(Alert(SuccessAlert, SignedIn))),
             Some(SignInCall(email, password)), d.user.Some?)
  }

  /**
   * `signOut`: the resolved reply is ignored; session and user end null
   * and nothing else but the alert changes.
   */
  function SignOutStep(s: State, reply: Reply<()>): (e: Effect)
    ensures e.next.session.None? && e.next.user.None?
    ensures e.next.alert == Some(Alert(SuccessAlert, SignedOut))
    ensures e.next.reports == s.reports && e.next.form == s.form && e.next.editing == s.editing
    ensures e.sent == Some(SignOutCall) && !e.refetch
  {
    Effect(s.(session := None, user := None, alert := Some(Alert(SuccessAlert, SignedOut))), Some(SignOutCall), false)
  }

  /** Signing out twice ends where signing out once does, whatever either resolved reply was. */
  lemma SignOutIdempotent(s: State, first: Reply<()>, second: Reply<()>)
    ensures SignOutStep(SignOutStep(s, first).next, second).next == SignOutStep(s, first).next
    ensures SignOutStep(s, first) == SignOutStep(s, second)
  {
  }

  /**
   * `fetchReports`: without a user nothing happens; otherwise the query
   * kind follows the admin test, an error only sets the alert and success
   * replaces the list by `data ?? []`.
   */
  function FetchStep(s: State, reply: Reply<Option<seq<Report>>>): (e: Effect)
    ensures s.user.None? ==> e.next == s && e.sent.None?
    ensures s.user.Some? ==> e.sent == Some(Select(QueryFor(s.user.value)))
    ensures reply.Failed? ==> e.next.reports == s.reports
    ensures s.user.Some? && reply.Failed? ==> e.next.alert == Some(BackendError(reply.message))
    ensures s.user.Some? && reply.Ok? ==> e.next.reports == reply.data.GetOr([]) && e.next.alert == s.alert
    ensures e.next.(reports := s.reports, alert := s.alert) == s
    ensures !e.refetch
  {
    match s.user
    case None => Effect(s, None, false)
    case Some(u) =>
      match reply
      case Failed(m) => Effect(s.(alert := Some(BackendError(m))), Some(Select(QueryFor(u))), false)
      case Ok(data) => Effect(s.(reports := data.GetOr([])), Some(Select(QueryFor(u))), false)
  }

  /**
   * `createOrUpdate`. Without a user only an error alert is set. With a
   * row being edited, an update of that row's three columns is sent; an
   * error keeps everything but the alert, success clears the edit and the
   * form and leaves the list to the following fetch. Otherwise the payload
   * is inserted; an error keeps everything but the alert, success
   * prepends the returned row and clears the form.
   */
  function SubmitStep(s: State, formInstant: string, now: string, insertReply: Reply<Report>, updateReply: Reply<()>): (e: Effect)
    ensures s.user.None? ==> e == Effect(s.(alert := Some(Alert(ErrorAlert, SignInFirst))), None, false)
    ensures e.next.session == s.session && e.next.user == s.user
    ensures e.sent.Some? && e.sent.value.Insert? ==>
              s.user.Some? && e.sent.value == Insert(BuildPayload(s.user.value, s.form, formInstant, now))
    ensures e.sent.Some? && e.sent.value.Update? ==>
              s.user.Some? && s.editing.Some? && e.sent.value.updateId == s.editing.value.id
              && e.sent.value.patch == PatchOf(BuildPayload(s.user.value, s.form, formInstant, now))
    ensures s.user.Some? ==> e.sent.Some? && (e.sent.value.Update? <==> s.editing.Some?)
    ensures s.user.Some? && s.editing.Some? && updateReply.Failed? ==>
              e.next == s.(alert := Some(BackendError(updateReply.message))) && !e.refetch
    ensures s.user.Some? && s.editing.Some? && updateReply.Ok? ==>
              e.next == s.(alert := Some(Alert(SuccessAlert, Updated)), editing := None, form := EmptyForm) && e.refetch
    ensures s.user.Some? && s.editing.None? && insertReply.Failed? ==>
              e.next == s.(alert := Some(BackendError(insertReply.message))) && !e.refetch
    ensures s.user.Some? && s.editing.None? && insertReply.Ok? ==>
              e.next == s.(alert := Some(Alert(SuccessAlert, Inserted)), reports := [insertReply.data] + s.reports, form := EmptyForm)
              && e.refetch
  {
    match s.user
    case None => Effect(s.(alert := Some(Alert(ErrorAlert, SignInFirst))), None, false)
    case Some(u) =>
      var payload := BuildPayload(u, s.form, formInstant, now);
      match s.editing
      case Some(item) =>
        var sent := Some(Update(item.id, PatchOf(payload)));
        (match updateReply
         case Failed(m) => Effect(s.(alert := Some(BackendError(m))), sent, false)
         case Ok(_) => Effect(s.(alert := Some(Alert(SuccessAlert, Updated)), editing := None, form := EmptyForm), sent, true))
      case None =>
        var sent := Some(Insert(payload));
        (match insertReply
         case Failed(m) => Effect(s.(alert := Some(BackendError(m))), sent, false)
         case Ok(row) =>
           Effect(s.(alert := Some(Alert(SuccessAlert, Inserted)), reports := Prepend(row, s.reports), form := EmptyForm), sent, true))
  }

  /**
   * `remove`: an unconfirmed dialog does nothing; otherwise a delete by id
   * is sent, an error only sets the alert and success filters the id out
   * of the list.
   */
  function RemoveStep(s: State, id: string, confirmed: bool, reply: Reply<()>): (e: Effect)
    ensures !confirmed ==> e == Effect(s, None, false)
    ensures confirmed ==> e.sent == Some(Delete(id))
    ensures confirmed && reply.Failed? ==> e.next == s.(alert := Some(BackendError(reply.message)))
    ensures confirmed && reply.Ok? ==> e.next.alert == Some(Alert(SuccessAlert, Deleted))
    ensures confirmed && reply.Ok? ==> e.next.reports == Without(s.reports, id)
    ensures confirmed && reply.Ok? ==> forall r :: r in e.next.reports ==> r.id != id
    ensures confirmed && reply.Ok? ==> forall r :: r in s.reports && r.id != id ==> r in e.next.reports
    ensures |e.next.reports| <= |s.reports| && IsSubsequence(e.next.reports, s.reports)
    ensures e.next.(reports := s.reports, alert := s.alert) == s
    ensures !e.refetch
  {
    if !confirmed then
      assert IsSubsequence(s.reports, s.reports) by { SubsequenceRefl(s.reports); }
      Effect(s, None, false)
    else
      match reply
      case Failed(m) =>
        assert IsSubsequence(s.reports, s.reports) by { SubsequenceRefl(s.reports); }
        Effect(s.(alert := Some(BackendError(m))), Some(Delete(id)), false)
      case Ok(_) =>
        WithoutKeepsOrder(s.reports, id);
        Effect(s.(reports := Without(s.reports, id), alert := Some(Alert(SuccessAlert, Deleted))), Some(Delete(id)), false)
  }

  /** Every list is a subsequence of itself. */
  lemma {:induction false} SubsequenceRefl(rs: seq<Report>)
    ensures IsSubsequence(rs, rs)
    decreases |rs|
  {
    if rs != [] {
      SubsequenceRefl(rs[1..]);
    }
  }

  /** `handleChange`: only the named form field changes, to the new value. */
  function ChangeStep(s: State, name: string, value: Value): (e: Effect)
    ensures e.next.form.Keys == s.form.Keys + {name}
    ensures Field(e.next.form, name) == value
    ensures forall k :: k in s.form && k != name ==> e.next.form[k] == s.form[k]
    ensures e.next.(form := s.form) == s
    ensures e.sent.None? && !e.refetch
  {
    Effect(s.(form := s.form[name := value]), None, false)
  }

  /**
   * `startEdit`: the row becomes the one being edited and the form holds
   * its three columns; `localTime` is the row's `report_at` formatted for
   * the date-time input by the date library.
   */
  function StartEditStep(s: State, item: Report, localTime: string): (e: Effect)
    ensures e.next.editing == Some(item)
    ensures e.next.form.Keys == {ReportAtField, AmountField, DescriptionField}
    ensures Field(e.next.form, ReportAtField) == Str(localTime)
    ensures Field(e.next.form, AmountField) == item.amount
    ensures Field(e.next.form, DescriptionField) == item.description
    ensures e.next.(form := s.form, editing := s.editing) == s
    ensures e.sent.None? && !e.refetch
  {
    Effect(s.(editing := Some(item),
              form := map[ReportAtField := Str(localTime), AmountField := item.amount, DescriptionField := item.description]),
           None, false)
  }

  /** The cancel button: no row is being edited and the form is empty again. */
  function CancelStep(s: State): (e: Effect)
    ensures e.next.editing.None? && e.next.form == EmptyForm
    ensures e.next.(form := s.form, editing := s.editing) == s
    ensures e.sent.None? && !e.refetch
  {
    Effect(s.(editing := None, form := EmptyForm), None, false)
  }

  /** One handler invocation, together with what its awaited calls resolved to. */
  datatype Event =
    | Restored(restored: Option<Session>)
    | AuthChanged(changed: Option<Session>)
    | SignUp(upEmail: string, upPassword: string, signUpReply: Reply<()>)
    | SignIn(inEmail: string, inPassword: string, signInReply: Reply<AuthData>)
    | SignOut(signOutReply: Reply<()>)
    | FetchReports(fetchReply: Reply<Option<seq<Report>>>)
    | Submit(formInstant: string, now: string, insertReply: Reply<Report>, updateReply: Reply<()>)
    | Remove(removeId: string, confirmed: bool, removeReply: Reply<()>)
    | Change(name: string, value: Value)
    | StartEdit(item: Report, localTime: string)
    | CancelEdit

  /**
   * The rows a step's replies hand to the component: those of a fetch that
   * was sent (a user is present) and the row of an insert that was sent (a
   * user is present and no row is being edited). Replies to calls a step
   * does not make deliver nothing.
   */
  function Delivered(s: State, ev: Event): set<Report> {
    match ev
    case FetchReports(Ok(Some(rows))) => if s.user.Some? then set r | r in rows else {}
    case Submit(_, _, Ok(row), _) => if s.user.Some? && s.editing.None? then {row} else {}
    case _ => {}
  }

  function Step(s: State, ev: Event): (e: Effect)
    ensures forall r :: r in e.next.reports ==> r in s.reports || r in Delivered(s, ev)
    ensures Complete(s.form) ==> Complete(e.next.form)
  {
    match ev
    case Restored(restored) => RestoreStep(s, restored)
    case AuthChanged(session) => AuthChangeStepAsWritten(s, session)
    case SignUp(email, password, reply) => SignUpStep(s, email, password, reply)
    case SignIn(email, password, reply) => SignInStep(s, email, password, reply)
    case SignOut(reply) => SignOutStep(s, reply)
    case FetchReports(reply) => FetchStep(s, reply)
    case Submit(formInstant, now, insertReply, updateReply) => SubmitStep(s, formInstant, now, insertReply, updateReply)
    case Remove(id, confirmed, reply) => RemoveStep(s, id, confirmed, reply)
    case Change(name, value) => ChangeStep(s, name, value)
    case StartEdit(item, localTime) => StartEditStep(s, item, localTime)
    case CancelEdit => CancelStep(s)
  }

  /** The state after a sequence of handler invocations, one after another. */
  function Run(s: State, evs: seq<Event>): State
    decreases |evs|
  {
    if evs == [] then s else Run(Step(s, evs[0]).next, evs[1..])
  }

  /** The rows handed over by the replies of a whole sequence of steps run from `s`. */
  function DeliveredAll(s: State, evs: seq<Event>): set<Report>
    decreases |evs|
  {
    if evs == [] then {} else Delivered(s, evs[0]) + DeliveredAll(Step(s, evs[0]).next, evs[1..])
  }

  /**
   * The local list is only a cache: every row it holds was already there
   * or was returned by the backend, by a fetch or an insert the component
   * actually sent, along the way.
   */
  lemma {:induction false} CacheHoldsOnlyDeliveredRows(s: State, evs: seq<Event>)
    ensures forall r :: r in Run(s, evs).reports ==> r in s.reports || r in DeliveredAll(s, evs)
    decreases |evs|
  {
    if evs != [] {
      CacheHoldsOnlyDeliveredRows(Step(s, evs[0]).next, evs[1..]);
    }
  }

  /** The form always holds the three fields the submit handler reads. */
  lemma {:induction false} FormStaysComplete(s: State, evs: seq<Event>)
    requires Complete(s.form)
    ensures Complete(Run(s, evs).form)
    decreases |evs|
  {
    if evs != [] {
      FormStaysComplete(Step(s, evs[0]).next, evs[1..]);
    }
  }

  /**
   * Editing a row whose edit button is shown (its owner is the user) and
   * submitting sends an update of exactly that row, owned by the user,
   * carrying the form's columns: the row's amount and description unless
   * falsy, and the edited instant unless the formatted date is empty.
   */
  lemma EditOfGatedRowUpdatesOwnRow(s: State, r: Report, localTime: string, formInstant: string, now: string,
                                    insertReply: Reply<Report>, updateReply: Reply<()>)
    requires CanMutate(s.user, r)
    ensures s.user.Some? && r.userId == s.user.value.id
    ensures SubmitStep(StartEditStep(s, r, localTime).next, formInstant, now, insertReply, updateReply).sent
            == Some(Update(r.id, Patch(if localTime != "" then formInstant else now,
                                       Or(r.amount, Num(0.0)), Or(r.description, Str("")))))
  {
    var t := StartEditStep(s, r, localTime).next;
    assert Field(t.form, ReportAtField) == Str(localTime);
  }

  /**
   * A successful insert of a row with a fresh id, followed by a confirmed
   * and successful delete of that id, leaves the list as it was.
   */
  lemma InsertThenRemoveRestoresList(s: State, formInstant: string, now: string, row: Report, updateReply: Reply<()>)
    requires s.user.Some? && s.editing.None?
    requires forall r :: r in s.reports ==> r.id != row.id
    ensures RemoveStep(SubmitStep(s, formInstant, now, Ok(row), updateReply).next, row.id, true, Ok(())).next.reports == s.reports
  {
    var mid := SubmitStep(s, formInstant, now, Ok(row), updateReply).next;
    assert mid.reports == Prepend(row, s.reports);
    InsertThenDelete(row, s.reports);
  }

  /**
   * As written, the row list reads `user.email` for every row without
   * checking `user`, so rendering a state is defined only when the list is
   * empty or a user is present.
   */
  predicate ListRenderDefinedAsWritten(s: State) {
    s.reports == [] || s.user.Some?
  }

  /**
   * The rendering of the row list is defined exactly when the owner-label
   * condition as written may be evaluated for every listed row.
   */
  lemma RenderDefinedIffEveryLabelDefined(s: State)
    ensures ListRenderDefinedAsWritten(s) <==> forall r :: r in s.reports ==> ShowsOwnerEmailAsWritten.requires(s.user, r)
  {
    if !ListRenderDefinedAsWritten(s) {
      assert s.reports[0] in s.reports;
    }
  }

  /** Running a step and then the rest of a sequence. */
  lemma RunCons(s: State, ev: Event, evs: seq<Event>)
    ensures Run(s, [ev] + evs) == Run(Step(s, ev).next, evs)
  {
    assert ([ev] + evs)[1..] == evs;
  }

  /**
   * A signed-in user whose list was fetched signs out, whatever the
   * resolved reply, and the signed-out event follows. The listener as
   * written throws on that event, so the user is null while the old rows
   * are still listed, and the list rendering reads `user.email` on null.
   */
  lemma SignOutLeavesRowsWithoutUser(token: string, u: Principal, row: Report, reply: Reply<()>)
    ensures var evs := [Restored(Some(Session(token, u))), FetchReports(Ok(Some([row]))), SignOut(reply), AuthChanged(None)];
            var s := Run(Initial, evs);
            s.user.None? && s.reports == [row] && !ListRenderDefinedAsWritten(s)
  {
    var e1, e2, e3, e4 := Restored(Some(Session(token, u))), FetchReports(Ok(Some([row]))), SignOut(reply), AuthChanged(None);
    var s1 := RestoreStep(Initial, Some(Session(token, u))).next;
    assert s1.user == Some(u);
    var s2 := FetchStep(s1, Ok(Some([row]))).next;
    assert s2.reports == [row];
    var s3 := SignOutStep(s2, reply).next;
    var s4 := AuthChangeStepAsWritten(s3, None).next;
    assert s4.user.None? && s4.reports == [row];
    RunCons(s3, e4, []);
    assert [e4] + [] == [e4];
    RunCons(s2, e3, [e4]);
    RunCons(s1, e2, [e3, e4]);
    assert [e2] + [e3, e4] == [e2, e3, e4];
    RunCons(Initial, e1, [e2, e3, e4]);
    assert [e1] + [e2, e3, e4] == [e1, e2, e3, e4];
  }

  /**
   * An event with a present session that no call of the component causes,
   * such as a token refresh, on a signed-in user whose list was fetched:
   * the listener as written signs the user out locally and empties the list.
   */
  lemma RefreshEventDropsUser(token: string, u: Principal, row: Report, refreshed: Session)
    ensures var s := Run(Initial, [Restored(Some(Session(token, u))), FetchReports(Ok(Some([row]))), AuthChanged(Some(refreshed))]);
            s.user.None? && s.session.None? && s.reports == []
  {
    var e1, e2, e3 := Restored(Some(Session(token, u))), FetchReports(Ok(Some([row]))), AuthChanged(Some(refreshed));
    var s1 := RestoreStep(Initial, Some(Session(token, u))).next;
    assert s1.user == Some(u);
    var s2 := FetchStep(s1, Ok(Some([row]))).next;
    var s3 := AuthChangeStepAsWritten(s2, Some(refreshed)).next;
    assert s3.user.None? && s3.session.None? && s3.reports == [];
    RunCons(s2, e3, []);
    assert [e3] + [] == [e3];
    RunCons(s1, e2, [e3]);
    assert [e2] + [e3] == [e2, e3];
    RunCons(Initial, e1, [e2, e3]);
    assert [e1] + [e2, e3] == [e1, e2, e3];
  }

  /**
   * A successful sign-in and the library's event for the new session, in
   * either order. When the event comes first the sign-in's setters repair
   * session and user, the list is left empty and a fetch follows; when it
   * comes after them the user is signed out locally and the list emptied.
   */
  lemma SignInEventOrder(s: State, email: string, password: string, sn: Session)
    ensures var a := AuthChangeStepAsWritten(s, Some(sn)).next;
            var b := SignInStep(a, email, password, Ok(AuthData(Some(sn), Some(sn.user))));
            b.next.session == Some(sn) && b.next.user == Some(sn.user) && b.next.reports == [] && b.refetch
    ensures var t := Run(s, [AuthChanged(Some(sn)), SignIn(email, password, Ok(AuthData(Some(sn), Some(sn.user))))]);
            t.session == Some(sn) && t.user == Some(sn.user) && t.reports == []
    ensures var t := Run(s, [SignIn(email, password, Ok(AuthData(Some(sn), Some(sn.user)))), AuthChanged(Some(sn))]);
            t.user.None? && t.session.None? && t.reports == []
  {
    var signIn, changed := SignIn(email, password, Ok(AuthData(Some(sn), Some(sn.user)))), AuthChanged(Some(sn));
    var a := AuthChangeStepAsWritten(s, Some(sn)).next;
    RunCons(SignInStep(a, email, password, Ok(AuthData(Some(sn), Some(sn.user)))).next, signIn, []);
    RunCons(a, signIn, []);
    assert [signIn] + [] == [signIn];
    RunCons(s, changed, [signIn]);
    assert [changed] + [signIn] == [changed, signIn];
    var s1 := SignInStep(s, email, password, Ok(AuthData(Some(sn), Some(sn.user)))).next;
    RunCons(s1, changed, []);
    assert [changed] + [] == [changed];
    RunCons(s, signIn, [changed]);
    assert [signIn] + [changed] == [signIn, changed];
  }
}
