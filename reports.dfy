/**
 * The entities of the report log and the pure helpers of the App component:
 * the outgoing payload, the admin test, the query choice, the edit/delete
 * affordance and the two list updates applied to the local cache of rows.
 */
module Reports {
  import opened Js

  /** The one address the component treats as the administrator. */
  const AdminEmail: string := "admin@example.com"

  /** The signed-in user as handed over by the authentication backend. */
  datatype Principal = Principal(id: string, email: string)

  /**
   * One row of the `reports` table. `ownerEmail` is the joined
   * `user: user_id (email)` column that only the admin query asks for;
   * rows of the other query leave it `Undefined`.
   */
  datatype Report = Report(
    id: string,
    userId: string,
    reportAt: string,
    amount: Value,
    description: Value,
    createdAt: string,
    ownerEmail: Value)

  /** The form object: field name to value. `handleChange` may write any name. */
  type Form = map<string, Value>

  const ReportAtField: string := "report_at"
  const AmountField: string := "amount"
  const DescriptionField: string := "description"

  /** `{ report_at: '', amount: '', description: '' }` */
  const EmptyForm: Form :=
    map[ReportAtField := Str(""), AmountField := Str(""), DescriptionField := Str("")]

  /** The form holds all three fields the submit handler reads. */
  predicate Complete(f: Form) {
    ReportAtField in f && AmountField in f && DescriptionField in f
  }

  /** `form[name]`: a missing property reads as `undefined`. */
  function Field(f: Form, name: string): Value {
    if name in f then f[name] else Undefined
  }

  /** The object inserted for a new report. */
  datatype Payload = Payload(userId: string, reportAt: string, amount: Value, description: Value)

  /** The three columns an update sends; the owner column is not among them. */
  datatype Patch = Patch(reportAt: string, amount: Value, description: Value)

  /**
   * The payload built on submit. `formInstant` is the ISO text of the
   * form's `report_at` and `now` the ISO text of the current time, both
   * computed by the Date library outside this model.
   */
  function BuildPayload(u: Principal, f: Form, formInstant: string, now: string): (p: Payload)
    ensures p.userId == u.id
    ensures Truthy(Field(f, ReportAtField)) ==> p.reportAt == formInstant
    ensures !Truthy(Field(f, ReportAtField)) ==> p.reportAt == now
    ensures Truthy(Field(f, AmountField)) ==> p.amount == Field(f, AmountField)
    ensures !Truthy(Field(f, AmountField)) ==> p.amount == Num(0.0)
    ensures Truthy(Field(f, DescriptionField)) ==> p.description == Field(f, DescriptionField)
    ensures !Truthy(Field(f, DescriptionField)) ==> p.description == Str("")
  {
    Payload(
      u.id,
      if Truthy(Field(f, ReportAtField)) then formInstant else now,
      Or(Field(f, AmountField), Num(0.0)),
      Or(Field(f, DescriptionField), Str("")))
  }

  /** The update body: the payload without its owner column. */
  function PatchOf(p: Payload): Patch {
    Patch(p.reportAt, p.amount, p.description)
  }

  /**
   * Nothing the form holds besides its three fields reaches the payload,
   * so a `user_id` typed into the form cannot change the owner.
   */
  lemma PayloadIgnoresOtherFields(u: Principal, f: Form, name: string, v: Value, formInstant: string, now: string)
    requires name != ReportAtField && name != AmountField && name != DescriptionField
    ensures BuildPayload(u, f[name := v], formInstant, now) == BuildPayload(u, f, formInstant, now)
  {
  }

  /** The admin test: plain equality of the e-mail with the admin address. */
  predicate IsAdmin(u: Principal) {
    u.email == AdminEmail
  }

  /** Which select the list fetch issues; ordering and filtering happen remotely. */
  datatype Query =
    | AllReportsWithOwnerEmail
    | OwnReports(userId: string)

  function QueryFor(u: Principal): (q: Query)
    ensures q.AllReportsWithOwnerEmail? <==> IsAdmin(u)
    ensures q.OwnReports? ==> q.userId == u.id
  {
    if IsAdmin(u) then AllReportsWithOwnerEmail else OwnReports(u.id)
  }

  /** Admin status depends on the e-mail alone, never on the user id. */
  lemma AdminIsEmailOnly(u: Principal, w: Principal)
    requires u.email == w.email
    ensures IsAdmin(u) == IsAdmin(w) && QueryFor(u).AllReportsWithOwnerEmail? == QueryFor(w).AllReportsWithOwnerEmail?
  {
  }

  /** Whether the edit and delete buttons are shown for row `r`: owner only. */
  predicate CanMutate(user: Option<Principal>, r: Report) {
    user.Some? && user.value.id == r.userId
  }

  /** With no signed-in user no row offers edit or delete. */
  lemma NoUserNoMutateRight(r: Report)
    ensures !CanMutate(None, r)
  {
  }

  /**
   * For a signed-in user the affordance is ownership: two users with the
   * same id see it on the same rows whatever their e-mails, admin or not.
   */
  lemma MutateRightIsOwnership(u: Principal, w: Principal, r: Report)
    requires u.id == w.id
    ensures CanMutate(Some(u), r) == CanMutate(Some(w), r)
    ensures CanMutate(Some(u), r) <==> r.userId == u.id
  {
  }

  /** Admin status grants no edit or delete affordance on someone else's row. */
  lemma AdminGetsNoMutateRight(u: Principal, r: Report)
    requires IsAdmin(u) && r.userId != u.id
    ensures !CanMutate(Some(u), r)
  {
  }

  /**
   * Whether the row shows its owner's e-mail: the user is the admin and the
   * row carries a truthy joined e-mail. With no user it is false.
   */
  function ShowsOwnerEmail(user: Option<Principal>, r: Report): (b: bool)
    ensures b ==> user.Some? && IsAdmin(user.value) && Truthy(r.ownerEmail)
    ensures user.None? ==> !b
  {
    user.Some? && IsAdmin(user.value) && Truthy(r.ownerEmail)
  }

  /**
   * The owner-email condition as written: it reads `user.email` without a
   * null check, so it is defined only when a user is present. Where it is
   * defined it agrees with `ShowsOwnerEmail`.
   */
  function ShowsOwnerEmailAsWritten(user: Option<Principal>, r: Report): (b: bool)
    requires user.Some?
    ensures b <==> ShowsOwnerEmail(user, r)
  {
    user.value.email == AdminEmail && Truthy(r.ownerEmail)
  }

  /** `[data, ...prev]` */
  function Prepend(x: Report, rs: seq<Report>): (r: seq<Report>)
    ensures |r| == |rs| + 1 && r[0] == x && r[1..] == rs
  {
    [x] + rs
  }

  /** `prev.filter(r => r.id !== id)` */
  function Without(rs: seq<Report>, id: string): (r: seq<Report>)
    ensures |r| <= |rs|
    ensures forall x :: x in r <==> x in rs && x.id != id
    ensures forall x :: multiset(r)[x] == if x.id != id then multiset(rs)[x] else 0
  {
    if rs == [] then []
    else
      var head := if rs[0].id != id then [rs[0]] else [];
      var rest := Without(rs[1..], id);
      assert rs == [rs[0]] + rs[1..];
      assert multiset(rs) == multiset([rs[0]]) + multiset(rs[1..]);
      assert multiset(head + rest) == multiset(head) + multiset(rest);
      head + rest
  }

  /** `a` is `b` with some elements dropped and the rest in their order. */
  predicate IsSubsequence(a: seq<Report>, b: seq<Report>)
    decreases |b|
  {
    if a == [] then true
    else if b == [] then false
    else if a[0] == b[0] then IsSubsequence(a[1..], b[1..])
    else IsSubsequence(a, b[1..])
  }

  /** The filter keeps the surviving rows in their previous order. */
  lemma {:induction false} WithoutKeepsOrder(rs: seq<Report>, id: string)
    ensures IsSubsequence(Without(rs, id), rs)
    decreases |rs|
  {
    if rs != [] {
      WithoutKeepsOrder(rs[1..], id);
      if rs[0].id != id {
        assert Without(rs, id) == [rs[0]] + Without(rs[1..], id);
        assert Without(rs, id)[1..] == Without(rs[1..], id);
      } else {
        assert Without(rs, id) == Without(rs[1..], id);
        SkipHeadKeepsSubsequence(Without(rs[1..], id), rs);
      }
    }
  }

  /** A subsequence of the tail is a subsequence of the whole list. */
  lemma {:induction false} SkipHeadKeepsSubsequence(a: seq<Report>, b: seq<Report>)
    requires b != [] && IsSubsequence(a, b[1..])
    ensures IsSubsequence(a, b)
    decreases |b|, 0
  {
    if a != [] && a[0] == b[0] {
      SubsequenceTail(a, b[1..]);
    }
  }

  /** Dropping the head of a subsequence keeps it a subsequence. */
  lemma {:induction false} SubsequenceTail(a: seq<Report>, b: seq<Report>)
    requires a != [] && IsSubsequence(a, b)
    ensures IsSubsequence(a[1..], b)
    decreases |b|, 1
  {
    assert b != [];
    if a[0] == b[0] {
      assert IsSubsequence(a[1..], b[1..]);
      if a[1..] != [] {
        SkipHeadKeepsSubsequence(a[1..], b);
      }
    } else {
      SubsequenceTail(a, b[1..]);
      SkipHeadKeepsSubsequence(a[1..], b);
    }
  }

  /** Deleting an id no row carries leaves the list exactly as it was. */
  lemma {:induction false} WithoutAbsentId(rs: seq<Report>, id: string)
    requires forall x :: x in rs ==> x.id != id
    ensures Without(rs, id) == rs
    decreases |rs|
  {
    if rs != [] {
      assert rs[0] in rs;
      WithoutAbsentId(rs[1..], id);
      assert rs == [rs[0]] + rs[1..];
    }
  }

  /**
   * Insert then delete of the same fresh row: prepending a row and then
   * filtering its id out gives back the previous list.
   */
  lemma InsertThenDelete(x: Report, rs: seq<Report>)
    requires forall y :: y in rs ==> y.id != x.id
    ensures Without(Prepend(x, rs), x.id) == rs
  {
    assert Prepend(x, rs)[1..] == rs;
    WithoutAbsentId(rs, x.id);
  }
}
