/** The product screen's editor session as a state machine.

    The page keeps three pieces of state, `modalOpen`, `modalTitle` and
    `selectedProduct`; the modal form keeps the values of its four inputs. Each user
    event is one atomic transition (the page's setters are batched), followed at once
    by the two effects the page declares: the page clears the title and the bound
    record whenever `modalOpen` turns false, and the form copies a non-empty bound
    record into its inputs, or resets them when the modal is closed, whenever the open
    flag or the bound record changes. Dispatches to the product store are emitted as
    action values.
 */
module Editor {
  import opened Records
  import opened Roles
  import opened Titles
  import opened Validation

  /** `(modalOpen, modalTitle, selectedProduct)` plus the form's input values. */
  datatype Session = Session(open: bool, title: string, selected: Record, form: Fields)

  /** The three store operations the editor dispatches. */
  datatype Action =
    | AddProduct(values: Fields)
    | UpdateProduct(id: Option<string>, values: Fields)
    | DeleteProduct(id: Option<string>, name: Option<string>)

  /** What the user can do on the screen. */
  datatype Event =
    | EditClicked(row: Record)
    | ViewClicked(row: Record)
    | DeleteClicked(row: Record)
    | AddClicked
    | CancelClicked
    | ModalDismissed
    | Typed(field: FieldName, text: string)
    | Submitted

  /** One transition's result: the new session, the actions dispatched and the
      validation messages surfaced. */
  datatype Outcome = Outcome(session: Session, dispatched: seq<Action>, errors: seq<FieldError>)

  /** The state on first render: closed, empty title, `{}` bound, empty inputs. */
  const Initial := Session(false, "", EmptyRecord, EmptyFields)

  /** A closed session keeps nothing from the last one. */
  ghost predicate Cleared(s: Session)
  {
    s.title == "" && s.selected == EmptyRecord && s.form == EmptyFields
  }

  /** The invariant of every session the screen can reach. */
  ghost predicate Consistent(s: Session)
  {
    !s.open ==> Cleared(s)
  }

  /** `Update ${record.name}`: an editable title whose tail is the row's name. */
  function EditTitle(row: Record): (t: string)
    ensures FirstWord(t) == "Update" && !IsReadOnly(t) && ShowsFooter(t) && t != AddTitle
    ensures |t| >= 7 && t[7..] == Interpolate(Get(row, "name"))
    ensures "name" !in row ==> t == "Update undefined"
  {
    var t := "Update " + Interpolate(Get(row, "name"));
    FirstWordOfComposite("Update", Interpolate(Get(row, "name")));
    assert "Update" + [Space] + Interpolate(Get(row, "name")) == t;
    t
  }

  /** `View ${record.name}`: a read-only title whose tail is the row's name. */
  function ViewTitle(row: Record): (t: string)
    ensures IsReadOnly(t) && !ShowsFooter(t) && t != AddTitle
    ensures |t| >= 5 && t[5..] == Interpolate(Get(row, "name"))
    ensures "name" !in row ==> t == "View undefined"
  {
    var t := "View " + Interpolate(Get(row, "name"));
    FirstWordOfComposite("View", Interpolate(Get(row, "name")));
    assert "View" + [Space] + Interpolate(Get(row, "name")) == t;
    t
  }

  /** `form.setFieldsValue(o)`: inputs whose key `o` has take its value; the others
      keep theirs. */
  function Populate(form: Fields, o: Record): (g: Fields)
    ensures forall n :: Key(n) in o ==> Value(g, n) == o[Key(n)]
    ensures forall n :: Key(n) !in o ==> Value(g, n) == Value(form, n)
  {
    Fields(
      if "name" in o then o["name"] else form.name,
      if "category" in o then o["category"] else form.category,
      if "price" in o then o["price"] else form.price,
      if "quantity" in o then o["quantity"] else form.quantity)
  }

  /** The effects that follow a handler's state change from `before` to `after`:
      first the page's `modalOpen` effect, then the form's populate/reset effect. */
  function Settle(before: Session, after: Session): (s: Session)
    ensures s.open == after.open
    ensures !after.open && before.open ==> Cleared(s)
    ensures after.open ==> s.title == after.title && s.selected == after.selected
  {
    var page :=
      if before.open && !after.open then after.(title := "", selected := EmptyRecord) else after;
    if page.open != before.open || page.selected != before.selected then
      var populated := if HasKeys(page.selected) then Populate(page.form, page.selected) else page.form;
      page.(form := if !page.open then EmptyFields else populated)
    else page
  }

  /** `onCancel`: the modal's open flag drops, and the effects clear the session. */
  function Close(s: Session): (c: Session)
    ensures !c.open
    ensures s.open ==> Cleared(c)
    ensures !s.open ==> c == s
  {
    Settle(s, s.(open := false))
  }

  /** `handleSubmit`'s choice: update the bound record if it has any keys, else create. */
  function Route(selected: Record, values: Fields): (a: Action)
    ensures a.AddProduct? || a.UpdateProduct?
    ensures a.values == values
    ensures a.UpdateProduct? <==> selected != EmptyRecord
    ensures a.UpdateProduct? ==> a.id == Get(selected, "id")
  {
    if HasKeys(selected) then UpdateProduct(Get(selected, "id"), values) else AddProduct(values)
  }

  function Quiet(s: Session): Outcome
  {
    Outcome(s, [], [])
  }

  /** The three facts every handler keeps: at most one dispatch, a session that
      closes is cleared, and a consistent session stays consistent. */
  ghost predicate WellBehaved(s: Session, o: Outcome)
  {
    && |o.dispatched| <= 1
    && (s.open && !o.session.open ==> Cleared(o.session))
    && (Consistent(s) ==> Consistent(o.session))
  }

  /** A table button that opens the modal with a title and, optionally, a new bound
      record (`None`: Add leaves the bound record as it is). */
  function Open(s: Session, title: string, bind: Option<Record>): (o: Outcome)
    ensures o.session.open && o.session.title == title && o.dispatched == []
    ensures o.session.selected == (if bind.Some? then bind.value else s.selected)
    ensures WellBehaved(s, o)
  {
    var selected := if bind.Some? then bind.value else s.selected;
    Quiet(Settle(s, s.(open := true, title := title, selected := selected)))
  }

  /** `onCancel`, from the Cancel button or the modal's own close. */
  function OnClose(s: Session): (o: Outcome)
    requires s.open
    ensures !o.session.open && Cleared(o.session) && o.dispatched == []
    ensures WellBehaved(s, o)
  {
    Quiet(Close(s))
  }

  /** Typing into one input of an open, editable form. The item's rules run on every
      change, so the messages surfaced are that one field's. */
  function OnType(s: Session, n: FieldName, v: string): (o: Outcome)
    requires s.open
    ensures o.session.open && o.dispatched == []
    ensures Value(o.session.form, n) == v
    ensures |o.errors| > 0 <==> !Accepts(n, v)
    ensures forall m :: Flags(o.errors, m) <==> m == n && !Accepts(n, v)
    ensures MessagesMatch(o.errors, o.session.form)
    ensures WellBehaved(s, o)
  {
    CheckMeaning(n, v);
    var form := WithValue(s.form, n, v);
    Outcome(s.(form := form), [], Check(n, v))
  }

  /** `handleSubmit` on an open form: validate, then dispatch once and close, or
      surface the messages and stay. */
  function OnSubmit(s: Session): (o: Outcome)
    requires s.open
    ensures Acceptable(s.form) ==>
              && o.dispatched == [Route(s.selected, s.form)]
              && !o.session.open && Cleared(o.session)
              && o.errors == []
    ensures !Acceptable(s.form) ==> o.dispatched == [] && o.session == s && |o.errors| > 0
    ensures WellBehaved(s, o)
  {
    match Validate(s.form)
    case Valid(values) => Outcome(Close(s), [Route(s.selected, values)], [])
    case Invalid(errors) => Outcome(s, [], errors)
  }

  /** One user event. An event whose control is not rendered (a button the role does
      not get, the footer of a read-only session, anything inside a closed modal)
      changes nothing. */
  function Step(userType: string, s: Session, e: Event): (o: Outcome)
    ensures |o.dispatched| <= 1
    ensures s.open && !o.session.open ==> Cleared(o.session)
    ensures Consistent(s) ==> Consistent(o.session)
  {
    match e
    case EditClicked(row) =>
      if CanEdit(userType) then Open(s, EditTitle(row), Some(row)) else Quiet(s)
    case ViewClicked(row) =>
      Open(s, ViewTitle(row), Some(row))
    case DeleteClicked(row) =>
      if CanDelete(userType)
      then Outcome(s, [DeleteProduct(Get(row, "id"), Get(row, "name"))], [])
      else Quiet(s)
    case AddClicked =>
      if CanAdd(userType) then Open(s, AddTitle, None) else Quiet(s)
    case CancelClicked =>
      if s.open && ShowsFooter(s.title) then OnClose(s) else Quiet(s)
    case ModalDismissed =>
      if s.open then OnClose(s) else Quiet(s)
    case Typed(n, v) =>
      if s.open && !IsReadOnly(s.title) then OnType(s, n, v) else Quiet(s)
    case Submitted =>
      if s.open && ShowsFooter(s.title) then OnSubmit(s) else Quiet(s)
  }
}
