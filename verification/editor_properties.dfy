/** What the editor's transitions promise: how each button opens the session, that
    every close clears it, that Delete leaves it alone, and that a submit dispatches
    exactly one action of the right kind.
 */
module EditorProperties {
  import opened Records
  import opened Roles
  import opened Titles
  import opened Validation
  import opened Editor

  /** Edit on a row opens an editable "Update <name>" session bound to that row; from
      a closed session the inputs start from the row's values. A viewer has no Edit
      button, so for them nothing happens. */
  lemma EditOpensUpdateSession(userType: string, s: Session, row: Record)
    ensures var o := Step(userType, s, EditClicked(row));
      && (CanEdit(userType) ==>
            && o.session.open
            && o.session.title == "Update " + Interpolate(Get(row, "name"))
            && o.session.selected == row
            && !IsReadOnly(o.session.title) && ShowsFooter(o.session.title)
            && SubmitLabel(o.session.title) == UpdateLabel
            && (Consistent(s) && !s.open ==> o.session.form == Populate(EmptyFields, row)))
      && (!CanEdit(userType) ==> o.session == s)
      && o.dispatched == []
  {
    TitleModes(Interpolate(Get(row, "name")));
  }

  /** View on a row opens a read-only "View <name>" session bound to that row, for
      every role. */
  lemma ViewOpensReadOnlySession(userType: string, s: Session, row: Record)
    ensures var o := Step(userType, s, ViewClicked(row));
      && o.session.open
      && o.session.title == "View " + Interpolate(Get(row, "name"))
      && o.session.selected == row
      && IsReadOnly(o.session.title) && !ShowsFooter(o.session.title)
      && (Consistent(s) && !s.open ==> o.session.form == Populate(EmptyFields, row))
      && o.dispatched == []
  {
    TitleModes(Interpolate(Get(row, "name")));
  }

  /** A read-only session ignores typing, Cancel and Submit: its inputs cannot change
      and it can neither dispatch nor close except through the modal's own close. */
  lemma ReadOnlySessionIsInert(userType: string, s: Session, n: FieldName, v: string)
    requires s.open && IsReadOnly(s.title)
    ensures Step(userType, s, Typed(n, v)) == Outcome(s, [], [])
    ensures Step(userType, s, CancelClicked) == Outcome(s, [], [])
    ensures Step(userType, s, Submitted) == Outcome(s, [], [])
  {
  }

  /** Add opens an "Add Product" session. The handler sets only the flag and the
      title, so the bound record is whatever was bound before; from a closed session
      that is `{}`, the inputs are empty and a submit will create. */
  lemma AddOpensCreateSession(userType: string, s: Session)
    ensures var o := Step(userType, s, AddClicked);
      && (CanAdd(userType) ==>
            && o.session.open
            && o.session.title == AddTitle
            && o.session.selected == s.selected
            && !IsReadOnly(o.session.title)
            && SubmitLabel(o.session.title) == AddLabel
            && (Consistent(s) && !s.open ==>
                  && o.session.selected == EmptyRecord
                  && o.session.form == EmptyFields
                  && forall v :: Route(o.session.selected, v) == AddProduct(v)))
      && (!CanAdd(userType) ==> o.session == s)
      && o.dispatched == []
  {
  }

  /** Delete issues exactly `deleteProduct(row.id, row.name)` when the role has the
      button, nothing otherwise, and never touches the session. */
  lemma DeleteDispatchesOnly(userType: string, s: Session, row: Record)
    ensures var o := Step(userType, s, DeleteClicked(row));
      && o.session == s
      && (CanDelete(userType) <==> o.dispatched != [])
      && (CanDelete(userType) ==> o.dispatched == [DeleteProduct(Get(row, "id"), Get(row, "name"))])
  {
  }

  /** Every way of closing an open session clears it: the title becomes "", the bound
      record `{}` and the inputs empty. A session closes only through Cancel, the
      modal's own close, or a submit that dispatched. */
  lemma ClosingClearsSession(userType: string, s: Session, e: Event)
    requires s.open
    ensures var o := Step(userType, s, e);
      !o.session.open ==>
        && Cleared(o.session)
        && (e.CancelClicked? || e.ModalDismissed? || (e.Submitted? && |o.dispatched| == 1))
  {
  }

  /** The modal's own close ends every open session, a read-only one included, with
      nothing dispatched; Cancel does the same where it is rendered and nothing where
      it is not. */
  lemma CancelAndDismissClose(userType: string, s: Session)
    requires s.open
    ensures Step(userType, s, ModalDismissed) == Outcome(Close(s), [], [])
    ensures ShowsFooter(s.title) ==> Step(userType, s, CancelClicked) == Outcome(Close(s), [], [])
    ensures !ShowsFooter(s.title) ==> Step(userType, s, CancelClicked) == Outcome(s, [], [])
    ensures Cleared(Close(s)) && !Close(s).open
  {
  }

  /** Submit on an editable session: when the inputs pass validation, exactly one
      action is dispatched, an update of the bound record's id if it has keys and a
      create otherwise, both with the inputs' values, and the session closes and
      clears. When they fail, nothing is dispatched, the session stays as it is and
      every failing field gets a message. */
  lemma SubmitRouting(userType: string, s: Session)
    requires s.open && ShowsFooter(s.title)
    ensures var o := Step(userType, s, Submitted);
      && (Acceptable(s.form) ==>
            && |o.dispatched| == 1
            && (s.selected != EmptyRecord ==> o.dispatched[0] == UpdateProduct(Get(s.selected, "id"), s.form))
            && (s.selected == EmptyRecord ==> o.dispatched[0] == AddProduct(s.form))
            && !o.session.open && Cleared(o.session))
      && (!Acceptable(s.form) ==>
            && o.dispatched == []
            && o.session == s
            && |o.errors| > 0
            && forall n: FieldName :: Flags(o.errors, n) <==> !Accepts(n, Value(s.form, n)))
  {
  }

  /** Across all events, an action is dispatched exactly when an admin deletes or an
      editable session's valid inputs are submitted, and an update exactly when that
      submit has a bound record. */
  lemma DispatchIffDeleteOrValidSubmit(userType: string, s: Session, e: Event)
    ensures var o := Step(userType, s, e);
      && (|o.dispatched| == 1 <==>
            || (e.DeleteClicked? && CanDelete(userType))
            || (e.Submitted? && s.open && ShowsFooter(s.title) && Acceptable(s.form)))
      && (|o.dispatched| == 1 && o.dispatched[0].UpdateProduct? <==>
            e.Submitted? && s.open && ShowsFooter(s.title) && Acceptable(s.form) && s.selected != EmptyRecord)
  {
  }

  /** Typing in an editable session changes that one input and nothing else, and
      surfaces a message exactly when the typed value breaks that field's rules. */
  lemma TypingChangesOneInput(userType: string, s: Session, n: FieldName, v: string)
    requires s.open && !IsReadOnly(s.title)
    ensures var o := Step(userType, s, Typed(n, v));
      && o.dispatched == []
      && o.session.open == s.open && o.session.title == s.title && o.session.selected == s.selected
      && Value(o.session.form, n) == v
      && (forall m :: m != n ==> Value(o.session.form, m) == Value(s.form, m))
      && (|o.errors| > 0 <==> !Accepts(n, v))
      && (forall m :: Flags(o.errors, m) <==> m == n && !Accepts(n, v))
  {
  }

  /** Feeding a sequence of events to a transition function: the final session and
      every action dispatched along the way, in order. */
  function Fold(step: (Session, Event) -> Outcome, s: Session, events: seq<Event>): (Session, seq<Action>)
    decreases |events|
  {
    if |events| == 0 then (s, [])
    else
      var o := step(s, events[0]);
      var rest := Fold(step, o.session, events[1..]);
      (rest.0, o.dispatched + rest.1)
  }

  /** Folding two sequences one after the other. */
  lemma {:induction false} FoldConcat(step: (Session, Event) -> Outcome, s: Session, a: seq<Event>, b: seq<Event>)
    ensures var first := Fold(step, s, a);
      var second := Fold(step, first.0, b);
      Fold(step, s, a + b) == (second.0, first.1 + second.1)
    decreases |a|
  {
    if |a| > 0 {
      var o := step(s, a[0]);
      var first := Fold(step, o.session, a[1..]);
      var second := Fold(step, first.0, b);
      FoldConcat(step, o.session, a[1..], b);
      assert (a + b)[0] == a[0];
      assert (a + b)[1..] == a[1..] + b;
      assert o.dispatched + (first.1 + second.1) == (o.dispatched + first.1) + second.1;
    } else {
      assert a + b == b;
      assert [] + Fold(step, s, b).1 == Fold(step, s, b).1;
    }
  }

  /** The screen driven by a sequence of user events under one `userType`. */
  function Run(userType: string, s: Session, events: seq<Event>): (Session, seq<Action>)
  {
    Fold((t, e) => Step(userType, t, e), s, events)
  }

  /** At most one action per event. */
  lemma {:induction false} RunDispatchesAtMostOncePerEvent(userType: string, s: Session, events: seq<Event>)
    ensures |Run(userType, s, events).1| <= |events|
    decreases |events|
  {
    if |events| > 0 {
      var o := Step(userType, s, events[0]);
      RunDispatchesAtMostOncePerEvent(userType, o.session, events[1..]);
    }
  }

  /** Every session reachable from the initial one is consistent: whenever the modal
      is closed, no title, bound record or input value survives from before. */
  lemma {:induction false} ReachableSessionsConsistent(userType: string, s: Session, events: seq<Event>)
    requires Consistent(s)
    ensures Consistent(Run(userType, s, events).0)
    decreases |events|
  {
    if |events| > 0 {
      var o := Step(userType, s, events[0]);
      ReachableSessionsConsistent(userType, o.session, events[1..]);
    }
  }

  lemma InitialIsConsistent()
    ensures Consistent(Initial) && !Initial.open && !IsReadOnly(Initial.title)
  {
  }

  /** One event followed by the rest. */
  lemma RunUnfold(userType: string, s: Session, e: Event, rest: seq<Event>)
    ensures var o := Step(userType, s, e);
      var r := Run(userType, o.session, rest);
      Run(userType, s, [e] + rest) == (r.0, o.dispatched + r.1)
  {
  }

  /** Cancel after partial edits discards them: reopening with Add starts from empty
      inputs and no bound record. */
  lemma CancelDiscardsEdits(userType: string, s: Session, n: FieldName, v: string)
    requires CanAdd(userType)
    requires s.open && ShowsFooter(s.title)
    ensures var r := Run(userType, s, [Typed(n, v), CancelClicked, AddClicked]);
      && r.0.open && r.0.title == AddTitle
      && r.0.form == EmptyFields && r.0.selected == EmptyRecord
      && r.1 == []
  {
    ReadOnlyIffViewPrefix(s.title);
    var o1 := Step(userType, s, Typed(n, v));
    assert o1.session.open && o1.session.title == s.title && o1.dispatched == [];
    var o2 := Step(userType, o1.session, CancelClicked);
    assert !o2.session.open && Cleared(o2.session) && o2.dispatched == [];
    var o3 := Step(userType, o2.session, AddClicked);
    AddOpensCreateSession(userType, o2.session);
    RunUnfold(userType, o2.session, AddClicked, []);
    RunUnfold(userType, o1.session, CancelClicked, [AddClicked]);
    RunUnfold(userType, s, Typed(n, v), [CancelClicked, AddClicked]);
  }

  /** Editing a stored product and changing only its price updates that product's id
      with the new price and the other three values as they were. */
  lemma EditPriceUpdatesProduct(userType: string, row: Record, price: string)
    requires CanEdit(userType)
    requires "id" in row && "name" in row && "category" in row && "price" in row && "quantity" in row
    requires Acceptable(Fields(row["name"], row["category"], price, row["quantity"]))
    ensures var r := Run(userType, Initial, [EditClicked(row), Typed(Price, price), Submitted]);
      && r.1 == [UpdateProduct(Some(row["id"]), Fields(row["name"], row["category"], price, row["quantity"]))]
      && !r.0.open && Cleared(r.0)
  {
    var o1 := Step(userType, Initial, EditClicked(row));
    EditOpensUpdateSession(userType, Initial, row);
    assert o1.session.form == Fields(row["name"], row["category"], row["price"], row["quantity"]);
    var o2 := Step(userType, o1.session, Typed(Price, price));
    assert o2.session.form == Fields(row["name"], row["category"], price, row["quantity"]);
    assert o2.session.selected == row && row != EmptyRecord;
    var o3 := Step(userType, o2.session, Submitted);
    SubmitRouting(userType, o2.session);
    RunUnfold(userType, o2.session, Submitted, []);
    RunUnfold(userType, o1.session, Typed(Price, price), [Submitted]);
    RunUnfold(userType, Initial, EditClicked(row), [Typed(Price, price), Submitted]);
  }

  /** Running two event sequences one after the other. */
  lemma RunConcat(userType: string, s: Session, a: seq<Event>, b: seq<Event>)
    ensures var first := Run(userType, s, a);
      var second := Run(userType, first.0, b);
      Run(userType, s, a + b) == (second.0, first.1 + second.1)
  {
    FoldConcat((t, e) => Step(userType, t, e), s, a, b);
  }

  /** Typing every input of the form, in render order. */
  function FillIn(w: Fields): seq<Event>
  {
    [Typed(Name, w.name), Typed(Category, w.category), Typed(Price, w.price), Typed(Quantity, w.quantity)]
  }

  /** Filling in an editable session sets its inputs to exactly the typed values. */
  lemma FillInSetsInputs(userType: string, s: Session, w: Fields)
    requires s.open && !IsReadOnly(s.title)
    ensures Run(userType, s, FillIn(w)) == (s.(form := w), [])
  {
    var o1 := Step(userType, s, Typed(Name, w.name));
    var o2 := Step(userType, o1.session, Typed(Category, w.category));
    var o3 := Step(userType, o2.session, Typed(Price, w.price));
    var o4 := Step(userType, o3.session, Typed(Quantity, w.quantity));
    assert o4.session == s.(form := w);
    RunUnfold(userType, o3.session, Typed(Quantity, w.quantity), []);
    RunUnfold(userType, o2.session, Typed(Price, w.price), [Typed(Quantity, w.quantity)]);
    RunUnfold(userType, o1.session, Typed(Category, w.category),
              [Typed(Price, w.price), Typed(Quantity, w.quantity)]);
    RunUnfold(userType, s, Typed(Name, w.name),
              [Typed(Category, w.category), Typed(Price, w.price), Typed(Quantity, w.quantity)]);
    assert [Typed(Quantity, w.quantity)] + [] == [Typed(Quantity, w.quantity)];
    assert [Typed(Name, w.name)] + [Typed(Category, w.category), Typed(Price, w.price), Typed(Quantity, w.quantity)]
           == FillIn(w);
    assert Run(userType, o4.session, []) == (o4.session, []);
  }

  /** Submitting valid values in a fresh Add session creates them and returns the
      screen to its initial state. */
  lemma SubmitFreshAddSession(userType: string, w: Fields)
    requires Acceptable(w)
    ensures Run(userType, Session(true, AddTitle, EmptyRecord, w), [Submitted]) == (Initial, [AddProduct(w)])
  {
    var s := Session(true, AddTitle, EmptyRecord, w);
    SubmitFreshAddStep(userType, w);
    RunSingle(userType, s, Submitted);
  }

  /** The submit step itself: one create, and the session back to `Initial`. */
  lemma SubmitFreshAddStep(userType: string, w: Fields)
    requires Acceptable(w)
    ensures var o := Step(userType, Session(true, AddTitle, EmptyRecord, w), Submitted);
      o.session == Initial && o.dispatched == [AddProduct(w)]
  {
    var s := Session(true, AddTitle, EmptyRecord, w);
    AddTitleIsEditable();
    SubmitRouting(userType, s);
    var o := Step(userType, s, Submitted);
    assert !o.session.open && Cleared(o.session);
  }

  /** A run of one event is that event's step. */
  lemma RunSingle(userType: string, s: Session, e: Event)
    ensures var o := Step(userType, s, e);
      Run(userType, s, [e]) == (o.session, o.dispatched)
  {
    var o := Step(userType, s, e);
    RunUnfold(userType, s, e, []);
    assert [e] + [] == [e];
    assert Run(userType, o.session, []) == (o.session, []);
    assert o.dispatched + [] == o.dispatched;
  }

  /** From a closed consistent session, Add and filling in every input leave a fresh
      Add session holding exactly the typed values, with nothing dispatched. */
  lemma AddThenFillIn(userType: string, s: Session, w: Fields)
    requires CanAdd(userType)
    requires Consistent(s) && !s.open
    ensures Run(userType, s, [AddClicked] + FillIn(w)) == (Session(true, AddTitle, EmptyRecord, w), [])
  {
    AddOpensCreateSession(userType, s);
    var o1 := Step(userType, s, AddClicked);
    var s1 := o1.session;
    assert s1 == Session(true, AddTitle, EmptyRecord, EmptyFields) && o1.dispatched == [];
    AddTitleIsEditable();
    FillInSetsInputs(userType, s1, w);
    RunUnfold(userType, s, AddClicked, FillIn(w));
  }

  /** From any closed session, Add, fill in valid values and submit: exactly one
      create with those values is dispatched and the screen is back in its initial
      state. */
  lemma AddThenSubmitCreates(userType: string, s: Session, w: Fields)
    requires CanAdd(userType)
    requires Consistent(s) && !s.open
    requires Acceptable(w)
    ensures Run(userType, s, [AddClicked] + FillIn(w) + [Submitted]) == (Initial, [AddProduct(w)])
  {
    AddThenFillIn(userType, s, w);
    SubmitFreshAddSession(userType, w);
    RunConcat(userType, s, [AddClicked] + FillIn(w), [Submitted]);
    assert [] + [AddProduct(w)] == [AddProduct(w)];
  }
}
