# Product record editor — a Dafny model

This project models the product screen of a small React admin app: a table of
products with role-gated Edit / View / Delete buttons, an "Add Product" button,
and one modal form that is reused to create, view and update a product. The
model covers the component's own logic in `src/pages/product.js`:

- the role gating of the buttons, driven by the `userType` string;
- the editor session `(modalOpen, modalTitle, selectedProduct)`, together with
  the form's four input values, as a state machine over user events;
- the effects that clear the session when the modal closes, and that populate
  or reset the form;
- how read-only mode, the hidden Cancel/Submit row and the submit label are
  derived from the title;
- the field rules (all four required; price and quantity must match `/[0-9]/`);
- the submit routing: update when the bound record has keys, create otherwise.

Dispatches to the product store are emitted as `Action` values (`AddProduct`,
`UpdateProduct`, `DeleteProduct`). The store and its action creators are not
modelled.

Files:

- `records.dfy` (`Records`): plain JS objects as `map<string, string>`, `undefined` as `None`.
- `roles.dfy` (`Roles`): which buttons each `userType` gets.
- `titles.dfy` (`Titles`): `split(' ')`, the title's first word, read-only/footer/label derivation.
- `validation.dfy` (`Validation`): the per-field rules and `validateFields`.
- `editor.dfy` (`Editor`): the session, the event handlers with their effects, and `Step`.
- `editor_properties.dfy` (`EditorProperties`): lemmas about single steps and runs of events.

Behaviours of the code that the model keeps as written:

- **Unrecognised roles.** The Edit button and the Add button are rendered when
  `userType !== 'viewer'` (`src/pages/product.js:63`, `:96`); Delete when
  `userType === 'admin'` (`:82`). Any other string, including an unknown or
  missing one, therefore gets Edit and Add but not Delete.
- **Add keeps the current binding.** The Add handler sets only the title and
  the open flag (`:98-101`); it does not touch `selectedProduct`. The bound
  record is `{}` only because every close cleared it. `AddOpensCreateSession`
  states both facts.
- **Populating the form merges.** The form's effect calls
  `form.setFieldsValue(selectedProduct)` (`:129`), which sets only the keys the
  record has. The other inputs keep their values, and those are empty after a
  close.
- **Mode comes from the title.** Read-only inputs and the hidden Cancel/Submit
  row are decided by the title's first word (`:166`, `:213`); there is no
  separate mode. `ReadOnlyIffViewPrefix` shows that this is the same as "the
  title is `View` or starts with `View `".
- **The pattern only asks for a digit.** Price and quantity carry the pattern
  `/[0-9]/` (`:189`), which is unanchored, so `"a1"` is accepted although the
  message reads "Field accepts numbers only.". The model keeps the pattern as
  written.

`Records.Get` is a helper: it models JS property access, with `undefined` for a
missing key, and is used by the titles, the submit routing and Delete.

## Model

| member | source | states |
|---|---|---|
| Records.HasKeys | src/pages/product.js:129-135 | `Object.keys(o).length > 0` holds iff the object is not `{}`, that is iff it has some key |
| Roles.PermissionsOf | src/pages/product.js:63-96 | View is always offered, Edit and Add are always granted together, and Delete is never granted without Edit |
| Roles.RowButtons | src/pages/product.js:61-83 | a row shows View always, Edit iff the role may edit, Delete iff it may delete, each at most once and in the order Edit, View, Delete |
| Roles.RolePolicy | src/pages/product.js:63-96 | through `CanEdit` (`!== 'viewer'`), `CanAdd` (`!== 'viewer'`) and `CanDelete` (`=== 'admin'`): "viewer" gets only View; "admin" gets everything; every other string, unrecognised ones included, gets everything except Delete |
| Roles.RowButtonsByRole | src/pages/product.js:61-83 | the exact button list in a row for a viewer, an admin and any other role |
| Titles.Split | src/pages/product.js:166 | `split(' ')` yields at least one piece and no piece contains the separator |
| Titles.JoinSplit | src/pages/product.js:166 | joining the pieces of a split with the separator gives back the title (nothing is lost by splitting) |
| Titles.SplitJoin | src/pages/product.js:166 | splitting a join of separator-free pieces gives back the pieces (the split is the inverse of the join) |
| Titles.FirstWordIsLongestSpaceFreePrefix | src/pages/product.js:166 | `FirstWord`, i.e. `title.split(' ')[0]`, is a prefix of the title, has no space, and is followed by a space unless it is the whole title |
| Titles.FirstWordOfComposite | src/pages/product.js:67 | a title built as `word + " " + rest` has `word` as its first word, whatever `rest` holds |
| Titles.SubmitLabel | src/pages/product.js:224 | the label is "Add Product" iff the title is exactly "Add Product", and "Update Product" otherwise |
| Titles.ReadOnlyIffViewPrefix | src/pages/product.js:166-213 | `IsReadOnly` (the inputs' `readOnly`) and `ShowsFooter` (the Cancel/Submit row): the inputs are read-only iff the title is "View" or starts with "View ", and the Cancel/Submit row is shown iff they are not read-only |
| Titles.TitleModes | src/pages/product.js:66-101 | "View <name>" is read-only with no footer; "Update <name>", "Add Product" and the closed session's "" are editable with a footer; only "Add Product" gets the Add label |
| Validation.WithValue | src/pages/product.js:157-211 | typing into one input sets that input and leaves the other three unchanged |
| Validation.PatternTest | src/pages/product.js:188-191 | `/[0-9]/.test(v)` holds iff some character of `v` is a digit (unanchored, so "a1" passes) |
| Validation.CheckMeaning | src/pages/product.js:159-208 | `Check`, one field's rules: they report a message iff the value is empty or, for price and quantity, contains no digit, and the message concerns that field only |
| Validation.ErrorsFlagRejectedFields | src/pages/product.js:157-211 | `Errors`, the messages of all four fields in render order: they name a field iff that field's value is rejected |
| Validation.ErrorsMessages | src/pages/product.js:159-208 | each message is the field's `RequiredMessage` ("Please enter product …") when the value is empty, and "Field accepts numbers only." otherwise |
| Validation.Validate | src/pages/product.js:157-211 | validation succeeds iff name and category are non-empty and price and quantity are non-empty and contain a digit; success returns the form's values unchanged; failure lists a message for exactly the rejected fields, with the right texts |
| Validation.ValidationExamples | src/pages/product.js:183-208 | the valid Widget form passes; "a1" passes as a price; "abc" fails with the pattern message only; an empty quantity fails with the required message only |
| Editor.EditTitle | src/pages/product.js:67 | `Update ${record.name}` has first word "Update", so it is editable with a footer and is never the Add title; after "Update " comes the row's name, or the word `undefined` (`Interpolate`) when the row has none |
| Editor.ViewTitle | src/pages/product.js:76 | `View ${record.name}` is read-only with no footer and is never the Add title; after "View " comes the row's name, or `undefined` when the row has none |
| Editor.Populate | src/pages/product.js:128-131 | `setFieldsValue(record)` sets each input the record has a key for and leaves the others unchanged |
| Editor.Settle | src/pages/product.js:22-27 | the effects never change the open flag; when the modal has just closed they clear the title, the bound record and the inputs; while it stays open, title and binding are untouched |
| Editor.Close | src/pages/product.js:117-140 | `onCancel()` always leaves the modal closed; closing an open session clears title, binding and inputs; on a closed session it changes nothing |
| Editor.Route | src/pages/product.js:133-141 | submit dispatches an update with the bound record's id iff the bound record is not `{}`, otherwise a create, always with the validated values |
| Editor.Open | src/pages/product.js:66-101 | Edit, View and Add open the modal with their title; Edit and View bind the row, Add keeps the current binding; nothing is dispatched |
| Editor.OnClose | src/pages/product.js:117 | `onCancel` closes the modal and leaves title "", bound record `{}` and empty inputs |
| Editor.OnType | src/pages/product.js:157-210 | typing into an open form sets that input and dispatches nothing; the item's rules run on change, so a message appears iff the typed value breaks that field's rules, it concerns that field only and it has the right text |
| Editor.OnSubmit | src/pages/product.js:133-141 | valid inputs give exactly the routed action, no messages and a closed, cleared session; invalid inputs give no action, the same session and at least one message |
| Editor.Step | src/pages/product.js:61-148 | every event dispatches at most one action, every close of an open session clears it, and consistency (closed implies cleared) is preserved |
| EditorProperties.EditOpensUpdateSession | src/pages/product.js:63-70 | Edit opens an editable "Update <name>" session bound to the row, with the Update label and inputs copied from the row; a viewer's click changes nothing |
| EditorProperties.ViewOpensReadOnlySession | src/pages/product.js:72-81 | View, for every role, opens a read-only "View <name>" session with no footer, bound to the row, with inputs copied from the row |
| EditorProperties.ReadOnlySessionIsInert | src/pages/product.js:166-213 | in a read-only session typing, Cancel and Submit change nothing and dispatch nothing |
| EditorProperties.AddOpensCreateSession | src/pages/product.js:96-103 | Add (not for viewers) opens an editable "Add Product" session with the Add label and keeps the binding; from a closed session it has no binding and empty inputs, and a submit will create |
| EditorProperties.DeleteDispatchesOnly | src/pages/product.js:82 | Delete dispatches exactly `deleteProduct(row.id, row.name)` iff the role is admin, and never changes the session |
| EditorProperties.ClosingClearsSession | src/pages/product.js:22-27 | whatever event closes an open session leaves it cleared, and only Cancel, the modal's own close or a dispatching submit can close it |
| EditorProperties.CancelAndDismissClose | src/pages/product.js:145-215 | the modal's own close (`onCancel` at :148) closes and clears every open session, a read-only View session included, and dispatches nothing; the Cancel button (:215) does the same where the footer is rendered (:213) and nothing where it is not |
| EditorProperties.SubmitRouting | src/pages/product.js:133-141 | on valid inputs exactly one action (an update of the bound id if the record is non-empty, else a create) is dispatched and the session closes cleared; on invalid inputs there is no action, no close, and a message for exactly the rejected fields |
| EditorProperties.DispatchIffDeleteOrValidSubmit | src/pages/product.js:29-141 | an event dispatches iff it is an admin's Delete or a submit of valid inputs on an editable session, and the action is an update iff that submit has a bound record |
| EditorProperties.TypingChangesOneInput | src/pages/product.js:157-211 | typing in an editable session changes only the typed input, and not the open flag, title or binding; it surfaces a message exactly when the typed value is rejected, for that field only |
| EditorProperties.RunDispatchesAtMostOncePerEvent | src/pages/product.js:133-141 | a run of events dispatches no more actions than it has events |
| EditorProperties.ReachableSessionsConsistent | src/pages/product.js:12-27 | from a consistent session, every sequence of events leads to a consistent one: a closed modal never keeps a title, binding or input value |
| EditorProperties.InitialIsConsistent | src/pages/product.js:12-14 | the initial session is closed, cleared and not read-only |
| EditorProperties.CancelDiscardsEdits | src/pages/product.js:128-131 | typing, then Cancel, then Add reopens with empty inputs, no binding and no action |
| EditorProperties.EditPriceUpdatesProduct | src/pages/product.js:128-141 | Edit on a stored product, a new valid price and Submit dispatch one update of that id with the new price and the other values unchanged, and end closed and cleared |
| EditorProperties.AddThenSubmitCreates | src/pages/product.js:96-141 | from a closed session, Add, typing valid values and Submit dispatch exactly one create with those values and return to the initial state |

## Left out

- The load of the product list on mount (`getProducts()`, `src/pages/product.js:17-19`) is network I/O and is not modelled.
- The store (`useSelector`, `useDispatch`) and the action creators in `../actions/productAction` are not part of this model. Dispatches are emitted as action values, and `userType` is a parameter of every step.
- Table layout, columns, icons, placeholders and `src/pages/404.js` are presentation only.
- `form.validateFields()` returns a Promise. It is modelled as a synchronous total function. `onFinish` validates once before `handleSubmit` validates again; both give the same verdict, so this is modelled as a single validation. `handleSubmit`'s promise has no rejection handler (`:134`); it runs only after validation has passed, so that path does not arise.
- The messages antd keeps on screen under each input are not modelled as state. An outcome's `errors` are the messages that event produces: one field's on a keystroke, all rejected fields' on a submit. A message stays visible until its field is validated again, its value is set from the bound record (`:129`), or the form is reset on close (`:130`).
- React batches the setters of one handler, so each handler is one atomic transition. Effects run right after it, in their final combined outcome. The page's clear-on-close effect fires when `modalOpen` turns false. The form's effect fires when the open flag or the bound record changes.
- Object identity is approximated by value equality when deciding whether the form's effect re-runs.
- The antd modal mask is not modelled. Table buttons are treated as clickable at any time, so Add during an open Edit session keeps the row bound, as the handler is written.
- Field values are modelled as text. JS numbers and other value types are not distinguished from their decimal text, and an input that was never set is the empty string.
- Pressing Enter in an editable input submits the form. It is the same event as clicking Submit.
