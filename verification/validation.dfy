/** The form's declarative field rules and what `validateFields` makes of them.

    All four fields are required: an empty (or never-set) input fails with the field's
    own message. Price and quantity additionally carry the pattern `/[0-9]/`, which is
    unanchored: a value passes when it contains a digit anywhere, so "a1" passes and
    "abc" fails. The pattern rule is not applied to an empty value, so an empty price or
    quantity reports only the required message.
 */
module Validation {

  /** The four inputs of the form, in the order they are rendered. */
  datatype FieldName = Name | Category | Price | Quantity

  /** The form's values; "" is an input that is empty or was never set. */
  datatype Fields = Fields(name: string, category: string, price: string, quantity: string)

  /** A message shown under one input. */
  datatype FieldError = FieldError(field: FieldName, message: string)

  /** The outcome of `form.validateFields()`: the values, or the per-field messages. */
  datatype Validated = Valid(values: Fields) | Invalid(errors: seq<FieldError>)

  const EmptyFields := Fields("", "", "", "")
  const PatternMessage := "Field accepts numbers only."

  /** The property key a field is bound to (`name={'price'}` and so on). */
  function Key(n: FieldName): string
  {
    match n
    case Name => "name"
    case Category => "category"
    case Price => "price"
    case Quantity => "quantity"
  }

  function Value(f: Fields, n: FieldName): string
  {
    match n
    case Name => f.name
    case Category => f.category
    case Price => f.price
    case Quantity => f.quantity
  }

  /** The form with one input changed and the other three left as they were. */
  function WithValue(f: Fields, n: FieldName, v: string): (g: Fields)
    ensures Value(g, n) == v
    ensures forall m :: m != n ==> Value(g, m) == Value(f, m)
  {
    match n
    case Name => f.(name := v)
    case Category => f.(category := v)
    case Price => f.(price := v)
    case Quantity => f.(quantity := v)
  }

  function RequiredMessage(n: FieldName): string
  {
    match n
    case Name => "Please enter product name."
    case Category => "Please enter product category."
    case Price => "Please enter product price."
    case Quantity => "Please enter product quantity."
  }

  /** Whether a field carries the `/[0-9]/` pattern rule. */
  predicate HasDigitPattern(n: FieldName)
  {
    n == Price || n == Quantity
  }

  predicate IsDigit(c: char)
  {
    '0' <= c <= '9'
  }

  /** The reference meaning of the unanchored pattern: some character is a digit. */
  ghost predicate ContainsDigit(s: string)
  {
    exists i :: 0 <= i < |s| && IsDigit(s[i])
  }

  /** `/[0-9]/.test(s)`: scan for the first position where the class matches. */
  function PatternTest(s: string): (found: bool)
    ensures found <==> ContainsDigit(s)
    decreases |s|
  {
    if |s| == 0 then false
    else if IsDigit(s[0]) then true
    else
      var rest := PatternTest(s[1..]);
      assert ContainsDigit(s[1..]) <==> ContainsDigit(s) by {
        if ContainsDigit(s) {
          var i :| 0 <= i < |s| && IsDigit(s[i]);
          assert i > 0 && s[1..][i - 1] == s[i];
        }
        if ContainsDigit(s[1..]) {
          var i :| 0 <= i < |s[1..]| && IsDigit(s[1..][i]);
          assert s[i + 1] == s[1..][i];
        }
      }
      rest
  }

  /** The message a field's rules report for a value, if any. */
  function Check(n: FieldName, v: string): (m: seq<FieldError>)
    ensures |m| <= 1
    ensures forall i :: 0 <= i < |m| ==> m[i].field == n
  {
    if v == "" then [FieldError(n, RequiredMessage(n))]
    else if HasDigitPattern(n) && !PatternTest(v) then [FieldError(n, PatternMessage)]
    else []
  }

  /** The reference acceptance rule for one field: non-empty, and holding a digit when
      the field carries the pattern. */
  ghost predicate Accepts(n: FieldName, v: string)
  {
    v != "" && (HasDigitPattern(n) ==> ContainsDigit(v))
  }

  /** The reference acceptance rule for the whole form. */
  ghost predicate Acceptable(f: Fields)
  {
    forall n: FieldName :: Accepts(n, Value(f, n))
  }

  /** Whether some message concerns the given field. */
  predicate Flags(errors: seq<FieldError>, n: FieldName)
  {
    exists i :: 0 <= i < |errors| && errors[i].field == n
  }

  /** Whether every message is the one the rules give for its field's value. */
  predicate MessagesMatch(errors: seq<FieldError>, f: Fields)
  {
    forall i :: 0 <= i < |errors| ==>
      errors[i].message ==
        (if Value(f, errors[i].field) == "" then RequiredMessage(errors[i].field) else PatternMessage)
  }

  /** All messages of the form, in render order. */
  function Errors(f: Fields): seq<FieldError>
  {
    Check(Name, f.name) + Check(Category, f.category) + Check(Price, f.price) + Check(Quantity, f.quantity)
  }

  /** One field's rules report exactly when the reference rule rejects the value. */
  lemma CheckMeaning(n: FieldName, v: string)
    ensures |Check(n, v)| > 0 <==> !Accepts(n, v)
    ensures forall m :: Flags(Check(n, v), m) <==> m == n && !Accepts(n, v)
  {
    if |Check(n, v)| > 0 {
      assert Check(n, v)[0].field == n;
    }
  }

  lemma FlagsConcat(a: seq<FieldError>, b: seq<FieldError>, n: FieldName)
    ensures Flags(a + b, n) <==> Flags(a, n) || Flags(b, n)
  {
    if Flags(b, n) {
      var i :| 0 <= i < |b| && b[i].field == n;
      assert (a + b)[|a| + i] == b[i];
    }
    if Flags(a, n) {
      var i :| 0 <= i < |a| && a[i].field == n;
      assert (a + b)[i] == a[i];
    }
  }

  lemma ErrorsFlagRejectedFields(f: Fields, n: FieldName)
    ensures Flags(Errors(f), n) <==> !Accepts(n, Value(f, n))
  {
    var c1, c2, c3, c4 := Check(Name, f.name), Check(Category, f.category),
                          Check(Price, f.price), Check(Quantity, f.quantity);
    FlagsConcat(c1, c2, n);
    FlagsConcat(c1 + c2, c3, n);
    FlagsConcat(c1 + c2 + c3, c4, n);
    CheckMeaning(Name, f.name);
    CheckMeaning(Category, f.category);
    CheckMeaning(Price, f.price);
    CheckMeaning(Quantity, f.quantity);
  }

  lemma ErrorsMessages(f: Fields)
    ensures MessagesMatch(Errors(f), f)
  {
  }

  /** `form.validateFields()`: every field's rules run, messages in render order. */
  function Validate(f: Fields): (r: Validated)
    ensures r.Valid? <==> Acceptable(f)
    ensures r.Valid? ==> r.values == f
    ensures r.Invalid? ==> |r.errors| > 0
    ensures r.Invalid? ==> forall n: FieldName :: Flags(r.errors, n) <==> !Accepts(n, Value(f, n))
    ensures r.Invalid? ==> MessagesMatch(r.errors, f)
  {
    var errors := Errors(f);
    ErrorsMessages(f);
    forall n: FieldName
      ensures Flags(errors, n) <==> !Accepts(n, Value(f, n))
    {
      ErrorsFlagRejectedFields(f, n);
    }
    if |errors| == 0 then
      assert forall n: FieldName :: !Flags(errors, n);
      Valid(f)
    else
      assert Flags(errors, errors[0].field);
      Invalid(errors)
  }

  /** Concrete cases of the rules: "abc" is not a price but "a1" is, and an empty
      quantity reports only that it is required. */
  lemma ValidationExamples()
    ensures Validate(Fields("Widget", "Tools", "10", "5")) == Valid(Fields("Widget", "Tools", "10", "5"))
    ensures Validate(Fields("Widget", "Tools", "a1", "5")).Valid?
    ensures Validate(Fields("Widget", "Tools", "abc", "5"))
              == Invalid([FieldError(Price, PatternMessage)])
    ensures Validate(Fields("Widget", "Tools", "10", ""))
              == Invalid([FieldError(Quantity, "Please enter product quantity.")])
  {
    var ok := Fields("Widget", "Tools", "10", "5");
    assert PatternTest("10") && PatternTest("5");
    assert Errors(ok) == [];
    var a1 := Fields("Widget", "Tools", "a1", "5");
    assert PatternTest("a1");
    assert Errors(a1) == [];
    var abc := Fields("Widget", "Tools", "abc", "5");
    assert !PatternTest("abc");
    assert Errors(abc) == [FieldError(Price, PatternMessage)];
    var noQty := Fields("Widget", "Tools", "10", "");
    assert Errors(noQty) == [FieldError(Quantity, "Please enter product quantity.")];
  }
}
