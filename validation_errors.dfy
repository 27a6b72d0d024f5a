/**
 * ValidationException: a message with a list of field errors, and the
 * queries the use cases and the error handler run over that list.
 */
module ValidationErrors {
  import opened Outcomes
  import Text

  const Code := "VALIDATION_ERROR"
  const Status := 400
  const MultiplePrefix := "Errores de validación: "

  /** `hasErrorInField` */
  predicate HasErrorInField(errors: seq<FieldError>, field: string)
  {
    exists i :: 0 <= i < |errors| && errors[i].field == field
  }

  /** Position `i` holds the first error for the field. */
  predicate IsFirstFor(errors: seq<FieldError>, field: string, i: int)
  {
    0 <= i < |errors| && errors[i].field == field && forall j :: 0 <= j < i ==> errors[j].field != field
  }

  /** `getErrorForField`: the first error for the field, if any. */
  function ErrorForField(errors: seq<FieldError>, field: string): (r: Option<FieldError>)
    ensures r.Some? <==> HasErrorInField(errors, field)
    ensures r.Some? ==> r.value in errors && r.value.field == field
    ensures r.Some? ==> exists i :: IsFirstFor(errors, field, i) && errors[i] == r.value
  {
    if errors == [] then None
    else if errors[0].field == field then Some(errors[0])
    else
      var rest := ErrorForField(errors[1..], field);
      assert HasErrorInField(errors[1..], field) ==> HasErrorInField(errors, field) by {
        if HasErrorInField(errors[1..], field) {
          var i :| 0 <= i < |errors[1..]| && errors[1..][i].field == field;
          assert errors[i + 1].field == field;
        }
      }
      assert HasErrorInField(errors, field) ==> HasErrorInField(errors[1..], field) by {
        if HasErrorInField(errors, field) {
          var i :| 0 <= i < |errors| && errors[i].field == field;
          assert i > 0 && errors[1..][i - 1].field == field;
        }
      }
      if rest.Some? then
        assert exists i :: IsFirstFor(errors, field, i) && errors[i] == rest.value by {
          var i :| IsFirstFor(errors[1..], field, i) && errors[1..][i] == rest.value;
          assert errors[i + 1] == rest.value;
          forall j | 0 <= j < i + 1 ensures errors[j].field != field {
            if j > 0 { assert errors[j] == errors[1..][j - 1]; }
          }
          assert IsFirstFor(errors, field, i + 1);
        }
        rest
      else
        rest
  }

  /** `getAllMessages`: the messages, one per error, in order. */
  function AllMessages(errors: seq<FieldError>): (r: seq<string>)
    ensures |r| == |errors|
    ensures forall i :: 0 <= i < |errors| ==> r[i] == errors[i].message
  {
    if errors == [] then [] else [errors[0].message] + AllMessages(errors[1..])
  }

  function Fields(errors: seq<FieldError>): (r: seq<string>)
    ensures |r| == |errors|
    ensures forall i :: 0 <= i < |errors| ==> r[i] == errors[i].field
  {
    if errors == [] then [] else [errors[0].field] + Fields(errors[1..])
  }

  /** `fromSingleError`: the message doubles as the one error's message. */
  function FromSingleError(field: string, message: string): (r: Failure)
    ensures r.Validation? && r.message == message && |r.errors| == 1
    ensures HasErrorInField(r.errors, field) && ErrorForField(r.errors, field) == Some(FieldError(field, message))
    ensures AllMessages(r.errors) == [message]
  {
    var r := Validation(message, [FieldError(field, message)]);
    assert r.errors[0].field == field;
    r
  }

  /** `fromMultipleErrors`: the message lists the fields, joined by ", ", in order. */
  function FromMultipleErrors(errors: seq<FieldError>): (r: Failure)
    ensures r.Validation? && r.errors == errors
    ensures r.message == MultiplePrefix + Text.Join(Fields(errors), ", ")
  {
    Validation(MultiplePrefix + Text.Join(Fields(errors), ", "), errors)
  }

  /** A single field's list has one field name, so the multiple-error message names that field. */
  lemma MultipleOfOne(e: FieldError)
    ensures FromMultipleErrors([e]).message == MultiplePrefix + e.field
  {
    assert Fields([e]) == [e.field];
  }

  /** Adding errors at the end never changes which error a field reports first, once it has one. */
  lemma {:induction false} ErrorForFieldStable(errors: seq<FieldError>, more: seq<FieldError>, field: string)
    requires HasErrorInField(errors, field)
    ensures ErrorForField(errors + more, field) == ErrorForField(errors, field)
    decreases |errors|
  {
    if errors[0].field != field {
      assert (errors + more)[1..] == errors[1..] + more;
      assert HasErrorInField(errors[1..], field) by {
        var i :| 0 <= i < |errors| && errors[i].field == field;
        assert errors[1..][i - 1].field == field;
      }
      ErrorForFieldStable(errors[1..], more, field);
    }
  }

  /** The messages of two lists joined are the messages of each, joined. */
  lemma {:induction false} AllMessagesAppend(a: seq<FieldError>, b: seq<FieldError>)
    ensures AllMessages(a + b) == AllMessages(a) + AllMessages(b)
  {
    var l, r := AllMessages(a + b), AllMessages(a) + AllMessages(b);
    assert forall i :: 0 <= i < |l| ==> l[i] == r[i];
  }
}
