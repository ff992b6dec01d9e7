/** The backend's response envelope `{ meta: { status, message, errors }, data }`
    and the error objects the fetch library raises, as both client-side error
    handlers read them. */
module Envelope {
  import opened JsValues

  /** The message shown when an error carries nothing more specific. */
  const FallbackMessage := "An unexpected error occurred."

  /** `meta.errors`: field name to its list of messages, in the object's key
      order. An absent `errors` and an empty object are both []. */
  type FieldErrors = seq<(string, seq<string>)>

  datatype Meta = Meta(status: Option<bool>, message: Option<string>, errors: FieldErrors)

  /** A response body: the envelope's `meta` and `data`. */
  datatype Body = Body(meta: Option<Meta>, data: Option<Json>)

  /** A raised fetch error: the parsed error body (`error.data`) and the
      error's own `message`. */
  datatype ApiError = ApiError(data: Option<Body>, message: Option<string>)

  /** `error?.data?.meta` */
  function ErrorMeta(e: ApiError): Option<Meta> {
    if e.data.Some? then e.data.value.meta else None
  }

  /** `Object.values(errors).flat()`: every field's messages, field by field. */
  function Flatten(errors: FieldErrors): (r: seq<string>)
    ensures errors == [] ==> r == []
    ensures errors != [] ==> errors[0].1 <= r
  {
    if errors == [] then [] else errors[0].1 + Flatten(errors[1..])
  }

  /** Flattening keeps the fields' order: the messages of an earlier field come
      before those of a later one. */
  lemma {:induction false} FlattenAppend(a: FieldErrors, b: FieldErrors)
    ensures Flatten(a + b) == Flatten(a) + Flatten(b)
  {
    if a == [] {
      assert a + b == b;
    } else {
      assert (a + b)[1..] == a[1..] + b;
      FlattenAppend(a[1..], b);
    }
  }

  /** A message is flattened out exactly when some field lists it. */
  lemma {:induction false} FlattenMembers(errors: FieldErrors, m: string)
    ensures m in Flatten(errors) <==> exists i :: 0 <= i < |errors| && m in errors[i].1
  {
    if errors != [] {
      FlattenMembers(errors[1..], m);
      if m in Flatten(errors[1..]) {
        var i :| 0 <= i < |errors[1..]| && m in errors[1..][i].1;
        assert m in errors[i + 1].1;
      }
      if exists i :: 0 <= i < |errors| && m in errors[i].1 {
        var i :| 0 <= i < |errors| && m in errors[i].1;
        if i > 0 {
          assert m in errors[1..][i - 1].1;
        }
      }
    }
  }

  /** Flattening yields nothing exactly when every field's list is empty, so a
      non-empty `errors` object can still flatten to no message at all. */
  lemma {:induction false} FlattenEmpty(errors: FieldErrors)
    ensures Flatten(errors) == [] <==> forall i :: 0 <= i < |errors| ==> errors[i].1 == []
  {
    if errors != [] {
      FlattenEmpty(errors[1..]);
      if Flatten(errors) == [] {
        forall i | 0 <= i < |errors| ensures errors[i].1 == [] {
          if i > 0 {
            assert errors[i] == errors[1..][i - 1];
          }
        }
      }
      if forall i :: 0 <= i < |errors| ==> errors[i].1 == [] {
        assert errors[0].1 == [];
        forall i | 0 <= i < |errors[1..]| ensures errors[1..][i].1 == [] {
          assert errors[1..][i] == errors[i + 1];
        }
      }
    }
  }
}
