/** The per-entity store slice shared by the item and category reducers, and
    a field-level vocabulary for stating which fields a transition may write. */
module Slice {
  import opened Values

  /** One entity slice of the Redux store.
      - `list`: the fetched list (`items` / `categories`), null until loaded;
      - `error`: the last failure payload, null when cleared;
      - `message`: the status text; None while the key is absent from the
        state object (the item slice's default object never defines it);
      - `current`: the record of the last single-record fetch
        (`currentItem` / `currentCategory`);
      - `messages`: a key that only the item slice's default object carries
        (None for the category slice); no transition ever writes it. */
  datatype Slice = Slice(
    list: Value,
    error: Value,
    loading: bool,
    success: bool,
    message: Option<string>,
    current: Value,
    messages: Option<string>)

  /** The fields a reducer transition can write. */
  datatype Field = ListField | ErrorField | LoadingField | SuccessField | MessageField | CurrentField

  /** The two slices hold the same value in field `f`. */
  predicate Agree(s: Slice, t: Slice, f: Field) {
    match f
    case ListField => s.list == t.list
    case ErrorField => s.error == t.error
    case LoadingField => s.loading == t.loading
    case SuccessField => s.success == t.success
    case MessageField => s.message == t.message
    case CurrentField => s.current == t.current
  }

  /** `t` differs from `s` at most in the fields of `writes`; the stray
      `messages` key is never among them. */
  predicate OnlyWrites(s: Slice, t: Slice, writes: set<Field>) {
    && t.messages == s.messages
    && forall f :: f !in writes ==> Agree(s, t, f)
  }

  /** Two slices that agree on every field are the same slice. */
  lemma AgreeEverywhere(s: Slice, t: Slice)
    requires OnlyWrites(s, t, {})
    ensures s == t
  {
    assert Agree(s, t, ListField);
    assert Agree(s, t, ErrorField);
    assert Agree(s, t, LoadingField);
    assert Agree(s, t, SuccessField);
    assert Agree(s, t, MessageField);
    assert Agree(s, t, CurrentField);
  }

  /** Frames compose: writing `w1` then `w2` writes at most their union. */
  lemma OnlyWritesTrans(s: Slice, t: Slice, u: Slice, w1: set<Field>, w2: set<Field>)
    requires OnlyWrites(s, t, w1)
    requires OnlyWrites(t, u, w2)
    ensures OnlyWrites(s, u, w1 + w2)
  {
    forall f | f !in w1 + w2
      ensures Agree(s, u, f)
    {
      assert Agree(s, t, f) && Agree(t, u, f);
    }
  }
}
