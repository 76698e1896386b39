/** Key order: `json.dumps(..., sort_keys=True)` and the digests taken of it.

    `Same` is equality up to the order of keys at every depth, defined without
    sorting anything. The main result, `DigestNamesValue`, is that two values have
    the same digest exactly when they are `Same`. */
module Canonical {
  import opened Prelude
  import opened Json

  // ---------------------------------------------------------------- order of keys

  /** Python's order on strings: by code point, a prefix first. */
  predicate Before(a: string, b: string) {
    b != "" && (a == "" || a[0] < b[0] || (a[0] == b[0] && Before(a[1..], b[1..])))
  }

  lemma {:induction false} BeforeTotal(a: string, b: string)
    ensures a == b || Before(a, b) || Before(b, a)
  {
    if a != "" && b != "" && a[0] == b[0] {
      BeforeTotal(a[1..], b[1..]);
      assert a == [a[0]] + a[1..] && b == [b[0]] + b[1..];
    }
  }

  lemma {:induction false} BeforeStrict(a: string, b: string)
    ensures !(Before(a, b) && Before(b, a))
    ensures !Before(a, a)
  {
    if a != "" {
      BeforeStrict(a[1..], if b != "" then b[1..] else "");
    }
  }

  lemma {:induction false} BeforeTransitive(a: string, b: string, c: string)
    requires Before(a, b) && Before(b, c)
    ensures Before(a, c)
  {
    if a != "" && a[0] == b[0] == c[0] {
      BeforeTransitive(a[1..], b[1..], c[1..]);
    }
  }

  predicate Sorted(f: Fields) {
    match f
    case NoFields => true
    case Field(k, _, rest) => (rest.Field? ==> Before(k, rest.key)) && Sorted(rest)
  }

  lemma {:induction false} HeadIsFirst(f: Fields, key: string)
    requires f.Field? && Sorted(f) && key in Keys(f.rest)
    ensures Before(f.key, key)
  {
    if key != f.rest.key {
      HeadIsFirst(f.rest, key);
      BeforeTransitive(f.key, f.rest.key, key);
    }
  }

  lemma {:induction false} SortedIsDistinct(f: Fields)
    requires Sorted(f)
    ensures Distinct(f)
  {
    if f.Field? {
      SortedIsDistinct(f.rest);
      if f.key in Keys(f.rest) {
        HeadIsFirst(f, f.key);
        BeforeStrict(f.key, f.key);
      }
    }
  }

  lemma {:induction false} GetKeys(f: Fields, key: string)
    ensures Get(f, key).Some? <==> key in Keys(f)
  {
    if f.Field? && f.key != key {
      GetKeys(f.rest, key);
    }
  }

  /** A sorted object is determined by what it maps each key to. */
  lemma {:induction false} SortedExtensional(f: Fields, g: Fields)
    requires Sorted(f) && Sorted(g)
    requires forall k :: Get(f, k) == Get(g, k)
    ensures f == g
  {
    assert f.Field? ==> Get(f, f.key) == Get(g, f.key);
    assert g.Field? ==> Get(f, g.key) == Get(g, g.key);
    if f.Field? && g.Field? {
      SortedIsDistinct(f);
      SortedIsDistinct(g);
      SameHead(f, g);
      forall k
        ensures Get(f.rest, k) == Get(g.rest, k)
      {
        GetKeys(f.rest, k);
        GetKeys(g.rest, k);
        assert Get(f, k) == Get(g, k);
      }
      SortedExtensional(f.rest, g.rest);
    }
  }

  lemma {:induction false} SameHead(f: Fields, g: Fields)
    requires f.Field? && g.Field? && Sorted(f) && Sorted(g)
    requires forall k :: Get(f, k) == Get(g, k)
    ensures f.key == g.key && f.value == g.value
  {
    assert Get(f, f.key) == Get(g, f.key) && Get(f, g.key) == Get(g, g.key);
    if f.key != g.key {
      GetKeys(g.rest, f.key);
      GetKeys(f.rest, g.key);
      HeadIsFirst(g, f.key);
      HeadIsFirst(f, g.key);
      BeforeStrict(f.key, g.key);
    }
  }

  // ---------------------------------------------------------------- canonical form

  function Insert(k: string, v: Json, f: Fields): Fields {
    match f
    case NoFields => Field(k, v, NoFields)
    case Field(j, w, rest) => if Before(j, k) then Field(j, w, Insert(k, v, rest)) else Field(k, v, f)
  }

  /** `sort_keys=True`: every object at every depth, arrays left in place. */
  function Canon(v: Json): Json {
    match v
    case Arr(items) => Arr(CanonItems(items))
    case Obj(f) => Obj(CanonFields(f))
    case _ => v
  }

  function CanonItems(items: Items): Items {
    match items
    case NoItems => NoItems
    case Item(head, tail) => Item(Canon(head), CanonItems(tail))
  }

  function CanonFields(f: Fields): Fields {
    match f
    case NoFields => NoFields
    case Field(k, v, rest) => Insert(k, Canon(v), CanonFields(rest))
  }

  lemma {:induction false} InsertKeepsOrder(k: string, v: Json, f: Fields)
    requires Sorted(f) && k !in Keys(f)
    ensures Sorted(Insert(k, v, f))
    ensures Keys(Insert(k, v, f)) == Keys(f) + {k}
  {
    if f.Field? {
      BeforeTotal(f.key, k);
      if Before(f.key, k) {
        InsertKeepsOrder(k, v, f.rest);
      }
    }
  }

  lemma {:induction false} InsertGet(k: string, v: Json, f: Fields, key: string)
    requires k !in Keys(f)
    ensures Get(Insert(k, v, f), key) == if key == k then Some(v) else Get(f, key)
  {
    if f.Field? && Before(f.key, k) {
      InsertGet(k, v, f.rest, key);
    }
  }

  lemma {:induction false} CanonFieldsSorted(f: Fields)
    requires Distinct(f)
    ensures Sorted(CanonFields(f)) && Keys(CanonFields(f)) == Keys(f)
  {
    if f.Field? {
      CanonFieldsSorted(f.rest);
      InsertKeepsOrder(f.key, Canon(f.value), CanonFields(f.rest));
    }
  }

  lemma {:induction false} CanonFieldsGet(f: Fields, key: string)
    requires Distinct(f)
    ensures match Get(f, key)
            case None => Get(CanonFields(f), key) == None
            case Some(v) => Get(CanonFields(f), key) == Some(Canon(v))
  {
    if f.Field? {
      CanonFieldsSorted(f.rest);
      InsertGet(f.key, Canon(f.value), CanonFields(f.rest), key);
      CanonFieldsGet(f.rest, key);
    }
  }

  lemma {:induction false} CanonIsStrict(v: Json)
    requires Strict(v)
    ensures Strict(Canon(v))
    decreases v
  {
    match v
    case Arr(items) => CanonItemsAreStrict(items);
    case Obj(f) =>
      CanonFieldsAreStrict(f);
      CanonFieldsSorted(f);
      SortedIsDistinct(CanonFields(f));
    case _ =>
  }

  lemma {:induction false} CanonItemsAreStrict(items: Items)
    requires StrictItems(items)
    ensures StrictItems(CanonItems(items))
    decreases items
  {
    if items.Item? {
      CanonIsStrict(items.head);
      CanonItemsAreStrict(items.tail);
    }
  }

  lemma {:induction false} InsertIsStrict(k: string, v: Json, f: Fields)
    requires Strict(v) && StrictFields(f)
    ensures StrictFields(Insert(k, v, f))
  {
    if f.Field? {
      InsertIsStrict(k, v, f.rest);
    }
  }

  lemma {:induction false} CanonFieldsAreStrict(f: Fields)
    requires StrictFields(f)
    ensures StrictFields(CanonFields(f))
    decreases f
  {
    if f.Field? {
      CanonIsStrict(f.value);
      CanonFieldsAreStrict(f.rest);
      InsertIsStrict(f.key, Canon(f.value), CanonFields(f.rest));
    }
  }

  // ---------------------------------------------------------------- equality up to key order

  /** Python's `==` on decoded JSON: the keys of an object may come in any order. */
  predicate Same(v: Json, w: Json)
    decreases v
  {
    if v.Arr? && w.Arr? then SameItems(v.items, w.items)
    else if v.Obj? && w.Obj? then Keys(v.fields) == Keys(w.fields) && SameFields(v.fields, w.fields)
    else v == w
  }

  predicate SameItems(a: Items, b: Items)
    decreases a
  {
    if a.Item? && b.Item? then Same(a.head, b.head) && SameItems(a.tail, b.tail) else a == b
  }

  predicate SameFields(f: Fields, g: Fields)
    decreases f
  {
    match f
    case NoFields => true
    case Field(k, v, rest) => Get(g, k).Some? && Same(v, Get(g, k).value) && SameFields(rest, g)
  }

  lemma {:induction false} SameIsCanon(v: Json, w: Json)
    requires Strict(v) && Strict(w) && Same(v, w)
    ensures Canon(v) == Canon(w)
    decreases v
  {
    if v.Arr? && w.Arr? {
      SameItemsAreCanon(v.items, w.items);
    } else if v.Obj? && w.Obj? {
      var f, g := v.fields, w.fields;
      SameFieldsAreCanon(f, g);
      CanonFieldsSorted(f);
      CanonFieldsSorted(g);
      forall k
        ensures Get(CanonFields(f), k) == Get(CanonFields(g), k)
      {
        CanonFieldsGet(f, k);
        CanonFieldsGet(g, k);
        GetKeys(f, k);
        GetKeys(g, k);
      }
      SortedExtensional(CanonFields(f), CanonFields(g));
    }
  }

  lemma {:induction false} SameItemsAreCanon(a: Items, b: Items)
    requires StrictItems(a) && StrictItems(b) && SameItems(a, b)
    ensures CanonItems(a) == CanonItems(b)
    decreases a
  {
    if a.Item? && b.Item? {
      SameIsCanon(a.head, b.head);
      SameItemsAreCanon(a.tail, b.tail);
    }
  }

  lemma {:induction false} SameFieldsAreCanon(f: Fields, g: Fields)
    requires StrictFields(f) && StrictFields(g) && SameFields(f, g)
    ensures forall k :: Get(f, k).Some? ==> Get(g, k).Some? && Canon(Get(f, k).value) == Canon(Get(g, k).value)
    decreases f
  {
    if f.Field? {
      StrictGet(g, f.key);
      SameIsCanon(f.value, Get(g, f.key).value);
      SameFieldsAreCanon(f.rest, g);
    }
  }

  lemma {:induction false} CanonIsSame(v: Json, w: Json)
    requires Strict(v) && Strict(w) && Canon(v) == Canon(w)
    ensures Same(v, w)
    decreases v
  {
    if v.Arr? {
      CanonItemsAreSame(v.items, w.items);
    } else if v.Obj? {
      var f, g := v.fields, w.fields;
      CanonFieldsSorted(f);
      CanonFieldsSorted(g);
      forall k | Get(f, k).Some?
        ensures Get(g, k).Some? && Canon(Get(f, k).value) == Canon(Get(g, k).value)
      {
        CanonFieldsGet(f, k);
        CanonFieldsGet(g, k);
      }
      CanonFieldsAreSame(f, g);
    }
  }

  lemma {:induction false} CanonItemsAreSame(a: Items, b: Items)
    requires StrictItems(a) && StrictItems(b) && CanonItems(a) == CanonItems(b)
    ensures SameItems(a, b)
    decreases a
  {
    if a.Item? {
      CanonIsSame(a.head, b.head);
      CanonItemsAreSame(a.tail, b.tail);
    }
  }

  lemma {:induction false} CanonFieldsAreSame(f: Fields, g: Fields)
    requires Distinct(f) && StrictFields(f) && StrictFields(g)
    requires forall k :: Get(f, k).Some? ==> Get(g, k).Some? && Canon(Get(f, k).value) == Canon(Get(g, k).value)
    ensures SameFields(f, g)
    decreases f
  {
    if f.Field? {
      assert Get(f, f.key) == Some(f.value);
      StrictGet(g, f.key);
      CanonIsSame(f.value, Get(g, f.key).value);
      forall k | Get(f.rest, k).Some?
        ensures Get(g, k).Some? && Canon(Get(f.rest, k).value) == Canon(Get(g, k).value)
      {
        GetKeys(f.rest, k);
        assert Get(f, k) == Get(f.rest, k);
      }
      CanonFieldsAreSame(f.rest, g);
    }
  }

  // ---------------------------------------------------------------- digests

  /** The text `digest` hashes. SHA-256 is taken to be collision-free, so the
      text itself stands for the hash. */
  function Digest(v: Json): string {
    Print(Canon(v), Compact)
  }

  /** Two values have the same digest exactly when they differ at most in key order. */
  lemma {:induction false} DigestNamesValue(v: Json, w: Json)
    requires Strict(v) && Strict(w)
    ensures Digest(v) == Digest(w) <==> Same(v, w)
  {
    CanonIsStrict(v);
    CanonIsStrict(w);
    if Digest(v) == Digest(w) {
      PrintInjective(Canon(v), Canon(w), Compact);
      CanonIsSame(v, w);
    }
    if Same(v, w) {
      SameIsCanon(v, w);
    }
  }

  lemma {:induction false} SameAsCanon(v: Json)
    requires Strict(v)
    ensures Same(v, Canon(v))
    decreases v
  {
    match v
    case Arr(items) => SameAsCanonItems(items);
    case Obj(f) =>
      CanonFieldsSorted(f);
      forall k | Get(f, k).Some?
        ensures Get(CanonFields(f), k) == Some(Canon(Get(f, k).value))
      {
        CanonFieldsGet(f, k);
      }
      SameAsCanonFields(f, CanonFields(f));
    case _ =>
  }

  lemma {:induction false} SameAsCanonItems(items: Items)
    requires StrictItems(items)
    ensures SameItems(items, CanonItems(items))
    decreases items
  {
    if items.Item? {
      SameAsCanon(items.head);
      SameAsCanonItems(items.tail);
    }
  }

  lemma {:induction false} SameAsCanonFields(f: Fields, g: Fields)
    requires Distinct(f) && StrictFields(f)
    requires forall k :: Get(f, k).Some? ==> Get(g, k) == Some(Canon(Get(f, k).value))
    ensures SameFields(f, g)
    decreases f
  {
    if f.Field? {
      assert Get(f, f.key) == Some(f.value);
      SameAsCanon(f.value);
      forall k | Get(f.rest, k).Some?
        ensures Get(g, k) == Some(Canon(Get(f.rest, k).value))
      {
        GetKeys(f.rest, k);
        assert Get(f, k) == Get(f.rest, k);
      }
      SameAsCanonFields(f.rest, g);
    }
  }

  /** Sorting sorted keys changes nothing, so a digest can be taken of what was printed. */
  lemma {:induction false} CanonTwice(v: Json)
    requires Strict(v)
    ensures Canon(Canon(v)) == Canon(v)
  {
    SameAsCanon(v);
    CanonIsStrict(v);
    SameIsCanon(v, Canon(v));
  }

  /** Printing and reading a value back leaves its digest alone. */
  lemma {:induction false} DigestOfPrinted(v: Json)
    requires Strict(v)
    ensures Loads(Digest(v)) == Some(Canon(v)) && Digest(Canon(v)) == Digest(v)
  {
    CanonIsStrict(v);
    DumpsRoundTrip(Canon(v), Compact);
    CanonTwice(v);
  }

  // ---------------------------------------------------------------- printed length

  /** Space the fields take, each with a comma after it. */
  function Width(f: Fields, st: Style): nat {
    match f
    case NoFields => 0
    case Field(k, v, rest) => |Quote(k)| + |st.Colon()| + |Print(v, st)| + |st.Comma()| + Width(rest, st)
  }

  lemma {:induction false} PrintFieldsLength(f: Fields, st: Style)
    ensures |PrintFields(f, st)| == if f.Field? then Width(f, st) - |st.Comma()| else 0
  {
    if f.Field? {
      PrintFieldsLength(f.rest, st);
    }
  }

  lemma {:induction false} InsertWidth(k: string, v: Json, f: Fields, st: Style)
    ensures Width(Insert(k, v, f), st) == Width(f, st) + Width(Field(k, v, NoFields), st)
  {
    if f.Field? {
      InsertWidth(k, v, f.rest, st);
    }
  }

  lemma {:induction false} CanonLength(v: Json, st: Style)
    ensures |Print(Canon(v), st)| == |Print(v, st)|
    decreases v
  {
    match v
    case Arr(items) => CanonItemsLength(items, st);
    case Obj(f) =>
      CanonFieldsWidth(f, st);
      PrintFieldsLength(f, st);
      PrintFieldsLength(CanonFields(f), st);
    case _ =>
  }

  lemma {:induction false} CanonItemsLength(items: Items, st: Style)
    ensures |PrintItems(CanonItems(items), st)| == |PrintItems(items, st)|
    decreases items
  {
    if items.Item? {
      CanonLength(items.head, st);
      CanonItemsLength(items.tail, st);
    }
  }

  lemma {:induction false} CanonFieldsWidth(f: Fields, st: Style)
    ensures Width(CanonFields(f), st) == Width(f, st)
    ensures f.Field? <==> CanonFields(f).Field?
    decreases f
  {
    if f.Field? {
      CanonLength(f.value, st);
      CanonFieldsWidth(f.rest, st);
      InsertWidth(f.key, Canon(f.value), CanonFields(f.rest), st);
    }
  }

  /** The size limit on arguments cannot depend on the order of their keys. */
  lemma {:induction false} SameLength(v: Json, w: Json, st: Style)
    requires Strict(v) && Strict(w) && Same(v, w)
    ensures |Print(v, st)| == |Print(w, st)|
  {
    SameIsCanon(v, w);
    CanonLength(v, st);
    CanonLength(w, st);
  }
}
