/**
 * `BaseDTO`, the base of every record class: hydration from an array by
 * declared property name, serialisation back to an array, `fromArray`,
 * `collection` and the magic accessors.
 *
 * A record is a value: nothing changes a record's properties once its
 * constructor has returned, so sharing one is indistinguishable from
 * copying it.
 *
 * Every property is typed and the class is compiled under strict typing,
 * so the constructor's `$this->{$key} = $value` fails with a TypeError on
 * a value of another type (an int is widened into a float property, the
 * one conversion strict typing allows), and `property_exists` fails with a
 * TypeError on an integer key.
 *
 * `fixNested` selects between the constructor as written (false) and the
 * corrected one (true), which leaves an array given for a record-typed
 * property to the subclass constructor that re-hydrates it; see the
 * subclass modules.
 */
module BaseDto {
  import opened Wrappers
  import opened DtoSchemas
  import opened PhpValues
  import opened EfakturaExceptions

  /** A fresh instance: every declared property at its default, null. */
  function Defaults(s: Schema): (r: Record)
    ensures r.cls == s.cls
    ensures forall n :: n in r.props <==> n in s.names
    ensures forall n :: n in r.props ==> r.props[n] == Null
  {
    Record(s.cls, map n | n in s.names :: Null)
  }

  /** `v` is an instance of the declared type as it stands, without conversion. */
  predicate Fits(ty: FieldType, v: Value)
  {
    match ty
    case TString => v.Str?
    case TInt => v.Int?
    case TFloat => v.Float?
    case TBool => v.Bool?
    case TArray => v.Arr?
    case TObject(c) => v.Obj? && v.rec.cls == c
  }

  /**
   * Assigning `v` to a property of declared type `ty` (nullable) under
   * strict typing: what the property then holds.
   */
  function Assign(ty: Option<FieldType>, v: Value): (r: Result<Value, Failure>)
    ensures ty.None? || v == Null || Fits(ty.value, v) ==> r == Ok(v)
    ensures ty == Some(TFloat) && v.Int? ==> r == Ok(Float(Widen(v.i)))
    ensures r.Err? <==> ty.Some? && v != Null && !Fits(ty.value, v) && !(ty.value == TFloat && v.Int?)
    ensures r.Err? ==> r.error.TypeError?
  {
    if ty.None? || v == Null || Fits(ty.value, v) then Ok(v)
    else if ty.value == TFloat && v.Int? then Ok(Float(Widen(v.i)))
    else Err(TypeError("Cannot assign value to typed property"))
  }

  /** The corrected constructor leaves an array given for a record-typed property to the subclass. */
  predicate LeftToSubclass(s: Schema, n: string, v: Value, fixNested: bool)
  {
    fixNested && s.typeOf(n).Some? && s.typeOf(n).value.TObject? && v.Arr?
  }

  /** One iteration of the constructor's loop. */
  function AbsorbEntry(s: Schema, props: map<string, Value>, e: Entry, fixNested: bool): (r: Result<map<string, Value>, Failure>)
  {
    match e.key
    case IntKey(_) => Err(TypeError("property_exists(): Argument #2 ($property) must be of type string, int given"))
    case StrKey(n) =>
      if n !in props || LeftToSubclass(s, n, e.val, fixNested) then Ok(props)
      else
        match Assign(s.typeOf(n), e.val)
        case Ok(v) => Ok(props[n := v])
        case Err(f) => Err(f)
  }

  /** The constructor's loop over the first |data| entries; the first failure ends it. */
  function AbsorbAll(s: Schema, data: seq<Entry>, fixNested: bool): Result<map<string, Value>, Failure>
  {
    if data == [] then Ok(Defaults(s).props)
    else
      match AbsorbAll(s, data[..|data| - 1], fixNested)
      case Err(f) => Err(f)
      case Ok(props) => AbsorbEntry(s, props, data[|data| - 1], fixNested)
  }

  /** `new static($data)` for a class without a constructor of its own. */
  function BaseConstruct(cls: DtoClass, data: seq<Entry>, fixNested: bool): Result<Record, Failure>
  {
    match AbsorbAll(SchemaOf(cls), data, fixNested)
    case Ok(props) => Ok(Record(cls, props))
    case Err(f) => Err(f)
  }

  /** `BaseDTO::__construct`: the foreach over the data, writing each declared property it names. */
  method Construct(cls: DtoClass, data: seq<Entry>, fixNested: bool) returns (r: Result<Record, Failure>)
    ensures r == BaseConstruct(cls, data, fixNested)
  {
    var props := Absorb(SchemaOf(cls), data, fixNested);
    r := if props.Ok? then Ok(Record(cls, props.value)) else Err(props.error);
  }

  /** The loop of `BaseDTO::__construct` for a class of schema `s`. */
  method Absorb(s: Schema, data: seq<Entry>, fixNested: bool) returns (r: Result<map<string, Value>, Failure>)
    ensures r == AbsorbAll(s, data, fixNested)
  {
    var props := Defaults(s).props;
    var i := 0;
    while i < |data|
      invariant 0 <= i <= |data|
      invariant AbsorbAll(s, data[..i], fixNested) == Ok(props)
    {
      AbsorbStep(s, data, i, props, fixNested);
      var e := data[i];
      match e.key {
        case IntKey(_) =>
          FailureStands(s, data, i + 1, fixNested);
          return Err(TypeError("property_exists(): Argument #2 ($property) must be of type string, int given"));
        case StrKey(n) =>
          if n in props && !LeftToSubclass(s, n, e.val, fixNested) {
            var written := Assign(s.typeOf(n), e.val);
            if written.Err? {
              FailureStands(s, data, i + 1, fixNested);
              return Err(written.error);
            }
            assert AbsorbEntry(s, props, e, fixNested) == Ok(props[n := written.value]);
            props := props[n := written.value];
          } else {
            assert AbsorbEntry(s, props, e, fixNested) == Ok(props);
          }
      }
      i := i + 1;
    }
    assert data[..i] == data;
    r := Ok(props);
  }

  /** One more iteration of the loop. */
  lemma AbsorbStep(s: Schema, data: seq<Entry>, i: nat, props: map<string, Value>, fixNested: bool)
    requires i < |data| && AbsorbAll(s, data[..i], fixNested) == Ok(props)
    ensures AbsorbAll(s, data[..i + 1], fixNested) == AbsorbEntry(s, props, data[i], fixNested)
  {
    assert data[..i + 1][..i] == data[..i];
  }

  /** The entry is one the constructor accepts: a string key, and a value its property can take. */
  predicate Accepted(s: Schema, e: Entry, fixNested: bool)
  {
    e.key.StrKey? &&
    (e.key.s in s.names && !LeftToSubclass(s, e.key.s, e.val, fixNested) ==>
       Assign(s.typeOf(e.key.s), e.val).Ok?)
  }

  /** Once the loop has failed, the rest of the data changes nothing. */
  lemma {:induction false} FailureStands(s: Schema, data: seq<Entry>, i: nat, fixNested: bool)
    requires i <= |data| && AbsorbAll(s, data[..i], fixNested).Err?
    ensures AbsorbAll(s, data, fixNested) == AbsorbAll(s, data[..i], fixNested)
    decreases |data| - i
  {
    if i < |data| {
      assert data[..i + 1][..i] == data[..i];
      FailureStands(s, data, i + 1, fixNested);
    } else {
      assert data[..i] == data;
    }
  }

  /** The constructor neither adds nor removes a property. */
  lemma {:induction false} AbsorbKeepsProperties(s: Schema, data: seq<Entry>, fixNested: bool)
    ensures AbsorbAll(s, data, fixNested).Ok? ==>
      forall n :: n in AbsorbAll(s, data, fixNested).value <==> n in s.names
  {
    if data != [] {
      AbsorbKeepsProperties(s, data[..|data| - 1], fixNested);
    }
  }

  /** The constructor succeeds exactly when it accepts every entry. */
  lemma {:induction false} AbsorbSucceeds(s: Schema, data: seq<Entry>, fixNested: bool)
    ensures AbsorbAll(s, data, fixNested).Ok? <==> forall i :: 0 <= i < |data| ==> Accepted(s, data[i], fixNested)
  {
    if data != [] {
      var init := data[..|data| - 1];
      AbsorbSucceeds(s, init, fixNested);
      AbsorbKeepsProperties(s, init, fixNested);
      assert forall i :: 0 <= i < |init| ==> init[i] == data[i];
    }
  }

  /**
   * After the constructor, each declared property holds the last value
   * given for it (as assigned), or null when no entry names it.
   */
  lemma {:induction false} AbsorbValues(s: Schema, data: seq<Entry>, fixNested: bool)
    ensures AbsorbAll(s, data, fixNested).Ok? ==>
      var props := AbsorbAll(s, data, fixNested).value;
      forall n :: n in props ==> props[n] == Hydrated(s, data, n, fixNested)
  {
    if data != [] {
      AbsorbValues(s, data[..|data| - 1], fixNested);
    }
  }

  /**
   * The value property `n` ends up with: the last value given for it that
   * the constructor writes (as assigned), or null.
   */
  function Hydrated(s: Schema, data: seq<Entry>, n: string, fixNested: bool): Value
  {
    if data == [] then Null
    else
      var e := data[|data| - 1];
      if e.key == StrKey(n) && !LeftToSubclass(s, n, e.val, fixNested) && Assign(s.typeOf(n), e.val).Ok? then
        Assign(s.typeOf(n), e.val).value
      else Hydrated(s, data[..|data| - 1], n, fixNested)
  }

  /** With every entry accepted, a property's value is read off the data as `$data[$n]` reads it. */
  lemma {:induction false} HydratedByLookup(s: Schema, data: seq<Entry>, n: string, fixNested: bool)
    requires forall i :: 0 <= i < |data| ==> Accepted(s, data[i], fixNested)
    requires n in s.names
    ensures Lookup(data, StrKey(n)).None? ==> Hydrated(s, data, n, fixNested) == Null
    ensures Lookup(data, StrKey(n)).Some? && !LeftToSubclass(s, n, Lookup(data, StrKey(n)).value, fixNested) ==>
      Assign(s.typeOf(n), Lookup(data, StrKey(n)).value) == Ok(Hydrated(s, data, n, fixNested))
  {
    if data != [] {
      var init := data[..|data| - 1];
      assert forall i :: 0 <= i < |init| ==> init[i] == data[i];
      HydratedByLookup(s, init, n, fixNested);
    }
  }

  /**
   * The constructor's loop for a class of schema `s`: it succeeds exactly
   * when every entry has a string key and every declared property named
   * gets a value of its type; then the record has exactly the declared
   * properties, an unnamed one stays null, and a named one holds `$data[$n]`
   * as assigned. Keys that name no property are ignored.
   */
  lemma AbsorbSpec(s: Schema, data: seq<Entry>, fixNested: bool)
    ensures AbsorbAll(s, data, fixNested).Ok? <==>
      forall i :: 0 <= i < |data| ==> Accepted(s, data[i], fixNested)
    ensures AbsorbAll(s, data, fixNested).Ok? ==>
      var props := AbsorbAll(s, data, fixNested).value;
      (forall n :: n in props <==> n in s.names) &&
      (forall n :: n in props && Lookup(data, StrKey(n)).None? ==> props[n] == Null) &&
      (forall n :: (n in props && Lookup(data, StrKey(n)).Some? &&
                   !LeftToSubclass(s, n, Lookup(data, StrKey(n)).value, fixNested)) ==>
         Assign(s.typeOf(n), Lookup(data, StrKey(n)).value) == Ok(props[n]))
  {
    AbsorbSucceeds(s, data, fixNested);
    AbsorbKeepsProperties(s, data, fixNested);
    AbsorbValues(s, data, fixNested);
    if AbsorbAll(s, data, fixNested).Ok? {
      forall n | n in s.names {
        HydratedByLookup(s, data, n, fixNested);
      }
    }
  }

  /** `toArray` applied to one non-null property value. */
  function SerializeValue(v: Value): Value
    decreases v, 1
  {
    match v
    case Obj(r) => Arr(AsArray(r))
    case Arr(items) => Arr(MapItems(items))
    case EnumCase(b) => Str(b)
    case DateTime(iso) => Str(iso)
    case _ => v
  }

  /** The `array_map` over an array property: each record item becomes its array, other items pass unchanged. */
  function MapItems(items: seq<Entry>): (r: seq<Entry>)
    ensures |r| == |items|
    decreases items, 0
  {
    if items == [] then []
    else
      var e := items[|items| - 1];
      assert e.val.Obj? ==> e.val.rec < e.val && e.val < e && e in items;
      MapItems(items[..|items| - 1]) + [Entry(e.key, if e.val.Obj? then Arr(AsArray(e.val.rec)) else e.val)]
  }

  /**
   * The array property's items keep their keys and order; record items
   * become their arrays and every other item passes unchanged.
   */
  lemma {:induction false} MapItemsSpec(items: seq<Entry>)
    ensures |MapItems(items)| == |items|
    ensures forall i :: 0 <= i < |items| ==> MapItems(items)[i].key == items[i].key
    ensures forall i :: 0 <= i < |items| ==>
      MapItems(items)[i].val == if items[i].val.Obj? then Arr(AsArray(items[i].val.rec)) else items[i].val
  {
    if items != [] {
      var init := items[..|items| - 1];
      MapItemsSpec(init);
      var e := items[|items| - 1];
      var last := Entry(e.key, if e.val.Obj? then Arr(AsArray(e.val.rec)) else e.val);
      assert MapItems(items) == MapItems(init) + [last];
      forall i | 0 <= i < |items|
        ensures MapItems(items)[i].key == items[i].key
        ensures MapItems(items)[i].val == if items[i].val.Obj? then Arr(AsArray(items[i].val.rec)) else items[i].val
      {
        if i < |init| {
          assert items[i] == init[i];
          assert MapItems(items)[i] == MapItems(init)[i];
        }
      }
    }
  }

  /** `toArray()`: the record's non-null properties in declaration order, each serialised. */
  function AsArray(r: Record): seq<Entry>
    decreases r, 3
  {
    Emit(r, Properties(r.cls))
  }

  /** The loop of `toArray` over the property names `names`. */
  function Emit(r: Record, names: seq<string>): seq<Entry>
    decreases r, 2, |names|
  {
    if names == [] then []
    else
      var n := names[|names| - 1];
      var v := if n in r.props then r.props[n] else Null;
      Emit(r, names[..|names| - 1]) + if v == Null then [] else [Entry(StrKey(n), SerializeValue(v))]
  }

  /** `BaseDTO::toArray`: `$result` grown key by key over the properties. */
  method ToArray(r: Record) returns (result: seq<Entry>)
    ensures result == AsArray(r)
  {
    result := EmitLoop(r, Properties(r.cls));
  }

  /** The loop of `toArray` over the property names `names`. */
  method EmitLoop(r: Record, names: seq<string>) returns (result: seq<Entry>)
    ensures result == Emit(r, names)
  {
    result := [];
    var i := 0;
    while i < |names|
      invariant 0 <= i <= |names|
      invariant result == Emit(r, names[..i])
    {
      assert names[..i + 1][..i] == names[..i];
      var n := names[i];
      var v := if n in r.props then r.props[n] else Null;
      if v != Null {
        result := result + [Entry(StrKey(n), SerializeValue(v))];
      }
      i := i + 1;
    }
    assert names[..i] == names;
  }

  /** Each listed non-null property appears with its serialised value. */
  lemma {:induction false} EmitLookup(r: Record, names: seq<string>, n: string)
    ensures Lookup(Emit(r, names), StrKey(n)) ==
      if n in names && n in r.props && r.props[n] != Null then Some(SerializeValue(r.props[n])) else None
  {
    if names != [] {
      var init := names[..|names| - 1];
      var m := names[|names| - 1];
      EmitLookup(r, init, n);
      var v := if m in r.props then r.props[m] else Null;
      var tail := if v == Null then [] else [Entry(StrKey(m), SerializeValue(v))];
      assert Emit(r, names) == Emit(r, init) + tail;
      LookupAppend(Emit(r, init), tail, StrKey(n));
      assert names == init + [m];
      assert n in names <==> n in init || n == m;
      if n == m {
        assert Lookup(tail, StrKey(n)) == if v == Null then None else Some(SerializeValue(v));
      } else {
        assert Lookup(tail, StrKey(n)).None?;
      }
    }
  }

  /**
   * `toArray` emits a key exactly for the declared properties that are not
   * null, with the property's serialised value, and no other key.
   */
  lemma AsArrayLookup(r: Record, k: Key)
    ensures Lookup(AsArray(r), k) ==
      if k.StrKey? && k.s in Properties(r.cls) && k.s in r.props && r.props[k.s] != Null
      then Some(SerializeValue(r.props[k.s])) else None
  {
    if k.StrKey? {
      EmitLookup(r, Properties(r.cls), k.s);
    } else {
      EmitEntries(r, Properties(r.cls));
    }
  }

  /**
   * `collection`: `array_map` of `fromArray` over the items, keeping their
   * keys and order. An item that is not an array is refused by the
   * closure's `array` parameter; the first failure ends the map.
   */
  function Collection(items: seq<Entry>, fromArray: seq<Entry> -> Result<Record, Failure>): (r: Result<seq<Entry>, Failure>)
    ensures r.Ok? <==> forall i :: 0 <= i < |items| ==> items[i].val.Arr? && fromArray(items[i].val.entries).Ok?
    ensures r.Ok? ==> |r.value| == |items|
    ensures r.Ok? ==>
      forall i :: 0 <= i < |items| ==>
        r.value[i] == Entry(items[i].key, Obj(fromArray(items[i].val.entries).value))
  {
    if items == [] then Ok([])
    else
      var init := items[..|items| - 1];
      var e := items[|items| - 1];
      assert forall i :: 0 <= i < |init| ==> init[i] == items[i];
      match Collection(init, fromArray)
      case Err(f) => Err(f)
      case Ok(done) =>
        if !e.val.Arr? then Err(TypeError("{closure}(): Argument #1 ($item) must be of type array"))
        else
          match fromArray(e.val.entries)
          case Err(f) => Err(f)
          case Ok(rec) => Ok(done + [Entry(e.key, Obj(rec))])
  }

  /** `__isset`: the property exists and is not null. */
  predicate IsSetProperty(r: Record, name: string)
  {
    name in r.props && r.props[name] != Null
  }

  /** `__get`: the property's value, and null for a name that is not set. */
  function Get(r: Record, name: string): (v: Value)
    ensures v != Null <==> IsSetProperty(r, name)
    ensures v != Null ==> v == r.props[name]
  {
    if name in r.props then r.props[name] else Null
  }

  /** Every entry `toArray` emits is a listed, non-null property with its serialised value. */
  lemma {:induction false} EmitEntries(r: Record, names: seq<string>)
    ensures forall i :: 0 <= i < |Emit(r, names)| ==>
      var e := Emit(r, names)[i];
      e.key.StrKey? && e.key.s in names && e.key.s in r.props && r.props[e.key.s] != Null &&
      e.val == SerializeValue(r.props[e.key.s])
  {
    if names != [] {
      EmitEntries(r, names[..|names| - 1]);
    }
  }

  /** A value `toArray` copies verbatim: a scalar, or an array with no record among its items. */
  predicate Plain(v: Value)
  {
    v.Null? || v.Bool? || v.Int? || v.Float? || v.Str? ||
    (v.Arr? && forall i :: 0 <= i < |v.entries| ==> !v.entries[i].val.Obj?)
  }

  lemma SerializePlain(v: Value)
    requires Plain(v) && v != Null
    ensures SerializeValue(v) == v
  {
    if v.Arr? {
      MapItemsSpec(v.entries);
      assert MapItems(v.entries) == v.entries;
    }
  }

  /**
   * The loop's output for plain data, before the class is fixed: exactly
   * the declared keys that are set in the data, each with its value as
   * assigned.
   */
  lemma EmitOfAbsorb(s: Schema, data: seq<Entry>, fixNested: bool, k: Key)
    requires AbsorbAll(s, data, fixNested).Ok?
    requires forall i :: 0 <= i < |data| ==> Plain(data[i].val)
    requires forall i :: 0 <= i < |data| && data[i].key.StrKey? ==> !LeftToSubclass(s, data[i].key.s, data[i].val, fixNested)
    ensures var r := Record(s.cls, AbsorbAll(s, data, fixNested).value);
      k.StrKey? && k.s in s.names && IsSet(data, k) ==>
        Lookup(Emit(r, s.names), k).Some? &&
        Assign(s.typeOf(k.s), Lookup(data, k).value) == Ok(Lookup(Emit(r, s.names), k).value)
    ensures var r := Record(s.cls, AbsorbAll(s, data, fixNested).value);
      !(k.StrKey? && k.s in s.names && IsSet(data, k)) ==> Lookup(Emit(r, s.names), k).None?
  {
    var props := AbsorbAll(s, data, fixNested).value;
    var r := Record(s.cls, props);
    AbsorbSpec(s, data, fixNested);
    EmitEntries(r, s.names);
    if k.StrKey? {
      var n := k.s;
      EmitLookup(r, s.names, n);
      if n in s.names && Lookup(data, k).Some? {
        var v := Lookup(data, k).value;
        var i :| 0 <= i < |data| && data[i] == Entry(k, v);
        assert Plain(v) && !LeftToSubclass(s, n, v, fixNested);
        assert Assign(s.typeOf(n), v) == Ok(props[n]);
        if v != Null {
          assert props[n] != Null;
          SerializePlain(props[n]);
        }
      }
    }
  }

  /**
   * `toArray(fromArray($data))` for data of plain values: exactly the
   * declared keys that are set in the data, each with its value as
   * assigned (an int given for a float property comes back a float).
   */
  lemma ToArrayOfFromArray(cls: DtoClass, data: seq<Entry>, fixNested: bool, k: Key)
    requires BaseConstruct(cls, data, fixNested).Ok?
    requires forall i :: 0 <= i < |data| ==> Plain(data[i].val)
    requires forall i :: 0 <= i < |data| && data[i].key.StrKey? ==> !LeftToSubclass(SchemaOf(cls), data[i].key.s, data[i].val, fixNested)
    ensures var r := BaseConstruct(cls, data, fixNested).value;
      k.StrKey? && k.s in Properties(cls) && IsSet(data, k) ==>
        Lookup(AsArray(r), k).Some? &&
        Assign(PropertyType(cls, k.s), Lookup(data, k).value) == Ok(Lookup(AsArray(r), k).value)
    ensures var r := BaseConstruct(cls, data, fixNested).value;
      !(k.StrKey? && k.s in Properties(cls) && IsSet(data, k)) ==> Lookup(AsArray(r), k).None?
  {
    EmitOfAbsorb(SchemaOf(cls), data, fixNested, k);
  }

  /** Properties as the constructor leaves them for plain data: each null or a plain value of its type. */
  ghost predicate PlainProps(s: Schema, props: map<string, Value>)
  {
    (forall n :: n in props <==> n in s.names) &&
    forall n :: n in props ==>
      props[n] == Null || (s.typeOf(n).Some? && Fits(s.typeOf(n).value, props[n]) && Plain(props[n]))
  }

  /** The loop rebuilds plain properties from their own serialisation. */
  lemma AbsorbOfEmit(s: Schema, r: Record, fixNested: bool)
    requires PlainProps(s, r.props)
    ensures AbsorbAll(s, Emit(r, s.names), fixNested) == Ok(r.props)
  {
    var data := Emit(r, s.names);
    EmitEntries(r, s.names);
    forall i | 0 <= i < |data|
      ensures Accepted(s, data[i], fixNested)
    {
      SerializePlain(r.props[data[i].key.s]);
    }
    AbsorbSpec(s, data, fixNested);
    var props := AbsorbAll(s, data, fixNested).value;
    forall n | n in r.props
      ensures props[n] == r.props[n]
    {
      EmitLookup(r, s.names, n);
      if r.props[n] != Null {
        SerializePlain(r.props[n]);
      }
    }
    assert props == r.props;
  }

  /** A record of plain properties, each null or a value of its declared type. */
  ghost predicate PlainRecord(r: Record)
  {
    PlainProps(SchemaOf(r.cls), r.props)
  }

  /** `fromArray($r->toArray())` rebuilds a plain record exactly. */
  lemma FromArrayOfToArray(r: Record, fixNested: bool)
    requires PlainRecord(r)
    ensures BaseConstruct(r.cls, AsArray(r), fixNested) == Ok(r)
  {
    AbsorbOfEmit(SchemaOf(r.cls), r, fixNested);
  }

  /**
   * A subclass constructor's `$this->key = C::fromArray($data['key'])`,
   * taken when `$data['key']` is set and is an array.
   */
  function RehydrateRecord(r: Record, data: seq<Entry>, key: string, cls: DtoClass, fixNested: bool): (res: Result<Record, Failure>)
    ensures res.Ok? ==> res.value.cls == r.cls
    ensures res.Ok? ==> forall n :: n != key ==> (n in res.value.props <==> n in r.props)
    ensures res.Ok? ==> forall n :: n != key && n in r.props ==> res.value.props[n] == r.props[n]
    ensures res.Ok? && key in r.props ==> res.value.props.Keys == r.props.Keys
    ensures !(IsSet(data, StrKey(key)) && Lookup(data, StrKey(key)).value.Arr?) ==> res == Ok(r)
    ensures IsSet(data, StrKey(key)) && Lookup(data, StrKey(key)).value.Arr? ==>
      var nested := BaseConstruct(cls, Lookup(data, StrKey(key)).value.entries, fixNested);
      (res.Ok? <==> nested.Ok?) && (res.Ok? ==> key in res.value.props && res.value.props[key] == Obj(nested.value))
  {
    if IsSet(data, StrKey(key)) && Lookup(data, StrKey(key)).value.Arr? then
      var nested :- BaseConstruct(cls, Lookup(data, StrKey(key)).value.entries, fixNested);
      Ok(Record(r.cls, r.props[key := Obj(nested)]))
    else Ok(r)
  }

  /**
   * A subclass constructor's `$this->key = C::collection($data['key'])`,
   * taken when `$data['key']` is set and is an array.
   */
  function RehydrateList(r: Record, data: seq<Entry>, key: string, cls: DtoClass, fixNested: bool): (res: Result<Record, Failure>)
    ensures res.Ok? ==> res.value.cls == r.cls
    ensures res.Ok? ==> forall n :: n != key ==> (n in res.value.props <==> n in r.props)
    ensures res.Ok? ==> forall n :: n != key && n in r.props ==> res.value.props[n] == r.props[n]
    ensures res.Ok? && key in r.props ==> res.value.props.Keys == r.props.Keys
    ensures !(IsSet(data, StrKey(key)) && Lookup(data, StrKey(key)).value.Arr?) ==> res == Ok(r)
    ensures IsSet(data, StrKey(key)) && Lookup(data, StrKey(key)).value.Arr? ==>
      var list := Collection(Lookup(data, StrKey(key)).value.entries, d => BaseConstruct(cls, d, fixNested));
      (res.Ok? <==> list.Ok?) && (res.Ok? ==> key in res.value.props && res.value.props[key] == Arr(list.value))
  {
    if IsSet(data, StrKey(key)) && Lookup(data, StrKey(key)).value.Arr? then
      var list :- Collection(Lookup(data, StrKey(key)).value.entries, d => BaseConstruct(cls, d, fixNested));
      Ok(Record(r.cls, r.props[key := Arr(list)]))
    else Ok(r)
  }

  /** Every way the constructor's loop fails is a TypeError. */
  lemma {:induction false} AbsorbFailsWithTypeError(s: Schema, data: seq<Entry>, fixNested: bool)
    ensures AbsorbAll(s, data, fixNested).Err? ==> AbsorbAll(s, data, fixNested).error.TypeError?
  {
    if data != [] {
      AbsorbFailsWithTypeError(s, data[..|data| - 1], fixNested);
    }
  }

  /**
   * Properties a subclass with nested records writes out and the corrected
   * constructor takes back: each null, or a value of its declared type
   * that is plain, a record, or a list of records.
   */
  ghost predicate RestorableProps(s: Schema, props: map<string, Value>)
  {
    (forall n :: n in props <==> n in s.names) &&
    forall n :: n in props ==>
      props[n] == Null ||
      (s.typeOf(n).Some? && Fits(s.typeOf(n).value, props[n]) &&
       (Plain(props[n]) || props[n].Obj? ||
        (props[n].Arr? && forall i :: 0 <= i < |props[n].entries| ==> props[n].entries[i].val.Obj?)))
  }

  /** The corrected loop accepts every entry of a restorable record's serialisation. */
  lemma EmitAcceptedCorrected(s: Schema, r: Record)
    requires RestorableProps(s, r.props)
    ensures forall i :: 0 <= i < |Emit(r, s.names)| ==> Accepted(s, Emit(r, s.names)[i], true)
  {
    var data := Emit(r, s.names);
    EmitEntries(r, s.names);
    forall i | 0 <= i < |data|
      ensures Accepted(s, data[i], true)
    {
      var n := data[i].key.s;
      var v := r.props[n];
      if Plain(v) {
        SerializePlain(v);
        assert Assign(s.typeOf(n), data[i].val) == Ok(v);
      } else if v.Obj? {
        assert LeftToSubclass(s, n, data[i].val, true);
      } else {
        assert data[i].val.Arr?;
      }
    }
  }

  /** One property after the corrected loop over a record's serialisation. */
  lemma RestoredProperty(s: Schema, r: Record, n: string)
    requires n in r.props && n in s.names
    requires r.props[n] == Null ||
      (s.typeOf(n).Some? && Fits(s.typeOf(n).value, r.props[n]) && (Plain(r.props[n]) || r.props[n].Arr?))
    requires forall i :: 0 <= i < |Emit(r, s.names)| ==> Accepted(s, Emit(r, s.names)[i], true)
    ensures AbsorbAll(s, Emit(r, s.names), true).Ok?
    ensures var props := AbsorbAll(s, Emit(r, s.names), true).value;
      n in props && props[n] == if r.props[n] == Null then Null else SerializeValue(r.props[n])
  {
    var data := Emit(r, s.names);
    AbsorbSucceeds(s, data, true);
    AbsorbKeepsProperties(s, data, true);
    AbsorbValues(s, data, true);
    HydratedByLookup(s, data, n, true);
    EmitLookup(r, s.names, n);
  }

  /**
   * The corrected loop over a record's own serialisation: it succeeds, and
   * every property but a record-valued one holds its serialised form:
   * unchanged when null or plain, the items as arrays for a list of
   * records, which the subclass then rebuilds.
   */
  lemma AbsorbOfEmitCorrected(s: Schema, r: Record)
    requires RestorableProps(s, r.props)
    ensures AbsorbAll(s, Emit(r, s.names), true).Ok?
    ensures var props := AbsorbAll(s, Emit(r, s.names), true).value;
      (forall n :: n in props <==> n in s.names) &&
      (forall n :: n in r.props && !r.props[n].Obj? ==>
         props[n] == if r.props[n] == Null then Null else SerializeValue(r.props[n]))
  {
    EmitAcceptedCorrected(s, r);
    AbsorbSucceeds(s, Emit(r, s.names), true);
    AbsorbKeepsProperties(s, Emit(r, s.names), true);
    var props := AbsorbAll(s, Emit(r, s.names), true).value;
    forall n | n in r.props && !r.props[n].Obj?
      ensures props[n] == if r.props[n] == Null then Null else SerializeValue(r.props[n])
    {
      RestoredProperty(s, r, n);
    }
  }
  /**
   * The corrected subclass step for a record-valued property: reading a
   * record's own serialisation, it puts back the nested record (or leaves
   * the property null when it was null).
   */
  lemma NestedRestored(s: Schema, r: Record, q: Record, key: string, cls: DtoClass)
    requires key in s.names && key in r.props && key in q.props
    requires r.props[key] == Null || (r.props[key].Obj? && r.props[key].rec.cls == cls && PlainRecord(r.props[key].rec))
    requires r.props[key] == Null ==> q.props[key] == Null
    ensures RehydrateRecord(q, Emit(r, s.names), key, cls, true) == Ok(Record(q.cls, q.props[key := r.props[key]]))
  {
    EmitLookup(r, s.names, key);
    if r.props[key] != Null {
      NestedRebuilt(Emit(r, s.names), q, key, r.props[key].rec);
    } else {
      assert q.props[key := r.props[key]] == q.props;
    }
  }

  /** The nested step when the data holds a plain record's serialisation under the key. */
  lemma NestedRebuilt(data: seq<Entry>, q: Record, key: string, rec: Record)
    requires PlainRecord(rec)
    requires Lookup(data, StrKey(key)) == Some(Arr(AsArray(rec)))
    ensures RehydrateRecord(q, data, key, rec.cls, true) == Ok(Record(q.cls, q.props[key := Obj(rec)]))
  {
    FromArrayOfToArray(rec, true);
    var nested := BaseConstruct(rec.cls, AsArray(rec), true);
    assert nested == Ok(rec);
    RehydrateRecordTaken(q, data, key, rec.cls, true);
  }

  /** The nested step taken: the property holds the record built from the array under the key. */
  lemma RehydrateRecordTaken(r: Record, data: seq<Entry>, key: string, cls: DtoClass, fixNested: bool)
    requires IsSet(data, StrKey(key)) && Lookup(data, StrKey(key)).value.Arr?
    requires BaseConstruct(cls, Lookup(data, StrKey(key)).value.entries, fixNested).Ok?
    ensures RehydrateRecord(r, data, key, cls, fixNested) ==
      Ok(Record(r.cls, r.props[key := Obj(BaseConstruct(cls, Lookup(data, StrKey(key)).value.entries, fixNested).value)]))
  {
  }

  /** A list of records each of class `cls` and plain. */
  ghost predicate PlainRecordList(v: Value, cls: DtoClass)
  {
    v.Arr? &&
    forall i :: 0 <= i < |v.entries| ==>
      v.entries[i].val.Obj? && v.entries[i].val.rec.cls == cls && PlainRecord(v.entries[i].val.rec)
  }

  /**
   * The corrected subclass step for a list of records: reading a record's
   * own serialisation, it puts back every item, with its key, in order.
   */
  lemma ListRestored(s: Schema, r: Record, q: Record, key: string, cls: DtoClass)
    requires key in s.names && key in r.props && key in q.props
    requires r.props[key] == Null || PlainRecordList(r.props[key], cls)
    requires r.props[key] == Null ==> q.props[key] == Null
    ensures RehydrateList(q, Emit(r, s.names), key, cls, true) == Ok(Record(q.cls, q.props[key := r.props[key]]))
  {
    EmitLookup(r, s.names, key);
    if r.props[key] != Null {
      ListRebuilt(Emit(r, s.names), q, key, r.props[key].entries, cls);
    } else {
      assert q.props[key := r.props[key]] == q.props;
    }
  }

  /** The list step when the data holds the serialised items of a list of plain records under the key. */
  lemma ListRebuilt(data: seq<Entry>, q: Record, key: string, items: seq<Entry>, cls: DtoClass)
    requires PlainRecordList(Arr(items), cls)
    requires Lookup(data, StrKey(key)) == Some(SerializeValue(Arr(items)))
    ensures RehydrateList(q, data, key, cls, true) == Ok(Record(q.cls, q.props[key := Arr(items)]))
  {
    MapItemsSpec(items);
    assert SerializeValue(Arr(items)) == Arr(MapItems(items));
    RebuildItems(items, cls);
  }

  /** `collection` over the serialised items of a list of plain records gives back the list. */
  lemma RebuildItems(items: seq<Entry>, cls: DtoClass)
    requires PlainRecordList(Arr(items), cls)
    ensures Collection(MapItems(items), d => BaseConstruct(cls, d, true)) == Ok(items)
  {
    MapItemsSpec(items);
    var written := MapItems(items);
    forall i | 0 <= i < |written|
      ensures written[i].val.Arr? && BaseConstruct(cls, written[i].val.entries, true) == Ok(items[i].val.rec)
    {
      FromArrayOfToArray(items[i].val.rec, true);
    }
    var list := Collection(written, d => BaseConstruct(cls, d, true));
    assert list.Ok?;
    assert list.value == items;
  }
  /**
   * One property after the loop, when it is not one left to a subclass:
   * null if the data does not name it, else the data's value as assigned.
   */
  lemma PropertyFromData(s: Schema, data: seq<Entry>, fixNested: bool, n: string)
    requires AbsorbAll(s, data, fixNested).Ok? && n in s.names
    requires !(s.typeOf(n).Some? && s.typeOf(n).value.TObject?)
    ensures var props := AbsorbAll(s, data, fixNested).value;
      n in props &&
      (Lookup(data, StrKey(n)).None? ==> props[n] == Null) &&
      (Lookup(data, StrKey(n)).Some? ==> Assign(s.typeOf(n), Lookup(data, StrKey(n)).value) == Ok(props[n]))
  {
    AbsorbSpec(s, data, fixNested);
  }
  /**
   * As written, an array given for a record-typed property is assigned to
   * it by the loop: a TypeError.
   */
  lemma RecordArrayRejected(s: Schema, data: seq<Entry>, n: string)
    requires n in s.names && s.typeOf(n).Some? && s.typeOf(n).value.TObject?
    requires Lookup(data, StrKey(n)).Some? && Lookup(data, StrKey(n)).value.Arr?
    ensures AbsorbAll(s, data, false).Err? && AbsorbAll(s, data, false).error.TypeError?
  {
    var v := Lookup(data, StrKey(n)).value;
    var i :| 0 <= i < |data| && data[i] == Entry(StrKey(n), v);
    assert !Accepted(s, data[i], false);
    AbsorbSucceeds(s, data, false);
    AbsorbFailsWithTypeError(s, data, false);
  }
  /** A string property given a string keeps it verbatim. */
  lemma StringKept(s: Schema, data: seq<Entry>, fixNested: bool, n: string, x: string)
    requires AbsorbAll(s, data, fixNested).Ok? && n in s.names && s.typeOf(n) == Some(TString)
    requires Lookup(data, StrKey(n)) == Some(Str(x))
    ensures n in AbsorbAll(s, data, fixNested).value && AbsorbAll(s, data, fixNested).value[n] == Str(x)
  {
    PropertyFromData(s, data, fixNested, n);
  }

  /** A float property given an int holds the int widened. */
  lemma IntWidened(s: Schema, data: seq<Entry>, fixNested: bool, n: string, i: int)
    requires AbsorbAll(s, data, fixNested).Ok? && n in s.names && s.typeOf(n) == Some(TFloat)
    requires Lookup(data, StrKey(n)) == Some(Int(i))
    ensures n in AbsorbAll(s, data, fixNested).value && AbsorbAll(s, data, fixNested).value[n] == Float(Widen(i))
  {
    PropertyFromData(s, data, fixNested, n);
  }
}
