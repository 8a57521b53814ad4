/** The instance methods added to every record: `only`, `except`, `assign`
    and `safeUpdate`. */
module Instance {
  import opened JsValues
  import opened Objects
  import opened Config
  import opened Filter

  /** A record, seen through its plain-object view (`toObject()`). */
  datatype Record = Record(attrs: Object)

  /** The key arguments of `only`/`except`: positional key names
      (`only('a', 'b')`, `only('a')`, `only()`) or one list (`only(['a', 'b'])`). */
  datatype KeyArgs = Names(names: seq<string>) | List(keys: seq<string>)

  /** `String(undefined)`: the key `_.pick`/`_.omit` look up when they are
      handed no key argument at all. */
  const UndefinedKey: string := "undefined"

  /** The key list an instance `only`/`except` passes on. With more than one
      argument the argument list itself is the key list; a lone name is one
      key; with no argument the key is `undefined`, read as its string form. */
  function InstanceKeys(args: KeyArgs): (ks: seq<string>)
    ensures args.List? ==> ks == args.keys
    ensures args.Names? && |args.names| >= 1 ==> ks == args.names
    ensures args == Names([]) ==> ks == [UndefinedKey]
  {
    match args
    case List(ks) => ks
    case Names(ns) =>
      if |ns| > 1 then ns
      else if |ns| == 1 then [ns[0]]
      else [UndefinedKey]
  }

  /** `record.only(keys...)`: the record's attributes named by the keys. */
  function Only(rec: Record, args: KeyArgs): (r: Object)
    ensures r.Keys == rec.attrs.Keys * KeySet(InstanceKeys(args))
    ensures forall k :: k in r ==> r[k] == rec.attrs[k]
  {
    Pick(rec.attrs, KeySet(InstanceKeys(args)))
  }

  /** `record.except(keys...)`: the record's attributes not named by the keys. */
  function Except(rec: Record, args: KeyArgs): (r: Object)
    ensures r.Keys == rec.attrs.Keys - KeySet(InstanceKeys(args))
    ensures forall k :: k in r ==> r[k] == rec.attrs[k]
  {
    Omit(rec.attrs, KeySet(InstanceKeys(args)))
  }

  /** `only` and `except` with the same keys partition the record's attributes:
      disjoint key sets, all keys between them, every value copied unchanged. */
  lemma OnlyExceptPartition(rec: Record, args: KeyArgs)
    ensures Only(rec, args).Keys !! Except(rec, args).Keys
    ensures Only(rec, args).Keys + Except(rec, args).Keys == rec.attrs.Keys
    ensures AssignProps(Only(rec, args), Except(rec, args)) == rec.attrs
  {
  }

  /** Passing keys one by one or as a list selects the same attributes, as long
      as at least one key is passed. */
  lemma VariadicEqualsList(rec: Record, names: seq<string>)
    requires |names| >= 1
    ensures Only(rec, Names(names)) == Only(rec, List(names))
    ensures Except(rec, Names(names)) == Except(rec, List(names))
  {
  }

  /** With no argument at all, `only()` does not return an empty object: it
      returns the attribute called "undefined" when the record has one, and
      `except()` drops it. An empty list selects nothing. */
  lemma NoArgumentSelectsUndefinedKey(rec: Record)
    ensures Only(rec, Names([])) ==
            (if UndefinedKey in rec.attrs then map[UndefinedKey := rec.attrs[UndefinedKey]] else map[])
    ensures Except(rec, Names([])) == rec.attrs - {UndefinedKey}
    ensures Only(rec, List([])) == map[]
  {
  }

  /** `record.assign(source, override)`: write every property of
      `params(source, override)` onto the record; the record is returned. */
  function AssignRecord(rec: Record, permitted: Permitted, source: Value, override: Value): (r: Record)
    ensures r.attrs.Keys == rec.attrs.Keys + Params(permitted, source, override).Keys
    ensures forall k :: k in Params(permitted, source, override) ==>
              r.attrs[k] == Params(permitted, source, override)[k]
    ensures forall k :: k in rec.attrs && k !in Params(permitted, source, override) ==>
              r.attrs[k] == rec.attrs[k]
  {
    Record(AssignProps(rec.attrs, Params(permitted, source, override)))
  }

  /** An attribute the untrusted source can change is a whitelisted one: every
      attribute `assign` changes or adds is whitelisted or set by the override. */
  lemma AssignTouchesOnlyPermittedOrOverride(
    rec: Record, permitted: Permitted, source: Value, override: Value, k: string)
    ensures var after := AssignRecord(rec, permitted, source, override).attrs;
            k in after && (k !in rec.attrs || after[k] != rec.attrs[k]) ==>
              k in PermittedKeys(permitted) || (IsPlainObject(override) && k in override.fields)
  {
  }

  /** The override slot of `safeUpdate`/`safeCreate`: a function there is the
      completion callback; anything else leaves `done` as the callback. */
  function ResolveCallback(override: Value, done: Value): (cb: Value)
    ensures cb == override || cb == done
    ensures IsFunction(override) ==> cb == override
    ensures !IsFunction(override) ==> cb == done
  {
    if IsFunction(override) then override else done
  }

  /** What `save` was asked to do: persist this record, then call this callback.
      An `Undefined` callback stands for the promise form. */
  datatype SaveCall = SaveCall(record: Record, callback: Value)

  /** `record.safeUpdate(source, override, done)`: assign the filtered source to
      the record, then save it with the resolved callback. */
  function SafeUpdate(rec: Record, permitted: Permitted, source: Value, override: Value, done: Value): (c: SaveCall)
    ensures c.record.attrs.Keys == rec.attrs.Keys + Params(permitted, source, override).Keys
    ensures forall k :: k in Params(permitted, source, override) ==>
              c.record.attrs[k] == Params(permitted, source, override)[k]
    ensures IsPlainObject(override) ==>
              forall k :: k in override.fields ==> c.record.attrs[k] == override.fields[k]
    ensures forall k :: k in c.record.attrs && k !in Params(permitted, source, override) ==>
              c.record.attrs[k] == rec.attrs[k]
    ensures IsFunction(override) ==> c.callback == override
    ensures !IsFunction(override) ==> c.callback == done
    ensures IsFunction(override) ==>
              c.record.attrs == AssignProps(rec.attrs, Pick(Properties(source), PermittedKeys(permitted)))
  {
    SaveCall(AssignRecord(rec, permitted, source, override), ResolveCallback(override, done))
  }

  /** A callback in the override slot is never merged into the record, and an
      override object is never mistaken for the callback. */
  lemma OverrideSlotHasOneRole(rec: Record, permitted: Permitted, source: Value, override: Value, done: Value)
    ensures var c := SafeUpdate(rec, permitted, source, override, done);
            (IsPlainObject(override) ==> c.callback == done) &&
            (IsFunction(override) ==> c.record == SafeUpdate(rec, permitted, source, Undefined, done).record)
  {
  }
}
