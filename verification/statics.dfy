/** The collection-level methods: `only`, `except` and `safeCreate`. */
module Statics {
  import opened JsValues
  import opened Objects
  import opened Config
  import opened Filter
  import opened Instance

  /** The key list a collection-level `only(obj, keys...)`/`except(obj, keys...)`
      uses: the remaining arguments, one list flattened into its names. With no
      key argument nothing is named. */
  function StaticKeys(args: KeyArgs): (ks: seq<string>)
    ensures args.Names? ==> ks == args.names
    ensures args.List? ==> ks == args.keys
    ensures args == Names([]) ==> KeySet(ks) == {}
  {
    match args
    case Names(ns) => ns
    case List(ks) => ks
  }

  /** `Model.only(obj, keys...)`. */
  function StaticOnly(obj: Object, args: KeyArgs): (r: Object)
    ensures r.Keys == obj.Keys * KeySet(StaticKeys(args))
    ensures forall k :: k in r ==> r[k] == obj[k]
  {
    Pick(obj, KeySet(StaticKeys(args)))
  }

  /** `Model.except(obj, keys...)`. */
  function StaticExcept(obj: Object, args: KeyArgs): (r: Object)
    ensures r.Keys == obj.Keys - KeySet(StaticKeys(args))
    ensures forall k :: k in r ==> r[k] == obj[k]
  {
    Omit(obj, KeySet(StaticKeys(args)))
  }

  /** The collection-level projections agree with the record-level ones on the
      record's plain view, except for a call with no key at all, where the
      record-level form looks up the key "undefined". */
  lemma StaticAgreesWithInstance(rec: Record, args: KeyArgs)
    requires args != Names([])
    ensures StaticOnly(rec.attrs, args) == Only(rec, args)
    ensures StaticExcept(rec.attrs, args) == Except(rec, args)
  {
  }

  /** `docs` as a list: an array is taken as it is, any other value is wrapped. */
  function DocList(docs: Value): (ds: seq<Value>)
    ensures IsArray(docs) ==> ds == docs.items
    ensures !IsArray(docs) ==> |ds| == 1 && ds[0] == docs
  {
    if IsArray(docs) then docs.items else [docs]
  }

  /** `_.map(docs, source => params(source, override))`. */
  function FilterEach(permitted: Permitted, docs: seq<Value>, override: Value): (rs: seq<Object>)
    ensures |rs| == |docs|
    ensures forall i :: 0 <= i < |docs| ==> rs[i] == Params(permitted, docs[i], override)
  {
    if |docs| == 0 then []
    else [Params(permitted, docs[0], override)] + FilterEach(permitted, docs[1..], override)
  }

  /** What `create` was asked to do: insert these objects, then call this callback. */
  datatype CreateCall = CreateCall(records: seq<Object>, callback: Value)

  /** `Model.safeCreate(docs, override, done)`: filter every doc with the same
      override and hand the list to `create` with the resolved callback. */
  function SafeCreate(permitted: Permitted, docs: Value, override: Value, done: Value): (c: CreateCall)
    ensures |c.records| == |DocList(docs)|
    ensures forall i :: 0 <= i < |c.records| ==> c.records[i] == Params(permitted, DocList(docs)[i], override)
    ensures IsFunction(override) ==> c.callback == override
    ensures !IsFunction(override) ==> c.callback == done
  {
    CreateCall(FilterEach(permitted, DocList(docs), override), ResolveCallback(override, done))
  }

  /** A single doc is created exactly as the one-element list holding it. */
  lemma SingleDocIsWrapped(permitted: Permitted, doc: Value, override: Value, done: Value)
    requires !IsArray(doc)
    ensures SafeCreate(permitted, doc, override, done) == SafeCreate(permitted, Arr([doc]), override, done)
  {
  }

  /** No record handed to `create` carries a key the whitelist and the override
      both refuse, and every record carries the whole override. */
  lemma CreatedRecordsAreFiltered(permitted: Permitted, docs: Value, override: Value, done: Value)
    ensures var c := SafeCreate(permitted, docs, override, done);
            forall i, k :: 0 <= i < |c.records| && k in c.records[i] ==>
              k in PermittedKeys(permitted) || (IsPlainObject(override) && k in override.fields)
    ensures var c := SafeCreate(permitted, docs, override, done);
            IsPlainObject(override) ==>
              forall i, k :: 0 <= i < |c.records| && k in override.fields ==>
                k in c.records[i] && c.records[i][k] == override.fields[k]
  {
  }
}
