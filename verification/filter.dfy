/** The filter-then-override step every write operation is built on. */
module Filter {
  import opened JsValues
  import opened Objects
  import opened Config

  /** `params(source, override)`: keep the whitelisted properties of the
      untrusted `source`, then lay the trusted `override` over them when it is
      a plain object. Any other override (a function, an array, undefined) is
      ignored. The result is a fresh object; `source` is only read.

      The contract is the mass-assignment guarantee: a key reaches the result
      only through the whitelist or through the override; the override always
      survives and always wins. */
  function Params(permitted: Permitted, source: Value, override: Value): (r: Object)
    ensures !IsPlainObject(override) ==>
              r.Keys == Properties(source).Keys * PermittedKeys(permitted)
    ensures IsPlainObject(override) ==>
              r.Keys == (Properties(source).Keys * PermittedKeys(permitted)) + override.fields.Keys
    ensures IsPlainObject(override) ==>
              forall k :: k in override.fields ==> r[k] == override.fields[k]
    ensures forall k :: k in r && !(IsPlainObject(override) && k in override.fields) ==>
              k in PermittedKeys(permitted) && k in Properties(source) && r[k] == Properties(source)[k]
  {
    var filtered := Pick(Properties(source), PermittedKeys(permitted));
    if IsPlainObject(override) then AssignProps(filtered, override.fields) else filtered
  }

  /** Without a plain-object override, `params` is exactly the whitelist projection. */
  lemma NoOverrideIsProjection(permitted: Permitted, source: Value, override: Value)
    requires !IsPlainObject(override)
    ensures Params(permitted, source, override) == Pick(Properties(source), PermittedKeys(permitted))
    ensures Params(permitted, source, override) == Params(permitted, source, Undefined)
  {
  }

  /** Untrusted keys outside the whitelist have no effect: two sources that
      agree on the whitelisted keys filter to the same object. */
  lemma OnlyWhitelistedKeysMatter(permitted: Permitted, s1: Value, s2: Value, override: Value)
    requires forall k :: k in PermittedKeys(permitted) ==>
               (k in Properties(s1) <==> k in Properties(s2)) &&
               (k in Properties(s1) ==> Properties(s1)[k] == Properties(s2)[k])
    ensures Params(permitted, s1, override) == Params(permitted, s2, override)
  {
    var keys := PermittedKeys(permitted);
    var f1 := Pick(Properties(s1), keys);
    var f2 := Pick(Properties(s2), keys);
    assert f1.Keys == f2.Keys;
    assert forall k :: k in f1 ==> f1[k] == f2[k];
    assert f1 == f2;
  }

  /** Filtering an already filtered object again with the same whitelist and
      override gives it back unchanged. */
  lemma ParamsIdempotent(permitted: Permitted, source: Value, override: Value)
    ensures var r := Params(permitted, source, override);
            Params(permitted, Plain(r), override) == r
  {
  }

  /** With the default configuration nothing from the source survives; only
      the override is left. */
  lemma DefaultWhitelistKeepsOnlyOverride(source: Value, override: Value)
    ensures Params(Normalize(NoOptions), source, override) ==
            (if IsPlainObject(override) then override.fields else map[])
  {
  }
}
