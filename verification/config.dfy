/** Option normalisation: the whitelist configured once for a model. */
module Config {
  import opened Strings
  import opened Objects

  datatype Option<T> = None | Some(value: T)

  /** The `permitted` option: a list of key names, or one string. */
  datatype Permitted = KeyList(keys: seq<string>) | KeyString(text: string)

  /** The `opts` argument: absent (or falsy), or an object that may carry `permitted`. */
  datatype RawOptions = NoOptions | Options(permitted: Option<Permitted>)

  /** The separator a whitelist string is split on. */
  const Space: char := ' '

  /** The default whitelist. */
  const DefaultPermitted: Permitted := KeyList([])

  /** Merge the options over the defaults, then split a whitelist string that
      contains a space. */
  function Normalize(opts: RawOptions): (p: Permitted)
    ensures opts.NoOptions? || opts.permitted.None? ==> p == DefaultPermitted
    ensures opts.Options? && opts.permitted.Some? && opts.permitted.value.KeyList? ==>
              p == opts.permitted.value
    ensures opts.Options? && opts.permitted.Some? && opts.permitted.value.KeyString? ==>
              var s := opts.permitted.value.text;
              (Space in s ==> p.KeyList? && Join(p.keys, Space) == s && |p.keys| == Count(s, Space) + 1 &&
                              forall i :: 0 <= i < |p.keys| ==> Space !in p.keys[i]) &&
              (Space !in s ==> p == KeyString(s))
  {
    var merged := if opts.Options? && opts.permitted.Some? then opts.permitted.value else DefaultPermitted;
    if merged.KeyString? && Space in merged.text then KeyList(Split(merged.text, Space)) else merged
  }

  /** The key names a normalised whitelist lets through. `_.pick` reads a lone
      string as one key name. */
  function PermittedKeys(p: Permitted): (ks: set<string>)
    ensures p.KeyList? ==> forall k :: k in ks <==> k in p.keys
    ensures p.KeyString? ==> ks == {p.text}
  {
    match p
    case KeyList(ks) => KeySet(ks)
    case KeyString(s) => {s}
  }

  /** Whatever form the whitelist string takes, the keys it permits are the
      pieces of splitting it on spaces. */
  lemma StringWhitelistKeys(s: string)
    ensures PermittedKeys(Normalize(Options(Some(KeyString(s))))) == KeySet(Split(s, Space))
    ensures forall k :: k in PermittedKeys(Normalize(Options(Some(KeyString(s))))) ==> Space !in k
  {
  }

  /** Normalising an already normalised whitelist changes nothing. */
  lemma NormalizeIdempotent(opts: RawOptions)
    ensures Normalize(Options(Some(Normalize(opts)))) == Normalize(opts)
  {
  }
}
