/** Worked cases on concrete values. */
module Scenarios {
  import opened JsValues
  import opened Objects
  import opened Config
  import opened Filter
  import opened Instance
  import opened Statics

  /** A space-separated whitelist string becomes the list of its words. */
  lemma SpaceSeparatedWhitelist()
    ensures Normalize(Options(Some(KeyString("name email")))) == KeyList(["name", "email"])
  {
    var parts := ["name", "email"];
    assert Strings.Join(parts, ' ') == "name email";
    Strings.SplitJoin(parts, ' ');
  }

  /** A doubled space leaves an empty key name in the list. */
  lemma DoubledSpaceGivesEmptyKey()
    ensures Normalize(Options(Some(KeyString("a  b")))) == KeyList(["a", "", "b"])
  {
    var parts := ["a", "", "b"];
    assert Strings.Join(parts, ' ') == "a  b";
    Strings.SplitJoin(parts, ' ');
  }

  /** `safeCreate([{a:1,b:2}, {a:3,b:4}], {c:9})` with whitelist `['a']`
      creates `[{a:1,c:9}, {a:3,c:9}]`. */
  lemma BatchCreate(done: Value)
    ensures SafeCreate(KeyList(["a"]),
                       Arr([Plain(map["a" := Num(1), "b" := Num(2)]), Plain(map["a" := Num(3), "b" := Num(4)])]),
                       Plain(map["c" := Num(9)]), done)
            == CreateCall([map["a" := Num(1), "c" := Num(9)], map["a" := Num(3), "c" := Num(9)]], done)
  {
    var p := KeyList(["a"]);
    var o := Plain(map["c" := Num(9)]);
    var d0 := Plain(map["a" := Num(1), "b" := Num(2)]);
    var d1 := Plain(map["a" := Num(3), "b" := Num(4)]);
    assert PermittedKeys(p) == {"a"};
    FilterOne(p, d0, o, Num(1));
    FilterOne(p, d1, o, Num(3));
    var c := SafeCreate(p, Arr([d0, d1]), o, done);
    assert DocList(Arr([d0, d1])) == [d0, d1];
    assert c.records == [Params(p, d0, o), Params(p, d1, o)];
  }

  /** Whitelist `['a']` over `{a:x, b:_}` with override `{c:9}` gives `{a:x, c:9}`. */
  lemma FilterOne(p: Permitted, doc: Value, o: Value, x: Value)
    requires PermittedKeys(p) == {"a"}
    requires doc.Plain? && doc.fields.Keys == {"a", "b"} && doc.fields["a"] == x
    requires o == Plain(map["c" := Num(9)])
    ensures Params(p, doc, o) == map["a" := x, "c" := Num(9)]
  {
  }

  /** `safeUpdate({a:1,b:2}, doneFn)` with whitelist `['a']` updates `a`, leaves
      `b` as it was and saves with `doneFn`. */
  lemma UpdateWithCallbackInOverrideSlot()
    ensures SafeUpdate(Record(map["a" := Num(0), "b" := Num(5)]), KeyList(["a"]),
                       Plain(map["a" := Num(1), "b" := Num(2)]), Fn(7), Undefined)
            == SaveCall(Record(map["a" := Num(1), "b" := Num(5)]), Fn(7))
  {
  }
}
