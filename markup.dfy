/** The fallback source: the element's own children. Those that are `<img>`
    elements or carry a `data-src` attribute are turned, in document order,
    into configuration records read from their attributes with `||`
    defaulting. */
module Markup {
  import opened Js
  import opened Entry

  /** A direct element child: its tag name as the DOM reports it (upper case
      for HTML elements) and its attributes. */
  datatype Child = Child(tagName: string, attributes: map<string, string>)

  /** `child.tagName === "IMG" || child.hasAttribute("data-src")`; an empty
      `data-src` still qualifies. */
  predicate Qualifies(c: Child) {
    c.tagName == "IMG" || "data-src" in c.attributes
  }

  /** The qualifying children, in document order. */
  function Qualifying(children: seq<Child>): (r: seq<Child>)
    ensures |r| <= |children|
    ensures forall c :: c in r <==> c in children && Qualifies(c)
  {
    if children == [] then []
    else (if Qualifies(children[0]) then [children[0]] else []) + Qualifying(children[1..])
  }

  /** `child.getAttribute(name)`: the attribute's string, or null. */
  function AttributeValue(c: Child, name: string): JsValue {
    if name in c.attributes then Str(c.attributes[name]) else Null
  }

  /** The record built for the qualifying child at position `index` of the
      filtered list: an empty or missing attribute falls back with `||`, and
      the numbers are converted with `Number()` already here. */
  function ChildRecord(c: Child, index: nat, numeral: string -> JsNumber): (r: JsValue)
    ensures r.Obj? && r.props.Keys == {"src", "direction", "strength", "z", "duration", "delay"}
    ensures Truthy(r.props["direction"])
    ensures forall k :: k in r.props && k != "src" && k != "direction" ==> r.props[k].Num? || r.props[k].NaN?
  {
    Obj(map[
      "src" := Or(AttributeValue(c, "src"), AttributeValue(c, "data-src")),
      "direction" := Or(AttributeValue(c, "data-direction"), Str("y")),
      "strength" := ToNumber(Or(AttributeValue(c, "data-strength"), Num(DefaultStrength)), numeral),
      "z" := ToNumber(Or(AttributeValue(c, "data-z"), Num(DefaultZ(index))), numeral),
      "duration" := ToNumber(Or(AttributeValue(c, "data-duration"), Num(DefaultDuration(index))), numeral),
      "delay" := ToNumber(Or(AttributeValue(c, "data-delay"), Num(DefaultDelay(index))), numeral)
    ])
  }

  /** `children.map((child, index) => ...)` */
  function ChildRecords(qualifying: seq<Child>, numeral: string -> JsNumber): (r: seq<JsValue>)
    ensures |r| == |qualifying|
    ensures forall i :: 0 <= i < |r| ==> r[i] == ChildRecord(qualifying[i], i, numeral)
  {
    seq(|qualifying|, i requires 0 <= i < |qualifying| => ChildRecord(qualifying[i], i, numeral))
  }

  /** Filtering keeps document order: the qualifying children of two
      consecutive runs of children are those of the first, then those of the
      second. */
  lemma {:induction false} QualifyingAppend(a: seq<Child>, b: seq<Child>)
    ensures Qualifying(a + b) == Qualifying(a) + Qualifying(b)
  {
    if a == [] {
      assert a + b == b;
    } else {
      assert (a + b)[0] == a[0];
      assert (a + b)[1..] == a[1..] + b;
      QualifyingAppend(a[1..], b);
    }
  }

  /** The filter drops exactly the children that do not qualify: a list of
      children that all qualify is kept whole, and one where none does
      becomes empty. */
  lemma {:induction false} QualifyingKeepsOrDrops(children: seq<Child>)
    ensures (forall i :: 0 <= i < |children| ==> Qualifies(children[i])) ==> Qualifying(children) == children
    ensures Qualifying(children) == [] <==> forall i :: 0 <= i < |children| ==> !Qualifies(children[i])
  {
    if children != [] {
      QualifyingKeepsOrDrops(children[1..]);
      assert forall i :: 1 <= i < |children| ==> children[i] == children[1..][i - 1];
    }
  }

  /** Every record of the fallback is an object, so none of them makes the
      forEach throw. */
  lemma ChildRecordsAreObjects(qualifying: seq<Child>, numeral: string -> JsNumber)
    ensures |ChildRecords(qualifying, numeral)| == |qualifying|
    ensures forall i :: 0 <= i < |qualifying| ==>
              ChildRecords(qualifying, numeral)[i].Obj? && !Nullish(ChildRecords(qualifying, numeral)[i])
  {
  }

  /** The `src` of a child's image is its non-empty `src` attribute, else its
      non-empty `data-src`; with neither, the image gets no source. */
  lemma ChildImageSource(c: Child, index: nat, numeral: string -> JsNumber)
    ensures "src" in c.attributes && c.attributes["src"] != "" ==>
              ImageOf(ChildRecord(c, index, numeral), index, numeral).src == Some(Str(c.attributes["src"]))
    ensures ("src" !in c.attributes || c.attributes["src"] == "") && "data-src" in c.attributes && c.attributes["data-src"] != "" ==>
              ImageOf(ChildRecord(c, index, numeral), index, numeral).src == Some(Str(c.attributes["data-src"]))
    ensures ("src" !in c.attributes || c.attributes["src"] == "") && ("data-src" !in c.attributes || c.attributes["data-src"] == "") ==>
              ImageOf(ChildRecord(c, index, numeral), index, numeral).src == None
  {
  }

  /** A non-empty `data-*` attribute is what the image is made from: the
      direction as written, the numbers as the host converts the text. */
  lemma ChildAttributesAreRead(c: Child, index: nat, numeral: string -> JsNumber)
    ensures var s := SettingsOf(ChildRecord(c, index, numeral), index, numeral);
            ("data-direction" in c.attributes && c.attributes["data-direction"] != "" ==>
               s.direction == Str(c.attributes["data-direction"])) &&
            ("data-strength" in c.attributes && c.attributes["data-strength"] != "" ==>
               s.strength == numeral(c.attributes["data-strength"])) &&
            ("data-z" in c.attributes && c.attributes["data-z"] != "" ==>
               s.z == numeral(c.attributes["data-z"])) &&
            ("data-duration" in c.attributes && c.attributes["data-duration"] != "" ==>
               s.duration == numeral(c.attributes["data-duration"])) &&
            ("data-delay" in c.attributes && c.attributes["data-delay"] != "" ==>
               s.delay == numeral(c.attributes["data-delay"]))
  {
    var record := ChildRecord(c, index, numeral);
    ToNumberOfNumber(record.props["strength"], numeral);
    ToNumberOfNumber(record.props["z"], numeral);
    ToNumberOfNumber(record.props["duration"], numeral);
    ToNumberOfNumber(record.props["delay"], numeral);
  }

  /** Each `data-*` setting defaults on its own: an absent or empty one gives
      the same value as an absent field of an array entry at that index,
      whatever the child's other attributes are. */
  lemma ChildAbsentFieldsTakeDefaults(c: Child, index: nat, numeral: string -> JsNumber)
    ensures var s := SettingsOf(ChildRecord(c, index, numeral), index, numeral);
            ("data-direction" !in c.attributes || c.attributes["data-direction"] == "" ==> s.direction == Str("y")) &&
            ("data-strength" !in c.attributes || c.attributes["data-strength"] == "" ==> s.strength == Num(12.0)) &&
            ("data-z" !in c.attributes || c.attributes["data-z"] == "" ==> s.z == Num(index as real * 15.0)) &&
            ("data-duration" !in c.attributes || c.attributes["data-duration"] == "" ==>
               s.duration == Num(6.0 + index as real * 1.5)) &&
            ("data-delay" !in c.attributes || c.attributes["data-delay"] == "" ==> s.delay == Num(-(index as real)))
  {
  }

  /** A child with no non-empty `data-*` setting renders exactly like an
      array entry that gives only its source: the two paths share the
      defaults 12, index * 15, 6 + index * 1.5, -index and "y". */
  lemma BareChildMatchesBareEntry(c: Child, index: nat, numeral: string -> JsNumber)
    requires forall name :: name in c.attributes && name in DataSettings ==> c.attributes[name] == ""
    ensures ImageOf(ChildRecord(c, index, numeral), index, numeral) ==
            ImageOf(Obj(map["src" := Or(AttributeValue(c, "src"), AttributeValue(c, "data-src"))]), index, numeral)
  {
    var record := ChildRecord(c, index, numeral);
    var bare := Obj(map["src" := Or(AttributeValue(c, "src"), AttributeValue(c, "data-src"))]);
    ChildAbsentFieldsTakeDefaults(c, index, numeral);
    assert SettingsOf(record, index, numeral) == SettingsOf(bare, index, numeral);
    assert Get(record, "src") == Get(bare, "src");
  }

  /** The attributes that carry a child's settings. */
  const DataSettings: set<string> := {"data-direction", "data-strength", "data-z", "data-duration", "data-delay"}
}
