/** What render() computes from the element's inputs: which single source
    supplies the configuration array, whether that source is rejected, and
    which images the `forEach` appends. */
module Resolution {
  import opened Js
  import opened Entry
  import opened Markup

  /** The calls into the browser the component relies on: `JSON.parse`
      (None when it throws) and `Number()` applied to a string. */
  datatype Host = Host(parse: string -> Option<JsValue>, numeral: string -> JsNumber)

  datatype Source = AttributeSource | PropertySource | ChildSource

  /** The messages render() and the `images` setter log with console.error. */
  datatype Diagnostic =
    | InvalidAttributeJson  // the `images` attribute is not JSON
    | AttributeNotArray     // the `images` attribute is JSON but not an array
    | PropertyNotArray      // the stored property is truthy but not an array
    | InvalidPropertyJson   // a string given to the setter is not JSON

  /** The configuration array and where it came from, or the rejection. */
  datatype Resolved = Entries(source: Source, entries: seq<JsValue>) | Failed(diagnostic: Diagnostic)

  /** `if (imagesAttr)`: `getAttribute` gives null or a string, and the empty
      string is falsy. */
  predicate AttributeSet(attr: Option<string>) {
    attr.Some? && attr.value != ""
  }

  /** The choice of source in render(): a set attribute is parsed and must be
      an array; otherwise a truthy property must be an array; otherwise the
      qualifying children are read. The first applicable source decides, even
      when it is rejected. */
  function Resolve(attr: Option<string>, config: JsValue, children: seq<Child>, host: Host): (r: Resolved)
    ensures r.Failed? ==> r.diagnostic != InvalidPropertyJson
    ensures r.Entries? && r.source == ChildSource ==>
              |r.entries| == |Qualifying(children)| && forall i :: 0 <= i < |r.entries| ==> r.entries[i].Obj?
  {
    if AttributeSet(attr) then
      match host.parse(attr.value)
      case None => Failed(InvalidAttributeJson)
      case Some(parsed) => if parsed.Arr? then Entries(AttributeSource, parsed.elems) else Failed(AttributeNotArray)
    else if Truthy(config) then
      if config.Arr? then Entries(PropertySource, config.elems) else Failed(PropertyNotArray)
    else
      var qualifying := Qualifying(children);
      if |qualifying| == 0 then Entries(ChildSource, [])
      else Entries(ChildSource, ChildRecords(qualifying, host.numeral))
  }

  /** How one render() call ends: after the last entry, at a rejected source
      (nothing appended), or with the TypeError thrown by reading a property
      of the null or undefined entry at `index`. */
  datatype Outcome = Completed | Aborted(diagnostic: Diagnostic) | Threw(index: nat)

  /** The container's images after render(), and how it ended. */
  datatype Rendering = Rendering(images: seq<Image>, outcome: Outcome)

  /** The position of the first null or undefined entry from `from` on, or
      the length when there is none. */
  function FirstNullish(entries: seq<JsValue>, from: nat): (k: nat)
    requires from <= |entries|
    ensures from <= k <= |entries|
    ensures forall j :: from <= j < k ==> !Nullish(entries[j])
    ensures k < |entries| ==> Nullish(entries[k])
    decreases |entries| - from
  {
    if from == |entries| || Nullish(entries[from]) then from else FirstNullish(entries, from + 1)
  }

  /** The `forEach` over an accepted array: one image per entry, each made at
      its own index, until an entry that is null or undefined throws. */
  function RenderEntries(entries: seq<JsValue>, numeral: string -> JsNumber): (r: Rendering)
    ensures |r.images| <= |entries|
    ensures forall i :: 0 <= i < |r.images| ==> !Nullish(entries[i]) && r.images[i] == ImageOf(entries[i], i, numeral)
    ensures r.outcome == Completed <==> forall j :: 0 <= j < |entries| ==> !Nullish(entries[j])
    ensures r.outcome == Completed ==> |r.images| == |entries|
    ensures r.outcome != Completed ==>
              r.outcome == Threw(|r.images|) && |r.images| < |entries| && Nullish(entries[|r.images|])
  {
    var k := FirstNullish(entries, 0);
    Rendering(seq(k, i requires 0 <= i < k => ImageOf(entries[i], i, numeral)),
              if k < |entries| then Threw(k) else Completed)
  }

  /** The container after render(): emptied first, so a rejected source
      leaves it empty whatever the other sources hold. */
  function Rendered(resolved: Resolved, numeral: string -> JsNumber): (r: Rendering)
    ensures resolved.Failed? ==> r.images == [] && r.outcome == Aborted(resolved.diagnostic)
    ensures resolved.Entries? ==> !r.outcome.Aborted?
  {
    match resolved
    case Failed(d) => Rendering([], Aborted(d))
    case Entries(_, entries) => RenderEntries(entries, numeral)
  }

  /** What the `images` setter stores: a string is parsed, and null is stored
      when it is not JSON; any other value is stored as it is. */
  function Stored(config: JsValue, parse: string -> Option<JsValue>): (r: JsValue)
    ensures !config.Str? ==> r == config
    ensures config.Str? ==> parse(config.s) == Some(r) || (parse(config.s).None? && r == Null)
  {
    if config.Str? then
      match parse(config.s)
      case Some(parsed) => parsed
      case None => Null
    else config
  }

  /** A set attribute decides alone: the property and the children have no
      influence on the outcome. */
  lemma AttributeTakesPrecedence(attr: string, config1: JsValue, config2: JsValue,
                                 children1: seq<Child>, children2: seq<Child>, host: Host)
    requires attr != ""
    ensures Resolve(Some(attr), config1, children1, host) == Resolve(Some(attr), config2, children2, host)
    ensures Resolve(Some(attr), config1, children1, host).Entries? ==>
              Resolve(Some(attr), config1, children1, host).source == AttributeSource
  {
  }

  /** Without an attribute, a truthy property decides alone: the children
      have no influence, and an empty array hides them too. */
  lemma PropertyTakesPrecedence(attr: Option<string>, config: JsValue,
                                children1: seq<Child>, children2: seq<Child>, host: Host)
    requires !AttributeSet(attr) && Truthy(config)
    ensures Resolve(attr, config, children1, host) == Resolve(attr, config, children2, host)
    ensures config == Arr([]) ==> Resolve(attr, config, children1, host) == Entries(PropertySource, [])
  {
  }

  /** Sources are never merged: the entries are exactly the parsed attribute,
      exactly the property, or exactly the records of the qualifying children. */
  lemma SourcesAreNotMerged(attr: Option<string>, config: JsValue, children: seq<Child>, host: Host)
    ensures var r := Resolve(attr, config, children, host);
            r.Entries? ==>
              (r.source == AttributeSource <==> AttributeSet(attr)) &&
              (r.source == AttributeSource ==> host.parse(attr.value) == Some(Arr(r.entries))) &&
              (r.source == PropertySource <==> !AttributeSet(attr) && Truthy(config)) &&
              (r.source == PropertySource ==> config == Arr(r.entries)) &&
              (r.source == ChildSource ==> r.entries == ChildRecords(Qualifying(children), host.numeral))
  {
  }

  /** render() rejects its input exactly when the attribute is set and is not
      JSON for an array, or when there is no attribute and the property is
      truthy but not an array. */
  lemma RejectedExactly(attr: Option<string>, config: JsValue, children: seq<Child>, host: Host)
    ensures Resolve(attr, config, children, host).Failed? <==>
              (AttributeSet(attr) && !(host.parse(attr.value).Some? && host.parse(attr.value).value.Arr?)) ||
              (!AttributeSet(attr) && Truthy(config) && !config.Arr?)
    ensures Resolve(attr, config, children, host) == Failed(InvalidAttributeJson) <==>
              AttributeSet(attr) && host.parse(attr.value).None?
  {
  }

  /** For an accepted array with no null or undefined entry, the container
      holds one image per entry, in the entries' order. */
  lemma {:induction false} CountAndOrder(attr: Option<string>, config: JsValue, children: seq<Child>, host: Host)
    requires Resolve(attr, config, children, host).Entries?
    requires var es := Resolve(attr, config, children, host).entries; forall j :: 0 <= j < |es| ==> !Nullish(es[j])
    ensures var es := Resolve(attr, config, children, host).entries;
            var r := Rendered(Resolve(attr, config, children, host), host.numeral);
            r.outcome == Completed && |r.images| == |es| &&
            forall i :: 0 <= i < |es| ==> r.images[i] == ImageOf(es[i], i, host.numeral)
  {
  }

  /** With neither an attribute nor a truthy property, the container holds one
      image per qualifying child, in document order, each made from that
      child's record at its position among the qualifying children; with no
      qualifying child it stays empty. */
  lemma ChildFallback(attr: Option<string>, config: JsValue, children: seq<Child>, host: Host)
    requires !AttributeSet(attr) && !Truthy(config)
    ensures var q := Qualifying(children);
            var r := Rendered(Resolve(attr, config, children, host), host.numeral);
            r.outcome == Completed && |r.images| == |q| &&
            forall i :: 0 <= i < |q| ==> r.images[i] == ImageOf(ChildRecord(q[i], i, host.numeral), i, host.numeral)
  {
    ChildRecordsAreObjects(Qualifying(children), host.numeral);
  }

  /** A string given to the setter that is not JSON is stored as null, which
      is falsy: render() then falls back to the children rather than failing. */
  lemma UnparsableStringPropertyFallsBack(attr: Option<string>, s: string, children: seq<Child>, host: Host)
    requires !AttributeSet(attr) && host.parse(s).None?
    ensures Stored(Str(s), host.parse) == Null
    ensures Resolve(attr, Stored(Str(s), host.parse), children, host).Entries?
    ensures Resolve(attr, Stored(Str(s), host.parse), children, host).source == ChildSource
  {
  }

  /** The property is parsed only by the setter: a non-empty string that ends
      up stored (because it was JSON for a string, or assigned without going
      through the setter's parse) is rejected by render() as not an array. */
  lemma StoredStringIsNotReparsed(attr: Option<string>, s: string, children: seq<Child>, host: Host)
    requires !AttributeSet(attr) && s != ""
    ensures Resolve(attr, Str(s), children, host) == Failed(PropertyNotArray)
  {
  }

  /** The setter keeps a non-string value as it is and stores the parse of a
      string; a string that is JSON for an array is resolved as that array. */
  lemma SetterStorage(config: JsValue, host: Host)
    ensures !config.Str? ==> Stored(config, host.parse) == config
    ensures config.Str? && host.parse(config.s).Some? ==> Stored(config, host.parse) == host.parse(config.s).value
    ensures config.Str? && host.parse(config.s).Some? && host.parse(config.s).value.Arr? ==>
              forall children :: Resolve(None, Stored(config, host.parse), children, host) ==
                                 Entries(PropertySource, host.parse(config.s).value.elems)
  {
  }
}
