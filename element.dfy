/** The custom element: its configuration state, render() and the entry
    points that call it. */
module Element {
  import opened Js
  import opened Entry
  import opened Markup
  import opened Resolution

  class HoveringImages {
    /** JSON.parse and Number() of the page the element lives in. */
    const host: Host
    /** `getAttribute("images")` */
    var imagesAttr: Option<string>
    /** `_imagesConfig`, written by the `images` setter */
    var imagesConfig: JsValue
    /** the element's direct element children, in document order */
    var children: seq<Child>
    /** the images inside the shadow root's `.container`, in order */
    var container: seq<Image>
    /** the messages logged with console.error, oldest first */
    var diagnostics: seq<Diagnostic>

    /** What render() leaves for the element's current inputs. */
    ghost function Expected(): Rendering
      reads this
    {
      Rendered(Resolve(imagesAttr, imagesConfig, children, host), host.numeral)
    }

    /** The constructor: no property yet and an empty container; the attribute
        and children are those of the markup the element was created from. */
    constructor (host: Host, imagesAttr: Option<string>, children: seq<Child>)
      ensures this.host == host && this.imagesAttr == imagesAttr && this.children == children
      ensures imagesConfig == Null && container == [] && diagnostics == []
    {
      this.host := host;
      this.imagesAttr := imagesAttr;
      this.imagesConfig := Null;
      this.children := children;
      this.container := [];
      this.diagnostics := [];
    }

    /** render(): empty the container, choose the source, and append one image
        per entry; a rejected source logs one message and appends nothing. */
    method Render() returns (outcome: Outcome)
      modifies this`container, this`diagnostics
      ensures container == Expected().images && outcome == Expected().outcome
      ensures diagnostics == old(diagnostics) + (if outcome.Aborted? then [outcome.diagnostic] else [])
    {
      container := [];
      var resolved := Resolve(imagesAttr, imagesConfig, children, host);
      match resolved
      case Failed(d) =>
        diagnostics := diagnostics + [d];
        outcome := Aborted(d);
      case Entries(_, entries) =>
        outcome := AppendImages(entries);
    }

    /** The `forEach` of render(): append the image of each entry, made at its
        index, until an entry that is null or undefined throws. */
    method AppendImages(entries: seq<JsValue>) returns (outcome: Outcome)
      modifies this`container
      ensures container == old(container) + RenderEntries(entries, host.numeral).images
      ensures outcome == RenderEntries(entries, host.numeral).outcome
    {
      var i := 0;
      while i < |entries|
        invariant 0 <= i <= |entries|
        invariant forall j :: 0 <= j < i ==> !Nullish(entries[j])
        invariant |container| == |old(container)| + i
        invariant container[..|old(container)|] == old(container)
        invariant forall j :: 0 <= j < i ==> container[|old(container)| + j] == ImageOf(entries[j], j, host.numeral)
      {
        if Nullish(entries[i]) {
          assert FirstNullish(entries, 0) == i;
          outcome := Threw(i);
          return;
        }
        container := container + [ImageOf(entries[i], i, host.numeral)];
        i := i + 1;
      }
      assert FirstNullish(entries, 0) == |entries|;
      outcome := Completed;
    }

    /** The `images` getter: `_imagesConfig` as the setter left it. */
    function Images(): (r: JsValue)
      reads this
      ensures r == imagesConfig
    {
      imagesConfig
    }

    /** The `images` setter: store the value (a string parsed first, null when
        it is not JSON) and render. The getter then returns what was stored. */
    method SetImages(config: JsValue) returns (outcome: Outcome)
      modifies this`imagesConfig, this`container, this`diagnostics
      ensures Images() == Stored(config, host.parse)
      ensures container == Expected().images && outcome == Expected().outcome
      ensures diagnostics == old(diagnostics)
                             + (if config.Str? && host.parse(config.s).None? then [InvalidPropertyJson] else [])
                             + (if outcome.Aborted? then [outcome.diagnostic] else [])
    {
      if config.Str? {
        match host.parse(config.s)
        case Some(parsed) =>
          imagesConfig := parsed;
        case None =>
          diagnostics := diagnostics + [InvalidPropertyJson];
          imagesConfig := Null;
      } else {
        imagesConfig := config;
      }
      outcome := Render();
    }

    /** attributeChangedCallback: render again only when the `images`
        attribute really changed value (`oldValue !== newValue`). */
    method AttributeChangedCallback(name: string, oldValue: Option<string>, newValue: Option<string>)
      returns (outcome: Option<Outcome>)
      modifies this`container, this`diagnostics
      ensures outcome.Some? <==> name == "images" && oldValue != newValue
      ensures outcome.Some? ==> container == Expected().images && outcome.value == Expected().outcome
      ensures outcome.Some? ==>
                diagnostics == old(diagnostics) + (if outcome.value.Aborted? then [outcome.value.diagnostic] else [])
      ensures outcome.None? ==> container == old(container) && diagnostics == old(diagnostics)
    {
      if name == "images" && oldValue != newValue {
        var o := Render();
        outcome := Some(o);
      } else {
        outcome := None;
      }
    }

    /** The page sets (Some) or removes (None) the `images` attribute; the
        browser then calls attributeChangedCallback with the old and new
        values, even when they are equal. */
    method SetImagesAttribute(value: Option<string>) returns (outcome: Option<Outcome>)
      modifies this`imagesAttr, this`container, this`diagnostics
      ensures imagesAttr == value
      ensures outcome.Some? <==> old(imagesAttr) != value
      ensures outcome.Some? ==> container == Expected().images && outcome.value == Expected().outcome
      ensures outcome.Some? ==>
                diagnostics == old(diagnostics) + (if outcome.value.Aborted? then [outcome.value.diagnostic] else [])
      ensures outcome.None? ==> container == old(container) && diagnostics == old(diagnostics)
    {
      var previous := imagesAttr;
      imagesAttr := value;
      outcome := AttributeChangedCallback("images", previous, value);
    }

    /** connectedCallback renders once; the observer it installs is not part
        of this model. */
    method Connected() returns (outcome: Outcome)
      modifies this`container, this`diagnostics
      ensures container == Expected().images && outcome == Expected().outcome
      ensures diagnostics == old(diagnostics) + (if outcome.Aborted? then [outcome.diagnostic] else [])
    {
      outcome := Render();
    }

    /** The page changes the children; the mutation observer's callback then
        renders again. */
    method ChildrenMutated(newChildren: seq<Child>) returns (outcome: Outcome)
      modifies this`children, this`container, this`diagnostics
      ensures children == newChildren
      ensures container == Expected().images && outcome == Expected().outcome
      ensures diagnostics == old(diagnostics) + (if outcome.Aborted? then [outcome.diagnostic] else [])
    {
      children := newChildren;
      outcome := Render();
    }

    /** Rendering twice with unchanged inputs leaves the same container and
        ends the same way: the first call's images are discarded, not kept,
        and each call logs its own message when the source is rejected. */
    method RenderAgain() returns (first: seq<Image>, second: seq<Image>, firstOutcome: Outcome, secondOutcome: Outcome)
      modifies this`container, this`diagnostics
      ensures first == second == container == Expected().images
      ensures firstOutcome == secondOutcome == Expected().outcome
      ensures diagnostics == old(diagnostics) +
                (if firstOutcome.Aborted? then [firstOutcome.diagnostic, secondOutcome.diagnostic] else [])
    {
      firstOutcome := Render();
      first := container;
      secondOutcome := Render();
      second := container;
    }
  }
}
