/**
 * The Content-Security-Policy directive set built when CSP is enabled
 * (index.js:86-114). The serialisation of the set into a header belongs to
 * the CSP middleware and is not modelled.
 */
module Csp {
  import opened Wrappers
  import opened Options

  /** `['self', 'unsafe-inline']`, the value of `default-src`. */
  const DefaultDirectives: seq<string> := ["self", "unsafe-inline"]

  /** The four directives a caller may extend. */
  const OptionalDirectives: set<string> := {"script-src", "child-src", "style-src", "font-src"}

  /** The caller's source lists (`config.cspScriptSrc` and its siblings). */
  datatype CspSources = CspSources(
    scriptSrc: Option<Value>,
    childSrc: Option<Value>,
    styleSrc: Option<Value>,
    fontSrc: Option<Value>)

  /** The caller's list for one of the optional directives. */
  function SourceFor(o: CspSources, directive: string): Option<Value>
    requires directive in OptionalDirectives
  {
    match directive
    case "script-src" => o.scriptSrc
    case "child-src" => o.childSrc
    case "style-src" => o.styleSrc
    case "font-src" => o.fontSrc
  }

  /**
   * `list && list.length > 0`: an array with at least one element, or a
   * non-empty string (a string default given through the option schema).
   * Numbers and booleans have no `length`, so they never pass.
   */
  predicate Supplied(v: Option<Value>)
  {
    match v
    case Some(List(xs)) => |xs| > 0
    case Some(Str(s)) => |s| > 0
    case _ => false
  }

  /**
   * What `defaultDirectives.concat(list)` appends: the elements of an array,
   * or a string as one element.
   */
  function Appended(v: Option<Value>): (xs: seq<string>)
    requires Supplied(v)
    ensures |xs| > 0
    ensures v.value.List? ==> xs == v.value.items
    ensures v.value.Str? ==> xs == [v.value.s]
  {
    match v.value
    case List(items) => items
    case Str(s) => [s]
  }

  /**
   * The directive set, stated declaratively: `default-src` always, and each
   * optional directive exactly when its list is supplied, holding the two
   * defaults followed by that list.
   */
  function Directives(o: CspSources): (d: map<string, seq<string>>)
    ensures "default-src" in d && d["default-src"] == DefaultDirectives
    ensures forall k :: k in d ==> k == "default-src" || k in OptionalDirectives
    ensures forall k :: k in OptionalDirectives ==> (k in d <==> Supplied(SourceFor(o, k)))
    ensures forall k :: k in OptionalDirectives && k in d ==>
      d[k] == DefaultDirectives + Appended(SourceFor(o, k))
  {
    map k | k in {"default-src"} + OptionalDirectives && (k == "default-src" || Supplied(SourceFor(o, k)))
      :: if k == "default-src" then DefaultDirectives else DefaultDirectives + Appended(SourceFor(o, k))
  }

  /**
   * The builder as the source writes it: start from `default-src` and insert
   * each optional directive under its own `if`.
   */
  method BuildDirectives(o: CspSources) returns (directives: map<string, seq<string>>)
    ensures directives == Directives(o)
  {
    directives := map["default-src" := DefaultDirectives];
    if Supplied(o.scriptSrc) {
      directives := directives["script-src" := DefaultDirectives + Appended(o.scriptSrc)];
    }
    if Supplied(o.childSrc) {
      directives := directives["child-src" := DefaultDirectives + Appended(o.childSrc)];
    }
    if Supplied(o.styleSrc) {
      directives := directives["style-src" := DefaultDirectives + Appended(o.styleSrc)];
    }
    if Supplied(o.fontSrc) {
      directives := directives["font-src" := DefaultDirectives + Appended(o.fontSrc)];
    }
    assert SourceFor(o, "script-src") == o.scriptSrc && SourceFor(o, "child-src") == o.childSrc;
    assert SourceFor(o, "style-src") == o.styleSrc && SourceFor(o, "font-src") == o.fontSrc;
    assert forall k :: k in directives <==> k in Directives(o);
  }

  /**
   * Every value a caller supplies for a directive appears in that directive,
   * in the caller's order, right after the two defaults.
   */
  lemma {:induction false} SuppliedValuesKept(o: CspSources, k: string, i: nat)
    requires k in OptionalDirectives && Supplied(SourceFor(o, k))
    requires i < |Appended(SourceFor(o, k))|
    ensures k in Directives(o)
    ensures Directives(o)[k][|DefaultDirectives| + i] == Appended(SourceFor(o, k))[i]
    ensures Directives(o)[k][..|DefaultDirectives|] == Directives(o)["default-src"]
  {
  }

  /** The caller can neither remove nor alter `default-src`. */
  lemma DefaultSrcFixed(o: CspSources, o': CspSources)
    ensures Directives(o)["default-src"] == Directives(o')["default-src"] == ["self", "unsafe-inline"]
  {
  }

  /** With no list supplied, the set is `default-src` alone. */
  lemma OnlyDefaultWhenNothingSupplied(o: CspSources)
    requires forall k :: k in OptionalDirectives ==> !Supplied(SourceFor(o, k))
    ensures Directives(o) == map["default-src" := ["self", "unsafe-inline"]]
  {
  }
}
