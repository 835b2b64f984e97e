/**
 Template rendering: the recursive rewrite of the generator template's string leaves,
 and the non-blank guarantee of the rendered store key.  Executing one Go template
 against a pass's input is a parameter: an `Expander`.
 */
module Render {
  import opened Api

  type Expander = string -> Option<string>

  predicate IsTemplate(s: string) {
    exists i :: 0 <= i < |s| - 1 && s[i] == '{' && s[i + 1] == '{'
  }

  // ---------------------------------------------------------------- reference

  /** Every string leaf that holds "{{" expands. */
  ghost predicate Renders(v: Json, expand: Expander) {
    match v
    case Obj(fields) => forall k :: k in fields ==> Renders(fields[k], expand)
    case Arr(items) => forall i :: 0 <= i < |items| ==> Renders(items[i], expand)
    case Str(text) => IsTemplate(text) ==> expand(text).Some?
    case Other(_) => true
  }

  function RenderLeaf(text: string, expand: Expander): string {
    if IsTemplate(text) && expand(text).Some? then expand(text).value else text
  }

  /** The rewritten tree, leaf by leaf. */
  function Rewrite(v: Json, expand: Expander): Json {
    match v
    case Obj(fields) => Obj(map k | k in fields :: Rewrite(fields[k], expand))
    case Arr(items) => Arr(seq(|items|, i requires 0 <= i < |items| => Rewrite(items[i], expand)))
    case Str(text) => Str(RenderLeaf(text, expand))
    case Other(_) => v
  }

  /** Same keys, same lengths, same non-string leaves. */
  ghost predicate SameShape(v: Json, w: Json) {
    match v
    case Obj(fields) =>
      w.Obj? && fields.Keys == w.fields.Keys && forall k :: k in fields ==> SameShape(fields[k], w.fields[k])
    case Arr(items) =>
      w.Arr? && |items| == |w.items| && forall i :: 0 <= i < |items| ==> SameShape(items[i], w.items[i])
    case Str(_) => w.Str?
    case Other(_) => w == v
  }

  /** No string leaf holds "{{". */
  ghost predicate Plain(v: Json) {
    match v
    case Obj(fields) => forall k :: k in fields ==> Plain(fields[k])
    case Arr(items) => forall i :: 0 <= i < |items| ==> Plain(items[i])
    case Str(text) => !IsTemplate(text)
    case Other(_) => true
  }

  // ------------------------------------------------------------ path by path

  /** One step into a tree. */
  datatype Step = Field(name: string) | Item(index: nat)

  /** What a tree holds at a path, if it has that path. */
  function At(v: Json, path: seq<Step>): Option<Json> {
    if path == [] then Some(v)
    else match (v, path[0])
         case (Obj(fields), Field(k)) => if k in fields then At(fields[k], path[1..]) else None
         case (Arr(items), Item(i)) => if i < |items| then At(items[i], path[1..]) else None
         case _ => None
  }

  /** What must become of a string leaf: a template becomes what it expands to, any other text
      stays. */
  predicate LeafBecomes(text: string, out: string, expand: Expander) {
    if IsTemplate(text) then expand(text) == Some(out) else out == text
  }

  /** What must become of whatever a path holds. */
  predicate Becomes(v: Option<Json>, w: Option<Json>, expand: Expander) {
    match v
    case None => w.None?
    case Some(Obj(fields)) => w.Some? && w.value.Obj? && w.value.fields.Keys == fields.Keys
    case Some(Arr(items)) => w.Some? && w.value.Arr? && |w.value.items| == |items|
    case Some(Str(text)) => w.Some? && w.value.Str? && LeafBecomes(text, w.value.text, expand)
    case Some(Other(_)) => w == v
  }

  /** The rendering of a tree, said path by path. */
  ghost predicate RendersTo(v: Json, w: Json, expand: Expander) {
    forall path :: Becomes(At(v, path), At(w, path), expand)
  }

  lemma {:induction false} RewriteAt(v: Json, path: seq<Step>, expand: Expander)
    requires Renders(v, expand)
    ensures Becomes(At(v, path), At(Rewrite(v, expand), path), expand)
    decreases |path|
  {
    if path != [] {
      match (v, path[0])
      case (Obj(fields), Field(k)) => if k in fields { RewriteAt(fields[k], path[1..], expand); }
      case (Arr(items), Item(i)) => if i < |items| { RewriteAt(items[i], path[1..], expand); }
      case _ =>
    }
  }

  /** The rewrite is the rendering. */
  lemma RewriteRenders(v: Json, expand: Expander)
    requires Renders(v, expand)
    ensures RendersTo(v, Rewrite(v, expand), expand)
  {
    forall path ensures Becomes(At(v, path), At(Rewrite(v, expand), path), expand) {
      RewriteAt(v, path, expand);
    }
  }

  /** A tree has at most one rendering ... */
  lemma {:induction false} RenderingIsUnique(v: Json, w: Json, w': Json, expand: Expander)
    requires RendersTo(v, w, expand) && RendersTo(v, w', expand)
    ensures w == w'
  {
    assert Becomes(At(v, []), At(w, []), expand) && Becomes(At(v, []), At(w', []), expand);
    match v
    case Obj(fields) =>
      forall k | k in fields ensures w.fields[k] == w'.fields[k] {
        RendersInside(v, w, Field(k), fields[k], w.fields[k], expand);
        RendersInside(v, w', Field(k), fields[k], w'.fields[k], expand);
        RenderingIsUnique(fields[k], w.fields[k], w'.fields[k], expand);
      }
      assert w.fields == w'.fields;
    case Arr(items) =>
      forall i | 0 <= i < |items| ensures w.items[i] == w'.items[i] {
        RendersInside(v, w, Item(i), items[i], w.items[i], expand);
        RendersInside(v, w', Item(i), items[i], w'.items[i], expand);
        RenderingIsUnique(items[i], w.items[i], w'.items[i], expand);
      }
      assert w.items == w'.items;
    case Str(_) =>
    case Other(_) =>
  }

  lemma RendersInside(v: Json, w: Json, s: Step, v1: Json, w1: Json, expand: Expander)
    requires RendersTo(v, w, expand)
    requires forall path :: At(v, [s] + path) == At(v1, path) && At(w, [s] + path) == At(w1, path)
    ensures RendersTo(v1, w1, expand)
  {
    forall path ensures Becomes(At(v1, path), At(w1, path), expand) {
      assert Becomes(At(v, [s] + path), At(w, [s] + path), expand);
    }
  }

  /** ... and has one exactly when every template leaf, wherever it is, expands. */
  lemma {:induction false} RendersByPath(v: Json, expand: Expander)
    ensures Renders(v, expand) <==>
            forall path, text :: At(v, path) == Some(Str(text)) && IsTemplate(text) ==> expand(text).Some?
  {
    if Renders(v, expand) {
      forall path, text | At(v, path) == Some(Str(text)) && IsTemplate(text) ensures expand(text).Some? {
        RewriteAt(v, path, expand);
      }
    } else {
      var path, text := FailingLeaf(v, expand);
    }
  }

  lemma {:induction false} FailingLeaf(v: Json, expand: Expander) returns (path: seq<Step>, text: string)
    requires !Renders(v, expand)
    ensures At(v, path) == Some(Str(text)) && IsTemplate(text) && expand(text).None?
  {
    match v
    case Obj(fields) =>
      var k :| k in fields && !Renders(fields[k], expand);
      path, text := FailingLeaf(fields[k], expand);
      assert ([Field(k)] + path)[1..] == path;
      path := [Field(k)] + path;
    case Arr(items) =>
      var i :| 0 <= i < |items| && !Renders(items[i], expand);
      path, text := FailingLeaf(items[i], expand);
      assert ([Item(i)] + path)[1..] == path;
      path := [Item(i)] + path;
    case Str(t) => path, text := [], t;
  }

  // --------------------------------------------------------------------- walk

  /** `walk`.  Go ranges over a map in an unspecified order: `:|` picks the next key. */
  method Walk(v: Json, expand: Expander) returns (r: Option<Json>)
    ensures r.Some? <==> Renders(v, expand)
    ensures r.Some? ==> r.value == Rewrite(v, expand) && RendersTo(v, r.value, expand)
    decreases v, 1
  {
    hide RendersTo;
    if Renders(v, expand) { RewriteRenders(v, expand); }
    match v
    case Obj(fields) =>
      r := WalkFields(v, fields, expand);
    case Arr(items) =>
      var out: seq<Json> := [];
      for i := 0 to |items|
        invariant |out| == i
        invariant forall j :: 0 <= j < i ==> Renders(items[j], expand) && out[j] == Rewrite(items[j], expand)
      {
        var e := Walk(items[i], expand);
        if e.None? {
          return None;
        }
        out := out + [e.value];
      }
      assert Arr(out) == Rewrite(v, expand);
      r := Some(Arr(out));
    case Str(text) =>
      if !IsTemplate(text) {
        return Some(v);
      }
      var e := expand(text);
      r := if e.Some? then Some(Str(e.value)) else None;
    case Other(_) =>
      r := Some(v);
  }

  /** The loop of `walk` over an object's fields. */
  method WalkFields(v: Json, fields: map<string, Json>, expand: Expander) returns (r: Option<Json>)
    requires v == Obj(fields)
    ensures r.Some? <==> Renders(v, expand)
    ensures r.Some? ==> r.value == Rewrite(v, expand) && RendersTo(v, r.value, expand)
    decreases v, 0
  {
    hide RendersTo;
    if Renders(v, expand) { RewriteRenders(v, expand); }
    var out: map<string, Json> := map[];
    var left := fields.Keys;
    while left != {}
      invariant left <= fields.Keys
      invariant out.Keys == fields.Keys - left
      invariant forall k :: k in out ==> Renders(fields[k], expand) && out[k] == Rewrite(fields[k], expand)
      decreases |left|
    {
      var k :| k in left;
      var e := Walk(fields[k], expand);
      if e.None? {
        return None;
      }
      out := out[k := e.value];
      left := left - {k};
    }
    assert out == Rewrite(v, expand).fields;
    r := Some(Obj(out));
  }

  lemma {:induction false} RewriteKeepsShape(v: Json, expand: Expander)
    ensures SameShape(v, Rewrite(v, expand))
  {
    match v
    case Obj(fields) =>
      forall k | k in fields ensures SameShape(fields[k], Rewrite(fields[k], expand)) {
        RewriteKeepsShape(fields[k], expand);
      }
    case Arr(items) =>
      forall i | 0 <= i < |items| ensures SameShape(items[i], Rewrite(items[i], expand)) {
        RewriteKeepsShape(items[i], expand);
      }
    case Str(_) =>
    case Other(_) =>
  }

  /** A tree with nothing to expand renders to itself, whatever the input. */
  lemma {:induction false} PlainIsFixed(v: Json, expand: Expander)
    requires Plain(v)
    ensures Renders(v, expand) && Rewrite(v, expand) == v
  {
    match v
    case Obj(fields) =>
      forall k | k in fields ensures Renders(fields[k], expand) && Rewrite(fields[k], expand) == fields[k] {
        PlainIsFixed(fields[k], expand);
      }
      assert Rewrite(v, expand).fields == fields;
    case Arr(items) =>
      forall i | 0 <= i < |items| ensures Renders(items[i], expand) && Rewrite(items[i], expand) == items[i] {
        PlainIsFixed(items[i], expand);
      }
      assert Rewrite(v, expand).items == items;
    case Str(_) =>
    case Other(_) =>
  }

  /** When expansion leaves no "{{" behind, rendering twice is rendering once. */
  lemma {:induction false} RewriteIdempotent(v: Json, expand: Expander)
    requires Renders(v, expand)
    requires forall s :: expand(s).Some? ==> !IsTemplate(expand(s).value)
    ensures Plain(Rewrite(v, expand))
    ensures Rewrite(Rewrite(v, expand), expand) == Rewrite(v, expand)
  {
    RewriteIsPlain(v, expand);
    PlainIsFixed(Rewrite(v, expand), expand);
  }

  lemma {:induction false} RewriteIsPlain(v: Json, expand: Expander)
    requires Renders(v, expand)
    requires forall s :: expand(s).Some? ==> !IsTemplate(expand(s).value)
    ensures Plain(Rewrite(v, expand))
  {
    match v
    case Obj(fields) =>
      forall k | k in fields ensures Plain(Rewrite(fields[k], expand)) {
        RewriteIsPlain(fields[k], expand);
      }
    case Arr(items) =>
      forall i | 0 <= i < |items| ensures Plain(Rewrite(items[i], expand)) {
        RewriteIsPlain(items[i], expand);
      }
    case Str(_) =>
    case Other(_) =>
  }

  // ----------------------------------------------- RenderKey, RenderTemplate

  /** The white space `strings.TrimSpace` strips: the Unicode White_Space property. */
  predicate IsSpace(c: char) {
    || c in {' ', '\t', '\n', '\r', '\U{0B}', '\U{0C}', '\U{85}', '\U{A0}'}
    || '\U{2000}' <= c <= '\U{200A}'
    || c in {'\U{1680}', '\U{2028}', '\U{2029}', '\U{202F}', '\U{205F}', '\U{3000}'}
  }

  predicate Blank(s: string) { forall i :: 0 <= i < |s| ==> IsSpace(s[i]) }

  /** `RenderKey`: the key template expands (braces or not) and must not come out blank. */
  function RenderKey(tmpl: string, expand: Expander): (r: Option<string>)
    ensures r.Some? ==> r == expand(tmpl) && r.value != "" && !Blank(r.value)
    ensures r.None? <==> expand(tmpl).None? || Blank(expand(tmpl).value)
  {
    var out := expand(tmpl);
    if out.None? || Blank(out.value) then None else out
  }

  function TextField(v: Json, name: string): string {
    if v.Obj? && name in v.fields && v.fields[name].Str? then v.fields[name].text else ""
  }

  /** `RenderTemplate`: the kind of the rendered run, when every leaf renders and the
      result names an apiVersion and a kind. */
  ghost function RenderedKind(template: Json, expand: Expander): Option<Kind> {
    var kind := Kind(TextField(Rewrite(template, expand), "apiVersion"), TextField(Rewrite(template, expand), "kind"));
    if template.Obj? && Renders(template, expand) && kind.apiVersion != "" && kind.kind != "" then Some(kind) else None
  }

  /** The named field is a text that renders to `out`. */
  predicate FieldBecomes(v: Json, name: string, out: string, expand: Expander) {
    v.Obj? && name in v.fields && v.fields[name].Str? && LeafBecomes(v.fields[name].text, out, expand)
  }

  /** A template yields a run of a kind exactly when it is an object, every leaf renders, and its
      fields "apiVersion" and "kind" render to the two non-empty halves of that kind. */
  lemma KindIsRendered(template: Json, expand: Expander, k: Kind)
    ensures RenderedKind(template, expand) == Some(k) <==>
            && template.Obj? && Renders(template, expand) && k.apiVersion != "" && k.kind != ""
            && FieldBecomes(template, "apiVersion", k.apiVersion, expand)
            && FieldBecomes(template, "kind", k.kind, expand)
  {
    if template.Obj? && Renders(template, expand) {
      if k.apiVersion != "" && k.kind != "" {
        FieldRewritten(template, "apiVersion", k.apiVersion, expand);
        FieldRewritten(template, "kind", k.kind, expand);
      }
    }
  }

  lemma FieldRewritten(v: Json, name: string, out: string, expand: Expander)
    requires v.Obj? && Renders(v, expand) && out != ""
    ensures TextField(Rewrite(v, expand), name) == out <==> FieldBecomes(v, name, out, expand)
  {
    RewriteAt(v, [Field(name)], expand);
    if name in v.fields {
      assert At(v, [Field(name)]) == Some(v.fields[name]);
      assert At(Rewrite(v, expand), [Field(name)]) == Some(Rewrite(v, expand).fields[name]);
    }
  }

  method RenderTemplate(template: Json, expand: Expander) returns (r: Option<Kind>)
    ensures r == RenderedKind(template, expand)
    ensures r.Some? ==> FieldBecomes(template, "apiVersion", r.value.apiVersion, expand)
    ensures r.Some? ==> FieldBecomes(template, "kind", r.value.kind, expand)
  {
    if RenderedKind(template, expand).Some? {
      KindIsRendered(template, expand, RenderedKind(template, expand).value);
    }
    if !template.Obj? {
      return None;
    }
    var rendered := Walk(template, expand);
    if rendered.None? {
      return None;
    }
    var kind := Kind(TextField(rendered.value, "apiVersion"), TextField(rendered.value, "kind"));
    r := if kind.apiVersion == "" || kind.kind == "" then None else Some(kind);
  }
}
