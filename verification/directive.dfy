/** The choices the `tmlTr` directives make before handing an element to
    `compileTranslation`: which string is the translation key, and which
    snapshot the args-expression branch renders (src/tml-angular.js:43-71,
    217, 231). */
module Directive {
  import opened JsValues
  import opened TemplateParams

  /** The attribute directive's key (line 217): the attribute's value when it
      is a non-empty string other than `tml-tr`, otherwise the element's
      inner HTML. `tmlTr` is None when the attribute value is undefined. */
  function AttributeTemplate(tmlTr: Option<string>, html: string): (t: string)
    ensures tmlTr.Some? && tmlTr.value != "" && tmlTr.value != "tml-tr" ==> t == tmlTr.value
    ensures tmlTr.None? || tmlTr.value == "" || tmlTr.value == "tml-tr" ==> t == html
    ensures t == "" || t == "tml-tr" ==> t == html
    ensures t == html || tmlTr == Some(t)
  {
    if tmlTr.Some? && tmlTr.value != "" && tmlTr.value != "tml-tr" then tmlTr.value else html
  }

  /** The element directive's key (line 231): `translateStr || html`. */
  function ElementTemplate(translateStr: Option<string>, html: string): (t: string)
    ensures translateStr.Some? && translateStr.value != "" ==> t == translateStr.value
    ensures translateStr.None? || translateStr.value == "" ==> t == html
    ensures t == "" ==> t == html
    ensures t == html || translateStr == Some(t)
  {
    if translateStr.Some? && translateStr.value != "" then translateStr.value else html
  }

  /** The snapshot rendered by the args branch's `performTranslation`
      (line 67). `evaluated` is the parsed expression's value on the scope,
      or None when `$parse` rejected the expression. */
  function ArgsSnapshot(evaluated: Option<Value>): (v: Value)
    ensures evaluated.Some? ==> v == evaluated.value
    ensures evaluated.None? ==> v == Obj(map[])
  {
    if evaluated.Some? then evaluated.value else Obj(map[])
  }

  /** An args expression that does not parse degrades to a render with an
      empty parameter map. */
  lemma UnparsedArgsRenderEmpty()
    ensures Normalised(ScopeEntries(ArgsSnapshot(None))) == map[]
  {
  }

  /** An args expression whose value is null, undefined or otherwise falsy
      also renders with an empty parameter map (`tplScope || {}`). */
  lemma FalsyArgsRenderEmpty(v: Value)
    requires !Truthy(v)
    ensures Normalised(ScopeEntries(ArgsSnapshot(Some(v)))) == map[]
  {
  }
}
