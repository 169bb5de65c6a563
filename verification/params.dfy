/** The parameter map `runTemplate` builds from a parameter snapshot before
    handing it to the translator (src/tml-angular.js:10-35). */
module TemplateParams {
  import opened JsValues

  /** One entry of the parameter map. A list-valued entry is repackaged as
      `[list, format?, options?]`; every other entry is passed through. */
  datatype Param =
    | Plain(value: Value)
    | Wrapped(list: seq<Value>, format: Option<Value>, options: Option<Value>)

  function FormatKey(key: string): string
  {
    key + "-format"
  }

  function OptionsKey(key: string): string
  {
    key + "-options"
  }

  /** The snapshot's entries: `tplScope || {}` followed by `Object.keys`. */
  function ScopeEntries(tplScope: Value): (m: map<string, Value>)
    ensures !Truthy(tplScope) ==> m == map[]
    ensures tplScope.Obj? ==> m == tplScope.fields
  {
    OwnEntries(if Truthy(tplScope) then tplScope else Obj(map[]))
  }

  /** The modifier stored for a list-valued entry: present exactly when the
      sibling key holds a truthy value, and then that value. */
  function Modifier(s: map<string, Value>, sibling: string): (o: Option<Value>)
    ensures o.Some? <==> Truthy(Lookup(s, sibling))
    ensures o.Some? ==> o.value == s[sibling]
  {
    var v := Lookup(s, sibling);
    if Truthy(v) then Some(v) else None
  }

  /** The entry the parameter map gets for `key`. */
  function NormalisedEntry(s: map<string, Value>, key: string): (p: Param)
    requires key in s
    ensures !s[key].Arr? ==> p == Plain(s[key])
    ensures s[key].Arr? ==> p.Wrapped? && p.list == s[key].items
    ensures s[key].Arr? ==> p.format == Modifier(s, FormatKey(key)) && p.options == Modifier(s, OptionsKey(key))
  {
    var value := s[key];
    if value.Arr? then
      Wrapped(value.items, Modifier(s, FormatKey(key)), Modifier(s, OptionsKey(key)))
    else
      Plain(value)
  }

  /** The whole parameter map: one entry per snapshot key, and no other. */
  function Normalised(s: map<string, Value>): (r: map<string, Param>)
    ensures r.Keys == s.Keys
  {
    map key | key in s :: NormalisedEntry(s, key)
  }

  /** `runTemplate` (lines 12-35): `tplScope || {}`, then the loop that fills
      `params`. */
  method BuildParams(tplScope: Value) returns (params: map<string, Param>)
    ensures params == Normalised(ScopeEntries(tplScope))
    ensures params.Keys == ScopeEntries(tplScope).Keys
    ensures !Truthy(tplScope) ==> params == map[]
  {
    params := FillParams(ScopeEntries(tplScope));
  }

  /** The loop over `Object.keys(tplScope)`. The keys are taken in any order:
      each key writes only its own entry. */
  method FillParams(entries: map<string, Value>) returns (params: map<string, Param>)
    ensures params == Normalised(entries)
  {
    var pending := entries.Keys;
    params := map[];
    while pending != {}
      invariant pending <= entries.Keys
      invariant params.Keys == entries.Keys - pending
      invariant forall key :: key in params ==> params[key] == NormalisedEntry(entries, key)
      decreases pending
    {
      var key :| key in pending;
      var value := entries[key];
      if value.Arr? {
        var paramVal := Wrapped(value.items, None, None);
        var format := Lookup(entries, FormatKey(key));
        if Truthy(format) {
          paramVal := paramVal.(format := Some(format));
        }
        var options := Lookup(entries, OptionsKey(key));
        if Truthy(options) {
          paramVal := paramVal.(options := Some(options));
        }
        params := params[key := paramVal];
      } else {
        params := params[key := Plain(value)];
      }
      pending := pending - {key};
    }
  }

  /** The JavaScript value the translator receives for an entry. A wrapped
      entry is an array of length 1, 2 or 3 whose first element is the list;
      when only the options are set, index 1 is a hole and reads undefined. */
  function ParamValue(p: Param): (v: Value)
    ensures p.Plain? ==> v == p.value
    ensures p.Wrapped? ==> v.Arr? && 1 <= |v.items| <= 3 && v.items[0] == Arr(p.list)
    ensures p.Wrapped? ==> (|v.items| == 3 <==> p.options.Some?)
    ensures p.Wrapped? ==> (|v.items| == 1 <==> p.format.None? && p.options.None?)
    ensures p.Wrapped? && p.format.Some? ==> v.items[1] == p.format.value
    ensures p.Wrapped? && p.format.None? && 1 < |v.items| ==> v.items[1] == Undef
    ensures p.Wrapped? && p.options.Some? ==> v.items[2] == p.options.value
  {
    match p
    case Plain(value) => value
    case Wrapped(list, format, options) =>
      var second := if format.Some? then format.value else Undef;
      if options.Some? then Arr([Arr(list), second, options.value])
      else if format.Some? then Arr([Arr(list), second])
      else Arr([Arr(list)])
  }

  /** A value that is not a list reaches the translator unchanged. */
  lemma PlainEntryUnchanged(s: map<string, Value>, key: string)
    requires key in s && !s[key].Arr?
    ensures key in Normalised(s) && ParamValue(Normalised(s)[key]) == s[key]
  {
  }

  /** A list-valued entry reaches the translator as `[list, format?, options?]`. */
  lemma ListEntryWrapped(s: map<string, Value>, key: string)
    requires key in s && s[key].Arr?
    ensures key in Normalised(s)
    ensures var v := ParamValue(Normalised(s)[key]);
      && v.Arr? && v.items[0] == s[key]
      && (Truthy(Lookup(s, FormatKey(key))) ==> v.items[1] == s[FormatKey(key)])
      && (Truthy(Lookup(s, OptionsKey(key))) <==> |v.items| == 3)
      && (Truthy(Lookup(s, OptionsKey(key))) ==> v.items[2] == s[OptionsKey(key)])
      && (!Truthy(Lookup(s, FormatKey(key))) && 1 < |v.items| ==> v.items[1] == Undef)
  {
  }
}
