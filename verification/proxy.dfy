/** The `simpleTokenProxy` of a translation without an args expression
    (src/tml-angular.js:89-162): one accessor per expanded token name over a
    private `____store`, read back through `runTemplate` whenever a token's
    watcher fires or the language changes. */
module Proxy {
  import opened JsValues
  import opened TemplateParams
  import opened TokenNames

  /** The proxy's own data property holding the explicitly set values. */
  const StoreKey := "____store"

  /** The getter defined for `token`: the stored value unless it is
      undefined, and otherwise the scope's property of that name. */
  function TokenValue(store: map<string, Value>, scope: map<string, Value>, token: string): (v: Value)
    ensures Lookup(store, token) != Undef ==> v == store[token]
    ensures Lookup(store, token) == Undef ==> v == Lookup(scope, token)
  {
    if Lookup(store, token) == Undef then Lookup(scope, token) else store[token]
  }

  /** The proxy as `runTemplate` enumerates it: `____store` first (an
      ordinary enumerable property holding the store object), then one
      enumerable accessor per token name. */
  function ProxyEntries(store: map<string, Value>, scope: map<string, Value>, tokens: seq<string>): (m: map<string, Value>)
    ensures m.Keys == {StoreKey} + set t | t in tokens
    ensures StoreKey !in tokens ==> m[StoreKey] == Obj(store)
    ensures forall t :: t in tokens ==> m[t] == TokenValue(store, scope, t)
  {
    map[StoreKey := Obj(store)] + map t | t in tokens :: TokenValue(store, scope, t)
  }

  /** A write to one token changes what that token reads, and no other. */
  lemma ReadAfterWrite(store: map<string, Value>, scope: map<string, Value>, token: string, value: Value, other: string)
    ensures TokenValue(store[token := value], scope, token) == if value != Undef then value else Lookup(scope, token)
    ensures other != token ==> TokenValue(store[token := value], scope, other) == TokenValue(store, scope, other)
  {
  }

  /** No companion name collides with the store property. */
  lemma CompanionIsNotStore(name: string)
    ensures FormatKey(name) != StoreKey && OptionsKey(name) != StoreKey
  {
    var f, o := FormatKey(name), OptionsKey(name);
    assert f[|f| - 1] == 't' && o[|o| - 1] == 's';
    assert StoreKey[|StoreKey| - 1] == 'e';
  }

  /** Unless a data token is itself named `____store`, no expanded name is,
      so the store property of the proxy keeps its value and is rendered as
      the store object. */
  lemma ExpandedNamesMissStore(names: seq<string>)
    requires StoreKey !in names
    ensures StoreKey !in names + Companions(names)
  {
    ExpandedNamesExactly(names, StoreKey);
    forall n | n in names
      ensures StoreKey != FormatKey(n) && StoreKey != OptionsKey(n)
    {
      CompanionIsNotStore(n);
    }
  }

  /** Because the expanded names include every companion, the format and
      options of a token are read through the proxy's getters, so they too
      fall back to the scope when nothing was stored for them. */
  lemma CompanionsReadThroughProxy(store: map<string, Value>, scope: map<string, Value>, names: seq<string>, name: string)
    requires name in names
    ensures var m := ProxyEntries(store, scope, names + Companions(names));
      && Lookup(m, FormatKey(name)) == TokenValue(store, scope, FormatKey(name))
      && Lookup(m, OptionsKey(name)) == TokenValue(store, scope, OptionsKey(name))
  {
    ExpandedNamesExactly(names, FormatKey(name));
    ExpandedNamesExactly(names, OptionsKey(name));
  }

  /** A template without data tokens is still translated with the proxy,
      whose only enumerable property is `____store`: the translator receives
      that single entry, never an empty parameter map. */
  lemma NoTokensPassesOnlyStore(store: map<string, Value>, scope: map<string, Value>)
    ensures Normalised(ProxyEntries(store, scope, [])) == map[StoreKey := Plain(Obj(store))]
  {
    var m := ProxyEntries(store, scope, []);
    assert m.Keys == {StoreKey};
  }

  class TokenProxy {
    /** The expanded token names the accessors are defined for. */
    const tokens: seq<string>
    /** `____store`: the values the token watchers have written. */
    var store: map<string, Value>
    /** The directive's scope, read when nothing is stored for a token. The
        host application changes it; nothing in the binder writes it. */
    var scope: map<string, Value>

    constructor (tokens: seq<string>, scope: map<string, Value>)
      ensures this.tokens == tokens && this.scope == scope && store == map[]
    {
      this.tokens := tokens;
      this.scope := scope;
      store := map[];
    }

    /** The proxy as a parameter snapshot. */
    function Entries(): map<string, Value>
      reads this
    {
      ProxyEntries(store, scope, tokens)
    }

    /** The setter defined for `token`: only the store entry changes. */
    method Write(token: string, value: Value)
      requires token in tokens
      modifies this
      ensures store == old(store)[token := value]
      ensures scope == old(scope)
    {
      store := store[token := value];
    }

    /** `performTranslation`: `runTemplate(simpleTokenProxy)`, up to the
        translator call, which receives `params`. */
    method Render() returns (params: map<string, Param>)
      ensures params == Normalised(ProxyEntries(store, scope, tokens))
      ensures params.Keys == {StoreKey} + set t | t in tokens
    {
      params := BuildParams(Obj(Entries()));
    }

    /** The watch listener of one token: an undefined new value is ignored;
        any other value is stored and the proxy rendered. The result is the
        parameter map of that render, if one happened. */
    method OnTokenChange(token: string, newValue: Value) returns (rendered: Option<map<string, Param>>)
      requires token in tokens
      modifies this
      ensures scope == old(scope)
      ensures newValue == Undef ==> rendered == None && store == old(store)
      ensures newValue != Undef ==> store == old(store)[token := newValue]
      ensures newValue != Undef ==> rendered == Some(Normalised(ProxyEntries(store, scope, tokens)))
      ensures newValue != Undef && token != StoreKey && !newValue.Arr? ==>
        rendered.Some? && rendered.value[token] == Plain(newValue)
      ensures newValue != Undef && token != StoreKey && newValue.Arr? ==>
        rendered.Some? && rendered.value[token].Wrapped? && rendered.value[token].list == newValue.items
    {
      if newValue == Undef {
        return None;
      }
      Write(token, newValue);
      var params := Render();
      assert Entries()[token] == newValue;
      rendered := Some(params);
    }
  }

  /** A translation of `Hello, {name}` whose `name` attribute evaluates to
      "Ada", then to undefined, then to "Grace": each defined value is stored
      and rendered, and the translator sees the latest one. */
  method GreetingScenario()
  {
    var tokens := ExpandTokenNames(["name"]);
    assert ["name"][..0] == [];
    assert Companions(["name"]) == [FormatKey("name"), OptionsKey("name")];
    assert FormatKey("name") == "name-format" && OptionsKey("name") == "name-options";
    assert tokens == ["name", "name-format", "name-options"];
    var proxy := new TokenProxy(tokens, map[]);
    assert "name" in proxy.tokens && "name" != StoreKey;
    var rendered := proxy.OnTokenChange("name", Str("Ada"));
    assert rendered.value["name"] == Plain(Str("Ada"));
    rendered := proxy.OnTokenChange("name", Undef);
    assert rendered == None && proxy.store["name"] == Str("Ada");
    rendered := proxy.OnTokenChange("name", Str("Grace"));
    assert rendered.value["name"] == Plain(Str("Grace"));
  }
}
