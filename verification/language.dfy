/** The module's run block mirrors the translation library's current
    language into the root scope for templates to read
    (src/tml-angular.js:179-205). */
module Language {
  import opened JsValues

  /** The root-scope fields `setLanguage` writes. */
  datatype Mirror = Mirror(currentLanguage: Value, currentLocale: Value, isRtl: Value)

  /** What `setLanguage(language)` leaves in the root scope: nothing changes
      for a falsy language; otherwise the language is stored without its
      `application` property, its locale is copied and its direction is
      reduced to a boolean. */
  function Mirrored(m: Mirror, language: Value): (r: Mirror)
    ensures !Truthy(language) ==> r == m
    ensures Truthy(language) ==> r.currentLocale == Get(language, "locale")
    ensures Truthy(language) ==> r.isRtl == Bool(Truthy(Get(language, "right_to_left")))
    ensures Truthy(language) ==> Get(r.currentLanguage, "application") == Undef
    ensures Truthy(language) ==> forall k :: k != "application" ==> Get(r.currentLanguage, k) == Get(language, k)
    ensures Truthy(language) ==> Truthy(r.currentLanguage)
    ensures language.Obj? ==> r.currentLanguage.Obj? && r.currentLanguage.fields.Keys == language.fields.Keys - {"application"}
    ensures Truthy(language) && !language.Obj? ==> r.currentLanguage == language
  {
    if Truthy(language) then
      var stored := WithoutProperty(language, "application");
      Mirror(stored, Get(stored, "locale"), Bool(Truthy(Get(stored, "right_to_left"))))
    else
      m
  }

  /** The language-change handler and the watch on the current language can
      both call `setLanguage` with the same language; the second call changes
      nothing. */
  lemma MirroredIdempotent(m: Mirror, language: Value)
    ensures Mirrored(Mirrored(m, language), language) == Mirrored(m, language)
  {
  }

  /** For a truthy language the mirror forgets what was there before. */
  lemma MirroredOverwrites(m1: Mirror, m2: Mirror, language: Value)
    requires Truthy(language)
    ensures Mirrored(m1, language) == Mirrored(m2, language)
  {
  }

  /** The root scope's language fields; undefined until a language is set. */
  class RootScope {
    var currentLanguage: Value
    var currentLocale: Value
    var isRtl: Value

    constructor ()
      ensures State() == Mirror(Undef, Undef, Undef)
    {
      currentLanguage, currentLocale, isRtl := Undef, Undef, Undef;
    }

    function State(): Mirror
      reads this
    {
      Mirror(currentLanguage, currentLocale, isRtl)
    }

    /** `setLanguage` (lines 179-188). */
    method SetLanguage(language: Value)
      modifies this
      ensures State() == Mirrored(old(State()), language)
      ensures !Truthy(language) ==> State() == old(State())
      ensures Truthy(language) ==> Get(currentLanguage, "application") == Undef
    {
      if Truthy(language) {
        currentLanguage := language;
        currentLanguage := WithoutProperty(currentLanguage, "application");
        currentLocale := Get(currentLanguage, "locale");
        isRtl := Bool(Truthy(Get(currentLanguage, "right_to_left")));
      }
    }

    /** The run block's first `setLanguage(getCurrentLanguage())` (lines
        199-205). `current` is what the library returned, or None when the
        call threw; the exception is swallowed and nothing changes. */
    method InitialLanguage(current: Option<Value>)
      modifies this
      ensures current.None? ==> State() == old(State())
      ensures current.Some? ==> State() == Mirrored(old(State()), current.value)
    {
      if current.Some? {
        SetLanguage(current.value);
      }
    }
  }
}
