/** The list of attribute names a translation without an args expression
    listens to: the data-token short names of the template, then a
    `-format` and a `-options` companion for each (src/tml-angular.js:80-87).
    The short names come from the translation library's key parser, which is
    not part of this model; they are an input here. */
module TokenNames {
  import opened TemplateParams

  /** The companions pushed for `names`, in order: `n-format`, `n-options`
      for each name `n`. */
  function Companions(names: seq<string>): (r: seq<string>)
    ensures |r| == 2 * |names|
  {
    if names == [] then []
    else
      var last := names[|names| - 1];
      Companions(names[..|names| - 1]) + [FormatKey(last), OptionsKey(last)]
  }

  /** Position `2 i` holds the format companion of name `i`, position `2 i + 1`
      its options companion. */
  lemma {:induction false} CompanionsAt(names: seq<string>, i: nat)
    requires i < |names|
    ensures Companions(names)[2 * i] == names[i] + "-format"
    ensures Companions(names)[2 * i + 1] == names[i] + "-options"
  {
    var init := names[..|names| - 1];
    if i < |names| - 1 {
      CompanionsAt(init, i);
      assert Companions(names)[..2 * |init|] == Companions(init);
    }
  }

  /** The loop that pushes the companions into `newNames`, followed by
      `tokenNames.concat(newNames)`. */
  method ExpandTokenNames(tokenNames: seq<string>) returns (all: seq<string>)
    ensures all == tokenNames + Companions(tokenNames)
    ensures |all| == 3 * |tokenNames|
  {
    var newNames := [];
    for i := 0 to |tokenNames|
      invariant newNames == Companions(tokenNames[..i])
    {
      var obj := tokenNames[i];
      newNames := newNames + [obj + "-format"];
      newNames := newNames + [obj + "-options"];
      assert tokenNames[..i + 1][..i] == tokenNames[..i];
    }
    assert tokenNames[..|tokenNames|] == tokenNames;
    all := tokenNames + newNames;
  }

  /** The expanded list starts with the token names in order; after them,
      position `|names| + 2 i` holds `name_i-format` and the next one
      `name_i-options`. */
  lemma ExpandedAt(names: seq<string>, i: nat)
    requires i < |names|
    ensures (names + Companions(names))[i] == names[i]
    ensures (names + Companions(names))[|names| + 2 * i] == names[i] + "-format"
    ensures (names + Companions(names))[|names| + 2 * i + 1] == names[i] + "-options"
  {
    CompanionsAt(names, i);
  }

  /** Every expanded name is a token name or a companion of one, and every
      token name and companion is among the expanded names. */
  lemma {:induction false} ExpandedNamesExactly(names: seq<string>, t: string)
    ensures t in names + Companions(names) <==>
      t in names || exists n :: n in names && (t == FormatKey(n) || t == OptionsKey(n))
  {
    if names != [] {
      var init, last := names[..|names| - 1], names[|names| - 1];
      ExpandedNamesExactly(init, t);
      assert names == init + [last];
      assert Companions(names) == Companions(init) + [FormatKey(last), OptionsKey(last)];
      if exists n :: n in names && (t == FormatKey(n) || t == OptionsKey(n)) {
        var n :| n in names && (t == FormatKey(n) || t == OptionsKey(n));
        if n != last {
          assert n in init;
        }
      }
    }
  }
}
