/**
 * Looking up localized strings in resource bundles, with the default value as the answer
 * whenever the lookup fails, and the path of a localization bundle for a file.
 */
module Localization {

  datatype Option<T> = None | Some(value: T)

  /** The resource bundles that can be found, by base name and locale, each a map from key to value. */
  type Bundles = map<(string, string), map<string, string>>

  /**
   * `getLocalized(baseName, key, def, locale)`: a null base name, a bundle that cannot be
   * found or a key the bundle lacks all give the default; otherwise the bundle's value.
   */
  function GetLocalized(bundles: Bundles, baseName: Option<string>, key: string, def: string, locale: string): (r: string)
    ensures baseName.Some? && (baseName.value, locale) in bundles && key in bundles[(baseName.value, locale)] ==>
      r == bundles[(baseName.value, locale)][key]
    ensures baseName.None? || (baseName.value, locale) !in bundles || key !in bundles[(baseName.value, locale)] ==>
      r == def
  {
    if baseName.None? then def
    else if (baseName.value, locale) !in bundles then def
    else
      var bundle := bundles[(baseName.value, locale)];
      if key in bundle then bundle[key] else def
  }

  /** `getLocalized(baseName, key)`: the key is its own default, under the default locale. */
  function GetLocalizedKey(bundles: Bundles, baseName: Option<string>, key: string, defaultLocale: string): (r: string)
    ensures r == GetLocalized(bundles, baseName, key, key, defaultLocale)
    ensures baseName.None? ==> r == key
  {
    GetLocalized(bundles, baseName, key, key, defaultLocale)
  }

  /** A key that cannot be localized comes back as itself; one that can comes back as its value. */
  lemma KeyIsDefault(bundles: Bundles, baseName: Option<string>, key: string, locale: string)
    ensures var r := GetLocalizedKey(bundles, baseName, key, locale);
      r == key || (baseName.Some? && (baseName.value, locale) in bundles && r == bundles[(baseName.value, locale)][key])
  {
  }

  /**
   * The array form: no keys gives an empty array; otherwise each key is looked up with
   * itself as default, into an array of the same length.
   */
  method GetLocalizedAll(bundles: Bundles, baseName: Option<string>, locale: string, keys: Option<seq<string>>)
    returns (localized: seq<string>)
    ensures keys.None? ==> localized == []
    ensures keys.Some? ==> |localized| == |keys.value|
    ensures keys.Some? ==>
      forall i :: 0 <= i < |localized| ==> localized[i] == GetLocalized(bundles, baseName, keys.value[i], keys.value[i], locale)
  {
    if keys.None? {
      return [];
    }
    var ks := keys.value;
    var a := new string[|ks|];
    var i := 0;
    while i < |ks|
      invariant 0 <= i <= |ks|
      invariant forall j :: 0 <= j < i ==> a[j] == GetLocalized(bundles, baseName, ks[j], ks[j], locale)
    {
      a[i] := GetLocalized(bundles, baseName, ks[i], ks[i], locale);
      i := i + 1;
    }
    localized := a[..];
  }

  /** The index of the last occurrence of a character, or -1. */
  function LastIndexOf(s: string, c: char): (i: int)
    ensures -1 <= i < |s|
    ensures i >= 0 ==> s[i] == c && c !in s[i + 1..]
    ensures i == -1 <==> c !in s
  {
    if s == [] then -1
    else if s[|s| - 1] == c then |s| - 1
    else
      var i := LastIndexOf(s[..|s| - 1], c);
      assert s[i + 1..] == s[..|s| - 1][i + 1..] + [s[|s| - 1]];
      i
  }

  /** `File.getName()`: what follows the last separator. */
  function FileName(path: string): (name: string)
    ensures '/' !in name
    ensures exists i :: 0 <= i <= |path| && path[i..] == name
  {
    var i := LastIndexOf(path, '/');
    assert path[i + 1..] == path[i + 1..];
    path[i + 1..]
  }

  /** The file name less everything from its last '.'. */
  function Stem(name: string): (stem: string)
    ensures '.' !in name ==> stem == name
    ensures '.' in name ==> exists ext :: name == stem + ext && |ext| > 0 && ext[0] == '.' && '.' !in ext[1..]
  {
    var idx := LastIndexOf(name, '.');
    if idx >= 0 then
      assert name == name[..idx] + name[idx..] && name[idx..][1..] == name[idx + 1..];
      name[..idx]
    else name
  }

  /** `getLocalisationBase`: the base folder, a '/', and the file's name without its extension. */
  function GetLocalisationBase(base: Option<string>, filename: string): (r: string)
    ensures var b := if base.Some? then base.value else "null";
      r == b + "/" + Stem(FileName(filename))
  {
    (if base.Some? then base.value else "null") + "/" + Stem(FileName(filename))
  }

  /** A plain file name is its own name: a name without '.' is kept whole, and otherwise only its last extension goes. */
  lemma LocalisationBaseKeepsName(base: string, filename: string)
    requires '/' !in filename
    ensures GetLocalisationBase(Some(base), filename) == base + "/" + Stem(filename)
    ensures '.' !in filename ==> GetLocalisationBase(Some(base), filename) == base + "/" + filename
  {
    assert LastIndexOf(filename, '/') == -1;
    assert filename[0..] == filename;
  }
}
