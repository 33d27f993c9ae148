/** The widget's top-level object (`TransportMap`): the scheme id resolved from the city,
    the options merged over their defaults, and the address of the scheme resource. */
module Transport {
  import opened Wrappers
  import opened Decimal
  import opened SchemeTable

  const DefaultPath: string := "/node_modules/metro-data/"

  /** The options a map starts from before the caller's are merged in. */
  function DefaultOptions(): (defaults: map<string, string>)
    ensures defaults.Keys == {"path"} && defaults["path"] == DefaultPath
  {
    map["path" := DefaultPath]
  }

  /** `ymaps.util.extend(target, source)`: every key of either, the source's value winning. */
  function Extend(target: map<string, string>, source: map<string, string>): (merged: map<string, string>)
    ensures merged.Keys == target.Keys + source.Keys
    ensures forall k :: k in source ==> merged[k] == source[k]
    ensures forall k :: k in target && k !in source ==> merged[k] == target[k]
  {
    target + source
  }

  /** The effective `path`: the caller's when given, the default otherwise. */
  lemma EffectivePath(options: map<string, string>)
    ensures "path" in Extend(DefaultOptions(), options)
    ensures Extend(DefaultOptions(), options)["path"] == if "path" in options then options["path"] else DefaultPath
  {
  }

  /** How a scheme id reads inside a string: its decimal digits, or "undefined" when the
      city resolved to no id. */
  function IdText(id: Option<SchemeId>): (text: string)
    ensures id.Some? ==> AllDigits(text) && DecimalValue(text) == id.value
    ensures id.None? ==> text == "undefined"
  {
    match id
    case Some(n) => DecimalRoundTrip(n); DecimalText(n)
    case None => "undefined"
  }

  lemma IdTextInjective(a: Option<SchemeId>, b: Option<SchemeId>)
    requires IdText(a) == IdText(b)
    ensures a == b
  {
    if a.Some? && b.Some? {
      DecimalTextInjective(a.value, b.value);
    }
  }

  /** The resource `_loadScheme` requests: `path + schemeId + '.ru.svg'`. */
  function ResourceUrl(path: string, id: Option<SchemeId>): (url: string)
    ensures |url| == |path| + |IdText(id)| + 7
    ensures url[..|path|] == path && url[|url| - 7..] == ".ru.svg"
    ensures url[|path|..|url| - 7] == IdText(id)
  {
    path + IdText(id) + ".ru.svg"
  }

  /** Under one path, the address names the id: two ids give the same address only if equal. */
  lemma ResourceUrlInjective(path: string, a: Option<SchemeId>, b: Option<SchemeId>)
    requires ResourceUrl(path, a) == ResourceUrl(path, b)
    ensures a == b
  {
    var url := ResourceUrl(path, a);
    assert IdText(a) == url[|path|..|url| - 7] == IdText(b);
    IdTextInjective(a, b);
  }

  /** Maps built for two different known cities fetch two different resources. */
  lemma DistinctCitiesDistinctResources(path: string, a: string, b: string)
    requires ResolveAlias(a).Some? && a != b
    ensures ResourceUrl(path, ResolveAlias(a)) != ResourceUrl(path, ResolveAlias(b))
  {
    DistinctAliasesDistinctIds(a, b);
    if ResourceUrl(path, ResolveAlias(a)) == ResourceUrl(path, ResolveAlias(b)) {
      ResourceUrlInjective(path, ResolveAlias(a), ResolveAlias(b));
    }
  }

  class TransportMap {
    /** The city alias the map was built for. */
    ghost const city: string
    const schemeId: Option<SchemeId>
    const options: map<string, string>

    ghost predicate Valid()
    {
      schemeId == ResolveAlias(city) && "path" in options
    }

    /** Resolves the city through the shared alias index and merges the caller's options
        over the default path. */
    constructor (directory: SchemeDirectory, city: string, callerOptions: map<string, string>)
      requires directory.Valid()
      modifies directory
      ensures directory.Valid() && directory.idByAlias == Some(AliasIndex())
      ensures Valid() && this.city == city
      ensures options == Extend(DefaultOptions(), callerOptions)
      ensures options["path"] == if "path" in callerOptions then callerOptions["path"] else DefaultPath
    {
      var id := directory.GetIdByAlias(city);
      this.city := city;
      schemeId := id;
      options := Extend(DefaultOptions(), callerOptions);
      EffectivePath(callerOptions);
    }

    /** The id resolved from the city at construction. */
    function GetSchemeId(): (id: Option<SchemeId>)
      requires Valid()
      ensures id == ResolveAlias(city)
    {
      schemeId
    }

    /** The address of the scheme resource for this map. */
    function SchemeUrl(): (url: string)
      requires Valid()
      ensures url == ResourceUrl(options["path"], ResolveAlias(city))
    {
      options["path"] + IdText(schemeId) + ".ru.svg"
    }
  }
}
