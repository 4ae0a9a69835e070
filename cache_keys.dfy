/**
 * The descriptor ids built by the two collectors' `cacheSetup`: the id of a
 * collection determines the request options (and, for wanted properties,
 * the default type) it was computed for, and the two collectors' ids never
 * collide.
 */
module CacheKeys {
  import opened Smw
  import P = PropertiesCollector
  import W = WantedPropertiesCollector

  lemma PropertiesKeySeparatesOptions(a: P.PropertiesCollector, b: P.PropertiesCollector)
    ensures a.CacheSetup().id == b.CacheSetup().id <==> a.requestOptions == b.requestOptions
  {
  }

  lemma WantedKeySeparatesOptions(a: W.WantedPropertiesCollector, b: W.WantedPropertiesCollector)
    ensures a.CacheSetup().id == b.CacheSetup().id <==>
      a.requestOptions == b.requestOptions && a.settings.smwgPDefaultType == b.settings.smwgPDefaultType
  {
  }

  lemma KeysOfCollectorsDiffer(a: P.PropertiesCollector, b: W.WantedPropertiesCollector)
    ensures a.CacheSetup().id != b.CacheSetup().id
  {
  }
}
