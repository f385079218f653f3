/** Where the plugin writes, and the three URLs it derives from that. */
module Config {
  import opened Wire

  const DefaultUrl := "http://localhost:9200"
  const DefaultIndex := "happn-stats"
  const DefaultType := "happn-stats"

  /** Store base address, index name and document type name, fixed at construction. */
  datatype Target = Target(base: string, index: string, docType: string)

  /** `env || fallback`: an unset or empty environment value gives the default. */
  function Setting(env: Option<string>, fallback: string): (s: string)
    ensures env.Some? && env.value != "" ==> s == env.value
    ensures env.None? || env.value == "" ==> s == fallback
    ensures fallback != "" ==> s != ""
  {
    if env.Some? && env.value != "" then env.value else fallback
  }

  /** The target read from ELASTIC_URL, ELASTIC_INDEX and ELASTIC_TYPE. */
  function Resolve(envUrl: Option<string>, envIndex: Option<string>, envType: Option<string>): (t: Target)
    ensures t.base != "" && t.index != "" && t.docType != ""
    ensures envUrl.None? && envIndex.None? && envType.None? ==>
              t == Target(DefaultUrl, DefaultIndex, DefaultType)
  {
    Target(Setting(envUrl, DefaultUrl), Setting(envIndex, DefaultIndex), Setting(envType, DefaultType))
  }

  /** Probed and created by index provisioning. */
  function IndexUrl(t: Target): (u: string)
    ensures |u| == |t.base| + 1 + |t.index|
    ensures u[..|t.base|] == t.base && u[|t.base|] == '/' && u[|t.base| + 1..] == t.index
  {
    t.base + "/" + t.index
  }

  /** Probed and created by mapping provisioning. */
  function MappingUrl(t: Target): (u: string)
    ensures |u| == |IndexUrl(t)| + 10 + |t.docType|
    ensures u[..|IndexUrl(t)|] == IndexUrl(t) && u[|IndexUrl(t)|..] == "/_mapping/" + t.docType
  {
    t.base + "/" + t.index + "/_mapping/" + t.docType
  }

  /** Every metric document is posted here. */
  function InsertUrl(t: Target): (u: string)
    ensures |u| == |IndexUrl(t)| + 1 + |t.docType|
    ensures u[..|IndexUrl(t)|] == IndexUrl(t) && u[|IndexUrl(t)|..] == "/" + t.docType
  {
    t.base + "/" + t.index + "/" + t.docType
  }

  /** The mapping and insert URLs both lie under the index URL, and the three
      are pairwise different, whatever the names. */
  lemma UrlsLieUnderIndex(t: Target)
    ensures MappingUrl(t) == IndexUrl(t) + "/_mapping/" + t.docType
    ensures InsertUrl(t) == IndexUrl(t) + "/" + t.docType
    ensures IndexUrl(t) != MappingUrl(t) && IndexUrl(t) != InsertUrl(t) && MappingUrl(t) != InsertUrl(t)
  {
  }

  /** With no environment overrides the index URL is on the local store. */
  lemma DefaultIndexUrl()
    ensures IndexUrl(Target(DefaultUrl, DefaultIndex, DefaultType)) == "http://localhost:9200/happn-stats"
  {
  }

  /** With no environment overrides, the mapping URL. */
  lemma DefaultMappingUrl()
    ensures MappingUrl(Target(DefaultUrl, DefaultIndex, DefaultType)) == "http://localhost:9200/happn-stats/_mapping/happn-stats"
  {
  }

  /** With no environment overrides, the insert URL. */
  lemma DefaultInsertUrl()
    ensures InsertUrl(Target(DefaultUrl, DefaultIndex, DefaultType)) == "http://localhost:9200/happn-stats/happn-stats"
  {
  }
}
