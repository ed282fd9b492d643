/** The databox value types the container manager and the store client share:
    service-level agreements (SLAs), Hypercat catalogue items and the
    metadata of a data source. JSON is modelled at the level of its values:
    a catalogue item built in Go carries typed rel/val pairs, while one that
    came out of a JSON decoder carries plain JSON objects. */
module DataboxTypes {
  import opened Base

  const DataboxTypeApp: string := "app"
  const DataboxTypeDriver: string := "driver"
  const DataboxTypeStore: string := "store"

  const StoreTypeKV: string := "kv"
  const StoreTypeTS: string := "ts"
  const StoreTypeTSBlob: string := "ts/blob"

  /** A JSON value as Go's decoder produces it inside an interface{}. */
  datatype JsonValue = JString(s: string) | JBool(b: bool) | JOther

  /** One element of a catalogue item's metadata list (a Go interface{}). */
  datatype MetaItem =
    | RelValPair(rel: string, val: string)          // built in Go
    | RelValPairBool(rel: string, bval: bool)       // built in Go
    | JsonObject(fields: map<string, JsonValue>)    // decoded from JSON
    | JsonNonObject                                 // any other decoded JSON value

  datatype HypercatItem = HypercatItem(itemMetadata: seq<MetaItem>, href: string)

  datatype Datasource = Datasource(clientId: string, hypercat: HypercatItem)

  datatype ExportWhitelist = ExportWhitelist(url: string)

  datatype ExternalWhitelist = ExternalWhitelist(urls: seq<string>)

  /** The fields of a databox SLA that the container manager reads;
      `store` is ResourceRequirements.Store. */
  datatype SLA = SLA(
    name: string,
    databoxType: string,
    storeUrl: string,
    store: string,
    datasources: seq<Datasource>,
    exportWhitelists: seq<ExportWhitelist>,
    externalWhitelist: seq<ExternalWhitelist>)

  datatype DataSourceMetadata = DataSourceMetadata(
    description: string,
    contentType: string,
    vendor: string,
    dataSourceType: string,
    dataSourceId: string,
    storeType: string,
    isActuator: bool,
    location: string,
    unit: string)

  /** The zero value of DataSourceMetadata. */
  const EmptyMetadata := DataSourceMetadata("", "", "", "", "", "", false, "", "")

  /** The shape a metadata element takes after json.Marshal followed by
      json.Unmarshal into an interface{}: a typed pair becomes an object with
      "rel" and "val" members. */
  function ToJson(item: MetaItem): (j: MetaItem)
    ensures j.JsonObject? || j.JsonNonObject?
  {
    match item
    case RelValPair(r, v) => JsonObject(map["rel" := JString(r), "val" := JString(v)])
    case RelValPairBool(r, b) => JsonObject(map["rel" := JString(r), "val" := JBool(b)])
    case _ => item
  }

  /** A catalogue item after a JSON round trip. */
  function ItemToJson(hc: HypercatItem): (j: HypercatItem)
    ensures |j.itemMetadata| == |hc.itemMetadata| && j.href == hc.href
  {
    HypercatItem(seq(|hc.itemMetadata|, i requires 0 <= i < |hc.itemMetadata| => ToJson(hc.itemMetadata[i])), hc.href)
  }
}
