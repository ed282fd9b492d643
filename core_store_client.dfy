/** The core-store client's pure and catalogue logic: the dealer endpoint a
    client derives from its request endpoint, the Hypercat item a data source
    is registered with, the decoder that turns such an item back into
    metadata, and the store URL recovered from a data source's href. The
    ZeroMQ transport (write, read, observe) is not part of this model. */
module CoreStoreClient {
  import opened Base
  import opened DataboxTypes
  import Url

  /** The public key used when the key file cannot be read. */
  const DefaultServerKey: string := "vl6wu0A@XP?}Or/&BR#LSxn>A+}L)p44/W[wXL3<"

  datatype Client = Client(zEndpoint: string, dEndpoint: string, serverKey: string)

  /** The dealer endpoint: the first ":5555" of the request endpoint becomes
      ":5556"; nothing else changes. */
  function DealerEndpoint(endpoint: string): (d: string)
    ensures |d| == |endpoint|
    ensures IndexOf(endpoint, ":5555").None? ==> d == endpoint
    ensures IndexOf(endpoint, ":5555").Some? ==>
      var i := IndexOf(endpoint, ":5555").value;
      endpoint[i + 4] == '5' && d[i + 4] == '6' &&
      forall j :: 0 <= j < |d| && j != i + 4 ==> d[j] == endpoint[j]
  {
    ReplacedPortDigit(endpoint);
    ReplaceFirst(endpoint, ":5555", ":5556")
  }

  lemma ReplacedPortDigit(endpoint: string)
    ensures IndexOf(endpoint, ":5555").Some? ==>
      var i := IndexOf(endpoint, ":5555").value;
      var d := ReplaceFirst(endpoint, ":5555", ":5556");
      |d| == |endpoint| && endpoint[i + 4] == '5' && d[i + 4] == '6' &&
      forall j :: 0 <= j < |d| && j != i + 4 ==> d[j] == endpoint[j]
  {
    if IndexOf(endpoint, ":5555").Some? {
      var i := IndexOf(endpoint, ":5555").value;
      var d := ReplaceFirst(endpoint, ":5555", ":5556");
      assert d == endpoint[..i] + ":5556" + endpoint[i + 5..];
      assert endpoint[i..i + 5] == ":5555";
      assert endpoint[i + 4] == endpoint[i..i + 5][4];
      forall j | 0 <= j < |d| && j != i + 4
        ensures d[j] == endpoint[j]
      {
        if j < i {
        } else if j < i + 5 {
          assert d[j] == ":5556"[j - i] && endpoint[j] == endpoint[i..i + 5][j - i];
        } else {
          assert d[j] == endpoint[i + 5..][j - i - 5];
        }
      }
    }
  }

  /** The store endpoint the container manager hands to a workload, with the
      dealer endpoint it also hands over: the client derives the second
      from the first. */
  lemma DealerEndpointOfStore(storeName: string)
    requires ':' !in storeName
    ensures DealerEndpoint("tcp://" + storeName + ":5555") == "tcp://" + storeName + ":5556"
  {
    var e := "tcp://" + storeName + ":5555";
    var k := 6 + |storeName|;
    assert OccursAt(e, ":5555", k) by { assert e[k..k + 5] == ":5555"; }
    forall j | 0 <= j < k ensures !OccursAt(e, ":5555", j) {
      if j < 6 {
        if j + 5 <= |e| { assert e[j..j + 5][0] == e[j]; }
        assert e[j] != ':' || j == 3;
        if j == 3 { assert e[j..j + 5][1] == e[4] == '/'; }
      } else {
        assert e[j] == storeName[j - 6];
        if j + 5 <= |e| { assert e[j..j + 5][0] == e[j]; }
      }
    }
    var d := DealerEndpoint(e);
    assert IndexOf(e, ":5555") == Some(k);
    var expected := "tcp://" + storeName + ":5556";
    assert |d| == |expected|;
    forall j | 0 <= j < |d| ensures d[j] == expected[j] {
      if j != k + 4 { assert d[j] == e[j]; }
    }
  }

  /** coreStoreClient.New: the request endpoint is kept, the dealer
      endpoint derived from it, and the default key used when the key file
      cannot be read. */
  function New(storeEndPoint: string, serverKeyFile: Option<Bytes>): (c: Client)
    ensures c.zEndpoint == storeEndPoint
    ensures c.dEndpoint == DealerEndpoint(storeEndPoint)
    ensures serverKeyFile.None? ==> c.serverKey == DefaultServerKey
    ensures serverKeyFile.Some? ==> c.serverKey == serverKeyFile.value
  {
    var key := if serverKeyFile.Some? then serverKeyFile.value else DefaultServerKey;
    Client(storeEndPoint, DealerEndpoint(storeEndPoint), key)
  }

  // ---------------------------------------------------------------------
  // Hypercat encoding of data-source metadata
  // ---------------------------------------------------------------------

  const RelDescription: string := "urn:X-hypercat:rels:hasDescription:en"
  const RelContentType: string := "urn:X-hypercat:rels:isContentType"
  const RelVendor: string := "urn:X-databox:rels:hasVendor"
  const RelType: string := "urn:X-databox:rels:hasType"
  const RelDatasourceId: string := "urn:X-databox:rels:hasDatasourceid"
  const RelStoreType: string := "urn:X-databox:rels:hasStoreType"
  const RelIsActuator: string := "urn:X-databox:rels:isActuator"
  const RelLocation: string := "urn:X-databox:rels:hasLocation"
  const RelUnit: string := "urn:X-databox:rels:hasUnit"

  const MissingMetadata: string := "Missing required metadata"

  predicate HasRequiredMetadata(m: DataSourceMetadata)
  {
    m.description != [] && m.contentType != [] && m.vendor != [] &&
    m.dataSourceType != [] && m.dataSourceId != [] && m.storeType != []
  }

  /** The six rel/val pairs every registered data source carries, in order. */
  function FixedMetadata(m: DataSourceMetadata): seq<MetaItem>
  {
    [ RelValPair(RelDescription, m.description),
      RelValPair(RelContentType, m.contentType),
      RelValPair(RelVendor, m.vendor),
      RelValPair(RelType, m.dataSourceType),
      RelValPair(RelDatasourceId, m.dataSourceId),
      RelValPair(RelStoreType, m.storeType) ]
  }

  /** The optional pairs: isActuator only when true, location and unit only
      when non-empty, in that order. */
  function OptionalMetadata(m: DataSourceMetadata): seq<MetaItem>
  {
    (if m.isActuator then [RelValPairBool(RelIsActuator, true)] else []) +
    (if m.location != [] then [RelValPair(RelLocation, m.location)] else []) +
    (if m.unit != [] then [RelValPair(RelUnit, m.unit)] else [])
  }

  function EncodedMetadata(m: DataSourceMetadata): seq<MetaItem>
  {
    FixedMetadata(m) + OptionalMetadata(m)
  }

  /** Where a data source lives: endpoint/storeType/dataSourceID. */
  function CatalogueHref(endpoint: string, m: DataSourceMetadata): string
  {
    endpoint + "/" + m.storeType + "/" + m.dataSourceId
  }

  /** dataSourceMetadataToHypercat: refuses metadata missing a required
      field, otherwise appends the fixed pairs and then the optional ones.
      The item is returned before its JSON serialisation. */
  method DataSourceMetadataToHypercat(m: DataSourceMetadata, endpoint: string)
    returns (r: Result<HypercatItem, string>)
    ensures r.Err? <==> !HasRequiredMetadata(m)
    ensures r.Err? ==> r.error == MissingMetadata
    ensures r.Ok? ==> r.value == HypercatItem(EncodedMetadata(m), CatalogueHref(endpoint, m))
  {
    if m.description == [] || m.contentType == [] || m.vendor == [] ||
       m.dataSourceType == [] || m.dataSourceId == [] || m.storeType == [] {
      return Err(MissingMetadata);
    }
    var items: seq<MetaItem> := [];
    items := items + [RelValPair(RelDescription, m.description)];
    items := items + [RelValPair(RelContentType, m.contentType)];
    items := items + [RelValPair(RelVendor, m.vendor)];
    items := items + [RelValPair(RelType, m.dataSourceType)];
    items := items + [RelValPair(RelDatasourceId, m.dataSourceId)];
    items := items + [RelValPair(RelStoreType, m.storeType)];
    assert items == FixedMetadata(m);
    if m.isActuator {
      items := items + [RelValPairBool(RelIsActuator, true)];
    }
    if m.location != [] {
      items := items + [RelValPair(RelLocation, m.location)];
    }
    if m.unit != [] {
      items := items + [RelValPair(RelUnit, m.unit)];
    }
    r := Ok(HypercatItem(items, endpoint + "/" + m.storeType + "/" + m.dataSourceId));
  }

  /** The encoded list starts with the six fixed pairs, has between six and
      nine elements, and ends with the unit exactly when a unit is given. */
  lemma EncodedMetadataShape(m: DataSourceMetadata)
    ensures 6 <= |EncodedMetadata(m)| <= 9
    ensures m.isActuator <==> RelValPairBool(RelIsActuator, true) in EncodedMetadata(m)
    ensures m.location != [] <==> RelValPair(RelLocation, m.location) in EncodedMetadata(m)
    ensures EncodedMetadata(m)[..6] == FixedMetadata(m)
    ensures |EncodedMetadata(m)| == 6 + (if m.isActuator then 1 else 0)
      + (if m.location != [] then 1 else 0) + (if m.unit != [] then 1 else 0)
    ensures m.unit != [] <==> EncodedMetadata(m)[|EncodedMetadata(m)| - 1] == RelValPair(RelUnit, m.unit)
  {
    var e := EncodedMetadata(m);
    assert e[..6] == FixedMetadata(m);
    assert RelLocation != RelDescription && RelLocation != RelContentType && RelLocation != RelVendor;
    assert RelLocation != RelType && RelLocation != RelDatasourceId && RelLocation != RelStoreType;
    assert RelLocation != RelIsActuator && RelLocation != RelUnit;
    if m.unit == [] {
      var last := e[|e| - 1];
      assert last.rel != RelUnit by {
        assert last in FixedMetadata(m) + (if m.isActuator then [RelValPairBool(RelIsActuator, true)] else []) +
          (if m.location != [] then [RelValPair(RelLocation, m.location)] else []);
        assert RelUnit != RelDescription && RelUnit != RelContentType && RelUnit != RelVendor;
        assert RelUnit != RelType && RelUnit != RelDatasourceId && RelUnit != RelStoreType;
        assert RelUnit != RelIsActuator && RelUnit != RelLocation;
      }
    }
  }

  // ---------------------------------------------------------------------
  // Decoding a Hypercat item back into metadata
  // ---------------------------------------------------------------------

  /** The decoder's store-type switch: the three known types are kept and
      anything else reads as a blob time series. */
  function DecodeStoreType(st: string): (t: string)
    ensures t == StoreTypeKV || t == StoreTypeTS || t == StoreTypeTSBlob
    ensures (st == StoreTypeKV || st == StoreTypeTS || st == StoreTypeTSBlob) <==> t == st
  {
    if st == StoreTypeKV then StoreTypeKV
    else if st == StoreTypeTS then StoreTypeTS
    else StoreTypeTSBlob
  }

  /** A string member of a decoded object, if it is one. */
  function StringMember(f: map<string, JsonValue>, key: string): Option<string>
  {
    if key in f && f[key].JString? then Some(f[key].s) else None
  }

  /** The nine rels the decoder recognises. */
  predicate KnownRel(rel: string)
  {
    rel in {RelDescription, RelContentType, RelVendor, RelType, RelDatasourceId,
            RelStoreType, RelIsActuator, RelLocation, RelUnit}
  }

  /** One step of the decoder loop. None is a panic: the element is not a
      JSON object, its "rel" is not a string, or the "val" of a recognised
      rel has the wrong type. Each recognised rel sets its own field and no
      other; an unrecognised rel changes nothing. */
  function ApplyItem(dm: DataSourceMetadata, item: MetaItem): (r: Option<DataSourceMetadata>)
    ensures r.Some? ==> item.JsonObject? && StringMember(item.fields, "rel").Some?
    ensures r.Some? ==>
      var rel := StringMember(item.fields, "rel").value;
      (rel != RelDescription ==> r.value.description == dm.description) &&
      (rel != RelContentType ==> r.value.contentType == dm.contentType) &&
      (rel != RelVendor ==> r.value.vendor == dm.vendor) &&
      (rel != RelType ==> r.value.dataSourceType == dm.dataSourceType) &&
      (rel != RelDatasourceId ==> r.value.dataSourceId == dm.dataSourceId) &&
      (rel != RelStoreType ==> r.value.storeType == dm.storeType) &&
      (rel != RelIsActuator ==> r.value.isActuator == dm.isActuator) &&
      (rel != RelLocation ==> r.value.location == dm.location) &&
      (rel != RelUnit ==> r.value.unit == dm.unit)
  {
    match item
    case JsonObject(f) =>
      (match StringMember(f, "rel")
       case None => None
       case Some(rel) =>
         var sval := StringMember(f, "val");
         if rel == RelDescription then
           (if sval.Some? then Some(dm.(description := sval.value)) else None)
         else if rel == RelContentType then
           (if sval.Some? then Some(dm.(contentType := sval.value)) else None)
         else if rel == RelVendor then
           (if sval.Some? then Some(dm.(vendor := sval.value)) else None)
         else if rel == RelType then
           (if sval.Some? then Some(dm.(dataSourceType := sval.value)) else None)
         else if rel == RelDatasourceId then
           (if sval.Some? then Some(dm.(dataSourceId := sval.value)) else None)
         else if rel == RelStoreType then
           (if sval.Some? then Some(dm.(storeType := DecodeStoreType(sval.value))) else None)
         else if rel == RelIsActuator then
           (if "val" in f && f["val"].JBool? then Some(dm.(isActuator := f["val"].b)) else None)
         else if rel == RelLocation then
           (if sval.Some? then Some(dm.(location := sval.value)) else None)
         else if rel == RelUnit then
           (if sval.Some? then Some(dm.(unit := sval.value)) else None)
         else Some(dm))
    case _ => None
  }

  /** What one decoder step does with an object whose rel is a string: an
      unknown rel leaves the metadata as it was; a known rel panics exactly
      when its val has the wrong type, and otherwise sets its field to the
      val (the store type through the decoder's switch). */
  lemma ApplyItemFields(dm: DataSourceMetadata, item: MetaItem)
    requires item.JsonObject? && StringMember(item.fields, "rel").Some?
    ensures
      var rel := StringMember(item.fields, "rel").value;
      var val := StringMember(item.fields, "val");
      var r := ApplyItem(dm, item);
      && (!KnownRel(rel) ==> r == Some(dm))
      && (KnownRel(rel) && rel != RelIsActuator ==> (r.Some? <==> val.Some?))
      && (rel == RelIsActuator ==> (r.Some? <==> "val" in item.fields && item.fields["val"].JBool?))
      && (r.Some? && rel == RelDescription ==> r.value.description == val.value)
      && (r.Some? && rel == RelContentType ==> r.value.contentType == val.value)
      && (r.Some? && rel == RelVendor ==> r.value.vendor == val.value)
      && (r.Some? && rel == RelType ==> r.value.dataSourceType == val.value)
      && (r.Some? && rel == RelDatasourceId ==> r.value.dataSourceId == val.value)
      && (r.Some? && rel == RelStoreType ==> r.value.storeType == DecodeStoreType(val.value))
      && (r.Some? && rel == RelIsActuator ==> r.value.isActuator == item.fields["val"].b)
      && (r.Some? && rel == RelLocation ==> r.value.location == val.value)
      && (r.Some? && rel == RelUnit ==> r.value.unit == val.value)
  {
  }

  /** The decoder loop over a prefix of the items; None once any item panics. */
  function ApplyAll(dm: DataSourceMetadata, items: seq<MetaItem>): Option<DataSourceMetadata>
  {
    if items == [] then Some(dm)
    else
      match ApplyAll(dm, items[..|items| - 1])
      case None => None
      case Some(d) => ApplyItem(d, items[|items| - 1])
  }

  datatype DecodeError = InvalidJson(message: string) | BadHref(urlError: Url.UrlError)

  /** What HypercatToDataSourceMetadata does: return metadata, store URL and
      error, or panic. */
  datatype DecodeOutcome =
    | Decoded(metadata: DataSourceMetadata, storeUrl: string, err: Option<DecodeError>)
    | DecodePanicked

  /** The decoder as a function of the JSON decoder's result. */
  function DecodeHypercat(decoded: Result<HypercatItem, string>): DecodeOutcome
  {
    match decoded
    case Err(e) => Decoded(EmptyMetadata, [], Some(InvalidJson(e)))
    case Ok(hc) =>
      match ApplyAll(EmptyMetadata, hc.itemMetadata)
      case None => DecodePanicked
      case Some(dm) =>
        match GetStoreURLFromDsHref(hc.href)
        case Ok(u) => Decoded(dm, u, None)
        case Err(e) => Decoded(dm, [], Some(BadHref(e)))
  }

  /** HypercatToDataSourceMetadata: applies every metadata element in turn,
      then derives the store URL from the href. */
  method HypercatToDataSourceMetadata(decoded: Result<HypercatItem, string>) returns (out: DecodeOutcome)
    ensures out == DecodeHypercat(decoded)
  {
    if decoded.Err? {
      return Decoded(EmptyMetadata, [], Some(InvalidJson(decoded.error)));
    }
    var hc := decoded.value;
    var dm := EmptyMetadata;
    var i := 0;
    while i < |hc.itemMetadata|
      invariant 0 <= i <= |hc.itemMetadata|
      invariant ApplyAll(EmptyMetadata, hc.itemMetadata[..i]) == Some(dm)
    {
      assert hc.itemMetadata[..i + 1][..i] == hc.itemMetadata[..i];
      var next := ApplyItem(dm, hc.itemMetadata[i]);
      if next.None? {
        PanicPersists(EmptyMetadata, hc.itemMetadata, i + 1);
        return DecodePanicked;
      }
      dm := next.value;
      i := i + 1;
    }
    assert hc.itemMetadata[..i] == hc.itemMetadata;
    var u := GetStoreURLFromDsHref(hc.href);
    if u.Ok? {
      out := Decoded(dm, u.value, None);
    } else {
      out := Decoded(dm, [], Some(BadHref(u.error)));
    }
  }

  /** Once a prefix panics, every longer prefix does. */
  lemma {:induction false} PanicPersists(dm: DataSourceMetadata, items: seq<MetaItem>, k: nat)
    requires k <= |items| && ApplyAll(dm, items[..k]).None?
    ensures ApplyAll(dm, items).None?
    decreases |items| - k
  {
    if k < |items| {
      assert items[..k + 1][..k] == items[..k];
      PanicPersists(dm, items, k + 1);
    } else {
      assert items[..k] == items;
    }
  }

  /** The decoder loop over a concatenation runs over the first part and then
      the second. */
  lemma {:induction false} ApplyAllAppend(dm: DataSourceMetadata, a: seq<MetaItem>, b: seq<MetaItem>)
    ensures ApplyAll(dm, a + b) ==
      match ApplyAll(dm, a)
      case None => None
      case Some(d) => ApplyAll(d, b)
    decreases |b|
  {
    if b == [] {
      assert a + b == a;
    } else {
      var b' := b[..|b| - 1];
      assert (a + b)[..|a + b| - 1] == a + b';
      assert (a + b)[|a + b| - 1] == b[|b| - 1];
      ApplyAllAppend(dm, a, b');
    }
  }

  /** The metadata a decoded catalogue item yields: the store type
      normalised as the decoder's switch does. */
  function Normalised(m: DataSourceMetadata): DataSourceMetadata
  {
    m.(storeType := DecodeStoreType(m.storeType))
  }

  function Jsons(items: seq<MetaItem>): (js: seq<MetaItem>)
    ensures |js| == |items|
  {
    seq(|items|, i requires 0 <= i < |items| => ToJson(items[i]))
  }

  lemma ApplyOne(dm: DataSourceMetadata, item: MetaItem)
    ensures ApplyAll(dm, [item]) == ApplyItem(dm, item)
  {
    assert [item][..0] == [];
  }

  /** The decoder reading back one encoded string pair (isActuator, whose
      value must be a boolean, aside). */
  function SetField(d: DataSourceMetadata, rel: string, v: string): DataSourceMetadata
  {
    if rel == RelDescription then d.(description := v)
    else if rel == RelContentType then d.(contentType := v)
    else if rel == RelVendor then d.(vendor := v)
    else if rel == RelType then d.(dataSourceType := v)
    else if rel == RelDatasourceId then d.(dataSourceId := v)
    else if rel == RelStoreType then d.(storeType := DecodeStoreType(v))
    else if rel == RelLocation then d.(location := v)
    else if rel == RelUnit then d.(unit := v)
    else d
  }

  lemma ApplyStringPair(d: DataSourceMetadata, rel: string, v: string)
    requires rel != RelIsActuator
    ensures ApplyItem(d, ToJson(RelValPair(rel, v))) == Some(SetField(d, rel, v))
  {
    var f := map["rel" := JString(rel), "val" := JString(v)];
    assert StringMember(f, "rel") == Some(rel);
    assert StringMember(f, "val") == Some(v);
  }

  /** Decoding the JSON form of the encoded pairs restores every field. */
  lemma DecodeEncodedMetadata(m: DataSourceMetadata)
    ensures ApplyAll(EmptyMetadata, Jsons(EncodedMetadata(m))) == Some(Normalised(m))
  {
    var fixed := FixedMetadata(m);
    var opt := OptionalMetadata(m);
    assert Jsons(fixed + opt) == Jsons(fixed) + Jsons(opt);
    var j := Jsons(fixed);
    assert j == [j[0]] + [j[1]] + [j[2]] + [j[3]] + [j[4]] + [j[5]];
    var d0 := EmptyMetadata;
    ApplyAllAppend(d0, [j[0]] + [j[1]] + [j[2]] + [j[3]] + [j[4]], [j[5]]);
    ApplyAllAppend(d0, [j[0]] + [j[1]] + [j[2]] + [j[3]], [j[4]]);
    ApplyAllAppend(d0, [j[0]] + [j[1]] + [j[2]], [j[3]]);
    ApplyAllAppend(d0, [j[0]] + [j[1]], [j[2]]);
    ApplyAllAppend(d0, [j[0]], [j[1]]);
    ApplyOne(d0, j[0]);
    ApplyStringPair(d0, RelDescription, m.description);
    var d1 := d0.(description := m.description);
    ApplyOne(d1, j[1]);
    ApplyStringPair(d1, RelContentType, m.contentType);
    var d2 := d1.(contentType := m.contentType);
    ApplyOne(d2, j[2]);
    ApplyStringPair(d2, RelVendor, m.vendor);
    var d3 := d2.(vendor := m.vendor);
    ApplyOne(d3, j[3]);
    ApplyStringPair(d3, RelType, m.dataSourceType);
    var d4 := d3.(dataSourceType := m.dataSourceType);
    ApplyOne(d4, j[4]);
    ApplyStringPair(d4, RelDatasourceId, m.dataSourceId);
    var d5 := d4.(dataSourceId := m.dataSourceId);
    ApplyOne(d5, j[5]);
    ApplyStringPair(d5, RelStoreType, m.storeType);
    var d6 := d5.(storeType := DecodeStoreType(m.storeType));
    assert ApplyAll(d0, j) == Some(d6);
    ApplyAllAppend(d0, j, Jsons(opt));
    DecodeOptional(d6, m);
  }

  lemma DecodeOptional(d: DataSourceMetadata, m: DataSourceMetadata)
    requires !d.isActuator && d.location == [] && d.unit == []
    ensures ApplyAll(d, Jsons(OptionalMetadata(m))) == Some(d.(isActuator := m.isActuator, location := m.location, unit := m.unit))
  {
    var a := if m.isActuator then [RelValPairBool(RelIsActuator, true)] else [];
    var l := if m.location != [] then [RelValPair(RelLocation, m.location)] else [];
    var u := if m.unit != [] then [RelValPair(RelUnit, m.unit)] else [];
    assert Jsons(a + l + u) == Jsons(a) + Jsons(l) + Jsons(u);
    ApplyAllAppend(d, Jsons(a) + Jsons(l), Jsons(u));
    ApplyAllAppend(d, Jsons(a), Jsons(l));
    var da := d.(isActuator := m.isActuator);
    if m.isActuator {
      ApplyOne(d, Jsons(a)[0]);
      var f := map["rel" := JString(RelIsActuator), "val" := JBool(true)];
      assert Jsons(a)[0] == JsonObject(f);
      assert StringMember(f, "rel") == Some(RelIsActuator);
    } else {
      assert Jsons(a) == [];
    }
    assert ApplyAll(d, Jsons(a)) == Some(da);
    var dl := da.(location := m.location);
    if m.location != [] {
      ApplyOne(da, Jsons(l)[0]);
      ApplyStringPair(da, RelLocation, m.location);
    } else {
      assert Jsons(l) == [];
    }
    assert ApplyAll(da, Jsons(l)) == Some(dl);
    if m.unit != [] {
      ApplyOne(dl, Jsons(u)[0]);
      ApplyStringPair(dl, RelUnit, m.unit);
    } else {
      assert Jsons(u) == [];
    }
  }

  // ---------------------------------------------------------------------
  // Store URL of a data source
  // ---------------------------------------------------------------------

  /** GetStoreURLFromDsHref: scheme "://" host of the parsed href, the path
      dropped; a parse failure is returned as the error. */
  function GetStoreURLFromDsHref(href: string): Result<string, Url.UrlError>
  {
    match Url.Parse(href)
    case Err(e) => Err(e)
    case Ok(u) => Ok(u.scheme + "://" + u.host)
  }

  /** Any href of the form scheme://host/path yields scheme://host. */
  lemma StoreUrlOfHref(scheme: string, host: string, path: string)
    requires Url.ValidScheme(scheme) && Url.PlainHost(host) && Url.PlainPath(path)
    requires forall i :: 0 <= i < |scheme| ==> !Url.IsControl(scheme[i])
    ensures GetStoreURLFromDsHref(scheme + "://" + host + path) == Ok(Url.ToLower(scheme) + "://" + host)
  {
    Url.ParseAbsolute(scheme, host, path);
  }

  /** Registering and reading back a data source: the item the encoder builds
      for a store at scheme://host, once serialised and decoded, yields the
      same metadata (store type normalised) and the store's URL. */
  lemma CatalogueRoundTrip(m: DataSourceMetadata, scheme: string, host: string)
    requires HasRequiredMetadata(m)
    requires Url.ValidScheme(scheme) && Url.PlainHost(host)
    requires forall i :: 0 <= i < |scheme| ==> !Url.IsControl(scheme[i])
    requires Url.PlainPath("/" + m.storeType + "/" + m.dataSourceId)
    ensures DecodeHypercat(Ok(ItemToJson(HypercatItem(EncodedMetadata(m), CatalogueHref(scheme + "://" + host, m)))))
      == Decoded(Normalised(m), Url.ToLower(scheme) + "://" + host, None)
  {
    var endpoint := scheme + "://" + host;
    var path := "/" + m.storeType + "/" + m.dataSourceId;
    var href := CatalogueHref(endpoint, m);
    HrefOfEndpoint(endpoint, m);
    StoreUrlOfHref(scheme, host, path);
    DecodeEncodedMetadata(m);
    var hc := ItemToJson(HypercatItem(EncodedMetadata(m), href));
    assert hc.itemMetadata == Jsons(EncodedMetadata(m));
    DecodedWhole(hc, Normalised(m), Url.ToLower(scheme) + "://" + host);
  }

  /** A catalogue href is its endpoint followed by the data source's path. */
  lemma HrefOfEndpoint(endpoint: string, m: DataSourceMetadata)
    ensures CatalogueHref(endpoint, m) == endpoint + ("/" + m.storeType + "/" + m.dataSourceId)
  {
  }

  /** The decoder succeeds when every element applies and the href parses. */
  lemma DecodedWhole(hc: HypercatItem, dm: DataSourceMetadata, storeUrl: string)
    requires ApplyAll(EmptyMetadata, hc.itemMetadata) == Some(dm)
    requires GetStoreURLFromDsHref(hc.href) == Ok(storeUrl)
    ensures DecodeHypercat(Ok(hc)) == Decoded(dm, storeUrl, None)
  {
  }
}
