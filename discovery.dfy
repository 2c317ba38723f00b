/** Device discovery: `matchDeviceFilter`, and the decision the scan-result
    listener of `requestDevice` takes on each `scanResult` push. */
module Discovery {
  import opened Js
  import opened Uuid

  /** One entry of `options.filters`.  An empty `name` or `namePrefix` is
      falsy in JavaScript, so it behaves as an absent one; `services` is either
      absent or an array, and an empty array is truthy. */
  datatype DeviceFilter = DeviceFilter(services: Option<seq<Value>>, name: string, namePrefix: string)

  /** A `scanResult` push from the native server. */
  datatype ScanResult = ScanResult(bluetoothAddress: Value, rssi: Value, localName: string, serviceUuids: seq<Value>)

  /** The `options` of `requestDevice`: `filters` is `None` when absent or falsy. */
  datatype RequestDeviceOptions = RequestDeviceOptions(filters: Option<seq<DeviceFilter>>, acceptAllDevices: bool)

  /** What `requestDevice` resolves with: `{address, __rssi, name}`. */
  datatype DeviceSummary = DeviceSummary(address: Value, rssi: Value, name: string)

  /** `uuids.map(normalizeUuid)`: every identifier normalised, in order; the
      first one that does not normalise throws. */
  function NormalizeAll(uuids: seq<Value>): (r: Result<seq<string>, Error>)
    ensures r.Ok? <==> forall i | 0 <= i < |uuids| :: Normalize(uuids[i]).Ok?
    ensures r.Ok? ==> |r.value| == |uuids| && forall i | 0 <= i < |uuids| :: r.value[i] == Normalize(uuids[i]).value
    ensures r.Err? ==> exists i | 0 <= i < |uuids| :: Normalize(uuids[i]) == Err(r.error)
  {
    if uuids == [] then Ok([])
    else
      match Normalize(uuids[0])
      case Err(e) => Err(e)
      case Ok(u) =>
        match NormalizeAll(uuids[1..])
        case Err(e) => Err(e)
        case Ok(rest) => Ok([u] + rest)
  }

  /** The `name` and `namePrefix` tests: each applies only when set. */
  predicate NameMatches(filter: DeviceFilter, localName: string)
  {
    && (filter.name == "" || filter.name == localName)
    && (filter.namePrefix == "" || filter.namePrefix <= localName)
  }

  /** `matchDeviceFilter(filter, device)`.  When the filter lists services,
      both the device's and the filter's identifiers are normalised (either
      may throw), and every filter service must be among the device's. */
  function MatchDeviceFilter(filter: DeviceFilter, device: ScanResult): Result<bool, Error>
  {
    if filter.services.Some? then
      match NormalizeAll(device.serviceUuids)
      case Err(e) => Err(e)
      case Ok(deviceServices) =>
        match NormalizeAll(filter.services.value)
        case Err(e) => Err(e)
        case Ok(wanted) =>
          if forall u | u in wanted :: u in deviceServices then Ok(NameMatches(filter, device.localName))
          else Ok(false)
    else
      Ok(NameMatches(filter, device.localName))
  }

  /** Every identifier of the filter denotes one the device advertises. */
  ghost predicate ServicesCovered(wanted: seq<Value>, advertised: seq<Value>)
    requires forall i | 0 <= i < |wanted| :: Normalize(wanted[i]).Ok?
    requires forall j | 0 <= j < |advertised| :: Normalize(advertised[j]).Ok?
  {
    forall i | 0 <= i < |wanted| :: exists j | 0 <= j < |advertised| :: Normalize(wanted[i]) == Normalize(advertised[j])
  }

  /** When every identifier the filter compares normalises (the device's
      are compared only when the filter lists services), a filter matches exactly
      when each of its services denotes an advertised one, a set `name`
      equals the device's name and a set `namePrefix` begins it. */
  lemma MatchDeviceFilterMeaning(filter: DeviceFilter, device: ScanResult)
    requires filter.services.Some? ==> forall j | 0 <= j < |device.serviceUuids| :: Normalize(device.serviceUuids[j]).Ok?
    requires filter.services.Some? ==> forall i | 0 <= i < |filter.services.value| :: Normalize(filter.services.value[i]).Ok?
    ensures MatchDeviceFilter(filter, device).Ok?
    ensures MatchDeviceFilter(filter, device).value <==>
      && (filter.services.Some? ==> ServicesCovered(filter.services.value, device.serviceUuids))
      && (filter.name == "" || filter.name == device.localName)
      && (filter.namePrefix == "" || filter.namePrefix <= device.localName)
  {
    if filter.services.Some? {
      CoveredMeansIncluded(filter.services.value, device.serviceUuids);
    }
  }

  /** The inclusion test on normalised lists is the coverage of one list of
      identifiers by the other. */
  lemma CoveredMeansIncluded(ws: seq<Value>, ds: seq<Value>)
    requires forall i | 0 <= i < |ws| :: Normalize(ws[i]).Ok?
    requires forall j | 0 <= j < |ds| :: Normalize(ds[j]).Ok?
    ensures NormalizeAll(ws).Ok? && NormalizeAll(ds).Ok?
    ensures (forall u | u in NormalizeAll(ws).value :: u in NormalizeAll(ds).value) <==> ServicesCovered(ws, ds)
  {
    var wanted := NormalizeAll(ws).value;
    var advertised := NormalizeAll(ds).value;
    if forall u | u in wanted :: u in advertised {
      forall i | 0 <= i < |ws| ensures exists j | 0 <= j < |ds| :: Normalize(ws[i]) == Normalize(ds[j]) {
        assert wanted[i] in advertised;
        var j :| 0 <= j < |advertised| && advertised[j] == wanted[i];
        assert Normalize(ws[i]) == Normalize(ds[j]);
      }
    } else {
      var u :| u in wanted && u !in advertised;
      var i :| 0 <= i < |wanted| && wanted[i] == u;
      forall j | 0 <= j < |ds| ensures Normalize(ws[i]) != Normalize(ds[j]) {
        assert advertised[j] in advertised;
      }
    }
  }

  /** A filter that lists services throws when one of the device's
      identifiers does not normalise, before anything else is tested. */
  lemma MatchDeviceFilterThrowsOnDevice(filter: DeviceFilter, device: ScanResult, j: nat)
    requires filter.services.Some?
    requires j < |device.serviceUuids| && Normalize(device.serviceUuids[j]).Err?
    ensures MatchDeviceFilter(filter, device).Err?
  {
  }

  /** `filters.some(filter => matchDeviceFilter(filter, device))`: tries the
      filters in order, stops at the first match, and throws if a filter
      tried before that throws. */
  function SomeFilterMatches(filters: seq<DeviceFilter>, device: ScanResult): (r: Result<bool, Error>)
    ensures r == Ok(false) <==> forall i | 0 <= i < |filters| :: MatchDeviceFilter(filters[i], device) == Ok(false)
    ensures r == Ok(true) <==>
      exists i | 0 <= i < |filters| ::
        && MatchDeviceFilter(filters[i], device) == Ok(true)
        && forall j | 0 <= j < i :: MatchDeviceFilter(filters[j], device) == Ok(false)
  {
    if filters == [] then Ok(false)
    else
      match MatchDeviceFilter(filters[0], device)
      case Err(e) => Err(e)
      case Ok(matched) => if matched then Ok(true) else SomeFilterMatches(filters[1..], device)
  }

  /** The scan-result listener's test: accept every device when
      `acceptAllDevices` is set (the filters are not even looked at),
      otherwise accept when some filter matches.  The listener exists only
      once `requestDevice` has found `filters` present. */
  function AcceptsScanResult(options: RequestDeviceOptions, device: ScanResult): Result<bool, Error>
    requires options.filters.Some?
  {
    if options.acceptAllDevices then Ok(true) else SomeFilterMatches(options.filters.value, device)
  }

  /** The `{address, __rssi, name}` object `requestDevice` resolves with. */
  function Summary(device: ScanResult): DeviceSummary
  {
    DeviceSummary(device.bluetoothAddress, device.rssi, device.localName)
  }

  // ----- worked examples -----

  /** A device named "FooBar" advertising heart rate and battery service. */
  function ExampleDevice(): ScanResult
  {
    ScanResult(Str("aa:bb"), Num(-60), "FooBar", [Str("heart_rate"), Str("battery_service")])
  }

  /** A filter that asks for a service the device does not advertise never
      matches, whatever the names say. */
  lemma MissingServiceFails(filter: DeviceFilter, device: ScanResult, i: nat)
    requires forall j | 0 <= j < |device.serviceUuids| :: Normalize(device.serviceUuids[j]).Ok?
    requires filter.services.Some? && forall k | 0 <= k < |filter.services.value| :: Normalize(filter.services.value[k]).Ok?
    requires i < |filter.services.value|
    requires forall j | 0 <= j < |device.serviceUuids| :: Normalize(filter.services.value[i]) != Normalize(device.serviceUuids[j])
    ensures MatchDeviceFilter(filter, device) == Ok(false)
  {
    MatchDeviceFilterMeaning(filter, device);
  }

  /** A filter naming a service by its well-known name matches a device
      that advertises the service by its number among other services. */
  lemma NameMatchesNumber(name: string, device: ScanResult, k: nat)
    requires AliasCode(name).Some?
    requires forall j | 0 <= j < |device.serviceUuids| :: Normalize(device.serviceUuids[j]).Ok?
    requires k < |device.serviceUuids| && device.serviceUuids[k] == Num(AliasCode(name).value)
    ensures MatchDeviceFilter(DeviceFilter(Some([Str(name)]), "", ""), device) == Ok(true)
  {
    var code := AliasCode(name).value;
    NormalizeAlias(name);
    NormalizeNumber(code);
    var filter := DeviceFilter(Some([Str(name)]), "", "");
    MatchDeviceFilterMeaning(filter, device);
    assert Normalize(filter.services.value[0]) == Normalize(device.serviceUuids[k]);
  }

  /** `namePrefix` "Foo" matches "FooBar"; "Bar" does not. */
  lemma NamePrefixExamples()
    ensures MatchDeviceFilter(DeviceFilter(None, "", "Foo"), ExampleDevice()) == Ok(true)
    ensures MatchDeviceFilter(DeviceFilter(None, "", "Bar"), ExampleDevice()) == Ok(false)
  {
    assert "Foo" <= "FooBar";
    assert !("Bar" <= "FooBar") by { assert "FooBar"[0] != "Bar"[0]; }
  }
}
