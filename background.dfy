/** The background page's module-level state (`requestId`, `requests`,
    `subscriptions`, `charCache`) and the steps that change it.  Messages
    posted to the native server are kept in an outbox, `resolve`/`reject`
    calls in a log of settlements, and `chrome.tabs.sendMessage` calls in a
    log of deliveries.  An `await` splits a step in two: the part before the
    request is sent, and the part that runs once its settlement is logged. */
module Background {
  import opened Js
  import opened Uuid
  import opened Discovery
  import opened Characteristics

  /** How a pending request ended: `resolve(msg.result)` or `reject(msg.error)`. */
  datatype Settlement = Resolved(id: nat, result: Value) | Rejected(id: nat, reason: Value)

  /** A browser tab; `sender.tab` is absent for messages that come from no tab. */
  datatype Tab = Tab(id: Value)

  datatype Sender = Sender(tab: Option<Tab>)

  /** One `nativePort.postMessage` call of `nativeRequest`: the command, the
      id and the parameters, which `Envelope` merges into the message. */
  datatype Posted = Posted(cmd: string, id: nat, params: Option<JsObject>)

  /** One `chrome.tabs.sendMessage(tabId, msg)` call. */
  datatype Delivery = Delivery(tabId: Value, msg: JsObject)

  /** How far `getCharacteristics` gets before it has to wait. */
  datatype CharacteristicsStep =
    | Cached(result: Result<Value, Error>)   // the key was cached: the call completes at once
    | Requested(key: string, id: nat)       // a `characteristics` request went out under `id`
    | Failed(error: Error)                  // `windowsUuid(service)` threw: nothing was sent

  /** `Object.assign(params || {}, {cmd, _id})`: the message `nativeRequest`
      posts.  `cmd` and `_id` override whatever `params` holds under those
      names; everything else is taken from `params`. */
  function Envelope(cmd: string, id: nat, params: Option<JsObject>): (msg: JsObject)
    ensures Get(msg, "cmd") == Str(cmd) && Get(msg, "_id") == Num(id)
    ensures params.Some? ==> forall k | k in params.value && k != "cmd" && k != "_id" :: Get(msg, k) == params.value[k]
    ensures forall k | k in msg :: k == "cmd" || k == "_id" || (params.Some? && k in params.value)
  {
    (if params.Some? then params.value else map[]) + map["cmd" := Str(cmd), "_id" := Num(id)]
  }

  /** The message a posted request puts on the port. */
  function Message(p: Posted): (msg: JsObject)
    ensures Get(msg, "cmd") == Str(p.cmd) && Get(msg, "_id") == Num(p.id)
  {
    Envelope(p.cmd, p.id, p.params)
  }

  /** The parameters of the `read`/`write`/`subscribe` style requests. */
  function GattParams(gattId: Value, service: string, characteristic: string): JsObject
  {
    map["device" := gattId, "service" := Str(service), "characteristic" := Str(characteristic)]
  }

  /** `windowsUuid(service)` then `windowsUuid(characteristic)`, as
      `readValue`, `writeValue` and `startNotifications` compute them before
      sending anything: the first that throws ends the call. */
  function GattTarget(service: Value, characteristic: Value): Result<(string, string), Error>
  {
    match WindowsUuid(service)
    case Err(e) => Err(e)
    case Ok(s) =>
      match WindowsUuid(characteristic)
      case Err(e) => Err(e)
      case Ok(c) => Ok((s, c))
  }

  /** Both identifiers are converted, or the service's error is reported,
      or else the characteristic's; the braces wrap the normalised forms. */
  lemma GattTargetMeaning(service: Value, characteristic: Value)
    ensures GattTarget(service, characteristic).Ok? <==> Normalize(service).Ok? && Normalize(characteristic).Ok?
    ensures Normalize(service).Err? ==> GattTarget(service, characteristic) == Err(Normalize(service).error)
    ensures Normalize(service).Ok? && Normalize(characteristic).Err? ==>
      GattTarget(service, characteristic) == Err(Normalize(characteristic).error)
    ensures GattTarget(service, characteristic).Ok? ==>
      GattTarget(service, characteristic).value == ("{" + Normalize(service).value + "}", "{" + Normalize(characteristic).value + "}")
  {
  }

  /** The parameters of `write`: those of the other requests plus `value`. */
  function WriteParams(gattId: Value, service: string, characteristic: string, value: Value): JsObject
  {
    GattParams(gattId, service, characteristic)["value" := value]
  }

  /** The pending request a message completes, if any: a `response` whose
      `_id`, used as a property key, names an id still in the table. */
  function ReplyTarget(requests: set<nat>, msg: JsObject): Option<nat>
  {
    if Get(msg, "_type") != Str("response") then None
    else
      match ArrayIndexOf(Display(Get(msg, "_id")))
      case Some(id) => if id in requests then Some(id) else None
      case None => None
  }

  /** A message completes pending request `id` exactly when it is a
      `response` whose `_id` reads as `id` (the number, or its decimal
      string) and `id` is still pending. */
  lemma ReplyTargetMeaning(requests: set<nat>, msg: JsObject, id: nat)
    ensures ReplyTarget(requests, msg) == Some(id) <==>
      Get(msg, "_type") == Str("response") && id in requests && Display(Get(msg, "_id")) == Decimal(id)
  {
    KeyNamesIndex(Display(Get(msg, "_id")), id);
  }

  /** A reply can only complete a request that is pending. */
  lemma ReplyTargetIsPending(requests: set<nat>, msg: JsObject)
    ensures ReplyTarget(requests, msg).Some? ==> ReplyTarget(requests, msg).value in requests
    ensures ReplyTarget(requests, msg).Some? ==> ReplyTarget(requests - {ReplyTarget(requests, msg).value}, msg) == None
  {
  }

  /** `writeValue`'s guard: `value` must be an array whose every element is a
      number.  Nothing limits the numbers to the byte range. */
  predicate IsWritableValue(value: Value)
  {
    value.Arr? && forall i | 0 <= i < |value.items| :: value.items[i].Num?
  }

  /** `reject(msg.error)` when `msg.error` is truthy, else `resolve(msg.result)`. */
  function Settle(id: nat, msg: JsObject): Settlement
  {
    if Truthy(Get(msg, "error")) then Rejected(id, Get(msg, "error")) else Resolved(id, Get(msg, "result"))
  }

  /** The `valueChangedNotification` branch: the message goes to the tab
      registered under its `subscriptionId`, or nowhere. */
  function Route(subscriptions: map<string, Option<Tab>>, msg: JsObject): (r: seq<Delivery>)
    ensures |r| <= 1
    ensures |r| == 1 <==>
      && Get(msg, "_type") == Str("valueChangedNotification")
      && Display(Get(msg, "subscriptionId")) in subscriptions
      && subscriptions[Display(Get(msg, "subscriptionId"))].Some?
    ensures |r| == 1 ==> r[0] == Delivery(subscriptions[Display(Get(msg, "subscriptionId"))].value.id, msg)
  {
    if Get(msg, "_type") != Str("valueChangedNotification") then []
    else
      var key := Display(Get(msg, "subscriptionId"));
      if key in subscriptions && subscriptions[key].Some? then [Delivery(subscriptions[key].value.id, msg)] else []
  }

  /** The settlement logged for request `id`, if it has completed. */
  function SettlementOf(log: seq<Settlement>, id: nat): (r: Option<Settlement>)
    ensures r.Some? ==> r.value in log && r.value.id == id
    ensures r.None? <==> forall k | 0 <= k < |log| :: log[k].id != id
  {
    if log == [] then None
    else if log[0].id == id then Some(log[0])
    else SettlementOf(log[1..], id)
  }

  /** Appending a settlement for another id does not change what is found
      for `id`; appending one for `id` itself, when none was logged, makes it
      the one found. */
  lemma {:induction false} SettlementOfAppend(log: seq<Settlement>, s: Settlement, id: nat)
    ensures SettlementOf(log + [s], id) ==
      if SettlementOf(log, id).Some? then SettlementOf(log, id)
      else if s.id == id then Some(s) else None
    decreases |log|
  {
    if log != [] {
      assert (log + [s])[1..] == log[1..] + [s];
      SettlementOfAppend(log[1..], s, id);
    }
  }

  class BackgroundPage {
    /** The next request id. */
    var requestId: nat
    /** The ids of `requests`: those whose reply has not arrived yet. */
    var requests: set<nat>
    /** Every request posted to the native server, in order. */
    var outbox: seq<Posted>
    /** Every `resolve`/`reject` call, in order. */
    var settlements: seq<Settlement>
    /** `subscriptions`: the tab registered for each subscription id. */
    var subscriptions: map<string, Option<Tab>>
    /** Every notification forwarded to a tab, in order. */
    var deliveries: seq<Delivery>
    /** `charCache`: the characteristic list per `gattId/service` key. */
    var charCache: map<string, Value>

    /** Ids run 0, 1, 2, ... in the order messages are posted; every id is
        pending or settled, and settled at most once. */
    ghost predicate Valid()
      reads this
    {
      && |outbox| == requestId
      && (forall i | 0 <= i < |outbox| :: outbox[i].id == i)
      && (forall id | id in requests :: id < requestId)
      && (forall k | 0 <= k < |settlements| :: settlements[k].id < requestId && settlements[k].id !in requests)
      && (forall k, l | 0 <= k < l < |settlements| :: settlements[k].id != settlements[l].id)
      && (forall id: nat | id < requestId :: id in requests || SettlementOf(settlements, id).Some?)
    }

    /** No request was posted. */
    twostate predicate NothingSent()
      reads this
    {
      requestId == old(requestId) && requests == old(requests) && outbox == old(outbox)
    }

    /** One request was registered, under the next id. */
    twostate predicate NextIdPending()
      reads this
    {
      requestId == old(requestId) + 1 && requests == old(requests) + {old(requestId)}
    }

    constructor ()
      ensures Valid()
      ensures requestId == 0 && requests == {} && outbox == [] && settlements == []
      ensures subscriptions == map[] && deliveries == [] && charCache == map[]
    {
      requestId := 0;
      requests := {};
      outbox := [];
      settlements := [];
      subscriptions := map[];
      deliveries := [];
      charCache := map[];
    }

    /** `nativeRequest(cmd, params)`: registers a pending entry under the
        current id, posts one message carrying that id, and moves to the
        next id.  The id was never used before. */
    method NativeRequest(cmd: string, params: Option<JsObject>) returns (id: nat)
      requires Valid()
      modifies this`requestId, this`requests, this`outbox
      ensures Valid()
      ensures id == old(requestId) && NextIdPending() && outbox == old(outbox) + [Posted(cmd, old(requestId), params)]
      ensures id !in old(requests) && forall k | 0 <= k < |settlements| :: settlements[k].id != id
    {
      id := requestId;
      requests := requests + {id};
      requestId := requestId + 1;
      outbox := outbox + [Posted(cmd, id, params)];
    }

    /** The native port's `onMessage` listener.  A `response` for a pending
        id settles it and removes it; any other message leaves the table as
        it is.  A `valueChangedNotification` goes to its subscriber's tab. */
    method OnMessage(msg: JsObject)
      requires Valid()
      modifies this`requests, this`settlements, this`deliveries
      ensures Valid()
      ensures match ReplyTarget(old(requests), msg)
        case Some(id) => requests == old(requests) - {id} && settlements == old(settlements) + [Settle(id, msg)]
        case None => requests == old(requests) && settlements == old(settlements)
      ensures deliveries == old(deliveries) + Route(subscriptions, msg)
    {
      if Get(msg, "_type") == Str("response") {
        var index := ArrayIndexOf(Display(Get(msg, "_id")));
        if index.Some? && index.value in requests {
          var id := index.value;
          var error := Get(msg, "error");
          var prev := settlements;
          if Truthy(error) {
            settlements := settlements + [Rejected(id, error)];
          } else {
            settlements := settlements + [Resolved(id, Get(msg, "result"))];
          }
          forall k: nat
            ensures SettlementOf(prev, k).Some? ==> SettlementOf(settlements, k).Some?
            ensures k == id ==> SettlementOf(settlements, k).Some?
          {
            SettlementOfAppend(prev, settlements[|settlements| - 1], k);
          }
          requests := requests - {id};
        }
      }
      if Get(msg, "_type") == Str("valueChangedNotification") {
        var subscriber := Get(msg, "subscriptionId");
        var key := Display(subscriber);
        if key in subscriptions && subscriptions[key].Some? {
          deliveries := deliveries + [Delivery(subscriptions[key].value.id, msg)];
        }
      }
    }

    /** `requestDevice`, up to the wait for a device: without `filters` it
        throws, even when `acceptAllDevices` is set; otherwise it sends
        `scan` (every call does, since nothing ever records a running scan). */
    method RequestDevice(options: RequestDeviceOptions) returns (r: Result<nat, Error>)
      requires Valid()
      modifies this`requestId, this`requests, this`outbox
      ensures Valid()
      ensures options.filters.None? ==> r == Err(FiltersMissing) && NothingSent()
      ensures options.filters.Some? ==> r == Ok(old(requestId)) && NextIdPending() && outbox == old(outbox) + [Posted("scan", old(requestId), None)]
    {
      if options.filters.None? {
        return Err(FiltersMissing);
      }
      var id := NativeRequest("scan", None);
      r := Ok(id);
    }

    /** `requestDevice`'s scan-result listener on one `scanResult` push: an
        accepted device makes it send `stopScan` and yields the device's
        summary; a filter that throws ends the listener call. */
    method OnScanResult(options: RequestDeviceOptions, device: ScanResult) returns (r: Result<Option<DeviceSummary>, Error>)
      requires Valid() && options.filters.Some?
      modifies this`requestId, this`requests, this`outbox
      ensures Valid()
      ensures AcceptsScanResult(options, device) == Ok(true) ==>
        r == Ok(Some(Summary(device))) && NextIdPending() && outbox == old(outbox) + [Posted("stopScan", old(requestId), None)]
      ensures AcceptsScanResult(options, device) == Ok(false) ==> r == Ok(None) && NothingSent()
      ensures AcceptsScanResult(options, device).Err? ==>
        r == Err(AcceptsScanResult(options, device).error) && NothingSent()
    {
      var accepted := AcceptsScanResult(options, device);
      match accepted {
        case Err(e) =>
          r := Err(e);
        case Ok(yes) =>
          if yes {
            var _ := NativeRequest("stopScan", None);
            r := Ok(Some(Summary(device)));
          } else {
            r := Ok(None);
          }
      }
    }

    /** `writeValue`: the value must be an array of numbers, and both
        identifiers must normalise; only then is `write` sent. */
    method WriteValue(gattId: Value, service: Value, characteristic: Value, value: Value) returns (r: Result<nat, Error>)
      requires Valid()
      modifies this`requestId, this`requests, this`outbox
      ensures Valid()
      ensures !IsWritableValue(value) ==> r == Err(InvalidValueArgument) && NothingSent()
      ensures IsWritableValue(value) && GattTarget(service, characteristic).Err? ==>
        r == Err(GattTarget(service, characteristic).error) && NothingSent()
      ensures IsWritableValue(value) && GattTarget(service, characteristic).Ok? ==>
        var (s, c) := GattTarget(service, characteristic).value;
        && r == Ok(old(requestId)) && NextIdPending()
        && outbox == old(outbox) + [Posted("write", old(requestId), Some(WriteParams(gattId, s, c, value)))]
    {
      if !IsWritableValue(value) {
        return Err(InvalidValueArgument);
      }
      match GattTarget(service, characteristic) {
        case Err(e) =>
          r := Err(e);
        case Ok((s, c)) =>
          var id := NativeRequest("write", Some(WriteParams(gattId, s, c, value)));
          r := Ok(id);
      }
    }

    /** `startNotifications`, up to the wait for the `subscribe` reply. */
    method StartNotifications(gattId: Value, service: Value, characteristic: Value) returns (r: Result<nat, Error>)
      requires Valid()
      modifies this`requestId, this`requests, this`outbox
      ensures Valid()
      ensures GattTarget(service, characteristic).Err? ==>
        r == Err(GattTarget(service, characteristic).error) && NothingSent()
      ensures GattTarget(service, characteristic).Ok? ==>
        var (s, c) := GattTarget(service, characteristic).value;
        && r == Ok(old(requestId)) && NextIdPending()
        && outbox == old(outbox) + [Posted("subscribe", old(requestId), Some(GattParams(gattId, s, c)))]
    {
      match GattTarget(service, characteristic) {
        case Err(e) =>
          r := Err(e);
        case Ok((s, c)) =>
          var id := NativeRequest("subscribe", Some(GattParams(gattId, s, c)));
          r := Ok(id);
      }
    }

    /** `startNotifications` after its `subscribe` request `id` settled: a
        resolved reply registers the sender's tab under the subscription id
        it carries and returns that id; a rejection is rethrown.  Entries are
        only ever added. */
    method FinishStartNotifications(sender: Sender, id: nat) returns (r: Result<Value, Error>)
      requires Valid() && SettlementOf(settlements, id).Some?
      modifies this`subscriptions
      ensures Valid()
      ensures old(subscriptions).Keys <= subscriptions.Keys
      ensures match SettlementOf(settlements, id).value
        case Resolved(_, subscriptionId) =>
          r == Ok(subscriptionId) && subscriptions == old(subscriptions)[Display(subscriptionId) := sender.tab]
        case Rejected(_, reason) =>
          r == Err(NativeError(reason)) && subscriptions == old(subscriptions)
    {
      match SettlementOf(settlements, id).value {
        case Resolved(_, subscriptionId) =>
          subscriptions := subscriptions[Display(subscriptionId) := sender.tab];
          r := Ok(subscriptionId);
        case Rejected(_, reason) =>
          r := Err(NativeError(reason));
      }
    }

    /** `getCharacteristics`, up to the wait: a cached key answers at once
        (filtered when a characteristic is asked for); otherwise one
        `characteristics` request is sent, unless the service does not
        normalise. */
    method GetCharacteristics(gattId: Value, service: Value, characteristic: Value) returns (step: CharacteristicsStep)
      requires Valid()
      modifies this`requestId, this`requests, this`outbox
      ensures Valid()
      ensures var key := CacheKey(gattId, service);
        if key in charCache && Truthy(charCache[key]) then
          step == Cached(SelectCharacteristics(charCache[key], characteristic)) && NothingSent()
        else if WindowsUuid(service).Err? then
          step == Failed(WindowsUuid(service).error) && NothingSent()
        else
          && step == Requested(key, old(requestId))
          && NextIdPending() && outbox == old(outbox) + [Posted("characteristics", old(requestId), Some(map["device" := gattId, "service" := Str(WindowsUuid(service).value)]))]
    {
      var key := CacheKey(gattId, service);
      if key in charCache && Truthy(charCache[key]) {
        return Cached(SelectCharacteristics(charCache[key], characteristic));
      }
      var s := WindowsUuid(service);
      if s.Err? {
        return Failed(s.error);
      }
      var id := NativeRequest("characteristics", Some(map["device" := gattId, "service" := Str(s.value)]));
      step := Requested(key, id);
    }

    /** `getCharacteristics` after its request `id` settled: the list is
        cached under `key`, then returned (filtered when a characteristic is
        asked for); a rejection is rethrown and caches nothing. */
    method FinishGetCharacteristics(key: string, id: nat, characteristic: Value) returns (r: Result<Value, Error>)
      requires Valid() && SettlementOf(settlements, id).Some?
      modifies this`charCache
      ensures Valid()
      ensures match SettlementOf(settlements, id).value
        case Resolved(_, list) =>
          charCache == old(charCache)[key := list] && r == SelectCharacteristics(list, characteristic)
        case Rejected(_, reason) =>
          charCache == old(charCache) && r == Err(NativeError(reason))
    {
      match SettlementOf(settlements, id).value {
        case Resolved(_, list) =>
          charCache := charCache[key := list];
          r := SelectCharacteristics(charCache[key], characteristic);
        case Rejected(_, reason) =>
          r := Err(NativeError(reason));
      }
    }
  }
}
