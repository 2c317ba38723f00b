/** Sequences of events on one background page, from a fresh page, with the
    outcome each one has. */
module Scenarios {
  import opened Js
  import opened Uuid
  import opened Discovery
  import opened Characteristics
  import opened Background

  /** A reply of the native server. */
  function Response(id: Value, result: Value, error: Value): JsObject
  {
    map["_type" := Str("response"), "_id" := id, "result" := result, "error" := error]
  }

  /** A value-changed push of the native server. */
  function Notification(subscriptionId: Value): JsObject
  {
    map["_type" := Str("valueChangedNotification"), "subscriptionId" := subscriptionId, "value" := Arr([Num(1)])]
  }

  /** The command of every message in an outbox, in order. */
  function Commands(outbox: seq<Posted>): seq<string>
  {
    seq(|outbox|, i requires 0 <= i < |outbox| => outbox[i].cmd)
  }

  /** A reply that names pending id `id` by its number settles it. */
  lemma ReplyByNumber(requests: set<nat>, id: nat, result: Value, error: Value)
    ensures ReplyTarget(requests, Response(Num(id), result, error)) == if id in requests then Some(id) else None
  {
    KeyNamesIndex(Decimal(id), id);
    assert Display(Num(id)) == Decimal(id);
  }

  /** So does one that names it by its decimal string. */
  lemma ReplyByString(requests: set<nat>, id: nat, result: Value, error: Value)
    ensures ReplyTarget(requests, Response(Str(Decimal(id)), result, error)) == if id in requests then Some(id) else None
  {
    KeyNamesIndex(Decimal(id), id);
  }

  lemma ReplyByBadKey(requests: set<nat>, key: string, result: Value, error: Value)
    requires ArrayIndexOf(key) == None
    ensures ReplyTarget(requests, Response(Str(key), result, error)) == None
  {
  }

  lemma ResponseIsNoNotification(subscriptions: map<string, Option<Tab>>, id: Value, result: Value, error: Value)
    ensures Route(subscriptions, Response(id, result, error)) == []
  {
    assert Get(Response(id, result, error), "_type") == Str("response");
  }

  lemma NotificationRoute(subscriptions: map<string, Option<Tab>>, sid: string)
    ensures Route(subscriptions, Notification(Str(sid))) ==
      if sid in subscriptions && subscriptions[sid].Some? then [Delivery(subscriptions[sid].value.id, Notification(Str(sid)))] else []
  {
    var m := Notification(Str(sid));
    assert Get(m, "_type") == Str("valueChangedNotification");
    assert Get(m, "subscriptionId") == Str(sid);
  }

  lemma NotificationIsNoReply(requests: set<nat>, sid: Value)
    ensures ReplyTarget(requests, Notification(sid)) == None
  {
    assert Get(Notification(sid), "_type") == Str("valueChangedNotification");
  }

  /** A fresh page that sent two requests, ids 0 and 1. */
  method TwoPending() returns (page: BackgroundPage)
    ensures fresh(page) && page.Valid()
    ensures page.requests == {0, 1} && page.settlements == []
  {
    page := new BackgroundPage();
    var first := page.NativeRequest("read", None);
    var second := page.NativeRequest("read", None);
  }

  /** Replies settle requests by id, in whatever order they arrive, and a
      string id names the same entry as the number. */
  method RepliesMatchById() returns (log: seq<Settlement>, pending: set<nat>)
    ensures log == [Rejected(1, Str("busy")), Resolved(0, Num(7))]
    ensures pending == {}
  {
    var page := TwoPending();
    ReplyByNumber(page.requests, 1, Undefined, Str("busy"));
    page.OnMessage(Response(Num(1), Undefined, Str("busy")));
    assert page.requests == {0} && page.settlements == [Rejected(1, Str("busy"))];
    ReplyByString(page.requests, 0, Num(7), Null);
    assert Decimal(0) == "0";
    page.OnMessage(Response(Str("0"), Num(7), Null));
    log := page.settlements;
    pending := page.requests;
  }

  /** An id spelled with a leading zero names no entry, and a second reply
      to a settled id is ignored: a request settles exactly once. */
  method StrayRepliesIgnored() returns (log: seq<Settlement>, pending: set<nat>)
    ensures log == [Resolved(0, Num(7))]
    ensures pending == {}
  {
    var page := new BackgroundPage();
    var first := page.NativeRequest("read", None);
    assert page.requests == {0} && page.settlements == [];
    ReplyByBadKey(page.requests, "00", Num(5), Null);
    page.OnMessage(Response(Str("00"), Num(5), Null));
    assert page.requests == {0} && page.settlements == [];
    ReplyByNumber(page.requests, 0, Num(7), Null);
    page.OnMessage(Response(Num(0), Num(7), Null));
    assert page.requests == {} && page.settlements == [Resolved(0, Num(7))];
    ReplyByNumber(page.requests, 0, Num(8), Null);
    page.OnMessage(Response(Num(0), Num(8), Null));
    log := page.settlements;
    pending := page.requests;
  }

  /** A push that arrives before the `subscribe` reply reaches nobody. */
  method NoDeliveryBeforeReply(service: Value, characteristic: Value) returns (started: Result<nat, Error>, delivered: seq<Delivery>)
    requires Normalize(service).Ok? && Normalize(characteristic).Ok?
    ensures started == Ok(0)
    ensures delivered == []
  {
    var page := new BackgroundPage();
    started := page.StartNotifications(Str("dev"), service, characteristic);
    assert page.subscriptions == map[] && page.deliveries == [];
    NotificationRoute(page.subscriptions, "s1");
    page.OnMessage(Notification(Str("s1")));
    delivered := page.deliveries;
  }

  /** A page that sent `subscribe` and got subscription id "s1" back. */
  method SubscribeAnswered(service: Value, characteristic: Value) returns (page: BackgroundPage)
    requires Normalize(service).Ok? && Normalize(characteristic).Ok?
    ensures fresh(page) && page.Valid()
    ensures page.requests == {} && page.settlements == [Resolved(0, Str("s1"))]
    ensures page.subscriptions == map[] && page.deliveries == []
  {
    page := new BackgroundPage();
    var started := page.StartNotifications(Str("dev"), service, characteristic);
    assert started == Ok(0) && page.requests == {0} && page.settlements == [];
    assert page.subscriptions == map[] && page.deliveries == [];
    ReplyByNumber(page.requests, 0, Str("s1"), Undefined);
    ResponseIsNoNotification(page.subscriptions, Num(0), Str("s1"), Undefined);
    page.OnMessage(Response(Num(0), Str("s1"), Undefined));
  }

  /** A page on which `tab` subscribed and the native server answered with
      subscription id "s1". */
  method Subscribed(service: Value, characteristic: Value, tab: Value) returns (page: BackgroundPage, subscribed: Result<Value, Error>)
    requires Normalize(service).Ok? && Normalize(characteristic).Ok?
    ensures fresh(page) && page.Valid()
    ensures subscribed == Ok(Str("s1"))
    ensures page.subscriptions == map["s1" := Some(Tab(tab))] && page.deliveries == [] && page.requests == {}
  {
    page := SubscribeAnswered(service, characteristic);
    subscribed := page.FinishStartNotifications(Sender(Some(Tab(tab))), 0);
  }

  /** Once subscribed, a tab gets the pushes for its subscription id and no
      others. */
  method NotificationsReachSubscriber(service: Value, characteristic: Value, tab: Value)
    returns (subscribed: Result<Value, Error>, delivered: seq<Delivery>)
    requires Normalize(service).Ok? && Normalize(characteristic).Ok?
    ensures subscribed == Ok(Str("s1"))
    ensures delivered == [Delivery(tab, Notification(Str("s1")))]
  {
    var page;
    page, subscribed := Subscribed(service, characteristic, tab);
    NotificationRoute(page.subscriptions, "s1");
    NotificationIsNoReply(page.requests, Str("s1"));
    page.OnMessage(Notification(Str("s1")));
    assert page.subscriptions == map["s1" := Some(Tab(tab))] && page.requests == {};
    NotificationRoute(page.subscriptions, "s2");
    NotificationIsNoReply(page.requests, Str("s2"));
    page.OnMessage(Notification(Str("s2")));
    delivered := page.deliveries;
  }

  /** A fresh page asked for the characteristic list of `service`. */
  method FetchStarted(gattId: Value, service: Value) returns (page: BackgroundPage, step: CharacteristicsStep)
    requires Normalize(service).Ok?
    ensures fresh(page) && page.Valid()
    ensures step == Requested(CacheKey(gattId, service), 0)
    ensures page.requests == {0} && page.settlements == [] && page.charCache == map[] && page.subscriptions == map[]
    ensures |page.outbox| == 1 && page.outbox[0].cmd == "characteristics"
  {
    page := new BackgroundPage();
    step := page.GetCharacteristics(gattId, service, Undefined);
  }

  /** A page that fetched the characteristic list of `service` once. */
  method FilledCache(gattId: Value, service: Value, list: seq<Value>) returns (page: BackgroundPage, fetched: Result<Value, Error>)
    requires Normalize(service).Ok?
    ensures fresh(page) && page.Valid()
    ensures fetched == Ok(Arr(list))
    ensures page.charCache == map[CacheKey(gattId, service) := Arr(list)]
    ensures Commands(page.outbox) == ["characteristics"]
  {
    var step;
    page, step := FetchStarted(gattId, service);
    ReplyByNumber(page.requests, 0, Arr(list), Undefined);
    ResponseIsNoNotification(page.subscriptions, Num(0), Arr(list), Undefined);
    page.OnMessage(Response(Num(0), Arr(list), Undefined));
    assert page.settlements == [Resolved(0, Arr(list))] && page.charCache == map[];
    assert |page.outbox| == 1 && page.outbox[0].cmd == "characteristics";
    fetched := page.FinishGetCharacteristics(step.key, 0, Undefined);
  }

  /** Asking again for a fetched list answers from the cache and sends
      nothing, also when filtering by a characteristic every cached entry
      denotes. */
  method CacheHit(gattId: Value, service: Value, c: Value, list: seq<Value>)
    returns (again: CharacteristicsStep, filtered: CharacteristicsStep, commands: seq<string>)
    requires Normalize(service).Ok?
    requires Truthy(c) && forall i | 0 <= i < |list| :: UuidMatches(list[i], c) == Ok(true)
    ensures again == Cached(Ok(Arr(list)))
    ensures filtered == Cached(Ok(Arr(list)))
    ensures commands == ["characteristics"]
  {
    var page, fetched := FilledCache(gattId, service, list);
    again := page.GetCharacteristics(gattId, service, Undefined);
    assert page.charCache == map[CacheKey(gattId, service) := Arr(list)] && Commands(page.outbox) == ["characteristics"];
    SelectAllMatching(list, c);
    filtered := page.GetCharacteristics(gattId, service, c);
    commands := Commands(page.outbox);
  }

  /** The cache is keyed by the raw service argument: another spelling of a
      fetched service is another key, and its list is fetched again. */
  method CacheByRawKey(gattId: Value, service: Value, spelling: Value, list: seq<Value>)
    returns (refetch: CharacteristicsStep, commands: seq<string>)
    requires Normalize(service).Ok? && Normalize(spelling).Ok? && Display(service) != Display(spelling)
    ensures refetch == Requested(CacheKey(gattId, spelling), 1)
    ensures commands == ["characteristics", "characteristics"]
  {
    var page, fetched := FilledCache(gattId, service, list);
    CacheKeySeparatesServices(gattId, service, spelling);
    refetch := page.GetCharacteristics(gattId, spelling, Undefined);
    commands := Commands(page.outbox);
  }

  /** Without `filters`, `requestDevice` throws and sends nothing, even when
      every device would be accepted. */
  method FiltersRequired() returns (r: Result<nat, Error>, sent: nat)
    ensures r == Err(FiltersMissing) && sent == 0
  {
    var page := new BackgroundPage();
    r := page.RequestDevice(RequestDeviceOptions(None, true));
    sent := |page.outbox|;
  }

  /** A scan with a `namePrefix` filter passes over a device named otherwise
      and picks "FooBar"; the listener stays installed, so a later push of a
      matching device sends `stopScan` once more. */
  method ScanPicksMatchingDevice() returns (skipped: Result<Option<DeviceSummary>, Error>, picked: Result<Option<DeviceSummary>, Error>, commands: seq<string>)
    ensures skipped == Ok(None)
    ensures picked == Ok(Some(DeviceSummary(Str("aa:bb"), Num(-60), "FooBar")))
    ensures commands == ["scan", "stopScan", "stopScan"]
  {
    var page := new BackgroundPage();
    var options := RequestDeviceOptions(Some([DeviceFilter(None, "", "Foo")]), false);
    var scan := page.RequestDevice(options);
    var stranger := ScanResult(Str("cc:dd"), Num(-70), "Bar", []);
    assert !("Foo" <= "Bar") by { assert "Bar"[0] != "Foo"[0]; }
    skipped := page.OnScanResult(options, stranger);
    NamePrefixExamples();
    picked := page.OnScanResult(options, ExampleDevice());
    var late := page.OnScanResult(options, ExampleDevice());
    commands := Commands(page.outbox);
  }

  /** `writeValue` refuses a value that is not all numbers and an identifier
      that does not normalise, and sends nothing. */
  method WriteRefusals(service: Value, bogus: Value, characteristic: Value)
    returns (badValue: Result<nat, Error>, badService: Result<nat, Error>, sent: seq<Posted>)
    requires Normalize(service).Ok? && Normalize(characteristic).Ok? && Normalize(bogus).Err?
    ensures badValue == Err(InvalidValueArgument)
    ensures badService == Err(Normalize(bogus).error)
    ensures sent == []
  {
    var page := new BackgroundPage();
    assert !IsWritableValue(Arr([Num(1), Str("2")])) by {
      assert !Arr([Num(1), Str("2")]).items[1].Num?;
    }
    badValue := page.WriteValue(Str("g"), service, characteristic, Arr([Num(1), Str("2")]));
    assert page.outbox == [];
    badService := page.WriteValue(Str("g"), bogus, characteristic, Arr([Num(1)]));
    sent := page.outbox;
  }

  /** A number outside the byte range is sent as it is. */
  method WriteUnclamped(service: Value, characteristic: Value) returns (written: Result<nat, Error>, sent: seq<Posted>)
    requires Normalize(service).Ok? && Normalize(characteristic).Ok?
    ensures written == Ok(0)
    ensures |sent| == 1 && Get(Message(sent[0]), "value") == Arr([Num(300)])
  {
    var page := new BackgroundPage();
    written := page.WriteValue(Str("g"), service, characteristic, Arr([Num(300)]));
    sent := page.outbox;
  }
}
