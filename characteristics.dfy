/** The pure parts of `getCharacteristics` and `getCharacteristic`: the
    cache key, the in-memory filtering of a cached list and the choice of its
    first element. */
module Characteristics {
  import opened Js
  import opened Uuid

  /** `${gattId}/${service}`: the cache key, built from the raw service
      argument, not from its normalised form. */
  function CacheKey(gattId: Value, service: Value): string
  {
    Display(gattId) + "/" + Display(service)
  }

  /** For one device, two service arguments share a cache entry exactly when
      their string forms are equal. */
  lemma CacheKeySeparatesServices(gattId: Value, s1: Value, s2: Value)
    ensures CacheKey(gattId, s1) == CacheKey(gattId, s2) <==> Display(s1) == Display(s2)
  {
    var p := Display(gattId) + "/";
    if CacheKey(gattId, s1) == CacheKey(gattId, s2) {
      assert Display(s1) == CacheKey(gattId, s1)[|p|..];
      assert Display(s2) == CacheKey(gattId, s2)[|p|..];
    }
  }

  /** Two spellings of one service are cached apart: a well-known name and
      its code's `0x` hex string normalise alike but key differently. */
  lemma RawServiceKeys(gattId: Value, name: string)
    requires AliasCode(name).Some?
    ensures Normalize(Str(name)) == Normalize(Str("0x" + ToHex(AliasCode(name).value)))
    ensures CacheKey(gattId, Str(name)) != CacheKey(gattId, Str("0x" + ToHex(AliasCode(name).value)))
  {
    var code := AliasCode(name).value;
    AliasFormsAgree(name);
    var hex := "0x" + ToHex(code);
    assert name[0] != hex[0] by { AliasInitial(name); }
    CacheKeySeparatesServices(gattId, Str(name), Str(hex));
  }

  /** No well-known name begins with a digit. */
  lemma AliasInitial(name: string)
    requires AliasCode(name).Some?
    ensures |name| > 0 && 'a' <= name[0] <= 'z'
  {
  }

  /** `normalizeUuid(c.uuid) == normalizeUuid(characteristic)` for one cached
      characteristic `c`: reading `uuid` off `null` or `undefined` and either
      normalisation can throw. */
  function UuidMatches(c: Value, characteristic: Value): Result<bool, Error>
  {
    match PropertyOf(c, "uuid")
    case Err(e) => Err(e)
    case Ok(u) =>
      match Normalize(u)
      case Err(e) => Err(e)
      case Ok(have) =>
        match Normalize(characteristic)
        case Err(e) => Err(e)
        case Ok(want) => Ok(have == want)
  }

  /** `a` is `b` with some elements left out, the rest in their order. */
  predicate IsSubsequence(a: seq<Value>, b: seq<Value>)
    decreases |b|
  {
    if b == [] then a == []
    else (a != [] && a[0] == b[0] && IsSubsequence(a[1..], b[1..])) || IsSubsequence(a, b[1..])
  }

  /** `list.filter(test)` for a test that may throw: the elements the test
      accepts, in their order; the first test that throws ends the filtering. */
  function Filter(list: seq<Value>, test: Value -> Result<bool, Error>): (r: Result<seq<Value>, Error>)
    ensures r.Ok? <==> forall i | 0 <= i < |list| :: test(list[i]).Ok?
    ensures r.Ok? ==> IsSubsequence(r.value, list)
  {
    if list == [] then Ok([])
    else
      match test(list[0])
      case Err(e) => Err(e)
      case Ok(keep) =>
        match Filter(list[1..], test)
        case Err(e) => Err(e)
        case Ok(rest) =>
          assert ([list[0]] + rest)[1..] == rest;
          Ok(if keep then [list[0]] + rest else rest)
  }

  /** The test `c => normalizeUuid(c.uuid) == normalizeUuid(characteristic)`. */
  function UuidTest(characteristic: Value): Value -> Result<bool, Error>
  {
    c => UuidMatches(c, characteristic)
  }

  /** The characteristics of a cached list whose identifier denotes the
      requested one. */
  function FilterByUuid(list: seq<Value>, characteristic: Value): Result<seq<Value>, Error>
  {
    Filter(list, UuidTest(characteristic))
  }

  /** What `getCharacteristics` returns once the list is cached: the list
      itself when no characteristic is asked for (a falsy argument), else
      its filtered copy; only an array has `filter`. */
  function SelectCharacteristics(cached: Value, characteristic: Value): Result<Value, Error>
  {
    if !Truthy(characteristic) then Ok(cached)
    else if !cached.Arr? then Err(TypeError)
    else
      match FilterByUuid(cached.items, characteristic)
      case Err(e) => Err(e)
      case Ok(found) => Ok(Arr(found))
  }

  /** `getCharacteristic`'s step after `getCharacteristics`: `find(x => true)`
      picks the first element, and a falsy one (or none) is "not found". */
  function FirstCharacteristic(found: Value, characteristic: Value): Result<Value, Error>
  {
    if !found.Arr? then Err(TypeError)
    else if |found.items| > 0 && Truthy(found.items[0]) then Ok(found.items[0])
    else Err(CharacteristicNotFound(characteristic))
  }

  /** Only an object has a `uuid` that can denote anything. */
  lemma MatchedIsObject(c: Value, characteristic: Value)
    requires UuidMatches(c, characteristic) == Ok(true)
    ensures c.Obj? && Truthy(c)
  {
    assert Normalize(Undefined).Err? by {
      assert Display(Undefined) == "undefined";
      assert !MatchesGuidPattern("undefined");
    }
  }

  /** `filter` keeps every accepted position: each value occurs in the result
      as often as in the list when the test accepts it, and not at all
      otherwise; so the result holds exactly the accepted elements. */
  lemma {:induction false} FilterCounts(list: seq<Value>, test: Value -> Result<bool, Error>)
    requires Filter(list, test).Ok?
    ensures var found := Filter(list, test).value;
      forall c :: multiset(found)[c] == (if test(c) == Ok(true) then multiset(list)[c] else 0)
    ensures var found := Filter(list, test).value;
      forall c :: c in found <==> c in list && test(c) == Ok(true)
    decreases |list|
  {
    if list != [] {
      var tail := list[1..];
      FilterCounts(tail, test);
      var found := Filter(list, test).value;
      var rest := Filter(tail, test).value;
      assert list == [list[0]] + tail;
      assert multiset(list) == multiset{list[0]} + multiset(tail);
      if test(list[0]) == Ok(true) {
        assert found == [list[0]] + rest;
        assert multiset(found) == multiset{list[0]} + multiset(rest);
      } else {
        assert found == rest;
      }
    }
  }

  /** The head of the filtered list is the first accepted element. */
  lemma {:induction false} FilterHeadIsFirstMatch(list: seq<Value>, test: Value -> Result<bool, Error>)
    requires Filter(list, test).Ok?
    ensures var found := Filter(list, test).value;
      && (|found| > 0 <==> exists i | 0 <= i < |list| :: test(list[i]) == Ok(true))
      && (|found| > 0 ==> exists i | 0 <= i < |list| ::
            && found[0] == list[i] && test(list[i]) == Ok(true)
            && forall j | 0 <= j < i :: test(list[j]) == Ok(false))
    decreases |list|
  {
    if list != [] {
      var tail := list[1..];
      FilterHeadIsFirstMatch(tail, test);
      if test(list[0]) == Ok(false) {
        if exists i | 0 <= i < |tail| :: test(tail[i]) == Ok(true) {
          var found := Filter(tail, test).value;
          var i :| 0 <= i < |tail|
            && found[0] == tail[i] && test(tail[i]) == Ok(true)
            && forall j | 0 <= j < i :: test(tail[j]) == Ok(false);
          assert list[i + 1] == tail[i];
          assert forall j | 0 <= j < i + 1 :: test(list[j]) == Ok(false) by {
            forall j | 0 <= j < i + 1 ensures test(list[j]) == Ok(false) {
              if j > 0 { assert list[j] == tail[j - 1]; }
            }
          }
        } else {
          forall i | 0 <= i < |list| ensures test(list[i]) != Ok(true) {
            if i > 0 { assert list[i] == tail[i - 1]; }
          }
        }
      }
    }
  }

  /** Filtering a list whose every element the test accepts returns the
      whole list. */
  lemma {:induction false} FilterKeepsAll(list: seq<Value>, test: Value -> Result<bool, Error>)
    requires forall i | 0 <= i < |list| :: test(list[i]) == Ok(true)
    ensures Filter(list, test) == Ok(list)
    decreases |list|
  {
    if list != [] {
      assert forall i | 0 <= i < |list[1..]| :: list[1..][i] == list[i + 1];
      FilterKeepsAll(list[1..], test);
      assert [list[0]] + list[1..] == list;
    }
  }

  /** Asking for a characteristic every cached entry denotes returns the
      cached list unchanged. */
  lemma SelectAllMatching(list: seq<Value>, characteristic: Value)
    requires Truthy(characteristic)
    requires forall i | 0 <= i < |list| :: UuidMatches(list[i], characteristic) == Ok(true)
    ensures SelectCharacteristics(Arr(list), characteristic) == Ok(Arr(list))
  {
    FilterKeepsAll(list, UuidTest(characteristic));
  }

  /** `getCharacteristic` on a cached list: the first cached characteristic
      whose identifier denotes the requested one, or "not found" when there
      is none. */
  lemma GetCharacteristicFirstMatch(list: seq<Value>, characteristic: Value)
    requires Truthy(characteristic)
    requires forall i | 0 <= i < |list| :: UuidMatches(list[i], characteristic).Ok?
    ensures SelectCharacteristics(Arr(list), characteristic).Ok?
    ensures var r := FirstCharacteristic(SelectCharacteristics(Arr(list), characteristic).value, characteristic);
      && (r.Ok? <==> exists i | 0 <= i < |list| :: UuidMatches(list[i], characteristic) == Ok(true))
      && (r.Ok? ==> exists i | 0 <= i < |list| ::
            && r.value == list[i] && UuidMatches(list[i], characteristic) == Ok(true)
            && forall j | 0 <= j < i :: UuidMatches(list[j], characteristic) == Ok(false))
      && (r.Err? ==> r.error == CharacteristicNotFound(characteristic))
  {
    var test := UuidTest(characteristic);
    assert forall c :: test(c) == UuidMatches(c, characteristic);
    var found := Filter(list, test).value;
    FilterHeadIsFirstMatch(list, test);
    if |found| > 0 {
      MatchedIsObject(found[0], characteristic);
    }
  }
}
