/**
 * The device-directory cache (`HomeKitManager`).
 *
 * The live directory (`HMHomeManager`) is an object whose `homes` the platform
 * may replace at any time; the manager caches the homes and the flattened
 * accessory list, clears them on stop, and searches the live directory for a
 * characteristic by its identifier.
 */
module HomeKit {
  import opened Wrappers
  import Decimal
  import opened Events

  /** A 128-bit UUID. */
  type Uuid = x: nat | x < 0x1_0000_0000_0000_0000_0000_0000_0000_0000

  datatype Characteristic = Characteristic(uniqueIdentifier: Uuid, characteristicType: string)
  datatype Service = Service(name: string, characteristics: seq<Characteristic>)
  datatype Accessory = Accessory(name: string, services: seq<Service>)
  datatype Home = Home(name: string, accessories: seq<Accessory>)

  // ---------------------------------------------------------------------
  // Flattening

  /** Swift's `flatMap` on arrays: the concatenation of f over xs, in order. */
  function FlatMap<T, U>(xs: seq<T>, f: T -> seq<U>): seq<U> {
    if xs == [] then [] else FlatMap(xs[..|xs| - 1], f) + f(xs[|xs| - 1])
  }

  lemma FlatMapSnoc<T, U>(xs: seq<T>, k: nat, f: T -> seq<U>)
    requires k < |xs|
    ensures FlatMap(xs[..k + 1], f) == FlatMap(xs[..k], f) + f(xs[k])
  {
    assert xs[..k + 1][..k] == xs[..k];
  }

  /** The part contributed by the first k elements, followed by the k-th, is a prefix of the whole. */
  lemma {:induction false} FlatMapPrefix<T, U>(xs: seq<T>, k: nat, f: T -> seq<U>)
    requires k < |xs|
    ensures FlatMap(xs[..k], f) + f(xs[k]) <= FlatMap(xs, f)
    decreases |xs| - k
  {
    FlatMapSnoc(xs, k, f);
    if k + 1 < |xs| {
      FlatMapPrefix(xs, k + 1, f);
    } else {
      assert xs[..k + 1] == xs;
    }
  }

  /** An element of a flattening comes from exactly the parts: membership both ways. */
  lemma {:induction false} FlatMapMembership<T, U>(xs: seq<T>, f: T -> seq<U>, u: U)
    ensures u in FlatMap(xs, f) <==> exists i :: 0 <= i < |xs| && u in f(xs[i])
  {
    if xs != [] {
      var init := xs[..|xs| - 1];
      FlatMapMembership(init, f, u);
      if u in FlatMap(xs, f) && u !in f(xs[|xs| - 1]) {
        var i :| 0 <= i < |init| && u in f(init[i]);
        assert xs[i] == init[i];
      }
      if exists i :: 0 <= i < |xs| && u in f(xs[i]) {
        var i :| 0 <= i < |xs| && u in f(xs[i]);
        if i < |xs| - 1 {
          assert init[i] == xs[i];
        }
      }
    }
  }

  /** The total length of a flattening is the sum of the parts' lengths. */
  function TotalLength<T, U>(xs: seq<T>, f: T -> seq<U>): nat {
    if xs == [] then 0 else TotalLength(xs[..|xs| - 1], f) + |f(xs[|xs| - 1])|
  }

  lemma {:induction false} FlatMapLength<T, U>(xs: seq<T>, f: T -> seq<U>)
    ensures |FlatMap(xs, f)| == TotalLength(xs, f)
  {
    if xs != [] {
      FlatMapLength(xs[..|xs| - 1], f);
    }
  }

  function AccessoriesOf(homes: seq<Home>): seq<Accessory> {
    FlatMap(homes, (h: Home) => h.accessories)
  }

  function ServiceCharacteristics(s: Service): seq<Characteristic> {
    s.characteristics
  }

  function AccessoryCharacteristics(a: Accessory): seq<Characteristic> {
    FlatMap(a.services, ServiceCharacteristics)
  }

  function HomeCharacteristics(h: Home): seq<Characteristic> {
    FlatMap(h.accessories, AccessoryCharacteristics)
  }

  /** Every characteristic of the directory in home, accessory, service, characteristic order. */
  function CharacteristicsOf(homes: seq<Home>): seq<Characteristic> {
    FlatMap(homes, HomeCharacteristics)
  }

  /** The scan of Swift's `first(where: { $0.uniqueIdentifier == id })`: the index of the first match, or |cs|. */
  function FirstIndex(cs: seq<Characteristic>, id: Uuid): (k: nat)
    ensures k <= |cs|
    ensures forall j :: 0 <= j < k ==> cs[j].uniqueIdentifier != id
    ensures k < |cs| ==> cs[k].uniqueIdentifier == id
  {
    if cs == [] then 0
    else if cs[0].uniqueIdentifier == id then 0
    else FirstIndex(cs[1..], id) + 1
  }

  /** The first match is the only index with no match before it that is either a match or the end. */
  lemma FirstIndexUnique(cs: seq<Characteristic>, id: Uuid, k: nat)
    requires k <= |cs|
    requires forall j :: 0 <= j < k ==> cs[j].uniqueIdentifier != id
    requires k < |cs| ==> cs[k].uniqueIdentifier == id
    ensures FirstIndex(cs, id) == k
  {
  }

  /** `first(where:)` on the identifier. */
  function FirstWithId(cs: seq<Characteristic>, id: Uuid): (r: Option<Characteristic>)
    ensures r.None? <==> forall c :: c in cs ==> c.uniqueIdentifier != id
    ensures r.Some? ==> r.value.uniqueIdentifier == id && r.value == cs[FirstIndex(cs, id)]
  {
    var k := FirstIndex(cs, id);
    if k < |cs| then Some(cs[k]) else None
  }

  /** The first match in a prefix is the first match of the whole sequence. */
  lemma FirstWithIdPrefix(p: seq<Characteristic>, q: seq<Characteristic>, id: Uuid)
    requires p <= q && FirstWithId(p, id).Some?
    ensures FirstWithId(q, id) == FirstWithId(p, id)
  {
    var k := FirstIndex(p, id);
    assert forall j :: 0 <= j <= k ==> q[j] == p[j];
    FirstIndexUnique(q, id, k);
  }

  /** Searching a concatenation whose first part has no match is searching the second part. */
  lemma FirstWithIdSkip(p: seq<Characteristic>, q: seq<Characteristic>, id: Uuid)
    requires FirstWithId(p, id).None?
    ensures FirstWithId(p + q, id) == FirstWithId(q, id)
  {
    var k := FirstIndex(q, id);
    assert forall j :: 0 <= j < |p| ==> (p + q)[j] == p[j];
    assert forall j :: 0 <= j < k ==> (p + q)[|p| + j] == q[j];
    FirstIndexUnique(p + q, id, |p| + k);
  }

  /** `characteristic(with:)` returns nil exactly when no characteristic anywhere carries the id. */
  lemma LookupFailsOnlyWhenAbsent(homes: seq<Home>, id: Uuid)
    ensures FirstWithId(CharacteristicsOf(homes), id).None? <==>
            forall h, a, s, c :: h in homes && a in h.accessories && s in a.services && c in s.characteristics ==>
                                 c.uniqueIdentifier != id
  {
    var all := CharacteristicsOf(homes);
    forall h, a, s, c | h in homes && a in h.accessories && s in a.services && c in s.characteristics
      ensures c in all
    {
      var i :| 0 <= i < |homes| && homes[i] == h;
      var j :| 0 <= j < |h.accessories| && h.accessories[j] == a;
      var k :| 0 <= k < |a.services| && a.services[k] == s;
      FlatMapMembership(a.services, ServiceCharacteristics, c);
      FlatMapMembership(h.accessories, AccessoryCharacteristics, c);
      FlatMapMembership(homes, HomeCharacteristics, c);
    }
    forall c | c in all
      ensures exists h, a, s :: h in homes && a in h.accessories && s in a.services && c in s.characteristics
    {
      FlatMapMembership(homes, HomeCharacteristics, c);
      var i :| 0 <= i < |homes| && c in HomeCharacteristics(homes[i]);
      FlatMapMembership(homes[i].accessories, AccessoryCharacteristics, c);
      var j :| 0 <= j < |homes[i].accessories| && c in AccessoryCharacteristics(homes[i].accessories[j]);
      var a := homes[i].accessories[j];
      FlatMapMembership(a.services, ServiceCharacteristics, c);
      var k :| 0 <= k < |a.services| && c in ServiceCharacteristics(a.services[k]);
      assert homes[i] in homes && a in homes[i].accessories && a.services[k] in a.services;
    }
  }

  /** `refreshData` caches exactly the accessories of the homes, in order. */
  lemma CachedAccessoriesAreTheHomes(homes: seq<Home>)
    ensures forall a :: a in AccessoriesOf(homes) <==> exists i :: 0 <= i < |homes| && a in homes[i].accessories
    ensures |AccessoriesOf(homes)| == TotalLength(homes, (h: Home) => h.accessories)
  {
    forall a ensures a in AccessoriesOf(homes) <==> exists i :: 0 <= i < |homes| && a in homes[i].accessories {
      FlatMapMembership(homes, (h: Home) => h.accessories, a);
    }
    FlatMapLength(homes, (h: Home) => h.accessories);
  }

  // ---------------------------------------------------------------------
  // The objects

  /** The platform's home manager: its `homes` change behind the app's back. */
  class HomeDirectory {
    var homes: seq<Home>

    constructor (homes: seq<Home>)
      ensures this.homes == homes
    {
      this.homes := homes;
    }
  }

  /** The metadata of the refresh log entry. */
  function RefreshMetadata(homeCount: nat, accessoryCount: nat): (m: map<string, string>)
    ensures m.Keys == {"homes", "accessories"}
    ensures Decimal.ParseInt(m["homes"]) == Some(homeCount)
    ensures Decimal.ParseInt(m["accessories"]) == Some(accessoryCount)
  {
    Decimal.ParseIntToString(homeCount);
    Decimal.ParseIntToString(accessoryCount);
    map["homes" := Decimal.IntToString(homeCount), "accessories" := Decimal.IntToString(accessoryCount)]
  }

  class HomeKitManager {
    const directory: HomeDirectory
    const logger: EventLog
    var homes: seq<Home>
    var accessories: seq<Accessory>
    /** Whether the directory's delegate is this manager. */
    var delegateAttached: bool

    constructor (directory: HomeDirectory, logger: EventLog)
      ensures this.directory == directory && this.logger == logger
      ensures homes == [] && accessories == [] && !delegateAttached
    {
      this.directory := directory;
      this.logger := logger;
      homes := [];
      accessories := [];
      delegateAttached := false;
    }

    method Start()
      modifies this, logger
      ensures delegateAttached
      ensures homes == directory.homes && accessories == AccessoriesOf(directory.homes)
      ensures logger.events == old(logger.events) +
        [Info("homekit_start", map[]), Info("homekit_refresh", RefreshMetadata(|homes|, |accessories|))]
    {
      delegateAttached := true;
      logger.Log("info", "homekit_start", map[]);
      RefreshData();
    }

    method Stop()
      modifies this, logger
      ensures !delegateAttached && homes == [] && accessories == []
      ensures logger.events == old(logger.events) + [Info("homekit_stop", map[])]
    {
      delegateAttached := false;
      homes := [];
      accessories := [];
      logger.Log("info", "homekit_stop", map[]);
    }

    method RefreshData()
      modifies this`homes, this`accessories, logger
      ensures homes == directory.homes && accessories == AccessoriesOf(directory.homes)
      ensures logger.events == old(logger.events) +
        [Info("homekit_refresh", RefreshMetadata(|homes|, |accessories|))]
    {
      homes := directory.homes;
      accessories := FlatMap(directory.homes, (h: Home) => h.accessories);
      logger.Log("info", "homekit_refresh", RefreshMetadata(|homes|, |accessories|));
    }

    /** `characteristic(with: UUID)`: the first match in the live directory, not in the cache. */
    method CharacteristicWithId(id: Uuid) returns (r: Option<Characteristic>)
      ensures r == FirstWithId(CharacteristicsOf(directory.homes), id)
    {
      var homes := directory.homes;
      // What the scan has passed over, home by home, accessory by accessory, service by service.
      ghost var seenHomes: seq<Characteristic> := [];
      var h := 0;
      while h < |homes|
        invariant 0 <= h <= |homes|
        invariant seenHomes == CharacteristicsOf(homes[..h]) && NoMatch(seenHomes, id)
      {
        var accessories := homes[h].accessories;
        ghost var seenAccessories: seq<Characteristic> := [];
        var a := 0;
        while a < |accessories|
          invariant 0 <= a <= |accessories|
          invariant seenAccessories == FlatMap(accessories[..a], AccessoryCharacteristics) && NoMatch(seenAccessories, id)
        {
          var services := accessories[a].services;
          ghost var seenServices: seq<Characteristic> := [];
          var s := 0;
          while s < |services|
            invariant 0 <= s <= |services|
            invariant seenServices == FlatMap(services[..s], ServiceCharacteristics) && NoMatch(seenServices, id)
          {
            var found := FirstWithId(services[s].characteristics, id);
            if found.Some? {
              FoundInService(homes, h, a, s, seenHomes, seenAccessories, seenServices, id);
              return found;
            }
            FlatMapSnoc(services, s, ServiceCharacteristics);
            seenServices := seenServices + services[s].characteristics;
            s := s + 1;
          }
          assert services[..s] == services;
          FlatMapSnoc(accessories, a, AccessoryCharacteristics);
          seenAccessories := seenAccessories + seenServices;
          a := a + 1;
        }
        assert accessories[..a] == accessories;
        FlatMapSnoc(homes, h, HomeCharacteristics);
        seenHomes := seenHomes + seenAccessories;
        h := h + 1;
      }
      assert homes[..h] == homes;
      return None;
    }

    /** `characteristic(with: String)`: nil when the text is not a UUID, else the UUID search. */
    method CharacteristicWithIdString(idString: string, parseUuid: string -> Option<Uuid>) returns (r: Option<Characteristic>)
      ensures parseUuid(idString).None? ==> r.None?
      ensures parseUuid(idString).Some? ==> r == FirstWithId(CharacteristicsOf(directory.homes), parseUuid(idString).value)
    {
      var id := parseUuid(idString);
      if id.None? {
        return None;
      }
      r := CharacteristicWithId(id.value);
    }

    /** Delegate callback: the homes changed. */
    method HomesDidUpdate()
      modifies this`homes, this`accessories, logger
      ensures homes == directory.homes && accessories == AccessoriesOf(directory.homes)
      ensures logger.events == old(logger.events) +
        [Info("homekit_homes_updated", map[]), Info("homekit_refresh", RefreshMetadata(|homes|, |accessories|))]
    {
      logger.Log("info", "homekit_homes_updated", map[]);
      RefreshData();
    }

    /** Delegate callback: the authorization status (its raw value) changed. */
    method AuthorizationDidChange(status: int)
      modifies this`homes, this`accessories, logger
      ensures homes == directory.homes && accessories == AccessoriesOf(directory.homes)
      ensures logger.events == old(logger.events) +
        [Info("homekit_auth_status", map["status" := Decimal.IntToString(status)]),
         Info("homekit_refresh", RefreshMetadata(|homes|, |accessories|))]
    {
      logger.Log("info", "homekit_auth_status", map["status" := Decimal.IntToString(status)]);
      RefreshData();
    }
  }

  /** No characteristic of cs carries the id. */
  predicate NoMatch(cs: seq<Characteristic>, id: Uuid) {
    forall c :: c in cs ==> c.uniqueIdentifier != id
  }

  /** A match in q, after a part p with no match, is the first match of anything p + q begins. */
  lemma FirstMatchAfter(p: seq<Characteristic>, q: seq<Characteristic>, whole: seq<Characteristic>, id: Uuid)
    requires NoMatch(p, id) && FirstWithId(q, id).Some? && p + q <= whole
    ensures FirstWithId(whole, id) == FirstWithId(q, id)
  {
    FirstWithIdSkip(p, q, id);
    FirstWithIdPrefix(p + q, whole, id);
  }

  /**
   * A match in service s of accessory a of home h, after nothing matched before
   * it, is the first match of the whole directory.
   */
  lemma FoundInService(homes: seq<Home>, h: nat, a: nat, s: nat,
                       seenHomes: seq<Characteristic>, seenAccessories: seq<Characteristic>,
                       seenServices: seq<Characteristic>, id: Uuid)
    requires h < |homes| && a < |homes[h].accessories| && s < |homes[h].accessories[a].services|
    requires seenHomes == CharacteristicsOf(homes[..h]) && NoMatch(seenHomes, id)
    requires seenAccessories == FlatMap(homes[h].accessories[..a], AccessoryCharacteristics) && NoMatch(seenAccessories, id)
    requires seenServices == FlatMap(homes[h].accessories[a].services[..s], ServiceCharacteristics) && NoMatch(seenServices, id)
    requires FirstWithId(homes[h].accessories[a].services[s].characteristics, id).Some?
    ensures FirstWithId(CharacteristicsOf(homes), id) == FirstWithId(homes[h].accessories[a].services[s].characteristics, id)
  {
    var accessories := homes[h].accessories;
    var services := accessories[a].services;
    var cs := services[s].characteristics;
    FlatMapPrefix(services, s, ServiceCharacteristics);
    FirstMatchAfter(seenServices, cs, AccessoryCharacteristics(accessories[a]), id);
    FlatMapPrefix(accessories, a, AccessoryCharacteristics);
    FirstMatchAfter(seenAccessories, AccessoryCharacteristics(accessories[a]), HomeCharacteristics(homes[h]), id);
    FlatMapPrefix(homes, h, HomeCharacteristics);
    FirstMatchAfter(seenHomes, HomeCharacteristics(homes[h]), CharacteristicsOf(homes), id);
  }
}
