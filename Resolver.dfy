/** The concierge identity resolver: the records it builds, the case-insensitive
    cache it keeps, and `GetUserInfo`, which classifies a key, seeds a record,
    merges the two directory lookups into it and caches the result. */
module Resolver {
  import opened JsStrings

  /** Base URL of the Converse profile directory. */
  const ConverseEndpointUrl: string := "https://converse.xyz/profile/"

  /** The relative aliases that refer to the asking actor. */
  const SelfAliases: seq<string> := ["@user", "@me", "@bot"]

  /** The reserved demo identities, in the checksummed form the source writes them in,
      and lower-cased, the form the source stores. */
  const AlixChecksumAddress: string := "0x3a044b218BaE80E5b9E16609443A192129A67BeA"
  const BoChecksumAddress: string := "0xbc3246461ab5e1682baE48fa95172CDf0689201a"
  const AlixAddress: string := Lower(AlixChecksumAddress)
  const BoAddress: string := Lower(BoChecksumAddress)

  datatype Wallets = Wallets(eth: Option<string>)

  /** The record returned by the ENS data service, already parsed. */
  datatype EnsData = EnsData(
    address: Option<string>,
    avatar: Option<string>,
    avatarSmall: Option<string>,
    converse: Option<string>,
    avatarUrl: Option<string>,
    contentHash: Option<string>,
    description: Option<string>,
    ens: Option<string>,
    ensPrimary: Option<string>,
    github: Option<string>,
    resolverAddress: Option<string>,
    twitter: Option<string>,
    url: Option<string>,
    wallets: Option<Wallets>)

  /** The record returned by the Converse profile directory, already parsed. */
  datatype ConverseProfile = ConverseProfile(
    address: Option<string>,
    onXmtp: bool,
    avatar: Option<string>,
    formattedName: Option<string>,
    name: Option<string>)

  /** The resolved identity. Every field may be unset. */
  datatype UserInfo = UserInfo(
    ensDomain: Option<string>,
    address: Option<string>,
    preferredName: Option<string>,
    converseUsername: Option<string>,
    ensInfo: Option<EnsData>,
    avatar: Option<string>,
    converseEndpoint: Option<string>)

  /** The record `GetUserInfo` starts from: every field unset. */
  const Unset: UserInfo := UserInfo(None, None, None, None, None, None, None)

  /** The dynamically typed `key` argument: a string, or any other JavaScript value. */
  datatype KeyArg = StringKey(text: string) | NonStringKey

  /** What kind of identity a key names, decided first-match-wins. */
  datatype Intent =
    | ActorAddress(actor: Option<string>)                // the known actor address is valid
    | KeyAddress(keyAddress: string)                     // the key itself is a valid address
    | EnsName(domain: string)                            // the key mentions ".eth"
    | SelfAlias(alias: string, actor: Option<string>)    // "@user", "@me" or "@bot", without the "@"
    | ReservedName(handle: string, reserved: string)     // "@alix" or "@bo"
    | Handle(handle: string)                             // anything else

  /** The classification chain of `getUserInfo`, on the lower-cased key and client address.
      `isAddress` stands for the address validator of the viem library. */
  function Classify(isAddress: string -> bool, key: string, clientAddress: Option<string>): (r: Intent)
    ensures r.ActorAddress? <==> isAddress(OrElse(LowerOpt(clientAddress), ""))
    ensures r.Handle? ==> r.handle == Lower(key)
  {
    var k := Lower(key);
    var client := LowerOpt(clientAddress);
    if isAddress(OrElse(client, "")) then ActorAddress(client)
    else if isAddress(k) then KeyAddress(k)
    else if Contains(k, ".eth") then EnsName(k)
    else if k in SelfAliases then SelfAlias(ReplaceFirst(k, '@'), client)
    else if k == "@alix" then ReservedName("alix", AlixAddress)
    else if k == "@bo" then ReservedName("bo", BoAddress)
    else Handle(k)
  }

  /** The fields each kind of key seeds, before any lookup. */
  function Seed(i: Intent): (r: UserInfo)
    ensures r.preferredName == None && r.ensInfo == None && r.avatar == None && r.converseEndpoint == None
  {
    match i
    case ActorAddress(a) => Unset.(address := a)
    case KeyAddress(a) => Unset.(address := Some(a))
    case EnsName(d) => Unset.(ensDomain := Some(d))
    case SelfAlias(n, a) => Unset.(address := a, ensDomain := Some(n + ".eth"), converseUsername := Some(n))
    case ReservedName(h, a) => Unset.(address := Some(a), converseUsername := Some(h))
    case Handle(h) => Unset.(converseUsername := Some(h))
  }

  /** `ensDomain || converseUsername || "Friend"`. */
  function PreferredName(d: UserInfo): (r: string)
    ensures r != ""
    ensures Truthy(d.ensDomain) ==> r == d.ensDomain.value
    ensures !Truthy(d.ensDomain) && Truthy(d.converseUsername) ==> r == d.converseUsername.value
    ensures !Truthy(d.ensDomain) && !Truthy(d.converseUsername) ==> r == "Friend"
  {
    OrElse(Or(d.ensDomain, d.converseUsername), "Friend")
  }

  /** The record with its display name recomputed; nothing else changes. */
  function WithPreferredName(d: UserInfo): (r: UserInfo)
    ensures Truthy(r.preferredName) && r.preferredName.value == PreferredName(d)
    ensures r.(preferredName := d.preferredName) == d
  {
    d.(preferredName := Some(PreferredName(d)))
  }

  /** The seeded record of a string key, display name included. */
  function Seeded(isAddress: string -> bool, key: string, clientAddress: Option<string>): (r: UserInfo)
    ensures Truthy(r.preferredName)
  {
    WithPreferredName(Seed(Classify(isAddress, key, clientAddress)))
  }

  /** `address?.toLowerCase() || ensDomain || converseUsername`: the key used for both lookups and the cache. */
  function KeyToUse(d: UserInfo): (r: Option<string>)
    ensures Truthy(r) <==> Truthy(d.address) || Truthy(d.ensDomain) || Truthy(d.converseUsername)
    ensures Truthy(d.address) ==> r == LowerOpt(d.address)
    ensures !Truthy(d.address) && Truthy(d.ensDomain) ==> r == d.ensDomain
    ensures !Truthy(d.address) && !Truthy(d.ensDomain) ==> r == d.converseUsername
  {
    Or(LowerOpt(d.address), Or(d.ensDomain, d.converseUsername))
  }

  /** The ENS record merged into `d`, when the ENS request produced one. */
  function MergeEns(d: UserInfo, ens: Option<EnsData>): (r: UserInfo)
    ensures ens.None? ==> r == d
    ensures r.preferredName == d.preferredName && r.converseUsername == d.converseUsername
    ensures r.converseEndpoint == d.converseEndpoint
  {
    match ens
    case None => d
    case Some(e) =>
      d.(ensInfo := ens,
         ensDomain := Or(e.ens, d.ensDomain),
         address := Or(LowerOpt(e.address), LowerOpt(d.address)),
         avatar := Or(e.avatarUrl, d.avatar))
  }

  /** The Converse profile URL for a lookup key: its first "@" is dropped. */
  function ConverseEndpoint(keyToUse: string): (r: string)
    ensures StartsWith(r, ConverseEndpointUrl)
    ensures '@' in keyToUse ==> |r| == |ConverseEndpointUrl| + |keyToUse| - 1
    ensures '@' !in keyToUse ==> r == ConverseEndpointUrl + keyToUse
    ensures forall i :: 0 <= i < |keyToUse| && keyToUse[i] == '@' && '@' !in keyToUse[..i] ==>
              r == ConverseEndpointUrl + keyToUse[..i] + keyToUse[i + 1..]
  {
    ReplaceFirstAtFirst(keyToUse, '@');
    ConverseEndpointUrl + ReplaceFirst(keyToUse, '@')
  }

  /** The Converse profile merged into `d`, when a body was parsed. */
  function MergeConverse(d: UserInfo, converse: Option<ConverseProfile>, endpoint: string): (r: UserInfo)
    ensures converse.None? ==> r == d
    ensures converse.Some? ==> r.converseEndpoint == Some(endpoint)
    ensures r.preferredName == d.preferredName && r.ensDomain == d.ensDomain && r.ensInfo == d.ensInfo
  {
    match converse
    case None => d
    case Some(p) =>
      d.(converseUsername := Or(p.formattedName, Or(p.name, d.converseUsername)),
         address := Or(LowerOpt(p.address), LowerOpt(d.address)),
         avatar := Or(p.avatar, d.avatar),
         converseEndpoint := Some(endpoint))
  }

  /** The record after both lookups, ENS first, with its display name recomputed. */
  function Resolved(seed: UserInfo, keyToUse: string, ens: Option<EnsData>, converse: Option<ConverseProfile>): (r: UserInfo)
    ensures Truthy(r.preferredName)
  {
    WithPreferredName(MergeConverse(MergeEns(seed, ens), converse, ConverseEndpoint(keyToUse)))
  }

  /** The process-wide store of resolved records, keyed by lower-cased key. */
  class UserInfoCache {
    var entries: map<string, UserInfo>

    /** Every key that is stored is lower-cased. */
    ghost predicate Valid()
      reads this
    {
      forall k :: k in entries ==> IsLower(k)
    }

    constructor ()
      ensures Valid() && entries == map[]
    {
      entries := map[];
    }

    function Get(key: string): (r: Option<UserInfo>)
      reads this
      ensures r.Some? <==> Lower(key) in entries
      ensures r.Some? ==> r.value == entries[Lower(key)]
    {
      if Lower(key) in entries then Some(entries[Lower(key)]) else None
    }

    method Set(key: string, data: UserInfo)
      requires Valid()
      modifies this
      ensures Valid()
      ensures entries == old(entries)[Lower(key) := data]
      ensures forall k :: Lower(k) == Lower(key) ==> Get(k) == Some(data)
      ensures forall k :: Lower(k) != Lower(key) ==> Get(k) == old(Get(k))
    {
      LowerIsLower(key);
      entries := entries[Lower(key) := data];
    }

    /** `clear(key)`: a truthy key removes its entry; no key, or "", empties the cache. */
    method Clear(key: Option<string>)
      requires Valid()
      modifies this
      ensures Valid()
      ensures Truthy(key) ==> entries == old(entries) - {Lower(key.value)}
      ensures Truthy(key) ==> forall k :: Lower(k) == Lower(key.value) ==> Get(k) == None
      ensures Truthy(key) ==> forall k :: Lower(k) != Lower(key.value) ==> Get(k) == old(Get(k))
      ensures !Truthy(key) ==> entries == map[]
    {
      if Truthy(key) {
        entries := entries - {Lower(key.value)};
      } else {
        entries := map[];
      }
    }
  }

  /** `getUserInfo(key, clientAddress)` against `cache`. The outcomes of the two network
      requests are given as `ensLookup` and `converseLookup`. `ensLookup` is `None` for a
      non-200 status, a throw, or a parsed body that is falsy; `converseLookup` is `None` for a
      timeout, a throw, or a parsed body that is falsy (a non-ok status is still parsed). */
  method GetUserInfo(cache: UserInfoCache, isAddress: string -> bool, key: KeyArg, clientAddress: Option<string>,
                     ensLookup: Option<EnsData>, converseLookup: Option<ConverseProfile>)
    returns (r: UserInfo)
    requires cache.Valid()
    modifies cache
    ensures cache.Valid()
    ensures key.NonStringKey? ==> r == Unset && cache.entries == old(cache.entries)
    ensures key.StringKey? && old(cache.Get(key.text)).Some? ==>
      r == old(cache.Get(key.text)).value && cache.entries == old(cache.entries)
    ensures key.StringKey? && old(cache.Get(key.text)).None? ==>
      var seed := Seeded(isAddress, key.text, clientAddress);
      var keyToUse := KeyToUse(seed);
      && (!Truthy(keyToUse) ==> r == seed && cache.entries == old(cache.entries))
      && (Truthy(keyToUse) ==>
            r == Resolved(seed, keyToUse.value, ensLookup, converseLookup) &&
            cache.entries == old(cache.entries)[Lower(keyToUse.value) := r])
  {
    var data := Unset;
    if key.NonStringKey? {
      return data;
    }
    var cached := cache.Get(key.text);
    if cached.Some? {
      return cached.value;
    }

    data := SeedUserInfo(isAddress, key.text, clientAddress);
    var keyToUse := Or(LowerOpt(data.address), Or(data.ensDomain, data.converseUsername));
    if !Truthy(keyToUse) {
      return data;
    }
    ghost var seed := data;

    if ensLookup.Some? {
      data := MergeEnsRecord(data, ensLookup.value);
    }
    var username := ReplaceFirst(keyToUse.value, '@');
    var endpoint := ConverseEndpointUrl + username;
    if converseLookup.Some? {
      data := MergeConverseRecord(data, converseLookup.value, endpoint);
    }
    data := data.(preferredName := Some(PreferredName(data)));
    assert data == Resolved(seed, keyToUse.value, ensLookup, converseLookup);
    cache.Set(keyToUse.value, data);
    return data;
  }

  /** The classification chain and the first display name of `getUserInfo`: the record is
      seeded field by field from the lower-cased key and client address. */
  method SeedUserInfo(isAddress: string -> bool, key: string, clientAddress: Option<string>) returns (data: UserInfo)
    ensures data == Seeded(isAddress, key, clientAddress)
  {
    ghost var intent := Classify(isAddress, key, clientAddress);
    data := Unset;
    var k := Lower(key);
    var client := LowerOpt(clientAddress);
    if isAddress(OrElse(client, "")) {
      data := data.(address := client);
    } else if isAddress(k) {
      data := data.(address := Some(k));
    } else if Contains(k, ".eth") {
      data := data.(ensDomain := Some(k));
    } else if k in SelfAliases {
      assert intent == SelfAlias(ReplaceFirst(k, '@'), client);
      data := data.(address := client);
      data := data.(ensDomain := Some(ReplaceFirst(k, '@') + ".eth"));
      data := data.(converseUsername := Some(ReplaceFirst(k, '@')));
    } else if k == "@alix" {
      data := data.(address := Some(AlixAddress));
      data := data.(converseUsername := Some("alix"));
    } else if k == "@bo" {
      data := data.(address := Some(BoAddress));
      data := data.(converseUsername := Some("bo"));
    } else {
      data := data.(converseUsername := Some(k));
    }
    assert data == Seed(intent);
    data := data.(preferredName := Some(PreferredName(data)));
  }

  /** The ENS block of `getUserInfo`, applied to a parsed record. */
  method MergeEnsRecord(data: UserInfo, ensData: EnsData) returns (r: UserInfo)
    ensures r == MergeEns(data, Some(ensData))
  {
    r := data.(ensInfo := Some(ensData));
    r := r.(ensDomain := Or(ensData.ens, r.ensDomain));
    r := r.(address := Or(LowerOpt(ensData.address), LowerOpt(r.address)));
    r := r.(avatar := Or(ensData.avatarUrl, r.avatar));
  }

  /** The Converse block of `getUserInfo`, applied to a parsed profile. */
  method MergeConverseRecord(data: UserInfo, profile: ConverseProfile, endpoint: string) returns (r: UserInfo)
    ensures r == MergeConverse(data, Some(profile), endpoint)
  {
    r := data.(converseUsername := Or(profile.formattedName, Or(profile.name, data.converseUsername)));
    r := r.(address := Or(LowerOpt(profile.address), LowerOpt(r.address)));
    r := r.(avatar := Or(profile.avatar, r.avatar));
    r := r.(converseEndpoint := Some(endpoint));
  }
}
