/** What the resolver promises: the classification order, the lower-cased keys, when a
    lookup key exists, the merge precedence of the two directories, and the caching of the
    result under its lookup key. */
module ResolverProperties {
  import opened JsStrings
  import opened Resolver

  /** Classification is first-match-wins: a valid client address, then a valid key, then ".eth",
      then the self aliases, then the reserved names, and otherwise the key as a handle. */
  lemma SeededFirstMatch(isAddress: string -> bool, key: string, clientAddress: Option<string>)
    ensures
      var k, client, d := Lower(key), LowerOpt(clientAddress), Seeded(isAddress, key, clientAddress);
      var clientValid := isAddress(OrElse(client, ""));
      && (clientValid ==>
            d.address == client && d.ensDomain == None && d.converseUsername == None)
      && (!clientValid && isAddress(k) ==>
            d.address == Some(k) && d.ensDomain == None && d.converseUsername == None)
      && (!clientValid && !isAddress(k) && Contains(k, ".eth") ==>
            d.address == None && d.ensDomain == Some(k) && d.converseUsername == None)
      && (!clientValid && !isAddress(k) && !Contains(k, ".eth") && k in SelfAliases ==>
            d.address == client && d.ensDomain == Some(k[1..] + ".eth") && d.converseUsername == Some(k[1..]))
      && (!clientValid && !isAddress(k) && !Contains(k, ".eth") && k == "@alix" ==>
            d.address == Some(AlixAddress) && d.ensDomain == None && d.converseUsername == Some("alix"))
      && (!clientValid && !isAddress(k) && !Contains(k, ".eth") && k == "@bo" ==>
            d.address == Some(BoAddress) && d.ensDomain == None && d.converseUsername == Some("bo"))
      && (!clientValid && !isAddress(k) && !Contains(k, ".eth") && k !in SelfAliases && k != "@alix" && k != "@bo" ==>
            d.address == None && d.ensDomain == None && d.converseUsername == Some(k))
  {
    var i := Classify(isAddress, key, clientAddress);
    assert Seeded(isAddress, key, clientAddress) == WithPreferredName(Seed(i));
    if Lower(key) in SelfAliases {
      SelfAliasDropsAt(Lower(key));
    }
  }

  /** Each self alias starts with its only "@". */
  lemma SelfAliasDropsAt(k: string)
    requires k in SelfAliases
    ensures ReplaceFirst(k, '@') == k[1..]
  {
  }

  /** Before any lookup the display name is the seeded domain, else the seeded handle, else "Friend". */
  lemma SeededPreferredName(isAddress: string -> bool, key: string, clientAddress: Option<string>)
    ensures
      var d := Seeded(isAddress, key, clientAddress);
      && Truthy(d.preferredName)
      && d.preferredName.value == OrElse(d.ensDomain, OrElse(d.converseUsername, "Friend"))
  {
  }

  /** Classification only looks at the lower-cased key and client address. */
  lemma SeededIgnoresCase(isAddress: string -> bool, key1: string, key2: string, client1: Option<string>, client2: Option<string>)
    requires Lower(key1) == Lower(key2) && LowerOpt(client1) == LowerOpt(client2)
    ensures Seeded(isAddress, key1, client1) == Seeded(isAddress, key2, client2)
  {
  }

  /** Every string an intent carries is lower-cased. */
  predicate IntentIsLower(i: Intent) {
    match i
    case ActorAddress(a) => IsLowerOpt(a)
    case KeyAddress(a) => IsLower(a)
    case EnsName(d) => IsLower(d)
    case SelfAlias(n, a) => IsLower(n) && IsLowerOpt(a)
    case ReservedName(h, a) => IsLower(h) && IsLower(a)
    case Handle(h) => IsLower(h)
  }

  /** Classification works on lower-cased strings and produces lower-cased strings. */
  lemma ClassifyLowerCase(isAddress: string -> bool, key: string, clientAddress: Option<string>)
    ensures IntentIsLower(Classify(isAddress, key, clientAddress))
  {
    LowerIsLower(key);
    if clientAddress.Some? {
      LowerIsLower(clientAddress.value);
    }
    match Classify(isAddress, key, clientAddress)
    case SelfAlias(_, _) =>
      ReplaceFirstKeepsLower(Lower(key), '@');
    case ReservedName(_, _) =>
      LowerIsLower(AlixChecksumAddress);
      LowerIsLower(BoChecksumAddress);
    case _ =>
  }

  /** Seeding from a lower-cased intent only stores lower-cased strings. */
  lemma SeedLowerCase(i: Intent)
    requires IntentIsLower(i)
    ensures var d := Seed(i); IsLowerOpt(d.address) && IsLowerOpt(d.ensDomain) && IsLowerOpt(d.converseUsername)
  {
    if i.SelfAlias? {
      AppendKeepsLower(i.alias, ".eth");
    }
  }

  /** Every seeded field is lower-cased. */
  lemma SeededLowerCase(isAddress: string -> bool, key: string, clientAddress: Option<string>)
    ensures
      var d := Seeded(isAddress, key, clientAddress);
      IsLowerOpt(d.address) && IsLowerOpt(d.ensDomain) && IsLowerOpt(d.converseUsername)
  {
    ClassifyLowerCase(isAddress, key, clientAddress);
    SeedLowerCase(Classify(isAddress, key, clientAddress));
  }

  /** The lookup key is lower-cased, so the cache entry `Lower(keyToUse)` is `keyToUse` itself. */
  lemma KeyToUseLowerCase(isAddress: string -> bool, key: string, clientAddress: Option<string>)
    ensures
      var kt := KeyToUse(Seeded(isAddress, key, clientAddress));
      Truthy(kt) ==> IsLower(kt.value) && Lower(kt.value) == kt.value
  {
    var d := Seeded(isAddress, key, clientAddress);
    SeededLowerCase(isAddress, key, clientAddress);
    if Truthy(d.address) {
      LowerIsLower(d.address.value);
    }
    var kt := KeyToUse(d);
    if Truthy(kt) {
      LowerOfLower(kt.value);
    }
  }

  /** Assuming the validator rejects "", there is no lookup key exactly when the key is
      empty and the client address is not valid. */
  lemma {:induction false} NoKeyToUseIff(isAddress: string -> bool, key: string, clientAddress: Option<string>)
    requires !isAddress("")
    ensures !Truthy(KeyToUse(Seeded(isAddress, key, clientAddress))) <==>
            key == "" && !isAddress(OrElse(LowerOpt(clientAddress), ""))
  {
    var k, client := Lower(key), LowerOpt(clientAddress);
    LowerEmpty(key);
    var d := Seeded(isAddress, key, clientAddress);
    if isAddress(OrElse(client, "")) {
      assert Truthy(client);
      assert Truthy(d.address);
    } else if key == "" {
      assert !Contains(k, ".eth");
      assert d.converseUsername == Some("");
    } else if isAddress(k) {
      assert Truthy(d.address);
    } else if Contains(k, ".eth") {
      assert Truthy(d.ensDomain);
    } else if k in SelfAliases {
      assert Truthy(d.ensDomain);
    } else {
      assert Truthy(d.address) || Truthy(d.converseUsername);
    }
  }

  /** A present Converse address overrides the ENS address, which overrides the seeded one;
      the result stays lower-cased. */
  lemma ResolvedAddress(seed: UserInfo, keyToUse: string, ens: Option<EnsData>, converse: Option<ConverseProfile>)
    requires IsLowerOpt(seed.address)
    ensures
      var r := Resolved(seed, keyToUse, ens, converse);
      var fromConverse := converse.Some? && Truthy(converse.value.address);
      var fromEns := ens.Some? && Truthy(ens.value.address);
      && (fromConverse ==> r.address == LowerOpt(converse.value.address))
      && (!fromConverse && fromEns ==> r.address == LowerOpt(ens.value.address))
      && (!fromConverse && !fromEns ==> r.address == seed.address)
      && IsLowerOpt(r.address)
  {
    if seed.address.Some? {
      LowerOfLower(seed.address.value);
    }
    if ens.Some? && ens.value.address.Some? {
      LowerIsLower(ens.value.address.value);
      LowerIdempotent(ens.value.address.value);
    }
    if converse.Some? && converse.value.address.Some? {
      LowerIsLower(converse.value.address.value);
    }
  }

  /** A present Converse avatar overrides the ENS `avatar_url`, which overrides the seeded one. */
  lemma ResolvedAvatar(seed: UserInfo, keyToUse: string, ens: Option<EnsData>, converse: Option<ConverseProfile>)
    ensures
      var r := Resolved(seed, keyToUse, ens, converse);
      var fromConverse := converse.Some? && Truthy(converse.value.avatar);
      var fromEns := ens.Some? && Truthy(ens.value.avatarUrl);
      && (fromConverse ==> r.avatar == converse.value.avatar)
      && (!fromConverse && fromEns ==> r.avatar == ens.value.avatarUrl)
      && (!fromConverse && !fromEns ==> r.avatar == seed.avatar)
  {
  }

  /** The Converse handle is `formattedName`, else `name`, else the seeded handle; ENS never changes it. */
  lemma ResolvedConverseUsername(seed: UserInfo, keyToUse: string, ens: Option<EnsData>, converse: Option<ConverseProfile>)
    ensures
      var r := Resolved(seed, keyToUse, ens, converse);
      && (converse.Some? && Truthy(converse.value.formattedName) ==> r.converseUsername == converse.value.formattedName)
      && (converse.Some? && !Truthy(converse.value.formattedName) && Truthy(converse.value.name) ==>
            r.converseUsername == converse.value.name)
      && (converse.None? || (!Truthy(converse.value.formattedName) && !Truthy(converse.value.name)) ==>
            r.converseUsername == seed.converseUsername)
  {
  }

  /** A present `ens` name replaces the domain; Converse never changes it. */
  lemma ResolvedEnsDomain(seed: UserInfo, keyToUse: string, ens: Option<EnsData>, converse: Option<ConverseProfile>)
    ensures
      var r := Resolved(seed, keyToUse, ens, converse);
      && (ens.Some? && Truthy(ens.value.ens) ==> r.ensDomain == ens.value.ens)
      && (ens.None? || !Truthy(ens.value.ens) ==> r.ensDomain == seed.ensDomain)
  {
  }

  /** The raw ENS record is kept exactly when one was parsed, and the Converse endpoint is
      recorded exactly when a Converse body was parsed; it is the profile URL of the lookup
      key with its first "@" removed. */
  lemma ResolvedRecordsSources(seed: UserInfo, keyToUse: string, ens: Option<EnsData>, converse: Option<ConverseProfile>)
    ensures
      var r := Resolved(seed, keyToUse, ens, converse);
      && (ens.Some? ==> r.ensInfo == ens)
      && (ens.None? ==> r.ensInfo == seed.ensInfo)
      && (converse.Some? ==> r.converseEndpoint == Some(ConverseEndpointUrl + ReplaceFirst(keyToUse, '@')))
      && (converse.None? ==> r.converseEndpoint == seed.converseEndpoint)
  {
  }

  /** After the lookups the display name is recomputed from the merged fields and is never empty. */
  lemma ResolvedPreferredName(seed: UserInfo, keyToUse: string, ens: Option<EnsData>, converse: Option<ConverseProfile>)
    ensures
      var r := Resolved(seed, keyToUse, ens, converse);
      && Truthy(r.preferredName)
      && r.preferredName.value == OrElse(r.ensDomain, OrElse(r.converseUsername, "Friend"))
  {
  }

  /** When both lookups fail, the record that is cached is the seeded one: partial results are cached. */
  lemma FailedLookupsKeepSeed(isAddress: string -> bool, key: string, clientAddress: Option<string>, keyToUse: string)
    ensures
      var seed := Seeded(isAddress, key, clientAddress);
      Resolved(seed, keyToUse, None, None) == seed
  {
  }

  /** The self alias "@me" loses to a valid client address: the address is seeded and no domain is. */
  lemma MeWithValidClient(isAddress: string -> bool, clientAddress: string)
    requires clientAddress != "" && isAddress(Lower(clientAddress))
    ensures
      var d := Seeded(isAddress, "@me", Some(clientAddress));
      && d.address == Some(Lower(clientAddress)) && d.ensDomain == None && d.converseUsername == None
      && KeyToUse(d) == Some(Lower(clientAddress))
  {
    LowerIdempotent(clientAddress);
  }

  /** Without a valid client address, "@me" seeds the domain "me.eth" and the handle "me". */
  lemma MeWithoutValidClient(isAddress: string -> bool, clientAddress: Option<string>)
    requires !isAddress(OrElse(LowerOpt(clientAddress), "")) && !isAddress("@me")
    ensures
      var d := Seeded(isAddress, "@me", clientAddress);
      && d.address == LowerOpt(clientAddress) && d.ensDomain == Some("me.eth") && d.converseUsername == Some("me")
      && d.preferredName == Some("me.eth")
  {
    assert Lower("@me") == "@me";
    assert ReplaceFirst("@me", '@') == "@me"[1..] == "me";
    assert "me" + ".eth" == "me.eth";
    if Contains("@me", ".eth") {
      ContainsNeedsFirstChar("@me", ".eth");
    }
  }

  /** An ENS name is looked up under itself, at the ENS service and at Converse. */
  lemma EnsNameKey(isAddress: string -> bool, clientAddress: Option<string>)
    requires !isAddress(OrElse(LowerOpt(clientAddress), "")) && !isAddress("vitalik.eth")
    ensures
      var d := Seeded(isAddress, "vitalik.eth", clientAddress);
      && d.ensDomain == Some("vitalik.eth") && d.address == None
      && KeyToUse(d) == Some("vitalik.eth")
      && ConverseEndpoint("vitalik.eth") == ConverseEndpointUrl + "vitalik.eth"
  {
    assert Lower("vitalik.eth") == "vitalik.eth";
    assert "vitalik.eth" == "vitalik" + ".eth";
    ContainsSuffix("vitalik", ".eth");
    assert '@' !in "vitalik.eth";
  }

  /** "@alix", in any letter case, seeds the reserved lower-cased address and the handle "alix". */
  lemma ReservedAlix(isAddress: string -> bool, key: string, clientAddress: Option<string>)
    requires Lower(key) == "@alix"
    requires !isAddress(OrElse(LowerOpt(clientAddress), "")) && !isAddress("@alix")
    ensures
      var d := Seeded(isAddress, key, clientAddress);
      && d.address == Some(AlixAddress)
      && d.converseUsername == Some("alix") && d.ensDomain == None
      && d.preferredName == Some("alix")
      && KeyToUse(d) == d.address
  {
    if Contains("@alix", ".eth") {
      ContainsNeedsFirstChar("@alix", ".eth");
    }
    LowerIsLower(AlixChecksumAddress);
    LowerOfLower(AlixAddress);
  }

  /** "@bo", in any letter case, seeds the reserved lower-cased address and the handle "bo". */
  lemma ReservedBo(isAddress: string -> bool, key: string, clientAddress: Option<string>)
    requires Lower(key) == "@bo"
    requires !isAddress(OrElse(LowerOpt(clientAddress), "")) && !isAddress("@bo")
    ensures
      var d := Seeded(isAddress, key, clientAddress);
      && d.address == Some(BoAddress)
      && d.converseUsername == Some("bo") && d.ensDomain == None
      && d.preferredName == Some("bo")
      && KeyToUse(d) == d.address
  {
    if Contains("@bo", ".eth") {
      ContainsNeedsFirstChar("@bo", ".eth");
    }
    LowerIsLower(BoChecksumAddress);
    LowerOfLower(BoAddress);
  }

  /** The cache is case-insensitive. */
  lemma GetIgnoresCase(cache: UserInfoCache, key1: string, key2: string)
    requires Lower(key1) == Lower(key2)
    ensures cache.Get(key1) == cache.Get(key2)
  {
  }

  /** The cache invariant makes every stored entry reachable: `get` of a stored key finds it. */
  lemma ValidReachable(cache: UserInfoCache)
    requires cache.Valid()
    ensures forall k :: k in cache.entries ==> cache.Get(k) == Some(cache.entries[k])
  {
    forall k | k in cache.entries
      ensures cache.Get(k) == Some(cache.entries[k])
    {
      LowerOfLower(k);
    }
  }

  /** A full resolution stores its record under the lookup key; asking again with that key,
      in any letter case, is a cache hit that returns the same record and writes nothing. */
  method ResolveThenHit(cache: UserInfoCache, isAddress: string -> bool, key: string, clientAddress: Option<string>,
                        ensLookup: Option<EnsData>, converseLookup: Option<ConverseProfile>,
                        again: string, laterClient: Option<string>,
                        laterEns: Option<EnsData>, laterConverse: Option<ConverseProfile>)
    returns (first: UserInfo, second: UserInfo)
    requires cache.Valid() && cache.Get(key).None?
    requires Truthy(KeyToUse(Seeded(isAddress, key, clientAddress)))
    requires Lower(again) == Lower(KeyToUse(Seeded(isAddress, key, clientAddress)).value)
    modifies cache
    ensures cache.Valid()
    ensures second == first
    ensures cache.entries == old(cache.entries)[Lower(again) := first]
  {
    first := GetUserInfo(cache, isAddress, StringKey(key), clientAddress, ensLookup, converseLookup);
    second := GetUserInfo(cache, isAddress, StringKey(again), laterClient, laterEns, laterConverse);
  }

  /** "@alix" is cached under its reserved address, not under the name that was asked for. */
  lemma ReservedAlixCachedElsewhere(isAddress: string -> bool, key: string, clientAddress: Option<string>)
    requires Lower(key) == "@alix"
    requires !isAddress(OrElse(LowerOpt(clientAddress), "")) && !isAddress("@alix")
    ensures
      var kt := KeyToUse(Seeded(isAddress, key, clientAddress));
      Truthy(kt) && Lower(kt.value) == AlixAddress && AlixAddress != Lower(key)
  {
    ReservedAlix(isAddress, key, clientAddress);
    assert |AlixAddress| == |AlixChecksumAddress| == 42;
  }

  /** So asking for "@alix" twice resolves twice: after the first full resolution the name
      still misses the cache, and the second call fetches again. */
  method ReservedAlixRepeatMisses(cache: UserInfoCache, isAddress: string -> bool, key: string, clientAddress: Option<string>,
                                  ensLookup: Option<EnsData>, converseLookup: Option<ConverseProfile>)
    returns (first: UserInfo)
    requires cache.Valid() && cache.Get(key).None?
    requires Lower(key) == "@alix"
    requires !isAddress(OrElse(LowerOpt(clientAddress), "")) && !isAddress("@alix")
    modifies cache
    ensures cache.Valid()
    ensures cache.Get(key).None?
  {
    ReservedAlixCachedElsewhere(isAddress, key, clientAddress);
    first := GetUserInfo(cache, isAddress, StringKey(key), clientAddress, ensLookup, converseLookup);
  }
}
