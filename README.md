# Concierge identity resolver, modelled in Dafny

This project models the identity resolver of the concierge plugin
(`packages/plugin-concierge/src/actions/resolver.ts`). Given a user-supplied key (a wallet
address, an ENS name, a handle, or an alias such as `@me`) and optionally the address of the
asking client, `getUserInfo`:

1. returns an empty record for a key that is not a string;
2. returns the cached record if the key, lower-cased, is in the cache;
3. classifies the lower-cased key first-match-wins and seeds a `UserInfo` record;
4. computes the display name (`ensDomain || converseUsername || "Friend"`) and the lookup key
   (`address || ensDomain || converseUsername`), and returns the seed when there is no lookup key;
5. merges the ENS record, then the Converse profile, recomputes the display name, and stores the
   record in the cache under the lookup key.

Files:

- `JsStrings.dfy` models the JavaScript string operations the resolver uses: `string | undefined`
  as `Option<string>`, JavaScript truthiness, `a || b`, ASCII `toLowerCase`, `includes` and
  `replace("@", "")`. It also proves facts about them, such as `includes` agreeing with "occurs at
  some position" and `replace` removing exactly the first `@`.
- `Resolver.dfy` holds the records (`EnsData`, `ConverseProfile`, `UserInfo`), the cache class
  `UserInfoCache` (a `map` field that `Set` and `Clear` reassign), and the specification functions
  (`Classify`, `Seed`, `Seeded`, `KeyToUse`, `MergeEns`, `MergeConverse`, `Resolved`). It also
  holds the imperative `GetUserInfo`, which builds the record field by field and whose `ensures`
  ties its result and the new cache to those functions.
- `ResolverProperties.dfy` proves the promised properties about the specification functions.
  These are the classification order, lower-cased keys, when a lookup key exists, the merge
  precedence, the display name and the documented scenarios. It ends with two client methods. One shows
  that a repeated lookup under the lookup key is a cache hit. The other shows that a repeated
  `@alix` is not, because that name is cached under its address.

Modelling choices:

- viem's `isAddress` is a parameter `isAddress: string -> bool`. The operations and most lemmas
  assume nothing about it. These lemmas take facts about it as hypotheses, each of which holds for
  viem's validator:
  - `NoKeyToUseIff`: the validator rejects `""`;
  - `MeWithoutValidClient`, `EnsNameKey`, `ReservedAlix`, `ReservedBo`,
    `ReservedAlixCachedElsewhere` and `ReservedAlixRepeatMisses`: the validator rejects the
    literal key of the scenario (`"@me"`, `"vitalik.eth"`, `"@alix"`, `"@bo"`) and the
    lower-cased client address given;
  - `MeWithValidClient`: the client address is not `""` and the validator accepts it lower-cased.
- The two network requests are inputs. `ensLookup: Option<EnsData>` is `None` when the status is
  not 200, the request or the JSON parse throws (an empty or malformed body), or the body parses
  to a falsy value such as `null` (resolver.ts:142). `converseLookup: Option<ConverseProfile>` is
  `None` on a timeout, a throw, or a body that parses to a falsy value (resolver.ts:176). A cache hit ignores them, which models "no lookups".
- The cache is an explicitly constructed object passed to `GetUserInfo`; it is not a singleton.
- The reserved addresses for `@alix` and `@bo` are the constants `AlixAddress` and `BoAddress`.
  Each is defined as `Lower` of the checksummed literal the source writes, as the source computes it.
- `GetUserInfo` calls three helper methods, one per block of the source function: the
  classification chain, the ENS merge and the Converse merge.

Behaviour of the code that a natural reading of the resolver would get wrong, and that the model
follows:

- A present Converse avatar overrides the ENS `avatar_url` (resolver.ts:184). It is not a
  first-source-wins rule.
- `converseEndpoint` is recorded only when a Converse body was parsed (resolver.ts:185). It is not
  recorded for every attempted lookup, and not on a timeout.
- A valid client address beats the `@me` alias (resolver.ts:102-108). So `("@me", valid address)`
  seeds the address and no `me.eth` domain, rather than the alias winning.
- A Converse response that is not ok is still parsed (resolver.ts:170-175); a failed status does
  not skip the merge.
- `clear("")` empties the whole cache, because `""` is falsy (resolver.ts:65); it does not delete
  only the entry for `""`.
- A key is treated as an ENS name when it contains `.eth` anywhere (resolver.ts:106), not only
  when it ends with it.
- A record is cached under its lookup key (resolver.ts:193), not under the key that was asked
  for. When the two differ, as for `@alix`, whose lookup key is its reserved address, asking for
  the same name again misses the cache and resolves again (`ReservedAlixRepeatMisses`). A repeat
  is a hit only when asked with the lookup key (`ResolveThenHit`).

## Model

| member | source | states |
|---|---|---|
| `JsStrings.Truthy` | packages/plugin-concierge/src/actions/resolver.ts:65 | JavaScript truthiness of an optional string: `undefined` and `""` are falsy; it decides `if (key)` here, `!keyToUse` at line 128 and every logical or of the resolver |
| `JsStrings.Or` | packages/plugin-concierge/src/actions/resolver.ts:124 | JavaScript's logical or on optional strings: the result is truthy iff either side is; it is `a` when `a` is truthy, else `b` |
| `JsStrings.OrElse` | packages/plugin-concierge/src/actions/resolver.ts:102 | logical or with a string default: `a`'s text when truthy, else `d` |
| `JsStrings.LowerChar` | packages/plugin-concierge/src/actions/resolver.ts:98 | an upper-case ASCII letter becomes the letter 32 code points higher, its lower-case form; every other character is unchanged |
| `JsStrings.Lower` | packages/plugin-concierge/src/actions/resolver.ts:98-99 | `toLowerCase` keeps the length and lower-cases each ASCII letter, position by position |
| `JsStrings.LowerOpt` | packages/plugin-concierge/src/actions/resolver.ts:99 | `x?.toLowerCase()` keeps `undefined` and keeps truthiness |
| `JsStrings.LowerIdempotent` | packages/plugin-concierge/src/actions/resolver.ts:57-61 | lower-casing twice is lower-casing once, so a stored key is found again |
| `JsStrings.LowerIsLower` | packages/plugin-concierge/src/actions/resolver.ts:61 | a lower-cased string has no upper-case letter |
| `JsStrings.LowerOfLower` | packages/plugin-concierge/src/actions/resolver.ts:126 | lower-casing leaves a lower-case string unchanged |
| `JsStrings.LowerEmpty` | packages/plugin-concierge/src/actions/resolver.ts:98 | the lower-cased key is empty iff the key is |
| `JsStrings.Contains` | packages/plugin-concierge/src/actions/resolver.ts:106 | `includes`: the empty pattern is always included; a pattern longer than the string never is |
| `JsStrings.ContainsIffOccurs` | packages/plugin-concierge/src/actions/resolver.ts:106 | `includes(sub)` holds iff `sub` occurs at some position of the string |
| `JsStrings.ContainsSuffix` | packages/plugin-concierge/src/actions/resolver.ts:106 | a string ending in a pattern includes it, so a key ending in `.eth` passes the `.eth` test at line 106 |
| `JsStrings.ContainsNeedsFirstChar` | packages/plugin-concierge/src/actions/resolver.ts:106 | a string that includes a non-empty pattern contains the pattern's first character |
| `JsStrings.ReplaceFirst` | packages/plugin-concierge/src/actions/resolver.ts:110-111 | `replace("@", "")` leaves a string without `@` unchanged and otherwise removes exactly one character |
| `JsStrings.ReplaceFirstAtFirst` | packages/plugin-concierge/src/actions/resolver.ts:156 | at whichever position the first `@` sits, removing it keeps everything before and after |
| `JsStrings.ReplaceFirstAt` | packages/plugin-concierge/src/actions/resolver.ts:156 | the character removed is the first `@`; everything before and after it is kept |
| `JsStrings.ReplaceFirstKeepsLower` | packages/plugin-concierge/src/actions/resolver.ts:110-111 | removing the `@` from a lower-cased alias keeps it lower-cased |
| `JsStrings.AppendKeepsLower` | packages/plugin-concierge/src/actions/resolver.ts:110 | `alias + ".eth"` is lower-cased when the alias is |
| `Resolver.Classify` | packages/plugin-concierge/src/actions/resolver.ts:98-122 | the key is an actor address exactly when the lower-cased client address passes the validator; the fallback handle is the lower-cased key |
| `Resolver.Seed` | packages/plugin-concierge/src/actions/resolver.ts:80-122 | seeding never sets `preferredName`, `ensInfo`, `avatar` or `converseEndpoint` |
| `Resolver.PreferredName` | packages/plugin-concierge/src/actions/resolver.ts:124 | the display name is never empty; it is `ensDomain` if truthy, else `converseUsername` if truthy, else `"Friend"` |
| `Resolver.WithPreferredName` | packages/plugin-concierge/src/actions/resolver.ts:191-192 | recomputing the display name sets it to a truthy value and changes no other field |
| `Resolver.Seeded` | packages/plugin-concierge/src/actions/resolver.ts:98-124 | every seeded record of a string key has a truthy display name |
| `Resolver.KeyToUse` | packages/plugin-concierge/src/actions/resolver.ts:125-128 | a lookup key exists iff address, domain or handle is truthy; it is the lower-cased address, else the domain, else the handle |
| `Resolver.MergeEns` | packages/plugin-concierge/src/actions/resolver.ts:141-149 | a missing ENS record changes nothing; a present one never touches the display name, the handle or the endpoint |
| `Resolver.ConverseEndpoint` | packages/plugin-concierge/src/actions/resolver.ts:156-157 | the endpoint starts with the profile URL; it is followed by the lookup key with its first `@` removed and everything else kept; a key without `@` is appended unchanged |
| `Resolver.MergeConverse` | packages/plugin-concierge/src/actions/resolver.ts:175-186 | a missing profile changes nothing; a present one records the endpoint and never touches the display name, the domain or the ENS record |
| `Resolver.Resolved` | packages/plugin-concierge/src/actions/resolver.ts:134-192 | after both merges the display name is truthy |
| `Resolver.UserInfoCache.constructor` | packages/plugin-concierge/src/actions/resolver.ts:45-47 | a new cache is empty and keeps its invariant that every stored key is lower-cased |
| `Resolver.UserInfoCache.Get` | packages/plugin-concierge/src/actions/resolver.ts:56-58 | `get` finds an entry iff the lower-cased key is stored, and returns that entry |
| `Resolver.UserInfoCache.Set` | packages/plugin-concierge/src/actions/resolver.ts:60-62 | after `set(k, v)`, every key equal to `k` up to letter case reads `v`; every other key reads what it read before; all stored keys stay lower-cased |
| `Resolver.UserInfoCache.Clear` | packages/plugin-concierge/src/actions/resolver.ts:64-70 | a truthy key removes only its lower-cased entry and every other key reads as before; `undefined` or `""` empties the cache |
| `Resolver.GetUserInfo` | packages/plugin-concierge/src/actions/resolver.ts:76-196 | a non-string key gives the all-unset record and no cache change; a hit returns the stored record unchanged and writes nothing; with no lookup key the seed is returned and nothing is written; otherwise the merged record is returned and stored under the lower-cased lookup key, and nothing else in the cache changes |
| `Resolver.SeedUserInfo` | packages/plugin-concierge/src/actions/resolver.ts:98-124 | the field-by-field classification chain builds exactly the seeded record |
| `Resolver.MergeEnsRecord` | packages/plugin-concierge/src/actions/resolver.ts:143-148 | the field-by-field ENS merge builds exactly the merged record |
| `Resolver.MergeConverseRecord` | packages/plugin-concierge/src/actions/resolver.ts:177-185 | the field-by-field Converse merge builds exactly the merged record |
| `ResolverProperties.SeededFirstMatch` | packages/plugin-concierge/src/actions/resolver.ts:98-122 | first match wins: a valid client address, then a valid key, then `.eth`, then `@user`/`@me`/`@bot` (address = client, domain = alias without `@` + `.eth`, handle = alias without `@`), then `@alix`/`@bo` (lower-cased fixed address), else the lower-cased key as handle; for each case, the fields it leaves unset |
| `ResolverProperties.SeededPreferredName` | packages/plugin-concierge/src/actions/resolver.ts:124 | before the lookups the display name is truthy and follows domain, then handle, then `"Friend"` |
| `ResolverProperties.SeededIgnoresCase` | packages/plugin-concierge/src/actions/resolver.ts:98-99 | keys and client addresses that agree up to letter case seed the same record |
| `ResolverProperties.ClassifyLowerCase` | packages/plugin-concierge/src/actions/resolver.ts:98-122 | every string the classification carries (actor address, key address, domain, alias, reserved handle and address, handle) is lower-cased |
| `ResolverProperties.SeedLowerCase` | packages/plugin-concierge/src/actions/resolver.ts:98-122 | seeding from a lower-cased classification stores only lower-cased address, domain and handle, `.eth` suffix included |
| `ResolverProperties.SelfAliasDropsAt` | packages/plugin-concierge/src/actions/resolver.ts:108-111 | for each self alias, removing the first `@` drops exactly its leading character |
| `ResolverProperties.SeededLowerCase` | packages/plugin-concierge/src/actions/resolver.ts:98-122 | every seeded address, domain and handle is lower-cased |
| `ResolverProperties.KeyToUseLowerCase` | packages/plugin-concierge/src/actions/resolver.ts:125-126 | the lookup key is lower-cased, so the cache entry for it is the lookup key itself |
| `ResolverProperties.NoKeyToUseIff` | packages/plugin-concierge/src/actions/resolver.ts:125-132 | if the validator rejects `""`, there is no lookup key iff the key is empty and the client address is not valid |
| `ResolverProperties.ResolvedAddress` | packages/plugin-concierge/src/actions/resolver.ts:145-147 | a present Converse address beats the ENS address, which beats the seeded one; the final address is lower-cased |
| `ResolverProperties.ResolvedAvatar` | packages/plugin-concierge/src/actions/resolver.ts:148 | the Converse avatar beats the ENS `avatar_url`, which beats the seeded avatar |
| `ResolverProperties.ResolvedConverseUsername` | packages/plugin-concierge/src/actions/resolver.ts:177-180 | the handle is `formattedName`, else `name`, else the existing handle; ENS never changes it |
| `ResolverProperties.ResolvedEnsDomain` | packages/plugin-concierge/src/actions/resolver.ts:144 | a present `ens` name replaces the domain; otherwise the domain is kept; Converse never changes it |
| `ResolverProperties.ResolvedRecordsSources` | packages/plugin-concierge/src/actions/resolver.ts:143-185 | the ENS record is kept iff one was parsed; the Converse endpoint is recorded iff a profile was parsed |
| `ResolverProperties.ResolvedPreferredName` | packages/plugin-concierge/src/actions/resolver.ts:191-192 | after the lookups the display name is truthy and is recomputed from the merged domain and handle |
| `ResolverProperties.FailedLookupsKeepSeed` | packages/plugin-concierge/src/actions/resolver.ts:134-193 | when both lookups fail, the record cached is the seed itself |
| `ResolverProperties.MeWithValidClient` | packages/plugin-concierge/src/actions/resolver.ts:102-103 | `("@me", valid address)` seeds only the lower-cased address, no domain and no handle; the address is the lookup key |
| `ResolverProperties.MeWithoutValidClient` | packages/plugin-concierge/src/actions/resolver.ts:108-111 | `@me` without a valid client address seeds `me.eth`, the handle `me` and the client address as given (lower-cased); the display name is `me.eth` |
| `ResolverProperties.EnsNameKey` | packages/plugin-concierge/src/actions/resolver.ts:106-107 | `vitalik.eth` seeds that domain and no address; it is the lookup key, and its Converse endpoint is the profile URL followed by `vitalik.eth` |
| `ResolverProperties.ReservedAlix` | packages/plugin-concierge/src/actions/resolver.ts:112-115 | `@alix`, in any letter case, seeds the lower-cased reserved address `AlixAddress` and the handle `alix`, which names it |
| `ResolverProperties.ReservedBo` | packages/plugin-concierge/src/actions/resolver.ts:116-119 | `@bo`, in any letter case, seeds the lower-cased reserved address `BoAddress` and the handle `bo`, which names it |
| `ResolverProperties.ValidReachable` | packages/plugin-concierge/src/actions/resolver.ts:57-61 | because every stored key is lower-cased, every stored entry is read back by `get` under its own key |
| `ResolverProperties.GetIgnoresCase` | packages/plugin-concierge/src/actions/resolver.ts:56-58 | keys equal up to letter case read the same cache entry |
| `ResolverProperties.ResolveThenHit` | packages/plugin-concierge/src/actions/resolver.ts:95-96 | after a full resolution, asking again with the lookup key in any letter case returns the same record and writes nothing more |
| `ResolverProperties.ReservedAlixCachedElsewhere` | packages/plugin-concierge/src/actions/resolver.ts:112-128 | the lookup key of `@alix` is its lower-cased reserved address, which differs from the lower-cased name asked for |
| `ResolverProperties.ReservedAlixRepeatMisses` | packages/plugin-concierge/src/actions/resolver.ts:95-96 | after a first full resolution of `@alix` on a cache without it, `@alix` still misses the cache, so asking again resolves again |

## Left out

- The HTTP requests to the ENS data service and to Converse. Their outcomes are inputs of
  `GetUserInfo` (see above); the request URLs, headers and bodies are not modelled, apart from
  the Converse endpoint the record stores.
- `fetchWithTimeout` (resolver.ts:198-216): the abort controller and the 5000 ms timer are timing
  plumbing. A timeout is the input `None`.
- JSON parsing and the `as` casts: the responses are already-typed records. With untyped data a
  non-string `address` would make `toLowerCase` throw in the middle of a merge, leaving the fields
  set before it. That partial merge is not modelled.
- Logging and the `MSG_LOG` environment check: side effects with no behaviour.
- The semantics of viem's `isAddress`: a foreign library, so the validator is a parameter.
- The lazy singleton of `getInstance` (resolver.ts:49-54): one explicitly constructed cache is used.
- Object identity: the source returns the cached object itself, so a caller that mutates it
  mutates the cache entry. The model stores and returns values.
- Concurrency: interleaved asynchronous calls for the same key (both miss, the last writer wins)
  are not modelled; each `GetUserInfo` runs to completion.
- `clientAddress` is typed as a string in the source and only the key is checked with `typeof`;
  the model does not consider non-string client addresses.
- `Lower` lower-cases ASCII letters only; JavaScript's `toLowerCase` also maps other Unicode letters.
- `packages/client-slack/src/events.ts`, `packages/plugin-github/src/providers/sourceCode.ts`,
  `packages/plugin-bitcoin/src/index.ts` and `packages/plugin-bitcoin/vitest.config.ts` are not part of
  this model: they are event registration, service wrappers, plugin registration and test
  configuration.
