# sonic-exporter collectors in Dafny

This project models the core of the SONiC Prometheus exporter. That core has three parts:

- The hardware collector (`hw_collector.go`). It covers power supplies, fans and the chassis, all read from STATE_DB.
- The CRM collector (`crm_collector.go`). It covers switch resource counters read from COUNTERS_DB: the global `CRM:STATS` hash and one hash per `CRM:ACL_STATS:*` key.
- The small Redis client both collectors use (`client.go`). It holds a fixed name-to-number table of logical databases, plus a registry of connection handles that fills lazily.

Both collectors share one TTL cache. On a `Collect` call:

- Within 15 seconds of the last successful scrape, the cached samples are sent and the store is not called.
- Otherwise a scrape runs and `collector_success` is appended to whatever the cache then holds. That whole cache is what gets sent.

In the model, the store is a snapshot. It answers KEYS and HGETALL per database number and may report failures. Every command the client sends is logged, so "no store call" can be stated. One `Collect` is one pure transition. It takes the cache state, the clock reading, and a `World`, which holds:

- the configuration read,
- the store,
- the float parser,
- Go's map iteration order,
- the clock reading at the end of the scrape,
- the measured duration.

Modules, one per file:

| module | file | models |
|---|---|---|
| `Base` | base.dfy | `Option`, `Result`, and the Go map lookup that reads a missing field as `""` |
| `GoStrings` | gostrings.dfy | `strings.Split`, `Join`, `ToLower` (ASCII), `HasSuffix`, `TrimPrefix` and `TrimSuffix` |
| `Metrics` | metrics.dfy | descriptors, samples, `MustNewConstMetric`, status flags, and optional numeric fields |
| `Redis` | redis.dfy | `pkg/redis/client.go` |
| `Cache` | cache.dfy | the TTL cache transition shared by both `Collect` methods |
| `FanKey` | fankey.dfy | a hand-written matcher for the fan-key regular expression, proved sound and complete against a declarative reading of it |
| `Sweep` | sweep.dfy | the list-then-fetch key loop of the three hardware sub-collections |
| `HwCollector` | hw.dfy | `hw_collector.go` |
| `CrmFields` | crm_fields.dfy | the CRM field loop: parse first, then classify by suffix |
| `CrmCollector` | crm.dfy | `crm_collector.go` |

A failed scrape keeps the previous samples only when the Redis client cannot be created (`hw_collector.go:131-134`, `crm_collector.go:98-101`). Once the client exists, the cache is reset (`hw_collector.go:139`, `crm_collector.go:106`). A failing store call then leaves only the samples appended since the reset, followed by success=0. `Cache.Settle`, `CollectClientFailure` and `CollectStoreFailure` state both paths. `HwCollector.HwAppendedCases` and `CrmCollector.CrmAppendedAcl` spell out what a failed scrape has appended.

## Model

| member | source | states |
|---|---|---|
| Base.Lookup | internal/collector/hw_collector.go:183-185 | reading a field of a fetched hash gives its value, or `""` when the field is absent |
| GoStrings.Split | internal/collector/hw_collector.go:176 | splitting on one character gives at least one piece; no piece contains the separator; there is exactly one piece iff the separator does not occur |
| GoStrings.JoinSplit | internal/collector/crm_collector.go:163 | joining the pieces of a split with the same separator gives back the string |
| GoStrings.SplitJoin | internal/collector/crm_collector.go:163 | splitting a join of separator-free pieces gives back the pieces |
| GoStrings.JoinSplitReplaces | internal/collector/crm_collector.go:163 | joining the pieces with another separator is the same as replacing every separator |
| GoStrings.Lower | internal/collector/hw_collector.go:191 | lower-casing keeps the length and maps each character to its ASCII lower case |
| GoStrings.LowerIdempotent | internal/collector/hw_collector.go:191 | lower-casing twice is lower-casing once |
| GoStrings.IsTrueSpellings | internal/collector/hw_collector.go:191-193 | a status field counts as true for exactly the sixteen capitalisations of "true" |
| GoStrings.TrimBoth | internal/collector/crm_collector.go:139 | trimming the prefix and then the suffix off prefix+core+suffix gives back the core |
| Metrics.ConstMetric | internal/collector/hw_collector.go:187-189 | a sample carries its descriptor, value and label values, and there are as many label values as the descriptor has label names |
| Metrics.Flag | internal/collector/hw_collector.go:191-193 | a status gauge is 1 iff the lowered field is "true", and 0 otherwise |
| Metrics.ReadingSample | internal/collector/hw_collector.go:206-211 | an optional numeric field gives one sample with the parsed value iff it parses, and no sample otherwise |
| Metrics.Kept | internal/collector/hw_collector.go:205-239 | the numeric fields that yield a sample are exactly the ones that parse |
| Metrics.ReadingsAreKept | internal/collector/hw_collector.go:205-239 | the optional samples are one per parsing field, in field order, each with its parsed value |
| Metrics.ReadingsPresence | internal/collector/hw_collector.go:205-239 | a numeric field's descriptor appears among the samples iff that field parses; failing fields cost only their own sample |
| Redis.DbId | pkg/redis/client.go:16-29 | the lookup succeeds exactly for APPL_DB, COUNTERS_DB, CONFIG_DB and STATE_DB, giving 0, 2, 4 and 6; every other name gives (0, false) |
| Redis.NewClient | pkg/redis/client.go:37-50 | a client exists iff the configuration reads; it starts with an empty registry and the configuration read; otherwise the error is "failed to read redis config" |
| Redis.Connect | pkg/redis/client.go:52-65 | a known name gets a handle on its own database number under the client's configuration; an unknown name fails with "database not defined" and changes nothing |
| Redis.SelectClient | pkg/redis/client.go:67-88 | an unknown name fails and changes nothing; a name already present returns its handle and changes nothing; a known absent name adds exactly that entry |
| Redis.SelectIdempotent | pkg/redis/client.go:67-88 | selecting the same name twice: the second call returns the same handle and changes nothing |
| Redis.RegistryStaysKnown | pkg/redis/client.go:52-88 | after any sequence of selections the registry holds only the four known names, each on its own database number |
| Redis.HGetAllFromDb | pkg/redis/client.go:91-99 | an unknown database name fails without sending a command; a known one sends one HGETALL to its database number and returns the store's answer |
| Redis.KeysFromDb | pkg/redis/client.go:112-121 | an unknown database name fails without sending a command; a known one sends one KEYS to its database number and returns the store's answer |
| Redis.Close | pkg/redis/client.go:123-128 | closing empties the registry and keeps the configuration |
| Cache.SuccessSample | internal/collector/hw_collector.go:113-120 | the collector_success gauge has no labels and is 1 iff the scrape succeeded, 0 otherwise |
| Cache.Serve | internal/collector/hw_collector.go:103-111 | a cache hit sends the cached samples, changes no state and issues no store command |
| Cache.Settle | internal/collector/hw_collector.go:113-124 | on a miss, what is sent is the new cache, ending in collector_success. A client failure keeps the old cache and adds success=0. Any other failure keeps the samples appended since the reset, plus success=0. Success stores the scrape's samples plus success=1, and stamps the finish time. |
| Cache.SettleSuccess | internal/collector/hw_collector.go:156-161 | a successful scrape ending in its duration sample caches its samples, then duration, then success=1, stamped with the finish time |
| Cache.FailureRetries | internal/collector/hw_collector.go:156-162 | a failed scrape does not move the last-scrape time, so every later call misses the cache again |
| Cache.SuccessIsFresh | internal/collector/hw_collector.go:103 | after a success, a later call is served from the cache iff it comes less than 15 seconds after the scrape finished |
| Cache.DuplicateSuccessAfterClientFailure | internal/collector/hw_collector.go:113-120 | a scrape that ran, successful or not, whose own samples hold no collector_success, followed by a client failure: two collector_success samples are sent |
| Cache.RepeatedClientFailure | internal/collector/hw_collector.go:113-134 | two client failures in a row on a fresh collector send success=0 twice |
| Cache.WithoutDesc | internal/collector/hw_collector.go:118-120 | removing every sample of one descriptor leaves none of it; every other sample keeps its number of occurrences, and the length drops by the number removed |
| Cache.WithoutDescSingle | internal/collector/hw_collector.go:118-120 | a single sample is dropped iff it has the descriptor |
| Cache.WithoutDescAppend | internal/collector/hw_collector.go:118-120 | removing a descriptor from a concatenation removes it from each part, so the kept samples stay in their order |
| Cache.SettleFixed | internal/collector/hw_collector.go:113-124 | on a client failure: the previous samples without their success gauges, in order, then success=0; no store command, and the last-scrape time is kept. Every other path is the same as `Settle` |
| Cache.SettleFixedSingleSuccess | internal/collector/hw_collector.go:118-120 | with the correction, every miss sends exactly one collector_success sample |
| FanKey.WordsExclusive | internal/collector/hw_collector.go:247 | at one position at most one of the slot words PSU and FANTRAY matches, case-insensitively |
| FanKey.MatchAtSound | internal/collector/hw_collector.go:247 | whatever the matcher reports at a position is a match of the fan expression there, with those slot and name groups |
| FanKey.MatchAtComplete | internal/collector/hw_collector.go:247 | every match of the fan expression at a position is what the matcher reports there |
| FanKey.FirstMatch | internal/collector/hw_collector.go:262 | the search finds the leftmost matching position, and nothing before it matches |
| FanKey.FanKeyMatch | internal/collector/hw_collector.go:262-264 | the captures are those of some matching position, and there are none iff the expression matches nowhere |
| FanKey.FanKeyMatchLeftmost | internal/collector/hw_collector.go:262-264 | the captures of a position are found exactly when the expression matches there and nowhere before it |
| FanKey.PsuFanExample | internal/collector/hw_collector.go:247 | `FAN_INFO|PSU1-Fan1` captures slot PSU1 and name Fan1 |
| FanKey.FantrayExample | internal/collector/hw_collector.go:247 | `fan_info|fantray2 fan 3` matches case-insensitively and keeps the key's own case in its captures |
| FanKey.PlainFanExample | internal/collector/hw_collector.go:247 | `FAN_INFO|fan1` does not match |
| Sweep.EachKey | internal/collector/hw_collector.go:173-181 | the per-key loop keeps the client valid |
| Sweep.EachKeySpec | internal/collector/hw_collector.go:173-181 | the loop stops at the first failing fetch. Its samples are those of the earlier keys. It fails iff some fetch fails. It sends one HGETALL per key up to and including the failing one. |
| Sweep.CollectKeysSpec | internal/collector/hw_collector.go:304-318 | a sub-collection fails iff its KEYS call or one of its HGETALL calls fails, and otherwise yields every record's samples in listing order; KEYS is sent first. Either way it appends the records of the keys before the first failing fetch, and nothing when KEYS fails |
| Sweep.AppendedComplete | internal/collector/hw_collector.go:168-181 | when every call succeeds, what the loop appends is every record's samples |
| Sweep.AppendedAvoids | internal/collector/hw_collector.go:168-181 | when no listed record yields a sample of a descriptor, nothing appended has it, whether the loop finishes or not |
| HwCollector.PsuIdIsSecondToken | internal/collector/hw_collector.go:176 | the PSU label is the token between the first and second space of the key |
| HwCollector.PsuSamples | internal/collector/hw_collector.go:173-239 | a PSU gives 3 to 8 samples, all labelled with its id. They are psu_info=1 with serial, name and model, then two status gauges (each 1 iff its field is "true" in any case), then one sample per parsing numeric field. |
| HwCollector.PsuOptionalSamples | internal/collector/hw_collector.go:205-239 | each of the five numeric PSU fields has a sample iff it parses, in field order, with its parsed value |
| HwCollector.FanLabels | internal/collector/hw_collector.go:258-277 | the slot defaults to "0" and the name to the segment after the first `|`; a regex match sets both from groups 1 and 3; a present `drawer_name` other than "N/A" replaces the slot only |
| HwCollector.FanLabelsPsuFan | internal/collector/hw_collector.go:258-265 | `FAN_INFO|PSU1-Fan1` is labelled slot PSU1, name Fan1 |
| HwCollector.FanLabelsDrawer | internal/collector/hw_collector.go:272-277 | a `drawer_name` of "N/A" changes nothing; an empty one still replaces the slot |
| HwCollector.FanLabelsPlain | internal/collector/hw_collector.go:258-265 | `FAN_INFO|fan1` is labelled slot "0", name fan1 |
| HwCollector.FanSamples | internal/collector/hw_collector.go:279-298 | a fan gives the two status gauges (each 1 iff its field is "true" in any case, 0 otherwise), plus fan_rpm with the parsed speed iff `speed` parses; all carry [name, slot] |
| HwCollector.ChassisIdOfKey | internal/collector/hw_collector.go:313 | the chassis label of `CHASSIS_INFO|<id>` is `<id>` |
| HwCollector.ChassisSamples | internal/collector/hw_collector.go:312-326 | a chassis gives one chassis_info=1 sample labelled [id, psu_num, serial, model]; missing fields read "" |
| HwCollector.CollectSectionSpec | internal/collector/hw_collector.go:165-181 | a sub-collection fails iff one of its store calls fails, and otherwise yields its reference samples; either way it appends the records before the first failing fetch |
| HwCollector.SectionAppendedComplete | internal/collector/hw_collector.go:165-181 | when a sub-collection succeeds, what it appended is its reference samples |
| HwCollector.RunSectionsSpec | internal/collector/hw_collector.go:141-154 | PSU, fan and chassis run in order, stopping at the first failure; the run succeeds iff all three do, and then yields their samples concatenated. Either way it appends each section's samples up to and including the failing one's partial records |
| HwCollector.HwAppendedCases | internal/collector/hw_collector.go:139-154 | after the reset a failed scrape holds the PSU records before the first failing PSU fetch; or all PSU samples and the fan records before the failing fan fetch; or PSU and fan samples and the chassis records before the failing chassis fetch |
| HwCollector.ScrapeHw | internal/collector/hw_collector.go:127-163 | once a client exists it is closed on every path |
| HwCollector.ScrapeHwSpec | internal/collector/hw_collector.go:127-163 | the client fails iff the configuration does not read; otherwise the scrape succeeds iff every store call does, and then gives PSU, fan and chassis samples followed by the duration; when a store call fails, it gives what was appended since the reset, with no duration |
| HwCollector.Collect | internal/collector/hw_collector.go:93-125 | a hit sends the cache unchanged with no store command; a miss sends the new cache, ending in collector_success, which is 1 iff the scrape succeeds; a fresh collector whose client fails sends only success=0 |
| HwCollector.CollectClientFailure | internal/collector/hw_collector.go:113-134 | a client failure keeps the previous cache, appends success=0, keeps the last-scrape time and issues no store command |
| HwCollector.CollectStoreFailure | internal/collector/hw_collector.go:136-154 | a store failure caches the samples appended since the reset (the cases of `HwAppendedCases`), then success=0, and keeps the last-scrape time |
| HwCollector.CollectSuccess | internal/collector/hw_collector.go:139-161 | a successful miss caches PSU, fan and chassis samples, then duration, then success=1, stamped with the finish time |
| HwCollector.CachedWithinTtl | internal/collector/hw_collector.go:103-111 | within 15 seconds after a success, the next call sends exactly what the first sent, with no store command |
| HwCollector.FailedScrapeRetried | internal/collector/hw_collector.go:141-158 | after a failed scrape the next call scrapes again, whenever it comes |
| HwCollector.ScrapeHwAvoidsSuccess | internal/collector/hw_collector.go:139-162 | the samples of a scrape that ran, successful or not, hold no collector_success |
| HwCollector.DuplicateSuccess | internal/collector/hw_collector.go:113-134 | a miss whose client exists, then a miss whose client cannot be created: the second call sends two collector_success samples |
| HwCollector.CollectFixed | internal/collector/hw_collector.go:93-125 | `Collect` with the corrected settling step: the same as `Collect` on a hit and whenever the client exists; on a miss it sends its new cache |
| HwCollector.CollectFixedSingleSuccess | internal/collector/hw_collector.go:113-120 | with the correction, starting from a cache with at most one collector_success, a call sends at most one, and a miss exactly one |
| CrmFields.SuffixesExclusive | internal/collector/crm_collector.go:138-150 | no field name ends in both `available` and `used` |
| CrmFields.ResourceLabelOf | internal/collector/crm_collector.go:139 | the label of `crm_stats_<core>_<suffix>` is `<core>` |
| CrmFields.StatSamples | internal/collector/crm_collector.go:138-150 | a field gives at most one sample, and one iff its name ends in `available` or `used`. That sample uses the matching descriptor, the parsed value and the trimmed label. |
| CrmFields.FamilyShape | internal/collector/crm_collector.go:138-150 | with the descriptors' label arity, every field gives well-formed samples, one iff it is classified |
| CrmFields.FirstUnparsed | internal/collector/crm_collector.go:132-136 | the position of the first value that does not parse; everything before it parses |
| CrmFields.FieldLoopSpec | internal/collector/crm_collector.go:131-154 | the field loop succeeds iff every value parses; its samples are those of the fields before the first unparsable value |
| CrmFields.FieldLoopComplete | internal/collector/crm_collector.go:131-154 | the loop succeeds iff every value parses, and then yields the samples of every field in iteration order |
| CrmFields.StatsOfAppend | internal/collector/crm_collector.go:132 | the samples of two runs of fields concatenate |
| CrmFields.StatsOfCount | internal/collector/crm_collector.go:132-151 | when every value parses, there is one sample per classified field |
| CrmFields.CountClassifiedSet | internal/collector/crm_collector.go:132-151 | for distinct fields, the classified count is the size of the set of classified names |
| CrmFields.HashSampleCount | internal/collector/crm_collector.go:132-151 | a hash whose values all parse gives exactly as many samples as it has fields ending in `available` or `used` |
| CrmFields.StatsOfPermutation | internal/collector/crm_collector.go:132 | the samples of a permuted list of fields are the same multiset |
| CrmFields.EnumerationsPermute | internal/collector/crm_collector.go:132 | two iterations of one hash hold the same fields |
| CrmFields.DistinctMultiset | internal/collector/crm_collector.go:132 | a field of a distinct enumeration occurs exactly once |
| CrmFields.OrderIndependent | internal/collector/crm_collector.go:132-151 | whatever order Go iterates a hash in, if its values parse the field loop succeeds with the same multiset of samples |
| CrmFields.FamilyAvoids | internal/collector/crm_collector.go:138-150 | a field gives no sample under a descriptor other than the available and used ones |
| CrmFields.StatsOfAvoids | internal/collector/crm_collector.go:132-151 | when no field gives a sample of a descriptor, the samples of any run of fields hold none |
| CrmCollector.FamilyNamed | internal/collector/crm_collector.go:138-150 | `crm_stats_<core>_available` gives one available sample labelled prefix+[core], `_used` gives a used one, and any other name gives nothing |
| CrmCollector.AclTargetOf | internal/collector/crm_collector.go:163 | the ACL target is the key after its second `:`, with further `:` turned into `_`, lower-cased |
| CrmCollector.AclTargetExample | internal/collector/crm_collector.go:163 | `CRM:ACL_STATS:INGRESS:PORT` has target `ingress_port` |
| CrmCollector.AclEach | internal/collector/crm_collector.go:162-188 | the per-key ACL loop keeps the client valid |
| CrmCollector.AclEachSpec | internal/collector/crm_collector.go:162-188 | the ACL loop succeeds iff every key's hash fetches and all its values parse. It then yields every key's samples under its target, in listing order, having sent one HGETALL per key. |
| CrmCollector.HashAppendedComplete | internal/collector/crm_collector.go:164-187 | a hash that fetches and whose values all parse appends the samples of every field |
| CrmCollector.AclAppendedSplit | internal/collector/crm_collector.go:162-188 | the ACL loop appends every sample of the keys before the first failing key, then what the failing key's field loop appended before it stopped |
| CrmCollector.AclEachAppended | internal/collector/crm_collector.go:162-188 | whether it finishes or stops, the ACL loop appends the reference appended samples |
| CrmCollector.CollectStatsSpec | internal/collector/crm_collector.go:108-116 | the global hash is read with one HGETALL. A read error is reported as "redis read failed"; otherwise the step succeeds iff every value parses and gives the hash's samples, and a parse failure is reported as "crm stats collection failed". Either way it appends the samples of the fields before the first unparsable value |
| CrmCollector.CollectAclSpec | internal/collector/crm_collector.go:156-190 | KEYS is sent first. The ACL step succeeds iff KEYS succeeds and every key's step does, then yielding the reference samples after KEYS plus one HGETALL per key. A failed KEYS appends nothing; otherwise the step appends what the ACL loop appends |
| CrmCollector.RunCrmSpec | internal/collector/crm_collector.go:108-121 | the CRM reads succeed iff every store call succeeds and every value parses, and then give the global samples followed by the ACL samples |
| CrmCollector.RunCrmAppended | internal/collector/crm_collector.go:106-121 | whether it succeeds or stops, a run appends the global samples up to the first unparsable value, then, once those all succeeded and KEYS succeeds, what the ACL loop appends |
| CrmCollector.CrmAppendedAcl | internal/collector/crm_collector.go:106-121 | once the global counters succeeded and KEYS succeeded, a run has appended every global sample, the samples of the ACL keys before the first failing key, and what that key appended |
| CrmCollector.RunCrmErrors | internal/collector/crm_collector.go:108-121 | a global read failure is reported as a read failure with no samples; a global parse failure as a stats failure; anything later as an ACL failure |
| CrmCollector.ScrapeCrm | internal/collector/crm_collector.go:94-129 | once a client exists it is closed on every path |
| CrmCollector.ScrapeCrmSpec | internal/collector/crm_collector.go:94-129 | the client fails iff the configuration does not read; otherwise the scrape succeeds iff the reference exists, and then gives it followed by the duration; on a failure after the reset it gives what was appended since, with no duration |
| CrmCollector.UnparsedFieldFails | internal/collector/crm_collector.go:132-136 | an unparsable value in the global hash fails the scrape, even in a field that would give no sample |
| CrmCollector.UnparsedAclFieldFails | internal/collector/crm_collector.go:168-172 | an unparsable value in an ACL hash fails the scrape, even in a field that would give no sample |
| CrmCollector.CollectStatsLoop | internal/collector/crm_collector.go:108-116 | a readable global hash is decoded by the field loop in its iteration order |
| CrmCollector.StatsOrderIndependent | internal/collector/crm_collector.go:132-151 | two iteration orders of a global hash whose values parse give the same multiset of samples |
| CrmCollector.StatsCount | internal/collector/crm_collector.go:132-151 | the global samples number the fields ending in `available` or `used` |
| CrmCollector.Collect | internal/collector/crm_collector.go:60-92 | a hit sends the cache unchanged with no store command; a miss sends the new cache, ending in collector_success, which is 1 iff the scrape succeeds; a fresh collector whose client fails sends only success=0 |
| CrmCollector.CollectClientFailure | internal/collector/crm_collector.go:80-101 | a client failure keeps the previous cache, appends success=0, keeps the last-scrape time and issues no store command |
| CrmCollector.CollectStoreFailure | internal/collector/crm_collector.go:103-121 | a failure after the reset caches what was appended since (as `CrmAppendedAcl` spells out), then success=0, and keeps the last-scrape time |
| CrmCollector.CollectSuccess | internal/collector/crm_collector.go:106-127 | a successful miss caches global and ACL samples, then duration, then success=1, stamped with the finish time |
| CrmCollector.CachedWithinTtl | internal/collector/crm_collector.go:70-78 | within 15 seconds after a success, the next call sends exactly what the first sent, with no store command |
| CrmCollector.CrmAppendedAvoids | internal/collector/crm_collector.go:138-186 | nothing a CRM scrape appends is a collector_success sample, whether it finishes or not |
| CrmCollector.ScrapeCrmAvoidsSuccess | internal/collector/crm_collector.go:106-128 | the samples of a scrape that ran, successful or not, hold no collector_success |
| CrmCollector.DuplicateSuccess | internal/collector/crm_collector.go:80-101 | a miss whose client exists, then a miss whose client cannot be created: the second call sends two collector_success samples |
| CrmCollector.CollectFixed | internal/collector/crm_collector.go:60-92 | `Collect` with the corrected settling step: the same as `Collect` on a hit and whenever the client exists; on a miss it sends its new cache |
| CrmCollector.CollectFixedSingleSuccess | internal/collector/crm_collector.go:80-87 | with the correction, starting from a cache with at most one collector_success, a call sends at most one, and a miss exactly one |

## Left out

- `cmd/sonic-exporter/main.go` (flags, logging, registration, HTTP server) is I/O plumbing. The interface collector it registers is not part of this model.
- `Describe` on both collectors only sends fixed descriptors on a channel. The descriptors themselves are modelled as constants with their exact names, help texts and label names.
- The mutex and concurrent callers are not modelled. Each `Collect` is one atomic transition, as the lock at `hw_collector.go:100-101` guarantees.
- The wall clock is not modelled. `time.Since(lastScrapeTime)` becomes the difference of two integer readings, with the zero time read as "never scraped". The duration gauge's value is an opaque input.
- `parseFloat` is not part of this model. It is an oracle `string -> Option<real>`, and no IEEE-754 behaviour is claimed.
- go-redis transport, KEYS glob matching and `cleanenv` are not modelled. The store is a snapshot oracle per database number, and the configuration is a `Result` input. Which keys KEYS lists is therefore not derived from the pattern.
- HwCollector.Collect, CrmCollector.Collect and the lemmas about them: the key shapes the label derivations need (a space in PSU keys, a `|` in fan and chassis keys, a `:` in ACL keys) are required of every key the store would list. Go panics with an index out of range only on a key it actually reaches, after the earlier keys were appended. So these members say nothing about a store that lists a badly shaped key, even on a cache hit, on a client failure, or when the bad key comes after a failing fetch.
- Go's random map iteration order is an oracle `World.order`. The ordering lemmas assume it lists each field of the hash once.
- `HsetToDb` (`client.go:101-110`) is not used by either collector.
- `strings.ToLower` lowers ASCII letters only. Other Unicode case mappings are not modelled.
- Metrics.ConstMetric and every string in the model: Go strings are byte strings, but here they are sequences of Unicode characters. A key, field name or field value from the store that is not valid UTF-8 therefore cannot be expressed. For such a label value `MustNewConstMetric` panics, and Go's regexp reads each invalid byte as U+FFFD. Neither behaviour is modelled.
- `prometheus.Metric` objects are reduced to (descriptor, value, label values). Gauge type, constant labels and exposition are not modelled.
- Error messages wrap the inner Go error only as text. The CRM parse-failure message omits `parseFloat`'s own error text. Logging is not modelled.
- Redis.Close: the handles' own `Close` results are ignored, as in the code. Go's delete-while-ranging is modelled as emptying the map.
- Sweep.EachKey, CrmCollector.AclEach, HwCollector.ScrapeHw and CrmCollector.ScrapeCrm: their own ensures state only client validity or closing. What they compute, on success and on failure, is stated by separate lemmas: `Sweep.EachKeySpec` and `CollectKeysSpec`, `HwCollector.RunSectionsSpec` and `ScrapeHwSpec`, `CrmCollector.AclEachSpec`, `AclEachAppended`, `RunCrmAppended` and `ScrapeCrmSpec`.

## Findings

| source | as written | input that shows it | evidently intended | confidence | as-written member | corrected member |
|---|---|---|---|---|---|---|
| internal/collector/hw_collector.go:113-120 | on a cache miss whose client creation fails (`hw_collector.go:131-134`), collector_success is appended to the previous cache, which already ends in collector_success | one `Collect` whose client exists (a success, or a failure after the reset), then a later miss whose configuration cannot be read (latent: `cleanenv.ReadEnv` at `client.go:41-44` must return an error, and `RedisConfig` at `client.go:31-35` has only string fields with defaults, so the code shows no way for that to happen): the cache sent holds two collector_success samples with the same empty label set, a duplicate series the registry rejects; two client failures in a row on a fresh collector send success=0 twice (`Cache.RepeatedClientFailure`) | a client failure should keep the previous samples but carry a single collector_success=0 | not executed | HwCollector.DuplicateSuccess | HwCollector.CollectFixedSingleSuccess |
| internal/collector/crm_collector.go:85-87 | the same append on the CRM collector's client-failure path (`crm_collector.go:98-101`) | one `Collect` whose client exists, then a `Collect` more than 15 s later (or after a failure) whose configuration cannot be read (latent, as in the row above: reachable only if `cleanenv.ReadEnv` can fail): two collector_success samples are sent; two client failures in a row on a fresh collector send success=0 twice (`Cache.RepeatedClientFailure`) | a single collector_success=0 | not executed | CrmCollector.DuplicateSuccess | CrmCollector.CollectFixedSingleSuccess |
