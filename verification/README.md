# SQLi Security Gateway: a Dafny model of the detection filter, IP throttle and PII redaction

The gateway puts a global filter in front of every route. If detection is on,
the filter first asks the IP throttle whether the client is blocked, and a
blocked client gets 429. Otherwise it reads the body and builds the text
`PATH: <path>, QUERY: <query>, BODY: <body>`. It fingerprints that text with
SHA-256 in lowercase hex and uses the fingerprint as the key of a decision
cache, which holds the (lazy) model call for that text. It runs the call and
classifies the returned score into ALLOW, MONITOR or BLOCK against two
thresholds. A failed call goes through the fail-open or fail-closed fallback.
Every decision is logged with a redacted copy of the payload. BLOCK answers 403
and records a failed attempt for the client's IP; MONITOR and ALLOW forward
the request with its body replayed.

The IP throttle keeps two keys per IP in Redis:
- a counter `sqli:attempts:<ip>`, which expires one time window after the first failure;
- a block key `sqli:blocked:<ip>`, which is written once the counter reaches `maxAttempts` and lives for the block duration.

The code blocks on *reaching* the threshold (`>=`); the method's doc comment
says "exceeds". The model follows the code.

Modules, one file each:

- `Wrappers` (wrappers.dfy): `Option` and `Result`.
- `Scoring` (scoring.dfy): the `Decision` record and `evaluateScore`. Scores are reals, since the code only compares them.
- `Fingerprint` (fingerprint.dfy): the payload text, Java's signed bytes, `Integer.toHexString` and the `createHash` loop.
  - `CreateHash` is an imperative method with a loop invariant.
  - It is proved equal to `CacheKey`, the hex encoding of the digest.
  - A decoder `HexDecode` is the encoding's partner: decoding inverts encoding, and the encoding is injective.
  - UTF-8 encoding and decoding and SHA-256 are not defined here. They are function-valued fields of a `Library` value, so every property holds for any implementation of them.
- `Redaction` (redaction.dfy): `redactPii`, the regex `(?i)password=\S+` replaced by `password=[REDACTED]`, written as a recursive left-to-right scanner.
  - Case folding is ASCII only, Java's default.
  - `\S` excludes space, tab, newline, vertical tab, form feed and carriage return.
- `KeyValue` (keyvalue.dfy): the Redis commands the throttle uses, over a map from key to (value, optional expiry time).
  - `Incr`, `ExpireIn` and `SetEx` are the specification functions.
  - The `RedisStore` class holds the map and a clock, and its methods update them in place.
  - INCR treats a missing or expired key as 0, keeps the expiry of a live key, and fails on a string value.
  - EXPIRE acts only on a live key.
  - A key is live while it has no expiry or the clock is before its expiry. The clock counts seconds.
- `Throttling` (throttling.dfy): `isBlocked` and `recordFailedAttempt`.
  - `Blocked` and `AfterFailedAttempt` are the specification functions.
  - The `IpThrottlingService` class is proved against them and runs the INCR / EXPIRE / SET chain step by step.
- `DetectionFilter` (detection_filter.dfy): the request flow.
  - `FilterOutcome` and `ProcessOutcome` give, for a request, a client IP and the model's reply, the outcome (forwarded, rejected with a status, errored or completed), the side effects in order as a trace of events, and the new throttle store and cache.
  - The classes `DecisionCache` and `SQLiDetectionFilter` run the flow imperatively. They are proved to produce exactly that outcome, trace and state.

Inputs that are not computed here are parameters:
- the client IP;
- the model's reply (a score, or a failed call with its message);
- the clock (the store's `now`);
- the UTF-8 and SHA-256 library functions.

Two behaviours of the code as written are kept in the model:
- **Empty body.** Spring's body join yields nothing for an empty body. The filter's continuation then never runs: there is no payload, model call or telemetry, and the request is not forwarded either. The exchange just completes. This is outcome `Completed`, and `EmptyBodyCompletes` states it.
- **Cache hits still call the model.** A cache entry is an unexecuted call built for the payload that first produced the fingerprint. So a hit runs the model again, with that stored payload. The model records this as a `ModelCalled` event on every inspected request. It does not claim one backend call per fingerprint.

## Model

| member | source | states |
|---|---|---|
| Scoring.EvaluateScore | SQLi-Security-Gateway/src/main/java/com/sqli/detector/securitygateway/filter/SQLiDetectionFilter.java:155-164 | BLOCK iff score >= block threshold; MONITOR iff monitor threshold <= score < block threshold; ALLOW iff below both; the decision carries the input score unchanged |
| Scoring.EvaluateScoreMonotone | SQLi-Security-Gateway/src/main/java/com/sqli/detector/securitygateway/filter/SQLiDetectionFilter.java:157-162 | for any thresholds, a higher score never yields a lower action in the order ALLOW < MONITOR < BLOCK |
| Scoring.EvaluateScoreExamples | SQLi-Security-Gateway/src/main/java/com/sqli/detector/securitygateway/filter/SQLiDetectionFilter.java:155-164 | with thresholds 0.8/0.5, scores 0.9, 0.6 and 0.1 give BLOCK, MONITOR and ALLOW with the score kept |
| Fingerprint.QueryText | SQLi-Security-Gateway/src/main/java/com/sqli/detector/securitygateway/filter/SQLiDetectionFilter.java:103-104 | a missing query renders as the text "null", a present one as itself |
| Fingerprint.Payload | SQLi-Security-Gateway/src/main/java/com/sqli/detector/securitygateway/filter/SQLiDetectionFilter.java:103-104 | the payload starts with the "PATH: " label and is exactly 23 label characters longer than path, rendered query and body together |
| Fingerprint.PayloadFrames | SQLi-Security-Gateway/src/main/java/com/sqli/detector/securitygateway/filter/SQLiDetectionFilter.java:103-104 | the payload starts with "PATH: " and the path, ends with the body, and is 23 characters longer than path, query text and body together |
| Fingerprint.NullQueryCollides | SQLi-Security-Gateway/src/main/java/com/sqli/detector/securitygateway/filter/SQLiDetectionFilter.java:103-104 | a missing query and the literal query "null" give the same payload |
| Fingerprint.EqualTriplesEqualKeys | SQLi-Security-Gateway/src/main/java/com/sqli/detector/securitygateway/filter/SQLiDetectionFilter.java:103-105 | equal (path, query, body) triples give equal payloads and equal cache keys |
| Fingerprint.Unsigned | SQLi-Security-Gateway/src/main/java/com/sqli/detector/securitygateway/filter/SQLiDetectionFilter.java:172 | `0xff & b` lies in 0..255 and agrees with the signed byte modulo 256 |
| Fingerprint.Signed | SQLi-Security-Gateway/src/main/java/com/sqli/detector/securitygateway/filter/SQLiDetectionFilter.java:172 | every value 0..255 is `0xff & b` of some signed byte (inverse of Unsigned) |
| Fingerprint.ToHexString | SQLi-Security-Gateway/src/main/java/com/sqli/detector/securitygateway/filter/SQLiDetectionFilter.java:172 | `Integer.toHexString` gives at least one digit, and exactly one iff the value is below 16 |
| Fingerprint.PaddedHex | SQLi-Security-Gateway/src/main/java/com/sqli/detector/securitygateway/filter/SQLiDetectionFilter.java:172-174 | the digits of one byte, zero-padded when only one, are the two-character lowercase pair (high nibble, low nibble) |
| Fingerprint.HexEncode | SQLi-Security-Gateway/src/main/java/com/sqli/detector/securitygateway/filter/SQLiDetectionFilter.java:170-176 | the encoding has exactly two characters per digest byte |
| Fingerprint.HexEncodeAppend | SQLi-Security-Gateway/src/main/java/com/sqli/detector/securitygateway/filter/SQLiDetectionFilter.java:171-175 | appending a byte to the digest appends that byte's pair to the encoding |
| Fingerprint.HexEncodeAt | SQLi-Security-Gateway/src/main/java/com/sqli/detector/securitygateway/filter/SQLiDetectionFilter.java:171-175 | characters 2i and 2i+1 of the encoding are the pair of byte i |
| Fingerprint.HexEncodeLowercase | SQLi-Security-Gateway/src/main/java/com/sqli/detector/securitygateway/filter/SQLiDetectionFilter.java:172-174 | every character of the encoding is one of 0-9, a-f |
| Fingerprint.HexDecode | SQLi-Security-Gateway/src/main/java/com/sqli/detector/securitygateway/filter/SQLiDetectionFilter.java:170-176 | a successful decode of a hex text has half as many bytes as the text has characters |
| Fingerprint.DigitValueOfHexDigit | SQLi-Security-Gateway/src/main/java/com/sqli/detector/securitygateway/filter/SQLiDetectionFilter.java:172 | reading back a hex digit gives its value |
| Fingerprint.HexRoundTrip | SQLi-Security-Gateway/src/main/java/com/sqli/detector/securitygateway/filter/SQLiDetectionFilter.java:170-176 | decoding the encoding of any digest gives the digest back |
| Fingerprint.HexEncodeInjective | SQLi-Security-Gateway/src/main/java/com/sqli/detector/securitygateway/filter/SQLiDetectionFilter.java:170-176 | different digests have different encodings |
| Fingerprint.Sha256KeyLength | SQLi-Security-Gateway/src/main/java/com/sqli/detector/securitygateway/filter/SQLiDetectionFilter.java:166-176 | a 32-byte SHA-256 digest gives a 64-character key |
| Fingerprint.PaddedStep | SQLi-Security-Gateway/src/main/java/com/sqli/detector/securitygateway/filter/SQLiDetectionFilter.java:172-174 | one loop iteration (the optional '0', then the digits) appends exactly the padded form of the byte |
| Fingerprint.EncodedPrefixGrows | SQLi-Security-Gateway/src/main/java/com/sqli/detector/securitygateway/filter/SQLiDetectionFilter.java:171-175 | after i iterations the builder holds the encoding of the first i digest bytes, and one more iteration extends it by the next byte |
| Fingerprint.CreateHash | SQLi-Security-Gateway/src/main/java/com/sqli/detector/securitygateway/filter/SQLiDetectionFilter.java:166-180 | the loop's output is the lowercase hex encoding of the SHA-256 digest of the UTF-8 bytes of the input |
| Redaction.LowerAscii | SQLi-Security-Gateway/src/main/java/com/sqli/detector/securitygateway/service/TelemetryService.java:55 | only 'p' and 'P' fold to 'p' (ASCII-only case folding) |
| Redaction.SecretLength | SQLi-Security-Gateway/src/main/java/com/sqli/detector/securitygateway/service/TelemetryService.java:55 | `\S+` runs greedily: every character before the returned length is non-whitespace, and it stops at whitespace or at the end |
| Redaction.RedactPii | SQLi-Security-Gateway/src/main/java/com/sqli/detector/securitygateway/service/TelemetryService.java:53-56 | the redacted text is at most twice as long as the input |
| Redaction.SecretLengthOf | SQLi-Security-Gateway/src/main/java/com/sqli/detector/securitygateway/service/TelemetryService.java:55 | a secret of non-whitespace characters followed by whitespace or the end is matched whole |
| Redaction.NoMatchUnchanged | SQLi-Security-Gateway/src/main/java/com/sqli/detector/securitygateway/service/TelemetryService.java:55 | a text with no case-insensitive `password=` followed by a non-whitespace character comes back unchanged |
| Redaction.PrefixKept | SQLi-Security-Gateway/src/main/java/com/sqli/detector/securitygateway/service/TelemetryService.java:55 | text before the first match is kept in order, and redaction goes on after it |
| Redaction.MatchReplaced | SQLi-Security-Gateway/src/main/java/com/sqli/detector/securitygateway/service/TelemetryService.java:55 | a keyword in any casing with its whole non-whitespace secret becomes exactly lowercase `password=[REDACTED]`, and scanning resumes after the secret |
| Redaction.NoMatchInsideKeyword | SQLi-Security-Gateway/src/main/java/com/sqli/detector/securitygateway/service/TelemetryService.java:55 | no match begins at offsets 1 to 8 of a keyword occurrence |
| Redaction.KeywordBeforeSpaceKept | SQLi-Security-Gateway/src/main/java/com/sqli/detector/securitygateway/service/TelemetryService.java:55 | a text that starts with the keyword directly followed by whitespace keeps both, and the rest is redacted on its own |
| Redaction.KeywordAtEndKept | SQLi-Security-Gateway/src/main/java/com/sqli/detector/securitygateway/service/TelemetryService.java:55 | a text that is the keyword alone comes back unchanged |
| Redaction.KeywordAtEndKeptAfter | SQLi-Security-Gateway/src/main/java/com/sqli/detector/securitygateway/service/TelemetryService.java:55 | a keyword at the end of a text is kept when no match begins before it (an earlier secret would take it along) |
| Redaction.SpaceStaysFirst | SQLi-Security-Gateway/src/main/java/com/sqli/detector/securitygateway/service/TelemetryService.java:55 | redacting text that starts with whitespace keeps that first character |
| Redaction.ReplacementStable | SQLi-Security-Gateway/src/main/java/com/sqli/detector/securitygateway/service/TelemetryService.java:55 | the replacement text followed by whitespace or the end is redacted to itself |
| Redaction.FirstStep | SQLi-Security-Gateway/src/main/java/com/sqli/detector/securitygateway/service/TelemetryService.java:55 | one step of the scan: a match produces output starting with 'p', and otherwise the first character is copied |
| Redaction.KeptPrefix | SQLi-Security-Gateway/src/main/java/com/sqli/detector/securitygateway/service/TelemetryService.java:55 | an output prefix with no 'p' or 'P' was copied unchanged from the input |
| Redaction.NoNewMatch | SQLi-Security-Gateway/src/main/java/com/sqli/detector/securitygateway/service/TelemetryService.java:55 | redacting the rest of a text never creates a match at a position that had none |
| Redaction.RedactIdempotent | SQLi-Security-Gateway/src/main/java/com/sqli/detector/securitygateway/service/TelemetryService.java:55 | redacting twice is the same as redacting once |
| KeyValue.Incr | SQLi-Security-Gateway/src/main/java/com/sqli/detector/securitygateway/service/IpThrottlingService.java:53 | INCR: fails iff the key holds a live string; otherwise the new count is the old live count (0 if missing or expired) plus one, a live key keeps its expiry, a new one has none, and no other key changes |
| KeyValue.ExpireIn | SQLi-Security-Gateway/src/main/java/com/sqli/detector/securitygateway/service/IpThrottlingService.java:57-58 | EXPIRE succeeds iff the key is live; it then sets the expiry to now + ttl, keeps the value and touches no other key |
| KeyValue.SetEx | SQLi-Security-Gateway/src/main/java/com/sqli/detector/securitygateway/service/IpThrottlingService.java:67 | SET with TTL writes the value with expiry now + ttl, so the key is live until then; no other key changes |
| KeyValue.RedisStore.Increment | SQLi-Security-Gateway/src/main/java/com/sqli/detector/securitygateway/service/IpThrottlingService.java:53 | the store's entries become exactly Incr's result, and the count returned is Incr's |
| KeyValue.RedisStore.Expire | SQLi-Security-Gateway/src/main/java/com/sqli/detector/securitygateway/service/IpThrottlingService.java:57-58 | the store's entries become exactly ExpireIn's result |
| KeyValue.RedisStore.SetWithTtl | SQLi-Security-Gateway/src/main/java/com/sqli/detector/securitygateway/service/IpThrottlingService.java:67 | the store's entries become exactly SetEx's result |
| KeyValue.RedisStore.HasKey | SQLi-Security-Gateway/src/main/java/com/sqli/detector/securitygateway/service/IpThrottlingService.java:39 | true iff the key is live at the store's clock |
| Throttling.Blocked | SQLi-Security-Gateway/src/main/java/com/sqli/detector/securitygateway/service/IpThrottlingService.java:35-40 | never blocked with throttling off; blocked only while the block key is present (live, by definition); FailureBlocksAtThreshold and Escalation say when it becomes so |
| Throttling.AfterFailedAttempt | SQLi-Security-Gateway/src/main/java/com/sqli/detector/securitygateway/service/IpThrottlingService.java:46-69 | with throttling off the store is unchanged; otherwise no key but the IP's counter and block key changes; the lemmas below give the counter, its window and the block key |
| Throttling.KeysDistinct | SQLi-Security-Gateway/src/main/java/com/sqli/detector/securitygateway/service/IpThrottlingService.java:29-30 | a counter key never equals a block key |
| Throttling.KeysInjective | SQLi-Security-Gateway/src/main/java/com/sqli/detector/securitygateway/service/IpThrottlingService.java:29-30 | different IPs have different counter keys and different block keys |
| Throttling.ThrottlingDisabled | SQLi-Security-Gateway/src/main/java/com/sqli/detector/securitygateway/service/IpThrottlingService.java:35-49 | with throttling disabled no IP is blocked and recording a failure leaves the store unchanged |
| Throttling.FailureIncrementsCounter | SQLi-Security-Gateway/src/main/java/com/sqli/detector/securitygateway/service/IpThrottlingService.java:51-53 | a failure raises the IP's live counter by exactly one, a missing or expired one counting as 0 |
| Throttling.FailureSetsWindowOnce | SQLi-Security-Gateway/src/main/java/com/sqli/detector/securitygateway/service/IpThrottlingService.java:54-60 | the counter's expiry becomes now + window only when the new count is 1; otherwise it is kept, not extended |
| Throttling.FailureBlocksAtThreshold | SQLi-Security-Gateway/src/main/java/com/sqli/detector/securitygateway/service/IpThrottlingService.java:62-67 | at or above maxAttempts the block key is (re)written with expiry now + block duration and the IP is blocked until then; below it the block key is untouched |
| Throttling.FailureOnTextCounter | SQLi-Security-Gateway/src/main/java/com/sqli/detector/securitygateway/service/IpThrottlingService.java:53-69 | if INCR fails because the counter holds a string, the chain stops and the store is unchanged |
| Throttling.FailureTouchesOnlyOwnKeys | SQLi-Security-Gateway/src/main/java/com/sqli/detector/securitygateway/service/IpThrottlingService.java:51-67 | no key other than the IP's counter and block key changes |
| Throttling.FailureLeavesOtherIps | SQLi-Security-Gateway/src/main/java/com/sqli/detector/securitygateway/service/IpThrottlingService.java:51-67 | another IP's counter, block key and blocked status are unchanged |
| Throttling.CounterWithinWindow | SQLi-Security-Gateway/src/main/java/com/sqli/detector/securitygateway/service/IpThrottlingService.java:53-60 | starting with no live counter, n failures inside one window leave the counter at n, expiring one window after the first |
| Throttling.Escalation | SQLi-Security-Gateway/src/main/java/com/sqli/detector/securitygateway/service/IpThrottlingService.java:42-67 | starting with no live counter, maxAttempts failures inside one window make the IP blocked |
| Throttling.WindowRestartsCount | SQLi-Security-Gateway/src/main/java/com/sqli/detector/securitygateway/service/IpThrottlingService.java:53-62 | after the window has passed, a failure starts a new count of 1 and, with a threshold above 1, does not block |
| Throttling.FailuresWindowApart | SQLi-Security-Gateway/src/main/java/com/sqli/detector/securitygateway/service/IpThrottlingService.java:53-60 | on the service's store: a failure, the clock moved on by one window, then a second failure leaves the counter at 1 |
| Throttling.IpThrottlingService.IsBlocked | SQLi-Security-Gateway/src/main/java/com/sqli/detector/securitygateway/service/IpThrottlingService.java:35-40 | the result is Blocked: throttling on and the block key live |
| Throttling.IpThrottlingService.RecordFailedAttempt | SQLi-Security-Gateway/src/main/java/com/sqli/detector/securitygateway/service/IpThrottlingService.java:46-70 | the store becomes exactly AfterFailedAttempt of the old store at the current time; the clock does not move |
| DetectionFilter.HandleFailure | SQLi-Security-Gateway/src/main/java/com/sqli/detector/securitygateway/filter/SQLiDetectionFilter.java:143-153 | the failure is logged exactly once whatever the policy; a substitute response exists iff fail-open, and its score is 0.0; fail-closed passes the original error on |
| DetectionFilter.CallModelService | SQLi-Security-Gateway/src/main/java/com/sqli/detector/securitygateway/filter/SQLiDetectionFilter.java:138-140 | a failure event is logged iff the call failed; a decision is obtained iff the model replied or the policy is fail-open; its score is the model's score, or 0.0 after a failure; otherwise the call's error is the result |
| DetectionFilter.ProcessOutcome | SQLi-Security-Gateway/src/main/java/com/sqli/detector/securitygateway/filter/SQLiDetectionFilter.java:88-127 | the body is read first; the clock does not move and the cache only gains entries; the only rejection is 403, and the throttle store changes only on a 403; DecisionOutcome, CacheGetOrLoad and the count lemmas give the rest |
| DetectionFilter.FilterOutcome | SQLi-Security-Gateway/src/main/java/com/sqli/detector/securitygateway/filter/SQLiDetectionFilter.java:70-86 | no event at all iff detection is off; the clock does not move and the cache only gains entries; rejections are 403 or 429, and the throttle store changes only on a 403; the lemmas below give each path |
| DetectionFilter.FallbackPolicy | SQLi-Security-Gateway/src/main/java/com/sqli/detector/securitygateway/filter/SQLiDetectionFilter.java:143-153 | a failed call logs its failure exactly once; fail-open scores it as 0.0 (ALLOW when both thresholds are positive); fail-closed yields the error and no decision |
| DetectionFilter.ReplyClassified | SQLi-Security-Gateway/src/main/java/com/sqli/detector/securitygateway/filter/SQLiDetectionFilter.java:138-140 | a model reply is classified by evaluateScore with no failure logged |
| DetectionFilter.LoggedCount | SQLi-Security-Gateway/src/main/java/com/sqli/detector/securitygateway/filter/SQLiDetectionFilter.java:143-145 | the fallback logs one failure event for a failed call and none for a reply |
| DetectionFilter.DisabledPassThrough | SQLi-Security-Gateway/src/main/java/com/sqli/detector/securitygateway/filter/SQLiDetectionFilter.java:71-73 | with detection off the request is forwarded unchanged with no event at all and no state change |
| DetectionFilter.BlockedIpRejected | SQLi-Security-Gateway/src/main/java/com/sqli/detector/securitygateway/filter/SQLiDetectionFilter.java:77-83 | a blocked IP gets 429 after the throttle lookup alone: no body read, model call, telemetry or recorded failure, no state change |
| DetectionFilter.EmptyBodyCompletes | SQLi-Security-Gateway/src/main/java/com/sqli/detector/securitygateway/filter/SQLiDetectionFilter.java:88-91 | an empty body completes the exchange after the body read, with no inspection and no forwarding |
| DetectionFilter.LookupCount | SQLi-Security-Gateway/src/main/java/com/sqli/detector/securitygateway/filter/SQLiDetectionFilter.java:90-109 | the lookup phase reads the body once, calls the model once, and runs the cache loader once on a miss and never on a hit |
| DetectionFilter.DecisionCount | SQLi-Security-Gateway/src/main/java/com/sqli/detector/securitygateway/filter/SQLiDetectionFilter.java:111-119 | an obtained decision is logged once, and a failed attempt is recorded once for BLOCK and never otherwise; an error logs neither |
| DetectionFilter.InspectionTraceCount | SQLi-Security-Gateway/src/main/java/com/sqli/detector/securitygateway/filter/SQLiDetectionFilter.java:92-125 | an inspection trace has one body read and one model call, a loader run iff loaded, the fallback's events, one decision event per decision, and a failed-attempt event iff BLOCK |
| DetectionFilter.InspectedEventCount | SQLi-Security-Gateway/src/main/java/com/sqli/detector/securitygateway/filter/SQLiDetectionFilter.java:70-127 | the number of events of each kind in the trace of an inspected request |
| DetectionFilter.InspectedEventCounts | SQLi-Security-Gateway/src/main/java/com/sqli/detector/securitygateway/filter/SQLiDetectionFilter.java:70-127 | an inspected request has exactly one throttle lookup, body read and model call (also on a cache hit), a loader run only on a cache miss, one failure event per failed call, one logDecision per decision obtained, and one recorded failed attempt exactly for BLOCK |
| DetectionFilter.CacheGetOrLoad | SQLi-Security-Gateway/src/main/java/com/sqli/detector/securitygateway/filter/SQLiDetectionFilter.java:107-109 | on a miss the call for this payload is stored; on a hit the stored call is used and the cache is unchanged; the model is called with the stored call |
| DetectionFilter.DecisionOutcome | SQLi-Security-Gateway/src/main/java/com/sqli/detector/securitygateway/filter/SQLiDetectionFilter.java:111-124 | every decision is logged with the redacted payload; BLOCK gives 403, ends with one recorded failure and updates the throttle store by AfterFailedAttempt; MONITOR and ALLOW forward the request whose body is the UTF-8 encoding of the body text inside the payload, leaving the throttle store alone |
| DetectionFilter.FailClosedNotForwarded | SQLi-Security-Gateway/src/main/java/com/sqli/detector/securitygateway/filter/SQLiDetectionFilter.java:149-152 | fail-closed: a failed call ends with the error after logging it, nothing is forwarded and the throttle store is unchanged |
| DetectionFilter.FailOpenForwards | SQLi-Security-Gateway/src/main/java/com/sqli/detector/securitygateway/filter/SQLiDetectionFilter.java:146-148 | fail-open with positive thresholds: a failed call is logged, then ALLOW with score 0.0 is logged and the request is forwarded |
| DetectionFilter.BlockScenario | SQLi-Security-Gateway/src/main/java/com/sqli/detector/securitygateway/filter/SQLiDetectionFilter.java:111-118 | a score of 0.95 against thresholds 0.8/0.5 gives 403, raises the IP's counter by one and logs BLOCK with 0.95 |
| DetectionFilter.DecisionCache.Get | SQLi-Security-Gateway/src/main/java/com/sqli/detector/securitygateway/filter/SQLiDetectionFilter.java:107-109 | the loader runs iff the key is absent; a hit returns the stored call, a miss stores and returns the call for this payload |
| DetectionFilter.SQLiDetectionFilter.Filter | SQLi-Security-Gateway/src/main/java/com/sqli/detector/securitygateway/filter/SQLiDetectionFilter.java:70-86 | the outcome, the trace and the new store and cache are exactly FilterOutcome of the old state |
| DetectionFilter.SQLiDetectionFilter.ProcessRequest | SQLi-Security-Gateway/src/main/java/com/sqli/detector/securitygateway/filter/SQLiDetectionFilter.java:88-127 | the outcome, the trace and the new store and cache are exactly ProcessOutcome of the old state |

## Left out

- The model-service HTTP call, its timeout and the circuit breaker's state machine (WebClient and Resilience4j) are network I/O and library code. The reply is an input, either a score or a failure with a message. The WebClient setup in SQLi-Security-Gateway/src/main/java/com/sqli/detector/securitygateway/config/AppConfig.java:22-31 is not modelled.
- Caffeine's expire-after-write and maximum-size eviction (SQLi-Security-Gateway/src/main/java/com/sqli/detector/securitygateway/config/AppConfig.java:33-42) are library policy. Concurrent single-flight loading is concurrency. The cache is modelled as a map that only grows.
- Reactor scheduling is left out. `recordFailedAttempt`'s fire-and-forget chain is one atomic step, taken before the 403 is reported. Concurrent requests, other gateway instances, and Redis availability and atomicity are also out.
- SHA-256, and UTF-8 encoding and decoding of the body, are parameters. The absence of the SHA-256 algorithm (the `RuntimeException` path) is not modelled. For invalid UTF-8 the replayed body is the re-encoding of the decoded text, not the original bytes.
- Floating point: scores are reals. NaN, the double/real gap and the `%.4f` formatting in telemetry are not modelled.
- Telemetry output: the JSON of `logDecision` and `logFailure`, and all log lines, are I/O. The model records only that each telemetry call happens, as a trace event, and which payload text is logged after redaction.
- Extraction of the client IP from the remote address is Spring plumbing; the IP is an input string. Response status setting and request decoration are modelled only as the outcome value.
- Throttling.ValidConfig: window and block durations must be positive. Redis's behaviour for zero or negative TTLs is not modelled.
- KeyValue.Incr: a numeric string stored by SET is not parsed as a counter, and Redis's 64-bit overflow error is not modelled. Counters are unbounded integers.
- The Python model service (TensorFlow inference, the Flask echo endpoint) and the Spring Boot application class are outside the gateway's logic.
