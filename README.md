# BitPay PHP client: option handling, invoice payload and notification check

This project models the logic inside the `BitPay\BitPay` client class of the
BitPay PHP SDK (`src/BitPay/BitPay.php`) that does not depend on the network:

- **Options.** The client keeps a string-keyed option map. It starts from the
  defaults at lines 32-41. `setOptions` merges new options over it with
  `array_merge`, so the last write wins. `setOption` sets a single key.
- **Invoice payload.** `createInvoice` merges the per-call options over the
  instance options into a local copy. It wraps the merchant's order metadata
  (`posData`) in an envelope `{posData: metadata}`. When the merged
  `verifyPos` is truthy, it adds `hash = encrypt(serialize(metadata))`.
  Then it forces `posData` (the envelope as JSON text), `orderID` and `price`.
  Last, a `foreach` over a fixed allow-list copies the allow-listed entries
  into the outgoing payload, in allow-list order.
- **Notification check.** `verifyNotification` decodes the body. A decoded
  string is returned unchanged. A mapping without `posData` gives
  `'no posData'`. When the instance option `verifyPos` is on, the envelope's
  hash is compared with the tag of its metadata, and a mismatch gives
  `'authentication failed (bad hash)'`. Otherwise the decoded mapping is
  returned with `posData` replaced by the metadata.

Files:

- `PhpJson.dfy` (module `PhpJson`) holds JSON values as `json_decode($s, true)`
  yields them, plus PHP truthiness, array indexing (`$a['k']` is null for a
  missing key) and PHP's loose `==` between a decoded value and a string. It
  also holds `Runtime`, the PHP built-ins `json_encode`, `json_decode` and
  `serialize`, which are passed in as functions. `RoundTrips(php, v)` says
  that decoding the encoding of one value `v` gives `v` back. The round-trip
  lemmas require it only for the values they decode.
- `BitPay.dfy` (module `BitPay`) holds the allow-list, the defaults, the
  envelope, the selection function `Select` with its lemmas, and the class
  `BitPay`:
  - The class keeps its options in a `map` field that `SetOptions` and
    `SetOption` reassign (`modifies this`options`).
  - The injected encrypter is a constructor argument, `encrypt`.
  - `CreateInvoice` builds the merged map step by step, then runs the source's
    loop over the allow-list. It is proved against `Select`.
  - `CreateInvoice` has no `modifies` clause, so it provably leaves the
    instance options as they were.
  - `VerifyNotification` is a function that reads `options` and returns an
    `Outcome`. Its extra argument `cmp` chooses how the hash is compared:
    `Loose` is the `!=` of line 198 as written, `Strict` the exact comparison
    (see "## Findings").
- `BitPayProperties.dfy` (module `BitPayProperties`) holds the properties of the
  payload and of the notification check. This includes the round trip: a
  notification that carries back an invoice's `posData` is trusted and yields
  the original metadata.

`VerifyNotification` returns an `Outcome`. Where the PHP code returns plain
strings, the outcomes are kept apart: `Echoed(text)`, `NoPosData` and
`BadHash`. `ReturnedText` gives the string PHP actually returns.
`EchoedBodyMimicsFailure` shows why they must be kept apart: a body that
decodes to the text of a failure message gives back exactly that failure
string.

In these places the code behaves in ways a caller may not expect; the model
follows the code:

- A body that decodes to a string is returned as-is (line 187), although the
  comment there calls it an error. It is indistinguishable from the failure
  strings.
- A body that does not decode, or that decodes to a number or a boolean, is not
  handled by the code. Line 186 catches only strings, and line 190 then passes
  a non-array to `array_key_exists`. The model gives these bodies the separate
  outcome `Unhandled`, and it does the same when the `posData` member is a list
  or a mapping, which `json_decode` at line 194 does not accept.
- A `posData` member that is a number, a boolean or null is turned into text by
  `json_decode` and decodes to a scalar, so both the envelope's `posData` and
  its `hash` read as null. The check then goes on as for any other envelope.
- A decoded JSON list has only integer keys, so it yields `NoPosData`.
- `verifyNotification` reads the instance's `verifyPos` (line 196), while
  `createInvoice` reads the per-call merged value (line 133). The round trip
  therefore requires the two to agree. `VerifyPosOverrideBreaksRoundTrip`
  proves that an invoice built with a per-call `verifyPos` that is off fails
  the instance's check.
- `apiKey` appears among the option keys documented at line 122. It is not on
  the allow-list, so it is never forwarded (`PayloadExcludesUnlisted`).

## Model

| member | source | states |
|---|---|---|
| `BitPay.Merge` | src/BitPay/BitPay.php:80 | `array_merge` on string keys: the result has the keys of both maps, every key of the second map takes the second map's value, and every other key keeps the first map's value |
| `BitPay.Envelope` | src/BitPay/BitPay.php:131-135 | the envelope always holds the metadata unchanged under `posData`; it has a `hash` key iff verification is on; the hash is then `encrypt(serialize(metadata))`; it holds no other keys |
| `BitPay.SelectKeysDistinct` | src/BitPay/BitPay.php:164-168 | over a key list without repeats, no key is selected twice |
| `BitPay.AllowListDistinct` | src/BitPay/BitPay.php:141-162 | no key occurs twice on the allow-list |
| `BitPay.HashDiffers` | src/BitPay/BitPay.php:198 | both comparisons accept the hash that is exactly the tag, and the strict one accepts nothing else |
| `PhpJson.Truthy` | src/BitPay/BitPay.php:133 | a value is truthy iff it is none of PHP's falsy values: null, `false`, `0`, `""`, `"0"`, an empty list, an empty mapping |
| `BitPay.BitPay.InvoiceFields` | src/BitPay/BitPay.php:129-139 | the fields are the keys of the merged options plus `posData`, `orderID` and `price`; `orderID` and `price` are the arguments, `posData` is the JSON text of the envelope built with the merged `verifyPos`, and every other key keeps its merged value |
| `BitPay.BitPay.VerifyNotification` | src/BitPay/BitPay.php:182-206 | a trusted result comes only from a decoded mapping with a `posData` key; it has that mapping's keys, `posData` replaced by the envelope's metadata and every other value unchanged |
| `BitPay.SelectSnoc` | src/BitPay/BitPay.php:164-168 | one more loop iteration over key `k` appends `k`'s entry exactly when `k` is present |
| `BitPay.Select` | src/BitPay/BitPay.php:164-168 | the selection has at most one entry per listed key; its members, order and positions are stated by the lemmas below |
| `BitPay.SelectMembers` | src/BitPay/BitPay.php:164-168 | an entry `(k, v)` is selected iff `k` is listed, `k` is present and `v` is its value |
| `BitPay.KeptPositionsIncrease` | src/BitPay/BitPay.php:164-168 | the positions of the selected keys lie inside the key list, hold present keys and strictly increase |
| `BitPay.KeptPositionsComplete` | src/BitPay/BitPay.php:164-168 | the position of every listed key that is present is among the selected positions |
| `BitPay.SelectAtKeptPositions` | src/BitPay/BitPay.php:164-168 | selected entry `i` is the map's entry for the key at selected position `i`, and there are as many entries as positions |
| `BitPay.BitPay.constructor` | src/BitPay/BitPay.php:51-57 | the new client holds the given encrypter and API key, and its options are the given options merged over the defaults of lines 32-41 |
| `BitPay.BitPay.SetOptions` | src/BitPay/BitPay.php:78-83 | afterwards every key of `o` maps to `o`'s value, every other previously present key keeps its old value, and no other key appears |
| `BitPay.BitPay.SetOption` | src/BitPay/BitPay.php:93-98 | afterwards `name` maps to `value` and every other key keeps its old value |
| `BitPay.BitPay.CreateInvoice` | src/BitPay/BitPay.php:127-168 | the payload the loop builds is the allow-list selection of the merged options with `posData`, `orderID` and `price` forced; the instance options are not modified |
| `BitPayProperties.ForcedKeysListed` | src/BitPay/BitPay.php:137-162 | the three keys `createInvoice` forces are all on the allow-list |
| `BitPayProperties.UnlistedKey` | src/BitPay/BitPay.php:141-162 | `foo`, `apiKey` and `verifyPos` are not on the allow-list |
| `BitPayProperties.PayloadForcedFields` | src/BitPay/BitPay.php:131-139 | an `orderID` entry is in the payload iff its value is the argument, and the same for `price`, even when the options supply those keys; a `posData` entry is in the payload iff its value is the JSON text of the envelope built with the merged `verifyPos` |
| `BitPayProperties.PayloadKeysDistinct` | src/BitPay/BitPay.php:141-168 | no key appears twice in the payload, as in the PHP array `$post` |
| `BitPayProperties.PayloadMergedFields` | src/BitPay/BitPay.php:129-168 | for every other key, `(k, v)` is in the payload iff `k` is allow-listed, present in the merged options and `v` is its merged value |
| `BitPayProperties.PayloadExcludesUnlisted` | src/BitPay/BitPay.php:141-168 | no entry for `foo`, `apiKey` or `verifyPos` ever reaches the payload |
| `BitPayProperties.PayloadInAllowListOrder` | src/BitPay/BitPay.php:141-168 | payload entry `i` has the key at allow-list position `pos[i]`; the positions strictly increase; no allow-listed key present in the fields is skipped |
| `BitPayProperties.DecodedStringReturnedAsIs` | src/BitPay/BitPay.php:184-188 | the outcome is `Echoed` iff the body decodes to a string, and it then carries that string unchanged |
| `BitPayProperties.MissingPosDataRejected` | src/BitPay/BitPay.php:190-192 | the outcome is `NoPosData` iff the body decodes to a list, or to a mapping without a `posData` key |
| `BitPayProperties.BadHashExactly` | src/BitPay/BitPay.php:194-201 | the outcome is `BadHash` iff the body is a mapping whose `posData` is a string or a scalar, the instance's `verifyPos` is truthy, and the comparison rejects the envelope's `hash` against the tag of the envelope's metadata; so the hash is looked at only after both earlier checks pass |
| `BitPayProperties.NoBadHashWithoutVerifyPos` | src/BitPay/BitPay.php:196-201 | with the instance's `verifyPos` not truthy, no body yields `BadHash` |
| `BitPayProperties.InvoiceNotificationRoundTrip` | src/BitPay/BitPay.php:127-205 | if JSON gives back the notification and the envelope, and the merged `verifyPos` agrees with the instance's, then a notification that carries the payload's `posData` entry is trusted and equals the notification with `posData` replaced by the original metadata |
| `BitPayProperties.VerifyPosOverrideBreaksRoundTrip` | src/BitPay/BitPay.php:129-199 | when the instance verifies but the per-call `verifyPos` was off, the invoice's own notification is rejected with `BadHash` (under the loose comparison, provided the tag is not empty) |
| `BitPayProperties.TamperedMetadataRejected` | src/BitPay/BitPay.php:196-200 | with verification on, an envelope whose metadata was swapped for metadata with a different tag, keeping the original hash, is rejected with `BadHash` |
| `BitPayProperties.TrueHashBypassesCheck` | src/BitPay/BitPay.php:194-203 | as written, with verification on, an envelope whose `hash` is JSON `true` is trusted for any metadata whose tag is neither empty nor `"0"` |
| `BitPayProperties.StrictTrustedIsAuthentic` | src/BitPay/BitPay.php:194-203 | with the exact comparison and verification on, a trusted result's metadata always came with an envelope hash equal to its own tag |
| `BitPayProperties.EchoedBodyMimicsFailure` | src/BitPay/BitPay.php:186-199 | a body that decodes to the text `no posData` or `authentication failed (bad hash)` is echoed, and PHP returns the same string it returns for that failure |

## Findings

| source | as written | input that shows it | evidently intended | confidence | as-written member | corrected member |
|---|---|---|---|---|---|---|
| src/BitPay/BitPay.php:198 | `$posData['hash'] != $encryptCheck` is PHP's loose comparison, and `true != "<tag>"` is false for every tag but `""` and `"0"` | a notification whose `posData` is `{"posData": <any metadata>, "hash": true}`, with `verifyPos` on | the hash must be exactly the tag of the metadata (`!==`) | high, not executed | `BitPayProperties.TrueHashBypassesCheck` | `BitPayProperties.StrictTrustedIsAuthentic` |

## Left out

- HTTP transport is not modelled. This covers `getInvoice` (lines 105-110),
  the `request->post` call (line 172) and the `(object)` casts of the
  responses. It goes through a `Curl` collaborator that is not part of this
  model.
- The JSON text of the payload (line 170) is not modelled. `CreateInvoice`
  returns the ordered payload just before that encoding.
- `setApiKey` (lines 65-70) only stores a field and is not modelled. The
  constructor stores the key directly.
- The `return $this` that makes the setters chainable is not modelled.
- The encrypter's algorithm is not modelled. `EncrypterInterface` is not part
  of this model, so `encrypt` is an arbitrary function of strings.
- The formats of `serialize`, `json_encode` and `json_decode` are not
  modelled. They are arbitrary functions in `Runtime`, and a JSON round trip
  is assumed only where `RoundTrips` is required, for one value at a time.
- JSON objects are unordered maps. The order of members inside the envelope and
  inside a decoded notification is not modelled. The order of the invoice
  payload is modelled.
- PHP cannot tell `{}` from `[]` once decoded into arrays. The model keeps them
  distinct. Float precision in the JSON round trip is not modelled.
- Option keys are assumed non-numeric. PHP stores a key such as `"5"` as the
  integer 5, and `array_merge` renumbers integer keys; neither is modelled.
- The default arguments are not modelled: `$key = null` and `$options =
  array()` of the constructor (line 51), and `$posData = array()`, `$options =
  array()` of `createInvoice` (line 127). Callers pass every argument, and the
  API key is a string.
- `LooseEqualsString` models the `!=` of line 198 for a hash that is null, a
  boolean, a list or a mapping, and for a string hash when either side is not
  a numeric string. Two numeric strings that PHP compares as numbers (`"1e1"`
  and `"10"`), and a number compared with the tag, are not modelled: the model
  counts them as different.
- A body that decodes to null, a boolean or a number, and a `posData` member
  that is a list or a mapping, are reported as `Unhandled`. PHP 8 throws a
  `TypeError` in `array_key_exists` (line 190) or `json_decode` (line 194)
  for them. PHP 7 warns and goes on with null, which gives `no posData` for
  the body and a null envelope for the member; that older behaviour is not
  modelled.
- When the inner `posData` decodes to a string, PHP's string-offset behaviour
  on `$posData['posData']` is not modelled. The model reads it as null, as for
  any non-mapping.
