# Lunch with Gareth: a Dafny model of the bill-split core

Lunch with Gareth is a progressive web app for splitting a meal bill over
Nostr. One person photographs a receipt and enters the fiat total. The app
converts the total to satoshis at a live Bitcoin rate and splits it among
the participants' public keys. It stores the receipt locally and publishes a
kind 1 payment-request note to the user's relays. Each participant is then
sent an encrypted kind 4 direct message. Payments are recorded against the
receipt and announced with a reply note.

This project models the domain logic behind that flow, one Dafny module per
source file:

| module | source file | form |
|---|---|---|
| `Common` | shared helpers: sums, ASCII case, `toString(radix)`, hex rendering, sorting | functions and lemmas |
| `Models` | `src/types/models.ts` | datatypes |
| `Rounding` | `src/lib/rounding.ts` | functions and lemmas |
| `BillSplit` | `src/lib/billSplit.ts` | split arithmetic, a `BillSplitService` class, outcome functions |
| `Fx` | `src/lib/fx.ts` | an `FxManager` class over two cache maps, with specification functions |
| `Storage` | `src/lib/storage.ts` | a `StorageManager` class whose object stores are maps |
| `Events` | `src/lib/events.ts` | event construction, publish aggregation, an `EventManager` class |
| `Relays` | `src/lib/relays.ts` | a `RelayManager` class over the relay list |
| `Crypto` | `src/lib/crypto.ts` | key-blob framing and the hex codec over injected primitives |
| `Ids` | `src/lib/ids.ts` | request-id format and digest rendering |
| `Contacts` | `src/lib/contacts.ts` | a `ContactManager` class over a map and its insertion order |
| `StoreCommon` | shared by the Zustand stores: error messages, spread merges, list filters | functions and lemmas |
| `AuthStore` | `src/store/auth.ts` | an `AuthStore` class |
| `AuthFeature` | `src/features/auth/store.ts` | an `AuthStore` class |
| `ReceiptFeature` | `src/features/receipt/store.ts` | a `ReceiptStore` class |
| `ContactsFeature` | `src/features/contacts/store.ts` | a `ContactStore` class |
| `SettingsFeature` | `src/features/settings/store.ts` | a `SettingsStore` class |

Everything outside the program becomes an input:

- The clock is a `now: int` parameter, read once per call.
- Random UUIDs and salts are parameters.
- What each relay answers is an input: a trace of messages, or the tags and profiles it returns.
- What each price source and the rate table return are inputs.
- The foreign primitives are function values held in records. These are PBKDF2, AES-GCM, base64, SHA-256, signing, NIP-04 and the key decoder. Lemmas that need their laws take those laws as a `requires` (`Crypto.Lawful`, `AuthStore.KeyLaws`).
- The storage service of the feature stores is foreign too. What each of its calls resolves to, or throws, is an input.

A Zustand store becomes a class:

- Each action is a method with `modifies this`.
- `set` calls become field assignments.
- The `partialize` option is a `Persisted()` function.
- Rehydration after a reload is the constructor `Rehydrate`.
- `{...a, ...u}` with a `Partial<T>` is a patch datatype with an `Option` per field. `None` stands for an absent key.

## Model

| member | source | states |
|---|---|---|
| Common.Lower | src/lib/contacts.ts:271 | the ASCII part of `toLowerCase`: the length is kept, `A`-`Z` become `a`-`z` and every other character is kept |
| Common.Upper | src/lib/fx.ts:133 | the ASCII part of `toUpperCase`: the length is kept, `a`-`z` become `A`-`Z` and every other character is kept |
| Common.Slice | src/lib/ids.ts:9 | `slice(start, end)` never returns more than the input, and its i-th character is the input's character at `start + i` |
| Common.SliceBounds | src/lib/ids.ts:9 | `slice(start, end)` is exactly the input from `start` up to `min(end, length)`, and empty when `start` is past either |
| Common.RadixRoundTrip | src/lib/ids.ts:8 | `n.toString(36)` is non-empty and reads back as `n` |
| Common.RadixDigits | src/lib/ids.ts:8 | `toString(radix)` writes only digits and lowercase letters, so never `_` |
| Common.DecimalRoundTrip | src/lib/events.ts:73 | `n.toString()` of any integer reads back as `n` |
| Common.ByteHex | src/lib/crypto.ts:5 | `toString(16).padStart(2,'0')` is exactly two lowercase hex digits |
| Common.Hex | src/lib/crypto.ts:5 | the rendering of a byte string has two lowercase hex digits per byte |
| Common.HexAt | src/lib/crypto.ts:5 | characters `2k` and `2k+1` of the rendering are byte `k`'s two digits |
| Common.HexAppend | src/lib/ids.ts:25 | the rendering of a concatenation is the concatenation of the renderings |
| Common.InsertDesc | src/lib/storage.ts:103-107 | inserting into a list adds exactly that element |
| Common.InsertDescSorted | src/lib/storage.ts:103-107 | inserting into a list ordered newest first keeps it ordered |
| Models.Shares | src/lib/rounding.ts:38 | the shares of a participant list, one per participant, in order |
| Models.Paids | src/lib/rounding.ts:42 | the paid amounts of a participant list, one per participant, in order |
| Models.Pubkeys | src/lib/events.ts:83-85 | the pubkeys of a participant list, one per participant, in order |
| Rounding.SplitEqual | src/lib/rounding.ts:3-12 | same count, order and pubkeys; paid reset to 0 and status to pending; each share is `floor(total/n)` |
| Rounding.SplitEqualTotal | src/lib/rounding.ts:3-12 | the equal shares sum to `total - total mod n`, so at most the total and less than `n` short; the split is `open` |
| Rounding.SplitCustom | src/lib/rounding.ts:14-28 | same count, order and pubkeys; paid 0 and pending; share i is `floor(total * w_i / sum w)` |
| Rounding.CustomShares | src/lib/rounding.ts:17-20 | one floored share per weight against the same total weight |
| Rounding.CustomSharesBelowExact | src/lib/rounding.ts:19 | the floored shares never exceed the exact proportional amounts |
| Rounding.SplitCustomNeverOverAllocates | src/lib/rounding.ts:14-28 | with non-negative weights of positive sum, the custom shares sum to at most the total and nothing is paid |
| Rounding.CalculatePaymentStatus | src/lib/rounding.ts:30-35 | pending iff nothing paid; partial iff paid below the share; paid iff equal; overpaid iff above (each an iff) |
| Rounding.TotalsAppend | src/lib/rounding.ts:37-43 | the owed and paid totals of a list are the sums over its parts |
| Rounding.GetOverallStatus | src/lib/rounding.ts:45-52 | open iff total paid is 0; partial below the total owed; settled at it; overpaid above (each an iff) |
| Rounding.AllPaidIsSettled | src/lib/rounding.ts:30-52 | when every participant with a positive share is individually paid, the overall status is settled |
| Rounding.OneShortIsNotSettled | src/lib/rounding.ts:45-52 | one participant short of the share, with nobody above theirs, is neither settled nor overpaid |
| BillSplit.JsRem | src/lib/billSplit.ts:292 | JavaScript `%`: Euclidean for a non-negative dividend; takes the dividend's sign otherwise |
| BillSplit.Bumped | src/lib/billSplit.ts:293-299 | `n` equal shares with the first `extra` raised by one |
| BillSplit.BumpedSum | src/lib/billSplit.ts:293-299 | those shares sum to `n*base + extra` |
| BillSplit.CalculateEqualSplit | src/lib/billSplit.ts:290-302 | n shares, each `floor(total/n)` plus one exactly below index `total mod n`; the sum is the total for a non-negative total; a negative total with a remainder is under-allocated |
| BillSplit.EqualSharesMeaning | src/lib/billSplit.ts:290-302 | share `i` is `floor(total/n)` plus one exactly below `total mod n` (JavaScript remainder); the shares sum to the total when it is non-negative, and fall short of a negative total that `n` does not divide |
| BillSplit.EqualSharesTotal | src/lib/billSplit.ts:290-302 | the shares sum to the total when it is non-negative, else to `n * floor(total/n)` |
| BillSplit.EqualSplitIsValid | src/lib/billSplit.ts:305-308 | every equal split among at least one participant passes validation |
| BillSplit.ZeroSplitIsValid | src/lib/billSplit.ts:305-308 | an all-zero split of a non-negative total passes validation |
| BillSplit.ValidateSplitMonotone | src/lib/billSplit.ts:305-308 | validation is "sum at most total": a pointwise smaller split of a valid one is valid |
| BillSplit.RoundingSplitsAreValid | src/lib/billSplit.ts:305-308 | the shares of `splitEqual`, and of `splitCustom` under non-negative weights, pass validation |
| BillSplit.NewParticipants | src/lib/billSplit.ts:67-72 | keys and shares copied in input order; paid 0 and pending for all |
| BillSplit.NewRequestIsOpen | src/lib/billSplit.ts:67-72 | a new request owes the shares as given, nothing is paid, and its overall status is open |
| BillSplit.NewReceipt | src/lib/billSplit.ts:75-96 | the receipt's id, image name, converted amount, rate fields, participants and missing note id |
| BillSplit.PrivateKey | src/lib/billSplit.ts:125-128 | a failed decryption of the stored key is the error the request reports |
| BillSplit.Aborted | src/lib/billSplit.ts:188-197 | the catch branch: failure, empty ids, the message, and a zero `Manual Entry` rate |
| BillSplit.NoRateSavesNothing | src/lib/billSplit.ts:52-197 | without a rate nothing is saved and nothing is sent |
| BillSplit.SavedBeforeSigning | src/lib/billSplit.ts:99-128 | with a rate, the receipt is saved `local` with a `create` entry (and the image when supplied) before the key is decrypted; every other record is kept |
| BillSplit.SigningFailureLeavesLocal | src/lib/billSplit.ts:99-128 | a key or signing failure leaves that record `local`, publishes nothing and reports an empty receipt id with the message |
| BillSplit.PublishOutcomeMeaning | src/lib/billSplit.ts:141-186 | an accepted note sets the note id, `published`, the renamed image, a `publish` entry and success; otherwise the receipt is `failed` and the failure keeps the receipt id |
| BillSplit.NoticesDoNotChangeResult | src/lib/billSplit.ts:201-224 | the notices change neither the result nor the stored records |
| BillSplit.MarkPaidNeedsPublishedReceipt | src/lib/billSplit.ts:236-239 | a missing or unpublished receipt is refused and nothing changes |
| BillSplit.MarkPaidLogsPayment | src/lib/billSplit.ts:236-248 | the payer's record is updated by the storage rule and one `mark_paid` entry with the old and new amounts is appended, whatever happens to the key or the reply afterwards |
| BillSplit.MarkPaidRecordsPayment | src/lib/billSplit.ts:250-282 | the call succeeds exactly when the reply is signed; a second `mark_paid` entry, with the reply's id, is written exactly when a relay accepts the reply |
| BillSplit.MarkPaidWithoutRelays | src/lib/billSplit.ts:266-282 | with no relay the reply goes nowhere and the call still succeeds |
| BillSplit.BillSplitService.constructor | src/lib/billSplit.ts:40-42 | the service shares the managers and owns an event manager with no relays |
| BillSplit.BillSplitService.CreateBillSplitRequest | src/lib/billSplit.ts:45-198 | the result and the end state of every store equal the outcome function's, from the rate lookup on |
| BillSplit.BillSplitService.SaveLocally | src/lib/billSplit.ts:99-123 | the receipt saved `local`, the image when supplied, one `create` entry |
| BillSplit.BillSplitService.PublishRequest | src/lib/billSplit.ts:141-186 | steps 11 to 14 match the publish outcome function |
| BillSplit.BillSplitService.Settle | src/lib/billSplit.ts:145-186 | on the relays' answer, the receipt, the audit log, the result and the sockets match the settled outcome function |
| BillSplit.BillSplitService.MarkPublished | src/lib/billSplit.ts:145-160 | the saved receipt gets the note id, `published` and `rcpt_<id>.png`, and a `publish` entry is appended |
| BillSplit.BillSplitService.SendRecipientNotifications | src/lib/billSplit.ts:201-224 | one notice per participant in order, each independent of the others' failures |
| BillSplit.BillSplitService.SendNotice | src/lib/billSplit.ts:207-221 | one notice: build, sign and publish the DM; a throw skips the rest |
| BillSplit.BillSplitService.MarkParticipantPaid | src/lib/billSplit.ts:227-287 | the result and the end state equal the mark-paid outcome function's |
| BillSplit.BillSplitService.Initialize | src/lib/billSplit.ts:311-318 | relays start from the saved list and merge the user's list; the follow list is loaded only for a user |
| BillSplit.BillSplitService.Disconnect | src/lib/billSplit.ts:321-324 | every socket is closed and the relay list is kept |
| Fx.ConversionRate | src/lib/fx.ts:85-117 | a failed conversion leaves the cache; a success that changes it caches exactly this code for ten minutes |
| Fx.ConversionUsdIsOne | src/lib/fx.ts:86-88 | USD converts at 1 with nothing consulted or cached |
| Fx.ConversionCacheHit | src/lib/fx.ts:90-94 | a live cache entry is answered as is |
| Fx.ConversionFallback | src/lib/fx.ts:70-116 | when the table cannot be fetched the fixed multiplier is used and cached for ten minutes |
| Fx.ConversionMissingFails | src/lib/fx.ts:100-103 | a code missing from the table fails and the cache is kept |
| Fx.PriceIn | src/lib/fx.ts:158-162 | the converted price of a positive USD price is never zero |
| Fx.MakeRate | src/lib/fx.ts:164-171 | the rate record carries the uppercased code, the source's own name and the clock reading |
| Fx.TrySource | src/lib/fx.ts:154-176 | a success names this source and the clock; a failed fetch fails with this source's name and changes nothing |
| Fx.CachedRateIsReturned | src/lib/fx.ts:133-138 | a live entry under the uppercased code is returned with nothing consulted and nothing changed |
| Fx.UnsupportedFailsEarly | src/lib/fx.ts:141-147 | an unsupported code fails before any source and both caches are kept |
| Fx.TrySourcesOutcome | src/lib/fx.ts:152-187 | a success is cached under the uppercased code with expiry now + 600000; a failure caches nothing |
| Fx.FirstSourceWins | src/lib/fx.ts:152-177 | for any supported currency, when CoinGecko's price and the conversion both succeed, the rate is `floor(1e8 / (price * multiplier))` from CoinGecko and is cached for ten minutes |
| Fx.SecondSourceAfterFailure | src/lib/fx.ts:152-180 | for any supported currency, when CoinGecko's price or its conversion fails and CoinDesk succeeds, the rate is CoinDesk's and is cached |
| Fx.ConversionFailureFallsThrough | src/lib/fx.ts:152-182 | a currency missing from the first conversion table makes the lookup fall through to CoinDesk with the second table |
| Fx.AllFetchesFail | src/lib/fx.ts:180-187 | when every fetch fails the error carries the last failure and nothing is cached |
| Fx.ConvertToSats | src/lib/fx.ts:190-193 | the result is at most `amount * rate` and less than one below it |
| Fx.CreateManualRate | src/lib/fx.ts:205-213 | uppercased code, the given rate, source `Manual Entry`, the clock reading |
| Fx.GetCurrencySymbol | src/lib/fx.ts:215-225 | the symbol of a supported code, matched case-insensitively; else the uppercased code |
| Fx.GetCurrencyName | src/lib/fx.ts:227-237 | the name of a supported code, else the uppercased code |
| Fx.SupportedHaveSymbols | src/lib/fx.ts:18-237 | every supported code has a symbol, a name and a fallback multiplier |
| Fx.FxManager.constructor | src/lib/fx.ts:49-55 | both caches start empty |
| Fx.FxManager.GetCurrencyRate | src/lib/fx.ts:85-117 | the result and the new conversion cache are the specification function's; the rate cache is kept |
| Fx.FxManager.TrySourceStep | src/lib/fx.ts:154-176 | one pass of the source loop equals the specification function |
| Fx.FxManager.GetCurrentRate | src/lib/fx.ts:132-188 | the result and both new caches equal the specification function's |
| Ids.RemoveHyphens | src/lib/ids.ts:9 | the result has no hyphen and is no longer than the input |
| Ids.RemoveHyphensAppend | src/lib/ids.ts:9 | hyphen removal distributes over concatenation |
| Ids.UuidDigits | src/lib/ids.ts:9 | a UUID without hyphens is 32 lowercase hex digits |
| Ids.IndexOf | src/lib/ids.ts:10 | the first index of a character, or none when it does not occur |
| Ids.RequestIdFormat | src/lib/ids.ts:6-11 | timestamp digits, `_`, 16 lowercase hex digits; the id reads back as the clock reading and the suffix |
| Ids.RequestIdInjective | src/lib/ids.ts:6-11 | equal ids come from equal clock readings and equal suffixes |
| Ids.GenerateReceiptId | src/lib/ids.ts:14-16 | the receipt id is the 36-character UUID |
| Ids.DigestRendering | src/lib/ids.ts:21-35 | both hashes are 64 lowercase hex characters that read back as the digest, and agree on the same bytes |
| Crypto.HexChunks | src/lib/crypto.ts:103 | each match of `/.{1,2}/g` has one or two characters |
| Crypto.HexPairs | src/lib/crypto.ts:102-103 | one byte per match, each the `parseInt(chunk, 16)` of its chunk stored into a byte |
| Crypto.HexChunksOfPlainText | src/lib/crypto.ts:103 | without line terminators the matches are the consecutive pairs, the last one alone for an odd length |
| Crypto.HexChunksEmpty | src/lib/crypto.ts:103 | `match` finds nothing exactly when every character is a line terminator |
| Crypto.HexDecode | src/lib/crypto.ts:102-103 | the hex parse fails exactly when the text is empty or holds only line terminators; otherwise it gives at least one byte, one per match |
| Crypto.HexDecodeSigned | src/lib/crypto.ts:103 | `"-f"` is stored as 241, and `" f"` and `"+f"` as 15 |
| Crypto.HexDecodeLineTerminators | src/lib/crypto.ts:103 | `"ab\ncd"` gives two bytes and `"\n"` fails |
| Crypto.HexPairsRoundTrip | src/lib/crypto.ts:5-103 | reading back the two-digit rendering gives the bytes |
| Crypto.HexDecodeRoundTrip | src/lib/crypto.ts:5-103 | the parse inverts the rendering for a non-empty key and fails for the empty one |
| Crypto.HexInjective | src/lib/crypto.ts:5 | distinct keys have distinct renderings |
| Crypto.SplitBlob | src/lib/crypto.ts:64-66 | the three parts concatenate back to the blob |
| Crypto.SplitBlobFraming | src/lib/crypto.ts:17-66 | splitting salt(16) ++ iv(12) ++ ciphertext recovers the three parts |
| Crypto.SetBytes | src/lib/crypto.ts:47-50 | `Uint8Array.set`: the source bytes land at the offset and every other byte keeps its value |
| Crypto.EncryptPrivateKey | src/lib/crypto.ts:1-54 | the blob is base64 of salt ++ iv ++ the AES-GCM ciphertext of the key's hex |
| Crypto.DecryptPrivateKey | src/lib/crypto.ts:56-105 | text that is not base64 fails before anything else |
| Crypto.DecryptEncrypt | src/lib/crypto.ts:20-103 | under the primitives' laws, decrypting with the same password gives the key back |
| Crypto.WrongPasswordFails | src/lib/crypto.ts:92-99 | a different password never yields bytes |
| Crypto.EmptyKeyDoesNotRoundTrip | src/lib/crypto.ts:5-103 | an empty key is sealed but cannot be opened again |
| Storage.StoredStatus | src/lib/storage.ts:267-273 | paid iff paid >= share; partial iff 0 < paid < share; pending otherwise; never overpaid |
| Storage.StoredStatusAgreesWithRounding | src/lib/storage.ts:267-273 | for a positive share and an amount between 0 and the share, the same as `calculatePaymentStatus` |
| Storage.StoredStatusDiverges | src/lib/storage.ts:267-273 | above the share, and for a zero share with nothing paid, the two status rules part ways |
| Storage.FindParticipant | src/lib/storage.ts:258 | the first participant with the pubkey, or none when none has it |
| Storage.WithPayment | src/lib/storage.ts:263-273 | only participant `k`'s paid amount and status change |
| Storage.AuditFilterSnoc | src/lib/storage.ts:203-244 | the selection of a grown log is the old selection plus the new entry when it matches |
| Storage.SortedSelectionMeaning | src/lib/storage.ts:221-244 | inserting each selected entry before the first older one yields exactly the selected entries (as a multiset), newest timestamp first |
| Storage.AuditAppendOnly | src/lib/storage.ts:203-219 | adding an entry keeps the old log as a prefix |
| Storage.StorageManager.constructor | src/lib/storage.ts:22-72 | every store starts empty |
| Storage.StorageManager.SaveReceipt | src/lib/storage.ts:75-85 | an upsert under the receipt's id, after which it is what `GetReceipt` returns |
| Storage.StorageManager.GetReceipt | src/lib/storage.ts:87-97 | the record under the id, or none exactly when there is none |
| Storage.CollectStep | src/lib/storage.ts:99-110 | inserting one more record keeps the listing complete for the ids done, free of strangers and newest first |
| Storage.StorageManager.GetAllReceipts | src/lib/storage.ts:99-110 | every stored receipt once, newest `createdAt` first |
| Storage.StorageManager.UpdateReceiptStatus | src/lib/storage.ts:112-120 | an unknown id fails; otherwise only the sync status changes |
| Storage.StorageManager.UpdateReceiptEventId | src/lib/storage.ts:122-131 | an unknown id fails; otherwise the note id and `published` are set together |
| Storage.StorageManager.RenameReceiptImage | src/lib/storage.ts:134-142 | the image URI becomes `rcpt_<eventId>.png`; an unknown id changes nothing |
| Storage.StorageManager.SaveImage | src/lib/storage.ts:145-155 | the image is stored under the id and nothing else changes |
| Storage.StorageManager.GetImage | src/lib/storage.ts:157-168 | the image under the id, or none exactly when there is none |
| Storage.StorageManager.SaveSettings | src/lib/storage.ts:170-180 | the settings are replaced and nothing else changes |
| Storage.StorageManager.AddAuditEntry | src/lib/storage.ts:203-219 | one entry with a fresh id and the clock is appended |
| Storage.StorageManager.GetAuditLog | src/lib/storage.ts:221-244 | exactly the selected entries, newest timestamp first |
| Storage.StorageManager.UpdateParticipantPayment | src/lib/storage.ts:247-288 | an unknown receipt or participant fails and changes nothing; otherwise only the first matching participant is re-paid and re-statused, and one `mark_paid` entry with the old and new amounts is appended |
| Events.FindTag | src/lib/events.ts:69-85 | a found tag carries the name and belongs to the list |
| Events.FindTagAt | src/lib/events.ts:69-85 | a tag is found at the first position carrying its name |
| Events.FindTagAppend | src/lib/events.ts:82-85 | appending tags does not change a tag already found |
| Events.PTagValuesAppend | src/lib/events.ts:82-85 | the `p` values of a concatenation are those of its parts |
| Events.FormatFxRate | src/lib/events.ts:204-210 | exactly rate, source and ISO timestamp, the rate reading back as the number |
| Events.SplitDataOf | src/lib/events.ts:212-222 | pubkey and share per participant, in order, and the flow |
| Events.FixedTagLayout | src/lib/events.ts:69-80 | nine tags named rid, rhash, amount, ccy, fx, split, meal, privacy, flow in that order; `fx` holds rate, source, time; privacy is `no-location` |
| Events.PTags | src/lib/events.ts:82-85 | one `["p", pubkey]` per participant, in order |
| Events.CreatePaymentRequestEvent | src/lib/events.ts:63-91 | kind 1, the signer's pubkey, content `<meal> request`, the nine fixed tags then one `p` tag per participant: 9 + n tags |
| Events.RequestRoundTrip | src/lib/events.ts:63-91 | a request note reads back as the ids, amount, currency, rate, meal, flow and recipients put into it |
| Events.RequestTagsFound | src/lib/events.ts:69-85 | every fixed name finds its own tag ahead of the `p` tags |
| Events.RequestRecipients | src/lib/events.ts:82-85 | the `p` values of a request are the participants' pubkeys in order |
| Events.CreatePaidReplyEvent | src/lib/events.ts:94-114 | kind 1; tags `e`(original, reply), `rid`, `paid`(pubkey, amount), `method`, in that order |
| Events.PaidReplyTagsFound | src/lib/events.ts:94-114 | each of the four tags of a paid reply is the one its name finds |
| Events.PaidReplyRoundTrip | src/lib/events.ts:94-114 | a paid reply reads back as the reply it encodes |
| Events.CreateRecipientDM | src/lib/events.ts:117-147 | kind 4, content the NIP-04 ciphertext of the JSON body, tags `p`(recipient) then `rid` |
| Events.ReadReplies | src/lib/events.ts:165-186 | the first `OK` for this event id, or the first unparsable message, decides; the relay succeeds iff that is an accepting `OK` |
| Events.RelayOutcome | src/lib/events.ts:154-193 | a relay can succeed only when its connection opened |
| Events.OtherIdsIgnored | src/lib/events.ts:169 | an `OK` for another event is ignored |
| Events.CountSuccesses | src/lib/events.ts:152-173 | the success count is positive iff some relay succeeded |
| Events.RelayResults | src/lib/events.ts:154-193 | one result per relay; the model lists them in relay order (completion order is not modelled) |
| Events.PublishMeaning | src/lib/events.ts:195-200 | success iff some relay accepted; the event id only then; the error text only when none did |
| Events.PublishNoRelays | src/lib/events.ts:195-200 | publishing to no relay fails |
| Events.ConnectedUrlsMembers | src/lib/events.ts:39-60 | a socket is kept exactly for the relays whose connection opened |
| Events.EventManager.constructor | src/lib/events.ts:28-30 | the relays as given and no socket |
| Events.EventManager.SetRelays | src/lib/events.ts:32-37 | the list is replaced and every socket dropped |
| Events.EventManager.Disconnect | src/lib/events.ts:225-228 | every socket is dropped and the list kept |
| Events.EventManager.PublishTo | src/lib/events.ts:154-193 | one relay's result, keeping its socket when it opened |
| Events.EventManager.PublishEvent | src/lib/events.ts:150-201 | the result is the aggregation function's, and the opened sockets are added |
| Relays.Urls | src/lib/relays.ts:157-166 | the urls of a relay list |
| Relays.ParseRelayTags | src/lib/relays.ts:110-121 | at most one relay per tag, in tag order |
| Relays.ParseRelayTagsAppend | src/lib/relays.ts:110-121 | parsing distributes over concatenation |
| Relays.RelayTagMarkers | src/lib/relays.ts:111-118 | no marker is read+write, `read` and `write` are one-way, other markers neither; non-`r` tags and tags without a url are ignored |
| Relays.KeepFirstsUrls | src/lib/relays.ts:157-166 | the kept entries carry exactly the urls of the input |
| Relays.KeepFirstsDistinct | src/lib/relays.ts:157-166 | no two kept entries share a url |
| Relays.KeepFirstsSubset | src/lib/relays.ts:157-166 | every kept entry is an entry of the input |
| Relays.KeepFirstsProperties | src/lib/relays.ts:157-166 | one entry per url, every url kept, nothing new |
| Relays.DedupStep | src/lib/relays.ts:157-166 | the next entry is kept exactly when its url is unseen, and its url joins the seen set |
| Relays.DeduplicateRelays | src/lib/relays.ts:157-166 | the loop keeps exactly the first entry of each url, in order |
| Relays.FiltersAppend | src/lib/relays.ts:173-179 | the read and write filters keep the list's order |
| Relays.NewRelaysMembers | src/lib/relays.ts:144-149 | exactly the user's entries whose url was not there before |
| Relays.MergedProperties | src/lib/relays.ts:141-155 | the existing entries stay as a prefix, only absent urls are appended, and the list is cut to 10 |
| Relays.Added | src/lib/relays.ts:181-186 | appended when its url is absent, otherwise nothing changes |
| Relays.Removed | src/lib/relays.ts:188-190 | every entry with the url goes and the others stay |
| Relays.RemovedAppend | src/lib/relays.ts:188-190 | removal keeps the order: it distributes over concatenation |
| Relays.RemovedAbsent | src/lib/relays.ts:188-190 | removing an absent url changes nothing |
| Relays.Patched | src/lib/relays.ts:195 | each field from the patch when it carries one, else from the relay |
| Relays.FindUrl | src/lib/relays.ts:193 | the first index with the url, or none when absent |
| Relays.SettingsWith | src/lib/relays.ts:199-210 | the stored settings, or blank ones, with the relay list replaced |
| Relays.StartingRelays | src/lib/relays.ts:39-44 | the saved list when non-empty, else the defaults |
| Relays.RelayManager.constructor | src/lib/relays.ts:32-34 | the list starts as the defaults |
| Relays.RelayManager.GetRelays | src/lib/relays.ts:169-171 | a copy of the list |
| Relays.RelayManager.GetReadRelays | src/lib/relays.ts:173-175 | exactly the read relays |
| Relays.RelayManager.GetWriteRelays | src/lib/relays.ts:177-179 | exactly the write relays |
| Relays.RelayManager.AddRelay | src/lib/relays.ts:181-186 | the list becomes the append-if-absent function's |
| Relays.RelayManager.RemoveRelay | src/lib/relays.ts:188-190 | the list becomes the removal function's |
| Relays.RelayManager.UpdateRelay | src/lib/relays.ts:192-197 | only the first entry with the url is patched; no entry, no change |
| Relays.RelayManager.MergeUserRelays | src/lib/relays.ts:141-155 | the list becomes the merge function's |
| Relays.RelayManager.FetchUserRelayList | src/lib/relays.ts:62-77 | the deduplicated relays gathered from every write relay, failures skipped |
| Relays.RelayManager.SaveRelays | src/lib/relays.ts:199-210 | the stored settings get the list and nothing else changes |
| Relays.RelayManager.Initialize | src/lib/relays.ts:37-59 | start from the saved list or the defaults; merge and save only when a user's fetched list is non-empty |
| Contacts.ValidPubkeyIgnoresCase | src/lib/contacts.ts:284-286 | validity ignores case, and a lowercased valid key is 64 lowercase hex digits |
| Contacts.Follows | src/lib/contacts.ts:70-72 | no empty pubkey is followed |
| Contacts.ApplyProfilesConsistent | src/lib/contacts.ts:97-108 | storing profiles keeps the directory consistent, stores each fetched profile under its pubkey and keeps the others |
| Contacts.ShortKey | src/lib/contacts.ts:307 | first eight characters, `...`, last eight |
| Contacts.Select | src/lib/contacts.ts:249-281 | exactly the contacts under the keys that satisfy the test |
| Contacts.SelectIsFilter | src/lib/contacts.ts:249-281 | the selection is `filter` over the map's values listed in the keys' order, so the kept contacts stay in that order |
| Contacts.AllContactsPermutation | src/lib/contacts.ts:255-263 | the followed contacts then the others are a permutation of the map's values, each contact once |
| Contacts.ListedConsistent | src/lib/contacts.ts:249-281 | in a consistent directory, `Array.from(values())` holds every contact once and has the map's size |
| Contacts.FilterOncePerKey | src/lib/contacts.ts:249-281 | a filter of a list with each contact once keeps each contact once |
| Contacts.FollowsFirstOncePerKey | src/lib/contacts.ts:255-263 | the followed contacts then the others hold each contact once |
| Contacts.ContactManager.constructor | src/lib/contacts.ts:14-15 | an empty map and follow set |
| Contacts.ContactManager.GetContact | src/lib/contacts.ts:265-267 | the contact under the pubkey, or none exactly when there is none |
| Contacts.ContactManager.FetchProfiles | src/lib/contacts.ts:94-118 | the profiles of the first relay that returns any are stored |
| Contacts.ContactManager.StoreProfiles | src/lib/contacts.ts:101-108 | each profile is stored in turn |
| Contacts.ContactManager.LoadFollowList | src/lib/contacts.ts:18-36 | the first relay's non-empty follows are added to the follow set and their profiles fetched |
| Contacts.ContactManager.AddContactByPubkey | src/lib/contacts.ts:183-216 | an invalid key fails and a known key is returned, both changing nothing; otherwise the directory is exactly the profile fetch followed by marking the fetched contact `addedManually`, or by appending a bare contact |
| Contacts.ApplyProfilesStores | src/lib/contacts.ts:94-108 | a contact that storing profiles adds was built from one of the fetched profiles with that pubkey |
| Contacts.AddedContactIsFetchedOrBasic | src/lib/contacts.ts:183-216 | a new valid key ends up stored, marked `addedManually`, and is either the bare contact or built from a fetched profile with that pubkey |
| Contacts.ContactManager.AddContactFromQR | src/lib/contacts.ts:219-246 | 64 hex digits lead to `addContactByPubkey` of the lowercased key, with its new state; `npub1`, `nostr:` and anything else fail with their messages and change nothing |
| Contacts.ContactManager.GetDisplayName | src/lib/contacts.ts:301-308 | display name, else name, else NIP-05, else the shortened key |
| Contacts.ContactManager.SearchContacts | src/lib/contacts.ts:270-281 | exactly the contacts whose name, display name, NIP-05 or pubkey contains the query, ignoring case; `filter` over the map's values in insertion order, so each match once and in that order |
| Contacts.ContactManager.GetFollowList | src/lib/contacts.ts:249-253 | exactly the followed contacts, each once: a permutation of the followed values |
| Contacts.ContactManager.GetAllContacts | src/lib/contacts.ts:255-263 | a permutation of the map's values, each contact once and as many as the map holds, the followed ones first |
| Contacts.ContactManager.Clear | src/lib/contacts.ts:311-314 | the map and the follow set are emptied |
| StoreCommon.ErrorMessage | src/features/receipt/store.ts:28 | an `Error`'s message, else the action's fallback text |
| StoreCommon.Filter | src/features/receipt/store.ts:64 | exactly the elements that pass the test, never more than the input |
| StoreCommon.FilterAppend | src/features/receipt/store.ts:64 | filtering distributes over concatenation, so order is kept |
| StoreCommon.FilterKeepsAll | src/features/receipt/store.ts:64 | a filter every element passes changes nothing |
| StoreCommon.FilterPartition | src/lib/contacts.ts:255-263 | a test and its negation split a list into two filters that together hold each element once |
| StoreCommon.MapWhere | src/features/receipt/store.ts:49-51 | same length; the selected elements are transformed and the others kept |
| AuthStore.FindKey | src/store/auth.ts:104-106 | the first key of the pubkey; none exactly when no key has it |
| AuthStore.FindKeyWithout | src/store/auth.ts:200-202 | removing one pubkey's keys does not change which key is found for another |
| AuthStore.ImportedKeysShape | src/store/auth.ts:82-89 | the new key is last, the only one of its pubkey, and the one found; others are found as before; one key per pubkey is kept |
| AuthStore.WithoutKeyUnique | src/store/auth.ts:200-202 | deleting keeps one key per pubkey |
| AuthStore.MergeProfileLaws | src/store/auth.ts:149-155 | an empty patch changes nothing; a patch applied twice is applied once; unpatched fields stay |
| AuthStore.ImportedKey | src/store/auth.ts:54-94 | succeeds iff the key decodes with a private part and encrypts; the stored key has the decoded pubkey and the clock; a failure is prefixed `Failed to import key: ` |
| AuthStore.DecryptedKeyIsAccepted | src/store/auth.ts:96-187 | a password that yields the private key is one `authenticate` accepts |
| AuthStore.ImportThenUnlock | src/store/auth.ts:54-187 | after an import the same password authenticates and gives back the imported bytes |
| AuthStore.BiometricWindow | src/store/auth.ts:35-160 | still inside the window at exactly five minutes, outside one millisecond later, and outside for every later reading |
| AuthStore.DeleteKeepsOthers | src/store/auth.ts:96-210 | deleting another pubkey's key keeps whether a password is accepted; deleting the user's own means none is |
| AuthStore.AuthStore.constructor | src/store/auth.ts:40-44 | nobody signed in, no keys, services not initialised |
| AuthStore.AuthStore.Rehydrate | src/store/auth.ts:212-217 | the persisted user and keys over the initial state |
| AuthStore.AuthStore.ImportKey | src/store/auth.ts:54-94 | on success the key list becomes the import function's, the user is the bare profile and signed in; a failure changes nothing and is returned |
| AuthStore.AuthStore.Authenticate | src/store/auth.ts:96-125 | true iff a user, a key of theirs and a decryptable key; then signed in with the clock; otherwise nothing changes |
| AuthStore.AuthStore.AuthenticateWithBiometric | src/store/auth.ts:127-140 | true iff the platform said yes; then signed in with the clock; otherwise nothing changes |
| AuthStore.AuthStore.Logout | src/store/auth.ts:142-147 | signed out and the timestamp cleared; user and keys kept |
| AuthStore.AuthStore.UpdateProfile | src/store/auth.ts:149-155 | the patch merged into the user; no user, no change |
| AuthStore.AuthStore.InitializeServices | src/store/auth.ts:189-198 | the service ends in `initialize`'s state for the current user's pubkey: relays merged with the user's relay list and the follow list loaded, or the starting relays without a user; receipts, images and the audit log are kept; the flag is set |
| AuthStore.AuthStore.DeleteStoredKey | src/store/auth.ts:200-210 | every key of the pubkey goes; the user is cleared and signed out only when it is theirs |
| AuthFeature.Password | src/features/auth/store.ts:28-65 | the prefix then at most eight characters of the public key |
| AuthFeature.PasswordOfPrefix | src/features/auth/store.ts:28-65 | keys that agree on eight characters share the password |
| AuthFeature.UnlockNeedsVerificationAndKeys | src/features/auth/store.ts:56-81 | unlocking needs a verified user and stored keys, and installs the stored public key |
| AuthFeature.SetKeysThenUnlock | src/features/auth/store.ts:25-81 | what `setKeys` seals, `authenticate` opens to the hex of the same key |
| AuthFeature.ExpiryWindow | src/features/auth/store.ts:91-95 | not expired at exactly five minutes, expired one millisecond later and for every later reading; a locked store is expired |
| AuthFeature.AuthStore.constructor | src/features/auth/store.ts:19-23 | no keys, not authenticated, locked |
| AuthFeature.AuthStore.Rehydrate | src/features/auth/store.ts:99-102 | the persisted public key and flag over the initial state; never the private key |
| AuthFeature.AuthStore.SetKeys | src/features/auth/store.ts:25-43 | the blob is the sealed key; on a saved blob the store is authenticated, unlocked and stamped; a failed save changes nothing |
| AuthFeature.AuthStore.ClearKeys | src/features/auth/store.ts:45-54 | once cleared, every field returns to the locked, empty state; a failure changes nothing |
| AuthFeature.AuthStore.Authenticate | src/features/auth/store.ts:56-81 | true iff the unlock function yields keys, which are then installed; otherwise nothing changes |
| AuthFeature.AuthStore.Lock | src/features/auth/store.ts:83-89 | the private key dropped, locked, timestamp zero; public key and flag kept |
| ReceiptFeature.MergeReceiptLaws | src/features/receipt/store.ts:49-51 | an empty patch changes nothing; a patch applied twice is applied once; an unpatched id or participant list is kept |
| ReceiptFeature.UpdateTouchesOnlyMatching | src/features/receipt/store.ts:49-51 | same length and order; exactly the receipts with the id are merged |
| ReceiptFeature.DeleteRemovesExactly | src/features/receipt/store.ts:64 | exactly the receipts with the id go, the order is kept, and no match means no change |
| ReceiptFeature.AddThenDelete | src/features/receipt/store.ts:32-70 | adding a receipt with a new id and deleting that id gives the list back |
| ReceiptFeature.ReceiptStore.constructor | src/features/receipt/store.ts:17-20 | no receipts, not loading, no error |
| ReceiptFeature.ReceiptStore.LoadReceipts | src/features/receipt/store.ts:22-30 | replaced on success; kept on failure with the error recorded; not loading |
| ReceiptFeature.ReceiptStore.AddReceipt | src/features/receipt/store.ts:32-42 | prepended after a save; a failure keeps the list, records and rethrows |
| ReceiptFeature.ReceiptStore.UpdateReceipt | src/features/receipt/store.ts:44-57 | merged into the matching receipts after a save; a failure keeps the list, records and rethrows |
| ReceiptFeature.ReceiptStore.DeleteReceipt | src/features/receipt/store.ts:59-70 | the matching receipts removed after a delete; a failure keeps the list, records and rethrows |
| ReceiptFeature.ReceiptStore.SearchReceipts | src/features/receipt/store.ts:72-80 | the search answer replaces the list; a failure keeps it and records the error |
| ContactsFeature.MergeContactLaws | src/features/contacts/store.ts:48-50 | an empty patch changes nothing; a patch applied twice is applied once; an unpatched pubkey is kept |
| ContactsFeature.CountOf | src/features/contacts/store.ts:31-69 | zero exactly when no entry carries the pubkey |
| ContactsFeature.CountOfAppend | src/features/contacts/store.ts:31-69 | counts add over concatenation |
| ContactsFeature.AddKeepsDuplicates | src/features/contacts/store.ts:31-41 | adding grows the pubkey's count by one, so a known pubkey ends up twice |
| ContactsFeature.UpdateTouchesOnlyMatching | src/features/contacts/store.ts:48-50 | same length and order; exactly the entries with the pubkey are merged |
| ContactsFeature.DeleteRemovesAll | src/features/contacts/store.ts:63 | every entry of the pubkey goes, duplicates included; the others stay; no match, no change |
| ContactsFeature.AddThenDelete | src/features/contacts/store.ts:31-69 | adding a new pubkey and deleting it gives the list back |
| ContactsFeature.ContactStore.constructor | src/features/contacts/store.ts:16-19 | no contacts, not loading, no error |
| ContactsFeature.ContactStore.LoadContacts | src/features/contacts/store.ts:21-29 | replaced on success; kept on failure with the error recorded |
| ContactsFeature.ContactStore.AddContact | src/features/contacts/store.ts:31-41 | appended after a save; a failure keeps the list, records and rethrows |
| ContactsFeature.ContactStore.UpdateContact | src/features/contacts/store.ts:43-56 | merged into the matching entries after a save; a failure keeps the list, records and rethrows |
| ContactsFeature.ContactStore.DeleteContact | src/features/contacts/store.ts:58-69 | the matching entries removed after a delete; a failure keeps the list, records and rethrows |
| SettingsFeature.UpdatedSettingsFields | src/features/settings/store.ts:45-51 | each field from the patch when it carries one, else from the current settings or the defaults; an empty patch saves them unchanged |
| SettingsFeature.UpdateIdempotent | src/features/settings/store.ts:49 | the same update applied twice is applied once |
| SettingsFeature.DefaultsAre | src/features/settings/store.ts:14-24 | four relays, the system theme, biometrics on, `lunch` |
| SettingsFeature.SettingsStore.constructor | src/features/settings/store.ts:26-29 | no settings, not loading, no error |
| SettingsFeature.SettingsStore.LoadSettings | src/features/settings/store.ts:31-43 | the stored settings or the defaults; a failure installs the defaults and records the error |
| SettingsFeature.SettingsStore.UpdateSettings | src/features/settings/store.ts:45-56 | the merged settings are saved and then installed; a failure keeps the settings, records and rethrows |

Where the code and its own comments or requirement tags disagree, the model
follows the code:

- `fetchUserRelayList` merges the lists from every write relay, not only the first relay that answers (src/lib/relays.ts:66-76).
- `validateSplit` does not reject an all-zero split (src/lib/billSplit.ts:305-308).
- `markParticipantPaid` gets a `mark_paid` entry from `updateParticipantPayment` (src/lib/storage.ts:278-287). It writes a second one when the reply is accepted (src/lib/billSplit.ts:269-282).
- The storage status rule says `paid` for any amount at or above the share and never `overpaid`. This differs from `calculatePaymentStatus` (`Storage.StoredStatusDiverges`).
- `lock` in src/features/auth/store.ts:83-89 keeps `isAuthenticated`, and that flag is persisted.
- The settings store's defaults (src/features/settings/store.ts:14-24) do not fit the `Settings` record of src/types/models.ts. They give relays as bare urls and the meal type as the lowercase `lunch`, and have no currency. `SettingsFeature.StoreSettings` keeps the store's own shape.

## Left out

- WebSocket plumbing is not modelled: connecting, timeouts and socket events in events.ts, relays.ts and contacts.ts. Each relay's answer is an input trace, and a timeout is one of the failures in that trace.
- Concurrency and interleaving of the async calls are not modelled. Each action runs to completion, and the `loading: true` states in between are not observable.
- Common.Lower / Common.Upper: only the ASCII letters change case. JavaScript's `toLowerCase` and `toUpperCase` also map non-ASCII letters (`É` to `é`) and can change the length (`ß` to `SS`); this reaches Contacts.ContactManager.SearchContacts and the currency code in Fx.
- Contacts.ContactManager.SearchContacts: matching ignores case for ASCII letters only; a query and a name that differ only in a non-ASCII letter's case do not match in the model.
- Rounding.SplitCustom: requires a nonzero weight sum and at least as many weights as participants. With weights summing to zero the source yields `NaN` shares, and with fewer weights (src/features/split/SplitConfig.tsx:19 starts with two) a missing weight gives `NaN`; neither is modelled.
- IEEE-754 doubles are not modelled. Amounts and prices are `real`, and `Math.floor` is `.Floor`. The double rounding of `amount * rate` and of `100000000 / price` is not captured.
- The foreign primitives are injected function values: PBKDF2, AES-GCM, SHA-256, base64, `randomUUID`, `getRandomValues`, event signing and id computation, NIP-04 and JSON encoding. Their laws are stated as predicates and taken as preconditions.
- IndexedDB setup and transactions (src/lib/storage.ts:22-72) are left out. Each object store is a map, and a failing IndexedDB request is not modelled.
- `getSettings` (src/lib/storage.ts:182-201) is a plain read of the settings field.
- Zustand `persist` is left out beyond which fields `partialize` keeps. Storage keys and versioning are not modelled.
- HTTP fetches in fx.ts are inputs, one result per source and one rate table per lookup. A price is a positive `real`: a zero, negative or missing price, which the source would turn into `Infinity` or `NaN`, is not modelled.
- `generateNewKey` (src/store/auth.ts:46-52) only forwards to `NostrClient.generateKeyPair`. src/lib/nostr.ts is not part of this model.
- Several collaborators do not appear in the shown source and are injected as inputs: `CryptoManager.encryptData/decryptData`, `NostrClient.decodeKey/signEvent`, `utils.hexToBytes` and `BiometricAuth.authenticate`.
- The feature stores import a `storageService` that src/lib/storage.ts does not export. They also use a `Contact` type that src/types/models.ts does not declare. Each storage-service call is an input outcome, and the contacts store uses the `Contact` of src/lib/contacts.ts.
- `testRelay` and the `connections` map in src/lib/relays.ts are network plumbing.
- src/lib/webauthn.ts, src/lib/qr.ts, src/lib/mobile-viewport.ts and the `.tsx` screens are UI and platform code.
- The throw at src/lib/billSplit.ts:246-248 is not modelled. It cannot be reached, because `updateParticipantPayment` has already refused an unknown participant.
- The `JSON.parse` of the stored split at src/lib/billSplit.ts:255 is not modelled; only its result is used.
- Contacts.ContactManager.GetAllContacts: states a permutation of the contacts with the followed ones first. It does not state the `localeCompare` order by name within each group, because locale collation is not modelled.
- Contacts.ContactManager.GetFollowList: states which contacts are returned, each once. It does not state their `localeCompare` order by name.
- Events.ReadReplies: messages after the deciding one are ignored. In src/lib/events.ts:165-183 the `onmessage` handler stays attached after `resolve()`, so a late accepting `OK` (even after the timeout) still adds a result and counts as a success while other relays are pending; that is not modelled.
- Crypto.HexChunks: a string is a sequence of Unicode characters. The regular expression works on UTF-16 code units, so a character outside the Basic Multilingual Plane would be split across chunks there; such text does not occur in the hex rendering of a key.
- AuthFeature.AuthStore.SetKeys: encryption is total here. A rejection by `crypto.subtle` inside `encryptPrivateKey` is not modelled.
- AuthStore.AuthStore.InitializeServices: a failure inside `billSplitService.initialize`, such as a storage error, is not modelled. That failure would be rethrown with the flag left unset.
- The `Partial<T>` patches of the stores cannot set a field to `undefined`. A key that is present is always a value.
- Each call reads the clock once. The source calls `Date.now()` several times within one action, and those readings are taken to be equal.
