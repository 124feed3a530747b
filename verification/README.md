# Recall plugin ledger — a Dafny model

This project models the `ChatProPlugin` chat-bot add-on (`main.py`). The plugin lets the bot,
or an operator, take back ("recall") messages the bot has just sent. For each conversation
(keyed by `unified_msg_origin`) it keeps a ledger of the ids and send times of the last 20
messages it sent. The model covers every handler that reads or changes that ledger:

- **Recording** (`record_sent_message`). After a send on the `aiocqhttp` platform, it appends
  `(message_id, time)` to the conversation's ledger. When the ledger grows past 20 entries,
  the oldest is dropped.
- **Marker handler** (`detect_recall_keyword`). It runs when an incoming message, stripped of
  whitespace and lower-cased, is exactly `[recall]`. It deletes the second-to-last recorded
  message and then the last one. Only when both deletes return does it pop the two entries
  and stop the event.
- **Manual recall** (`manual_recall`). It deletes the most recent recorded message. The entry
  is popped only after the delete returns.
- **Listing** (`list_sent_messages`). It renders the ledger read-only, most recent first.
- **Teardown** (`terminate`). It empties every ledger.

Files:

- `ledger.dfy` (module `Ledger`): ledger entries, the bounded append, and the eviction law.
- `text.dfy` (module `Text`): Python's `str.strip()`, `str.lower()`, `str(int)` and
  `str.join`, and the marker test, with its exact characterisation.
- `chat_pro.dfy` (module `ChatPro`): the plugin as a class. `sentMessages` is the ledger map.
  The ghost field `deleteCalls` records every `delete_msg` call in order. The class has one
  method per handler. Each method's postcondition gives the complete new state and the
  calls it makes. The object invariant `Valid()` says no ledger holds more than 20 entries.

The transport's `delete_msg` action is abstract. `DeleteMsg` only appends the id to
`deleteCalls`. Each handler takes one `DeleteOutcome` per delete call it may make: the call
either returns or raises with a message. The platform name is a string field of the event.
The `isinstance(event, AiocqhttpMessageEvent)` test is a boolean field. `time.time()` is the
parameter `now`. The `%H:%M:%S` time formatting is the function parameter `formatTime`.

Three consequences of the code are worth stating outright:

- Only a message that is the marker and nothing else is recognised (`main.py:29`). The
  marker is never stripped from outgoing text. `MarkerThenText` and `TextThenMarker` prove
  that text around the marker stops it from matching.
- A raising first delete skips the second. The ledger is popped only when both deletes
  return (`main.py:57-77`).
- Append then pop restores the ledger only below capacity (`Ledger.AppendThenPop`). At 20
  entries the head has already been evicted (`Ledger.AppendThenPopAtCapacity`).

## Model

| member | source | states |
|---|---|---|
| `Ledger.AppendKeepsMostRecent` | main.py:101-107 | on a ledger within capacity, one recorded send keeps it within capacity, keeps exactly the `cap` most recent entries, and puts the new entry at the tail |
| `Ledger.LastNAbsorbs` | main.py:103-107 | keeping the last `n` entries, appending more, then keeping the last `n` again equals keeping the last `n` once at the end |
| `Ledger.FifoLaw` | main.py:101-107 | any series of recorded sends leaves a ledger within capacity holding exactly the `cap` most recent entries of all of them, in send order |
| `Ledger.AppendThenPop` | main.py:103-107 | below capacity, popping the tail right after an append restores the ledger |
| `Ledger.AppendThenPopAtCapacity` | main.py:103-107 | at capacity, popping the tail after an append leaves the old ledger minus its head, which differs from the old ledger |
| `Text.TrimStartShape` | main.py:26 | `strip`'s leading half cuts off only whitespace, and what remains does not start with whitespace |
| `Text.TrimEndShape` | main.py:26 | `strip`'s trailing half cuts off only whitespace, and what remains does not end with whitespace |
| `Text.TrimStartAt` | main.py:26 | if `k` is the first non-space position, the leading trim cuts exactly at `k` |
| `Text.TrimEndAt` | main.py:26 | if `k` is just past the last non-space position, the trailing trim cuts exactly at `k` |
| `Text.StripPadded` | main.py:26 | stripping whitespace padding off a core that neither starts nor ends with whitespace gives back the core |
| `Text.Lower` | main.py:29 | lower-casing keeps the length and maps each character through `LowerChar` |
| `Text.MarkerSound` | main.py:26-29 | any text the marker test accepts is the marker, in some letter case, with only whitespace around it |
| `Text.MarkerBrackets` | main.py:29 | a text that lower-cases to the marker has eight characters, starts with `[` and ends with `]` |
| `Text.StripBracketed` | main.py:26 | stripping whitespace padding off a bracketed eight-character core gives the core |
| `Text.MarkerComplete` | main.py:26-29 | the marker, in any letter case and padded with any whitespace, is accepted |
| `Text.MarkerPaddedExample` | main.py:26-29 | `" [ReCaLL]\n"` is accepted |
| `Text.InsidePadding` | main.py:26 | when only whitespace lies outside `text[i..j]`, every non-space character lies inside it |
| `Text.MarkerWidth` | main.py:26-29 | in an accepted text, any two non-space characters are fewer than eight positions apart |
| `Text.MarkerThenText` | main.py:26-29 | the marker followed by any non-space text is not accepted, so a trailing marker never fires |
| `Text.TextThenMarker` | main.py:26-29 | any non-space text followed by the marker is not accepted, so an embedded marker never fires |
| `Text.NatToString` | main.py:166-168 | the rendering of a count is a non-empty string of decimal digits that denotes exactly that count (`DecimalValue`), with no leading zero, so the header shows `len(messages)` and line `i` shows `i` |
| `ChatPro.ReversedAt` | main.py:164 | `reversed` keeps the length and puts the element at position `|s|-1-k` at position `k` |
| `ChatPro.NumberedAt` | main.py:164 | `enumerate(es, from)` gives one line per entry, and line `k` carries number `from + k` and entry `k` |
| `ChatPro.ListingLineAt` | main.py:164-166 | the listing has one line per entry, and line `i`, numbered from 1, shows the `i`-th most recent entry |
| `ChatPro.ListingShape` | main.py:158-168 | an empty ledger gets the fixed "no records" text; otherwise the reply opens with a header giving `len(messages)` |
| `ChatPro.ChatProPlugin.constructor` | main.py:11-16 | a new plugin has no ledgers, has made no delete calls, and satisfies the 20-entry bound |
| `ChatPro.ChatProPlugin.DeleteMsg` | main.py:56-57 | one `delete_msg` call is appended to the call trace |
| `ChatPro.ChatProPlugin.RecordSentMessage` | main.py:79-112 | an unsupported platform or event type changes nothing. A falsy or missing id only creates an empty ledger for a new conversation. Otherwise the bounded append is applied to that conversation's ledger. No other conversation is touched, and the 20-entry bound is kept |
| `ChatPro.ChatProPlugin.DetectRecallKeyword` | main.py:23-77 | with no marker, an unsupported platform, fewer than two entries, or the wrong event type: no delete call, no change, event not stopped. Otherwise the second-to-last id is deleted first, and the last id only if that delete returned. When both return, exactly the last two entries are popped and the event is stopped. If either raises, the ledger is unchanged and the event is not stopped |
| `ChatPro.ChatProPlugin.ManualRecall` | main.py:114-151 | on an unsupported platform, an empty or absent ledger, or the wrong event type: an explanatory reply, no delete call, no change. Otherwise the last id is deleted. If the delete returns, exactly that entry is popped and a success reply is given. If it raises, the ledger is unchanged and the error reply carries the exception text |
| `ChatPro.ChatProPlugin.ListSentMessages` | main.py:153-169 | the reply is the listing of the conversation's ledger (no-records text, or header plus lines numbered from 1, most recent first); the method changes nothing |
| `ChatPro.ChatProPlugin.Terminate` | main.py:199-202 | every ledger is dropped, and the bound still holds |
| `ChatPro.MarkerRecallScenario` | main.py:24-107 | recording M1, M2 and a marker message M3, then handling that marker with both deletes returning, makes exactly the delete calls M2 and then M3 (the returned trace), stops the event and leaves only M1 in the ledger |

## Left out

- The transport call `client.api.call_action('delete_msg', ...)` is abstract. Its outcome is
  a parameter, and its return value is only logged by the source.
- `asyncio.sleep(0.5)` between the two deletes, and any interleaving of other handlers at
  the `await` points, are not modelled. The model is sequential, so the re-check of the
  ledger length at `main.py:69` always passes. Only the order of the two deletes is kept.
- `time.time()` and `datetime.fromtimestamp(...).strftime("%H:%M:%S")` are parameters (`now`,
  `formatTime`). Timestamps are integers rather than floats.
- Text.Lower: only `A`-`Z` are lower-cased, one character to one character. Python's full
  Unicode case mapping is not modelled; it can also change the length, as U+0130 becomes
  `i` followed by U+0307. The marker test still gives the same verdict. In Unicode, the
  only non-ASCII characters whose lower-case form contains an ASCII character are U+0130
  (to `i` + U+0307) and U+212A (to `k`). Neither `i` nor `k` occurs in `[recall]`. So a
  stripped message with any non-ASCII character fails the comparison under both mappings.
- `message_id` values other than integers and strings (and their truthiness) are not
  modelled. Which message's id the host stores on `event.message_obj` is host behaviour and
  is not part of this model.
- The `try`/`except` around recording guards against errors from the host's event object
  only. The model's recording cannot fail.
- Logging, `initialize`, and the static help text of `show_help` are not modelled.
- The concrete `AiocqhttpMessageEvent` type and its bot client are not modelled. Only the
  boolean result of the `isinstance` test is kept.
