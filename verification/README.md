# Morse code translator — a Dafny model

The translator is a single-page component (`src/App.js`). It holds three
pieces of sequential logic, and this project models and proves each of them:

1. **The encoder** (`handleTextChange`). The typed text is upper-cased. Each
   character is looked up in a fixed table, and a character the table does
   not hold gets the empty token. The tokens are joined with one space. The
   table covers `A`–`Z`, `0`–`9`, `.`, `,` and `?` with the codes of the
   International Morse Code (ITU-R Recommendation M.1677-1, Part I,
   section 1). It also maps the space character to `/`, a word break.
2. **The playback schedule** (`playMorseCode`). The encoded string is walked
   one character at a time. Position `i` gives a `dot` or `dash` tone at time
   `i * speed` when it holds `.` or `-`, and silence otherwise. Completion
   follows at `length * speed`. Every character takes one unit, spaces and
   `/` included. This is the code's simplified cadence, not the spacing rules
   of section 2 of M.1677-1.
3. **The playback guard.** A press of the play button does nothing when the
   message is empty or a campaign is running. Otherwise it launches the
   campaign and the state becomes Playing. The completion timer sets the
   state back to Idle.

Files and modules:

- `wrappers.dfy` — `Wrappers`: the `Option` datatype.
- `delimited.dfy` — `Delimited`: `Join` and `Split` with a one-character
  separator. They model JavaScript's `join(' ')` and `split(' ')`, where
  `"".split(' ')` is `[""]`.
- `table.dfy` — `MorseTable`: the table (`Lookup`, `TokenOf`), the
  per-character upper-casing (`Upper`) and the inverse table (`CharOf`).
- `encoder.dfy` — `Encoder`: `Encode`, and `Decode` as its partner for the
  round trips.
- `schedule.dfy` — `Playback`: the per-character slots
  (`morseCode.split('').map(...)`), the cues that fire (`forEach` with
  `if (entry)`), and the `Plan` of cues plus a completion time. Real timers
  are replaced by this data.
- `player.dfy` — `Player`: the session state (text, Morse code, speed,
  status), its transitions, and runs over sequences of events.

One edge case follows the code rather than the intuitive statement "n
characters give n fields". For the empty text the code joins zero tokens into
`""`, and splitting `""` gives one field, not zero. So `Encoder.EncodeFields`
requires non-empty text, and `Encoder.EncodeEmpty` covers the empty case.

## Model

| member | source | states |
|---|---|---|
| `MorseTable.Lookup` | src/App.js:4-45 | the table holds exactly the keys `A`–`Z`, `0`–`9`, `.`, `,`, `?` and the space; every token in the table is non-empty; the space's token is exactly `/` and no other key has it; every other token is a string of dots and dashes only |
| `MorseTable.CharOf` | src/App.js:4-45 | the inverse table is sound: when it maps a token to a character, the table maps that character back to the token |
| `MorseTable.CharOfToken` | src/App.js:4-45 | the inverse table recovers every key from its token |
| `MorseTable.TokenInjective` | src/App.js:4-45 | the table is injective: two keys with the same token are the same key |
| `MorseTable.UpperIdempotent` | src/App.js:55 | upper-casing twice is the same as once, and every key of the table is its own upper case |
| `MorseTable.TokenOf` | src/App.js:59 | definition: the token for a character, or the empty token when the table does not hold it; stated by `MorseTable.Lookup` and `Encoder.EncodeFields` |
| `MorseTable.Upper` | src/App.js:55 | definition: per-character upper-casing, restricted to characters whose upper case is a key; stated by `MorseTable.UpperIdempotent` and `Encoder.EncodeUpper` |
| `Delimited.SplitJoin` | src/App.js:60 | splitting a join on the separator gives back the parts, when there is at least one part and no part contains the separator |
| `Delimited.JoinSplit` | src/App.js:60 | joining the fields of a split restores any string |
| `Delimited.Join` | src/App.js:60 | definition: the parts in order with one separator between neighbours, as `join(' ')` builds them; stated by `Delimited.SplitJoin` and `Delimited.JoinSplit` |
| `Encoder.EncodeEmpty` | src/App.js:57-60 | the empty text encodes to the empty string |
| `Encoder.Encode` | src/App.js:55-60 | definition of the encoder: upper-case, look up each character, join with one space; stated by `Encoder.EncodeFields`, `Encoder.EncodeAlphabet`, `Encoder.DecodeEncode` and `Encoder.EncodeDecode` |
| `Encoder.UpperString` | src/App.js:55 | definition: the input upper-cased character by character; stated by `Encoder.EncodeUpper` and `Encoder.EncodeCaseInsensitive` |
| `Encoder.Tokens` | src/App.js:57-59 | definition: one token per character in order, the empty token for an unmapped one; stated by `Encoder.EncodeFields` |
| `Encoder.EncodeFields` | src/App.js:57-60 | a non-empty text of length n encodes to exactly n space-separated fields; field k is the token of the upper case of character k, or empty when that character is not in the table, so unmapped characters keep their slot |
| `Encoder.EncodeAlphabet` | src/App.js:57-60 | an encoding contains only `.`, `-`, `/` and the space |
| `Encoder.EncodeCaseInsensitive` | src/App.js:55-59 | two texts whose characters agree up to letter case have the same encoding |
| `Encoder.EncodeUpper` | src/App.js:55-60 | upper-casing the text first changes neither its upper case nor its encoding |
| `Encoder.DecodeFields` | src/App.js:4-45 | decoding a list of fields yields one key per field whose token is that field, and fails exactly when some field is not a token |
| `Encoder.DecodeEncode` | src/App.js:55-60 | round trip: when every character upper-cases to a table key, decoding the encoding gives back the upper-cased text |
| `Encoder.EncodeDecode` | src/App.js:57-60 | converse round trip: whatever decodes is already upper case and re-encodes to the same Morse string |
| `Encoder.EncodeSos` | src/App.js:57-60 | `SOS` encodes to `... --- ...` |
| `Encoder.EncodeHiThere` | src/App.js:55-60 | the fields of the encoding of `Hi There!` are the tokens of `H I / T H E R E`, followed by one empty field for the unmapped `!` |
| `Playback.SymbolPositions` | src/App.js:68-72 | the positions that sound are exactly the indices of the message holding `.` or `-`, in strictly increasing order |
| `Playback.PositionsCount` | src/App.js:68-72 | there are as many sounding positions as dots and dashes in the message |
| `Playback.ScheduleCues` | src/App.js:68-75 | the campaign holds one cue per sounding position, in order; the k-th cue sounds the k-th dot or dash at its position times the speed, as a `dot` for `.` and a `dash` for `-` |
| `Playback.ScheduleCount` | src/App.js:68-75 | the number of cues equals the number of `.` and `-` in the message |
| `Playback.ScheduleComplete` | src/App.js:68-75 | every `.` or `-` at position i is sounded at time i times the speed, with its own tone |
| `Playback.ScheduleTiming` | src/App.js:68-87 | at a positive speed the cue times strictly increase, and every cue is due strictly before the completion time |
| `Playback.ScheduleDotDash` | src/App.js:68-87 | `.-` at 500 per unit gives a dot at 0, a dash at 500 and completion at 1000 |
| `Playback.Slots` | src/App.js:68-72 | definition: one slot per character, holding a cue at its index times the speed for `.` or `-` and nothing otherwise; stated by `Playback.ScheduleCues` |
| `Playback.Fired` | src/App.js:74-75 | definition: the cues of the occupied slots in slot order; stated by `Playback.ScheduleCues` and `Playback.ScheduleCount` |
| `Playback.Schedule` | src/App.js:68-87 | definition of the schedule builder: the fired cues plus completion at length times speed; stated by `Playback.ScheduleCues`, `Playback.ScheduleComplete` and `Playback.ScheduleTiming` |
| `Player.TypeText` | src/App.js:54-62 | after a text change, the shown text is the upper-cased input and the shown Morse code is the encoding of the shown text; the speed and the playback status are unchanged |
| `Player.Press` | src/App.js:64-72 | with an empty message or during a campaign, a press changes nothing and launches nothing; otherwise it launches the campaign for the current message and speed, and that campaign becomes the running one |
| `Player.InitialState` | src/App.js:48-66 | the start state satisfies the session invariant, and a press before any typing is a no-op |
| `Player.StepValid` | src/App.js:64-87 | every event keeps the session invariant (a slider speed, and a well-timed running campaign), and any campaign it launches is well-timed |
| `Player.RunValid` | src/App.js:64-87 | along any run of events from a valid state, the final state is valid and every launched campaign is well-timed |
| `Player.NoOverlap` | src/App.js:65-87 | while a campaign runs and its completion has not fired, no event launches anything and the running campaign, with its completion time, is unchanged |
| `Player.AtMostOneCampaign` | src/App.js:65-87 | between two completions at most one campaign is launched |
| `Player.RestartAfterCompletion` | src/App.js:65-87 | after completion, a press with a non-empty message launches the campaign for that message and speed |
| `Player.SetSpeed` | src/App.js:117 | definition: the slider sets the speed to one of its values; stated by `Player.StepValid` |
| `Player.Finish` | src/App.js:87 | definition: the completion timer sets the status back to Idle; stated by `Player.RestartAfterCompletion` |
| `Player.Step` | src/App.js:54-87 | definition: one event (text change, slider move, play press, completion); stated by `Player.StepValid` |
| `Player.Run` | src/App.js:54-87 | definition: the final state and the launched campaigns after a sequence of events; stated by `Player.RunValid`, `Player.NoOverlap` and `Player.AtMostOneCampaign` |

## Left out

- Rendering, layout, styling and the slider widgets (`src/App.js:90-154`)
  have no logic. The speed slider is kept only as the range of values it
  produces (`Player.ValidSpeed`: 100 to 1000 in steps of 50).
- `setTimeout` and `new Audio(...).play()` are browser side effects. They
  are replaced by the `Plan` data and by the `Completed` event. The model does
  not say when a timer actually fires or in what order ties fire.
- The volume is a floating-point value passed straight to the audio API. It
  is not modelled.
- `MorseTable.Upper` is not full Unicode upper-casing. It covers only the
  characters whose upper case is a table key: ASCII `a`–`z`, the dotless `i`
  (U+0131) and the long `s` (U+017F). Every other character is left as it
  is. That does not change the encoding for a character whose upper case is
  one character, since neither form is a key. It does change the shown
  upper-case text, and it is wrong for characters whose upper case is longer
  (`ß` to `SS`). The real encoding gets extra fields there.
- JavaScript strings are split into UTF-16 code units, so a character
  outside the Basic Multilingual Plane gives two empty fields. The model's
  characters are Unicode scalar values, so it gives one.
- React state batching and the stale `isPlaying` read inside the closure are
  left out. Each event sees the state left by the previous one.
- `Completed` may occur in a run even when no campaign is running. Setting
  the flag to false is harmless then, so the model accepts more runs than
  the app produces.
