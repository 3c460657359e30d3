# FLATLINE — a verified model of the game's session controller and game table

FLATLINE is a "diagnose the patient" game. The player picks a difficulty, then
alternates between choosing a diagnostic test and choosing a diagnosis. Each
wrong diagnosis costs the patient hit points, until the player names the
illness or the patient flatlines. This project models the two state machines
that run the game, plus the text cleaning the backend applies to the language
model's output:

- `client.dfy` (module `Client`) is the page's session record from
  `frontend/src/App.jsx`. Class `Session` has one field per `useState`. Its
  methods are `AddLog`, `StartGame` and `HandleAction`, and each one updates
  the fields in the order the source's setter calls do. The server's answer to
  the request a handler sends is a parameter: `Replied(data)` is the reply's
  JSON body, `Failed` is a rejected `fetch` or `res.json()`.
- `server.dfy` (module `Server`) is the backend's in-memory `games` table from
  `backend/main.py`. Class `GameTable` holds the map from game id to game
  record, and its methods are the routes `/start_game`, `/submit_test` and
  `/submit_diagnosis`. The pure parts are separate functions: the difficulty
  to starting-hp table, the fuzzy diagnosis match and `clean_and_parse_json`.
  A parsed reply is a `Doc` whose keys may be absent. Reading an absent key is
  Python's `KeyError`, modelled as `Failure(MissingKey(key))` at the exact
  point the source reads it, so changes made before that point persist.
- `text.dfy` (module `Text`) holds the string operations the backend uses:
  ASCII `str.lower()`, the substring test `needle in hay`, `str.strip()` and
  the regular expression that removes markdown fences.
- `transcript.dfy` holds the `{type, text}` log entry both sides keep.
  `wrappers.dfy` holds `Option` and `Result`.
- `scenarios.dfy` plays whole games using only the contracts above. One uses
  an easy game: test, wrong diagnosis, test, win. Others show a connection
  failure at start, hp the page does not clamp, a case that fell back on
  parse failure, a WON game that still takes diagnoses, and a medium game
  lost on the third miss. The last ones feed the backend's own replies to
  the page: a hard game whose single miss ends on the flatline screen, and a
  medium game whose miss brings the server's lowered hp and test list back
  to the page.

The model follows the code, including these behaviours a reader might not
expect:

- A `handleAction` on the START or END screen does nothing. It is not
  rejected.
- hp is taken from the reply as it comes, and is never clamped to
  `[0, maxHp]`.
- A failed start has already recorded the difficulty.
- `startGame` has no phase guard.
- The server never checks a game's status. A WON or LOST game still accepts
  diagnoses, and hp can go below zero.

## Model

| member | source | states |
|---|---|---|
| `Client.Session.constructor` | frontend/src/App.jsx:50-57 | A fresh page: no game id or difficulty, hp and max hp 100, empty log and options, no modal, phase START. |
| `Client.Session.AddLog` | frontend/src/App.jsx:59-61 | The log gains exactly one `{type, text}` entry at the end; earlier entries keep their values and order; no other field changes. |
| `Client.Session.StartGame` | frontend/src/App.jsx:63-85 | The difficulty is always recorded. On a reply: game id, hp and max hp come from the reply, the log gains "RETRIEVING PATIENT SYMPTOMS..." then the intro, options become the test options, and the phase becomes TEST. On a failure: the log gains "RETRIEVING..." then the connection-error line, and game id, hp, max hp, options and phase are unchanged. The modal is never touched. `phase = END ⇒ modal set` and `phase ≠ START ⇒ game id and difficulty set` are preserved. |
| `Client.Session.HandleAction` | frontend/src/App.jsx:87-131 | START or END: nothing changes. TEST: the log gains "PERFORMING: sel" then the narrative, options become the diagnosis options, phase becomes DIAGNOSE, and hp and modal are untouched. DIAGNOSE: the log first gains "DIAGNOSING: sel". A "WIN" reply then sets the win modal with the analysis and phase END, keeping hp and options. A "LOSE" reply sets hp 0, the lose modal and phase END. Any other status sets hp to the reply's hp, logs the message then "RE-INITIALIZING TESTS...", replaces the options only when the reply carries test options, and sets phase TEST. A rejected request leaves only the first log entry. Game id, difficulty and max hp never change. |
| `Server.GameTable.constructor` | backend/main.py:31 | The game table starts empty. |
| `Server.GameTable.StartGame` | backend/main.py:121-145 | Exactly one new game is stored under the fresh id, with hp = max hp = the difficulty's starting hp, status PLAYING and an empty log; every other game is unchanged. The reply echoes the id, the intro, the case's initial test options and hp = max hp. When the case lacks `patient_intro` or `initial_test_options` the route fails with that `KeyError`, and the game stays stored. |
| `Server.GameTable.SubmitTest` | backend/main.py:147-160 | An unknown id gives 404 and changes nothing. A case lacking a key the analysis prompt reads (lines 106-109) fails before any change. Otherwise the game's log gains "Running <test>..." then the narrative, and the reply carries the narrative and the case's diagnosis list. hp and status are unchanged, as are all other games. If the narrative is missing, only the first entry is appended. |
| `Server.GameTable.SubmitDiagnosis` | backend/main.py:162-203 | An unknown id gives 404, and a case without an illness name gives a `KeyError`; neither changes anything. A correct name sets status WON, leaves hp alone and replies WIN with the explanation. A wrong name lowers hp by exactly 20. If the new hp is at most 0, status becomes LOST and the reply is LOSE with the illness, the definitive test and the explanation. Otherwise status becomes PLAYING and the reply is CONTINUE with the new hp and the initial test options. Status is never consulted. The invariant on every game is preserved: max hp is the difficulty's starting hp, hp falls in steps of 20, PLAYING implies hp > 0, and LOST implies hp ≤ 0. |
| `Server.StartingHp` | backend/main.py:125-126 | Starting hp is 20 exactly for "hard", 60 exactly for "medium", and 100 for "easy" and for any other string. |
| `Server.IsCorrect` | backend/main.py:170-171 | The fuzzy match: the lowered name occurs in the lowered illness, or the reverse. Its contract says that an exact name, an empty name, and a name that occurs in the illness (or contains it) are all correct. |
| `Server.IsCorrectIffOccurs` | backend/main.py:170-171 | The match holds exactly when one lowered name occurs at some index of the other, in both directions. |
| `Server.ScoringKeepsInvariant` | backend/main.py:175-194 | A win, which changes only the status, and a miss, which costs 20 hp and sets LOST at hp ≤ 0 or PLAYING otherwise, both keep a game's invariant. |
| `Server.LoseAnalysis` | backend/main.py:191 | The LOSE analysis text names the illness, the definitive test and the explanation. |
| `Server.ExactOrEmptyIsCorrect` | backend/main.py:170-171 | Naming the illness exactly is a correct diagnosis, and so is the empty name. |
| `Server.IsCorrectIgnoresCase` | backend/main.py:170-171 | The verdict does not change when either name is lowered, nor when the two names swap places. |
| `Server.SubstringIsCorrect` | backend/main.py:170-171 | A name found inside the illness is correct, and so is any name that embeds the illness, whatever the letter case. |
| `Server.Fallback` | backend/main.py:54-59 | The fallback dictionary has no `patient_intro` and no `illness_name`, and its `initial_test_options` and `diagnosis_list` are empty lists. |
| `Server.CleanAndParse` | backend/main.py:46-59 | The result is what the parser makes of the cleaned text, or the fallback when the parser fails. A parse failure therefore yields a case without an intro, which `/start_game` cannot answer. |
| `Server.ParserSeesCleanText` | backend/main.py:48-51 | The parser never sees a fence or surrounding whitespace, and text already free of both reaches it unchanged. |
| `Text.Lower` | backend/main.py:170-171 | `lower()` keeps the length and lowers each character in place, leaving no upper-case ASCII letter. |
| `Text.LowerIdempotent` | backend/main.py:170-171 | Lowering twice is lowering once. |
| `Text.Contains` | backend/main.py:170-171 | Python's `needle in hay`. A prefix is always found, and only a needle no longer than the hay can be found. |
| `Text.ContainsIffOccurs` | backend/main.py:170-171 | The recursive `needle in hay` holds exactly when `needle` occurs in `hay` at some index, in both directions. |
| `Text.ContainsLower` | backend/main.py:170-171 | An occurrence survives lowering both strings. |
| `Text.LeadingSpace` | backend/main.py:48 | Counts the whitespace prefix: every character before the count is whitespace, and the one at the count is not. |
| `Text.WithoutTrailingSpace` | backend/main.py:48 | Marks where the whitespace suffix starts: every character from the mark on is whitespace, and the one before it is not. |
| `Text.Strip` | backend/main.py:48 | `strip()` returns the middle slice that starts after the leading whitespace, with nothing but whitespace after it, and neither end of the result is whitespace. |
| `Text.RemoveFences` | backend/main.py:48 | `re.sub(r"```(json)?", "", text)`. The result is never longer than the input, and every character in it comes from the input. |
| `Text.RemoveFencesLeavesNone` | backend/main.py:48 | After every "```json" and "```" is removed, no "```" is left, including one that joining the remaining pieces could have formed. |
| `Text.RemoveFencesNoFence` | backend/main.py:48 | Text with no "```" in it passes through the removal unchanged. |
| `Text.RemoveClosingFence` | backend/main.py:47-48 | Fence-free content followed by a closing fence comes out unchanged, even when it ends in one or two backticks of its own. |
| `Text.Unwrap` | backend/main.py:47-48 | For a payload wrapped as "```json" + payload + "```", removal returns the payload, and cleaning returns the payload stripped. |
| `Text.CleanText` | backend/main.py:48 | `re.sub(...).strip()`: the text handed to the parser has no "```", no whitespace at either end, and is never longer than the input. |
| `Text.CleanTextIdempotent` | backend/main.py:48 | Cleaning the cleaned text changes nothing. |

## Left out

- The language model calls (`generate_case`, `analyze_test_result`, `genai`) and their prompts are foreign services. Their parsed output is a parameter. Only the keys the prompt of `analyze_test_result` reads are kept, because a missing one fails `/submit_test`.
- `json.loads` is a function parameter that returns either a document or nothing. A JSON value of an unexpected type (a list instead of an object, a number where a string is read) is not modelled.
- `uuid.uuid4()` is a parameter, required not to be in the table already.
- HTTP, FastAPI routing, CORS, `load_dotenv`, the `print` in `clean_and_parse_json` and `console.error` are I/O and are left out. A route's error is a `ServerError` value, not an HTTP response.
- `Client.Session.HandleAction`: reply fields are always present. A field the reply lacks is JavaScript `undefined` and is not modelled, and neither is a 404 body the page would read as a reply. The only exception is `test_options`, whose absence is `None`.
- `Client.Session.StartGame`: a reply missing a field it reads is not modelled either. Any failure to obtain a JSON body is the single `Failed` value.
- Overlapping requests and stale closures are not modelled. Each handler is one atomic step.
- `window.location.reload()` is modelled only as constructing a fresh `Session`.
- `lower()` is ASCII only. Non-ASCII letters are kept as they are.
- Rendering is not modelled: the JSX tree, `BackgroundPulse`, `Vitals.jsx`, `TerminalLog.jsx`, `ActionDeck.jsx` and the Tailwind theme.
