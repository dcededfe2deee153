# Chat-log statistics core, in Dafny

This project models the ingestion core of a game server's chat-log analyser. It has four parts.

- **The player store** (`helpers.py`, module `Helpers`). Each player record is created lazily from
  `userTemplate` by `ensurePlayer`. `lastSeen` only moves forward. `startSession` and `endSession`
  keep a per-player list of `{start, end}` sessions. They also keep the global list
  `activeSessions` of names whose session is still open. The store is a class (`Helpers.Store`)
  whose methods update its two fields in place. Each method is proved against a function on the
  store's value (`OpenSession`, `CloseSession`, `AddPlayer`). The session invariant is proved
  about those functions: every name occurs in `activeSessions` as often as it has open sessions.
- **The analysis passes** (`analyze.py`, module `Analyze`). `analyzeMapgen`, `analyzeLogins`,
  `analyzeChatMessages` and `analyzePlanes` read every line of every day's log file in order.
  Each one updates the dictionary `d` (and, for mapgen, the per-day `chunkGenerations` buckets).
  A line arrives already classified as the event its regular expression recognises
  (`Join`, `Leave`, `Chat`, `Shift`, `Blame`, `Anon`). It carries the captured strings, so the
  `int()` and `datetime()` exceptions the source can raise are kept in the model as `Result`
  errors. The two nested `for` loops are one generic method, `Analyze.Pass`, proved equal to a
  fold (`RunFiles`). The per-line bodies are functions whose contracts state what one line does.
  Lemmas state what a whole pass does.
- **The date parsers** (module `Timestamps`). These are `datetimeFromRegex` and `dateFromRegex`
  (both copies), the fixed-width timestamp prefix at the head of every log line, and the date
  sliced out of a log file's name. Datetimes become whole seconds. A lemma shows that seconds
  order datetimes as Python's comparison does.
- **The mob-death messages** (`mobmessages.py`, module `MobMessages`). This covers:
  - the vocabulary lists and the 44 `murder_messages` templates;
  - the seventeen `str.replace` rules with which `parseDeadMobs` turns templates into patterns,
    in place;
  - its search loop;
  - the death counter of `parseMobMessages`.

  Templates are kept as lists of text and placeholder parts, and each renders to the source's
  string. The rewriting is proved to remove every placeholder token and to be idempotent. It is
  also proved to equal a direct reading of the template: each placeholder is replaced by its
  substitution text.

Python's exceptions are values: `Outcomes.Result` with the exception kind (`ValueError`,
`KeyError`, `IndexError`, `TypeError`, `NameError`, `UnboundLocalError`). Python's `str.replace`, `str.join`,
`int()` of a digit string, slicing and `split("/")[-1]` are in module `Strings`.

A regular-expression match is an input to the model. For the passes, it is the classified event.
For `parseDeadMobs`, it is a `search(pattern, line)` function parameter. For `parseMobMessages`,
it is the optional captured `MobDeath`.

## Model

| member | source | states |
|---|---|---|
| Strings.ParseInt | helpers.py:16 | `int(s)` succeeds exactly when s is a non-empty string of ASCII digits; otherwise it raises ValueError |
| Strings.Replace | mobmessages.py:251 | `str.replace` leaves a string in which the pattern does not occur unchanged |
| Strings.Slice | analyze.py:88-90 | Python's clamped slice: its length, and equality with the Dafny slice when the bounds are in range |
| Strings.AfterLast | analyze.py:87 | `split("/")[-1]` is the longest suffix without a separator, and a separator precedes it when it is not the whole string |
| Timestamps.MakeDateTime | helpers.py:17 | `datetime(...)` succeeds exactly when the fields form a valid date and time of day |
| Timestamps.MakeDate | helpers.py:22 | `date(...)` succeeds exactly when year, month and day form a valid calendar date |
| Timestamps.IntAll | helpers.py:16 | the list comprehension of `int()` succeeds exactly when every group parses, and yields each group's value in place; else ValueError |
| Timestamps.DatetimeFromGroups | analyze.py:68-70 | succeeds exactly when six groups are present, all parse and form a valid datetime; the result is that datetime; too few groups raise IndexError |
| Timestamps.DateFromGroups | analyze.py:73-75 | succeeds exactly when three groups are present, parse and form a valid date; the result is that date; errors are ValueError or IndexError |
| Timestamps.HelpersParsersAgree | helpers.py:15-22 | the `*r` versions in helpers.py agree with analyze.py's whenever the groups they read are present; with exactly three groups, analyze.py's datetimeFromRegex raises IndexError while helpers.py's succeeds exactly when the date is valid, and then gives midnight of that date |
| Timestamps.ToSecondsOrder | helpers.py:7 | comparing whole seconds orders datetimes exactly as Python compares them, and equal seconds mean equal datetimes |
| Timestamps.ParsePrefix | analyze.py:10 | a recognised prefix is `[YYYY/MM/DD, HH:MM:SS UTC]` with well-formed digit groups, then spaces, then the rest, which does not start with a space |
| Timestamps.ParseFormatPrefix | analyze.py:10 | reading back a printed prefix with any number of spaces gives its six groups and the rest of the line |
| Timestamps.DatetimeFromShowGroups | analyze.py:68-70 | datetimeFromRegex inverts the server's printing of every valid datetime |
| Timestamps.FileDate | analyze.py:87-91 | a file's nominal date, when it parses, is a valid date |
| Timestamps.FileDateOfName | analyze.py:87-91 | a file named `YYYY?MM?DD...` in any directory yields that day, whatever the separators and the suffix |
| Helpers.NewPlayer | helpers.py:48-75 | a new record has firstSeen = the timestamp, no lastSeen, no sessions, planes or mob deaths, and every counter 0 |
| Helpers.UpdateLastSeen | helpers.py:5-12 | lastSeen becomes t when missing, otherwise the later of the two; it never decreases; nothing else changes |
| Helpers.AddPlayer | helpers.py:72-77 | returns True and inserts a fresh record exactly when the name is absent; otherwise returns False and changes nothing |
| Helpers.OpenSession | helpers.py:25-30 | appends exactly one open session, raises nLogins by one, advances lastSeen and appends the name to activeSessions; every other player is unchanged |
| Helpers.RemoveFirst | helpers.py:45 | `list.remove` drops exactly one occurrence of the name: one element fewer, the same multiset less that name |
| Helpers.RemoveFirstDropsFirst | helpers.py:45 | `list.remove` takes out the first occurrence of the name, at whatever index it is, and keeps every other element in its order |
| Helpers.CloseSession | helpers.py:33-45 | unknown player, no sessions or last session already ended: nothing changes; otherwise only the last session gets its end, lastSeen advances, one occurrence of the name leaves activeSessions and nothing else changes; a remove that cannot find the name raises ValueError |
| Helpers.AddPlayerKeepsConsistent | helpers.py:72-77 | creating a player keeps "open sessions = occurrences in activeSessions" |
| Helpers.OpenSessionKeepsConsistent | helpers.py:25-30 | startSession keeps the session invariant |
| Helpers.CloseSessionKeepsConsistent | helpers.py:33-45 | on a consistent store, endSession never raises (the remove always finds the name) and keeps the invariant |
| Helpers.OperationsPreserve | helpers.py:25-45 | none of the three operations rewrites firstSeen, drops a session, rewrites a start or an ended session, or lowers lastSeen |
| Helpers.TwoOpensWithoutClose | helpers.py:25-30 | two joins without a leave leave two open sessions and the name twice in activeSessions |
| Helpers.ReplayKeepsConsistent | helpers.py:25-45 | any sequence of startSession/endSession calls from a consistent store never raises and ends consistent |
| Helpers.Store.EnsurePlayer | helpers.py:72-77 | the store's players and result are those of AddPlayer; activeSessions is untouched; the invariant holds |
| Helpers.Store.StartSession | helpers.py:25-30 | the new state is OpenSession of the old, and the invariant holds |
| Helpers.Store.EndSession | helpers.py:33-45 | the new state is CloseSession of the old, which cannot fail, and the invariant holds |
| Analyze.Touch | analyze.py:107-108 | `if not d.get(name): d[name] = {}`: the name becomes present, an existing record is kept, and no other entry changes |
| Analyze.UpdateLastSeen | analyze.py:60-65 | lastSeen is set when missing, otherwise raised to t if later; it never decreases and nothing else changes |
| Analyze.StampTime | analyze.py:159-162 | the line's six groups in seconds, failing exactly when datetimeFromRegex would |
| Analyze.Pass | analyze.py:84-131 | the file loop and the line loop compute the fold over files and lines, stopping at the first exception |
| Analyze.RunFilesIsRunLines | analyze.py:149-151 | a pass that does nothing on opening a file is one fold over all lines in reading order |
| Analyze.LoginStep | analyze.py:157-187 | a join sets firstLogin only when nLogin was 0 or missing, counts the login, sets start and advances lastSeen; a leave without a start changes nothing; otherwise it adds leave minus start to totalTime and keeps start; no other player changes |
| Analyze.AnalyzeLogins | analyze.py:137-191 | the pass's loops compute the logins fold |
| Analyze.LoginsFailIff | analyze.py:157-178 | the logins pass raises exactly when some join or leave line carries a timestamp datetime() rejects |
| Analyze.LoginsCountJoins | analyze.py:165-169 | after the pass, each player's nLogin is its old count plus its number of join lines |
| Analyze.FirstJoin | analyze.py:165-167 | the first join line of a player, with no join of the player before it |
| Analyze.FirstLoginIsFirstJoin | analyze.py:165-167 | for a player without logins before the pass, firstLogin ends as the time of the first join line |
| Analyze.JoinFresh | analyze.py:163-170 | a first join records one login, firstLogin = start = the join time, and no total time |
| Analyze.LeaveAfterStart | analyze.py:179-186 | a leave after a recorded start adds the time since it to totalTime and keeps start |
| Analyze.JoinThenLeave | analyze.py:157-187 | a join at t1 and a leave at t2 for a new player give nLogin 1, firstLogin t1, totalTime t2 - t1 |
| Analyze.RepeatedLeaveCountsTwice | analyze.py:179-186 | start is not cleared, so two leaves after one start add the time since that start twice |
| Analyze.ChatStep | analyze.py:224-235 | a chat line raises its sender's nMsg by exactly one and advances lastSeen; other lines and players are unchanged; it raises exactly on a bad timestamp |
| Analyze.AnalyzeChatMessages | analyze.py:197-239 | the pass's loops compute the chat fold |
| Analyze.ChatCountsMessages | analyze.py:229-231 | after the pass each player's nMsg is its old count plus its number of chat lines |
| Analyze.ChatStepKeepsLastSeen | analyze.py:235 | one chat line never removes a player or moves a lastSeen back |
| Analyze.ChatLastSeenBound | analyze.py:233-235 | after the pass, lastSeen is no earlier than before and no earlier than any of the player's chat lines |
| Analyze.AddPlane | analyze.py:258-261 | a plane is appended only if absent: the old list is a prefix, membership is old-or-new, and no duplicates appear |
| Analyze.PlaneStep | analyze.py:250-261 | a shift line updates only its player's planes list, via AddPlane |
| Analyze.AnalyzePlanes | analyze.py:243-265 | the pass's loops compute the planes fold |
| Analyze.PlanesAccumulate | analyze.py:256-261 | the planes pass never raises; each list keeps its old prefix, equals the old list with the player's shifted-to planes added in line order, each only on its first visit (`AddAll`), so it keeps its old prefix, gains exactly those planes and stays free of duplicates |
| Analyze.MapgenOpen | analyze.py:87-92 | opening a file fails exactly when its name has no date, and otherwise sets that date's bucket to 0 |
| Analyze.BlameStep | analyze.py:102-120 | a blame line with N chunks adds N to the player's chunks and to the bucket of the line's own date (created if absent) and remembers the player |
| Analyze.AnonStep | analyze.py:122-129 | an anonymous line credits its count to the last blamed player and to its date's existing bucket; with no earlier blame line it raises UnboundLocalError; a blamed player without a chunks entry, or a date without a bucket, raises KeyError; a bad date propagates its parser's error and a non-numeric count raises ValueError |
| Analyze.MapgenStep | analyze.py:102-129 | lines other than blame and anonymous mapgen lines change nothing; an anonymous line's count is read from group 7, the corrected reading (see Findings) |
| Analyze.AnonAsWrittenRaises | analyze.py:126 | as written, `int(g[6])` reads `Chunks: N.` and every anonymous mapgen line raises ValueError |
| Analyze.AnonCredits | analyze.py:123-129 | reading group 7, an anonymous line after a blame line adds N to that player and to its day's bucket |
| Analyze.MapgenLinesKeep | analyze.py:102-129 | within a file, lines keep every bucket and player, and the last blamed player keeps a chunks entry |
| Analyze.MapgenBucketsCoverFiles | analyze.py:84-92 | after a successful pass, every file's nominal date has a bucket |
| Analyze.AnalyzeMapgen | analyze.py:79-133 | returns the players and buckets of the mapgen fold, or its exception (count read from group 7, the corrected reading; see Findings) |
| MobMessages.GroupContainsEach | mobmessages.py:242-247 | every word of a vocabulary list occurs in its `"(" + "|".join(...) + ")"` group |
| MobMessages.SubstitutionSafe | mobmessages.py:251-272 | no substitution text contains a placeholder token: its only `<` opens `<(` |
| MobMessages.RenderSafe | mobmessages.py:163-208 | every `<` of a template starts one of the seventeen tokens |
| MobMessages.CompileClears | mobmessages.py:249-274 | after the seventeen replacements no placeholder token is left |
| MobMessages.CompileIdempotent | mobmessages.py:249-274 | rewriting a rewritten entry changes nothing |
| MobMessages.CompileTemplate | mobmessages.py:251-272 | a rewritten template is its text with each placeholder replaced by that placeholder's substitution text |
| MobMessages.TemplatesCompile | mobmessages.py:163-208 | every entry of `murder_messages` rewrites to a token-free pattern |
| MobMessages.CompileAll | mobmessages.py:249-274 | the rewritten list has the same length, each entry rewritten in its place |
| MobMessages.CompileAllClears | mobmessages.py:249-274 | after rewriting no entry holds a token, and an entry that already held none is unchanged |
| MobMessages.CompileAllIdempotent | mobmessages.py:249-274 | a second parseDeadMobs call leaves the list unchanged |
| MobMessages.SearchAny | mobmessages.py:277-281 | returns True exactly when some pattern matches the line, stopping at the first match |
| MobMessages.MurderTable.constructor | mobmessages.py:163-208 | the module-level list starts as the 44 templates |
| MobMessages.MurderTable.RewriteInPlace | mobmessages.py:249-274 | the index loop overwrites each entry with its rewriting, keeping length and order |
| MobMessages.MurderTable.ParseDeadMobs | mobmessages.py:239-281 | the list is rewritten in place (length and order kept, tokens gone), and the result says whether some rewritten template matches; no player data is touched |
| MobMessages.CountDeath | mobmessages.py:227-232 | the player exists afterwards; its count for the mob rises by one (1 if missing or 0); other mobs' counts, the rest of the record and the other players are unchanged |
| MobMessages.CountDeathKeepsConsistent | mobmessages.py:227-232 | counting a death keeps the store's session invariant |
| MobMessages.DeathsCount | mobmessages.py:228-232 | after any sequence of matched lines, each count is the old count plus the number of matching lines |
| MobMessages.ParseMobMessages | mobmessages.py:212-235 | returns True exactly on a match; with no match the store is untouched; with one, the death is counted and activeSessions is unchanged |
| MobMessages.ParseMobMessagesAsWritten | mobmessages.py:222-235 | as written, the function returns False when the line does not match and raises NameError on every match |
| MobMessages.MobDeathAsWrittenRaises | mobmessages.py:227 | a matching line raises NameError as written, while the corrected count rises by one |

## Left out

- The regular-expression engine is not modelled. Neither are the pre-filters on `l[30]`: a line reaches a pass already classified, and `parseDeadMobs` takes `re.search` as a parameter.
- Analyze.ChatStep: what the chat name captures (the optional `!`, the `[realm: x,y,z]` annotation) is a property of the pattern, which is not modelled. The name arrives as captured.
- MobMessages.ParseMobMessages: which capture is the mob name (the text after the optional article and anger word, up to the final period) is likewise a property of the pattern. The captured name and mob arrive as a `MobDeath`. The source passes no time when it creates the player (`helpers.createPlayer(d, name)`); the `MobDeath` time is the model's own choice of `firstSeen` for a record it creates.
- Strings.ParseInt: accepts ASCII digits only. Python's `int()` also accepts surrounding whitespace, a sign, `_` separators and other Unicode digits, which the fixed-width groups of the log format never contain.
- `datetime` and `timedelta` are whole seconds. Time zones are absent in the source too.
- Helpers.CloseSession: when `activeSessions.remove(name)` raises ValueError (helpers.py:45), the source has already written the session's end (helpers.py:43) and `lastSeen` (helpers.py:44) into the player; the model's `Err` result drops those partial writes. On a consistent store the raise cannot happen (Helpers.CloseSessionKeepsConsistent).
- Analyze.Pass: `d` is passed in and returned as a value. The source mutates the caller's dictionary, and a pass that raises leaves the lines before the exception applied to it. The model returns only the exception.
- Analyze.LoginStep: the record is a fixed set of optional fields rather than a free-form dictionary. Keys the passes never write are not modelled.
- MobMessages.MurderTable.ParseDeadMobs: the vocabulary lists are a `Vocabulary` value held by the table, and the in-place loop is generic over the rewriting function it applies. This keeps the proofs small; the lists' contents are the source's.
- Database code, `printPlayer`, `print` diagnostics and `time.perf_counter` timing are I/O. So are the `__main__` block, the download, configuration, outback and bonebox scripts.
- No code exists for force-closing sessions on a server shutdown, for the 24-hour session check, or for rename, kick, mute and mark handling. `nKicks`, `nMarks` and `nDuctTapes` are only zero fields of the template.
- A player might be expected to have at most one open session. The code does not enforce this: two joins without a leave open two sessions (Helpers.TwoOpensWithoutClose). The model follows the code, and the invariant proved is the count form.
- `userTemplate` has no `deathsByMob` field (helpers.py:64-68). The model's player record adds it as an empty map, which is what `parseMobMessages` needs.

## Findings

| source | as written | input that shows it | evidently intended | confidence | as-written member | corrected member |
|---|---|---|---|---|---|---|
| analyze.py:126 | `chunks = int(g[6])` reads group 6 of `(Chunks: (\d*).)`, which is the text `Chunks: N.` | any line `regexAnon` matches, e.g. `[2024/07/18, 12:00:00 UTC]    # Server: Mapgen working, expect lag. Chunks: 12.` (the parentheses in the pattern are groups; if the server printed literal parentheses, the anonymous branch would never match and would be dead code rather than a raise) | read group 7, the digits, and credit N to the last blamed player and to the day's bucket | not executed | Analyze.AnonAsWrittenRaises | Analyze.AnonCredits |
| mobmessages.py:227 | `helpers.createPlayer(d, name)`: the `helpers` import is commented out (mobmessages.py:7), and helpers.py defines no `createPlayer` | any line that matches the death pattern | create the player with `ensurePlayer` (given a `deathsByMob` map), then count the death | not executed | MobMessages.MobDeathAsWrittenRaises | MobMessages.DeathsCount |
