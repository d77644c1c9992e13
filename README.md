# Moviebot admin and filter command engine, in Dafny

This project models the state-bearing part of the Telegram movie bot in
`bot.py`: the owner id `default_admin`, the admin set `admins`, the keyword
table `filters` and the `WELCOME_MESSAGE` text, together with the command
handlers that read and update them: `/addadmin`, `/removeadmin`,
`/addfilter`, `/setwelcome`, the greeting sent to new members (`welcome`),
and the argument check of `/request`.

- `text.dfy` (module `Text`) holds the string operations the handlers use.
  It covers the ASCII view of `str.isdigit`, `int` and `str` on decimal
  numbers, of `str.lower`, and of `' '.join`, with `str.split(' ')` as its
  inverse. Round trips are proved: `int(str(n)) == n`; `str(int(s)) == s`
  for digit strings without leading zeros; splitting a join of space-free
  words gives the words back.
- `commands.dfy` (module `Commands`) is the specification. It has the state
  as a value `State` and one function per handler. Each function takes the
  state, the caller's id and the command's arguments, and returns the next
  state and the reply text. The lemmas there state what the handlers promise:
  - who may do what;
  - the usage checks;
  - that adding and removing an admin undo each other and that adding is
    idempotent;
  - that a filter overwrites its keyword and leaves the other keys alone;
  - the welcome text before and after `/setwelcome`;
  - the owner's ability to remove itself, and what it keeps and loses when it
    does.
- `handlers.dfy` (module `Handlers`) is the imperative model. Class `Bot`
  holds the module globals as fields. Each handler is a method that mirrors
  the Python guards with early returns and updates the fields in place. Each
  method is proved to carry out exactly the transition of the matching
  function in `Commands`, and to keep every filter key lower case. Two
  client methods run a fresh bot through the owner's self-removal and
  through the welcome text's life cycle, and prove only from the method
  contracts what the replies are.

Behaviour of `bot.py` a reader may not expect:
- The owner's id can be removed from `admins` (bot.py:55-57). Nothing
  protects it.
- The owner is not implicitly an admin. `/addfilter` and `/setwelcome` check
  membership in `admins` (bot.py:64, 102), so an owner who removed itself is
  refused. `/addadmin` and `/removeadmin` compare with `default_admin`
  (bot.py:36, 49), so it keeps those.
- When `OWNER_ID` is unset, the owner id is 0 (bot.py:25).
- `/addfilter` checks only that there are at least two arguments. There is
  no separate check that the keyword or reply is non-empty, and keys are
  lower-cased but not trimmed.
- Removing, listing and clearing filters, and matching them against
  messages, are not implemented in `bot.py`. The handlers for them are
  registered (bot.py:121-133) but not defined there.

## Model

| member | source | states |
|---|---|---|
| `Text.ShowNat` | bot.py:44 | `str(n)` is a canonical digit string; it starts with '0' exactly when n is 0 |
| `Text.ParseShow` | bot.py:42-44 | reading back the printed id gives the id: `int(str(n)) == n` |
| `Text.ShowParse` | bot.py:42-44 | for a digit string without leading zeros, `str(int(s)) == s` |
| `Text.ParseIgnoresLeadingZero` | bot.py:42 | a leading '0' does not change the id that `int` reads |
| `Text.Lower` | bot.py:108 | the lower-cased keyword has the same length and no upper-case letter, and characters other than A-Z are kept; already lower-case text is unchanged |
| `Text.LowerIgnoresCase` | bot.py:108 | two keywords lower-case to the same key exactly when they have the same length and differ at most in the case of letters |
| `Text.IsDigits` | bot.py:39 | the `isdigit()` argument check: non-empty and digits only; what it lets through is pinned by `AdminCommandsNeedOneId` and `AddAdminInserts` |
| `Text.ParseNat` | bot.py:42 | `int()` on a digit string; its value is pinned by `ParseShow`, `ShowParse` and `ParseIgnoresLeadingZero` |
| `Text.Join` | bot.py:109 | `' '.join`; `SplitJoin` proves that no word is lost by it |
| `Text.SplitJoin` | bot.py:109 | splitting `' '.join(words)` on spaces gives back the words when none of them holds a space |
| `Commands.Init` | bot.py:17-26 | the start-up state has only lower-case filter keys (it has none) |
| `Commands.AddAdmin` | bot.py:34-44 | `/addadmin` changes only the admin set, only grows it, and changes it only for the owner with a single all-digit argument |
| `Commands.RemoveAdmin` | bot.py:47-60 | `/removeadmin` changes only the admin set, only shrinks it, and changes it only for the owner with a single all-digit argument |
| `Commands.SetWelcome` | bot.py:63-69 | `/setwelcome` changes only the welcome text, only for a caller in the admin set, and always sets it for such a caller |
| `Commands.RequestMovie` | bot.py:77-83 | `/request` gives the usage reply exactly when it has no arguments; otherwise it relays the request |
| `Commands.AddFilter` | bot.py:101-111 | `/addfilter` changes only the filter table, never drops a key, keeps every key lower case, and changes the table only for a caller in the admin set with at least two arguments |
| `Commands.AdminCommandsAreOwnerOnly` | bot.py:34-54 | any caller but the owner gets the "Only the bot owner…" reply from both admin commands, and the state is unchanged |
| `Commands.AdminCommandsNeedOneId` | bot.py:39-54 | the owner with an argument count other than one or a non-digit argument gets the usage reply, and the state is unchanged |
| `Commands.AdminOnlyCommands` | bot.py:63-104 | `/addfilter` and `/setwelcome` reject exactly the callers outside the admin set, with no state change |
| `Commands.AddFilterNeedsTwoArguments` | bot.py:105-107 | an admin's `/addfilter` with fewer than two arguments gets the usage reply, and the table is unchanged |
| `Commands.AddAdminInserts` | bot.py:42-44 | a successful `/addadmin` leaves admins equal to the old set plus the parsed id; the reply echoes a canonical argument |
| `Commands.AddAdminIgnoresLeadingZero` | bot.py:39-44 | `/addadmin 0N` and `/addadmin N` have the same effect and reply |
| `Commands.AddAdminIdempotent` | bot.py:42-44 | repeating any `/addadmin` command changes nothing and repeats the reply |
| `Commands.RemoveAdminDeletes` | bot.py:55-60 | a present id is removed and nothing else; an absent id gets "is not an admin" and the state is unchanged |
| `Commands.RemoveUndoesAdd` | bot.py:42-60 | removing an id just added by `/addadmin` restores the previous state |
| `Commands.AddUndoesRemove` | bot.py:42-60 | adding back an id just removed by `/removeadmin` restores the previous state |
| `Commands.OwnerCanRemoveItself` | bot.py:55-57 | `/removeadmin <owner id>` by the owner removes the owner from the admin set |
| `Commands.OwnerOutsideAdminSet` | bot.py:36-102 | an owner outside the admin set is refused by `/addfilter` and `/setwelcome`, but `/addadmin` still works for it and restores its access |
| `Commands.AddFilterStores` | bot.py:108-111 | a successful `/addfilter` maps the lower-cased keyword to the space-joined rest, adds no other key and keeps every other value; the stored reply splits back into the words |
| `Commands.AddFilterOverwrites` | bot.py:108-110 | of two `/addfilter`s whose keywords differ only in case, the second replaces the first |
| `Commands.Welcome` | bot.py:72-74 | the greeting for new members; pinned by `WelcomeBeforeSet` and `WelcomeAfterSet` |
| `Commands.WelcomeBeforeSet` | bot.py:72-74 | before any `/setwelcome`, new members get the environment's text, or "Welcome to the channel!" if there is none |
| `Commands.WelcomeAfterSet` | bot.py:67-74 | after an admin's `/setwelcome`, new members get the space-joined arguments, possibly empty |
| `Commands.OwnerDelegatesFilters` | bot.py:42-110 | from start-up: the owner adds admin 42, and 42's `/addfilter Hello Hi there!` leaves the table as `{"hello": "Hi there!"}` |
| `Handlers.Bot.constructor` | bot.py:17-26 | at start-up admins is exactly `{default_admin}`, the table is empty, and the welcome text is the environment's |
| `Handlers.Bot.AddAdmin` | bot.py:34-44 | the in-place handler's new fields and reply are those of `Commands.AddAdmin` on the old fields |
| `Handlers.Bot.RemoveAdmin` | bot.py:47-60 | the in-place handler's new fields and reply are those of `Commands.RemoveAdmin` on the old fields |
| `Handlers.Bot.SetWelcome` | bot.py:63-69 | the in-place handler's new fields and reply are those of `Commands.SetWelcome` on the old fields |
| `Handlers.Bot.Welcome` | bot.py:72-74 | the greeting is `Commands.Welcome` of the current fields, and nothing changes |
| `Handlers.Bot.AddFilter` | bot.py:101-111 | the in-place handler's new fields and reply are those of `Commands.AddFilter` on the old fields; filter keys stay lower case |
| `Handlers.OwnerRemovesItself` | bot.py:47-104 | on a fresh bot the owner removes itself, and its `/addfilter` is then refused; its second removal still passes the owner check and gets "is not an admin" |
| `Handlers.WelcomeLifecycle` | bot.py:63-74 | on a fresh bot new members get the default greeting; after the owner's `/setwelcome` they get the joined text |

## Left out

- The Flask health check (bot.py:15, 29-31) is an HTTP endpoint with no logic.
- `imdb_search` (bot.py:86-98) calls the IMDb library over the network. It is
  not modelled.
- `request_movie` (bot.py:77-83) is modelled only as the text it relays and
  replies with. The call to `context.bot.send_message` is outbound I/O and is
  left out, including what happens when it fails or when
  `REQUEST_CHANNEL_ID` is unset.
- `main` (bot.py:116-143) is left out: the dispatcher, polling, the token and
  the environment configuration. Only `OWNER_ID` (0 when unset) and the
  initial `WELCOME_MESSAGE` reach the model, as constructor parameters. How the
  transport turns a message into `context.args` is not modelled either;
  handlers accept any sequence of strings.
- `start`, `remove_filter`, `list_filters`, `clear_filters` and
  `filter_from_channel` are registered (bot.py:121-133) but not defined in
  `bot.py`. They are not part of this model, and keyword matching is not
  modelled.
- Concurrency: the handlers run one at a time against the module globals,
  and there is no background timer in `bot.py`.
- Text.Lower and Text.IsDigits cover ASCII only. Python's `str.lower()` also
  maps non-ASCII letters. `str.isdigit()` also accepts other Unicode digits.
  Some of those (superscripts, for one) pass the check at bot.py:39 and 52
  but make `int()` raise an exception that the handler does not catch.
- Reply delivery (`update.message.reply_text`) is not modelled; each handler
  returns its reply text instead. So are the failures that delivery or a
  missing `update.message` would raise, such as Telegram rejecting the empty
  greeting that `/setwelcome` with no arguments produces.
- Writing to `os.environ` (bot.py:68) fails for text holding a NUL
  character. The model stores any text.
