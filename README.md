# Dating bot: record store and conversations

This project models the core of a Telegram dating bot written in Python on
top of python-telegram-bot and asyncpg, and proves properties of the model
in Dafny.

- `Db.dfy` (module `Db`) models the record store of `db.py`: the `users`
  and `profiles` tables as maps held by the class `Store`, the admin
  allow-list, and one method per query. Pure functions state what each
  `UPDATE`/`INSERT` does to the tables, and lemmas prove the store's
  promises:
  - user creation is idempotent and sets the column defaults;
  - the referral bonus goes to exactly one user, exactly once;
  - a coin grant changes one balance by exactly the amount, so the total of
    all balances moves by that amount;
  - the flag setters change one flag of one user and are idempotent;
  - a profile update changes one column;
  - a search returns at most twenty distinct matches.
- `Bot.dfy` (module `Bot`) models `main.py`:
  - the conversation states;
  - the input filters and validators;
  - the handler order of `main()`, as a pure routing function `RouteOf`;
  - one `Session` method per handler. The `Session` holds the states of the
    three conversation handlers (profile creation, search, admin) for one
    user, that user's `user_data` dictionary (`UserData`) and the shared
    `Store`.

  `ProfileStep`, `SearchStep` and `AdminStep` state, as relations on values,
  what the handler a route names does: the outcome it returns and the tables
  or `user_data` keys it leaves. `Dispatch` runs one update: the first
  handler that accepts it runs, its effect is the step relation of its
  conversation, and only that conversation takes the state it returns.
  `Session.Valid` is an invariant kept across updates, and under it the
  `KeyError` paths of `search_age_max` cannot occur.
- `PyStr.dfy` (module `PyStr`) gives the Python semantics the validators
  rely on:
  - `int()`: surrounding whitespace, a sign, and digits with single
    underscores; the whitespace it skips is every `isspace()` character
    except the ASCII separators U+001C to U+001F, which `split()` and
    `strip()` do treat as whitespace; proved to ignore the whitespace it
    skips, and to reject a text that starts with one of those separators;
  - `str(n)`, with `int(str(n)) == n` proved;
  - `str.split(sep)`, with joining the pieces proved to give the text back;
  - `str.split()`, proved to give non-empty words without whitespace, and
    to split a single word, or two words joined by a space, back into them;
  - `startswith`, and a regular expression anchored with `^…$`, defined as
    a match of the word up to one final newline, and proved to imply
    `startswith` and to be at most one character longer than the word.
- `Options.dfy` holds the `Option` type.

A handler that raises is modelled by the outcome `Raised`. As in
python-telegram-bot, the conversation then keeps its state, while the store
writes made before the exception remain.

## Model

| member | source | states |
|---|---|---|
| Db.Store.constructor | db.py:21-59 | `init_db` on a fresh database: both tables are empty and the table constraints hold |
| Db.Store.UserExists | db.py:62-68 | true exactly when the id has a row |
| Db.Store.IsBanned | db.py:70-77 | true exactly when the user exists and is banned; false for a missing user |
| Db.Store.CreateUser | db.py:80-109 | an existing id changes nothing; a colliding fresh code (UNIQUE violation) changes nothing; otherwise the `users` table becomes `Inserted(...)` and a blank profile row is added; the table constraints are kept |
| Db.CodeOwner | db.py:103-105 | the owner of a code exists exactly when some user holds the code, and it holds that code |
| Db.Referrer | db.py:102-107 | a paid referrer is an existing, non-zero user whose code is the supplied one; when nobody is paid for a non-empty code, no non-zero user holds it |
| Db.CreatedUserRow | db.py:27-36 | a created user has 100 coins, is neither premium nor banned, and has the fresh code and the supplied `referred_by`; every earlier user is unchanged except the referrer, who gains exactly 50 |
| Db.ReferredByAddedRow | db.py:184 | adding one row that keeps every earlier row's `referred_by` grows the set counted for a code by exactly that row when it names the code, and leaves it alone otherwise; the count grows by the same 1 or 0 |
| Db.ReferralCountAfterCreate | db.py:80-109 | creation adds exactly the new user to the referral set of the code it was created with, and to no other set |
| Db.Inserted | db.py:88-107 | creation adds exactly the new id to the table's keys |
| Db.CreateLedger | db.py:88-107 | creation raises the total of all balances by 100, plus 50 exactly when a referrer is paid |
| Db.Apply | db.py:112-121 | the named profile column holds the new value and every other column keeps its value |
| Db.Store.UpdateProfile | db.py:112-121 | only the named user's profile row changes; an absent row changes nothing |
| Db.Store.GetUserProfile | db.py:124-139 | the joined row exists exactly when the user and the profile exist, and it carries their columns |
| Db.Filter | db.py:147-157 | keeps exactly the listed ids that satisfy the WHERE clause, in order and without introducing repetitions |
| Db.DistinctCount | db.py:157 | a duplicate-free list has as many elements as its set, which ties the LIMIT to the number of matches |
| Db.Matches | db.py:150-156 | the WHERE clause and the join: a profile with the gender and an age in range, not the searcher, of a user who is not banned |
| Db.SearchResult | db.py:147-157 | what `search_users` may return: at most 20 distinct matches, as many as there are up to 20 |
| Db.Store.SearchUsers | db.py:142-166 | every id returned matches gender, age range, non-searcher and not-banned; at most 20 and distinct; exactly min(20, #matches) of them, so all matches when there are at most 20 |
| Db.Store.GetReferralCode | db.py:169-175 | the user's code, or `None` for a missing user |
| Db.Store.GetReferralCount | db.py:177-186 | 0 for a missing user or an empty code; otherwise the number of users whose `referred_by` is the user's code |
| Db.CoinsAdded | db.py:194 | the coin update keeps the set of users |
| Db.Store.AddCoins | db.py:189-197 | the `users` table becomes `CoinsAdded(...)` and the profiles are unchanged |
| Db.AddCoinsChangesOneBalance | db.py:189-197 | the target's balance rises by exactly the amount (negative amounts included), all else unchanged; an absent id changes nothing |
| Db.AddCoinsLedger | db.py:189-197 | the total of all balances moves by exactly the amount for an existing user, and not at all otherwise |
| Db.AddCoinsInverse | db.py:189-197 | adding an amount and then its negation restores the table |
| Db.WithPremium | db.py:205 | the premium update keeps the set of users |
| Db.Store.SetPremiumStatus | db.py:200-208 | the `users` table becomes `WithPremium(...)`; the profiles are unchanged |
| Db.PremiumSetterChangesOneFlag | db.py:200-208 | only the premium flag of that one user changes; an absent id changes nothing; setting twice is setting once |
| Db.WithBanned | db.py:216 | the ban update keeps the set of users |
| Db.Store.SetBanStatus | db.py:211-219 | the `users` table becomes `WithBanned(...)`; the profiles are unchanged |
| Db.BanSetterChangesOneFlag | db.py:211-219 | only the ban flag of that one user changes; an absent id changes nothing; setting twice is setting once |
| Db.Store.IsAdmin | db.py:222-224 | true exactly for the ids of the allow-list |
| PyStr.ParseInt | main.py:110 | `int(text)`: a result means the stripped text starts with a digit or a sign |
| PyStr.ParseShowInt | main.py:110 | `int(str(n)) == n` for every integer |
| PyStr.ParseIntIgnoresPadding | main.py:110 | whitespace that `int()` skips (any `isspace()` character but U+001C to U+001F) around the text does not change what it reads |
| PyStr.SeparatorIsNotPadding | main.py:110 | U+001C to U+001F are `isspace()` characters, yet `int()` rejects a text that starts with one |
| PyStr.ShowInt | main.py:292 | `str(n)`: digits with at most a leading minus sign, never whitespace at either end |
| PyStr.FullMatch | main.py:495 | an anchored match of a word starts with the word and is at most one character longer |
| PyStr.SplitOn | main.py:323 | `split("_")` yields at least one piece and no piece contains the separator |
| PyStr.JoinSplitOn | main.py:323 | the pieces of `split` joined by the separator give the text back |
| PyStr.Words | main.py:416 | `split()` yields non-empty words without whitespace |
| PyStr.WordsOfPair | main.py:416 | two words joined by a space split back into exactly those two words |
| Bot.UserData.constructor | main.py:232-269 | `context.user_data` starts without any of the four search keys |
| Bot.Session.constructor | main.py:33-50 | every conversation starts outside its states (END), with an empty `user_data` |
| Bot.Session.Start | main.py:74-94 | a known user ends the conversation with the store unchanged; a new user is created with the first argument as referral code (or none) and GENDER is next; a colliding code raises |
| Bot.ReferralArgument | main.py:78 | the referral code is the first argument exactly when there is one |
| Bot.Session.StoreGender | main.py:97-103 | writes the gender column only, and AGE is next |
| Bot.IsGenderChoice | main.py:495 | the gender filter: one of the three words, possibly followed by one newline |
| Bot.ParseAge | main.py:106-118 | an accepted age is an integer in [18, 99]; a rejected one does not parse or lies outside |
| Bot.AgeAcceptsExactly | main.py:106-118 | the written form of n is accepted exactly when 18 ≤ n ≤ 99, and as n |
| Bot.AgeIgnoresPadding | main.py:110 | surrounding whitespace that `int()` skips (not U+001C to U+001F) does not change the verdict on an age |
| Bot.Session.StoreAge | main.py:106-118 | an accepted age writes the age column only, and BIO is next; otherwise nothing changes and AGE stays |
| Bot.Session.StoreBio | main.py:121-130 | writes the bio column only, and PHOTO is next |
| Bot.Session.StorePhoto | main.py:133-141 | writes the photo column only, with the largest size's file id, and LOCATION is next |
| Bot.Session.StoreLocation | main.py:144-153 | writes the location column only and ends the conversation |
| Bot.Session.ShowMenu | main.py:166-178 | the main menu has the admin button exactly for admins |
| Bot.Session.MenuCallback | main.py:181-225 | "search" leads to SEARCH_GENDER; "my_profile", "referral" and "store" show their information (the joined row; the code and the referral count) and end; "admin_menu" defers to the admin menu; anything else ends |
| Bot.Session.StoreSearchGender | main.py:230-234 | stores the wanted gender only, and the minimum age is next |
| Bot.Session.StoreSearchAgeMin | main.py:237-248 | an age in [18, 99] is stored and the maximum is next; anything else changes nothing and asks again |
| Bot.MaxAgeAcceptsExactly | main.py:251-275 | with both criteria stored, the maximum-age step on the written form of n asks again exactly when n lies outside [min, 99], and never raises |
| Bot.Session.StoreSearchAgeMax | main.py:251-275 | a maximum that does not parse or lies outside [min, 99] changes nothing; a missing criterion raises; no match ends; otherwise a search result is stored, the cursor is 0 and the first card is shown |
| Bot.ViewAt | main.py:277-312 | a card is shown exactly while the cursor is inside the results, and it is one of the results |
| Bot.Shown | main.py:282-286 | the displays at cursors 0 to k are the views at each cursor |
| Bot.BrowsingShowsEachResultOnce | main.py:282-286 | N results yield their N cards in order and then "No more profiles" |
| Bot.LikeTarget | main.py:322-323 | the piece read after "like_" contains no underscore |
| Bot.LikeSplit | main.py:322-323 | a payload starting with "like_" has a second piece, so the indexing cannot fail |
| Bot.LikePayload | main.py:292 | the Like payload starts with "like_" and has no further underscore |
| Bot.LikePayloadRoundTrip | main.py:292 | the Like payload of id starts with "like_" and parses back to id |
| Bot.NextPressesAdvanceCursor | main.py:336-340 | k "Next" presses from a present cursor move it k places on, keep the results, and stay in VIEW_PROFILE at every press |
| Bot.Session.ProfileCallback | main.py:315-343 | like and next advance the cursor by exactly one and show the view there; an unparsable like id raises with nothing changed; the state stays VIEW_PROFILE even after "No more profiles" |
| Bot.Session.AdminMenuCommand | main.py:347-368 | an admin reaches ADMIN_MENU; a non-admin pressing a button reaches END; a non-admin's message update raises |
| Bot.AdminChoice | main.py:370-411 | every admin button leads to a state of the admin conversation; only "main_menu_back" ends it; each prompt button leads to its own prompt |
| Bot.Session.BackToAdminMenu | main.py:430-433 | the admin steps return to ADMIN_MENU for an admin, and raise for a non-admin |
| Bot.ParseGrant | main.py:416-418 | a grant is read exactly when the text has two words that both parse |
| Bot.GrantTextRoundTrip | main.py:416-418 | "<id> <amount>" reads back as that id and amount |
| Bot.Session.GrantCoins | main.py:413-433 | a parsed grant for an existing user adds exactly the amount to that balance; an unknown id or malformed text changes no balance; the state is ADMIN_MENU (or raises for a non-admin after the write) |
| Bot.Session.GrantPremium | main.py:436-452 | an existing id gets the premium flag; an unknown or malformed id changes nothing |
| Bot.Session.BanOrUnban | main.py:454-477 | an existing id gets the ban flag set to ban or unban; an unknown or malformed id changes nothing |
| Bot.ProfileRoute | main.py:492-502 | the profile conversation only ever routes to its own handlers and never takes a button press |
| Bot.SearchRoute | main.py:505-515 | the search conversation only ever routes to its own handlers |
| Bot.AdminRoute | main.py:518-529 | the admin conversation only ever routes to its own handlers |
| Bot.RouteOf | main.py:531-536 | the first conversation that accepts the update handles it; a later one only when every earlier one declined |
| Bot.GenderRejectionIsUnhandled | main.py:495 | while GENDER waits and no other conversation is waiting, a text other than the three choices reaches no handler |
| Bot.LikeButtonReachesBrowsing | main.py:511 | while browsing, a Like button press reaches `profile_callback` |
| Bot.ProfileStep | main.py:74-161 | the effect of each profile handler on the tables and the state it returns, `cancel` returning END |
| Bot.SearchStep | main.py:181-343 | the effect of each search handler on the `user_data` keys and the state it returns, `cancel` returning END |
| Bot.AdminReturn | main.py:430-433 | an admin text step raises exactly for a non-admin |
| Bot.AdminStep | main.py:370-477 | the effect of each admin handler on the `users` table and the state it returns, `cancel` returning END |
| Bot.CancelEndsProfileCreation | main.py:156-161 | `/cancel` reaches the fallback from every profile step, which ends the conversation and changes no table |
| Bot.AgeStepAdvances | main.py:106-118 | while AGE waits, an accepted age moves to BIO and stores the age; anything else stays at AGE and stores nothing |
| Bot.Session.RunProfileFlow | main.py:492-502 | the routed profile handler's outcome and table changes are its `ProfileStep`; the profile conversation takes that state, the others keep theirs, and the session invariant holds |
| Bot.Session.RunSearchFlow | main.py:505-515 | the routed search handler's outcome and `user_data` changes are its `SearchStep`; the search conversation takes that state; the maximum-age step never raises under the invariant |
| Bot.Session.RunMaxAgeStep | main.py:510 | in SEARCH_AGE_MAX `search_age_max` does its `SearchStep` and, with the stored gender and minimum, never raises; the search conversation takes the state it returns and the invariant holds |
| Bot.Session.RunBrowseStep | main.py:511 | in VIEW_PROFILE `profile_callback` does its `SearchStep` (like and next advance the cursor by one) and keeps the conversation in VIEW_PROFILE; the invariant holds |
| Bot.Session.RunAdminFlow | main.py:518-529 | the routed admin handler's outcome and `users` change are its `AdminStep`, the profiles unchanged; the admin conversation takes that state |
| Bot.Session.RunGlobal | main.py:534-536 | `/menu` keeps every state; `/admin` raises for a non-admin |
| Bot.Session.Dispatch | main.py:531-536 | the update goes to `RouteOf`'s handler, whose effect is the step relation of its conversation; exactly that conversation changes state; other routes leave `user_data`, and the search and global routes leave the store, unchanged; the invariant is kept |
| Bot.CallbackViewAsWritten | main.py:298-300 | after a button press, a candidate with a photo raises instead of being shown |
| Bot.CallbackViewDropsPhotoCards | main.py:298-300 | a concrete candidate with a photo that the button path fails to show |

## Left out

- Telegram transport is not modelled, and neither are its failures: `reply_text`, `send_photo`, `send_message`, `edit_message_text`, `delete_message`, `query.answer`, keyboards, and the notification sent to a liked or granted user. What a handler shows is reduced to a `Screen` or `Display` value.
- asyncpg connections and transactions are not modelled. Each store method is atomic. Because `add_coins` opens its own connection inside `create_user`, no atomicity of creation plus bonus is claimed.
- `uuid.uuid4()` is replaced by the `code` parameter of `CreateUser`, of the same shape (eight lower-case hex digits). A collision with an existing code is modelled as the UNIQUE violation.
- `ORDER BY RANDOM()` is replaced by the `order` parameter, any duplicate-free listing of the users. The search result is specified by its properties, not by an order.
- Timestamps are not modelled, nor is `get_all_users` with its `created_at` ordering. The "List Users" button only returns to ADMIN_MENU.
- `ADMIN_USER_IDS` is a given set. `load_dotenv`, the token check, logging and `run_polling` are not modelled.
- The HTML and Markdown texts of `get_user_profile_text` and of the menus are not modelled.
- The `likes` table is created but never written, so the model has no likes table. A like only notifies the liked user and advances the cursor.
- `update_profile` has no whitelist on its column. The model takes the five columns the handlers pass.
- Edited messages, `/command@botname` targeting, and commands in upper case are not modelled. A `Command` carries the normalised command name.
- Deleting users is not modelled. Every id in a search result therefore keeps its profile row, and the `None` result of `get_user_profile` during browsing cannot arise.
- PyStr.ParseInt: reads ASCII digits only. Other Unicode decimal digits, which Python's `int()` also accepts, are not modelled.
- Db.Store.AddCoins: the INTEGER width of `coins` and the BIGINT width of ids are not modelled, so a driver or overflow error on a huge amount is absent.
- Bot.Session.ProfileCallback: shows the next card as intended rather than raising for a candidate with a photo. The code as written is `Bot.CallbackViewAsWritten` (see Findings). The conversation state is the same either way.
- The per-chat keys of the conversation handlers are not modelled. One session is one user in their private chat with the bot.

## Findings

| source | as written | input that shows it | evidently intended | confidence | as-written member | corrected member |
|---|---|---|---|---|---|---|
| main.py:300 | `profile_callback` calls `view_profile(query, context)`, and for a candidate with a photo `view_profile` reads `update.effective_chat.id`. A `CallbackQuery` has no `effective_chat`, so this raises `AttributeError` and the card is not shown, though the cursor has already advanced. | search results `[5, 7]`, cursor 0, candidate 7 with a `photo_id`; press "Next" | the next candidate's card is shown after like or next, with or without a photo | not executed | Bot.CallbackViewAsWritten, Bot.CallbackViewDropsPhotoCards | Bot.ViewAt, Bot.BrowsingShowsEachResultOnce |
