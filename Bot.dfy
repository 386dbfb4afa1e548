/** The bot's conversations (main.py): the handlers, the three conversation
    handlers and the global handlers wired in `main()`, and the per-user
    `context.user_data` dictionary the search flow keeps its criteria and
    cursor in. Telegram I/O is reduced to the update a handler receives and
    the screen it would show. */
module Bot {
  import opened Options
  import opened PyStr
  import Db

  /** The conversation states of main.py:33-50. `End` is
      `ConversationHandler.END`: the conversation is not running. `Menu` and
      `AdminUserList` are declared but no handler ever returns them. */
  datatype State =
    | Gender | Age | Bio | Photo | Location | Menu
    | SearchGender | SearchAgeMin | SearchAgeMax | ViewProfile
    | AdminMenu | AdminGrantCoins | AdminGrantPremium | AdminUserList | AdminBanUser | AdminUnbanUser
    | End

  /** The states each conversation handler can be in (its `states` keys, plus END). */
  predicate IsProfileState(s: State) {
    s.End? || s.Gender? || s.Age? || s.Bio? || s.Photo? || s.Location?
  }

  predicate IsSearchState(s: State) {
    s.End? || s.SearchGender? || s.SearchAgeMin? || s.SearchAgeMax? || s.ViewProfile?
  }

  predicate IsAdminState(s: State) {
    s.End? || s.AdminMenu? || s.AdminGrantCoins? || s.AdminGrantPremium? || s.AdminBanUser? || s.AdminUnbanUser?
  }

  /** What a handler hands back: a next state, `None` (`Stay`, the state is
      kept), or an exception (`Raised`: the state is kept too, while the side
      effects performed before the exception remain). */
  datatype Outcome = Next(state: State) | Stay | Raised

  /** The state a conversation is in after its handler returned. */
  function Advance(s: State, outcome: Outcome): State {
    match outcome
    case Next(t) => t
    case Stay => s
    case Raised => s
  }

  /** The updates the handlers react to, from the user of the session. */
  datatype Update =
    | Command(name: string, args: seq<string>)  // a message starting with a bot command: `/name args...`
    | TextMessage(text: string)                // a text message that is not a command
    | PhotoMessage(fileId: string)             // a photo; the file id of its largest size (`photo[-1]`)
    | CallbackQuery(data: string)              // an inline-button press

  /** What a handler shows, reduced to its content. */
  datatype Screen =
    | NoScreen
    | MainMenu(withAdminButton: bool)
    | AskSearchGender
    | OwnProfile(row: Option<Db.ProfileRow>)
    | ReferralInfo(code: Option<string>, count: nat)
    | StoreComingSoon
    | AdminMenuScreen
    | NotAuthorized

  /** What `view_profile` shows: a candidate's card, or "No more profiles to show." */
  datatype Display = NoMoreProfiles | ProfileCard(id: int)

  // ---------------------------------------------------------------------
  // Input validators

  /** `filters.Regex("^(Male|Female|Other)$")`: one of the three words, where
      Python's `$` also lets a single final newline through. */
  predicate IsGenderChoice(text: string) {
    FullMatch(text, "Male") || FullMatch(text, "Female") || FullMatch(text, "Other")
  }

  /** `int(text)` and the check `18 <= age <= 99` of `age` and `search_age_min`. */
  function ParseAge(text: string): (r: Option<int>)
    ensures r.Some? ==> 18 <= r.value <= 99 && ParseInt(text) == r
    ensures r.None? ==> ParseInt(text).None? || ParseInt(text).value < 18 || ParseInt(text).value > 99
  {
    var n := ParseInt(text);
    if n.Some? && 18 <= n.value <= 99 then n else None
  }

  /** The age step accepts exactly the ages 18 to 99 written out, and rejects every other number. */
  lemma AgeAcceptsExactly(n: int)
    ensures ParseAge(ShowInt(n)) == if 18 <= n <= 99 then Some(n) else None
  {
    ParseShowInt(n);
  }

  /** Surrounding whitespace that `int()` skips does not change the verdict on an age. */
  lemma AgeIgnoresPadding(text: string, c: char)
    requires IsIntSpace(c)
    ensures ParseAge([c] + text) == ParseAge(text) && ParseAge(text + [c]) == ParseAge(text)
  {
    ParseIntIgnoresPadding(text, c);
  }

  /** The check `min_age <= max_age <= 99` of `search_age_max`. */
  predicate MaxAgeAccepted(minAge: int, maxAge: int) {
    minAge <= maxAge <= 99
  }

  /** `user_id_str, amount_str = text.split()` and the two `int()` calls of
      `admin_grant_coins`; `None` where they raise `ValueError`. */
  function ParseGrant(text: string): (r: Option<(int, int)>)
    ensures r.Some? ==> |Words(text)| == 2
                        && ParseInt(Words(text)[0]) == Some(r.value.0)
                        && ParseInt(Words(text)[1]) == Some(r.value.1)
    ensures r.None? ==> |Words(text)| != 2 || ParseInt(Words(text)[0]).None? || ParseInt(Words(text)[1]).None?
  {
    var ws := Words(text);
    if |ws| != 2 then None
    else
      var id := ParseInt(ws[0]);
      var amount := ParseInt(ws[1]);
      if id.Some? && amount.Some? then Some((id.value, amount.value)) else None
  }

  /** "<id> <amount>", the format the grant prompt asks for, reads back as that id and amount. */
  lemma GrantTextRoundTrip(id: int, amount: int)
    ensures ParseGrant(ShowInt(id) + " " + ShowInt(amount)) == Some((id, amount))
  {
    var a := ShowInt(id);
    var b := ShowInt(amount);
    assert NoSpace(a) && NoSpace(b);
    WordsOfPair(a, b);
    ParseShowInt(id);
    ParseShowInt(amount);
  }

  /** The callback data of the Like button, `f"like_{target_user_id}"`. */
  function LikePayload(id: int): (p: string)
    ensures StartsWith(p, "like_") && '_' !in p[5..]
  {
    "like_" + ShowInt(id)
  }

  /** A payload that starts with "like_" splits on "_" into at least two pieces. */
  lemma LikeSplit(payload: string)
    requires StartsWith(payload, "like_")
    ensures |SplitOn(payload, '_')| >= 2
    ensures SplitOn(payload, '_') == ["like"] + SplitOn(payload[5..], '_')
  {
    assert payload == "like" + ['_'] + payload[5..];
    SplitOnFirst("like", '_', payload[5..]);
  }

  /** `data.split("_")[1]`: the text `profile_callback` reads the liked id from. */
  function LikeTarget(payload: string): (t: string)
    requires StartsWith(payload, "like_")
    ensures '_' !in t
  {
    LikeSplit(payload);
    SplitOn(payload, '_')[1]
  }

  /** The Like button's payload is routed as a like and parses back to the same id. */
  lemma LikePayloadRoundTrip(id: int)
    ensures StartsWith(LikePayload(id), "like_")
    ensures ParseInt(LikeTarget(LikePayload(id))) == Some(id)
  {
    var payload := LikePayload(id);
    var digits := ShowInt(id);
    assert payload[..5] == "like_";
    assert payload[5..] == digits;
    LikeSplit(payload);
    assert '_' !in digits;
    SplitOnNoSep(digits, '_');
    ParseShowInt(id);
  }

  // ---------------------------------------------------------------------
  // Browsing

  /** What `view_profile` shows for the stored results and cursor. */
  function ViewAt(results: seq<int>, index: nat): (d: Display)
    ensures d.ProfileCard? <==> index < |results|
    ensures d.ProfileCard? ==> d.id in results
  {
    if index >= |results| then NoMoreProfiles else ProfileCard(results[index])
  }

  /** The displays at cursor positions 0 to `presses`: the search shows the
      first, and each like or next press advances the cursor by one. */
  function Shown(results: seq<int>, presses: nat): (s: seq<Display>)
    ensures |s| == presses + 1
    ensures forall i :: 0 <= i <= presses ==> s[i] == ViewAt(results, i)
    decreases presses
  {
    if presses == 0 then [ViewAt(results, 0)] else Shown(results, presses - 1) + [ViewAt(results, presses)]
  }

  /** A list of N results yields its N cards in order and then "No more profiles". */
  lemma {:induction false} BrowsingShowsEachResultOnce(results: seq<int>)
    ensures Shown(results, |results|)[..|results|] == seq(|results|, i requires 0 <= i < |results| => ProfileCard(results[i]))
    ensures Shown(results, |results|)[|results|] == NoMoreProfiles
  {
    var s := Shown(results, |results|);
    forall i | 0 <= i < |results|
      ensures s[..|results|][i] == ProfileCard(results[i])
    {
      assert s[i] == ViewAt(results, i);
    }
  }

  /** Python's truth test on `profile_data.get("photo_id")`. */
  predicate HasPhoto(profiles: map<int, Db.Profile>, id: int) {
    id in profiles && profiles[id].photoId.Some? && profiles[id].photoId.value != ""
  }

  /** `view_profile(query, context)` as `profile_callback` calls it: the
      callback query stands in for the update, and it has no `effective_chat`,
      so a candidate with a photo raises `AttributeError` (`None` here)
      instead of being shown. */
  function CallbackViewAsWritten(results: seq<int>, index: nat, profiles: map<int, Db.Profile>): (r: Option<Display>)
    ensures r.None? <==> index < |results| && HasPhoto(profiles, results[index])
    ensures r.Some? ==> r.value == ViewAt(results, index)
  {
    if index < |results| && HasPhoto(profiles, results[index]) then None else Some(ViewAt(results, index))
  }

  /** After a like or next press, the next candidate with a photo is never shown. */
  lemma CallbackViewDropsPhotoCards()
    ensures var profiles := map[7 := Db.Profile(Some("Female"), Some(30), None, Some("AgACAgI"), None)];
            && CallbackViewAsWritten([5, 7], 1, profiles).None?
            && ViewAt([5, 7], 1) == ProfileCard(7)
  {
  }

  // ---------------------------------------------------------------------
  // Routing

  /** The three conversation handlers of `main()`. */
  datatype Flow = ProfileFlow | SearchFlow | AdminFlow

  /** The handler an update reaches, with what it reads from the update. */
  datatype Route =
    | StartUser(args: seq<string>)
    | GenderStep(gender: string)
    | AgeStep(age: string)
    | BioStep(bio: string)
    | PhotoStep(fileId: string)
    | LocationStep(location: string)
    | SearchEntry(entryData: string)
    | SearchGenderStep(wanted: string)
    | MinAgeStep(minText: string)
    | MaxAgeStep(maxText: string)
    | BrowseButton(button: string)
    | AdminButton(adminData: string)
    | GrantCoinsStep(grant: string)
    | GrantPremiumStep(premiumId: string)
    | BanStep(banId: string)
    | UnbanStep(unbanId: string)
    | CancelIn(flow: Flow)
    | MenuCommand
    | AdminCommand
    | MenuButton(menuData: string)
    | Unhandled
  {
    /** The conversation whose state the handler's return value sets. */
    function Owner(): Option<Flow> {
      match this
      case StartUser(_) => Some(ProfileFlow)
      case GenderStep(_) => Some(ProfileFlow)
      case AgeStep(_) => Some(ProfileFlow)
      case BioStep(_) => Some(ProfileFlow)
      case PhotoStep(_) => Some(ProfileFlow)
      case LocationStep(_) => Some(ProfileFlow)
      case SearchEntry(_) => Some(SearchFlow)
      case SearchGenderStep(_) => Some(SearchFlow)
      case MinAgeStep(_) => Some(SearchFlow)
      case MaxAgeStep(_) => Some(SearchFlow)
      case BrowseButton(_) => Some(SearchFlow)
      case AdminButton(_) => Some(AdminFlow)
      case GrantCoinsStep(_) => Some(AdminFlow)
      case GrantPremiumStep(_) => Some(AdminFlow)
      case BanStep(_) => Some(AdminFlow)
      case UnbanStep(_) => Some(AdminFlow)
      case CancelIn(f) => Some(f)
      case MenuCommand => None
      case AdminCommand => None
      case MenuButton(_) => None
      case Unhandled => None
    }
  }

  predicate IsCommand(u: Update, name: string) {
    u.Command? && u.name == name
  }

  /** The profile conversation: `/start` while it is not running; otherwise
      the handler of its state, then the `/cancel` fallback. */
  function ProfileRoute(s: State, u: Update): (r: Option<Route>)
    ensures r.Some? ==> r.value.Owner() == Some(ProfileFlow)
    ensures u.CallbackQuery? ==> r.None?
    ensures r.Some? && r.value.StartUser? ==> s == End
    ensures r.Some? && r.value.GenderStep? ==> s == Gender
    ensures r.Some? && r.value.AgeStep? ==> s == Age
    ensures r.Some? && r.value.BioStep? ==> s == Bio
    ensures r.Some? && r.value.PhotoStep? ==> s == Photo
    ensures r.Some? && r.value.LocationStep? ==> s == Location
    ensures r.Some? && r.value.CancelIn? ==> s != End
  {
    if s == End then
      if IsCommand(u, "start") then Some(StartUser(u.args)) else None
    else
      var step :=
        if s == Gender && u.TextMessage? && IsGenderChoice(u.text) then Some(GenderStep(u.text))
        else if s == Age && u.TextMessage? then Some(AgeStep(u.text))
        else if s == Bio && u.TextMessage? then Some(BioStep(u.text))
        else if s == Photo && u.PhotoMessage? then Some(PhotoStep(u.fileId))
        else if s == Location && u.TextMessage? then Some(LocationStep(u.text))
        else None;
      if step.Some? then step
      else if IsCommand(u, "cancel") then Some(CancelIn(ProfileFlow))
      else None
  }

  /** The search conversation: the "search" button (`^search$`) while it is
      not running; otherwise the handler of its state, then `/cancel`. */
  function SearchRoute(s: State, u: Update): (r: Option<Route>)
    ensures r.Some? ==> r.value.Owner() == Some(SearchFlow)
    ensures r.Some? && r.value.SearchEntry? ==> s == End
    ensures r.Some? && r.value.SearchGenderStep? ==> s == SearchGender
    ensures r.Some? && r.value.MinAgeStep? ==> s == SearchAgeMin
    ensures r.Some? && r.value.MaxAgeStep? ==> s == SearchAgeMax
    ensures r.Some? && r.value.BrowseButton? ==> s == ViewProfile
    ensures r.Some? && r.value.CancelIn? ==> s != End
  {
    if s == End then
      if u.CallbackQuery? && FullMatch(u.data, "search") then Some(SearchEntry(u.data)) else None
    else
      var step :=
        if s == SearchGender && u.TextMessage? && IsGenderChoice(u.text) then Some(SearchGenderStep(u.text))
        else if s == SearchAgeMin && u.TextMessage? then Some(MinAgeStep(u.text))
        else if s == SearchAgeMax && u.TextMessage? then Some(MaxAgeStep(u.text))
        else if s == ViewProfile && u.CallbackQuery? && (StartsWith(u.data, "like_") || StartsWith(u.data, "next_profile"))
        then Some(BrowseButton(u.data))
        else None;
      if step.Some? then step
      else if IsCommand(u, "cancel") then Some(CancelIn(SearchFlow))
      else None
  }

  /** The admin conversation: any button whose data starts with "admin_"
      while it is not running; any button in ADMIN_MENU; the text of the
      four prompts; then `/cancel`. */
  function AdminRoute(s: State, u: Update): (r: Option<Route>)
    ensures r.Some? ==> r.value.Owner() == Some(AdminFlow)
  {
    if s == End then
      if u.CallbackQuery? && StartsWith(u.data, "admin_") then Some(AdminButton(u.data)) else None
    else
      var step :=
        if s == AdminMenu && u.CallbackQuery? then Some(AdminButton(u.data))
        else if s == AdminGrantCoins && u.TextMessage? then Some(GrantCoinsStep(u.text))
        else if s == AdminGrantPremium && u.TextMessage? then Some(GrantPremiumStep(u.text))
        else if s == AdminBanUser && u.TextMessage? then Some(BanStep(u.text))
        else if s == AdminUnbanUser && u.TextMessage? then Some(UnbanStep(u.text))
        else None;
      if step.Some? then step
      else if IsCommand(u, "cancel") then Some(CancelIn(AdminFlow))
      else None
  }

  /** `add_handler` order, all in group 0: the first handler that accepts
      the update handles it, and no other. */
  function RouteOf(profile: State, search: State, admin: State, u: Update): (r: Route)
    ensures ProfileRoute(profile, u).Some? ==> r == ProfileRoute(profile, u).value
    ensures r.Owner() == Some(SearchFlow) ==> ProfileRoute(profile, u).None? && SearchRoute(search, u) == Some(r)
    ensures r.Owner() == Some(AdminFlow) ==>
              ProfileRoute(profile, u).None? && SearchRoute(search, u).None? && AdminRoute(admin, u) == Some(r)
    ensures r.Owner().None? ==>
              ProfileRoute(profile, u).None? && SearchRoute(search, u).None? && AdminRoute(admin, u).None?
  {
    var p := ProfileRoute(profile, u);
    var q := SearchRoute(search, u);
    var a := AdminRoute(admin, u);
    if p.Some? then p.value
    else if q.Some? then q.value
    else if a.Some? then a.value
    else if IsCommand(u, "menu") then MenuCommand
    else if IsCommand(u, "admin") then AdminCommand
    else if u.CallbackQuery? then MenuButton(u.data)
    else Unhandled
  }

  /** While the profile conversation waits for a gender, a text other than the
      three choices is handled by nobody when no other conversation runs. */
  lemma GenderRejectionIsUnhandled(text: string)
    requires !IsGenderChoice(text)
    ensures RouteOf(Gender, End, End, TextMessage(text)) == Unhandled
  {
  }

  /** While browsing, the Like button of a shown card reaches `profile_callback`. */
  lemma LikeButtonReachesBrowsing(profile: State, id: int, admin: State)
    ensures RouteOf(profile, ViewProfile, admin, CallbackQuery(LikePayload(id))) == BrowseButton(LikePayload(id))
  {
    var payload := LikePayload(id);
    assert payload[..5] == "like_";
    assert ProfileRoute(profile, CallbackQuery(payload)).None?;
    assert SearchRoute(ViewProfile, CallbackQuery(payload)) == Some(BrowseButton(payload));
  }

  /** The state `admin_menu_callback` returns for a button. */
  function AdminChoice(payload: string): (s: State)
    ensures IsAdminState(s)
    ensures s == End <==> payload == "main_menu_back"
    ensures s == AdminGrantCoins <==> payload == "admin_grant_coins"
    ensures s == AdminGrantPremium <==> payload == "admin_grant_premium"
    ensures s == AdminBanUser <==> payload == "admin_ban_user"
    ensures s == AdminUnbanUser <==> payload == "admin_unban_user"
  {
    if payload == "admin_grant_coins" then AdminGrantCoins
    else if payload == "admin_grant_premium" then AdminGrantPremium
    else if payload == "admin_ban_user" then AdminBanUser
    else if payload == "admin_unban_user" then AdminUnbanUser
    else if payload == "main_menu_back" then End
    else AdminMenu
  }

  // ---------------------------------------------------------------------
  // What one handler does

  /** The `user_data` keys of the search flow, as values. */
  datatype SearchKeys = SearchKeys(gender: Option<string>, ageMin: Option<int>, results: Option<seq<int>>, index: Option<nat>)

  /** The profile-conversation handler `route` names, run for `user` on the
      tables `users`/`profiles`: it returns `outcome` and leaves the tables
      `users'`/`profiles'`. `code` is the referral code a creation draws. */
  ghost predicate ProfileStep(user: int, firstName: string, code: string, route: Route,
                              users: map<int, Db.User>, profiles: map<int, Db.Profile>,
                              outcome: Outcome, users': map<int, Db.User>, profiles': map<int, Db.Profile>)
    requires Db.CodesUnique(users)
  {
    match route
    case StartUser(args) =>
      if user in users || Db.CodeInUse(users, code) then
        && outcome == (if user in users then Next(End) else Raised)
        && users' == users && profiles' == profiles
      else
        && outcome == Next(Gender)
        && users' == Db.Inserted(users, user, firstName, ReferralArgument(args), code)
        && profiles' == profiles[user := Db.BlankProfile]
    case GenderStep(t) =>
      outcome == Next(Age) && users' == users && profiles' == Db.ProfileUpdated(profiles, user, Db.SetGender(t))
    case AgeStep(t) =>
      && users' == users
      && if ParseAge(t).Some? then
           outcome == Next(Bio) && profiles' == Db.ProfileUpdated(profiles, user, Db.SetAge(ParseAge(t).value))
         else outcome == Next(Age) && profiles' == profiles
    case BioStep(t) =>
      outcome == Next(Photo) && users' == users && profiles' == Db.ProfileUpdated(profiles, user, Db.SetBio(t))
    case PhotoStep(f) =>
      outcome == Next(Location) && users' == users && profiles' == Db.ProfileUpdated(profiles, user, Db.SetPhotoId(f))
    case LocationStep(t) =>
      outcome == Next(End) && users' == users && profiles' == Db.ProfileUpdated(profiles, user, Db.SetLocation(t))
    case CancelIn(_) =>
      outcome == Next(End) && users' == users && profiles' == profiles
    case _ => false
  }

  /** The search-conversation handler `route` names, run for `user` on the
      tables: it returns `outcome` and turns the search keys `before` into
      `after`; the tables are only read. */
  ghost predicate SearchStep(user: int, users: map<int, Db.User>, profiles: map<int, Db.Profile>, route: Route,
                             before: SearchKeys, outcome: Outcome, after: SearchKeys)
  {
    match route
    case SearchEntry(d) =>
      outcome == (if d == "search" then Next(SearchGender) else Next(End)) && after == before
    case SearchGenderStep(t) =>
      outcome == Next(SearchAgeMin) && after == before.(gender := Some(t))
    case MinAgeStep(t) =>
      if ParseAge(t).Some? then outcome == Next(SearchAgeMax) && after == before.(ageMin := ParseAge(t))
      else outcome == Next(SearchAgeMin) && after == before
    case MaxAgeStep(t) =>
      var max := ParseInt(t);
      if max.None? || (before.ageMin.Some? && !MaxAgeAccepted(before.ageMin.value, max.value)) then
        outcome == Next(SearchAgeMax) && after == before
      else if before.ageMin.None? || before.gender.None? then
        outcome == Raised && after == before
      else
        var q := Db.Query(user, before.gender.value, before.ageMin.value, max.value);
        if Db.MatchingIds(users, profiles, q) == {} then outcome == Next(End) && after == before
        else
          && outcome == Next(ViewProfile)
          && after.gender == before.gender && after.ageMin == before.ageMin
          && after.results.Some? && Db.SearchResult(users, profiles, q, after.results.value)
          && after.index == Some(0)
    case BrowseButton(p) =>
      var advancing := if StartsWith(p, "like_") then ParseInt(LikeTarget(p)).Some? else p == "next_profile";
      if advancing && before.index.Some? then
        outcome == Next(ViewProfile) && after == before.(index := Some(before.index.value + 1))
      else
        && after == before
        && outcome == (if advancing || StartsWith(p, "like_") then Raised else Next(ViewProfile))
    case CancelIn(_) =>
      outcome == Next(End) && after == before
    case _ => false
  }

  /** Pressing "Next" k times from a present cursor moves it k places on,
      keeps the results, and stays in VIEW_PROFILE at every press; with
      `ProfileCallback` showing `ViewAt` at each new cursor, the presses walk
      through `Shown`. */
  lemma {:induction false} NextPressesAdvanceCursor(user: int, users: map<int, Db.User>, profiles: map<int, Db.Profile>,
                                                    keys: seq<SearchKeys>, outcomes: seq<Outcome>)
    requires |keys| == |outcomes| + 1 && keys[0].index.Some?
    requires forall j :: 0 <= j < |outcomes| ==>
               SearchStep(user, users, profiles, BrowseButton("next_profile"), keys[j], outcomes[j], keys[j + 1])
    ensures forall j :: 0 <= j < |keys| ==> keys[j].index == Some(keys[0].index.value + j) && keys[j].results == keys[0].results
    ensures forall j :: 0 <= j < |outcomes| ==> outcomes[j] == Next(ViewProfile)
    decreases |outcomes|
  {
    if |outcomes| > 0 {
      var n := |outcomes| - 1;
      var front, outs := keys[..n + 1], outcomes[..n];
      forall j | 0 <= j < |outs|
        ensures SearchStep(user, users, profiles, BrowseButton("next_profile"), front[j], outs[j], front[j + 1])
      {
        assert front[j] == keys[j] && front[j + 1] == keys[j + 1] && outs[j] == outcomes[j];
      }
      NextPressesAdvanceCursor(user, users, profiles, front, outs);
      assert front[n] == keys[n];
      NextPress(user, users, profiles, keys[n], outcomes[n], keys[n + 1]);
      forall j | 0 <= j < |keys|
        ensures keys[j].index == Some(keys[0].index.value + j) && keys[j].results == keys[0].results
      {
        if j <= n {
          assert keys[j] == front[j] && keys[0] == front[0];
        }
      }
      forall j | 0 <= j < |outcomes|
        ensures outcomes[j] == Next(ViewProfile)
      {
        if j < n {
          assert outcomes[j] == outs[j];
        }
      }
    }
  }

  /** One "Next" press with a present cursor. */
  lemma NextPress(user: int, users: map<int, Db.User>, profiles: map<int, Db.Profile>,
                  before: SearchKeys, outcome: Outcome, after: SearchKeys)
    requires before.index.Some?
    requires SearchStep(user, users, profiles, BrowseButton("next_profile"), before, outcome, after)
    ensures outcome == Next(ViewProfile) && after == before.(index := Some(before.index.value + 1))
  {
    var p := "next_profile";
    assert p[0] != "like_"[0];
    assert !StartsWith(p, "like_");
  }

  /** What an admin text step ends with: back to ADMIN_MENU for an admin,
      an exception otherwise. */
  function AdminReturn(isAdmin: bool): (r: Outcome)
    ensures r == Raised <==> !isAdmin
  {
    if isAdmin then Next(AdminMenu) else Raised
  }

  /** A step that applies `change` to the row of `target`: an unknown id
      returns to ADMIN_MENU at once, malformed text changes nothing. */
  ghost predicate TargetStep(isAdmin: bool, target: Option<int>, users: map<int, Db.User>, changed: map<int, Db.User>,
                             outcome: Outcome, users': map<int, Db.User>)
  {
    if target.Some? && target.value !in users then outcome == Next(AdminMenu) && users' == users
    else outcome == AdminReturn(isAdmin) && users' == (if target.Some? then changed else users)
  }

  /** The admin-conversation handler `route` names, run by an admin or not,
      on the `users` table: it returns `outcome` and leaves `users'`. */
  ghost predicate AdminStep(isAdmin: bool, route: Route, users: map<int, Db.User>, outcome: Outcome, users': map<int, Db.User>)
  {
    match route
    case AdminButton(d) => outcome == Next(AdminChoice(d)) && users' == users
    case GrantCoinsStep(t) =>
      var g := ParseGrant(t);
      TargetStep(isAdmin, if g.Some? then Some(g.value.0) else None, users,
                 if g.Some? then Db.CoinsAdded(users, g.value.0, g.value.1) else users, outcome, users')
    case GrantPremiumStep(t) =>
      var target := ParseInt(t);
      TargetStep(isAdmin, target, users, if target.Some? then Db.WithPremium(users, target.value, true) else users, outcome, users')
    case BanStep(t) =>
      var target := ParseInt(t);
      TargetStep(isAdmin, target, users, if target.Some? then Db.WithBanned(users, target.value, true) else users, outcome, users')
    case UnbanStep(t) =>
      var target := ParseInt(t);
      TargetStep(isAdmin, target, users, if target.Some? then Db.WithBanned(users, target.value, false) else users, outcome, users')
    case CancelIn(_) => outcome == Next(End) && users' == users
    case _ => false
  }

  /** Once both criteria are stored, the maximum-age step asks again for
      exactly the numbers outside the minimum to 99, and never raises. */
  lemma MaxAgeAcceptsExactly(user: int, users: map<int, Db.User>, profiles: map<int, Db.Profile>,
                             before: SearchKeys, n: int, outcome: Outcome, after: SearchKeys)
    requires before.gender.Some? && before.ageMin.Some?
    requires SearchStep(user, users, profiles, MaxAgeStep(ShowInt(n)), before, outcome, after)
    ensures outcome == Next(SearchAgeMax) <==> !(before.ageMin.value <= n <= 99)
    ensures outcome != Raised
  {
    ParseShowInt(n);
  }

  /** `/cancel` reaches the fallback from every profile step, which ends the
      conversation and changes no table. */
  lemma CancelEndsProfileCreation(s: State, search: State, admin: State, user: int, firstName: string, code: string,
                                  users: map<int, Db.User>, profiles: map<int, Db.Profile>,
                                  outcome: Outcome, users': map<int, Db.User>, profiles': map<int, Db.Profile>)
    requires IsProfileState(s) && s != End && Db.CodesUnique(users)
    requires ProfileStep(user, firstName, code, RouteOf(s, search, admin, Command("cancel", [])), users, profiles, outcome, users', profiles')
    ensures RouteOf(s, search, admin, Command("cancel", [])) == CancelIn(ProfileFlow)
    ensures Advance(s, outcome) == End && users' == users && profiles' == profiles
  {
  }

  /** While AGE waits, an accepted age moves the profile conversation to BIO
      and stores the age; any other text keeps it at AGE and stores nothing. */
  lemma AgeStepAdvances(search: State, admin: State, text: string, user: int, firstName: string, code: string,
                        users: map<int, Db.User>, profiles: map<int, Db.Profile>,
                        outcome: Outcome, users': map<int, Db.User>, profiles': map<int, Db.Profile>)
    requires Db.CodesUnique(users)
    requires ProfileStep(user, firstName, code, RouteOf(Age, search, admin, TextMessage(text)), users, profiles, outcome, users', profiles')
    ensures ParseAge(text).Some? ==>
              Advance(Age, outcome) == Bio && profiles' == Db.ProfileUpdated(profiles, user, Db.SetAge(ParseAge(text).value))
    ensures ParseAge(text).None? ==> Advance(Age, outcome) == Age && profiles' == profiles
    ensures users' == users
  {
    assert ProfileRoute(Age, TextMessage(text)) == Some(AgeStep(text));
    assert ProfileStep(user, firstName, code, AgeStep(text), users, profiles, outcome, users', profiles');
  }

  /** `context.user_data`: the per-user dictionary, here with the four keys
      the search flow uses; `None` is a missing key. */
  class UserData {
    var searchGender: Option<string>
    var searchAgeMin: Option<int>
    var searchResults: Option<seq<int>>
    var searchIndex: Option<nat>

    constructor ()
      ensures searchGender == None && searchAgeMin == None && searchResults == None && searchIndex == None
    {
      searchGender := None;
      searchAgeMin := None;
      searchResults := None;
      searchIndex := None;
    }
  }

  /** One user's view of the bot: the states of the three conversation
      handlers for this user, the user's `user_data`, and the shared store. */
  class Session {
    const user: int
    const store: Db.Store
    const data: UserData
    var profileConv: State
    var searchConv: State
    var adminConv: State

    /** Each conversation is in one of its own states; a running profile
        conversation belongs to a created user; the criteria a search step
        reads were stored by the steps before it. */
    ghost predicate Valid()
      reads this, store, data
    {
      && store.Valid()
      && IsProfileState(profileConv)
      && IsSearchState(searchConv)
      && IsAdminState(adminConv)
      && (profileConv != End ==> user in store.users)
      && (searchConv in {SearchAgeMin, SearchAgeMax, ViewProfile} ==> data.searchGender.Some?)
      && (searchConv in {SearchAgeMax, ViewProfile} ==> data.searchAgeMin.Some?)
      && (searchConv == ViewProfile ==> data.searchResults.Some? && data.searchIndex.Some?)
    }

    /** The search keys of `user_data` as a value. */
    function Keys(): SearchKeys
      reads data
    {
      SearchKeys(data.searchGender, data.searchAgeMin, data.searchResults, data.searchIndex)
    }

    constructor (user: int, store: Db.Store)
      requires store.Valid()
      ensures Valid() && fresh(data)
      ensures this.user == user && this.store == store
      ensures profileConv == End && searchConv == End && adminConv == End
      ensures data.searchGender == None && data.searchAgeMin == None
      ensures data.searchResults == None && data.searchIndex == None
    {
      this.user := user;
      this.store := store;
      data := new UserData();
      profileConv := End;
      searchConv := End;
      adminConv := End;
    }

    // -------------------------------------------------------------------
    // Profile creation

    /** `start`: a known user is welcomed back and the conversation ends;
        a new one is created, with the first argument as referral code, and
        asked for a gender. A colliding fresh code raises. */
    method Start(args: seq<string>, firstName: string, code: string) returns (outcome: Outcome)
      requires store.Valid() && Db.IsReferralCode(code)
      modifies store
      ensures store.Valid()
      ensures outcome != Raised ==> user in store.users
      ensures old(user in store.users) ==>
                outcome == Next(End) && store.users == old(store.users) && store.profiles == old(store.profiles)
      ensures user !in old(store.users) && old(Db.CodeInUse(store.users, code)) ==>
                outcome == Raised && store.users == old(store.users) && store.profiles == old(store.profiles)
      ensures user !in old(store.users) && !old(Db.CodeInUse(store.users, code)) ==>
                && outcome == Next(Gender)
                && store.users == Db.Inserted(old(store.users), user, firstName, ReferralArgument(args), code)
                && store.profiles == old(store.profiles)[user := Db.BlankProfile]
    {
      var known := store.UserExists(user);
      if known {
        return Next(End);
      }
      var created := store.CreateUser(user, firstName, ReferralArgument(args), code);
      outcome := if created == Db.CodeTaken then Raised else Next(Gender);
    }

    /** `gender`: stores the chosen gender, asks for the age. */
    method StoreGender(text: string) returns (outcome: Outcome)
      requires store.Valid()
      modifies store
      ensures store.Valid() && outcome == Next(Age)
      ensures store.users == old(store.users)
      ensures store.profiles == Db.ProfileUpdated(old(store.profiles), user, Db.SetGender(text))
    {
      store.UpdateProfile(user, Db.SetGender(text));
      outcome := Next(Age);
    }

    /** `age`: an accepted age is stored and the bio is next; anything else
        changes nothing and asks again. */
    method StoreAge(text: string) returns (outcome: Outcome)
      requires store.Valid()
      modifies store
      ensures store.Valid() && store.users == old(store.users)
      ensures ParseAge(text).Some? ==>
                outcome == Next(Bio) && store.profiles == Db.ProfileUpdated(old(store.profiles), user, Db.SetAge(ParseAge(text).value))
      ensures ParseAge(text).None? ==> outcome == Next(Age) && store.profiles == old(store.profiles)
    {
      var age := ParseAge(text);
      if age.Some? {
        store.UpdateProfile(user, Db.SetAge(age.value));
        outcome := Next(Bio);
      } else {
        outcome := Next(Age);
      }
    }

    /** `bio`: stores the text, asks for a photo. */
    method StoreBio(text: string) returns (outcome: Outcome)
      requires store.Valid()
      modifies store
      ensures store.Valid() && outcome == Next(Photo)
      ensures store.users == old(store.users)
      ensures store.profiles == Db.ProfileUpdated(old(store.profiles), user, Db.SetBio(text))
    {
      store.UpdateProfile(user, Db.SetBio(text));
      outcome := Next(Photo);
    }

    /** `photo`: stores the file id of the largest size, asks for the location. */
    method StorePhoto(fileId: string) returns (outcome: Outcome)
      requires store.Valid()
      modifies store
      ensures store.Valid() && outcome == Next(Location)
      ensures store.users == old(store.users)
      ensures store.profiles == Db.ProfileUpdated(old(store.profiles), user, Db.SetPhotoId(fileId))
    {
      store.UpdateProfile(user, Db.SetPhotoId(fileId));
      outcome := Next(Location);
    }

    /** `location`: stores the text and ends profile creation. */
    method StoreLocation(text: string) returns (outcome: Outcome)
      requires store.Valid()
      modifies store
      ensures store.Valid() && outcome == Next(End)
      ensures store.users == old(store.users)
      ensures store.profiles == Db.ProfileUpdated(old(store.profiles), user, Db.SetLocation(text))
    {
      store.UpdateProfile(user, Db.SetLocation(text));
      outcome := Next(End);
    }

    // -------------------------------------------------------------------
    // Menus

    /** `menu`: the main menu, with the admin button for admins only. */
    method ShowMenu() returns (screen: Screen)
      ensures screen == MainMenu(user in store.admins)
    {
      var isAdmin := store.IsAdmin(user);
      screen := MainMenu(isAdmin);
    }

    /** `admin_menu_command`: the admin menu for an admin; a non-admin is
        refused when the update is a button press, while for a message
        update (`/admin`, or the admin text steps) `update.callback_query` is
        `None` and the refusal raises. */
    method AdminMenuCommand(viaButton: bool) returns (outcome: Outcome, screen: Screen)
      ensures user in store.admins ==> outcome == Next(AdminMenu) && screen == AdminMenuScreen
      ensures user !in store.admins && viaButton ==> outcome == Next(End) && screen == NotAuthorized
      ensures user !in store.admins && !viaButton ==> outcome == Raised && screen == NoScreen
    {
      var isAdmin := store.IsAdmin(user);
      if !isAdmin {
        if viaButton {
          return Next(End), NotAuthorized;
        }
        return Raised, NoScreen;
      }
      outcome, screen := Next(AdminMenu), AdminMenuScreen;
    }

    /** `menu_callback`: the main-menu buttons. Only "search" starts a
        conversation; the others show information and end. */
    method MenuCallback(payload: string) returns (outcome: Outcome, screen: Screen)
      ensures payload == "search" ==> outcome == Next(SearchGender) && screen == AskSearchGender
      ensures payload == "my_profile" ==> outcome == Next(End) && screen.OwnProfile?
      ensures payload == "my_profile" && user in store.users && user in store.profiles ==>
                screen.row == Some(Db.ProfileRow(store.users[user].name, store.users[user].coins,
                                                 store.users[user].isPremium, store.profiles[user]))
      ensures payload == "my_profile" && (user !in store.users || user !in store.profiles) ==> screen.row == None
      ensures payload == "referral" ==> outcome == Next(End) && screen.ReferralInfo?
      ensures payload == "referral" && user in store.users ==>
                && screen.code == Some(store.users[user].referralCode)
                && screen.count == (if store.users[user].referralCode == "" then 0
                                    else |Db.ReferredBy(store.users, store.users[user].referralCode)|)
      ensures payload == "referral" && user !in store.users ==> screen == ReferralInfo(None, 0)
      ensures payload == "store" ==> outcome == Next(End) && screen == StoreComingSoon
      ensures payload == "admin_menu" ==>
                if user in store.admins then outcome == Next(AdminMenu) && screen == AdminMenuScreen
                else outcome == Next(End) && screen == NotAuthorized
      ensures payload !in {"search", "my_profile", "referral", "store", "admin_menu"} ==>
                outcome == Next(End) && screen == NoScreen
    {
      if payload == "search" {
        return Next(SearchGender), AskSearchGender;
      } else if payload == "my_profile" {
        var row := store.GetUserProfile(user);
        return Next(End), OwnProfile(row);
      } else if payload == "referral" {
        var code := store.GetReferralCode(user);
        var count := store.GetReferralCount(user);
        return Next(End), ReferralInfo(code, count);
      } else if payload == "store" {
        return Next(End), StoreComingSoon;
      } else if payload == "admin_menu" {
        outcome, screen := AdminMenuCommand(true);
        return;
      }
      outcome, screen := Next(End), NoScreen;
    }

    // -------------------------------------------------------------------
    // Search

    /** `search_gender`: stores the wanted gender, asks for the minimum age. */
    method StoreSearchGender(text: string) returns (outcome: Outcome)
      modifies data
      ensures outcome == Next(SearchAgeMin)
      ensures data.searchGender == Some(text)
      ensures data.searchAgeMin == old(data.searchAgeMin)
      ensures data.searchResults == old(data.searchResults) && data.searchIndex == old(data.searchIndex)
    {
      data.searchGender := Some(text);
      outcome := Next(SearchAgeMin);
    }

    /** `search_age_min`: an accepted age is stored and the maximum is next;
        anything else changes nothing and asks again. */
    method StoreSearchAgeMin(text: string) returns (outcome: Outcome)
      modifies data
      ensures data.searchGender == old(data.searchGender)
      ensures data.searchResults == old(data.searchResults) && data.searchIndex == old(data.searchIndex)
      ensures ParseAge(text).Some? ==> outcome == Next(SearchAgeMax) && data.searchAgeMin == ParseAge(text)
      ensures ParseAge(text).None? ==> outcome == Next(SearchAgeMin) && data.searchAgeMin == old(data.searchAgeMin)
    {
      var age := ParseAge(text);
      if age.Some? {
        data.searchAgeMin := age;
        outcome := Next(SearchAgeMax);
      } else {
        outcome := Next(SearchAgeMin);
      }
    }

    /** `search_age_max`: a maximum between the stored minimum and 99 runs
        the search; no match ends the conversation, otherwise the results are
        stored, the cursor is set to 0 and the first card is shown. A missing
        criterion raises `KeyError`; a rejected maximum changes nothing. */
    method StoreSearchAgeMax(text: string, order: seq<int>) returns (outcome: Outcome, shown: Option<Display>)
      requires Db.Lists(store.users, order)
      modifies data
      ensures data.searchGender == old(data.searchGender) && data.searchAgeMin == old(data.searchAgeMin)
      ensures old(data.searchGender).Some? && old(data.searchAgeMin).Some? ==>
                outcome == Next(SearchAgeMax) || outcome == Next(End) || outcome == Next(ViewProfile)
      ensures outcome == Next(ViewProfile) ==> data.searchResults.Some? && data.searchIndex.Some?
      ensures ParseInt(text).None? ==> outcome == Next(SearchAgeMax)
      ensures ParseInt(text).Some? && old(data.searchAgeMin).None? ==> outcome == Raised
      ensures ParseInt(text).Some? && old(data.searchAgeMin).Some? && !MaxAgeAccepted(old(data.searchAgeMin).value, ParseInt(text).value) ==>
                outcome == Next(SearchAgeMax)
      ensures outcome != Next(ViewProfile) ==>
                shown == None && data.searchResults == old(data.searchResults) && data.searchIndex == old(data.searchIndex)
      ensures ParseInt(text).Some? && old(data.searchAgeMin).Some? && MaxAgeAccepted(old(data.searchAgeMin).value, ParseInt(text).value) ==>
                var q := Db.Query(user, old(data.searchGender).GetOr(""), old(data.searchAgeMin).value, ParseInt(text).value);
                && (old(data.searchGender).None? ==> outcome == Raised)
                && (old(data.searchGender).Some? && Db.MatchingIds(store.users, store.profiles, q) == {} ==> outcome == Next(End))
                && (old(data.searchGender).Some? && Db.MatchingIds(store.users, store.profiles, q) != {} ==>
                      && outcome == Next(ViewProfile)
                      && data.searchResults.Some?
                      && Db.SearchResult(store.users, store.profiles, q, data.searchResults.value)
                      && data.searchIndex == Some(0)
                      && shown == Some(ProfileCard(data.searchResults.value[0])))
    {
      shown := None;
      var max := ParseInt(text);
      if max.None? {
        return Next(SearchAgeMax), shown;
      }
      if data.searchAgeMin.None? {
        return Raised, shown;
      }
      var min := data.searchAgeMin.value;
      if !MaxAgeAccepted(min, max.value) {
        return Next(SearchAgeMax), shown;
      }
      if data.searchGender.None? {
        return Raised, shown;
      }
      var results := store.SearchUsers(user, data.searchGender.value, min, max.value, order);
      if results == [] {
        return Next(End), shown;
      }
      data.searchResults := Some(results);
      data.searchIndex := Some(0);
      shown := Some(ViewAt(results, 0));
      outcome := Next(ViewProfile);
    }

    /** `profile_callback`: "like_<id>" notifies the liked user, then like
        and "next_profile" both advance the cursor by one and show what is
        there; the state stays VIEW_PROFILE even after "No more profiles".
        An unparsable id raises before anything changes; a missing cursor
        raises `KeyError` at the increment. The card is shown as intended,
        not as written (see `CallbackViewAsWritten`). */
    method ProfileCallback(payload: string) returns (outcome: Outcome, liked: Option<int>, shown: Option<Display>)
      modifies data
      ensures SearchStep(user, store.users, store.profiles, BrowseButton(payload), old(Keys()), outcome, Keys())
      ensures data.searchGender == old(data.searchGender) && data.searchAgeMin == old(data.searchAgeMin)
      ensures data.searchResults == old(data.searchResults)
      ensures StartsWith(payload, "like_") ==> liked == ParseInt(LikeTarget(payload))
      ensures !StartsWith(payload, "like_") ==> liked == None
      ensures var advancing := (StartsWith(payload, "like_") && liked.Some?) || (!StartsWith(payload, "like_") && payload == "next_profile");
              && (advancing && old(data.searchIndex).Some? ==>
                    && outcome == Next(ViewProfile)
                    && data.searchIndex == Some(old(data.searchIndex).value + 1)
                    && shown == Some(ViewAt(data.searchResults.GetOr([]), old(data.searchIndex).value + 1)))
              && (!advancing || old(data.searchIndex).None? ==> data.searchIndex == old(data.searchIndex) && shown == None)
              && (advancing && old(data.searchIndex).None? ==> outcome == Raised)
              && (!advancing ==> outcome == if StartsWith(payload, "like_") then Raised else Next(ViewProfile))
    {
      liked, shown := None, None;
      if StartsWith(payload, "like_") {
        liked := ParseInt(LikeTarget(payload));
        if liked.None? {
          return Raised, liked, shown;
        }
      } else if payload != "next_profile" {
        return Next(ViewProfile), liked, shown;
      }
      if data.searchIndex.None? {
        return Raised, liked, shown;
      }
      var index := data.searchIndex.value + 1;
      data.searchIndex := Some(index);
      shown := Some(ViewAt(data.searchResults.GetOr([]), index));
      outcome := Next(ViewProfile);
    }

    // -------------------------------------------------------------------
    // Admin dialogues

    /** The end of every admin text step: `admin_menu_command` with a message
        update, which raises for a non-admin, then ADMIN_MENU. */
    method BackToAdminMenu() returns (outcome: Outcome)
      ensures outcome == if user in store.admins then Next(AdminMenu) else Raised
    {
      var next, screen := AdminMenuCommand(false);
      outcome := if next.Raised? then Raised else Next(AdminMenu);
    }

    /** `admin_grant_coins`: "<id> <amount>" for an existing user adds the
        amount to that balance; an unknown id changes nothing and returns to
        ADMIN_MENU at once; malformed text changes nothing. */
    method GrantCoins(text: string) returns (outcome: Outcome)
      requires store.Valid()
      modifies store
      ensures store.Valid() && store.profiles == old(store.profiles)
      ensures store.users.Keys == old(store.users.Keys)
      ensures ParseGrant(text).Some? && ParseGrant(text).value.0 in old(store.users) ==>
                && store.users == Db.CoinsAdded(old(store.users), ParseGrant(text).value.0, ParseGrant(text).value.1)
                && outcome == (if user in store.admins then Next(AdminMenu) else Raised)
      ensures ParseGrant(text).Some? && ParseGrant(text).value.0 !in old(store.users) ==>
                store.users == old(store.users) && outcome == Next(AdminMenu)
      ensures ParseGrant(text).None? ==>
                store.users == old(store.users) && outcome == (if user in store.admins then Next(AdminMenu) else Raised)
    {
      var grant := ParseGrant(text);
      if grant.Some? {
        var (target, amount) := grant.value;
        var known := store.UserExists(target);
        if !known {
          return Next(AdminMenu);
        }
        store.AddCoins(target, amount);
      }
      outcome := BackToAdminMenu();
    }

    /** `admin_grant_premium`: an existing id gets the premium flag; an
        unknown id changes nothing and returns to ADMIN_MENU at once; a
        malformed id changes nothing. */
    method GrantPremium(text: string) returns (outcome: Outcome)
      requires store.Valid()
      modifies store
      ensures store.Valid() && store.profiles == old(store.profiles)
      ensures store.users.Keys == old(store.users.Keys)
      ensures ParseInt(text).Some? && ParseInt(text).value in old(store.users) ==>
                && store.users == Db.WithPremium(old(store.users), ParseInt(text).value, true)
                && outcome == (if user in store.admins then Next(AdminMenu) else Raised)
      ensures ParseInt(text).Some? && ParseInt(text).value !in old(store.users) ==>
                store.users == old(store.users) && outcome == Next(AdminMenu)
      ensures ParseInt(text).None? ==>
                store.users == old(store.users) && outcome == (if user in store.admins then Next(AdminMenu) else Raised)
    {
      var target := ParseInt(text);
      if target.Some? {
        var known := store.UserExists(target.value);
        if !known {
          return Next(AdminMenu);
        }
        store.SetPremiumStatus(target.value, true);
      }
      outcome := BackToAdminMenu();
    }

    /** `admin_ban_unban_user`, for `admin_ban_user` (`ban`) and
        `admin_unban_user` (`!ban`): as `GrantPremium`, on the ban flag. */
    method BanOrUnban(text: string, ban: bool) returns (outcome: Outcome)
      requires store.Valid()
      modifies store
      ensures store.Valid() && store.profiles == old(store.profiles)
      ensures store.users.Keys == old(store.users.Keys)
      ensures ParseInt(text).Some? && ParseInt(text).value in old(store.users) ==>
                && store.users == Db.WithBanned(old(store.users), ParseInt(text).value, ban)
                && outcome == (if user in store.admins then Next(AdminMenu) else Raised)
      ensures ParseInt(text).Some? && ParseInt(text).value !in old(store.users) ==>
                store.users == old(store.users) && outcome == Next(AdminMenu)
      ensures ParseInt(text).None? ==>
                store.users == old(store.users) && outcome == (if user in store.admins then Next(AdminMenu) else Raised)
    {
      var target := ParseInt(text);
      if target.Some? {
        var known := store.UserExists(target.value);
        if !known {
          return Next(AdminMenu);
        }
        store.SetBanStatus(target.value, ban);
      }
      outcome := BackToAdminMenu();
    }

    // -------------------------------------------------------------------
    // Dispatch

    /** The profile conversation runs the handler it routed the update to
        and takes the state the handler returns. */
    method RunProfileFlow(u: Update, route: Route, firstName: string, code: string) returns (outcome: Outcome)
      requires Valid() && Db.IsReferralCode(code) && ProfileRoute(profileConv, u) == Some(route)
      modifies this, store
      ensures Valid()
      ensures ProfileStep(user, firstName, code, route, old(store.users), old(store.profiles), outcome, store.users, store.profiles)
      ensures profileConv == Advance(old(profileConv), outcome)
      ensures searchConv == old(searchConv) && adminConv == old(adminConv)
    {
      match route {
        case StartUser(args) =>
          outcome := Start(args, firstName, code);
        case GenderStep(t) =>
          outcome := StoreGender(t);
          assert user in store.users;
        case AgeStep(t) =>
          outcome := StoreAge(t);
          assert user in store.users;
        case BioStep(t) =>
          outcome := StoreBio(t);
          assert user in store.users;
        case PhotoStep(f) =>
          outcome := StorePhoto(f);
          assert user in store.users;
        case LocationStep(t) =>
          outcome := StoreLocation(t);
          assert user in store.users;
        case CancelIn(_) =>
          outcome := Next(End);
      }
      profileConv := Advance(profileConv, outcome);
    }

    /** The search conversation runs the handler it routed the update to and
        takes the state the handler returns; under the session invariant the
        maximum-age step never meets a missing criterion. */
    method RunSearchFlow(u: Update, route: Route, order: seq<int>) returns (outcome: Outcome)
      requires Valid() && Db.Lists(store.users, order) && SearchRoute(searchConv, u) == Some(route)
      modifies this, data
      ensures Valid()
      ensures SearchStep(user, store.users, store.profiles, route, old(Keys()), outcome, Keys())
      ensures searchConv == Advance(old(searchConv), outcome)
      ensures profileConv == old(profileConv) && adminConv == old(adminConv)
      ensures route.MaxAgeStep? ==> outcome != Raised
    {
      match route {
        case SearchEntry(d) =>
          var screen;
          outcome, screen := MenuCallback(d);
        case SearchGenderStep(t) =>
          outcome := StoreSearchGender(t);
        case MinAgeStep(t) =>
          outcome := StoreSearchAgeMin(t);
        case MaxAgeStep(t) =>
          outcome := RunMaxAgeStep(t, order);
          return;
        case BrowseButton(d) =>
          outcome := RunBrowseStep(d);
          return;
        case CancelIn(_) =>
          outcome := Next(End);
      }
      searchConv := Advance(searchConv, outcome);
    }

    /** `search_age_max` inside the search conversation: the invariant
        guarantees both criteria, so the step never raises. */
    method RunMaxAgeStep(text: string, order: seq<int>) returns (outcome: Outcome)
      requires Valid() && searchConv == SearchAgeMax && Db.Lists(store.users, order)
      modifies this, data
      ensures Valid() && outcome != Raised
      ensures SearchStep(user, store.users, store.profiles, MaxAgeStep(text), old(Keys()), outcome, Keys())
      ensures searchConv == Advance(old(searchConv), outcome)
      ensures profileConv == old(profileConv) && adminConv == old(adminConv)
    {
      assert data.searchGender.Some? && data.searchAgeMin.Some?;
      var shown;
      outcome, shown := StoreSearchAgeMax(text, order);
      assert outcome == Next(SearchAgeMax) || outcome == Next(End) || outcome == Next(ViewProfile);
      assert store.Valid();
      searchConv := Advance(searchConv, outcome);
    }

    /** `profile_callback` inside the search conversation: the cursor stays
        present and the conversation stays in VIEW_PROFILE. */
    method RunBrowseStep(payload: string) returns (outcome: Outcome)
      requires Valid() && searchConv == ViewProfile
      modifies this, data
      ensures Valid() && searchConv == ViewProfile
      ensures SearchStep(user, store.users, store.profiles, BrowseButton(payload), old(Keys()), outcome, Keys())
      ensures searchConv == Advance(old(searchConv), outcome)
      ensures profileConv == old(profileConv) && adminConv == old(adminConv)
    {
      var liked, shown;
      outcome, liked, shown := ProfileCallback(payload);
      searchConv := Advance(searchConv, outcome);
    }

    /** The admin conversation runs the handler it routed the update to and
        takes the state the handler returns. */
    method RunAdminFlow(u: Update, route: Route) returns (outcome: Outcome)
      requires Valid() && AdminRoute(adminConv, u) == Some(route)
      modifies this, store
      ensures Valid()
      ensures AdminStep(user in store.admins, route, old(store.users), outcome, store.users)
      ensures store.profiles == old(store.profiles)
      ensures adminConv == Advance(old(adminConv), outcome)
      ensures profileConv == old(profileConv) && searchConv == old(searchConv)
    {
      match route {
        case AdminButton(d) =>
          outcome := Next(AdminChoice(d));
        case GrantCoinsStep(t) =>
          outcome := GrantCoins(t);
        case GrantPremiumStep(t) =>
          outcome := GrantPremium(t);
        case BanStep(t) =>
          outcome := BanOrUnban(t, true);
        case UnbanStep(t) =>
          outcome := BanOrUnban(t, false);
        case CancelIn(_) =>
          outcome := Next(End);
      }
      adminConv := Advance(adminConv, outcome);
    }

    /** The handlers outside the conversations: they only read, and what
        they return sets no state. */
    method RunGlobal(route: Route) returns (outcome: Outcome)
      requires route.Owner().None?
      ensures route.MenuCommand? || route.Unhandled? ==> outcome == Stay
      ensures route.AdminCommand? ==> outcome == if user in store.admins then Next(AdminMenu) else Raised
    {
      match route {
        case MenuCommand =>
          var screen := ShowMenu();
          outcome := Stay;
        case AdminCommand =>
          var screen;
          outcome, screen := AdminMenuCommand(false);
        case MenuButton(d) =>
          var screen;
          outcome, screen := MenuCallback(d);
        case Unhandled =>
          outcome := Stay;
      }
    }

    /** One update through the handlers of `main()`: the first handler that
        accepts it runs, and only the conversation that handler belongs to
        takes the state it returns. `code` is the fresh referral code a
        creation would draw and `order` the random order of the search. */
    method Dispatch(u: Update, firstName: string, code: string, order: seq<int>) returns (route: Route, outcome: Outcome)
      requires Valid() && Db.IsReferralCode(code) && Db.Lists(store.users, order)
      modifies this, data, store
      ensures Valid()
      ensures route == RouteOf(old(profileConv), old(searchConv), old(adminConv), u)
      ensures profileConv == if route.Owner() == Some(ProfileFlow) then Advance(old(profileConv), outcome) else old(profileConv)
      ensures searchConv == if route.Owner() == Some(SearchFlow) then Advance(old(searchConv), outcome) else old(searchConv)
      ensures adminConv == if route.Owner() == Some(AdminFlow) then Advance(old(adminConv), outcome) else old(adminConv)
      ensures route.Owner() != Some(SearchFlow) ==>
                && data.searchGender == old(data.searchGender) && data.searchAgeMin == old(data.searchAgeMin)
                && data.searchResults == old(data.searchResults) && data.searchIndex == old(data.searchIndex)
      ensures route.Owner().None? || route.Owner() == Some(SearchFlow) ==>
                store.users == old(store.users) && store.profiles == old(store.profiles)
      ensures route.MaxAgeStep? ==> outcome != Raised
      ensures route.Owner() == Some(ProfileFlow) ==>
                ProfileStep(user, firstName, code, route, old(store.users), old(store.profiles), outcome, store.users, store.profiles)
      ensures route.Owner() == Some(SearchFlow) ==>
                SearchStep(user, store.users, store.profiles, route, old(Keys()), outcome, Keys())
      ensures route.Owner() == Some(AdminFlow) ==>
                AdminStep(user in store.admins, route, old(store.users), outcome, store.users) && store.profiles == old(store.profiles)
    {
      route := RouteOf(profileConv, searchConv, adminConv, u);
      var owner := route.Owner();
      if owner == Some(ProfileFlow) {
        outcome := RunProfileFlow(u, route, firstName, code);
      } else if owner == Some(SearchFlow) {
        outcome := RunSearchFlow(u, route, order);
      } else if owner == Some(AdminFlow) {
        outcome := RunAdminFlow(u, route);
      } else {
        outcome := RunGlobal(route);
      }
    }
  }

  /** The referral code `start` passes on: `context.args[0] if context.args else None`. */
  function ReferralArgument(args: seq<string>): (r: Option<string>)
    ensures r.Some? <==> |args| > 0
    ensures r.Some? ==> r.value == args[0]
  {
    if |args| > 0 then Some(args[0]) else None
  }
}
