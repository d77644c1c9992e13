/** The admin and filter command engine of the bot as a state machine: the
    module-level state (owner id, admin set, filter table, welcome text) is a
    `State` value, and every command handler is a function from the state, the
    caller's id and the command's arguments to the next state and the text
    the bot replies with. The `Bot` class in module Handlers is proved to
    follow these functions step by step. */
module Commands {
  import opened Text

  datatype Option<T> = None | Some(value: T)

  /** `owner` is `default_admin`; `welcome` is the `WELCOME_MESSAGE`
      environment variable, `None` while it is unset. */
  datatype State = State(
    owner: int,
    admins: set<int>,
    filters: map<string, string>,
    welcome: Option<string>)

  datatype Outcome = Outcome(next: State, reply: string)

  /** What `/request` produces: a usage reply, or the text relayed to the
      request channel together with the reply to the requester. */
  datatype RequestOutcome =
    | RequestUsage(reply: string)
    | Relay(relayText: string, reply: string)

  const OwnerOnlyAdd := "Only the bot owner can add admins."
  const AddAdminUsage := "Usage: /addadmin <user_id>"
  const OwnerOnlyRemove := "Only the bot owner can remove admins."
  const RemoveAdminUsage := "Usage: /removeadmin <user_id>"
  const AdminsOnlyWelcome := "Only admins can set the welcome message."
  const WelcomeUpdated := "Welcome message updated."
  const DefaultWelcome := "Welcome to the channel!"
  const RequestMovieUsage := "Usage: /request <movie_name>"
  const AdminsOnlyFilter := "Only admins can add filters."
  const AddFilterUsage := "Usage: /addfilter <keyword> <reply>"

  function AddedAdminReply(id: nat): string {
    "User " + ShowNat(id) + " added as an admin."
  }

  function RemovedAdminReply(id: nat): string {
    "User " + ShowNat(id) + " removed as an admin."
  }

  function NotAdminReply(id: nat): string {
    "User " + ShowNat(id) + " is not an admin."
  }

  function FilterAddedReply(keyword: string, reply: string): string {
    "Filter added: '" + keyword + "' will trigger '" + reply + "'."
  }

  /** Every key of the filter table is already lower case. */
  predicate Wellformed(s: State) {
    forall k :: k in s.filters ==> IsLowercase(k)
  }

  /** The state at start-up: the owner is the only admin, there are no
      filters, and the welcome text is whatever the environment held. */
  function Init(owner: int, envWelcome: Option<string>): (s: State)
    ensures Wellformed(s)
  {
    State(owner, {owner}, map[], envWelcome)
  }

  /** The argument check of `/addadmin` and `/removeadmin`: exactly one
      argument, made of digits only. */
  predicate IdArgument(args: seq<string>) {
    |args| == 1 && IsDigits(args[0])
  }

  /** `/addadmin <user_id>`. */
  function AddAdmin(s: State, caller: int, args: seq<string>): (o: Outcome)
    ensures o.next.owner == s.owner && o.next.filters == s.filters && o.next.welcome == s.welcome
    ensures s.admins <= o.next.admins
    ensures o.next.admins != s.admins ==> caller == s.owner && IdArgument(args)
  {
    if caller != s.owner then Outcome(s, OwnerOnlyAdd)
    else if |args| != 1 || !IsDigits(args[0]) then Outcome(s, AddAdminUsage)
    else
      var id := ParseNat(args[0]);
      Outcome(s.(admins := s.admins + {id}), AddedAdminReply(id))
  }

  /** `/removeadmin <user_id>`. The owner's own id is not protected. */
  function RemoveAdmin(s: State, caller: int, args: seq<string>): (o: Outcome)
    ensures o.next.owner == s.owner && o.next.filters == s.filters && o.next.welcome == s.welcome
    ensures o.next.admins <= s.admins
    ensures o.next.admins != s.admins ==> caller == s.owner && IdArgument(args)
  {
    if caller != s.owner then Outcome(s, OwnerOnlyRemove)
    else if |args| != 1 || !IsDigits(args[0]) then Outcome(s, RemoveAdminUsage)
    else
      var id := ParseNat(args[0]);
      if id in s.admins then Outcome(s.(admins := s.admins - {id}), RemovedAdminReply(id))
      else Outcome(s, NotAdminReply(id))
  }

  /** `/setwelcome <text…>`: gated on membership in the admin set. */
  function SetWelcome(s: State, caller: int, args: seq<string>): (o: Outcome)
    ensures o.next.owner == s.owner && o.next.admins == s.admins && o.next.filters == s.filters
    ensures o.next.welcome != s.welcome ==> caller in s.admins
    ensures caller in s.admins ==> o.next.welcome.Some?
  {
    if caller !in s.admins then Outcome(s, AdminsOnlyWelcome)
    else Outcome(s.(welcome := Some(Join(args))), WelcomeUpdated)
  }

  /** The text greeting a new chat member. */
  function Welcome(s: State): string {
    match s.welcome
    case Some(text) => text
    case None => DefaultWelcome
  }

  /** `/request <movie_name…>`, without the delivery to the request channel. */
  function RequestMovie(args: seq<string>): (r: RequestOutcome)
    ensures r.RequestUsage? <==> |args| == 0
  {
    if |args| == 0 then RequestUsage(RequestMovieUsage)
    else
      var name := Join(args);
      Relay("New movie request: " + name, "Your request for '" + name + "' has been sent.")
  }

  /** `/addfilter <keyword> <reply…>`: gated on membership in the admin set. */
  function AddFilter(s: State, caller: int, args: seq<string>): (o: Outcome)
    ensures o.next.owner == s.owner && o.next.admins == s.admins && o.next.welcome == s.welcome
    ensures Wellformed(s) ==> Wellformed(o.next)
    ensures o.next.filters != s.filters ==> caller in s.admins && |args| >= 2
    ensures s.filters.Keys <= o.next.filters.Keys
  {
    if caller !in s.admins then Outcome(s, AdminsOnlyFilter)
    else if |args| < 2 then Outcome(s, AddFilterUsage)
    else
      var keyword := Lower(args[0]);
      var reply := Join(args[1..]);
      Outcome(s.(filters := s.filters[keyword := reply]), FilterAddedReply(keyword, reply))
  }

  // ---------------------------------------------------------------------
  // Authorisation and argument checks

  /** Anyone but the owner is turned away by both admin commands, and
      nothing changes. */
  lemma AdminCommandsAreOwnerOnly(s: State, caller: int, args: seq<string>)
    requires caller != s.owner
    ensures AddAdmin(s, caller, args) == Outcome(s, OwnerOnlyAdd)
    ensures RemoveAdmin(s, caller, args) == Outcome(s, OwnerOnlyRemove)
  {
  }

  /** The owner gets the usage text, and nothing changes, unless there is
      exactly one all-digit argument (so a negative id is never accepted). */
  lemma AdminCommandsNeedOneId(s: State, args: seq<string>)
    requires !IdArgument(args)
    ensures AddAdmin(s, s.owner, args) == Outcome(s, AddAdminUsage)
    ensures RemoveAdmin(s, s.owner, args) == Outcome(s, RemoveAdminUsage)
  {
  }

  /** Filters and the welcome text are gated on the admin set alone, not on
      being the owner: exactly the callers in `admins` get through. */
  lemma AdminOnlyCommands(s: State, caller: int, args: seq<string>)
    ensures caller !in s.admins ==> AddFilter(s, caller, args) == Outcome(s, AdminsOnlyFilter)
    ensures caller !in s.admins ==> SetWelcome(s, caller, args) == Outcome(s, AdminsOnlyWelcome)
    ensures caller in s.admins ==> AddFilter(s, caller, args).reply != AdminsOnlyFilter
    ensures caller in s.admins ==> SetWelcome(s, caller, args).reply == WelcomeUpdated
  {
  }

  /** Fewer than two arguments to `/addfilter` from an admin: the usage text,
      and the table is unchanged. */
  lemma AddFilterNeedsTwoArguments(s: State, caller: int, args: seq<string>)
    requires caller in s.admins && |args| < 2
    ensures AddFilter(s, caller, args) == Outcome(s, AddFilterUsage)
  {
  }

  // ---------------------------------------------------------------------
  // The admin set

  /** A successful `/addadmin` inserts the parsed id and nothing else; the
      reply names the id as `str` prints it, which is the argument itself
      when it has no leading zeros. */
  lemma {:induction false} AddAdminInserts(s: State, arg: string)
    requires IsDigits(arg)
    ensures var o := AddAdmin(s, s.owner, [arg]);
      && (forall x :: x in o.next.admins <==> x in s.admins || x == ParseNat(arg))
      && (IsCanonical(arg) ==> o.reply == "User " + arg + " added as an admin.")
  {
    if IsCanonical(arg) {
      ShowParse(arg);
    }
  }

  /** `/addadmin 007` and `/addadmin 7` have the same effect. */
  lemma {:induction false} AddAdminIgnoresLeadingZero(s: State, arg: string)
    requires IsDigits(arg)
    ensures AddAdmin(s, s.owner, [['0'] + arg]) == AddAdmin(s, s.owner, [arg])
  {
    ParseIgnoresLeadingZero(arg);
  }

  /** Repeating any `/addadmin` command is a no-op, reply included. */
  lemma AddAdminIdempotent(s: State, caller: int, args: seq<string>)
    ensures var o := AddAdmin(s, caller, args);
      AddAdmin(o.next, caller, args) == Outcome(o.next, o.reply)
  {
  }

  /** `/removeadmin` deletes a present id and nothing else; an absent id
      gets "is not an admin" and leaves the set as it was. */
  lemma RemoveAdminDeletes(s: State, arg: string)
    requires IsDigits(arg)
    ensures var id := ParseNat(arg); var o := RemoveAdmin(s, s.owner, [arg]);
      && (id in s.admins ==> o.next.admins == s.admins - {id} && o.reply == RemovedAdminReply(id))
      && (id !in s.admins ==> o == Outcome(s, NotAdminReply(id)))
  {
  }

  /** Removing an id that `/addadmin` just inserted restores the state. */
  lemma RemoveUndoesAdd(s: State, arg: string)
    requires IsDigits(arg) && ParseNat(arg) !in s.admins
    ensures RemoveAdmin(AddAdmin(s, s.owner, [arg]).next, s.owner, [arg]).next == s
  {
  }

  /** Adding back an id that `/removeadmin` just deleted restores the state. */
  lemma AddUndoesRemove(s: State, arg: string)
    requires IsDigits(arg) && ParseNat(arg) in s.admins
    ensures AddAdmin(RemoveAdmin(s, s.owner, [arg]).next, s.owner, [arg]).next == s
  {
  }

  /** The owner can delete its own id from the admin set: the owner is not
      exempt from `/removeadmin`. */
  lemma {:induction false} OwnerCanRemoveItself(s: State)
    requires s.owner >= 0 && s.owner in s.admins
    ensures var o := RemoveAdmin(s, s.owner, [ShowNat(s.owner)]);
      o.next.admins == s.admins - {s.owner} && s.owner !in o.next.admins
  {
    ParseShow(s.owner);
  }

  /** Once the owner is out of the admin set it keeps the admin commands,
      which check owner identity, but loses filters and the welcome text,
      which check the admin set; `/addadmin` with its own id brings both back. */
  lemma {:induction false} OwnerOutsideAdminSet(s: State, args: seq<string>)
    requires s.owner >= 0 && s.owner !in s.admins
    ensures AddFilter(s, s.owner, args) == Outcome(s, AdminsOnlyFilter)
    ensures SetWelcome(s, s.owner, args) == Outcome(s, AdminsOnlyWelcome)
    ensures var back := AddAdmin(s, s.owner, [ShowNat(s.owner)]).next;
      s.owner in back.admins && SetWelcome(back, s.owner, args).reply == WelcomeUpdated
  {
    ParseShow(s.owner);
  }

  // ---------------------------------------------------------------------
  // The filter table

  /** A successful `/addfilter` maps the lower-cased keyword to the rest of
      the arguments joined by single spaces, overwriting any earlier reply,
      and leaves every other key as it was. When the arguments came from
      splitting the message on whitespace, splitting the stored reply on
      spaces gives them back. */
  lemma {:induction false} AddFilterStores(s: State, caller: int, args: seq<string>)
    requires caller in s.admins && |args| >= 2
    ensures var f := AddFilter(s, caller, args).next.filters; var key := Lower(args[0]);
      && f.Keys == s.filters.Keys + {key}
      && f[key] == Join(args[1..])
      && (forall k :: k in s.filters && k != key ==> f[k] == s.filters[k])
      && ((forall i :: 1 <= i < |args| ==> NoSpace(args[i])) ==> Split(f[key]) == args[1..])
  {
    if forall i :: 1 <= i < |args| ==> NoSpace(args[i]) {
      SplitJoin(args[1..]);
    }
  }

  /** Keywords are case-insensitive and the last `/addfilter` for a keyword
      wins: the earlier reply is gone. */
  lemma AddFilterOverwrites(s: State, caller: int, first: seq<string>, second: seq<string>)
    requires caller in s.admins && |first| >= 2 && |second| >= 2
    requires SameIgnoringCase(first[0], second[0])
    ensures AddFilter(AddFilter(s, caller, first).next, caller, second).next
         == AddFilter(s, caller, second).next
  {
    LowerIgnoresCase(first[0], second[0]);
  }

  // ---------------------------------------------------------------------
  // The welcome text

  /** Until `/setwelcome` runs, new members get the text the environment
      held at start-up, or the default greeting when it held none. */
  lemma WelcomeBeforeSet(owner: int, env: Option<string>)
    ensures env.None? ==> Welcome(Init(owner, env)) == DefaultWelcome
    ensures env.Some? ==> Welcome(Init(owner, env)) == env.value
  {
  }

  /** After an admin's `/setwelcome`, new members get the arguments joined by
      single spaces, the empty text when there were none. */
  lemma WelcomeAfterSet(s: State, caller: int, args: seq<string>)
    requires caller in s.admins
    ensures Welcome(SetWelcome(s, caller, args).next) == Join(args)
    ensures |args| == 0 ==> Welcome(SetWelcome(s, caller, args).next) == ""
  {
  }

  // ---------------------------------------------------------------------
  // A run from start-up

  /** The owner makes user 42 an admin, who then adds a filter: the table
      maps "hello" to "Hi there!". */
  lemma OwnerDelegatesFilters(owner: int, env: Option<string>)
    requires owner != 42
    ensures var s1 := AddAdmin(Init(owner, env), owner, ["42"]).next;
      var s2 := AddFilter(s1, 42, ["Hello", "Hi", "there!"]).next;
      s1.admins == {owner, 42} && s2.filters == map["hello" := "Hi there!"]
  {
    assert IsDigits("42") && ParseNat("42") == 42;
    assert Lower("Hello") == "hello";
    var args := ["Hello", "Hi", "there!"];
    assert args[1..] == ["Hi", "there!"] && Join(args[1..]) == "Hi there!";
  }
}
