/** The bot's command handlers as they run: one object holds the
    module-level state that the handlers update in place, and each handler
    is a method that checks its guards in order, returns early with the
    rejection text, and otherwise mutates the state and returns the
    confirmation. Every method is proved to perform exactly the transition
    that module Commands specifies for it. */
module Handlers {
  import opened Text
  import opened Commands

  class Bot {
    /** `default_admin`, read from `OWNER_ID` at start-up. */
    const owner: int
    /** `admins`. */
    var admins: set<int>
    /** `filters`: keyword to reply. */
    var filters: map<string, string>
    /** The `WELCOME_MESSAGE` environment variable. */
    var welcomeMessage: Option<string>

    /** The object's state as a value of the specification. */
    function Snapshot(): State
      reads this
    {
      State(owner, admins, filters, welcomeMessage)
    }

    /** The object invariant, and a promise in its own right: every key of
        the filter table is lower case, so a keyword is stored under the same
        key whatever case it was typed in. The constructor establishes it and
        every handler keeps it. */
    ghost predicate Valid()
      reads this
    {
      Wellformed(Snapshot())
    }

    /** Start-up: the owner is put into the empty admin set; the filter table
        is empty; the welcome text is what the environment held. */
    constructor (ownerId: int, envWelcome: Option<string>)
      ensures Valid()
      ensures owner == ownerId && admins == {ownerId} && filters == map[]
      ensures welcomeMessage == envWelcome
      ensures Snapshot() == Init(ownerId, envWelcome)
    {
      owner := ownerId;
      admins := {};
      filters := map[];
      welcomeMessage := envWelcome;
      new;
      admins := admins + {ownerId};
    }

    method AddAdmin(caller: int, args: seq<string>) returns (reply: string)
      requires Valid()
      modifies this
      ensures Valid()
      ensures Outcome(Snapshot(), reply) == Commands.AddAdmin(old(Snapshot()), caller, args)
    {
      if caller != owner {
        return OwnerOnlyAdd;
      }
      if |args| != 1 || !IsDigits(args[0]) {
        return AddAdminUsage;
      }
      var id := ParseNat(args[0]);
      admins := admins + {id};
      reply := AddedAdminReply(id);
    }

    method RemoveAdmin(caller: int, args: seq<string>) returns (reply: string)
      requires Valid()
      modifies this
      ensures Valid()
      ensures Outcome(Snapshot(), reply) == Commands.RemoveAdmin(old(Snapshot()), caller, args)
    {
      if caller != owner {
        return OwnerOnlyRemove;
      }
      if |args| != 1 || !IsDigits(args[0]) {
        return RemoveAdminUsage;
      }
      var id := ParseNat(args[0]);
      if id in admins {
        admins := admins - {id};
        reply := RemovedAdminReply(id);
      } else {
        reply := NotAdminReply(id);
      }
    }

    method SetWelcome(caller: int, args: seq<string>) returns (reply: string)
      requires Valid()
      modifies this
      ensures Valid()
      ensures Outcome(Snapshot(), reply) == Commands.SetWelcome(old(Snapshot()), caller, args)
    {
      if caller !in admins {
        return AdminsOnlyWelcome;
      }
      welcomeMessage := Some(Join(args));
      reply := WelcomeUpdated;
    }

    /** Greets a new member; reads the state and changes nothing. */
    method Welcome() returns (reply: string)
      ensures reply == Commands.Welcome(Snapshot())
    {
      reply := if welcomeMessage.Some? then welcomeMessage.value else DefaultWelcome;
    }

    method AddFilter(caller: int, args: seq<string>) returns (reply: string)
      requires Valid()
      modifies this
      ensures Valid()
      ensures Outcome(Snapshot(), reply) == Commands.AddFilter(old(Snapshot()), caller, args)
    {
      if caller !in admins {
        return AdminsOnlyFilter;
      }
      if |args| < 2 {
        return AddFilterUsage;
      }
      var keyword := Lower(args[0]);
      var text := Join(args[1..]);
      filters := filters[keyword := text];
      reply := FilterAddedReply(keyword, text);
    }
  }

  /** A fresh bot whose owner removes itself from the admin set: the removal
      succeeds, the owner's next `/addfilter` is refused, and a `/removeadmin`
      by the owner still gets past the owner check. */
  method OwnerRemovesItself(ownerId: nat, filterArgs: seq<string>)
    returns (removed: string, refused: string, again: string)
    ensures removed == RemovedAdminReply(ownerId)
    ensures refused == AdminsOnlyFilter
    ensures again == NotAdminReply(ownerId)
  {
    var bot := new Bot(ownerId, None);
    ParseShow(ownerId);
    removed := bot.RemoveAdmin(ownerId, [ShowNat(ownerId)]);
    refused := bot.AddFilter(ownerId, filterArgs);
    again := bot.RemoveAdmin(ownerId, [ShowNat(ownerId)]);
  }

  /** A fresh bot with no welcome text configured: new members get the
      default greeting until an admin sets one. */
  method WelcomeLifecycle(ownerId: int, args: seq<string>)
    returns (before: string, after: string)
    ensures before == DefaultWelcome
    ensures after == Join(args)
  {
    var bot := new Bot(ownerId, None);
    before := bot.Welcome();
    var _ := bot.SetWelcome(ownerId, args);
    after := bot.Welcome();
  }
}
