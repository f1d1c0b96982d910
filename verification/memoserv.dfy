/** The MemoServ service: target resolution, memo delivery with its checks
    and notification fan-out, the unread check, and the presence hooks of
    the core module. Notices, mail requests and the OnMemoSend hook call
    are returned as a sequence of events. */
module MemoServ {
  import opened MemoTypes
  import opened MemoSpec

  /** A target naming a channel starts with '#'. */
  predicate IsChannelName(target: string)
  {
    |target| > 0 && target[0] == '#'
  }

  /** The links between the records that the service relies on: every nick
      alias belongs to a registered account, every nick an account lists is
      an alias of that account, every identified user is logged in to a
      registered account, and every user in a live channel is online. */
  ghost predicate WellFormed(channels: map<string, ChannelInfo>, aliases: map<string, string>,
                             accounts: map<string, Account>, users: map<string, User>)
  {
    && (forall nick :: nick in aliases ==> aliases[nick] in accounts)
    && (forall account, nick :: account in accounts && nick in accounts[account].aliases ==>
          nick in aliases && aliases[nick] == account)
    && (forall nick :: nick in users && users[nick].identified ==> users[nick].account.Some?)
    && (forall nick :: nick in users && users[nick].account.Some? ==> users[nick].account.value in accounts)
    && (forall chan :: chan in channels && channels[chan].live.Some? ==>
          forall nick :: nick in channels[chan].live.value ==> nick in users)
  }

  /** Tells the members of a live channel about a new channel memo, one
      member at a time in roster order. */
  method NotifyChannel(chan: string, roster: seq<string>, memoAccess: set<string>,
                       users: map<string, User>, accounts: map<string, Account>, size: nat)
    returns (out: seq<Event>)
    ensures out == ChannelNotices(chan, roster, memoAccess, users, accounts, size)
  {
    out := [];
    var i := 0;
    while i < |roster|
      invariant 0 <= i <= |roster|
      invariant out == ChannelNotices(chan, roster[..i], memoAccess, users, accounts, size)
    {
      var nick := roster[i];
      if nick in memoAccess {
        if nick in users && users[nick].account.Some?
           && users[nick].account.value in accounts && accounts[users[nick].account.value].memoReceive {
          out := out + [Notice(nick, NewChannelMemo(chan, size))];
        }
      }
      assert roster[..i + 1][..i] == roster[..i];
      i := i + 1;
    }
    assert roster[..i] == roster;
  }

  /** Tells every identified online user of an account's nicks about a new
      memo, one nick at a time in the account's order. */
  method NotifyAliases(nicks: seq<string>, users: map<string, User>, source: string, size: nat)
    returns (out: seq<Event>)
    ensures out == AliasNotices(nicks, users, source, size)
  {
    out := [];
    var i := 0;
    while i < |nicks|
      invariant 0 <= i <= |nicks|
      invariant out == AliasNotices(nicks[..i], users, source, size)
    {
      var nick := nicks[i];
      if nick in users && users[nick].identified {
        out := out + [Notice(nick, NewMemoFrom(source, size))];
      }
      assert nicks[..i + 1][..i] == nicks[..i];
      i := i + 1;
    }
    assert nicks[..i] == nicks;
  }

  /** The memo service: registered channels, nick aliases, accounts and
      online users, and the configured minimum delay between two memos. */
  class MyMemoServService {
    const sendDelay: int
    var channels: map<string, ChannelInfo>
    var aliases: map<string, string>
    var accounts: map<string, Account>
    var users: map<string, User>

    ghost predicate Valid()
      reads this
    {
      WellFormed(channels, aliases, accounts, users)
    }

    constructor (sendDelay: int, channels: map<string, ChannelInfo>, aliases: map<string, string>,
                 accounts: map<string, Account>, users: map<string, User>)
      requires WellFormed(channels, aliases, accounts, users)
      ensures Valid()
      ensures this.sendDelay == sendDelay && this.channels == channels && this.aliases == aliases
      ensures this.accounts == accounts && this.users == users
    {
      this.sendDelay := sendDelay;
      this.channels := channels;
      this.aliases := aliases;
      this.accounts := accounts;
      this.users := users;
    }

    /** Resolves a target name to a mailbox. A name starting with '#' names
        a registered channel's mailbox and nothing else; any other name
        names the mailbox of the account its registered alias belongs to.
        `ischan` follows the first character even when nothing is found. */
    function GetMemoInfo(target: string): (r: Lookup)
      reads this
      ensures r.ischan <==> IsChannelName(target)
      ensures r.mi.Some? && r.mi.value.ChannelBox? <==> IsChannelName(target) && target in channels
      ensures r.mi.Some? && r.mi.value.AccountBox? <==> !IsChannelName(target) && target in aliases
      ensures r.mi.Some? && r.mi.value.ChannelBox? ==> r.mi.value.chan == target
      ensures r.mi.Some? && r.mi.value.AccountBox? ==> r.mi.value.account == aliases[target]
    {
      if IsChannelName(target) then
        Lookup(if target in channels then Some(ChannelBox(target)) else None, true)
      else
        Lookup(if target in aliases then Some(AccountBox(aliases[target])) else None, false)
    }

    /** The mailbox a resolved target refers to. */
    function MailboxAt(box: Mailbox): MemoInfo
      reads this
      requires Valid()
      requires box.ChannelBox? ==> box.chan in channels
      requires box.AccountBox? ==> box.account in accounts
    {
      match box
      case ChannelBox(chan) => channels[chan].memos
      case AccountBox(account) => accounts[account].memos
    }

    /** The online user sending under the name `source`, if any. */
    function SenderOf(source: string): Option<User>
      reads this
    {
      if source in users then Some(users[source]) else None
    }

    /** The mailbox of the account `nick` is logged in to, if any. */
    function LoggedInMailbox(nick: string): Option<MemoInfo>
      reads this
      requires Valid() && nick in users
    {
      match users[nick].account
      case None => None
      case Some(account) => Some(accounts[account].memos)
    }

    /** Replaces the mailbox `box` refers to with `mi`; nothing else changes. */
    method Deposit(box: Mailbox, mi: MemoInfo)
      requires Valid()
      requires box.ChannelBox? ==> box.chan in channels
      requires box.AccountBox? ==> box.account in accounts
      modifies this
      ensures Valid()
      ensures users == old(users) && aliases == old(aliases)
      ensures box.ChannelBox? ==>
                channels == old(channels)[box.chan := old(channels[box.chan]).(memos := mi)]
                && accounts == old(accounts)
      ensures box.AccountBox? ==>
                accounts == old(accounts)[box.account := old(accounts[box.account]).(memos := mi)]
                && channels == old(channels)
    {
      match box {
        case ChannelBox(chan) =>
          channels := channels[chan := channels[chan].(memos := mi)];
        case AccountBox(account) =>
          accounts := accounts[account := accounts[account].(memos := mi)];
      }
    }

    /** What is emitted after a memo from `source` to the resolved target
        has been stored and the target mailbox holds `size` memos: for a
        channel, notices to its live members; for a nick, the account's
        notices and mail request. */
    ghost function Notifications(target: string, source: string, message: string, size: nat): seq<Event>
      reads this
      requires Valid() && GetMemoInfo(target).mi.Some?
    {
      if IsChannelName(target) then
        var ci := channels[target];
        if ci.live.Some? then ChannelNotices(target, ci.live.value, ci.memoAccess, users, accounts, size)
        else []
      else
        NickFanOut(aliases[target], accounts[aliases[target]], users, source, message, size)
    }

    /** The fan-out after a stored memo: the channel branch walks the live
        channel's members, the nick branch the account's nicks and then
        requests mail. */
    method FanOut(target: string, ischan: bool, source: string, message: string, size: nat)
      returns (out: seq<Event>)
      requires Valid() && GetMemoInfo(target).mi.Some? && ischan == GetMemoInfo(target).ischan
      ensures out == Notifications(target, source, message, size)
    {
      out := [];
      if ischan {
        var ci := channels[target];
        if ci.live.Some? {
          out := NotifyChannel(target, ci.live.value, ci.memoAccess, users, accounts, size);
        }
      } else {
        var account := aliases[target];
        var nc := accounts[account];
        if nc.memoReceive {
          out := NotifyAliases(nc.aliases, users, source, size);
        }
        if nc.memoMail {
          out := out + [MailRequest(account, source, size, message)];
        }
      }
    }

    /** Sends a memo from `source` to `target` at time `now`. An unknown
        target changes nothing. Otherwise the gate decides: a stopped send
        changes nothing and emits nothing; a stored send stamps the online
        sender, appends one unread memo to the target mailbox and changes no
        other mailbox, calls the OnMemoSend hook and then notifies. */
    method Send(source: string, target: string, message: string, force: bool, now: int)
      returns (res: MemoResult, out: seq<Event>)
      requires Valid()
      modifies this
      ensures Valid()
      ensures old(GetMemoInfo(target)).mi.None? ==>
                res == MemoInvalidTarget && out == [] && unchanged(this)
      ensures old(GetMemoInfo(target)).mi.Some? ==>
                var box := old(GetMemoInfo(target)).mi.value;
                var g := SendGate(old(SenderOf(source)), source, old(MailboxAt(box)), force, sendDelay, now);
                var mi := Deliver(old(MailboxAt(box)), Memo(target, source, now, message, true));
                && (g.Stop? ==> res == g.result && out == [] && unchanged(this))
                && (g == Store ==>
                      && res == MemoSuccess
                      && users == Stamp(old(users), source, now)
                      && aliases == old(aliases)
                      && (box.ChannelBox? ==>
                            channels == old(channels)[box.chan := old(channels[box.chan]).(memos := mi)]
                            && accounts == old(accounts))
                      && (box.AccountBox? ==>
                            accounts == old(accounts)[box.account := old(accounts[box.account]).(memos := mi)]
                            && channels == old(channels))
                      && out == [MemoSendHook(source, target)] + Notifications(target, source, message, |mi.memos|))
    {
      var lk := GetMemoInfo(target);
      if lk.mi.None? {
        return MemoInvalidTarget, [];
      }
      var box := lk.mi.value;
      var mi := MailboxAt(box);
      var sender := SenderOf(source);
      if sender.Some? && !sender.value.noLimit && !force {
        if sendDelay > 0 && sender.value.lastmemosend + sendDelay > now {
          return MemoTooFast, [];
        } else if mi.memomax == 0 {
          return MemoTargetFull, [];
        } else if mi.memomax > 0 && |mi.memos| >= mi.memomax {
          return MemoTargetFull, [];
        } else if source in mi.ignores {
          return MemoSuccess, [];
        }
      }

      if sender.Some? {
        users := users[source := sender.value.(lastmemosend := now)];
      }

      var m := Memo(target, source, now, message, true);
      mi := mi.(memos := mi.memos + [m]);
      Deposit(box, mi);

      out := [MemoSendHook(source, target)];
      var notices := FanOut(target, lk.ischan, source, message, |mi.memos|);
      out := out + notices;
      res := MemoSuccess;
    }

    /** The unread check for an online user: one summary with the number of
        unread memos when there is any, then a warning when the mailbox has
        reached or passed its positive limit. Nothing for a user who is not
        logged in. */
    method Check(nick: string) returns (out: seq<Event>)
      requires Valid() && nick in users
      ensures users[nick].account.None? ==> out == []
      ensures users[nick].account.Some? ==>
                var mi := accounts[users[nick].account.value].memos;
                out == UnreadSummary(nick, mi.memos) + CapacityWarning(nick, mi)
      ensures out == UnreadCheck(nick, LoggedInMailbox(nick))
    {
      var nc := users[nick].account;
      if nc.None? {
        return [];
      }
      var mi := accounts[nc.value].memos;
      var i, end, newcnt := 0, |mi.memos|, 0;
      while i < end
        invariant 0 <= i <= end
        invariant newcnt == CountUnread(mi.memos[..i])
      {
        if mi.memos[i].unread {
          newcnt := newcnt + 1;
        }
        assert mi.memos[..i + 1][..i] == mi.memos[..i];
        i := i + 1;
      }
      assert mi.memos[..end] == mi.memos;
      out := [];
      if newcnt > 0 {
        out := [Notice(nick, NewMemosSummary(newcnt))];
      }
      if mi.memomax > 0 && |mi.memos| >= mi.memomax {
        if |mi.memos| > mi.memomax {
          out := out + [Notice(nick, OverMaximum(mi.memomax))];
        } else {
          out := out + [Notice(nick, ReachedMaximum(mi.memomax))];
        }
      }
    }
  }

  /** The core module's presence hooks, which run the unread check of the
      service they hold or report the memos of a joined channel. */
  class MemoServCore {
    const mymemoserv: MyMemoServService

    constructor (service: MyMemoServService)
      ensures mymemoserv == service
    {
      mymemoserv := service;
    }

    /** A user identified to an account: run the unread check. */
    method OnNickIdentify(nick: string) returns (out: seq<Event>)
      requires mymemoserv.Valid() && nick in mymemoserv.users
      ensures out == UnreadCheck(nick, mymemoserv.LoggedInMailbox(nick))
    {
      out := mymemoserv.Check(nick);
    }

    /** A user joined a channel: report the channel's memo count. */
    method OnJoinChannel(nick: string, chan: string) returns (out: seq<Event>)
      ensures chan !in mymemoserv.channels ==> out == []
      ensures out == JoinNotice(nick, chan, if chan in mymemoserv.channels then Some(mymemoserv.channels[chan]) else None)
    {
      out := [];
      if chan in mymemoserv.channels {
        var ci := mymemoserv.channels[chan];
        if nick in ci.memoAccess && |ci.memos.memos| > 0 {
          out := [Notice(nick, ChannelMemoCount(chan, |ci.memos.memos|))];
        }
      }
    }

    /** A user set or cleared its away message: run the unread check only
        when it came back (the message is empty). */
    method OnUserAway(nick: string, message: string) returns (out: seq<Event>)
      requires mymemoserv.Valid() && nick in mymemoserv.users
      ensures message != "" ==> out == []
      ensures message == "" ==> out == UnreadCheck(nick, mymemoserv.LoggedInMailbox(nick))
    {
      out := [];
      if message == "" {
        out := mymemoserv.Check(nick);
      }
    }

    /** A user's nick record was updated: run the unread check. */
    method OnNickUpdate(nick: string) returns (out: seq<Event>)
      requires mymemoserv.Valid() && nick in mymemoserv.users
      ensures out == UnreadCheck(nick, mymemoserv.LoggedInMailbox(nick))
    {
      out := mymemoserv.Check(nick);
    }
  }
}
