/** The records MemoServ works on: memos, mailboxes (MemoInfo), registered
    accounts (NickCore), registered channels (ChannelInfo), online users, the
    closed set of send outcomes, and the events the service emits. */
module MemoTypes {

  datatype Option<+T> = None | Some(value: T)

  /** One stored memo; `unread` is the MF_UNREAD flag. */
  datatype Memo = Memo(owner: string, sender: string, time: int, text: string, unread: bool)

  /** A mailbox. `memomax` is 0 for a closed mailbox, negative for no limit,
      positive for a hard cap; `ignores` are the names whose memos are dropped. */
  datatype MemoInfo = MemoInfo(memos: seq<Memo>, memomax: int, ignores: set<string>)

  /** A registered account (NickCore): its mailbox, the nicks grouped to it,
      and the NI_MEMO_RECEIVE / NI_MEMO_MAIL flags. */
  datatype Account = Account(memos: MemoInfo, aliases: seq<string>, memoReceive: bool, memoMail: bool)

  /** A registered channel (ChannelInfo): its mailbox, the nicks of the users
      in the live channel when it exists (`ci->c`), and the nicks whose access
      on the channel includes the MEMO privilege. */
  datatype ChannelInfo = ChannelInfo(memos: MemoInfo, live: Option<seq<string>>, memoAccess: set<string>)

  /** An online user: the account it is logged in to, whether it counts as
      identified, whether it holds the memoserv/no-limit privilege, and the
      time of its last memo. */
  datatype User = User(account: Option<string>, identified: bool, noLimit: bool, lastmemosend: int)

  /** The result of a send (MemoResult). */
  datatype MemoResult = MemoSuccess | MemoInvalidTarget | MemoTooFast | MemoTargetFull

  /** Which mailbox a target name resolved to: a channel's, keyed by the
      channel name, or an account's, keyed by the account name. */
  datatype Mailbox = ChannelBox(chan: string) | AccountBox(account: string)

  /** What GetMemoInfo yields: the mailbox, if any, and the `ischan` flag it
      sets from the first character of the target. */
  datatype Lookup = Lookup(mi: Option<Mailbox>, ischan: bool)

  /** The text a notice carries, reduced to what it reports. */
  datatype Message =
    | NewChannelMemo(chan: string, count: nat)    // a new memo arrived on a channel
    | NewMemoFrom(sender: string, count: nat)     // a new memo arrived from a sender
    | NewMemosSummary(count: nat)                 // "You have N new memo(s)."
    | OverMaximum(max: int)                       // over the mailbox limit
    | ReachedMaximum(max: int)                    // exactly at the mailbox limit
    | ChannelMemoCount(chan: string, count: nat)  // memos waiting on a joined channel

  /** Everything the service does outside its own state. */
  datatype Event =
    | Notice(to: string, msg: Message)
    | MailRequest(account: string, sender: string, index: nat, text: string)
    | MemoSendHook(source: string, target: string)
}
