# MemoServ memo engine, modelled in Dafny

This project models the core of Anope's MemoServ pseudo-client
(`modules/pseudoclients/memoserv.cpp`). MemoServ lets a user leave a memo for a
registered nick or a registered channel. The model covers:

- **Target resolution.** `GetMemoInfo` maps a `#channel` to that registered
  channel's mailbox and any other name to the mailbox of the account that owns
  the nick alias. Otherwise it yields nothing.
- **Memo delivery.** `Send` runs its checks in order for an online sender that
  lacks the `memoserv/no-limit` privilege when the send is not forced:
  - the send delay;
  - a closed mailbox;
  - a full mailbox;
  - the ignore list.

  It then stamps the sender's `lastmemosend` and appends one unread memo. It
  calls the `OnMemoSend` hook and notifies the recipients:
  - for a channel, the channel members with the `MEMO` privilege and memo
    notices on;
  - for a nick, the identified users of the account's nicks when the account
    has memo notices on (`NI_MEMO_RECEIVE`), plus one mail request when the
    account has memo mail on.
- **The unread check.** `Check` counts the unread memos in a loop. It sends a
  summary only when at least one memo is unread. It sends a capacity warning,
  either "over" or "reached" the limit, only when the mailbox has a positive
  limit and holds at least that many memos.
- **The presence hooks of `MemoServCore`.** These run the unread check on
  identify, on return from away and on nick update. On a channel join they
  report the channel's memo count.

Files:

- `memo_types.dfy` (module `MemoTypes`) holds the records:
  - memos;
  - mailboxes (`MemoInfo`);
  - accounts (`NickCore`);
  - channels (`ChannelInfo`);
  - online users;
  - the closed `MemoResult` enumeration;
  - the events the service emits.
- `memo_spec.dfy` (module `MemoSpec`) holds the pure specification and the
  lemmas about it:
  - the send gate;
  - the append;
  - the pacing stamp;
  - the fan-out;
  - the unread check;
  - the join count.
- `memoserv.dfy` (module `MemoServ`) holds two classes:
  - `MyMemoServService` keeps the mailbox maps and user records as fields that
    `Send` reassigns;
  - `MemoServCore` holds the hooks.

  It also has the two fan-out loops.

The output is modelled as a returned sequence of events, so nothing sent to
the network is hidden:
- notices (recipient and what they report);
- mail requests (account, sender, 1-based index, text);
- the `OnMemoSend` hook call.

The current time is a parameter of `Send`. The configured `MSSendDelay` is a
constant field of the service.

The model follows the code on two points where a reader might expect otherwise:
- A nick alias always has an account in the code (`na->nc` is dereferenced
  without a check). The model states this as part of the service's `Valid()`
  invariant, not as a lookup that can miss. The same invariant says that
  every nick an account lists is an alias of that account, and that an
  identified user is logged in to an account.
- On a nick target, the code notifies any identified user who is using one of
  the account's nicks. It does not check that the user is identified to that
  account, and the model does the same.

## Model

| member | source | states |
|---|---|---|
| MemoServ.MyMemoServService.GetMemoInfo | modules/pseudoclients/memoserv.cpp:42-60 | `ischan` holds exactly when the target starts with `#`. A channel mailbox is returned exactly for a `#` name that is a registered channel, and it is that channel's own. An account mailbox is returned exactly for a non-`#` name that is a registered alias, and it is the alias's account. Otherwise nothing is returned; it reads state only |
| MemoSpec.SendGate | modules/pseudoclients/memoserv.cpp:70-81 | An unrestricted sender (offline, no-limit privilege, or forced) always passes. The rate check is strict: a send exactly at `lastmemosend + delay` passes it. Only the rate check reports TooFast, and a delay of 0 or less never does. A closed or full mailbox stops a sender that is not too fast with TargetFull, and only such a mailbox does. A restricted store leaves room for the new memo (size + 1 <= memomax). An ignored restricted sender is never stored and is told success. A restricted sender that passes all four checks is stored. The gate never reports InvalidTarget |
| MemoSpec.Deliver | modules/pseudoclients/memoserv.cpp:86-92 | The mailbox grows by exactly one. Every earlier memo, the limit and the ignore list are unchanged, and the new memo is last |
| MemoSpec.Stamp | modules/pseudoclients/memoserv.cpp:83-84 | If the sender is online, its `lastmemosend` becomes `now` and nothing else about it changes. Every other user is unchanged, and nobody is added or removed |
| MemoSpec.PacingAfterStore | modules/pseudoclients/memoserv.cpp:73-84 | After a stored send at `now`, the same restricted sender is TooFast strictly before `now + delay` and passes the rate check from `now + delay` on |
| MemoSpec.CountUnreadIsUnreadIndices | modules/pseudoclients/memoserv.cpp:145-148 | The loop's count of unread memos equals the number of positions whose memo is unread, and it is at most the mailbox size |
| MemoSpec.DeliverAddsOneUnread | modules/pseudoclients/memoserv.cpp:86-92 | Storing an unread memo raises the unread count by exactly one |
| MemoSpec.ChannelNoticesExact | modules/pseudoclients/memoserv.cpp:100-112 | Channel notices go only to roster members with the MEMO privilege whose account has memo notices on, and every such member gets one. Each notice reports the channel and the new size. There are at most as many notices as roster entries, and none is a mail request |
| MemoSpec.AliasNoticeSound | modules/pseudoclients/memoserv.cpp:118-129 | Every nick-target notice goes to an identified online user of one of the account's nicks and reports the sender and the new size |
| MemoSpec.AliasNoticesComplete | modules/pseudoclients/memoserv.cpp:118-129 | Every identified online user of one of the account's nicks gets a notice |
| MemoSpec.AliasNoticesNoMail | modules/pseudoclients/memoserv.cpp:120-128 | The nick loop emits at most as many notices as the account has nick entries, and no mail request |
| MemoSpec.NickFanOutMailOnce | modules/pseudoclients/memoserv.cpp:131-133 | A nick-target send requests mail exactly once when the account has memo mail on, and never otherwise, however many users were notified |
| MemoSpec.NickFanOutMailContent | modules/pseudoclients/memoserv.cpp:17-34 | The mail request names the account, the sender and the text. It carries the new memo's 1-based index, which is the new mailbox size |
| MemoSpec.NickFanOutNotices | modules/pseudoclients/memoserv.cpp:116-129 | Nick-target notices are sent only when the account has memo notices on, and only to identified online users of its nicks. With memo notices on, every such user gets one |
| MemoSpec.MailIndexNamesNewMemo | modules/pseudoclients/memoserv.cpp:131-133 | The mail request emitted for a memo to an account is addressed to that account, and its 1-based index is a valid position in the new mailbox holding the memo just stored |
| MemoSpec.UnreadSummary | modules/pseudoclients/memoserv.cpp:145-150 | At most one summary is sent, and only when some memo is unread. It reports the number of unread memos |
| MemoSpec.CapacityWarning | modules/pseudoclients/memoserv.cpp:151-157 | At most one warning is sent, exactly when a positive limit is reached or exceeded. It says "over" exactly when the size exceeds the limit and "reached" exactly when it equals the limit |
| MemoSpec.UnreadCheck | modules/pseudoclients/memoserv.cpp:139-157 | The check sends nothing to a user with no account. Otherwise it sends at most two notices, all addressed to that user |
| MemoSpec.JoinNotice | modules/pseudoclients/memoserv.cpp:196-202 | A join yields at most one notice. It is sent exactly when the channel is registered, the user has the MEMO privilege and the mailbox is not empty. It counts all memos, read or unread, so it is never below the unread count |
| MemoServ.NotifyChannel | modules/pseudoclients/memoserv.cpp:100-112 | The loop over the live channel's members emits exactly the channel notices specified by ChannelNotices |
| MemoServ.NotifyAliases | modules/pseudoclients/memoserv.cpp:118-129 | The loop over the account's nicks emits exactly the notices specified by AliasNotices |
| MemoServ.MyMemoServService.Deposit | modules/pseudoclients/memoserv.cpp:86-87 | Only the resolved mailbox is replaced. The users, the aliases and every other channel and account stay as they were, and the invariant is kept |
| MemoServ.MyMemoServService.FanOut | modules/pseudoclients/memoserv.cpp:96-134 | The notifications after a store are the channel branch or the nick branch, chosen by `ischan` |
| MemoServ.MyMemoServService.Send | modules/pseudoclients/memoserv.cpp:62-137 | An unresolvable target gives InvalidTarget and changes and emits nothing. A send the gate stops returns the gate's result and changes and emits nothing. A stored send returns Success and stamps only the sender. It appends `Memo(target, source, now, message, unread)` to the target mailbox alone. It emits the OnMemoSend hook followed by the fan-out for the new size, and it keeps the invariant |
| MemoServ.MyMemoServService.Check | modules/pseudoclients/memoserv.cpp:139-158 | The counting loop computes the unread count. The check sends nothing without an account, and otherwise the unread summary followed by the capacity warning |
| MemoServ.MemoServCore.OnNickIdentify | modules/pseudoclients/memoserv.cpp:189-192 | Identifying runs the unread check |
| MemoServ.MemoServCore.OnJoinChannel | modules/pseudoclients/memoserv.cpp:194-203 | Joining a channel yields the join notice, and nothing for an unregistered channel |
| MemoServ.MemoServCore.OnUserAway | modules/pseudoclients/memoserv.cpp:205-209 | Setting an away message sends nothing. Clearing it runs the unread check |
| MemoServ.MemoServCore.OnNickUpdate | modules/pseudoclients/memoserv.cpp:211-214 | A nick update runs the unread check |

## Left out

- Help text: `OnPreHelp` and `OnPostHelp` (lines 216-239) only print text.
- Module wiring: the module constructor and destructor, `OnBotDelete` and the global `MemoServ` bot pointer. These are registration and global state.
- The body of `SendMemoMail` is not modelled: template translation, `%n`/`%s`/`%d`/`%t`/`%N` substitution and the mail transport. Only a mail-request event is kept, carrying the account, sender, index and text. `Send` ignores the transport's result anyway.
- Message wording is not modelled: singular or plural phrasing, `UseStrictPrivMsgString`, and the bot the notices come from. A notice records its recipient and what it reports.
- `FOREACH_MOD(I_OnMemoSend, ...)` becomes one hook event. The listeners are not part of this model.
- `HasIgnore` is modelled as exact membership of the sender's name in the mailbox's ignore set. The case-insensitive comparison, the account-name match and the host-mask match of the real ignore check are not modelled.
- Collaborators become plain data:
  - `AccessFor(user).HasPriv("MEMO")` is a per-channel set of nicks;
  - `IsIdentified()` is a field of the user record;
  - `HasPriv("memoserv/no-limit")` is a field of the user record;
  - `NI_MEMO_RECEIVE` and `NI_MEMO_MAIL` are fields of the account record.
- `User::Find` is modelled as lookup by nick only.
- Name lookups are exact-key lookups: `ChannelInfo::Find`, `NickAlias::Find` and `User::Find` become map lookups, and the case-insensitive matching of IRC names is not modelled. In the model a memo to `#Foo` finds only a channel registered as `#Foo`, and the channel notice names the channel by the target as given, which is then the registered name.
- Dead `Serialize::Reference` entries in an account's alias list (`if (!na) continue`) are not modelled. The alias list is a list of nicks.
- `time_t`, `unsigned` sizes and `memomax` are unbounded integers, so `lastmemosend + MSSendDelay` cannot overflow in the model.
- Heap allocation of the memo, its persistence and the order of a channel's user list are not modelled. The roster is given as a sequence and walked in that order.
