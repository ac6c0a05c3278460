/**
 * The notifications addon of the chat app. For each thread it remembers how
 * many counterpart messages there were the last time the agent sent or opened
 * that chat (`lastTotalMessages`, keyed by the thread's members joined with
 * " | "), and appends to the window one system note counting the unseen ones.
 */
module Notifications {
  import opened Common
  import opened Chat

  /** `members.join(" | ")`. */
  function ThreadKey(t: Thread): string {
    t.members.0 + " | " + t.members.1
  }

  /** `messages.filter(m => m.sender !== me).length`. */
  function CounterpartMessages(msgs: seq<ChatMessage>, me: string): (n: nat)
    ensures n <= |msgs|
  {
    if msgs == [] then 0
    else CounterpartMessages(msgs[..|msgs| - 1], me) + (if msgs[|msgs| - 1].sender != me then 1 else 0)
  }

  lemma CounterpartMessagesAppend(msgs: seq<ChatMessage>, m: ChatMessage, me: string)
    ensures CounterpartMessages(msgs + [m], me)
      == CounterpartMessages(msgs, me) + (if m.sender != me then 1 else 0)
  {
    assert (msgs + [m])[..|msgs|] == msgs;
  }

  /** Counterpart messages not yet seen; a thread never recorded counts from 0. */
  function Unseen(t: Thread, me: string, last: map<string, int>): int {
    CounterpartMessages(t.messages, me) - (if ThreadKey(t) in last then last[ThreadKey(t)] else 0)
  }

  function NoticeLine(t: Thread, n: int): string {
    "You have " + IntToString(n) + " new messages in the chat " + ThreadKey(t)
  }

  /**
   * One line per thread of `me` with unseen messages, in registry order: a
   * line is present exactly when some thread of `me` has that many unseen.
   */
  function NoticeLines(threads: seq<Thread>, me: string, last: map<string, int>): (lines: seq<string>)
    ensures |lines| <= |threads|
    ensures forall line :: line in lines <==>
      exists k :: 0 <= k < |threads| && HasMember(threads[k], me) && Unseen(threads[k], me, last) > 0
        && line == NoticeLine(threads[k], Unseen(threads[k], me, last))
  {
    if threads == [] then []
    else
      var rest := NoticeLines(threads[1..], me, last);
      assert forall k :: 1 <= k < |threads| ==> threads[k] == threads[1..][k - 1];
      var t := threads[0];
      if HasMember(t, me) && Unseen(t, me, last) > 0 then [NoticeLine(t, Unseen(t, me, last))] + rest else rest
  }

  /** Registry order is kept: the lines for a concatenation are the two lists one after the other. */
  lemma {:induction false} NoticeLinesAppend(a: seq<Thread>, b: seq<Thread>, me: string, last: map<string, int>)
    ensures NoticeLines(a + b, me, last) == NoticeLines(a, me, last) + NoticeLines(b, me, last)
  {
    if a == [] {
      assert a + b == b;
    } else {
      assert (a + b)[0] == a[0] && (a + b)[1..] == a[1..] + b;
      NoticeLinesAppend(a[1..], b, me, last);
    }
  }

  /** The window middleware: appends the note, keeping the messages and the callable functions. */
  function NotifyWindow(w: Window, last: map<string, int>, app: ChatState, threads: seq<Thread>): (r: Window)
    ensures !Present(app.userId) ==> r == w
    ensures Present(app.userId) ==>
      && r.availableFunctions == w.availableFunctions
      && |r.messages| == |w.messages| + 1
      && r.messages[..|w.messages|] == w.messages
      && r.messages[|w.messages|] == System(Join(NoticeLines(threads, app.userId.value, last), "\n"))
  {
    if !Present(app.userId) then w
    else
      var note := System(Join(NoticeLines(threads, app.userId.value, last), "\n"));
      assert (w.messages + [note])[..|w.messages|] == w.messages;
      Window(w.messages + [note], w.availableFunctions)
  }

  /** The thread the handler looks up: the one joining `userId` and `opennedChatId` (both must be set). */
  function OpenThread(app: ChatState, threads: seq<Thread>): Option<nat> {
    if app.userId.None? || app.opennedChatId.None? then None
    else FindThread(threads, app.userId.value, app.opennedChatId.value)
  }

  /** The button-press middleware: on `sendMessage` or `openChat`, record the open thread's count. */
  function NotifyPress(last: map<string, int>, app: ChatState, threads: seq<Thread>, call: Call): map<string, int> {
    if call.name == "sendMessage" || call.name == "openChat" then
      match OpenThread(app, threads)
      case None => last
      case Some(i) => last[ThreadKey(threads[i]) := CounterpartMessages(threads[i].messages, app.userId.value)]
    else last
  }

  /**
   * Only the open thread's key changes, to its current count of counterpart
   * messages; any other call, or no open thread, changes nothing.
   */
  lemma PressRecordsOpenThread(last: map<string, int>, app: ChatState, threads: seq<Thread>, call: Call)
    ensures var last' := NotifyPress(last, app, threads, call);
      if (call.name == "sendMessage" || call.name == "openChat") && OpenThread(app, threads).Some? then
        var t := threads[OpenThread(app, threads).value];
        && last'.Keys == last.Keys + {ThreadKey(t)}
        && last'[ThreadKey(t)] == CounterpartMessages(t.messages, app.userId.value)
        && forall key :: key in last && key != ThreadKey(t) ==> last'[key] == last[key]
      else last' == last
  {
  }

  /**
   * Once a thread's count is recorded it produces no notice; a new message from
   * the counterpart makes it produce exactly one unseen, and the agent's own
   * message none.
   */
  lemma NoRenotify(last: map<string, int>, app: ChatState, threads: seq<Thread>, call: Call, m: ChatMessage)
    requires call.name == "sendMessage" || call.name == "openChat"
    requires OpenThread(app, threads).Some?
    ensures var i := OpenThread(app, threads).value;
      var me := app.userId.value;
      var last' := NotifyPress(last, app, threads, call);
      && Unseen(threads[i], me, last') == 0
      && Unseen(threads[i].(messages := threads[i].messages + [m]), me, last') == (if m.sender != me then 1 else 0)
  {
    var i := OpenThread(app, threads).value;
    CounterpartMessagesAppend(threads[i].messages, m, app.userId.value);
  }

  /**
   * The notification half of a message exchange: when `peer` has caught up on
   * the thread and `me` sends a message, `peer`'s notes announce exactly one new message there.
   */
  lemma SendNotifiesPeer(s: ChatState, threads: seq<Thread>, call: Call, peerLast: map<string, int>, i: nat)
    requires ValidChatCall(call) && call.name == "sendMessage"
    requires Present(s.userId) && Present(s.opennedChatId) && s.userId != s.opennedChatId
    requires FindThread(threads, s.userId.value, s.opennedChatId.value) == Some(i)
    requires ThreadKey(threads[i]) in peerLast
      && peerLast[ThreadKey(threads[i])] == CounterpartMessages(threads[i].messages, s.opennedChatId.value)
    ensures var o := ChatPress(s, threads, call);
      NoticeLine(o.threads[i], 1) in NoticeLines(o.threads, s.opennedChatId.value, peerLast)
  {
    var me, peer := s.userId.value, s.opennedChatId.value;
    var m := ChatMessage(me, call.args["message"].s);
    FindThreadSymmetric(threads, me, peer);
    var o := ChatPress(s, threads, call);
    assert o.threads == AppendAt(threads, i, m);
    CounterpartMessagesAppend(threads[i].messages, m, peer);
    assert Unseen(o.threads[i], peer, peerLast) == 1;
    assert HasMember(o.threads[i], peer);
  }

  /**
   * The base-prompt middleware as written: it reads `lastTotalMessages[key]`
   * with no default, so a thread never recorded yields `NaN` and no line.
   */
  function NotifyPrompt(prompt: string, last: map<string, int>, app: ChatState, threads: seq<Thread>): string {
    if !Present(app.userId) then prompt
    else prompt + "\n" + Join(RecordedLines(threads, app.userId.value, last), "\n")
  }

  function RecordedLines(threads: seq<Thread>, me: string, last: map<string, int>): (lines: seq<string>)
    ensures |lines| <= |threads|
    ensures forall line :: line in lines <==>
      exists k :: 0 <= k < |threads| && HasMember(threads[k], me) && ThreadKey(threads[k]) in last
        && Unseen(threads[k], me, last) > 0 && line == NoticeLine(threads[k], Unseen(threads[k], me, last))
  {
    if threads == [] then []
    else
      var rest := RecordedLines(threads[1..], me, last);
      assert forall k :: 1 <= k < |threads| ==> threads[k] == threads[1..][k - 1];
      var t := threads[0];
      if HasMember(t, me) && ThreadKey(t) in last && Unseen(t, me, last) > 0
      then [NoticeLine(t, Unseen(t, me, last))] + rest else rest
  }

  /** Once every chat of the agent has been opened, the base prompt lists exactly the window note's lines. */
  lemma {:induction false} RecordedWhenAllOpened(threads: seq<Thread>, me: string, last: map<string, int>)
    requires forall k :: 0 <= k < |threads| && HasMember(threads[k], me) ==> ThreadKey(threads[k]) in last
    ensures RecordedLines(threads, me, last) == NoticeLines(threads, me, last)
  {
    if threads != [] {
      assert forall k :: 1 <= k < |threads| ==> threads[k] == threads[1..][k - 1];
      RecordedWhenAllOpened(threads[1..], me, last);
    }
  }

  /**
   * The discrepancy: before the agent has ever opened a chat, a counterpart's
   * message is announced in the window note but not in the base prompt.
   */
  lemma PromptMissesUnrecordedThread(me: string, peer: string, text: string)
    requires me != "" && me != peer
    ensures var threads := [Thread((me, peer), [ChatMessage(peer, text)])];
      var app := ChatState(None, Some(me), "", None, []);
      && NotifyPrompt("p", map[], app, threads) == "p\n"
      && NotifyWindow(Window([], []), map[], app, threads).messages
         == [System("You have " + "1" + " new messages in the chat " + me + " | " + peer)]
  {
    var threads := [Thread((me, peer), [ChatMessage(peer, text)])];
    var app := ChatState(None, Some(me), "", None, []);
    assert CounterpartMessages(threads[0].messages, me) == 1 by {
      assert threads[0].messages[..0] == [];
    }
    assert threads[1..] == [];
    assert RecordedLines(threads, me, map[]) == [];
    assert IntToString(1) == "1";
    assert NoticeLines(threads, me, map[]) == [NoticeLine(threads[0], 1)];
    assert Join([NoticeLine(threads[0], 1)], "\n") == NoticeLine(threads[0], 1);
    assert NoticeLine(threads[0], 1) == "You have " + "1" + " new messages in the chat " + me + " | " + peer;
    var w := NotifyWindow(Window([], []), map[], app, threads);
    assert |w.messages| == 1 && w.messages[0] == System(NoticeLine(threads[0], 1));
  }

  /** The base-prompt middleware as evidently intended: the same lines as the window note. */
  function NotifyPromptIntended(prompt: string, last: map<string, int>, app: ChatState, threads: seq<Thread>): (r: string)
    ensures !Present(app.userId) ==> r == prompt
    ensures Present(app.userId) ==>
      r == prompt + "\n" + NotifyWindow(Window([], []), last, app, threads).messages[0].content
  {
    if !Present(app.userId) then prompt
    else prompt + "\n" + Join(NoticeLines(threads, app.userId.value, last), "\n")
  }

  /** The addon's own state, updated in place by its button-press middleware. */
  class NotificationsAddon {
    var lastTotalMessages: map<string, int>

    constructor ()
      ensures lastTotalMessages == map[]
    {
      lastTotalMessages := map[];
    }

    method PressButton(app: ChatState, threads: seq<Thread>, call: Call)
      modifies this
      ensures lastTotalMessages == NotifyPress(old(lastTotalMessages), app, threads, call)
    {
      if call.name == "sendMessage" || call.name == "openChat" {
        var found := OpenThread(app, threads);
        if found.Some? {
          var t := threads[found.value];
          lastTotalMessages := lastTotalMessages[ThreadKey(t) := CounterpartMessages(t.messages, app.userId.value)];
        }
      }
    }
  }
}
