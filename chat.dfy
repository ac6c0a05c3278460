/**
 * The chat app and the shared mailbox. The mailbox is one process-wide list of
 * two-member threads; every agent's chat app reads it to build its window and
 * appends to it when the agent sends a message. An agent may only send when the
 * thread is empty or its last message came from the counterpart (turn-taking).
 */
module Chat {
  import opened Common

  datatype ChatMessage = ChatMessage(sender: string, content: string)

  datatype Thread = Thread(members: (string, string), messages: seq<ChatMessage>)

  /** `thread.members.includes(id)`. */
  predicate HasMember(t: Thread, id: string) {
    t.members.0 == id || t.members.1 == id
  }

  /** Both identifiers are members of the thread. */
  predicate Joins(t: Thread, a: string, b: string) {
    HasMember(t, a) && HasMember(t, b)
  }

  /** The registry as the process starts. */
  function InitialThreads(): seq<Thread> {
    [Thread(("Market Expert", "CEO"), []), Thread(("CEO", "CMO"), [])]
  }

  /** `threads.find(t => t.members.includes(a) && t.members.includes(b))`, as an index. */
  function FindThread(threads: seq<Thread>, a: string, b: string): (r: Option<nat>)
    ensures r.Some? ==> r.value < |threads| && Joins(threads[r.value], a, b)
    ensures r.Some? ==> forall k :: 0 <= k < r.value ==> !Joins(threads[k], a, b)
    ensures r.None? ==> forall k :: 0 <= k < |threads| ==> !Joins(threads[k], a, b)
  {
    FindFrom(threads, a, b, 0)
  }

  function FindFrom(threads: seq<Thread>, a: string, b: string, from: nat): (r: Option<nat>)
    requires from <= |threads|
    requires forall k :: 0 <= k < from ==> !Joins(threads[k], a, b)
    ensures r.Some? ==> from <= r.value < |threads| && Joins(threads[r.value], a, b)
    ensures r.Some? ==> forall k :: 0 <= k < r.value ==> !Joins(threads[k], a, b)
    ensures r.None? ==> forall k :: 0 <= k < |threads| ==> !Joins(threads[k], a, b)
    decreases |threads| - from
  {
    if from == |threads| then None
    else if Joins(threads[from], a, b) then Some(from)
    else FindFrom(threads, a, b, from + 1)
  }

  /** Looking a thread up depends only on its members, and on them symmetrically. */
  lemma FindThreadSymmetric(threads: seq<Thread>, a: string, b: string)
    ensures FindThread(threads, a, b) == FindThread(threads, b, a)
  {
    var r, r' := FindThread(threads, a, b), FindThread(threads, b, a);
    if r.Some? && r'.Some? {
      assert !(r.value < r'.value) && !(r'.value < r.value);
    }
  }

  /** `members.find(m => m !== id)`: the other member, if any differs from `id`. */
  function Counterpart(t: Thread, id: string): Option<string> {
    if t.members.0 != id then Some(t.members.0)
    else if t.members.1 != id then Some(t.members.1)
    else None
  }

  /**
   * The users offered in the chat list: the counterpart of `id` in each thread
   * that contains `id`, in registry order.
   */
  function Counterparts(threads: seq<Thread>, id: string): (users: seq<string>)
    ensures forall u :: u in users <==>
      exists k :: 0 <= k < |threads| && HasMember(threads[k], id) && Counterpart(threads[k], id) == Some(u)
    ensures |users| <= |threads|
  {
    if threads == [] then []
    else
      var rest := Counterparts(threads[1..], id);
      assert forall k :: 1 <= k < |threads| ==> threads[k] == threads[1..][k - 1];
      var t := threads[0];
      if HasMember(t, id) && Counterpart(t, id).Some? then [Counterpart(t, id).value] + rest else rest
  }

  /** Registry order is kept: the list for a concatenation is the two lists one after the other. */
  lemma {:induction false} CounterpartsAppend(a: seq<Thread>, b: seq<Thread>, id: string)
    ensures Counterparts(a + b, id) == Counterparts(a, id) + Counterparts(b, id)
  {
    if a == [] {
      assert a + b == b;
    } else {
      assert (a + b)[0] == a[0] && (a + b)[1..] == a[1..] + b;
      CounterpartsAppend(a[1..], b, id);
    }
  }

  /** The app's state: `opennedChatId`, `userId`, `reasoning`, `lastAction`, `allowedChats`. */
  datatype ChatState = ChatState(
    opennedChatId: Option<string>,
    userId: Option<string>,
    reasoning: string,
    lastAction: Option<string>,
    allowedChats: seq<string>)

  /** The function schemas the app declares (`sendMessage`, `openChat`, `openChatList`). */
  function ChatSchemas(s: ChatState): (fs: seq<FunctionSchema>)
    ensures |fs| == 3 && fs[0].name == "sendMessage" && fs[1].name == "openChat" && fs[2].name == "openChatList"
    ensures fs[0].parameters.required == ["message"] && "message" in fs[0].parameters.properties
    ensures fs[1].parameters.required == ["chatId"] && "chatId" in fs[1].parameters.properties
    ensures var chatId := fs[1].parameters.properties["chatId"];
      chatId.JObj? && "enum" in chatId.fields && chatId.fields["enum"].JArr?
      && |chatId.fields["enum"].items| == |s.allowedChats|
      && forall k :: 0 <= k < |s.allowedChats| ==> chatId.fields["enum"].items[k] == JStr(s.allowedChats[k])
    ensures fs[2].parameters.required == [] && fs[2].parameters.properties == map[]
  {
    var obj := map["type" := JStr("object")];
    var names := seq(|s.allowedChats|, k requires 0 <= k < |s.allowedChats| => JStr(s.allowedChats[k]));
    [ FunctionSchema("sendMessage", "Send message to chat",
        ParamSchema(map["message" := JObj(map["type" := JStr("string")])], ["message"], obj)),
      FunctionSchema("openChat", "Open chat with user",
        ParamSchema(map["chatId" := JObj(map["type" := JStr("string"), "enum" := JArr(names)])], ["chatId"], obj)),
      FunctionSchema("openChatList", "Open chat list", ParamSchema(map[], [], obj)) ]
  }

  function ReasoningNote(s: ChatState): seq<Message> {
    if |s.reasoning| > 0 then [System("Your reasoning:\n" + s.reasoning)] else []
  }

  /** A thread as the agent `me` sees it: its own messages as `assistant`, the others as `user`. */
  function ThreadView(msgs: seq<ChatMessage>, me: string): (view: seq<Message>)
    ensures |view| == |msgs|
    ensures forall k :: 0 <= k < |msgs| ==>
      view[k].content == msgs[k].content && (view[k].role == "assistant" <==> msgs[k].sender == me)
      && view[k].role in {"assistant", "user"}
  {
    seq(|msgs|, k requires 0 <= k < |msgs| =>
      Message(if msgs[k].sender == me then "assistant" else "user", msgs[k].content))
  }

  /** `me` may write to the thread: it is empty or its last message is not `me`'s. */
  predicate MayWrite(t: Thread, me: string) {
    t.messages == [] || t.messages[|t.messages| - 1].sender != me
  }

  const CannotSend := "SYSTEM MESSAGE: You cannot send a message until the user responds"

  /** The window generator of the chat app. */
  function ChatWindow(s: ChatState, threads: seq<Thread>): Window
    decreases s.opennedChatId.Some?
  {
    if !Present(s.userId) then
      Window([System("You are not authorized")], [])
    else if !Present(s.opennedChatId) then
      var users := Counterparts(threads, s.userId.value);
      Window(ReasoningNote(s) + [System("List of available users to chat with:\n" + Join(users, ", "))], ["openChat"])
    else
      match FindThread(threads, s.userId.value, s.opennedChatId.value)
      case None => ChatWindow(s.(opennedChatId := None), threads)
      case Some(i) =>
        var me := s.userId.value;
        var allow := MayWrite(threads[i], me);
        Window(
          ReasoningNote(s) + [System("You have an open chat with " + s.opennedChatId.value)]
            + ThreadView(threads[i].messages, me) + (if allow then [] else [System(CannotSend)]),
          ["openChatList"] + (if allow then ["sendMessage"] else []))
  }

  /** Without a user the window is the single refusal and nothing is callable. */
  lemma UnauthorizedWindow(s: ChatState, threads: seq<Thread>)
    requires !Present(s.userId)
    ensures ChatWindow(s, threads).messages == [System("You are not authorized")]
    ensures ChatWindow(s, threads).availableFunctions == []
  {
  }

  /**
   * With no chat open, or an open chat that names no thread shared with the
   * user, the window is the chat list: only `openChat` is callable and its last
   * message lists exactly the user's counterparts.
   */
  lemma ChatListWindow(s: ChatState, threads: seq<Thread>)
    requires Present(s.userId)
    requires !Present(s.opennedChatId) || FindThread(threads, s.userId.value, s.opennedChatId.value).None?
    ensures var w := ChatWindow(s, threads);
      w == ChatWindow(s.(opennedChatId := None), threads)
      && w.availableFunctions == ["openChat"]
      && w.messages == ReasoningNote(s)
        + [System("List of available users to chat with:\n" + Join(Counterparts(threads, s.userId.value), ", "))]
  {
  }

  /**
   * Turn-taking: `sendMessage` is offered exactly when a user is signed in, a
   * chat is open on a thread shared with that user, and the thread's last
   * message (if any) was not the user's own. `openChatList` is offered in every
   * open chat.
   */
  lemma TurnTaking(s: ChatState, threads: seq<Thread>)
    ensures var w := ChatWindow(s, threads);
      "sendMessage" in w.availableFunctions <==>
        Present(s.userId) && Present(s.opennedChatId)
        && match FindThread(threads, s.userId.value, s.opennedChatId.value)
           case None => false
           case Some(i) => MayWrite(threads[i], s.userId.value)
    ensures (Present(s.userId) && Present(s.opennedChatId)
      && FindThread(threads, s.userId.value, s.opennedChatId.value).Some?) ==>
      "openChatList" in ChatWindow(s, threads).availableFunctions
  {
  }

  /**
   * In an open chat the thread's messages appear in order right after the
   * header line, each with its content and the role that says who wrote it.
   */
  lemma OpenChatShowsThread(s: ChatState, threads: seq<Thread>, i: nat)
    requires Present(s.userId) && Present(s.opennedChatId)
    requires FindThread(threads, s.userId.value, s.opennedChatId.value) == Some(i)
    ensures var w := ChatWindow(s, threads);
      var head := |ReasoningNote(s)| + 1;
      var msgs := threads[i].messages;
      |w.messages| >= head + |msgs|
      && w.messages[head - 1] == System("You have an open chat with " + s.opennedChatId.value)
      && forall k :: 0 <= k < |msgs| ==>
           w.messages[head + k].content == msgs[k].content
           && (w.messages[head + k].role == "assistant" <==> msgs[k].sender == s.userId.value)
  {
    var w := ChatWindow(s, threads);
    var head := |ReasoningNote(s)| + 1;
    var view := ThreadView(threads[i].messages, s.userId.value);
    assert w.messages[head..head + |view|] == view;
  }

  /** The base prompt names the open chat, and is empty exactly when none is open. */
  function ChatBasePrompt(s: ChatState): (prompt: string)
    ensures prompt == "" <==> s.opennedChatId.None?
    ensures s.opennedChatId.Some? ==> prompt == "You have an open chat with " + s.opennedChatId.value
  {
    if s.opennedChatId.Some? then "You have an open chat with " + s.opennedChatId.value else ""
  }

  /** The arguments the schemas guarantee a call carries once validated. */
  predicate ValidChatCall(call: Call) {
    && (call.name == "sendMessage" ==> "message" in call.args && call.args["message"].JStr?)
    && (call.name == "openChat" ==> "chatId" in call.args && call.args["chatId"].JStr?)
  }

  /** Append `m` to the end of thread `i`. */
  function AppendAt(threads: seq<Thread>, i: nat, m: ChatMessage): seq<Thread>
    requires i < |threads|
  {
    threads[i := threads[i].(messages := threads[i].messages + [m])]
  }

  /** What one button press does to the app state and the mailbox; `threw` when the handler throws. */
  datatype ChatOutcome = ChatOutcome(state: ChatState, threads: seq<Thread>, threw: bool)

  /** The button-press handler of the chat app. */
  function ChatPress(s: ChatState, threads: seq<Thread>, call: Call): ChatOutcome
    requires ValidChatCall(call)
  {
    var s1 := s.(lastAction := Some(call.name));
    if call.name == "sendMessage" then
      if !Present(s.opennedChatId) then ChatOutcome(s1, threads, false)
      else if s.userId.None? then ChatOutcome(s1, threads, true)
      else match FindThread(threads, s.opennedChatId.value, s.userId.value)
        case None => ChatOutcome(s1, threads, true)
        case Some(i) =>
          ChatOutcome(s1, AppendAt(threads, i, ChatMessage(s.userId.value, call.args["message"].s)), false)
    else if call.name == "openChat" then ChatOutcome(s1.(opennedChatId := Some(call.args["chatId"].s)), threads, false)
    else if call.name == "openChatList" then ChatOutcome(s1.(opennedChatId := None), threads, false)
    else ChatOutcome(s1, threads, false)
  }

  /**
   * Every press records its name as `lastAction`; `openChat` opens the named
   * chat, `openChatList` closes it, and no other call changes the open chat.
   */
  lemma PressRecordsAction(s: ChatState, threads: seq<Thread>, call: Call)
    requires ValidChatCall(call)
    ensures var o := ChatPress(s, threads, call);
      o.state.lastAction == Some(call.name)
      && o.state.userId == s.userId && o.state.reasoning == s.reasoning && o.state.allowedChats == s.allowedChats
      && o.state.opennedChatId ==
        (if call.name == "openChat" then Some(call.args["chatId"].s)
         else if call.name == "openChatList" then None
         else s.opennedChatId)
    ensures call.name != "sendMessage" ==> ChatPress(s, threads, call).threads == threads
  {
  }

  /**
   * Sending in an open chat appends exactly one message from the user to the
   * end of the shared thread and leaves every other thread as it was. Without
   * an open chat the mailbox is untouched; with no shared thread the handler throws.
   */
  lemma SendAppendsOne(s: ChatState, threads: seq<Thread>, call: Call)
    requires ValidChatCall(call) && call.name == "sendMessage"
    ensures var o := ChatPress(s, threads, call);
      !Present(s.opennedChatId) ==> !o.threw && o.threads == threads
    ensures var o := ChatPress(s, threads, call);
      Present(s.opennedChatId) && s.userId.Some? && FindThread(threads, s.userId.value, s.opennedChatId.value).Some? ==>
        var i := FindThread(threads, s.userId.value, s.opennedChatId.value).value;
        && !o.threw
        && |o.threads| == |threads|
        && o.threads[i].members == threads[i].members
        && o.threads[i].messages == threads[i].messages + [ChatMessage(s.userId.value, call.args["message"].s)]
        && forall j :: 0 <= j < |threads| && j != i ==> o.threads[j] == threads[j]
    ensures var o := ChatPress(s, threads, call);
      o.threw <==> (Present(s.opennedChatId)
        && (s.userId.None? || FindThread(threads, s.userId.value, s.opennedChatId.value).None?))
  {
    if Present(s.opennedChatId) && s.userId.Some? {
      FindThreadSymmetric(threads, s.userId.value, s.opennedChatId.value);
    }
  }

  /** Appending a message leaves every thread's members, hence every lookup, unchanged. */
  lemma FindAfterAppend(threads: seq<Thread>, i: nat, m: ChatMessage, a: string, b: string)
    requires i < |threads|
    ensures FindThread(AppendAt(threads, i, m), a, b) == FindThread(threads, a, b)
  {
    var t' := AppendAt(threads, i, m);
    assert forall k :: 0 <= k < |threads| ==> (Joins(t'[k], a, b) <==> Joins(threads[k], a, b));
    var r, r' := FindThread(threads, a, b), FindThread(t', a, b);
    if r.Some? && r'.Some? {
      assert !(r.value < r'.value) && !(r'.value < r.value);
    }
  }

  /**
   * After `me` sends in a chat with `peer`, `me` may not send again, while
   * `peer`, with the chat open on `me`, sees the message last and may reply.
   */
  lemma SendPassesTurn(s: ChatState, peerState: ChatState, threads: seq<Thread>, call: Call)
    requires ValidChatCall(call) && call.name == "sendMessage"
    requires Present(s.userId) && Present(s.opennedChatId)
    requires FindThread(threads, s.userId.value, s.opennedChatId.value).Some?
    requires peerState.userId == s.opennedChatId && peerState.opennedChatId == s.userId
    requires s.userId != s.opennedChatId
    ensures var o := ChatPress(s, threads, call);
      && "sendMessage" !in ChatWindow(o.state, o.threads).availableFunctions
      && "sendMessage" in ChatWindow(peerState, o.threads).availableFunctions
  {
    var me, peer := s.userId.value, s.opennedChatId.value;
    var i := FindThread(threads, me, peer).value;
    var o := ChatPress(s, threads, call);
    var m := ChatMessage(me, call.args["message"].s);
    FindThreadSymmetric(threads, me, peer);
    assert o.threads == AppendAt(threads, i, m);
    FindAfterAppend(threads, i, m, me, peer);
    FindAfterAppend(threads, i, m, peer, me);
    FindThreadSymmetric(threads, peer, me);
    TurnTaking(o.state, o.threads);
    TurnTaking(peerState, o.threads);
  }

  /** The process-wide mailbox (`chats`), shared by every agent's chat app. */
  class Mailbox {
    var threads: seq<Thread>

    constructor ()
      ensures threads == InitialThreads()
    {
      threads := InitialThreads();
    }
  }

  /** One agent's chat app; its fields are the state the handler updates in place. */
  class ChatApp {
    var opennedChatId: Option<string>
    var userId: Option<string>
    var reasoning: string
    var lastAction: Option<string>
    var allowedChats: seq<string>

    function State(): ChatState
      reads this
    {
      ChatState(opennedChatId, userId, reasoning, lastAction, allowedChats)
    }

    /** The initial state, with `userId` and `allowedChats` given by the agent's setup. */
    constructor (user: string, allowed: seq<string>)
      ensures State() == ChatState(None, Some(user), "", None, allowed)
    {
      opennedChatId, userId, reasoning, lastAction, allowedChats := None, Some(user), "", None, allowed;
    }

    /** The button-press handler, updating the app state and the shared mailbox in place. */
    method PressButton(mailbox: Mailbox, call: Call) returns (threw: bool)
      requires ValidChatCall(call)
      modifies this, mailbox
      ensures ChatOutcome(State(), mailbox.threads, threw) == ChatPress(old(State()), old(mailbox.threads), call)
    {
      threw := false;
      lastAction := Some(call.name);
      if call.name == "sendMessage" {
        if !Present(opennedChatId) {
          return;
        }
        if userId.None? {
          threw := true;
          return;
        }
        var found := FindThread(mailbox.threads, opennedChatId.value, userId.value);
        if found.None? {
          threw := true;
          return;
        }
        var i := found.value;
        mailbox.threads := mailbox.threads[i := mailbox.threads[i].(messages :=
          mailbox.threads[i].messages + [ChatMessage(userId.value, call.args["message"].s)])];
        return;
      }
      if call.name == "openChat" {
        opennedChatId := Some(call.args["chatId"].s);
      }
      if call.name == "openChatList" {
        opennedChatId := None;
      }
    }
  }
}
