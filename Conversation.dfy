/** The conversation page: the turn engine that asks the external model for the
    next line, and the user's operations on the dialogue history (injecting an
    event, deleting, editing and adding messages, pausing and resuming).

    The page is a class whose fields are the page's state. `State()` gives a
    snapshot of those fields as a value; every handler states its effect as an
    update of the old snapshot, and one engine step is specified by the pure
    function `TickStep`, about which the lemmas below are proved. */
module Conversation {
  import opened Types

  /** Whose line the engine generates next. */
  datatype Turn = A | B

  function Flip(t: Turn): (r: Turn)
    ensures r != t
  {
    if t == A then B else A
  }

  /** The outcome of the one external call a step makes: the generated text, or a
      failure carrying the thrown error's message (`None` when what was thrown is
      not an `Error`). */
  datatype Reply = Success(text: string) | Failure(detail: Option<string>)

  /** What setting up the two chat sessions with the external client yields. */
  datatype ChatInit =
    | NoClient      // no API key: no client, the key banner is shown
    | Created       // both sessions exist
    | CreateFailed  // the client threw while creating a session

  const StartNotice: string := "對話開始。"
  const EmptyHistoryNotice: string := "對話紀錄為空，無法繼續。對話已暫停。"
  const ApiErrorPrefix: string := "發生 API 錯誤。對話已暫停。詳細資訊： "
  const UnknownErrorDetail: string := "未知錯誤"
  const EventOpen: string := "[事件："
  const EventClose: string := "]"
  const StatusRunning: string := "進行中"
  const StatusEditing: string := "編輯中"
  const StatusPaused: string := "已暫停"

  /** The notice appended when the external call fails. */
  function ApiErrorText(detail: Option<string>): string {
    ApiErrorPrefix + match detail { case Some(message) => message case None => UnknownErrorDetail }
  }

  /** The character whose turn it is. */
  function Speaker(t: Turn, a: CharacterProfile, b: CharacterProfile): CharacterProfile {
    if t == A then a else b
  }

  /** The character whose turn it is not: the one a generated line answers. */
  function Listener(t: Turn, a: CharacterProfile, b: CharacterProfile): CharacterProfile {
    if t == A then b else a
  }

  function Last(h: seq<ChatMessage>): ChatMessage
    requires h != []
  {
    h[|h| - 1]
  }

  /** The eligibility test of a step, with its three accepting branches as the page
      writes them. The first branch (a System line while the event box holds text)
      is subsumed by the third, so the test reduces to: the last line comes from
      System, or from the character whose turn it is not. */
  function MayReply(last: ChatMessage, systemEvent: string, turn: Turn,
                    a: CharacterProfile, b: CharacterProfile): (r: bool)
    ensures r <==> last.sender == SystemSender || last.sender == Listener(turn, a, b).name
  {
    if last.sender == SystemSender && systemEvent != "" then true
    else if last.sender != SystemSender && last.sender == Listener(turn, a, b).name then true
    else if last.sender == SystemSender then true
    else false
  }

  /** A snapshot of the page's state fields. */
  datatype ViewState = ViewState(
    conversation: seq<ChatMessage>,
    isConversing: bool,
    isLoading: bool,
    currentTurn: Turn,
    systemEvent: string,
    editing: Option<nat>,
    chatsReady: bool,
    apiKeyError: bool)

  /** The guard of a step: running, no request in flight, both sessions exist,
      no message open in the editor. */
  predicate CanAdvance(s: ViewState) {
    s.isConversing && !s.isLoading && s.chatsReady && s.editing.None?
  }

  /** A step passes its guard and the history ends with a line the current
      speaker is due to answer. */
  predicate ReplyDue(s: ViewState, a: CharacterProfile, b: CharacterProfile) {
    && CanAdvance(s)
    && s.conversation != []
    && (Last(s.conversation).sender == SystemSender
        || Last(s.conversation).sender == Listener(s.currentTurn, a, b).name)
  }

  /** One engine step, given the external reply it would receive. */
  function TickStep(s: ViewState, a: CharacterProfile, b: CharacterProfile, reply: Reply): (r: ViewState)
    // the guard: nothing changes
    ensures !CanAdvance(s) ==> r == s
    // every step that passes the guard ends with no request in flight and touches
    // neither the editor, the event box nor the session flags
    ensures CanAdvance(s) ==>
      && !r.isLoading
      && r.editing == s.editing && r.systemEvent == s.systemEvent
      && r.chatsReady == s.chatsReady && r.apiKeyError == s.apiKeyError
    // empty history: one System notice, and the run stops
    ensures CanAdvance(s) && s.conversation == [] ==>
      && r.conversation == [ChatMessage(SystemSender, EmptyHistoryNotice)]
      && !r.isConversing && r.currentTurn == s.currentTurn
    // not the current speaker's line to answer: a no-op
    ensures CanAdvance(s) && s.conversation != [] && !ReplyDue(s, a, b) ==> r == s
    // success: exactly the speaker's line is appended and the turn passes
    ensures ReplyDue(s, a, b) && reply.Success? ==>
      && r.conversation == s.conversation + [ChatMessage(Speaker(s.currentTurn, a, b).name, reply.text)]
      && r.currentTurn != s.currentTurn && r.isConversing
    // failure: one System notice, the run stops, the turn stays
    ensures ReplyDue(s, a, b) && reply.Failure? ==>
      && r.conversation == s.conversation + [ChatMessage(SystemSender, ApiErrorText(reply.detail))]
      && r.currentTurn == s.currentTurn && !r.isConversing
  {
    if !CanAdvance(s) then s
    else if s.conversation == [] then
      s.(conversation := s.conversation + [ChatMessage(SystemSender, EmptyHistoryNotice)],
         isConversing := false, isLoading := false)
    else if !MayReply(Last(s.conversation), s.systemEvent, s.currentTurn, a, b) then
      s.(isLoading := false)
    else
      match reply
      case Success(text) =>
        s.(conversation := s.conversation + [ChatMessage(Speaker(s.currentTurn, a, b).name, text)],
           currentTurn := Flip(s.currentTurn), isLoading := false)
      case Failure(detail) =>
        s.(conversation := s.conversation + [ChatMessage(SystemSender, ApiErrorText(detail))],
           isConversing := false, isLoading := false)
  }

  /** The state after one successful step per reply, in order. */
  function Successes(s: ViewState, a: CharacterProfile, b: CharacterProfile, replies: seq<string>): ViewState
    decreases |replies|
  {
    if replies == [] then s
    else Successes(TickStep(s, a, b, Success(replies[0])), a, b, replies[1..])
  }

  /** The lines the replies become when the speakers alternate starting with `t`. */
  function Dialogue(t: Turn, a: CharacterProfile, b: CharacterProfile, replies: seq<string>): seq<ChatMessage>
    decreases |replies|
  {
    if replies == [] then []
    else [ChatMessage(Speaker(t, a, b).name, replies[0])] + Dialogue(Flip(t), a, b, replies[1..])
  }

  /** Line `i` of a dialogue is spoken by the starting speaker when `i` is even and
      by the other character when `i` is odd. */
  lemma {:induction false} DialogueAlternates(t: Turn, a: CharacterProfile, b: CharacterProfile,
                                              replies: seq<string>, i: nat)
    requires i < |replies|
    ensures |Dialogue(t, a, b, replies)| == |replies|
    ensures Dialogue(t, a, b, replies)[i]
            == ChatMessage(Speaker(if i % 2 == 0 then t else Flip(t), a, b).name, replies[i])
    decreases |replies|
  {
    if i == 0 {
      if |replies| > 1 {
        DialogueAlternates(Flip(t), a, b, replies[1..], 0);
      }
    } else {
      DialogueAlternates(Flip(t), a, b, replies[1..], i - 1);
      assert Flip(Flip(t)) == t;
    }
  }

  /** A run of successful steps from a state where a reply is due appends exactly the
      alternating dialogue, keeps running, and leaves the turn flipped once per reply. */
  lemma {:induction false} SuccessesAlternate(s: ViewState, a: CharacterProfile, b: CharacterProfile,
                                              replies: seq<string>)
    requires ReplyDue(s, a, b)
    ensures Successes(s, a, b, replies).conversation
            == s.conversation + Dialogue(s.currentTurn, a, b, replies)
    ensures Successes(s, a, b, replies).currentTurn
            == if |replies| % 2 == 0 then s.currentTurn else Flip(s.currentTurn)
    ensures ReplyDue(Successes(s, a, b, replies), a, b)
    decreases |replies|
  {
    if replies != [] {
      var line := ChatMessage(Speaker(s.currentTurn, a, b).name, replies[0]);
      var next := TickStep(s, a, b, Success(replies[0]));
      assert next.conversation == s.conversation + [line];
      assert Last(next.conversation) == line;
      assert Listener(next.currentTurn, a, b) == Speaker(s.currentTurn, a, b);
      SuccessesAlternate(next, a, b, replies[1..]);
      assert Flip(Flip(s.currentTurn)) == s.currentTurn;
      calc {
        Successes(s, a, b, replies).conversation;
        next.conversation + Dialogue(next.currentTurn, a, b, replies[1..]);
        s.conversation + ([line] + Dialogue(Flip(s.currentTurn), a, b, replies[1..]));
        s.conversation + Dialogue(s.currentTurn, a, b, replies);
      }
    }
  }

  /** Two successful steps in a row hand the turn back to where it started. */
  lemma TwoRepliesRestoreTurn(s: ViewState, a: CharacterProfile, b: CharacterProfile, first: string, second: string)
    requires ReplyDue(s, a, b)
    ensures TickStep(TickStep(s, a, b, Success(first)), a, b, Success(second)).currentTurn == s.currentTurn
  {
    SuccessesAlternate(s, a, b, [first, second]);
  }

  /** The characters `String.prototype.trim` removes: ECMAScript WhiteSpace
      (tab, vertical tab, form feed, space, no-break space, byte order mark and
      the Zs category) and LineTerminator. */
  predicate IsTrimmable(c: char) {
    || c == '\t' || c == '\n' || c == '\U{0B}' || c == '\U{0C}' || c == '\r' || c == ' '
    || c == '\U{A0}' || c == '\U{1680}' || ('\U{2000}' <= c <= '\U{200A}')
    || c == '\U{2028}' || c == '\U{2029}' || c == '\U{202F}' || c == '\U{205F}'
    || c == '\U{3000}' || c == '\U{FEFF}'
  }

  /** `s` without its leading trimmable characters: a suffix of `s`. */
  function TrimStart(s: string): (r: string)
    ensures |r| <= |s| && r == s[|s| - |r|..]
    ensures r == [] || !IsTrimmable(r[0])
    ensures forall k :: 0 <= k < |s| - |r| ==> IsTrimmable(s[k])
    decreases |s|
  {
    if s != [] && IsTrimmable(s[0]) then TrimStart(s[1..]) else s
  }

  /** `s` without its trailing trimmable characters: a prefix of `s`. */
  function TrimEnd(s: string): (r: string)
    ensures |r| <= |s| && r == s[..|r|]
    ensures r == [] || !IsTrimmable(r[|r| - 1])
    ensures forall k :: |r| <= k < |s| ==> IsTrimmable(s[k])
    decreases |s|
  {
    if s != [] && IsTrimmable(s[|s| - 1]) then TrimEnd(s[..|s| - 1]) else s
  }

  /** A prefix of a suffix of `s` is a slice of `s`, and what the prefix leaves of the
      suffix is the tail of `s`. */
  lemma PrefixOfSuffix(s: string, t: string, r: string)
    requires |t| <= |s| && t == s[|s| - |t|..]
    requires |r| <= |t| && r == t[..|r|]
    ensures r == s[|s| - |t|..|s| - |t| + |r|]
    ensures forall k :: |s| - |t| + |r| <= k < |s| ==> s[k] == t[k - (|s| - |t|)]
  {
  }

  /** `s.trim()`: the slice of `s` left once its trimmable margins are cut off; empty
      exactly when every character of `s` is trimmable, and otherwise starting and
      ending with a character that is not. */
  function Trim(s: string): (r: string)
    ensures exists i, j :: 0 <= i <= j <= |s| && r == s[i..j]
                           && (forall k :: 0 <= k < i ==> IsTrimmable(s[k]))
                           && (forall k :: j <= k < |s| ==> IsTrimmable(s[k]))
    ensures r == [] <==> forall k :: 0 <= k < |s| ==> IsTrimmable(s[k])
    ensures r != [] ==> !IsTrimmable(r[0]) && !IsTrimmable(r[|r| - 1])
  {
    var t := TrimStart(s);
    var r := TrimEnd(t);
    assert r != [] ==> r[0] == t[0];
    PrefixOfSuffix(s, t, r);
    r
  }

  /** `prev.filter((_, index) => index !== drop)` restricted to the part `s` of the
      history that starts at index `from`. */
  function KeepOthers(s: seq<ChatMessage>, drop: nat, from: nat): (r: seq<ChatMessage>)
    ensures from <= drop < from + |s| ==> r == s[..drop - from] + s[drop - from + 1..]
    ensures !(from <= drop < from + |s|) ==> r == s
    decreases |s|
  {
    if s == [] then []
    else
      var rest := KeepOthers(s[1..], drop, from + 1);
      assert from < drop < from + |s| ==> s[1..][..drop - from - 1] + s[1..][drop - from..]
                                          == s[1..drop - from] + s[drop - from + 1..];
      (if from == drop then [] else [s[0]]) + rest
  }

  /** The history without its entry at `i`: the entries before `i` keep their index,
      the ones after it move down by exactly one; out of range, nothing changes. */
  function RemoveAt(h: seq<ChatMessage>, i: nat): (r: seq<ChatMessage>)
    ensures i < |h| ==> |r| == |h| - 1
                        && (forall k :: 0 <= k < i ==> r[k] == h[k])
                        && (forall k :: i <= k < |r| ==> r[k] == h[k + 1])
    ensures i >= |h| ==> r == h
  {
    KeepOthers(h, i, 0)
  }

  /** The history with the text of entry `i` replaced; every sender, the length and
      every other entry stay as they were; out of range, nothing changes. */
  function WithText(h: seq<ChatMessage>, i: nat, text: string): (r: seq<ChatMessage>)
    ensures |r| == |h|
    ensures forall k :: 0 <= k < |h| ==> r[k].sender == h[k].sender
    ensures forall k :: 0 <= k < |h| && k != i ==> r[k] == h[k]
    ensures i < |h| ==> r[i].text == text
  {
    if i < |h| then h[i := h[i].(text := text)] else h
  }

  /** Messages are addressed by position only: once an earlier entry is deleted, a save
      aimed at index `i` rewrites the entry that used to sit at `i + 1`, and the entry
      that used to sit at `i` keeps its text. */
  lemma StaleIndexSave(h: seq<ChatMessage>, deleted: nat, i: nat, text: string)
    requires deleted < i && i + 1 < |h|
    ensures WithText(RemoveAt(h, deleted), i, text)[i] == ChatMessage(h[i + 1].sender, text)
    ensures WithText(RemoveAt(h, deleted), i, text)[i - 1] == h[i]
  {
  }

  /** Deleting the only line of the history and resuming makes the next step take the
      empty-history branch: the notice is appended and the run stops. */
  lemma EmptiedHistoryGetsNotice(s: ViewState, a: CharacterProfile, b: CharacterProfile, reply: Reply)
    requires |s.conversation| == 1 && s.chatsReady && !s.isLoading && s.editing.None?
    ensures var emptied := s.(conversation := RemoveAt(s.conversation, 0), isConversing := true);
            && emptied.conversation == []
            && TickStep(emptied, a, b, reply).conversation == [ChatMessage(SystemSender, EmptyHistoryNotice)]
            && !TickStep(emptied, a, b, reply).isConversing
  {
  }

  /** The placeholder text of a message added by hand. */
  function BlankText(sender: string): string {
    if sender == SystemSender then EventOpen + EventClose else ""
  }

  /** The status line of the page header. */
  function StatusText(s: ViewState): (r: string)
    ensures r == StatusRunning <==> s.isConversing
    ensures r == StatusEditing <==> !s.isConversing && s.editing.Some?
    ensures r == StatusPaused <==> !s.isConversing && s.editing.None?
  {
    if s.isConversing then StatusRunning
    else if s.editing.Some? then StatusEditing
    else StatusPaused
  }

  class ConversationView {
    const characterA: CharacterProfile
    const characterB: CharacterProfile
    const worldview: string
    const model: string

    var conversation: seq<ChatMessage>
    var isConversing: bool
    var isLoading: bool
    var currentTurn: Turn
    var systemEvent: string
    var editing: Option<nat>
    var chatsReady: bool
    var apiKeyError: bool

    function State(): ViewState
      reads this
    {
      ViewState(conversation, isConversing, isLoading, currentTurn, systemEvent, editing, chatsReady, apiKeyError)
    }

    /** An edit in progress keeps the run paused: the page's invariant. */
    ghost predicate PausedWhileEditing()
      reads this
    {
      editing.Some? ==> !isConversing
    }

    /** The page as it is first shown, after the chat sessions were set up. A given
        history is used as it is, even when empty (an empty array is truthy). */
    constructor (characterA: CharacterProfile, characterB: CharacterProfile, worldview: string, model: string,
                 initialConversation: Option<seq<ChatMessage>>, init: ChatInit)
      ensures this.characterA == characterA && this.characterB == characterB
      ensures this.worldview == worldview && this.model == model
      ensures conversation == match initialConversation {
                case Some(h) => h
                case None => [ChatMessage(SystemSender, StartNotice)] }
      ensures !isConversing && !isLoading && currentTurn == A && systemEvent == "" && editing.None?
      ensures chatsReady <==> init == Created
      ensures apiKeyError <==> init != Created
      ensures PausedWhileEditing()
    {
      this.characterA := characterA;
      this.characterB := characterB;
      this.worldview := worldview;
      this.model := model;
      conversation := match initialConversation {
        case Some(h) => h
        case None => [ChatMessage(SystemSender, StartNotice)] };
      isConversing := false;
      isLoading := false;
      currentTurn := A;
      systemEvent := "";
      editing := None;
      chatsReady := init == Created;
      apiKeyError := init != Created;
    }

    /** One firing of the pacing timer, run to completion with the given reply. */
    method Tick(reply: Reply)
      requires PausedWhileEditing()
      modifies this
      ensures PausedWhileEditing()
      ensures State() == TickStep(old(State()), characterA, characterB, reply)
    {
      if !isConversing || isLoading || !chatsReady || editing.Some? {
        return;
      }
      isLoading := true;
      if |conversation| == 0 {
        conversation := conversation + [ChatMessage(SystemSender, EmptyHistoryNotice)];
        isConversing := false;
        isLoading := false;
        return;
      }
      var lastMessage := conversation[|conversation| - 1];
      var answered := if currentTurn == A then characterB.name else characterA.name;
      if lastMessage.sender == SystemSender && systemEvent != "" {
        // a line answering the injected event
      } else if lastMessage.sender != SystemSender && lastMessage.sender == answered {
        // the expected alternation
      } else if lastMessage.sender == SystemSender {
        // the start of the dialogue
      } else {
        isLoading := false;
        return;
      }
      match reply {
        case Success(text) =>
          var speaker := if currentTurn == A then characterA else characterB;
          conversation := conversation + [ChatMessage(speaker.name, text)];
          currentTurn := Flip(currentTurn);
        case Failure(detail) =>
          conversation := conversation + [ChatMessage(SystemSender, ApiErrorText(detail))];
          isConversing := false;
      }
      isLoading := false;
    }

    /** The play/pause button: refused while the key banner shows or an edit is open. */
    method ToggleConversation()
      requires PausedWhileEditing()
      modifies this
      ensures PausedWhileEditing()
      ensures old(apiKeyError) || old(editing).Some? ==> State() == old(State())
      ensures !old(apiKeyError) && old(editing).None? ==>
                State() == old(State()).(isConversing := !old(isConversing))
    {
      if apiKeyError || editing.Some? {
        return;
      }
      isConversing := !isConversing;
    }

    /** Typing into the event box. */
    method SetSystemEvent(text: string)
      requires PausedWhileEditing()
      modifies this
      ensures PausedWhileEditing()
      ensures State() == old(State()).(systemEvent := text)
    {
      systemEvent := text;
    }

    /** Sending the event box: a blank box changes nothing; otherwise its trimmed text
        is appended as a System event, the box is cleared and the run resumes. The
        event box is only on screen while no edit is open. */
    method SendSystemEvent()
      requires PausedWhileEditing() && editing.None?
      modifies this
      ensures PausedWhileEditing()
      ensures Trim(old(systemEvent)) == [] ==> State() == old(State())
      ensures Trim(old(systemEvent)) != [] ==>
                State() == old(State()).(
                  conversation := old(conversation)
                                  + [ChatMessage(SystemSender, EventOpen + Trim(old(systemEvent)) + EventClose)],
                  systemEvent := "",
                  isConversing := true)
    {
      var trimmed := Trim(systemEvent);
      if trimmed != [] {
        conversation := conversation + [ChatMessage(SystemSender, EventOpen + trimmed + EventClose)];
        systemEvent := "";
        isConversing := true;
      }
    }

    /** Deleting the entry at `index`. */
    method DeleteMessage(index: nat)
      requires PausedWhileEditing()
      modifies this
      ensures PausedWhileEditing()
      ensures State() == old(State()).(conversation := RemoveAt(old(conversation), index))
    {
      conversation := RemoveAt(conversation, index);
    }

    /** Opening the editor on entry `index`: the run is paused first. */
    method StartEdit(index: nat)
      requires PausedWhileEditing()
      modifies this
      ensures State() == old(State()).(isConversing := false, editing := Some(index))
      ensures PausedWhileEditing() && StatusText(State()) == StatusEditing
    {
      isConversing := false;
      editing := Some(index);
    }

    /** Closing the editor without saving. */
    method CancelEdit()
      requires PausedWhileEditing()
      modifies this
      ensures State() == old(State()).(editing := None)
      ensures PausedWhileEditing()
    {
      editing := None;
    }

    /** Saving the editor: the text of entry `index` is replaced in place when the
        entry exists, and the editor closes. */
    method SaveEdit(index: nat, newText: string)
      requires PausedWhileEditing()
      modifies this
      ensures State() == old(State()).(conversation := WithText(old(conversation), index, newText), editing := None)
      ensures PausedWhileEditing()
    {
      var updated := conversation;
      if index < |updated| {
        updated := updated[index := updated[index].(text := newText)];
      }
      conversation := updated;
      editing := None;
    }

    /** Adding a blank message by hand and opening the editor on it at once. */
    method AddMessage(sender: string)
      requires PausedWhileEditing()
      modifies this
      ensures PausedWhileEditing()
      ensures State() == old(State()).(
                conversation := old(conversation) + [ChatMessage(sender, BlankText(sender))],
                isConversing := false,
                editing := Some(|old(conversation)|))
      ensures editing.Some? && conversation[editing.value] == ChatMessage(sender, BlankText(sender))
    {
      var newIndex := |conversation|;
      conversation := conversation + [ChatMessage(sender, BlankText(sender))];
      StartEdit(newIndex);
    }
  }
}
