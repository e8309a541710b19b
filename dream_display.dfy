/** The chat beside a dream entry. Sending a message is split at its one suspension
    point: `BeginSend` runs up to the call to the chat service, `FinishSend` runs
    when that call settles. Each hands the parent at most one updated entry. */
module DreamDisplay {
  import opened Wrappers
  import opened Types
  import opened Text
  import opened GeminiService

  /** A send that passed the guard: the entry as it was when the send began, and the
      raw input (untrimmed). Both updates of the send are built from this snapshot. */
  datatype PendingTurn = PendingTurn(snapshot: DreamEntry, input: string)

  /** The snapshot with the user's message appended to its history, every other field
      as it was in the snapshot. */
  function OptimisticUpdate(t: PendingTurn): (e: DreamEntry)
    ensures SameExceptHistory(e, t.snapshot)
    ensures |e.chatHistory| == |t.snapshot.chatHistory| + 1
    ensures e.chatHistory[..|t.snapshot.chatHistory|] == t.snapshot.chatHistory
    ensures e.chatHistory[|t.snapshot.chatHistory|] == ChatMessage(User, t.input)
  {
    t.snapshot.(chatHistory := t.snapshot.chatHistory + [ChatMessage(User, t.input)])
  }

  /** What is asked of the chat service: the dream's transcription as context, the
      history including the new message (which the service call drops), and the input. */
  function ChatCall(t: PendingTurn): (req: ChatRequest)
    ensures req == ChatRequestFor(t.snapshot.transcription, t.snapshot.chatHistory, t.input)
  {
    ChatRequestFor(t.snapshot.transcription, OptimisticUpdate(t).chatHistory, t.input)
  }

  /** The update after the service settles: on a reply, the snapshot's history followed
      by the user's message and the model's reply, every other field as it was in the
      snapshot; on a failure no update, so the optimistic user message stays alone. */
  function ReplyUpdate(t: PendingTurn, response: Result<string>): (u: Option<DreamEntry>)
    ensures u.Some? <==> response.Ok?
    ensures u.Some? ==>
      var h := t.snapshot.chatHistory;
      && SameExceptHistory(u.value, t.snapshot)
      && |u.value.chatHistory| == |h| + 2
      && u.value.chatHistory[..|h| + 1] == OptimisticUpdate(t).chatHistory
      && u.value.chatHistory[|h|] == ChatMessage(User, t.input)
      && u.value.chatHistory[|h| + 1] == ChatMessage(Model, response.value)
  {
    match response
    case Err(_) => None
    case Ok(reply) =>
      var h := OptimisticUpdate(t).chatHistory;
      assert (h + [ChatMessage(Model, reply)])[..|h|] == h;
      Some(t.snapshot.(chatHistory := h + [ChatMessage(Model, reply)]))
  }

  /** Two completed sends of the same text are not merged: each appends its own pair. */
  lemma RepeatedSendsAppendTwice(e: DreamEntry, input: string, r1: string, r2: string)
    ensures
      var first := ReplyUpdate(PendingTurn(e, input), Ok(r1)).value;
      var second := ReplyUpdate(PendingTurn(first, input), Ok(r2)).value;
      second.chatHistory == e.chatHistory + [ChatMessage(User, input), ChatMessage(Model, r1),
                                             ChatMessage(User, input), ChatMessage(Model, r2)]
  {
  }

  /** The chat input box and the in-flight flag of one dream's display. */
  class ChatPanel {
    var chatInput: string
    var isChatting: bool

    constructor ()
      ensures chatInput == "" && !isChatting
    {
      chatInput, isChatting := "", false;
    }

    /** Typing replaces the input. */
    method SetChatInput(text: string)
      modifies this`chatInput
      ensures chatInput == text
    {
      chatInput := text;
    }

    /** The part of a send before the service call. Nothing happens while the input is
        blank or another send is in flight. Otherwise the input is cleared, the flag
        set, and the optimistic update handed to the parent. */
    method BeginSend(dream: DreamEntry) returns (turn: Option<PendingTurn>, update: Option<DreamEntry>)
      modifies this
      ensures old(Blank(chatInput)) || old(isChatting) ==>
        && turn == None && update == None
        && chatInput == old(chatInput) && isChatting == old(isChatting)
      ensures !old(Blank(chatInput)) && !old(isChatting) ==>
        && turn == Some(PendingTurn(dream, old(chatInput)))
        && update == Some(OptimisticUpdate(turn.value))
        && chatInput == "" && isChatting
    {
      if Trim(chatInput) == "" || isChatting {
        return None, None;
      }
      var pending := PendingTurn(dream, chatInput);
      chatInput := "";
      isChatting := true;
      turn := Some(pending);
      update := Some(OptimisticUpdate(pending));
    }

    /** The part of a send after the service call settles: the reply update (if any)
        goes to the parent, and the flag is cleared in every case. */
    method FinishSend(turn: PendingTurn, response: Result<string>) returns (update: Option<DreamEntry>)
      modifies this`isChatting
      ensures !isChatting
      ensures update == ReplyUpdate(turn, response)
    {
      update := ReplyUpdate(turn, response);
      isChatting := false;
    }
  }
}
