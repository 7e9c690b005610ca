/** Anna's welcome chat: five fixed messages typed out one after another on
    timers, then an optional completion callback. Time is the component's
    own clock `now` in milliseconds; each timer is its due time, and the
    environment fires whichever is due first. */
module WelcomeChat {
  const Welcome: seq<string> := [
    "Привет! Я Анна Афонина 👋",
    "Добро пожаловать на IT Speed Dating!",
    "Сегодня вас ждут интересные знакомства с коллегами по IT-сфере",
    "За короткое время вы сможете узнать друг друга и найти новые связи",
    "Готовы к нетворкингу? Заполните анкету и ждите старта! 🚀"
  ]

  const AppendDelay: int := 300
  const CompleteDelay: int := 2000

  /** The typing pause: one second before the first message, one and a half before the others. */
  function TypingDelay(index: nat): (d: int)
    ensures d > AppendDelay
    ensures index == 0 <==> d == 1000
  {
    if index == 0 then 1000 else 1500
  }

  /** A shown message; its time stamp is left out. */
  datatype Message = Message(id: nat, text: string)

  /** The timer the effect owns and clears on cleanup. */
  datatype EffectTimer = NoTimer | TypingAt(due: int) | CompleteAt(due: int)

  /** The inner timer started by the typing timer, with the index its closure
      captured; nothing ever clears it. */
  datatype AppendTimer = NoAppend | AppendAt(due: int, captured: nat)

  /** What one run of the effect arms at `index`. */
  function Armed(index: nat, now: int, hasOnComplete: bool): (t: EffectTimer)
    ensures t.TypingAt? <==> index < |Welcome|
    ensures t.CompleteAt? <==> index == |Welcome| && hasOnComplete
    ensures t.TypingAt? ==> t.due == now + TypingDelay(index)
    ensures t.CompleteAt? ==> t.due == now + CompleteDelay
  {
    if index < |Welcome| then TypingAt(now + TypingDelay(index))
    else if index == |Welcome| && hasOnComplete then CompleteAt(now + CompleteDelay)
    else NoTimer
  }

  class Chat {
    const hasOnComplete: bool
    var messages: seq<Message>
    var index: nat
    var isTyping: bool
    var now: int
    var effectTimer: EffectTimer
    var appendTimer: AppendTimer
    /** How many times `onComplete` has been called. */
    var completions: nat

    ghost predicate Valid()
      reads this
    {
      && index <= |Welcome|
      && |messages| == index
      && (forall i :: 0 <= i < index ==> messages[i] == Message(i, Welcome[i]))
      && (effectTimer.TypingAt? ==> index < |Welcome| && effectTimer.due > now)
      && (effectTimer.CompleteAt? ==> index == |Welcome| && hasOnComplete && effectTimer.due > now)
      && (appendTimer.AppendAt? ==>
           && appendTimer.captured == index < |Welcome|
           && now < appendTimer.due
           && !effectTimer.CompleteAt?
           && (effectTimer.TypingAt? ==> appendTimer.due < effectTimer.due))
      && (appendTimer.NoAppend? && index < |Welcome| ==> effectTimer.TypingAt?)
      && (index == |Welcome| && hasOnComplete && completions == 0 ==> effectTimer.CompleteAt?)
      && (completions > 0 ==> completions == 1 && index == |Welcome| && hasOnComplete && effectTimer == NoTimer)
    }

    /** The typing dots are shown exactly while a typing pause is running. */
    predicate TypingWhileWaiting()
      reads this
    {
      isTyping <==> effectTimer.TypingAt?
    }

    predicate Pending()
      reads this
    {
      effectTimer != NoTimer || appendTimer != NoAppend
    }

    /** Mount: empty chat, then the effect's first run starts typing the first message. */
    constructor(hasOnComplete: bool)
      ensures Valid() && TypingWhileWaiting()
      ensures this.hasOnComplete == hasOnComplete
      ensures messages == [] && index == 0 && isTyping && now == 0 && completions == 0
      ensures effectTimer == TypingAt(1000) && appendTimer == NoAppend
    {
      this.hasOnComplete := hasOnComplete;
      messages := [];
      index := 0;
      now := 0;
      completions := 0;
      appendTimer := NoAppend;
      isTyping := true;
      effectTimer := TypingAt(TypingDelay(0));
    }

    /** Fires the timer that is due first, as the component is written: the
        effect lists the message array, which is a new array on every
        render, so it runs again after every render. When the typing pause
        ends, the dots go off, the render that follows runs the effect
        again and the dots come straight back with a fresh pause (cut short
        by the next append); after the last append the completion branch
        never turns them off. */
    method FireNext()
      requires Valid() && Pending()
      modifies this
      ensures Valid()
      ensures old(appendTimer).AppendAt? ==>
        && now == old(appendTimer).due
        && messages == old(messages) + [Message(old(index), Welcome[old(index)])]
        && index == old(index) + 1
        && appendTimer == NoAppend
        && effectTimer == Armed(index, now, hasOnComplete)
        && isTyping == (old(isTyping) || index < |Welcome|)
        && completions == old(completions)
      ensures old(appendTimer).NoAppend? && old(effectTimer).TypingAt? ==>
        && now == old(effectTimer).due
        && messages == old(messages) && index == old(index)
        && appendTimer == AppendAt(now + AppendDelay, index)
        && effectTimer == TypingAt(now + TypingDelay(index))
        && isTyping
        && completions == old(completions)
      ensures old(appendTimer).NoAppend? && old(effectTimer).CompleteAt? ==>
        && now == old(effectTimer).due
        && completions == old(completions) + 1
        && effectTimer == NoTimer && appendTimer == NoAppend
        && messages == old(messages) && index == old(index) && isTyping == old(isTyping)
    {
      if appendTimer.AppendAt? {
        now := appendTimer.due;
        messages := messages + [Message(appendTimer.captured, Welcome[appendTimer.captured])];
        index := index + 1;
        appendTimer := NoAppend;
        // the effect's cleanup and rerun
        effectTimer := Armed(index, now, hasOnComplete);
        if index < |Welcome| {
          isTyping := true;
        }
      } else if effectTimer.TypingAt? {
        now := effectTimer.due;
        isTyping := false;
        appendTimer := AppendAt(now + AppendDelay, index);
        // the render for `isTyping` reruns the effect at the same index
        effectTimer := Armed(index, now, hasOnComplete);
        isTyping := true;
      } else {
        now := effectTimer.due;
        completions := completions + 1;
        effectTimer := NoTimer;
      }
    }

    /** Fires the timer that is due first with the effect depending only on
        the index and the callback (the message list hoisted out of the
        component): the dots go off when the pause ends and stay off until
        the next message's pause, and off after the last one. */
    method FireNextStableDeps()
      requires Valid() && Pending()
      modifies this
      ensures Valid()
      ensures TypingWhileWaiting()
      ensures old(appendTimer).AppendAt? ==>
        && now == old(appendTimer).due
        && messages == old(messages) + [Message(old(index), Welcome[old(index)])]
        && index == old(index) + 1
        && appendTimer == NoAppend
        && effectTimer == Armed(index, now, hasOnComplete)
        && isTyping == (index < |Welcome|)
        && completions == old(completions)
      ensures old(appendTimer).NoAppend? && old(effectTimer).TypingAt? ==>
        && now == old(effectTimer).due
        && messages == old(messages) && index == old(index)
        && appendTimer == AppendAt(now + AppendDelay, index)
        && effectTimer == NoTimer
        && !isTyping
        && completions == old(completions)
      ensures old(appendTimer).NoAppend? && old(effectTimer).CompleteAt? ==>
        && now == old(effectTimer).due
        && completions == old(completions) + 1
        && effectTimer == NoTimer && appendTimer == NoAppend
        && messages == old(messages) && index == old(index) && !isTyping
    {
      if appendTimer.AppendAt? {
        now := appendTimer.due;
        messages := messages + [Message(appendTimer.captured, Welcome[appendTimer.captured])];
        index := index + 1;
        appendTimer := NoAppend;
        effectTimer := Armed(index, now, hasOnComplete);
        isTyping := index < |Welcome|;
      } else if effectTimer.TypingAt? {
        now := effectTimer.due;
        isTyping := false;
        appendTimer := AppendAt(now + AppendDelay, index);
        effectTimer := NoTimer;
      } else {
        now := effectTimer.due;
        completions := completions + 1;
        effectTimer := NoTimer;
        isTyping := false;
      }
    }

    /** Timer steps left before the chat goes quiet. */
    function Remaining(): int
      reads this
    {
      2 * (|Welcome| - index)
        - (if appendTimer.AppendAt? then 1 else 0)
        + (if hasOnComplete && completions == 0 then 1 else 0)
    }
  }

  /** The whole transcript. */
  function Transcript(): (r: seq<Message>)
    ensures |r| == |Welcome|
    ensures forall i :: 0 <= i < |r| ==> r[i] == Message(i, Welcome[i])
  {
    seq(|Welcome|, i requires 0 <= i < |Welcome| => Message(i, Welcome[i]))
  }

  /** Run as written until no timer is left: all five messages in order,
      `onComplete` once when it was given, and the typing dots still on. */
  method RunAsWritten(hasOnComplete: bool) returns (chat: Chat)
    ensures chat.Valid() && !chat.Pending()
    ensures chat.messages == Transcript()
    ensures chat.completions == if hasOnComplete then 1 else 0
    ensures chat.isTyping
  {
    chat := new Chat(hasOnComplete);
    while chat.Pending()
      invariant chat.Valid() && chat.hasOnComplete == hasOnComplete
      invariant chat.isTyping
      invariant chat.Remaining() >= 0
      invariant !chat.Pending() ==> chat.index == |Welcome|
      decreases chat.Remaining()
    {
      chat.FireNext();
    }
  }

  /** Run with stable dependencies until no timer is left: the same
      transcript and completion, with the dots off at the end. */
  method RunWithStableDeps(hasOnComplete: bool) returns (chat: Chat)
    ensures chat.Valid() && !chat.Pending()
    ensures chat.messages == Transcript()
    ensures chat.completions == if hasOnComplete then 1 else 0
    ensures !chat.isTyping
  {
    chat := new Chat(hasOnComplete);
    while chat.Pending()
      invariant chat.Valid() && chat.hasOnComplete == hasOnComplete
      invariant chat.TypingWhileWaiting()
      invariant chat.Remaining() >= 0
      invariant !chat.Pending() ==> chat.index == |Welcome|
      decreases chat.Remaining()
    {
      chat.FireNextStableDeps();
    }
  }
}
