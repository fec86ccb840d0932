/** `ChatWindow`: the message input and the "is typing" signal sent to the
    chat partner. The two-second typing timer is a flag that says whether a
    timer is armed; its firing is an explicit event. The chat connection is a
    sink that records the typing statuses and messages sent to it. */
module ChatWindow {
  import opened Common
  import opened Strings
  import Session

  datatype State = State(
    inputText: string,
    timerPending: bool,     // typingTimeoutRef.current !== null
    typingLog: seq<bool>,   // every sendTypingStatus(...), in order
    sent: seq<string>)      // every sendMessage(...), in order

  const Initial: State := State("", false, [], [])

  datatype Event =
    | InputChange(value: string)  // handleInputChange
    | TimerFires                  // the armed timer runs out
    | Send                        // the send button, or Enter
    | Unmount                     // the cleanup of the mount effect

  /** The window's state after `e`. */
  function Apply(s: State, e: Event): State {
    match e
    case InputChange(value) =>
      if IsBlank(value) then
        s.(inputText := value, timerPending := false, typingLog := s.typingLog + [false])
      else
        s.(inputText := value, timerPending := true,
           typingLog := if s.timerPending then s.typingLog else s.typingLog + [true])
    case TimerFires =>
      if s.timerPending then s.(timerPending := false, typingLog := s.typingLog + [false]) else s
    case Send =>
      if IsBlank(s.inputText) then s
      else State("", false, s.typingLog + [false], s.sent + [s.inputText])
    case Unmount =>
      if s.timerPending then s.(timerPending := false, typingLog := s.typingLog + [false]) else s
  }

  /** `onKeyDown`: Enter sends, any other key does nothing. */
  function KeyDown(key: string): Option<Event> {
    if key == "Enter" then Some(Send) else None
  }

  /** What the window keeps true: a timer is armed exactly when the last
      status the partner was sent is "typing", it is armed only while the
      input holds text, and "typing" is never sent twice in a row. */
  predicate Valid(s: State) {
    && (s.timerPending <==> LastIsTyping(s.typingLog))
    && (s.timerPending ==> !IsBlank(s.inputText))
    && NeverTypingTwice(s.typingLog)
  }

  predicate LastIsTyping(log: seq<bool>) {
    log != [] && log[|log| - 1]
  }

  predicate NeverTypingTwice(log: seq<bool>) {
    forall i :: 0 <= i < |log| - 1 ==> !(log[i] && log[i + 1])
  }

  /** Appending a status keeps "typing" from being sent twice in a row,
      unless it appends "typing" after "typing". */
  lemma AppendStatus(log: seq<bool>, typing: bool)
    requires NeverTypingTwice(log)
    requires typing ==> !LastIsTyping(log)
    ensures NeverTypingTwice(log + [typing])
    ensures LastIsTyping(log + [typing]) == typing
  {
    var r := log + [typing];
    forall i | 0 <= i < |r| - 1
      ensures !(r[i] && r[i + 1])
    {
      if i + 1 < |log| {
        assert r[i] == log[i] && r[i + 1] == log[i + 1];
      } else {
        assert r[i] == log[|log| - 1];
      }
    }
  }

  function Run(s: State, events: seq<Event>): State
    decreases |events|
  {
    if events == [] then s else Run(Apply(s, events[0]), events[1..])
  }

  /** Every event keeps the window's invariant. */
  lemma ApplyKeepsValid(s: State, e: Event)
    requires Valid(s)
    ensures Valid(Apply(s, e))
  {
    match e {
      case InputChange(value) =>
        if IsBlank(value) {
          AppendStatus(s.typingLog, false);
        } else if !s.timerPending {
          AppendStatus(s.typingLog, true);
        }
      case TimerFires =>
        AppendStatus(s.typingLog, false);
      case Send =>
        AppendStatus(s.typingLog, false);
      case Unmount =>
        AppendStatus(s.typingLog, false);
    }
  }

  /** The invariant holds from mount on, whatever happens. */
  lemma {:induction false} RunKeepsValid(s: State, events: seq<Event>)
    requires Valid(s)
    ensures Valid(Run(s, events))
    decreases |events|
  {
    if events != [] {
      ApplyKeepsValid(s, events[0]);
      RunKeepsValid(Apply(s, events[0]), events[1..]);
    }
  }

  lemma InitialValid()
    ensures Valid(Initial)
  {
  }

  /** A burst of keystrokes that all leave text in the input tells the
      partner "typing" once at most: exactly once when no timer was armed,
      not at all when one was, and the timer stays armed. */
  lemma {:induction false} BurstSendsTypingOnce(s: State, values: seq<string>)
    requires Valid(s)
    requires forall i :: 0 <= i < |values| ==> !IsBlank(values[i])
    ensures var events := seq(|values|, i requires 0 <= i < |values| => InputChange(values[i]));
      var r := Run(s, events);
      && (values != [] ==> r.timerPending && r.inputText == values[|values| - 1])
      && (values != [] && !s.timerPending ==> r.typingLog == s.typingLog + [true])
      && (s.timerPending || values == [] ==> r.typingLog == s.typingLog)
      && r.sent == s.sent
    decreases |values|
  {
    var events := seq(|values|, i requires 0 <= i < |values| => InputChange(values[i]));
    if values != [] {
      assert !IsBlank(values[0]);
      var s1 := Apply(s, InputChange(values[0]));
      ApplyKeepsValid(s, InputChange(values[0]));
      BurstSendsTypingOnce(s1, values[1..]);
      assert events[1..] == seq(|values[1..]|, i requires 0 <= i < |values[1..]| => InputChange(values[1..][i]));
    }
  }

  /** Sending text sends the text as typed (not trimmed), then "not typing",
      disarms the timer and empties the input; sending blank text does
      nothing at all. */
  lemma SendCases(s: State)
    ensures !IsBlank(s.inputText) ==>
      Apply(s, Send) == State("", false, s.typingLog + [false], s.sent + [s.inputText])
    ensures IsBlank(s.inputText) ==> Apply(s, Send) == s
  {
    if IsBlank(s.inputText) {
    } else {
    }
  }

  /** Clearing the input (down to white space) disarms the timer and says
      "not typing", whether or not a timer was armed. */
  lemma BlankInputStopsTyping(s: State, value: string)
    requires IsBlank(value)
    ensures var r := Apply(s, InputChange(value));
      && !r.timerPending && r.typingLog == s.typingLog + [false] && r.inputText == value
  {
  }

  /** After unmounting no timer is armed, and the partner's last news is
      "not typing". */
  lemma UnmountLeavesPartnerNotTyping(s: State)
    requires Valid(s)
    ensures var r := Apply(s, Unmount);
      && !r.timerPending && !LastIsTyping(r.typingLog)
  {
  }

  /** Only Enter sends from the keyboard. */
  lemma OnlyEnterSends(key: string)
    ensures KeyDown(key) == Some(Send) <==> key == "Enter"
    ensures KeyDown(key).None? <==> key != "Enter"
  {
  }

  /** `currentUsername`: the signed-in user's email, or "" (also when that
      email is empty). */
  function CurrentUsername(user: Option<Session.Profile>): string {
    if user.Some? && user.value.email != "" then user.value.email else ""
  }

  /** `isMe` of a message. */
  predicate IsMe(sender: string, user: Option<Session.Profile>) {
    sender == CurrentUsername(user)
  }

  /** A message is shown as one's own exactly when its sender is the user's
      email; without a user, exactly the messages with an empty sender. */
  lemma IsMeCases(sender: string, user: Option<Session.Profile>)
    ensures user.Some? ==> (IsMe(sender, user) <==> sender == user.value.email)
    ensures user.None? ==> (IsMe(sender, user) <==> sender == "")
  {
  }

  /** The window as the component holds it. */
  class Window {
    var inputText: string
    var timerPending: bool
    var typingLog: seq<bool>
    var sent: seq<string>

    constructor ()
      ensures Snapshot() == Initial && Valid(Snapshot())
    {
      inputText := "";
      timerPending := false;
      typingLog := [];
      sent := [];
    }

    function Snapshot(): State
      reads this
    {
      State(inputText, timerPending, typingLog, sent)
    }

    method SendTypingStatus(typing: bool)
      modifies this
      ensures typingLog == old(typingLog) + [typing]
      ensures inputText == old(inputText) && timerPending == old(timerPending) && sent == old(sent)
    {
      typingLog := typingLog + [typing];
    }

    method HandleInputChange(newValue: string)
      modifies this
      requires Valid(Snapshot())
      ensures Snapshot() == Apply(old(Snapshot()), InputChange(newValue)) && Valid(Snapshot())
    {
      ApplyKeepsValid(Snapshot(), InputChange(newValue));
      inputText := newValue;
      if IsBlank(newValue) {
        if timerPending {
          timerPending := false;
        }
        SendTypingStatus(false);
        return;
      }
      if !timerPending {
        SendTypingStatus(true);
      }
      // the armed timer, if any, is cleared and a new one armed
      timerPending := true;
    }

    method TimerFires()
      modifies this
      requires Valid(Snapshot()) && timerPending
      ensures Snapshot() == Apply(old(Snapshot()), Event.TimerFires) && Valid(Snapshot())
    {
      ApplyKeepsValid(Snapshot(), Event.TimerFires);
      SendTypingStatus(false);
      timerPending := false;
    }

    method HandleSend()
      modifies this
      requires Valid(Snapshot())
      ensures Snapshot() == Apply(old(Snapshot()), Send) && Valid(Snapshot())
    {
      ApplyKeepsValid(Snapshot(), Send);
      if !IsBlank(inputText) {
        sent := sent + [inputText];
        SendTypingStatus(false);
        if timerPending {
          timerPending := false;
        }
        inputText := "";
      }
    }

    method Unmount()
      modifies this
      requires Valid(Snapshot())
      ensures Snapshot() == Apply(old(Snapshot()), Event.Unmount) && Valid(Snapshot())
    {
      ApplyKeepsValid(Snapshot(), Event.Unmount);
      if timerPending {
        timerPending := false;
        SendTypingStatus(false);
      }
    }
  }
}
