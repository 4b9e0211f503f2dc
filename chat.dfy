/** The non-rendering logic of the Chat component: sending the typed
    message, the Enter-key rule, the clear and mode-change handlers, and the
    transcript filter. Redux's `dispatch` is modelled as appending the
    action to a log; the store that reduces those actions is not modelled. */
module Chat {
  import Modes
  import JsString

  /** One transcript entry as the store holds it. */
  datatype Message = Message(role: string, content: string)

  const SystemRole: string := "system"
  const UserRole: string := "user"

  /** The actions the component dispatches, named after their creators. */
  datatype Action =
    | AddUserMessage(text: string)
    | SendMessage(history: seq<Message>, apiKey: string)
    | ClearHistory
    | SwitchMode(key: string)

  /** `!inputValue.trim()`: the guard that makes a send a no-op. */
  predicate IsBlank(input: string)
    ensures IsBlank(input) <==> JsString.AllTrimmable(input)
  {
    JsString.TrimEmptyIff(input);
    JsString.Trim(input) == []
  }

  /** The history handed to sendMessage: the snapshot followed by the new user entry. */
  function OutgoingHistory(messages: seq<Message>, input: string): (h: seq<Message>)
    ensures |h| == |messages| + 1
    ensures messages <= h
    ensures h[|messages|] == Message(UserRole, input)
  {
    messages + [Message(UserRole, input)]
  }

  /** The actions one call of handleSend dispatches, in order. */
  function SendEffects(messages: seq<Message>, input: string, apiKey: string): (e: seq<Action>)
    ensures e == [] <==> JsString.AllTrimmable(input)
    ensures e != [] ==> (|e| == 2 && e[0] == AddUserMessage(input)
      && e[1].SendMessage? && e[1].history == OutgoingHistory(messages, input) && e[1].apiKey == apiKey)
  {
    if IsBlank(input) then []
    else [AddUserMessage(input), SendMessage(OutgoingHistory(messages, input), apiKey)]
  }

  /** The input box's value after one call of handleSend. */
  function InputAfterSend(input: string): (r: string)
    ensures JsString.AllTrimmable(input) ==> r == input
    ensures !JsString.AllTrimmable(input) ==> r == ""
  {
    if IsBlank(input) then input else ""
  }

  /** A whitespace-only (or empty) input dispatches nothing and stays as typed. */
  lemma BlankSendDoesNothing(messages: seq<Message>, input: string, apiKey: string)
    requires JsString.AllTrimmable(input)
    ensures SendEffects(messages, input, apiKey) == []
    ensures InputAfterSend(input) == input
  {
    JsString.TrimEmptyIff(input);
  }

  /** Any other input dispatches exactly two actions: first the untrimmed text
      as a user message, then the request carrying the snapshot extended by
      that message and the current API key; the box is then emptied. */
  lemma NonBlankSendEffects(messages: seq<Message>, input: string, apiKey: string)
    requires !JsString.AllTrimmable(input)
    ensures var e := SendEffects(messages, input, apiKey);
      |e| == 2 && e[0] == AddUserMessage(input)
      && e[1] == SendMessage(messages + [Message(UserRole, input)], apiKey)
    ensures InputAfterSend(input) == ""
  {
    JsString.TrimEmptyIff(input);
  }

  /** handleSend dispatches something exactly when the input has a code point
      that trim keeps, and then the box ends up empty. */
  lemma SendDispatchesIff(messages: seq<Message>, input: string, apiKey: string)
    ensures SendEffects(messages, input, apiKey) != [] <==> !JsString.AllTrimmable(input)
    ensures SendEffects(messages, input, apiKey) != [] ==> InputAfterSend(input) == ""
  {
    JsString.TrimEmptyIff(input);
  }

  /** `e.key === 'Enter' && !e.shiftKey`. */
  predicate TriggersSend(key: string, shiftKey: bool) {
    key == "Enter" && !shiftKey
  }

  /** Only a plain Enter sends; Shift+Enter and every other key do not. */
  lemma EnterRule(key: string, shiftKey: bool)
    ensures TriggersSend("Enter", false)
    ensures TriggersSend("Enter", true) == false
    ensures key != "Enter" ==> !TriggersSend(key, shiftKey)
  {
  }

  /** `messages.filter(m => m.role !== 'system')`. */
  function DisplayMessages(messages: seq<Message>): (r: seq<Message>)
    ensures |r| <= |messages|
    ensures forall m :: m in r <==> m in messages && m.role != SystemRole
    decreases |messages|
  {
    if messages == [] then []
    else if messages[0].role != SystemRole then [messages[0]] + DisplayMessages(messages[1..])
    else DisplayMessages(messages[1..])
  }

  /** Each non-system entry appears in the transcript as often as in the
      history; system entries not at all. */
  lemma {:induction false} DisplayCounts(messages: seq<Message>)
    ensures forall m :: multiset(DisplayMessages(messages))[m]
                     == if m.role != SystemRole then multiset(messages)[m] else 0
    decreases |messages|
  {
    if messages != [] {
      DisplayCounts(messages[1..]);
      assert messages == [messages[0]] + messages[1..];
      assert multiset(messages) == multiset([messages[0]]) + multiset(messages[1..]);
      if messages[0].role != SystemRole {
        var rest := DisplayMessages(messages[1..]);
        assert multiset([messages[0]] + rest) == multiset([messages[0]]) + multiset(rest);
      }
    }
  }

  /** `a` can be obtained from `b` by deleting entries, keeping the order. */
  ghost predicate IsSubsequence(a: seq<Message>, b: seq<Message>)
    decreases |b|
  {
    if a == [] then true
    else if b == [] then false
    else if a[0] == b[0] then IsSubsequence(a[1..], b[1..])
    else IsSubsequence(a, b[1..])
  }

  /** The transcript keeps the surviving entries in conversation order. */
  lemma {:induction false} DisplayIsSubsequence(messages: seq<Message>)
    ensures IsSubsequence(DisplayMessages(messages), messages)
    decreases |messages|
  {
    if messages != [] {
      DisplayIsSubsequence(messages[1..]);
      var rest := DisplayMessages(messages[1..]);
      if messages[0].role != SystemRole {
        assert DisplayMessages(messages) == [messages[0]] + rest;
        assert ([messages[0]] + rest)[1..] == rest;
      } else {
        assert DisplayMessages(messages) == rest;
        if rest != [] {
          assert rest[0] in messages[1..];
          assert rest[0].role != SystemRole;
          assert rest[0] != messages[0];
        }
      }
    }
  }

  /** With no system entry the transcript is the history itself, and only then. */
  lemma {:induction false} DisplayIdentityIff(messages: seq<Message>)
    ensures DisplayMessages(messages) == messages
        <==> forall i :: 0 <= i < |messages| ==> messages[i].role != SystemRole
    decreases |messages|
  {
    if messages != [] {
      DisplayIdentityIff(messages[1..]);
      var r := DisplayMessages(messages);
      if messages[0].role == SystemRole {
        assert |r| <= |messages[1..]|;
      } else {
        assert r == [messages[0]] + DisplayMessages(messages[1..]);
        if forall i :: 0 <= i < |messages| ==> messages[i].role != SystemRole {
          assert forall i :: 0 <= i < |messages[1..]| ==> messages[1..][i].role != SystemRole by {
            forall i | 0 <= i < |messages[1..]| ensures messages[1..][i].role != SystemRole {
              assert messages[1..][i] == messages[i + 1];
            }
          }
        }
        if r == messages {
          assert DisplayMessages(messages[1..]) == messages[1..];
        }
      }
    }
  }

  /** Filtering distributes over concatenation. */
  lemma {:induction false} DisplayAppend(a: seq<Message>, b: seq<Message>)
    ensures DisplayMessages(a + b) == DisplayMessages(a) + DisplayMessages(b)
    decreases |a|
  {
    if a == [] {
      assert a + b == b;
    } else {
      DisplayAppend(a[1..], b);
      var ab := a + b;
      assert ab[1..] == a[1..] + b;
      assert ab[0] == a[0];
      if a[0].role != SystemRole {
        calc {
          DisplayMessages(ab);
          [a[0]] + DisplayMessages(a[1..] + b);
          [a[0]] + (DisplayMessages(a[1..]) + DisplayMessages(b));
          ([a[0]] + DisplayMessages(a[1..])) + DisplayMessages(b);
        }
      } else {
        assert DisplayMessages(ab) == DisplayMessages(a[1..] + b);
      }
    }
  }

  /** The history sent to the model shows the new user entry as the last
      line of the transcript, after everything that was already visible. */
  lemma OutgoingTranscript(messages: seq<Message>, input: string)
    ensures DisplayMessages(OutgoingHistory(messages, input))
         == DisplayMessages(messages) + [Message(UserRole, input)]
  {
    DisplayAppend(messages, [Message(UserRole, input)]);
    assert [Message(UserRole, input)][1..] == [];
  }

  /** The Chat component: its local state (the input box and the API key),
      the store snapshot it rendered with (`messages`, `mode`), and the log
      of actions it has dispatched. */
  class ChatView {
    var inputValue: string
    var apiKey: string
    var messages: seq<Message>
    var mode: string
    var dispatched: seq<Action>

    /** A render with an empty input box and the stored API key. */
    constructor (messages: seq<Message>, mode: string, storedKey: string)
      ensures inputValue == "" && apiKey == storedKey
      ensures this.messages == messages && this.mode == mode && dispatched == []
    {
      inputValue := "";
      apiKey := storedKey;
      this.messages := messages;
      this.mode := mode;
      dispatched := [];
    }

    /** `getModeConfig(mode)` for the header; `productPrompt` is the
        catalogue-built product prompt. */
    function CurrentConfig(productPrompt: string): (c: Modes.ModeConfig)
      reads this
      ensures c == Modes.GetModeConfig(Modes.Product, productPrompt)
          <==> mode != Modes.Stock && mode != Modes.Finance
    {
      Modes.UnknownModeFallsBack(mode, productPrompt);
      Modes.GetModeConfig(mode, productPrompt)
    }

    /** The visible transcript. */
    function Transcript(): (r: seq<Message>)
      reads this
      ensures forall i :: 0 <= i < |r| ==> r[i].role != SystemRole
      ensures forall m :: m in r <==> m in messages && m.role != SystemRole
      ensures forall m :: multiset(r)[m] == if m.role != SystemRole then multiset(messages)[m] else 0
      ensures IsSubsequence(r, messages)
    {
      DisplayIsSubsequence(messages);
      DisplayCounts(messages);
      DisplayMessages(messages)
    }

    /** A re-render after the store changed: the handlers now close over the
        new snapshot; the component's own state and the log are kept. */
    method Rerender(newMessages: seq<Message>, newMode: string)
      modifies this`messages, this`mode
      ensures messages == newMessages && mode == newMode
    {
      messages, mode := newMessages, newMode;
    }

    /** The text area's onChange. */
    method SetInput(value: string)
      modifies this`inputValue
      ensures inputValue == value
    {
      inputValue := value;
    }

    /** The settings field's onChange. */
    method SetApiKey(value: string)
      modifies this`apiKey
      ensures apiKey == value
    {
      apiKey := value;
    }

    /** handleSend: returns at once on a blank input; otherwise dispatches
        addUserMessage(inputValue), then sendMessage with the snapshot plus
        the new user entry and the current key, then empties the box. */
    method HandleSend()
      modifies this`inputValue, this`dispatched
      ensures dispatched == old(dispatched) + SendEffects(messages, old(inputValue), apiKey)
      ensures inputValue == InputAfterSend(old(inputValue))
    {
      if IsBlank(inputValue) {
        return;
      }
      dispatched := dispatched + [AddUserMessage(inputValue)];
      var newHistory := messages + [Message(UserRole, inputValue)];
      dispatched := dispatched + [SendMessage(newHistory, apiKey)];
      inputValue := "";
    }

    /** The text area's onKeyDown: a plain Enter suppresses the newline and
        sends; any other key is left to the text area. */
    method OnKeyDown(key: string, shiftKey: bool) returns (preventDefault: bool)
      modifies this`inputValue, this`dispatched
      ensures preventDefault == TriggersSend(key, shiftKey)
      ensures preventDefault ==>
        dispatched == old(dispatched) + SendEffects(messages, old(inputValue), apiKey)
        && inputValue == InputAfterSend(old(inputValue))
      ensures !preventDefault ==> dispatched == old(dispatched) && inputValue == old(inputValue)
    {
      preventDefault := TriggersSend(key, shiftKey);
      if preventDefault {
        HandleSend();
      }
    }

    /** handleClear: dispatches clearHistory() and nothing else. */
    method HandleClear()
      modifies this`dispatched
      ensures dispatched == old(dispatched) + [ClearHistory]
    {
      dispatched := dispatched + [ClearHistory];
    }

    /** handleModeChange: dispatches switchMode with the menu item's key. */
    method HandleModeChange(key: string)
      modifies this`dispatched
      ensures dispatched == old(dispatched) + [SwitchMode(key)]
    {
      dispatched := dispatched + [SwitchMode(key)];
    }
  }

  /** A client of the component: typing a message and pressing Enter logs
      the two send actions in order and empties the box; a second Enter on
      the now empty box adds nothing. */
  method TypeAndPressEnter(messages: seq<Message>, key: string)
  {
    var view := new ChatView(messages, Modes.Product, key);
    view.SetInput("hi");
    assert !JsString.IsTrimmable('h');
    assert "hi"[0] == 'h';
    assert !JsString.AllTrimmable("hi");
    NonBlankSendEffects(messages, "hi", key);
    var sent := view.OnKeyDown("Enter", false);
    assert sent;
    assert view.dispatched == [AddUserMessage("hi"), SendMessage(messages + [Message(UserRole, "hi")], key)];
    assert view.inputValue == "";
    JsString.TrimEmptyIff("");
    sent := view.OnKeyDown("Enter", false);
    assert |view.dispatched| == 2;
    sent := view.OnKeyDown("Enter", true);
    assert !sent && |view.dispatched| == 2;
  }

  /** A client of the component: once the store's update is rendered, the
      next send carries the grown history rather than the first snapshot. */
  method SendAfterRerender(messages: seq<Message>, key: string)
  {
    var view := new ChatView(messages, Modes.Product, key);
    var next := messages + [Message(UserRole, "hi")];
    view.Rerender(next, Modes.Product);
    view.SetInput("ok");
    assert !JsString.IsTrimmable('o');
    assert "ok"[0] == 'o';
    NonBlankSendEffects(next, "ok", key);
    var sent := view.OnKeyDown("Enter", false);
    assert view.dispatched == [AddUserMessage("ok"), SendMessage(next + [Message(UserRole, "ok")], key)];
  }
}
