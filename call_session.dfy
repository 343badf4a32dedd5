/**
 * The Streamlit live call simulator's session: the page initialises missing
 * session fields, the call-control panel starts and ends calls and picks the
 * voice settings, the chat interface appends customer and agent messages and
 * advances the call clock, and the analytics column tallies customer
 * sentiments.
 */
module CallSession {
  import opened Common
  import opened Text

  /** One entry of `chat_history`; `sentiment` is None when the dictionary has no such key. */
  datatype ChatMessage = ChatMessage(
    speaker: string, text: string, time: string, sentiment: Option<string>, audioPlayed: bool)

  /** The names of the session fields the page initialises. */
  const CallActiveKey := "call_active"
  const ChatHistoryKey := "chat_history"
  const SuggestionsHistoryKey := "suggestions_history"
  const CallDurationKey := "call_duration"
  const AutoSpeakKey := "auto_speak"
  const TtsModeKey := "tts_mode"
  const AllKeys: set<string> :=
    {CallActiveKey, ChatHistoryKey, SuggestionsHistoryKey, CallDurationKey, AutoSpeakKey, TtsModeKey}

  /** The options of the "TTS Mode" select box, in display order. */
  const TtsModes: seq<string> := ["offline", "edge-tts"]

  /** The lists the chat buttons draw from. */
  const CustomerMessages: seq<string> := [
    "Hi, I'm having trouble with my internet connection.",
    "It's been slow for the past three days.",
    "I've already tried restarting the router.",
    "The speed test shows only 10 Mbps instead of 100.",
    "This is really frustrating. I work from home."
  ]
  const AgentResponses: seq<string> := [
    "Thank you for contacting us. I'll help you with your internet issue.",
    "I understand how frustrating slow internet can be.",
    "Let me check your account and connection status.",
    "I can see there might be a signal issue in your area.",
    "Let's try some troubleshooting steps together."
  ]
  const CustomerSentiments: seq<string> := ["Positive", "Neutral", "Negative"]
  const AgentSentiment := "Professional"

  /** Which text-to-speech engine a request goes to. */
  datatype Engine = Offline | EdgeTts

  /** A call into the speech service: engine, text and the voice ("customer" or "agent"). */
  datatype SpeechRequest = SpeechRequest(engine: Engine, text: string, voice: string)

  function EngineFor(ttsMode: string): (e: Engine)
    ensures e == Offline <==> ttsMode == "offline"
  {
    if ttsMode == "offline" then Offline else EdgeTts
  }

  /** The select box's preselected index: the stored mode when it is "offline", else the second. */
  function PreselectedIndex(ttsMode: string): (i: nat)
    ensures i < |TtsModes|
    ensures i == 0 <==> ttsMode == "offline"
  {
    if ttsMode == "offline" then 0 else 1
  }

  /** Keeping the preselected option keeps any valid mode as it was. */
  lemma PreselectionKeepsMode(ttsMode: string)
    requires ttsMode in TtsModes
    ensures TtsModes[PreselectedIndex(ttsMode)] == ttsMode
  {
  }

  /** The "Duration" metric: shown only while a call is active, as the seconds and an "s". */
  function DurationLabel(callActive: bool, callDuration: nat): (shown: Option<string>)
    ensures shown.Some? <==> callActive
    ensures shown.Some? ==>
      |shown.value| >= 2 && shown.value[|shown.value| - 1] == 's' && AllDigits(shown.value[..|shown.value| - 1])
  {
    if callActive then
      var s := Decimal(callDuration) + "s";
      assert s[..|s| - 1] == Decimal(callDuration);
      Some(s)
    else None
  }

  /** The number in the duration shown reads back as the call duration. */
  lemma DurationLabelRoundTrip(callDuration: nat)
    ensures var shown := DurationLabel(true, callDuration).value;
      ParseDecimal(shown[..|shown| - 1]) == callDuration
  {
    var shown := DurationLabel(true, callDuration).value;
    assert shown[..|shown| - 1] == Decimal(callDuration);
    ParseDecimalOfDecimal(callDuration);
  }

  /** A message the chat buttons can produce. */
  predicate WellFormed(m: ChatMessage)
  {
    (m.speaker == "Customer" && m.text in CustomerMessages
      && m.sentiment.Some? && m.sentiment.value in CustomerSentiments)
    || (m.speaker == "Agent" && m.text in AgentResponses && m.sentiment == Some(AgentSentiment))
  }

  /** The text of the last message from `speaker`: `[m for m in history if ...][-1]['text']`. */
  function LastTextBy(history: seq<ChatMessage>, speaker: string): (r: Option<string>)
    ensures r.None? <==> forall i :: 0 <= i < |history| ==> history[i].speaker != speaker
    ensures r.Some? ==> exists i :: (0 <= i < |history| && history[i].speaker == speaker
      && history[i].text == r.value
      && forall j :: i < j < |history| ==> history[j].speaker != speaker)
  {
    if history == [] then None
    else
      var last := history[|history| - 1];
      if last.speaker == speaker then Some(last.text)
      else
        var r := LastTextBy(history[..|history| - 1], speaker);
        assert forall i :: 0 <= i < |history| - 1 ==> history[..|history| - 1][i] == history[i];
        r
  }

  /** Whether the analytics loop would look the message's sentiment up. */
  predicate Counted(m: ChatMessage) { m.speaker == "Customer" && m.sentiment.Some? }

  /** A counted message whose sentiment is not a key of `sentiment_counts`. */
  predicate Unknown(m: ChatMessage) { Counted(m) && m.sentiment.value !in CustomerSentiments }

  /** The number of customer messages carrying sentiment `s`. */
  function SentimentCount(history: seq<ChatMessage>, s: string): (n: nat)
    ensures n <= |history|
  {
    if history == [] then 0
    else
      var last := history[|history| - 1];
      SentimentCount(history[..|history| - 1], s) + (if Counted(last) && last.sentiment.value == s then 1 else 0)
  }

  /** The number of customer messages carrying any sentiment. */
  function CountedMessages(history: seq<ChatMessage>): (n: nat)
    ensures n <= |history|
  {
    if history == [] then 0
    else CountedMessages(history[..|history| - 1]) + (if Counted(history[|history| - 1]) then 1 else 0)
  }

  function Tallies(history: seq<ChatMessage>): map<string, nat>
  {
    map["Positive" := SentimentCount(history, "Positive"),
        "Neutral" := SentimentCount(history, "Neutral"),
        "Negative" := SentimentCount(history, "Negative")]
  }

  /** The analytics column's dictionary, or the KeyError an unknown sentiment raises. */
  datatype TallyResult = Counts(counts: map<string, nat>) | KeyError(key: string)

  /**
   * The `sentiment_counts` loop: only customer messages with a sentiment are
   * counted; the first one whose sentiment is not a key stops it with a KeyError.
   */
  method TallyCustomerSentiments(history: seq<ChatMessage>) returns (r: TallyResult)
    ensures r.Counts? <==> forall i :: 0 <= i < |history| ==> !Unknown(history[i])
    ensures r.Counts? ==> r.counts == Tallies(history)
    ensures r.KeyError? ==> exists i :: (0 <= i < |history| && Unknown(history[i])
      && r.key == history[i].sentiment.value
      && forall j :: 0 <= j < i ==> !Unknown(history[j]))
  {
    var counts: map<string, nat> := map["Positive" := 0, "Neutral" := 0, "Negative" := 0];
    for i := 0 to |history|
      invariant forall j :: 0 <= j < i ==> !Unknown(history[j])
      invariant counts == Tallies(history[..i])
    {
      var msg := history[i];
      assert history[..i + 1][..i] == history[..i];
      if msg.speaker == "Customer" && msg.sentiment.Some? {
        var s := msg.sentiment.value;
        if s !in counts {
          return KeyError(s);
        }
        counts := counts[s := counts[s] + 1];
      }
    }
    assert history[..|history|] == history;
    r := Counts(counts);
  }

  /** With no unknown sentiment, the three counts add up to the counted customer messages. */
  lemma {:induction false} TalliesSum(history: seq<ChatMessage>)
    requires forall i :: 0 <= i < |history| ==> !Unknown(history[i])
    ensures SentimentCount(history, "Positive") + SentimentCount(history, "Neutral")
      + SentimentCount(history, "Negative") == CountedMessages(history)
  {
    if history != [] {
      var pre := history[..|history| - 1];
      assert forall i :: 0 <= i < |pre| ==> pre[i] == history[i];
      TalliesSum(pre);
    }
  }

  /** Agent messages never change the tally. */
  lemma AgentMessagesNotCounted(history: seq<ChatMessage>, m: ChatMessage, s: string)
    requires m.speaker == "Agent"
    ensures SentimentCount(history + [m], s) == SentimentCount(history, s)
  {
    assert (history + [m])[..|history|] == history;
  }

  /** Messages the buttons produce never raise the KeyError. */
  lemma WellFormedIsKnown(history: seq<ChatMessage>)
    requires forall i :: 0 <= i < |history| ==> WellFormed(history[i])
    ensures forall i :: 0 <= i < |history| ==> !Unknown(history[i])
  {
  }

  /** What the page draws below the control panel. */
  datatype PageView = FeatureOverview | ActiveCall(analytics: TallyResult)

  /**
   * `st.session_state` as the simulator uses it: `keys` is the set of fields
   * present, and each field's value matters only once its key is present.
   */
  class Session {
    var keys: set<string>
    var callActive: bool
    var chatHistory: seq<ChatMessage>
    var suggestionsHistory: seq<string>
    var callDuration: nat
    var autoSpeak: bool
    var ttsMode: string

    /** After initialisation: every field present, a listed mode, well-formed messages. */
    predicate Valid()
      reads this
    {
      AllKeys <= keys && ttsMode in TtsModes
      && forall i :: 0 <= i < |chatHistory| ==> WellFormed(chatHistory[i])
    }

    /** A new browser session: nothing is present yet. */
    constructor ()
      ensures keys == {}
    {
      keys := {};
      callActive := false;
      chatHistory := [];
      suggestionsHistory := [];
      callDuration := 0;
      autoSpeak := true;
      ttsMode := "offline";
    }

    /**
     * The page's initialisation: each absent field gets its default and each
     * present one keeps its value, so running it again changes nothing.
     */
    method InitDefaults()
      modifies this
      ensures keys == old(keys) + AllKeys
      ensures callActive == if CallActiveKey in old(keys) then old(callActive) else false
      ensures chatHistory == if ChatHistoryKey in old(keys) then old(chatHistory) else []
      ensures suggestionsHistory == if SuggestionsHistoryKey in old(keys) then old(suggestionsHistory) else []
      ensures callDuration == if CallDurationKey in old(keys) then old(callDuration) else 0
      ensures autoSpeak == if AutoSpeakKey in old(keys) then old(autoSpeak) else true
      ensures ttsMode == if TtsModeKey in old(keys) then old(ttsMode) else "offline"
      ensures AllKeys <= old(keys) ==> unchanged(this)
    {
      var present := keys;
      if CallActiveKey !in present {
        callActive := false;
      }
      if ChatHistoryKey !in present {
        chatHistory := [];
      }
      if SuggestionsHistoryKey !in present {
        suggestionsHistory := [];
      }
      if CallDurationKey !in present {
        callDuration := 0;
      }
      if AutoSpeakKey !in present {
        autoSpeak := true;
      }
      if TtsModeKey !in present {
        ttsMode := "offline";
      }
      if !(AllKeys <= present) {
        keys := present + AllKeys;
      } else {
        assert present + AllKeys == present;
      }
    }

    /** "Start Call", offered only while no call is active. */
    method StartCall()
      requires Valid() && !callActive
      modifies this
      ensures Valid()
      ensures callActive && chatHistory == [] && suggestionsHistory == [] && callDuration == 0
      ensures keys == old(keys) && autoSpeak == old(autoSpeak) && ttsMode == old(ttsMode)
    {
      callActive := true;
      chatHistory := [];
      suggestionsHistory := [];
      callDuration := 0;
    }

    /** "End Call", offered only during a call: the histories and the clock stay as they are. */
    method EndCall()
      requires Valid() && callActive
      modifies this
      ensures Valid() && !callActive
      ensures keys == old(keys) && chatHistory == old(chatHistory)
      ensures suggestionsHistory == old(suggestionsHistory) && callDuration == old(callDuration)
      ensures autoSpeak == old(autoSpeak) && ttsMode == old(ttsMode)
    {
      callActive := false;
    }

    /** The settings widgets: the checkbox's value and the chosen select-box option. */
    method ApplySettings(autoSpeakChecked: bool, modeIndex: nat)
      requires Valid() && modeIndex < |TtsModes|
      modifies this
      ensures Valid() && autoSpeak == autoSpeakChecked && ttsMode == TtsModes[modeIndex]
      ensures keys == old(keys) && callActive == old(callActive) && chatHistory == old(chatHistory)
      ensures suggestionsHistory == old(suggestionsHistory) && callDuration == old(callDuration)
    {
      autoSpeak := autoSpeakChecked;
      ttsMode := TtsModes[modeIndex];
    }

    /**
     * Appends one message, asks for speech when auto-speak is on, marks the new
     * message as played when that speech succeeded, and advances the clock by
     * an amount in [lo, hi]; the message text and sentiment are given.
     */
    method Append(m: ChatMessage, voice: string, ttsSucceeded: bool, lo: nat, hi: nat)
      returns (speech: Option<SpeechRequest>)
      requires Valid() && WellFormed(m) && !m.audioPlayed && lo <= hi
      modifies this
      ensures Valid()
      ensures chatHistory == old(chatHistory) + [m.(audioPlayed := autoSpeak && ttsSucceeded)]
      ensures lo <= callDuration - old(callDuration) <= hi
      ensures speech.Some? <==> autoSpeak
      ensures speech.Some? ==> speech.value == SpeechRequest(EngineFor(ttsMode), m.text, voice)
      ensures keys == old(keys) && callActive == old(callActive)
      ensures suggestionsHistory == old(suggestionsHistory)
      ensures autoSpeak == old(autoSpeak) && ttsMode == old(ttsMode)
    {
      chatHistory := chatHistory + [m];
      speech := None;
      if autoSpeak {
        speech := Some(SpeechRequest(EngineFor(ttsMode), m.text, voice));
        if ttsSucceeded {
          chatHistory := chatHistory[|chatHistory| - 1 := chatHistory[|chatHistory| - 1].(audioPlayed := true)];
        }
      }
      var increment :| lo <= increment <= hi;
      callDuration := callDuration + increment;
    }

    /**
     * "Customer Speaks": one customer message with a text and a sentiment
     * picked from the lists, spoken in the customer voice; the clock advances
     * by 5 to 15 seconds.
     */
    method CustomerSpeaks(now: string, ttsSucceeded: bool) returns (speech: Option<SpeechRequest>)
      requires Valid() && callActive
      modifies this
      ensures Valid()
      ensures |chatHistory| == |old(chatHistory)| + 1 && chatHistory[..|old(chatHistory)|] == old(chatHistory)
      ensures var m := chatHistory[|chatHistory| - 1];
        m.speaker == "Customer" && m.text in CustomerMessages && m.time == now
        && m.sentiment.Some? && m.sentiment.value in CustomerSentiments
        && m.audioPlayed == (autoSpeak && ttsSucceeded)
        && (speech.Some? <==> autoSpeak)
        && (speech.Some? ==> speech.value == SpeechRequest(EngineFor(ttsMode), m.text, "customer"))
      ensures 5 <= callDuration - old(callDuration) <= 15
      ensures keys == old(keys) && callActive == old(callActive)
      ensures suggestionsHistory == old(suggestionsHistory)
      ensures autoSpeak == old(autoSpeak) && ttsMode == old(ttsMode)
    {
      assert CustomerMessages[0] in CustomerMessages && CustomerSentiments[0] in CustomerSentiments;
      var text :| text in CustomerMessages;
      var sentiment :| sentiment in CustomerSentiments;
      var m := ChatMessage("Customer", text, now, Some(sentiment), false);
      speech := Append(m, "customer", ttsSucceeded, 5, 15);
      assert (old(chatHistory) + [m.(audioPlayed := autoSpeak && ttsSucceeded)])[..|old(chatHistory)|]
        == old(chatHistory);
    }

    /**
     * "Agent Responds": one agent message with a picked text and the fixed
     * "Professional" sentiment, spoken in the agent voice; the clock advances
     * by 3 to 10 seconds.
     */
    method AgentResponds(now: string, ttsSucceeded: bool) returns (speech: Option<SpeechRequest>)
      requires Valid() && callActive
      modifies this
      ensures Valid()
      ensures |chatHistory| == |old(chatHistory)| + 1 && chatHistory[..|old(chatHistory)|] == old(chatHistory)
      ensures var m := chatHistory[|chatHistory| - 1];
        m.speaker == "Agent" && m.text in AgentResponses && m.time == now
        && m.sentiment == Some(AgentSentiment)
        && m.audioPlayed == (autoSpeak && ttsSucceeded)
        && (speech.Some? <==> autoSpeak)
        && (speech.Some? ==> speech.value == SpeechRequest(EngineFor(ttsMode), m.text, "agent"))
      ensures 3 <= callDuration - old(callDuration) <= 10
      ensures keys == old(keys) && callActive == old(callActive)
      ensures suggestionsHistory == old(suggestionsHistory)
      ensures autoSpeak == old(autoSpeak) && ttsMode == old(ttsMode)
    {
      assert AgentResponses[0] in AgentResponses;
      var text :| text in AgentResponses;
      var m := ChatMessage("Agent", text, now, Some(AgentSentiment), false);
      speech := Append(m, "agent", ttsSucceeded, 3, 10);
      assert (old(chatHistory) + [m.(audioPlayed := autoSpeak && ttsSucceeded)])[..|old(chatHistory)|]
        == old(chatHistory);
    }

    /**
     * "Replay Last Customer" / "Replay Last Agent": the speech request for the
     * last message of that speaker, if there is one; nothing is changed.
     */
    function ReplayLast(speaker: string, voice: string): (speech: Option<SpeechRequest>)
      reads this
      ensures speech.None? <==> LastTextBy(chatHistory, speaker).None?
      ensures speech.Some? ==>
        speech.value == SpeechRequest(EngineFor(ttsMode), LastTextBy(chatHistory, speaker).value, voice)
    {
      match LastTextBy(chatHistory, speaker)
      case None => None
      case Some(text) => Some(SpeechRequest(EngineFor(ttsMode), text, voice))
    }

    /** "Clear Chat": both histories emptied; the clock and the call flag stay. */
    method ClearChat()
      requires Valid()
      modifies this
      ensures Valid() && chatHistory == [] && suggestionsHistory == []
      ensures keys == old(keys) && callActive == old(callActive) && callDuration == old(callDuration)
      ensures autoSpeak == old(autoSpeak) && ttsMode == old(ttsMode)
    {
      chatHistory := [];
      suggestionsHistory := [];
    }

    /**
     * One run of the page: initialise, then draw the chat and the analytics
     * only during a call.
     */
    method RenderPage() returns (view: PageView)
      modifies this
      ensures keys == old(keys) + AllKeys
      ensures callActive == if CallActiveKey in old(keys) then old(callActive) else false
      ensures chatHistory == if ChatHistoryKey in old(keys) then old(chatHistory) else []
      ensures suggestionsHistory == if SuggestionsHistoryKey in old(keys) then old(suggestionsHistory) else []
      ensures callDuration == if CallDurationKey in old(keys) then old(callDuration) else 0
      ensures autoSpeak == if AutoSpeakKey in old(keys) then old(autoSpeak) else true
      ensures ttsMode == if TtsModeKey in old(keys) then old(ttsMode) else "offline"
      ensures view.ActiveCall? <==> callActive
      ensures view.ActiveCall? && (forall i :: 0 <= i < |chatHistory| ==> !Unknown(chatHistory[i])) ==>
        view.analytics == Counts(Tallies(chatHistory))
      ensures view.ActiveCall? && (exists i :: 0 <= i < |chatHistory| && Unknown(chatHistory[i])) ==>
        view.analytics.KeyError? && exists i :: (0 <= i < |chatHistory| && Unknown(chatHistory[i])
          && view.analytics.key == chatHistory[i].sentiment.value
          && forall j :: 0 <= j < i ==> !Unknown(chatHistory[j]))
    {
      InitDefaults();
      if callActive {
        var analytics := TallyCustomerSentiments(chatHistory);
        view := ActiveCall(analytics);
      } else {
        view := FeatureOverview;
      }
    }
  }
}
