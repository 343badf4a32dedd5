/**
 * The React call simulator page (frontend/src/pages/CallSimulator.jsx): a
 * one-second timer that, while a call is active, advances the call clock and
 * plays a fixed customer-support script into the transcript, the insight list
 * and the sentiment shown beside it.
 */
module CallSimulator {
  import opened Text

  /** One entry of `insights`: its category and its text. */
  datatype Insight = Insight(kind: string, text: string)

  /** The three script-driven pieces of the page's state. */
  datatype Display = Display(transcript: string, insights: seq<Insight>, sentiment: string)

  /** The six transcript lines the script reveals, one every three seconds. */
  const Lines: seq<string> := [
    "Customer: Hi, I need help with my account.",
    "Agent: Hello! I'd be happy to help you with your account. Could you please verify your account number?",
    "Customer: Yes, it's 12345. I'm having trouble logging in.",
    "Agent: I understand your frustration. Let me help you reset your password.",
    "Customer: Thank you, that would be helpful.",
    "Agent: I've sent a password reset link to your email. Is there anything else I can help you with?"
  ]

  /** The seven insights in the order the script adds them. */
  const Insights: seq<Insight> := [
    Insight("intent", "Account assistance request detected"),
    Insight("entity", "Account verification initiated"),
    Insight("intent", "Login issue identified"),
    Insight("sentiment", "Agent showing empathy"),
    Insight("resolution", "Customer accepting proposed solution"),
    Insight("action", "Password reset link sent"),
    Insight("summary", "Successfully resolved login issue")
  ]

  /** The state `startCall` sets and the component starts with. */
  const Initial := Display("", [], "neutral")

  /** Whether the script does anything at this second. */
  predicate Scripted(seconds: int)
  {
    seconds == 3 || seconds == 6 || seconds == 9 || seconds == 12 || seconds == 15 || seconds == 18
  }

  /**
   * `simulateCallProgress(seconds)` on the displayed state: second 3 replaces
   * everything, seconds 6 to 18 append a line and one insight (two at 18),
   * 9 and 15 also change the sentiment, and every other second changes nothing.
   */
  function Progress(d: Display, seconds: int): (r: Display)
    ensures !Scripted(seconds) ==> r == d
    ensures seconds == 3 ==> r == Display(Lines[0], [Insights[0]], "neutral")
    ensures Scripted(seconds) && seconds != 3 ==>
      r.transcript == d.transcript + "\n" + Lines[seconds / 3 - 1]
    ensures Scripted(seconds) && 3 < seconds < 18 ==> r.insights == d.insights + [Insights[seconds / 3 - 1]]
    ensures seconds == 18 ==> r.insights == d.insights + Insights[5..]
    ensures r.sentiment == (if seconds == 3 then "neutral" else if seconds == 9 then "negative"
      else if seconds == 15 then "positive" else d.sentiment)
  {
    if seconds == 3 then
      Display(Lines[0], [Insights[0]], "neutral")
    else if seconds == 6 then
      Display(d.transcript + "\n" + Lines[1], d.insights + [Insights[1]], d.sentiment)
    else if seconds == 9 then
      Display(d.transcript + "\n" + Lines[2], d.insights + [Insights[2]], "negative")
    else if seconds == 12 then
      Display(d.transcript + "\n" + Lines[3], d.insights + [Insights[3]], d.sentiment)
    else if seconds == 15 then
      Display(d.transcript + "\n" + Lines[4], d.insights + [Insights[4]], "positive")
    else if seconds == 18 then
      Display(d.transcript + "\n" + Lines[5], d.insights + [Insights[5], Insights[6]], d.sentiment)
    else d
  }

  /** What the page shows after `n` ticks of a call started from `Initial`. */
  function AfterTicks(n: nat): Display
  {
    if n == 0 then Initial else Progress(AfterTicks(n - 1), n)
  }

  /** How many script lines have appeared by second `n`. */
  function LinesShown(n: nat): (k: nat)
    ensures k <= |Lines|
  {
    if n >= 18 then 6 else n / 3
  }

  /** How many insights have appeared by second `n`: the two of second 18 come together. */
  function InsightsShown(n: nat): (k: nat)
    ensures k <= |Insights|
  {
    if n >= 18 then 7 else n / 3
  }

  /** The sentiment by second `n`. */
  function SentimentAt(n: nat): string
  {
    if n < 9 then "neutral" else if n < 15 then "negative" else "positive"
  }

  /** The transcript after `n` seconds: the lines revealed so far, joined by newlines. */
  lemma {:induction false} TranscriptClosedForm(n: nat)
    ensures AfterTicks(n).transcript == Join("\n", Lines[..LinesShown(n)])
  {
    if n > 0 {
      TranscriptClosedForm(n - 1);
      if n == 3 {
        assert Lines[..1] == [Lines[0]];
      } else if Scripted(n) {
        TranscriptScriptedStep(AfterTicks(n - 1), n);
      } else {
        TranscriptIdleStep(AfterTicks(n - 1), n);
      }
    }
  }

  lemma TranscriptScriptedStep(d: Display, n: nat)
    requires n > 3 && Scripted(n)
    requires d.transcript == Join("\n", Lines[..LinesShown(n - 1)])
    ensures Progress(d, n).transcript == Join("\n", Lines[..LinesShown(n)])
  {
    var k := LinesShown(n - 1);
    assert n / 3 - 1 == k && LinesShown(n) == k + 1;
    JoinSnoc("\n", Lines, k);
  }

  lemma TranscriptIdleStep(d: Display, n: nat)
    requires n > 0 && !Scripted(n)
    requires d.transcript == Join("\n", Lines[..LinesShown(n - 1)])
    ensures Progress(d, n).transcript == Join("\n", Lines[..LinesShown(n)])
  {
    assert LinesShown(n) == LinesShown(n - 1);
  }

  /** The insights after `n` seconds: a prefix of the seven, in script order. */
  lemma {:induction false} InsightsClosedForm(n: nat)
    ensures AfterTicks(n).insights == Insights[..InsightsShown(n)]
  {
    if n > 0 {
      InsightsClosedForm(n - 1);
      if n == 18 {
        assert Insights[..5] + Insights[5..] == Insights[..7];
      } else if Scripted(n) && n != 3 {
        InsightsScriptedStep(AfterTicks(n - 1), n);
      } else if !Scripted(n) {
        InsightsIdleStep(AfterTicks(n - 1), n);
      }
    }
  }

  lemma InsightsScriptedStep(d: Display, n: nat)
    requires 3 < n < 18 && Scripted(n)
    requires d.insights == Insights[..InsightsShown(n - 1)]
    ensures Progress(d, n).insights == Insights[..InsightsShown(n)]
  {
    var k := InsightsShown(n - 1);
    assert n / 3 - 1 == k && InsightsShown(n) == k + 1;
    assert Insights[..k + 1] == Insights[..k] + [Insights[k]];
  }

  lemma InsightsIdleStep(d: Display, n: nat)
    requires n > 0 && !Scripted(n)
    requires d.insights == Insights[..InsightsShown(n - 1)]
    ensures Progress(d, n).insights == Insights[..InsightsShown(n)]
  {
    assert InsightsShown(n) == InsightsShown(n - 1);
  }

  /** The sentiment after `n` seconds: neutral, then negative from 9, then positive from 15. */
  lemma {:induction false} SentimentClosedForm(n: nat)
    ensures AfterTicks(n).sentiment == SentimentAt(n)
  {
    if n > 0 {
      SentimentClosedForm(n - 1);
    }
  }

  /** The whole displayed state after `n` seconds of a call, in closed form. */
  lemma AfterTicksClosedForm(n: nat)
    ensures AfterTicks(n) ==
      Display(Join("\n", Lines[..LinesShown(n)]), Insights[..InsightsShown(n)], SentimentAt(n))
  {
    TranscriptClosedForm(n);
    InsightsClosedForm(n);
    SentimentClosedForm(n);
  }

  /** After second 18 the script is over: seven insights and a positive sentiment. */
  lemma ScriptEnds(n: nat)
    requires n >= 18
    ensures |AfterTicks(n).insights| == 7 && AfterTicks(n).sentiment == "positive"
    ensures AfterTicks(n) == AfterTicks(18)
  {
    AfterTicksClosedForm(n);
    AfterTicksClosedForm(18);
  }

  /** The satisfaction percentage shown for a sentiment. */
  function Satisfaction(sentiment: string): (pct: nat)
    ensures pct == 80 <==> sentiment == "positive"
    ensures pct == 50 <==> sentiment == "neutral"
    ensures pct == 30 <==> sentiment != "positive" && sentiment != "neutral"
  {
    if sentiment == "positive" then 80 else if sentiment == "neutral" then 50 else 30
  }

  /** Over a scripted call the satisfaction reads 50, then 30 from second 9, then 80 from 15. */
  lemma SatisfactionOverCall(n: nat)
    ensures Satisfaction(AfterTicks(n).sentiment) == (if n < 9 then 50 else if n < 15 then 30 else 80)
  {
    AfterTicksClosedForm(n);
  }

  /** `secs.toString().padStart(2, '0')` for a value below 60. */
  function Pad2(d: nat): (s: string)
    requires d < 60
    ensures |s| == 2 && AllDigits(s)
  {
    if d < 10 then "0" + Decimal(d) else Decimal(d)
  }

  /** `formatTime(seconds)`: whole minutes, a colon, and two-digit seconds. */
  function FormatTime(seconds: nat): (t: string)
    ensures |t| >= 4 && t[|t| - 3] == ':'
    ensures AllDigits(t[..|t| - 3]) && AllDigits(t[|t| - 2..])
  {
    var s := Decimal(seconds / 60) + ":" + Pad2(seconds % 60);
    assert s[..|s| - 3] == Decimal(seconds / 60);
    assert s[|s| - 2..] == Pad2(seconds % 60);
    s
  }

  /**
   * Reading the two fields of `formatTime` back gives minutes and seconds
   * with seconds below 60, and together they give the original count.
   */
  lemma FormatTimeRoundTrip(seconds: nat)
    ensures var t := FormatTime(seconds);
      ParseDecimal(t[|t| - 2..]) < 60
      && ParseDecimal(t[..|t| - 3]) * 60 + ParseDecimal(t[|t| - 2..]) == seconds
  {
    var m, s := seconds / 60, seconds % 60;
    FormatTimeFields(seconds);
    ParseDecimalOfDecimal(m);
    Pad2RoundTrip(s);
  }

  /** The two fields of `formatTime`: the minutes and the padded seconds. */
  lemma FormatTimeFields(seconds: nat)
    ensures var t := FormatTime(seconds);
      t[..|t| - 3] == Decimal(seconds / 60) && t[|t| - 2..] == Pad2(seconds % 60)
  {
  }

  /** The padded seconds read back as the same number. */
  lemma Pad2RoundTrip(d: nat)
    requires d < 60
    ensures ParseDecimal(Pad2(d)) == d
  {
    ParseDecimalOfDecimal(d);
    if d < 10 {
      var p := Pad2(d);
      assert p == ['0', DigitChar(d)];
      assert p[..1] == "0" && p[..1][..0] == [];
      assert ParseDecimal(p[..1]) == 0;
    }
  }

  /** The component's state; `Valid` ties what it shows to the script position. */
  class Simulator {
    var isCallActive: bool
    var callDuration: nat
    var transcript: string
    var insights: seq<Insight>
    var sentiment: string

    function Shown(): Display
      reads this
    {
      Display(transcript, insights, sentiment)
    }

    /** The page always shows what the script gives at the current call second. */
    predicate Valid()
      reads this
    {
      Shown() == AfterTicks(callDuration)
    }

    constructor ()
      ensures Valid() && !isCallActive && callDuration == 0 && Shown() == Initial
    {
      isCallActive := false;
      callDuration := 0;
      transcript := "";
      insights := [];
      sentiment := "neutral";
    }

    /** `startCall`: activate and reset the clock and every script-driven field. */
    method StartCall()
      modifies this
      ensures Valid()
      ensures isCallActive && callDuration == 0 && Shown() == Initial
    {
      isCallActive := true;
      callDuration := 0;
      transcript := "";
      insights := [];
      sentiment := "neutral";
    }

    /** `endCall`: only the active flag changes. */
    method EndCall()
      requires Valid()
      modifies this
      ensures Valid()
      ensures !isCallActive && callDuration == old(callDuration) && Shown() == old(Shown())
    {
      isCallActive := false;
    }

    /** `simulateCallProgress(seconds)` through the page's setters. */
    method SimulateCallProgress(seconds: int)
      modifies this
      ensures Shown() == Progress(old(Shown()), seconds)
      ensures isCallActive == old(isCallActive) && callDuration == old(callDuration)
    {
      if seconds == 3 {
        transcript := Lines[0];
        insights := [Insights[0]];
        sentiment := "neutral";
      } else if seconds == 6 {
        transcript := transcript + "\n" + Lines[1];
        insights := insights + [Insights[1]];
      } else if seconds == 9 {
        transcript := transcript + "\n" + Lines[2];
        insights := insights + [Insights[2]];
        sentiment := "negative";
      } else if seconds == 12 {
        transcript := transcript + "\n" + Lines[3];
        insights := insights + [Insights[3]];
      } else if seconds == 15 {
        transcript := transcript + "\n" + Lines[4];
        sentiment := "positive";
        insights := insights + [Insights[4]];
      } else if seconds == 18 {
        transcript := transcript + "\n" + Lines[5];
        insights := insights + [Insights[5], Insights[6]];
      }
    }

    /**
     * One firing of the interval: while active, the clock advances by one and
     * the script runs for the new second; while inactive nothing happens.
     */
    method Tick()
      requires Valid()
      modifies this
      ensures Valid() && isCallActive == old(isCallActive)
      ensures old(isCallActive) ==> callDuration == old(callDuration) + 1
      ensures !old(isCallActive) ==> callDuration == old(callDuration) && Shown() == old(Shown())
    {
      if isCallActive {
        callDuration := callDuration + 1;
        SimulateCallProgress(callDuration);
      }
    }
  }
}
