/** Properties of the widget model that relate several calls: the view can
    be read back into the history, the history only grows over any run of
    submits, the error once set stays set, and what happens when submits
    overlap, which nothing in the widget prevents. */
module ChatUIProperties {
  import opened Wrappers
  import opened JsText
  import FetchJson
  import opened ChatUI

  // ----- reading a view back -----

  /** The message one item depicts, if any: marked-up content is the
      system's, literal content the user's; other items depict none. */
  function Recover(it: Item): (ms: seq<Message>)
    ensures |ms| <= 1
  {
    match it
    case Turn(_, Markdown(t)) => [Message(System, t)]
    case Turn(_, Literal(t)) => [Message(User, t)]
    case _ => []
  }

  /** The history a list of items depicts. */
  function Transcript(items: seq<Item>): (ms: seq<Message>)
    ensures |ms| <= |items|
  {
    if items == [] then []
    else Transcript(items[..|items| - 1]) + Recover(items[|items| - 1])
  }

  lemma {:induction false} TranscriptAppend(xs: seq<Item>, ys: seq<Item>)
    ensures Transcript(xs + ys) == Transcript(xs) + Transcript(ys)
    decreases |ys|
  {
    if ys == [] {
      assert xs + ys == xs;
    } else {
      var ys', y := ys[..|ys| - 1], ys[|ys| - 1];
      assert (xs + ys)[..|xs + ys| - 1] == xs + ys';
      assert (xs + ys)[|xs + ys| - 1] == y;
      assert Transcript(xs + ys) == Transcript(xs + ys') + Recover(y);
      assert Transcript(ys) == Transcript(ys') + Recover(y);
      TranscriptAppend(xs, ys');
    }
  }

  /** Items that depict a history, one per message, read back as that
      history. */
  lemma {:induction false} TranscriptOfDepicted(c: Config, ms: seq<Message>, items: seq<Item>)
    requires |items| == |ms|
    requires forall i :: 0 <= i < |ms| ==> Depicts(c, ms[i], items[i])
    ensures Transcript(items) == ms
    decreases |ms|
  {
    if ms != [] {
      var n := |ms| - 1;
      assert Depicts(c, ms[n], items[n]);
      assert Recover(items[n]) == [ms[n]];
      TranscriptOfDepicted(c, ms[..n], items[..n]);
      assert ms[..n] + [ms[n]] == ms;
    }
  }

  /** The view loses nothing of the history, whatever the display names:
      the SYSTEM/USER distinction survives as the markdown/literal split,
      and the typing and error items add no turns. */
  lemma RenderRoundTrip(c: Config, s: State)
    ensures Transcript(Render(c, s).items) == s.messages
  {
    var typing := if s.isTyping then [TypingIndicator(TypingMarker)] else [];
    var error := if ShowsError(s) then [ErrorNotice(s.error.value)] else [];
    assert Render(c, s).items == TurnItems(c, s.messages) + (typing + error);
    TranscriptAppend(TurnItems(c, s.messages), typing + error);
    TranscriptOfDepicted(c, s.messages, TurnItems(c, s.messages));
    TranscriptAppend(typing, error);
  }

  // ----- option defaulting -----

  /** A configuration handed back as options, every one of them given. */
  function AsOptions(c: Config): Options {
    Options(c.apiUrl, Some(c.placeholder), Some(c.followUpPlaceholder), Some(c.systemName), Some(c.userName))
  }

  /** Defaulting is settled after one pass: passing a configuration back in
      as options reproduces it, since no configured text is empty. */
  lemma ConfigureIdempotent(o: Options)
    ensures Configure(AsOptions(Configure(o))) == Configure(o)
  {
  }

  /** With no options at all, every text is its documented default. */
  lemma ConfigureDefaults(url: string)
    ensures Configure(Options(url, None, None, None, None))
      == Config(url, DefaultPlaceholder, DefaultFollowUpPlaceholder, DefaultSystemName, DefaultUserName)
  {
  }

  /** Only a placeholder given: the follow-up placeholder falls back to it,
      not to its own default. */
  lemma FollowUpFallsBackToPlaceholder(url: string, p: string)
    requires p != ""
    ensures Configure(Options(url, Some(p), None, None, None)).followUpPlaceholder == p
  {
  }

  // ----- runs of complete cycles -----

  /** A sequence of submits, each run to completion before the next. */
  function Run(c: Config, s: State, submits: seq<(string, Exchange)>): State
    decreases |submits|
  {
    if submits == [] then s
    else Run(c, After(s, OnSubmit(c, s, submits[0].0, submits[0].1)), submits[1..])
  }

  /** The error is unset or the one fixed failure text. */
  predicate Tidy(s: State) {
    s.error == None || s.error == Some(FailureMessage)
  }

  /** Every SYSTEM turn directly answers a USER turn. */
  predicate Answered(ms: seq<Message>) {
    forall i :: 0 <= i < |ms| && ms[i].role == System ==> 0 < i && ms[i - 1].role == User
  }

  /** Appending a user turn, or a user turn and its reply, keeps every reply
      after its question. */
  lemma AnsweredAppend(ms: seq<Message>, tail: seq<Message>)
    requires Answered(ms)
    requires (|tail| == 1 || |tail| == 2) && tail[0].role == User
    ensures Answered(ms + tail)
  {
    var ms' := ms + tail;
    forall i | 0 <= i < |ms'| && ms'[i].role == System ensures 0 < i && ms'[i - 1].role == User {
      if i < |ms| {
        assert ms'[i] == ms[i] && ms'[i - 1] == ms[i - 1];
      }
    }
  }

  /** One submit keeps the run invariants. */
  lemma SubmitInvariants(c: Config, s: State, draft: string, e: Exchange)
    requires Tidy(s) && Answered(s.messages)
    ensures var s' := After(s, OnSubmit(c, s, draft, e));
      && s.messages <= s'.messages
      && (s.error.Some? ==> s'.error.Some?)
      && Tidy(s')
      && Answered(s'.messages)
  {
    var r := OnSubmit(c, s, draft, e);
    if r.cycle.Some? {
      var u := Message(User, Trim(draft));
      match ReplyText(e)
      case Some(t) => AnsweredAppend(s.messages, [u, Message(System, t)]);
      case None => AnsweredAppend(s.messages, [u]);
    }
  }

  /** Over any run of complete cycles: the old history stays a prefix of the
      new one, an error once set stays set, the error text is the fixed one,
      and every reply follows the question it answers. */
  lemma {:induction false} RunInvariants(c: Config, s: State, submits: seq<(string, Exchange)>)
    requires Tidy(s) && Answered(s.messages)
    ensures s.messages <= Run(c, s, submits).messages
    ensures s.error.Some? ==> Run(c, s, submits).error.Some?
    ensures Tidy(Run(c, s, submits))
    ensures Answered(Run(c, s, submits).messages)
    decreases |submits|
  {
    if submits != [] {
      SubmitInvariants(c, s, submits[0].0, submits[0].1);
      RunInvariants(c, After(s, OnSubmit(c, s, submits[0].0, submits[0].1)), submits[1..]);
    }
  }

  /** A successful cycle after a failed one leaves the error on screen: the
      widget never clears it. */
  lemma ErrorOutlivesSuccess(c: Config, s: State, text: string, e: Exchange)
    requires s.error == Some(FailureMessage)
    requires ReplyText(e).Some?
    ensures var v := Render(c, SendMessage(c, s, text, e).settled);
      v.items[|v.items| - 1] == ErrorNotice(FailureMessage)
  {
  }

  /** A cycle draws the new user turn with a typing indicator after it while
      the reply is awaited; once settled the indicator is gone, and a reply
      leaves the view two turns longer than the history it started from. */
  lemma CycleViews(c: Config, s: State, text: string, e: Exchange)
    ensures var v := Render(c, SendMessage(c, s, text, e).pending);
      && Depicts(c, Message(User, text), v.items[|s.messages|])
      && v.items[|s.messages| + 1] == TypingIndicator(TypingMarker)
      && !v.firstMessage
    ensures forall it :: it in Render(c, SendMessage(c, s, text, e).settled).items ==> !it.TypingIndicator?
    ensures ReplyText(e).Some? ==>
      Transcript(Render(c, SendMessage(c, s, text, e).settled).items)
        == s.messages + [Message(User, text), Message(System, ReplyText(e).value)]
  {
    var cy := SendMessage(c, s, text, e);
    var v := Render(c, cy.settled);
    forall it | it in v.items ensures !it.TypingIndicator? {
      var i :| 0 <= i < |v.items| && v.items[i] == it;
      if i < |cy.settled.messages| {
        assert Depicts(c, cy.settled.messages[i], it);
      }
    }
    RenderRoundTrip(c, cy.settled);
  }

  // ----- overlapping submits -----

  /** Events of the interleaved widget: a submit of the input, or the
      settling of some request in flight.  Arrivals are anonymous: settling
      does not depend on which request settles, so a sequence of events
      covers every order in which replies come back. */
  datatype Event = Submit(draft: string) | Arrive(e: Exchange)

  /** The widget together with the number of requests in flight. */
  datatype Live = Live(state: State, inFlight: nat)

  /** One event.  A submit is taken whatever the typing flag says: the widget
      has no in-flight gate.  An arrival with nothing in flight is ignored. */
  function Apply(l: Live, ev: Event): (r: Live)
    ensures ev.Submit? && !Blank(ev.draft) ==>
      && r.state.messages == l.state.messages + [Message(User, Trim(ev.draft))]
      && r.state.isTyping && r.state.error == l.state.error
      && r.inFlight == l.inFlight + 1
    ensures ev.Arrive? && l.inFlight > 0 ==>
      && !r.state.isTyping
      && l.state.messages <= r.state.messages
      && r.inFlight == l.inFlight - 1
    ensures ev.Arrive? && l.inFlight > 0 && ReplyText(ev.e).Some? ==>
      && r.state.messages == l.state.messages + [Message(System, ReplyText(ev.e).value)]
      && r.state.error == l.state.error
    ensures ev.Arrive? && l.inFlight > 0 && ReplyText(ev.e).None? ==>
      && r.state.messages == l.state.messages
      && r.state.error == Some(FailureMessage)
    ensures (ev.Submit? && Blank(ev.draft)) || (ev.Arrive? && l.inFlight == 0) ==> r == l
  {
    match ev
    case Submit(draft) =>
      if Blank(draft) then l else Live(Begin(l.state, Trim(draft)), l.inFlight + 1)
    case Arrive(e) =>
      if l.inFlight == 0 then l else Live(Settle(l.state, e), l.inFlight - 1)
  }

  function Replay(l: Live, evs: seq<Event>): Live
    decreases |evs|
  {
    if evs == [] then l else Replay(Apply(l, evs[0]), evs[1..])
  }

  /** Even with overlapping requests the history only grows at its end, and
      the error, once set, stays set. */
  lemma {:induction false} ReplayAppendOnly(l: Live, evs: seq<Event>)
    ensures l.state.messages <= Replay(l, evs).state.messages
    ensures l.state.error.Some? ==> Replay(l, evs).state.error.Some?
    decreases |evs|
  {
    if evs != [] {
      ReplayAppendOnly(Apply(l, evs[0]), evs[1..]);
    }
  }

  const Ok200 := Response(200, Some("application/json"), Some(Reply(Some("x"))))

  lemma Ok200Replies()
    ensures ReplyText(Ok200) == Some("x")
  {
    assert FetchJson.MatchesJson("application/json");
  }

  /** A submit while a reply is awaited is not held back: the typing flag
      gates nothing, and one more request goes in flight. */
  lemma NoInFlightGate(l: Live, draft: string)
    requires l.state.isTyping && l.inFlight > 0 && !Blank(draft)
    ensures Apply(l, Submit(draft)).state.messages == l.state.messages + [Message(User, Trim(draft))]
    ensures Apply(l, Submit(draft)).inFlight == l.inFlight + 1
  {
  }

  /** Two submits before either reply: both user turns are appended and both
      requests are in flight. */
  lemma OverlappingSubmits(a: string, b: string)
    requires !Blank(a) && !Blank(b)
    ensures Apply(Apply(Live(Initial, 0), Submit(a)), Submit(b))
      == Live(State([Message(User, Trim(a)), Message(User, Trim(b))], true, None), 2)
  {
    var l1 := Apply(Live(Initial, 0), Submit(a));
    TwoTurns(Message(User, Trim(a)), l1, b);
  }

  /** The second submit of `OverlappingSubmits`, from the state the first
      one leaves. */
  lemma TwoTurns(ua: Message, l1: Live, b: string)
    requires l1 == Live(State([ua], true, None), 1) && !Blank(b)
    ensures Apply(l1, Submit(b)) == Live(State([ua, Message(User, Trim(b))], true, None), 2)
  {
    assert [ua] + [Message(User, Trim(b))] == [ua, Message(User, Trim(b))];
  }

  /** The second of two overlapping requests posts both user turns. */
  lemma OverlappingRequest(c: Config, a: string, b: string)
    ensures PostHistory(c, Begin(Begin(Initial, a), b)).body
      == FetchJson.JsonText(ChatRequest([Message(User, a), Message(User, b)]))
  {
    var s1 := Begin(Initial, a);
    assert s1.messages == [Message(User, a)];
    var s2 := Begin(s1, b);
    assert s2.messages == [Message(User, a), Message(User, b)];
  }

  /** The first reply to overlapping submits drops the typing flag while the
      second request is still in flight, and the second reply lands after
      the first reply rather than after its own question. */
  lemma OverlappingReplies()
    ensures var l2 := Live(State([Message(User, "a"), Message(User, "b")], true, None), 2);
      var l3 := Apply(l2, Arrive(Ok200));
      && l3.inFlight == 1 && !l3.state.isTyping
      && !Answered(Apply(l3, Arrive(Ok200)).state.messages)
  {
    Ok200Replies();
    var l2 := Live(State([Message(User, "a"), Message(User, "b")], true, None), 2);
    var l4 := Apply(Apply(l2, Arrive(Ok200)), Arrive(Ok200));
    assert l4.state.messages[3] == Message(System, "x");
    assert l4.state.messages[2] == Message(System, "x");
  }

  // ----- scenarios -----

  /** A 200 JSON reply with output "Hello" answers "hi". */
  lemma HelloScenario(c: Config)
    ensures var e := Response(200, Some("application/json"), Some(Reply(Some("Hello"))));
      var cy := SendMessage(c, Initial, "hi", e);
      && cy.settled == State([Message(User, "hi"), Message(System, "Hello")], false, None)
      && Render(c, Initial).firstMessage && !Render(c, cy.settled).firstMessage
  {
    assert FetchJson.MatchesJson("application/json");
  }

  /** A 500 JSON error body leaves only the user turn and the error. */
  lemma ServerErrorScenario(c: Config, body: Reply)
    ensures var cy := SendMessage(c, Initial, "hi", Response(500, Some("application/json"), Some(body)));
      cy.settled == State([Message(User, "hi")], false, Some(FailureMessage))
  {
  }

  /** A 200 HTML page is not JSON and fails the same way. */
  lemma HtmlScenario(c: Config, body: Option<Reply>)
    ensures FetchJson.Classify(200, Some("text/html"), body) == FetchJson.NonJson
    ensures SendMessage(c, Initial, "hi", Response(200, Some("text/html"), body)).settled
      == State([Message(User, "hi")], false, Some(FailureMessage))
  {
    assert !FetchJson.MatchesJson("text/html");
  }

  /** A 204 settles with no body, which has no output: the cycle fails. */
  lemma NoContentScenario(c: Config, contentType: Option<string>, body: Option<Reply>)
    ensures FetchJson.Classify(204, contentType, body) == FetchJson.NullResult
    ensures SendMessage(c, Initial, "hi", Response(204, contentType, body)).settled
      == State([Message(User, "hi")], false, Some(FailureMessage))
  {
  }
}
