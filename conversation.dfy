/**
 * The hub's "Ask Dot" conversation (hub_changes.js): the request sent to the
 * conversation service, the null-on-failure reply, and the dispatch of the
 * reply's `type` to what is rendered and where the hub navigates.
 */
module Conversation {
  import opened Wrappers
  import opened Jobs
  import opened Session

  /** The fields of the service's JSON reply the hub reads; `None` is an absent field. */
  datatype Envelope = Envelope(
    kind: Option<string>,
    message: Option<string>,
    jobs: Option<seq<Job>>,
    nextPrompt: Option<string>,
    redirectTo: Option<string>,
    redirectClient: Option<string>)

  /** How the request ended: no response at all, or a status and the body as parsed (`None`: not JSON, or `null`). */
  datatype Transport = NetworkError | Replied(ok: bool, body: Option<Envelope>)

  /** The JSON body posted to the service. */
  datatype TrafficRequest = TrafficRequest(source: string, content: string, senderEmail: string,
                                           senderName: string, sessionId: string)

  /** What processQuestion asks renderResponse to show. */
  datatype RenderArgs = RenderArgs(message: Option<string>, jobs: seq<Job>, nextPrompt: Option<string>)

  /** A deferred navigation, optionally choosing the client of the target view. */
  datatype Redirect = Redirect(view: string, client: Option<string>)

  datatype Outcome = Outcome(render: RenderArgs, redirect: Option<Redirect>)

  const TroubleMessage := "Hmm, I'm having trouble thinking right now. Try again?"
  const MuddleMessage := "Sorry, I got in a muddle over that one."
  const UnsureMessage := "I'm not sure what happened there."
  const HelpPrompt := "What can Dot do?"

  /** `value || fallback` for a string field: an absent or empty string gives the fallback. */
  function OrText(o: Option<string>, fallback: string): (r: string)
    ensures o.Some? && o.value != "" ==> r == o.value
    ensures o.None? || o.value == "" ==> r == fallback
  {
    if o.Some? && o.value != "" then o.value else fallback
  }

  /** The request askDot posts: the user's name and email, or the hub's defaults. */
  function Request(question: string, user: Option<User>): (r: TrafficRequest)
    ensures r.source == "hub" && r.content == question
    ensures r.sessionId == SessionId(user)
    ensures user.None? ==> r.senderName == "Hub User" && r.senderEmail == "hub@hunch.co.nz"
  {
    var email := if user.Some? then user.value.email else None;
    var name := if user.Some? then Some(user.value.name) else None;
    TrafficRequest("hub", question, OrText(email, "hub@hunch.co.nz"), OrText(name, "Hub User"), SessionId(user))
  }

  /** askDot: the parsed reply of a successful request, and null for every failure. */
  function AskDot(t: Transport): (r: Option<Envelope>)
    ensures t.NetworkError? ==> r.None?
    ensures t.Replied? && !t.ok ==> r.None?
    ensures t.Replied? && t.ok ==> r == t.body
  {
    match t
    case NetworkError => None
    case Replied(ok, body) => if ok then body else None
  }

  /** processQuestion's switch on the reply type, with the null reply first. */
  function Dispatch(response: Option<Envelope>): (out: Outcome)
    ensures response.None? ==> out == Outcome(RenderArgs(Some(TroubleMessage), [], Some(HelpPrompt)), None)
    ensures response.Some? ==> var e := response.value;
      && (e.kind == Some("answer") ==> out == Outcome(RenderArgs(e.message, e.jobs.GetOr([]), e.nextPrompt), None))
      && (e.kind == Some("action") ==> out == Outcome(RenderArgs(e.message, [], e.nextPrompt), None))
      && (e.kind == Some("confirm") ==> out == Outcome(RenderArgs(e.message, e.jobs.GetOr([]), None), None))
      && (e.kind == Some("clarify") ==> out == Outcome(RenderArgs(e.message, [], None), None))
      && (e.kind == Some("redirect") ==> out.render == RenderArgs(e.message, [], None))
      && (e.kind == Some("error") ==> out == Outcome(RenderArgs(Some(OrText(e.message, MuddleMessage)), [], Some(HelpPrompt)), None))
  {
    match response
    case None => Outcome(RenderArgs(Some(TroubleMessage), [], Some(HelpPrompt)), None)
    case Some(e) =>
      if e.kind == Some("answer") then Outcome(RenderArgs(e.message, e.jobs.GetOr([]), e.nextPrompt), None)
      else if e.kind == Some("action") then Outcome(RenderArgs(e.message, [], e.nextPrompt), None)
      else if e.kind == Some("confirm") then Outcome(RenderArgs(e.message, e.jobs.GetOr([]), None), None)
      else if e.kind == Some("clarify") then Outcome(RenderArgs(e.message, [], None), None)
      else if e.kind == Some("redirect") then
        var target := if e.redirectTo.Some? && e.redirectTo.value != "" then Some(Redirect(e.redirectTo.value,
          if e.redirectClient.Some? && e.redirectClient.value != "" then e.redirectClient else None)) else None;
        Outcome(RenderArgs(e.message, [], None), target)
      else if e.kind == Some("error") then
        Outcome(RenderArgs(Some(OrText(e.message, MuddleMessage)), [], Some(HelpPrompt)), None)
      else
        Outcome(RenderArgs(Some(OrText(e.message, UnsureMessage)), e.jobs.GetOr([]), e.nextPrompt), None)
  }

  predicate KnownKind(kind: Option<string>)
  {
    kind.Some? && kind.value in {"answer", "action", "confirm", "clarify", "redirect", "error"}
  }

  /** An unknown (or missing) type is rendered as an answer, with a stock message when the reply has none. */
  lemma {:induction false} UnknownKindIsAnswer(e: Envelope)
    requires !KnownKind(e.kind)
    ensures var out := Dispatch(Some(e));
      var asAnswer := Dispatch(Some(e.(kind := Some("answer"))));
      && out.render.jobs == asAnswer.render.jobs
      && out.render.nextPrompt == asAnswer.render.nextPrompt
      && out.render.message == Some(OrText(e.message, UnsureMessage))
      && out.redirect.None?
  {
  }

  /** Only a redirect reply with a target navigates, and only its own target and client. */
  lemma {:induction false} RedirectOnlyWhenAsked(response: Option<Envelope>)
    ensures var out := Dispatch(response);
      out.redirect.Some? <==>
        response.Some? && response.value.kind == Some("redirect")
        && response.value.redirectTo.Some? && response.value.redirectTo.value != ""
    ensures var out := Dispatch(response);
      out.redirect.Some? ==>
        out.redirect.value.view == response.value.redirectTo.value
        && (out.redirect.value.client.Some? <==>
              response.value.redirectClient.Some? && response.value.redirectClient.value != "")
        && (out.redirect.value.client.Some? ==> out.redirect.value.client == response.value.redirectClient)
  {
  }

  /** The hub never invents job cards: every job shown came in the reply. */
  lemma {:induction false} JobsComeFromReply(response: Option<Envelope>, j: Job)
    requires j in Dispatch(response).render.jobs
    ensures response.Some? && response.value.jobs.Some? && j in response.value.jobs.value
    ensures response.value.kind in {Some("answer"), Some("confirm")} || !KnownKind(response.value.kind)
  {
  }

  /** The only prompt the hub supplies itself is "What can Dot do?"; otherwise it is the reply's or none. */
  lemma {:induction false} PromptIsReplysOrHelp(response: Option<Envelope>)
    ensures var p := Dispatch(response).render.nextPrompt;
      p.None? || p == Some(HelpPrompt) || (response.Some? && p == response.value.nextPrompt)
  {
  }

  /** The failure path end to end: a failed request renders the trouble message and offers help. */
  lemma {:induction false} FailedRequestRendersTrouble(t: Transport)
    requires t.NetworkError? || (t.Replied? && !t.ok)
    ensures Dispatch(AskDot(t)).render == RenderArgs(Some(TroubleMessage), [], Some(HelpPrompt))
    ensures Dispatch(AskDot(t)).redirect.None?
  {
  }

  // ----- what renderResponse is handed -----

  /** The string-valued keys of the object processQuestion passes to renderResponse, as written: the message goes under `message`. */
  function ArgumentObjectAsWritten(args: RenderArgs): (obj: map<string, string>)
    ensures args.message.Some? ==> "message" in obj && obj["message"] == args.message.value
    ensures "text" !in obj
  {
    var withMessage := if args.message.Some? then map["message" := args.message.value] else map[];
    if args.nextPrompt.Some? then withMessage["nextPrompt" := args.nextPrompt.value] else withMessage
  }

  /** The same object with the message under `text`, the key renderResponse reads. */
  function ArgumentObject(args: RenderArgs): (obj: map<string, string>)
    ensures args.message.Some? ==> "text" in obj && obj["text"] == args.message.value
    ensures args.message.None? ==> "text" !in obj
  {
    var withText := if args.message.Some? then map["text" := args.message.value] else map[];
    if args.nextPrompt.Some? then withText["nextPrompt" := args.nextPrompt.value] else withText
  }

  /** The paragraph renderResponse writes: its `text` key, which JavaScript prints as "undefined" when absent. */
  function ShownParagraph(obj: map<string, string>): (p: string)
    ensures "text" in obj ==> p == obj["text"]
    ensures "text" !in obj ==> p == "undefined"
  {
    if "text" in obj then obj["text"] else "undefined"
  }

  /** As written, every reply, even the trouble message, shows the paragraph "undefined". */
  lemma {:induction false} AsWrittenShowsUndefined(response: Option<Envelope>)
    ensures ShownParagraph(ArgumentObjectAsWritten(Dispatch(response).render)) == "undefined"
  {
  }

  /** Passing the message as `text` shows it: the stock messages always, a reply's message whenever it has one. */
  lemma {:induction false} FixedShowsMessage(response: Option<Envelope>)
    ensures var out := Dispatch(response).render;
      out.message.Some? ==> ShownParagraph(ArgumentObject(out)) == out.message.value
    ensures response.None? ==> ShownParagraph(ArgumentObject(Dispatch(response).render)) == TroubleMessage
    ensures response.Some? && response.value.kind == Some("error") ==>
      ShownParagraph(ArgumentObject(Dispatch(response).render)) == OrText(response.value.message, MuddleMessage)
  {
  }
}
