/**
 * The conversation session behind the chat screen: the message list, the
 * dialogue context handed back and forth with the service, and the selected
 * workspace.
 *
 * Every call into the assistant SDK is asynchronous in the app; here each
 * completion handler is a method of its own that receives the SDK's answer as
 * arguments, and callbacks run one after another. What a step does to the
 * outside world is returned as a sequence of effects: alerts shown to the user
 * and requests issued to the service.
 */
module Conversation {
  import opened Wrappers
  import opened Errors
  import opened Messages
  import opened TextCleanup

  /** The API version date the assistant service is created with. */
  const ApiVersion: string := "2018-02-01"
  /** The local user. */
  const CurrentUser: Sender := Sender("123456", "Ginni")
  /** The assistant, as a chat participant. */
  const WatsonUser: Sender := Sender("654321", "Watson")

  /** The entries of the credentials file the app reads: the service's
      `apikey` and `url`, and an optional `workspaceID`. */
  datatype Configuration = Configuration(apikey: Option<string>, url: Option<string>, workspaceID: Option<string>)

  /** A configured connection to the assistant service. */
  datatype Assistant = Assistant(version: string, apikey: string, serviceURL: string)

  /** The service's opaque conversation state. */
  datatype Context = Context(token: string)

  datatype Workspace = Workspace(name: string, workspaceID: string)
  datatype WorkspaceCollection = WorkspaceCollection(workspaces: seq<Workspace>)

  /** The result of one dialogue turn: the output utterances and the new context. */
  datatype MessageResponse = MessageResponse(text: seq<string>, context: Context)

  /** A failed SDK call. */
  datatype SdkError = SdkError(localizedDescription: string)

  /** The fresh id and the date of one new chat message. */
  datatype Stamp = Stamp(messageId: string, date: Date)

  /** The calls the app makes into the service. */
  datatype Request =
    | ListWorkspaces(service: Assistant)
    | FirstMessage(service: Assistant, workspaceID: string)
    | SendMessage(service: Assistant, workspaceID: string, input: string, context: Option<Context>)

  datatype Effect = ShowAlert(alert: AssistantError) | Call(request: Request)

  predicate CallsListWorkspaces(effects: seq<Effect>)
  {
    exists i :: 0 <= i < |effects| && effects[i].Call? && effects[i].request.ListWorkspaces?
  }

  /** A message the list may hold: a text bubble from the user or from Watson. */
  predicate FromParticipant(m: AssistantMessages)
  {
    (m.sender == CurrentUser || m.sender == WatsonUser) && m.data.AttributedText?
  }

  predicate FromParticipants(ms: seq<AssistantMessages>)
  {
    forall i :: 0 <= i < |ms| ==> FromParticipant(ms[i])
  }

  lemma ParticipantsJoin(a: seq<AssistantMessages>, b: seq<AssistantMessages>)
    requires FromParticipants(a) && FromParticipants(b)
    ensures FromParticipants(a + b)
  {
    forall i | 0 <= i < |a + b|
      ensures FromParticipant((a + b)[i])
    {
      if i >= |a| {
        assert (a + b)[i] == b[i - |a|];
      }
    }
  }

  predicate HasCredentials(config: Configuration)
  {
    config.apikey.Some? && config.url.Some?
  }

  /** What asking for the opening message does, given the session's assistant
      and workspace: it needs both. */
  function FirstMessageEffect(assistant: Option<Assistant>, workspaceID: Option<string>): (effect: Effect)
    ensures effect.Call? <==> assistant.Some? && workspaceID.Some?
    ensures effect.Call? ==> effect.request == FirstMessage(assistant.value, workspaceID.value)
    ensures effect.ShowAlert? ==>
      effect.alert == (if assistant.None? then MissingAssistantCredentials else NoWorkspaceId)
  {
    if assistant.None? then ShowAlert(MissingAssistantCredentials)
    else if workspaceID.None? then ShowAlert(NoWorkspaceId)
    else Call(FirstMessage(assistant.value, workspaceID.value))
  }

  /** Reporting a failed SDK call. */
  function FailAssistantWithError(error: SdkError): (effect: Effect)
    ensures effect.ShowAlert? && effect.alert.Error?
    ensures AlertTitle(effect.alert) == ErrorTitle
    ensures AlertMessage(effect.alert) == error.localizedDescription
  {
    ShowAlert(Error(error.localizedDescription))
  }

  /** Which workspace the app settles on from the service's list: the first
      one, provided it has an id. */
  function ChooseWorkspace(workspaces: seq<Workspace>): (r: Result<string, AssistantError>)
    ensures r.Success? <==> workspaces != [] && workspaces[0].workspaceID != ""
    ensures r.Success? ==> r.value == workspaces[0].workspaceID && r.value != ""
    ensures r.Failure? ==> r.error == (if workspaces == [] then NoWorkspacesAvailable else NoWorkspaceId)
  {
    if workspaces == [] then Failure(NoWorkspacesAvailable)
    else if workspaces[0].workspaceID == "" then Failure(NoWorkspaceId)
    else Success(workspaces[0].workspaceID)
  }

  /** Only the first entry of the list matters. */
  lemma FirstWorkspaceWins(first: Workspace, rest1: seq<Workspace>, rest2: seq<Workspace>)
    ensures ChooseWorkspace([first] + rest1) == ChooseWorkspace([first] + rest2)
  {
  }

  /** A chat bubble from Watson showing `text`. */
  function WatsonMessage(text: string, stamp: Stamp): (m: AssistantMessages)
    ensures FromParticipant(m) && m.sender == WatsonUser
    ensures MessageText(m) == text
    ensures m.messageId == stamp.messageId && m.sentDate == stamp.date
  {
    FromAttributedText(AttributedString(text), WatsonUser, stamp.messageId, stamp.date)
  }

  /** What the opening turn puts in front of the list: each utterance is
      inserted at the front in turn, so the last one ends up first. */
  function OpeningMessages(texts: seq<string>, stamps: seq<Stamp>): (ms: seq<AssistantMessages>)
    requires |stamps| == |texts|
    ensures |ms| == |texts|
    ensures forall i :: 0 <= i < |ms| ==> FromParticipant(ms[i]) && ms[i].sender == WatsonUser
  {
    if texts == [] then []
    else
      var n := |texts| - 1;
      [WatsonMessage(texts[n], stamps[n])] + OpeningMessages(texts[..n], stamps[..n])
  }

  /** One more utterance puts one more bubble in front. */
  lemma OpeningMessagesStep(texts: seq<string>, stamps: seq<Stamp>, i: nat)
    requires |stamps| == |texts| && i < |texts|
    ensures OpeningMessages(texts[..i + 1], stamps[..i + 1])
         == [WatsonMessage(texts[i], stamps[i])] + OpeningMessages(texts[..i], stamps[..i])
  {
    assert texts[..i + 1][..i] == texts[..i] && stamps[..i + 1][..i] == stamps[..i];
  }

  /** The opening messages are the utterances in reverse order, empty ones included. */
  lemma {:induction false} OpeningMessagesReversed(texts: seq<string>, stamps: seq<Stamp>, k: nat)
    requires |stamps| == |texts| && k < |texts|
    ensures OpeningMessages(texts, stamps)[k] == WatsonMessage(texts[|texts| - 1 - k], stamps[|texts| - 1 - k])
    ensures MessageText(OpeningMessages(texts, stamps)[k]) == texts[|texts| - 1 - k]
  {
    var n := |texts| - 1;
    if k > 0 {
      OpeningMessagesReversed(texts[..n], stamps[..n], k - 1);
    }
  }

  /** What a reply appends: one Watson bubble per non-empty utterance, in order. */
  function ReplyMessages(texts: seq<string>, stamps: seq<Stamp>): (ms: seq<AssistantMessages>)
    requires |stamps| == |texts|
    ensures |ms| <= |texts|
    ensures forall i :: 0 <= i < |ms| ==> FromParticipant(ms[i]) && ms[i].sender == WatsonUser && MessageText(ms[i]) != ""
  {
    if texts == [] then []
    else
      var n := |texts| - 1;
      ReplyMessages(texts[..n], stamps[..n]) + (if texts[n] == "" then [] else [WatsonMessage(texts[n], stamps[n])])
  }

  /** One more utterance appends at most one more bubble. */
  lemma ReplyMessagesStep(texts: seq<string>, stamps: seq<Stamp>, i: nat)
    requires |stamps| == |texts| && i < |texts|
    ensures ReplyMessages(texts[..i + 1], stamps[..i + 1])
         == ReplyMessages(texts[..i], stamps[..i]) + (if texts[i] == "" then [] else [WatsonMessage(texts[i], stamps[i])])
  {
    assert texts[..i + 1][..i] == texts[..i] && stamps[..i + 1][..i] == stamps[..i];
  }

  predicate HasNonEmpty(texts: seq<string>)
  {
    exists i :: 0 <= i < |texts| && texts[i] != ""
  }

  /** The non-empty utterances, in order. */
  function NonEmptyTexts(texts: seq<string>): seq<string>
  {
    if texts == [] then [] else (if texts[0] == "" then [] else [texts[0]]) + NonEmptyTexts(texts[1..])
  }

  function TextsOf(ms: seq<AssistantMessages>): (ts: seq<string>)
    ensures |ts| == |ms|
  {
    seq(|ms|, i requires 0 <= i < |ms| => MessageText(ms[i]))
  }

  lemma {:induction false} NonEmptyTextsAppend(a: seq<string>, b: seq<string>)
    ensures NonEmptyTexts(a + b) == NonEmptyTexts(a) + NonEmptyTexts(b)
  {
    if a == [] {
      assert a + b == b;
    } else {
      assert (a + b)[0] == a[0] && (a + b)[1..] == a[1..] + b;
      NonEmptyTextsAppend(a[1..], b);
    }
  }

  /** The bubbles a reply appends show exactly the non-empty utterances, in
      the order the service sent them. */
  lemma {:induction false} ReplyShowsNonEmptyUtterances(texts: seq<string>, stamps: seq<Stamp>)
    requires |stamps| == |texts|
    ensures TextsOf(ReplyMessages(texts, stamps)) == NonEmptyTexts(texts)
  {
    if texts != [] {
      var n := |texts| - 1;
      ReplyShowsNonEmptyUtterances(texts[..n], stamps[..n]);
      assert texts == texts[..n] + [texts[n]];
      NonEmptyTextsAppend(texts[..n], [texts[n]]);
      assert NonEmptyTexts([texts[n]]) == (if texts[n] == "" then [] else [texts[n]]) + NonEmptyTexts([]);
      var tail := if texts[n] == "" then [] else [WatsonMessage(texts[n], stamps[n])];
      assert TextsOf(ReplyMessages(texts[..n], stamps[..n]) + tail)
          == TextsOf(ReplyMessages(texts[..n], stamps[..n])) + TextsOf(tail);
    }
  }

  /** A reply adds bubbles exactly when one of its utterances is non-empty. */
  lemma {:induction false} ReplyNonEmptyIff(texts: seq<string>, stamps: seq<Stamp>)
    requires |stamps| == |texts|
    ensures ReplyMessages(texts, stamps) != [] <==> HasNonEmpty(texts)
  {
    if texts != [] {
      var n := |texts| - 1;
      ReplyNonEmptyIff(texts[..n], stamps[..n]);
      PrefixHasNonEmpty(texts, n);
    }
  }

  lemma PrefixHasNonEmpty(texts: seq<string>, n: nat)
    requires n < |texts|
    ensures HasNonEmpty(texts[..n + 1]) <==> HasNonEmpty(texts[..n]) || texts[n] != ""
  {
    var p := texts[..n + 1];
    assert p[n] == texts[n];
    assert forall i :: 0 <= i < n ==> p[i] == texts[..n][i];
  }

  /** The context a session holds after a successful reply, given the one it
      held before: the response's context is stored only while handling a
      non-empty utterance. */
  function ReplyContext(previous: Option<Context>, response: MessageResponse): (c: Option<Context>)
    ensures HasNonEmpty(response.text) ==> c == Some(response.context)
    ensures !HasNonEmpty(response.text) ==> c == previous
  {
    if HasNonEmpty(response.text) then Some(response.context) else previous
  }

  /** As written, a reply made only of empty utterances (or of none) leaves
      the previous context in place, so the next send carries a context the
      service has already moved past. */
  lemma EmptyReplyKeepsStaleContext(previous: Option<Context>, texts: seq<string>, latest: Context)
    requires forall i :: 0 <= i < |texts| ==> texts[i] == ""
    requires previous != Some(latest)
    ensures ReplyContext(previous, MessageResponse(texts, latest)) == previous
    ensures ReplyContext(previous, MessageResponse(texts, latest)) != Some(latest)
  {
  }

  /** The evidently intended rule: every successful exchange stores the
      response's context. It agrees with the code whenever the reply shows
      something. */
  function CorrectedReplyContext(previous: Option<Context>, response: MessageResponse): (c: Option<Context>)
    ensures c == Some(response.context)
    ensures HasNonEmpty(response.text) ==> c == ReplyContext(previous, response)
    ensures c != ReplyContext(previous, response) ==> !HasNonEmpty(response.text) && previous != c
  {
    Some(response.context)
  }

  /** The worked example: of ["", "Hi there", ""] only "Hi there" is shown. */
  lemma ReplyExample(stamps: seq<Stamp>)
    requires |stamps| == 3
    ensures ReplyMessages(["", "Hi there", ""], stamps) == [WatsonMessage("Hi there", stamps[1])]
  {
    var texts := ["", "Hi there", ""];
    assert texts[..2] == ["", "Hi there"] && texts[..2][..1] == [""] && [""][..0] == [];
    assert ReplyMessages(texts[..2][..1], stamps[..2][..1]) == [];
  }

  class Session {
    var messageList: seq<AssistantMessages>
    var context: Option<Context>
    var workspaceID: Option<string>
    var assistant: Option<Assistant>
    const current: Sender
    const watson: Sender

    /** The list holds only text bubbles from the two participants. */
    ghost predicate Valid()
      reads this
    {
      && current == CurrentUser && watson == WatsonUser
      && FromParticipants(messageList)
    }

    constructor ()
      ensures Valid()
      ensures messageList == [] && context == None && workspaceID == None && assistant == None
    {
      messageList := [];
      context := None;
      workspaceID := None;
      assistant := None;
      current := CurrentUser;
      watson := WatsonUser;
    }

    /** Start-up: read the credentials, create the assistant, then either use
        the configured workspace or ask the service for its workspaces. */
    method InstantiateAssistant(config: Option<Configuration>) returns (effects: seq<Effect>)
      requires Valid()
      modifies this`assistant, this`workspaceID
      ensures Valid()
      ensures config.None? ==>
        effects == [ShowAlert(MissingCredentialsPlist)]
        && assistant == old(assistant) && workspaceID == old(workspaceID)
      ensures config.Some? ==>
        var c := config.value;
        var credentialAlerts := if HasCredentials(c) then [] else [ShowAlert(MissingAssistantCredentials)];
        && assistant == (if HasCredentials(c) then Some(Assistant(ApiVersion, c.apikey.value, c.url.value)) else old(assistant))
        && (c.workspaceID.Some? ==>
              workspaceID == c.workspaceID
              && effects == credentialAlerts + [FirstMessageEffect(assistant, workspaceID)])
        && (c.workspaceID.None? ==>
              workspaceID == old(workspaceID)
              && effects == credentialAlerts + (if assistant.Some? then [Call(ListWorkspaces(assistant.value))] else []))
      ensures config.Some? && config.value.workspaceID.Some? ==> !CallsListWorkspaces(effects)
    {
      if config.None? {
        effects := [ShowAlert(MissingCredentialsPlist)];
        return;
      }
      var c := config.value;
      effects := [];
      if c.apikey.Some? && c.url.Some? {
        assistant := Some(Assistant(ApiVersion, c.apikey.value, c.url.value));
      } else {
        effects := [ShowAlert(MissingAssistantCredentials)];
      }
      if c.workspaceID.Some? {
        workspaceID := c.workspaceID;
        var first := RetrieveFirstMessage();
        effects := effects + [first];
      } else {
        if assistant.None? {
          return;
        }
        effects := effects + [Call(ListWorkspaces(assistant.value))];
      }
    }

    /** The completion of the workspace listing. */
    method OnWorkspacesListed(error: Option<SdkError>, result: Option<WorkspaceCollection>) returns (effects: seq<Effect>)
      requires Valid()
      modifies this`workspaceID
      ensures Valid()
      ensures error.Some? ==> effects == [FailAssistantWithError(error.value)] && workspaceID == old(workspaceID)
      ensures error.None? && result.None? ==> effects == [ShowAlert(NoWorkspacesAvailable)] && workspaceID == old(workspaceID)
      ensures error.None? && result.Some? ==>
        match ChooseWorkspace(result.value.workspaces)
        case Failure(e) => effects == [ShowAlert(e)] && workspaceID == old(workspaceID)
        case Success(id) => workspaceID == Some(id) && effects == [FirstMessageEffect(assistant, workspaceID)]
    {
      if error.Some? {
        effects := [FailAssistantWithError(error.value)];
        return;
      }
      if result.None? {
        effects := [ShowAlert(NoWorkspacesAvailable)];
        return;
      }
      effects := WorkspaceList(result.value);
    }

    /** Settle on the first listed workspace and ask for the opening message. */
    method WorkspaceList(list: WorkspaceCollection) returns (effects: seq<Effect>)
      requires Valid()
      modifies this`workspaceID
      ensures Valid()
      ensures
        match ChooseWorkspace(list.workspaces)
        case Failure(e) => effects == [ShowAlert(e)] && workspaceID == old(workspaceID)
        case Success(id) => workspaceID == Some(id) && effects == [FirstMessageEffect(assistant, workspaceID)]
    {
      if list.workspaces == [] {
        effects := [ShowAlert(NoWorkspacesAvailable)];
        return;
      }
      var workspace := list.workspaces[0];
      if workspace.workspaceID == "" {
        effects := [ShowAlert(NoWorkspaceId)];
        return;
      }
      workspaceID := Some(workspace.workspaceID);
      var first := RetrieveFirstMessage();
      effects := [first];
    }

    /** Ask the service for its opening message: needs an assistant and a workspace. */
    method RetrieveFirstMessage() returns (effect: Effect)
      ensures effect == FirstMessageEffect(assistant, workspaceID)
    {
      if assistant.None? {
        return ShowAlert(MissingAssistantCredentials);
      }
      if workspaceID.None? {
        return ShowAlert(NoWorkspaceId);
      }
      effect := Call(FirstMessage(assistant.value, workspaceID.value));
    }

    /** The completion of the opening-message request. */
    method OnFirstMessage(error: Option<SdkError>, result: Option<MessageResponse>, stamps: seq<Stamp>)
      returns (effects: seq<Effect>)
      requires Valid()
      requires result.Some? ==> |stamps| == |result.value.text|
      modifies this`messageList, this`context
      ensures Valid()
      ensures error.Some? ==>
        effects == [FailAssistantWithError(error.value)]
        && messageList == old(messageList) && context == old(context)
      ensures error.None? && result.None? ==>
        effects == [ShowAlert(NoWorkspaceId)]
        && messageList == old(messageList) && context == old(context)
      ensures error.None? && result.Some? ==>
        var response := result.value;
        && effects == []
        && messageList == OpeningMessages(response.text, stamps) + old(messageList)
        && context == (if response.text != [] then Some(response.context) else old(context))
    {
      if error.Some? {
        effects := [FailAssistantWithError(error.value)];
        return;
      }
      if result.None? {
        effects := [ShowAlert(NoWorkspaceId)];
        return;
      }
      var response := result.value;
      var texts := response.text;
      for i := 0 to |texts|
        invariant Valid()
        invariant messageList == OpeningMessages(texts[..i], stamps[..i]) + old(messageList)
        invariant context == (if i > 0 then Some(response.context) else old(context))
      {
        context := Some(response.context);
        var message := FromAttributedText(AttributedString(texts[i]), watson, stamps[i].messageId, stamps[i].date);
        assert message == WatsonMessage(texts[i], stamps[i]);
        OpeningMessagesStep(texts, stamps, i);
        assert FromParticipants([message]);
        ParticipantsJoin([message], messageList);
        messageList := [message] + messageList;
      }
      assert texts[..|texts|] == texts && stamps[..|texts|] == stamps;
      effects := [];
    }

    /** The user pressed send: echo the text as typed, then send its cleaned
        form together with the current context. */
    method DidPressSend(text: string, stamp: Stamp) returns (effects: seq<Effect>)
      requires Valid()
      modifies this`messageList
      ensures Valid()
      ensures assistant.None? ==>
        effects == [ShowAlert(MissingAssistantCredentials)] && messageList == old(messageList)
      ensures assistant.Some? && workspaceID.None? ==>
        effects == [ShowAlert(NoWorkspaceId)] && messageList == old(messageList)
      ensures assistant.Some? && workspaceID.Some? ==>
        && messageList == old(messageList) + [FromAttributedText(AttributedString(text), CurrentUser, stamp.messageId, stamp.date)]
        && effects == [Call(SendMessage(assistant.value, workspaceID.value, CleanText(text), context))]
    {
      if assistant.None? {
        return [ShowAlert(MissingAssistantCredentials)];
      }
      if workspaceID.None? {
        return [ShowAlert(NoWorkspaceId)];
      }
      var message := FromAttributedText(AttributedString(text), current, stamp.messageId, stamp.date);
      assert FromParticipants([message]);
      ParticipantsJoin(messageList, [message]);
      messageList := messageList + [message];
      var cleanText := CleanText(text);
      effects := [Call(SendMessage(assistant.value, workspaceID.value, cleanText, context))];
    }

    /** The completion of a send: show every non-empty utterance and carry the
        new context forward. */
    method OnReply(error: Option<SdkError>, result: Option<MessageResponse>, stamps: seq<Stamp>)
      returns (effects: seq<Effect>)
      requires Valid()
      requires result.Some? ==> |stamps| == |result.value.text|
      modifies this`messageList, this`context
      ensures Valid()
      ensures error.Some? ==>
        effects == [FailAssistantWithError(error.value)]
        && messageList == old(messageList) && context == old(context)
      ensures error.None? && result.None? ==>
        effects == [ShowAlert(NoData)]
        && messageList == old(messageList) && context == old(context)
      ensures error.None? && result.Some? ==>
        var response := result.value;
        && effects == []
        && messageList == old(messageList) + ReplyMessages(response.text, stamps)
        && context == ReplyContext(old(context), response)
    {
      if error.Some? {
        effects := [FailAssistantWithError(error.value)];
        return;
      }
      if result.None? {
        effects := [ShowAlert(NoData)];
        return;
      }
      var response := result.value;
      var texts := response.text;
      for i := 0 to |texts|
        invariant Valid()
        invariant messageList == old(messageList) + ReplyMessages(texts[..i], stamps[..i])
        invariant context == (if HasNonEmpty(texts[..i]) then Some(response.context) else old(context))
      {
        ReplyMessagesStep(texts, stamps, i);
        PrefixHasNonEmpty(texts, i);
        if texts[i] == "" {
          continue;
        }
        context := Some(response.context);
        var message := FromAttributedText(AttributedString(texts[i]), watson, stamps[i].messageId, stamps[i].date);
        assert message == WatsonMessage(texts[i], stamps[i]);
        assert FromParticipants([message]);
        ParticipantsJoin(messageList, [message]);
        messageList := messageList + [message];
      }
      assert texts[..|texts|] == texts && stamps[..|texts|] == stamps;
      effects := [];
    }

    /** The number of rows the chat view shows. */
    method NumberOfMessages() returns (n: nat)
      ensures n == |messageList|
    {
      n := |messageList|;
    }

    /** The message shown in row `section`. */
    method MessageForItem(section: nat) returns (m: AssistantMessages)
      requires Valid()
      requires section < |messageList|
      ensures m == messageList[section]
      ensures FromParticipant(m)
    {
      m := messageList[section];
    }
  }

  /** Start-up with a configured workspace, then the opening turn, followed
      through the session's contracts alone. */
  method StartupWalkthrough()
  {
    var session := new Session();
    var service := Assistant(ApiVersion, "key", "https://assistant.example");
    var started := session.InstantiateAssistant(Some(Configuration(Some("key"), Some("https://assistant.example"), Some("ws-1"))));
    assert started == [Call(FirstMessage(service, "ws-1"))];

    var greeted := session.OnFirstMessage(None, Some(MessageResponse(["Hello"], Context("c1"))), [Stamp("m1", Date(0))]);
    assert [Stamp("m1", Date(0))][..0] == [] && ["Hello"][..0] == [];
    assert session.messageList == [WatsonMessage("Hello", Stamp("m1", Date(0)))];
    assert session.context == Some(Context("c1"));
  }

  /** One exchange on a ready session: the echo goes at the end, the request
      carries the cleaned text and the current context, and a reply of
      ["", "Hi there", ""] adds one bubble and the new context. */
  method ExchangeWalkthrough(session: Session, typed: string, stamps: seq<Stamp>, latest: Context)
    requires session.Valid() && session.assistant.Some? && session.workspaceID.Some?
    requires |stamps| == 4
    modifies session
  {
    var before, ctx := session.messageList, session.context;
    var sent := session.DidPressSend(typed, stamps[0]);
    assert sent == [Call(SendMessage(session.assistant.value, session.workspaceID.value, CleanText(typed), ctx))];
    assert MessageText(session.messageList[|before|]) == typed;

    var replyStamps := stamps[1..];
    ReplyExample(replyStamps);
    var replied := session.OnReply(None, Some(MessageResponse(["", "Hi there", ""], latest)), replyStamps);
    assert |session.messageList| == |before| + 2;
    assert MessageText(session.messageList[|before| + 1]) == "Hi there";
    assert session.context == Some(latest) by {
      assert ["", "Hi there", ""][1] != "";
    }
  }

  /** A reply with nothing to show keeps the context the session already
      had, and the next send carries that context. */
  method EmptyReplyWalkthrough(session: Session, typed: string, stamps: seq<Stamp>, latest: Context)
    requires session.Valid() && session.assistant.Some? && session.workspaceID.Some?
    requires |stamps| == 2 && session.context != Some(latest)
    modifies session
  {
    var before := session.context;
    var silent := session.OnReply(None, Some(MessageResponse(["", ""], latest)), stamps);
    EmptyReplyKeepsStaleContext(before, ["", ""], latest);
    assert session.context == before;
    var sent := session.DidPressSend(typed, stamps[0]);
    assert sent == [Call(SendMessage(session.assistant.value, session.workspaceID.value, CleanText(typed), before))];
  }
}
