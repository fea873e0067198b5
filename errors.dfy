/**
 * The app's closed set of user-facing failures and the alert text shown for
 * each: a title, a message, and a one-line description joining the two.
 */
module Errors {

  datatype AssistantError =
    | InvalidCredentials
    | MissingCredentialsPlist
    | MissingAssistantCredentials
    | NoWorkspacesAvailable
    | NoData
    | Error(msg: string)
    | NoWorkspaceId

  const ErrorTitle: string := "An Error Occurred"
  const CredentialsFileHelp: string := "Make sure to follow the steps in the README to create the credentials file."
  const WorkspaceHelp: string := "Be sure to set up a Watson Assistant workspace from the IBM Cloud dashboard."

  /** The case of an error, forgetting the payload of `Error`. */
  function CaseIndex(e: AssistantError): nat
  {
    match e
    case InvalidCredentials => 0
    case MissingCredentialsPlist => 1
    case MissingAssistantCredentials => 2
    case NoWorkspacesAvailable => 3
    case NoData => 4
    case Error(_) => 5
    case NoWorkspaceId => 6
  }

  function AlertTitle(e: AssistantError): (title: string)
    ensures title != [] && ':' !in title
    ensures e.Error? <==> title == ErrorTitle
  {
    match e
    case InvalidCredentials => "Invalid Credentials"
    case MissingCredentialsPlist => "Missing BMSCredentials.plist"
    case MissingAssistantCredentials => "Missing Watson Assistant Credentials"
    case NoWorkspacesAvailable => "No Workspaces Available"
    case NoWorkspaceId => "No Workspaces Id Provided"
    case NoData => "Bad Response"
    case Error(_) => ErrorTitle
  }

  function AlertMessage(e: AssistantError): (message: string)
    ensures e.Error? ==> message == e.msg
  {
    match e
    case InvalidCredentials => "The provided credentials are invalid."
    case MissingCredentialsPlist => CredentialsFileHelp
    case MissingAssistantCredentials => CredentialsFileHelp
    case NoWorkspacesAvailable => WorkspaceHelp
    case NoWorkspaceId => WorkspaceHelp
    case NoData => "No Watson Assistant data was received."
    case Error(msg) => msg
  }

  /** `CustomStringConvertible.description`: "<title>: <message>". */
  function Description(e: AssistantError): (d: string)
    ensures |d| == |AlertTitle(e)| + 2 + |AlertMessage(e)|
  {
    AlertTitle(e) + ": " + AlertMessage(e)
  }

  /** The description reads as the title, then ": ", then the message. */
  lemma DescriptionParts(e: AssistantError)
    ensures Description(e)[..|AlertTitle(e)|] == AlertTitle(e)
    ensures Description(e)[|AlertTitle(e)|..|AlertTitle(e)| + 2] == ": "
    ensures Description(e)[|AlertTitle(e)| + 2..] == AlertMessage(e)
  {
  }

  /** Each of the seven cases has its own title, and the payload of `Error`
      never shows in it: two errors share a title exactly when they are the
      same case. */
  lemma TitleIdentifiesCase(a: AssistantError, b: AssistantError)
    ensures AlertTitle(a) == AlertTitle(b) <==> CaseIndex(a) == CaseIndex(b)
  {
  }

  /** `.error` shows its payload verbatim as the alert message. */
  lemma ErrorShowsPayload(msg: string)
    ensures AlertTitle(Error(msg)) == ErrorTitle
    ensures AlertMessage(Error(msg)) == msg
    ensures Description(Error(msg)) == ErrorTitle + ": " + msg
  {
  }

  /** The two credential failures share one message and the two workspace
      failures another, so the message alone does not tell the case. */
  lemma SharedMessages()
    ensures AlertMessage(MissingCredentialsPlist) == AlertMessage(MissingAssistantCredentials)
    ensures AlertMessage(NoWorkspacesAvailable) == AlertMessage(NoWorkspaceId)
    ensures AlertMessage(Error(WorkspaceHelp)) == AlertMessage(NoWorkspaceId)
  {
  }

  /** The description loses nothing: it determines both the title and the
      message, hence the error itself whenever the message is not shared. */
  lemma DescriptionDeterminesAlert(a: AssistantError, b: AssistantError)
    requires Description(a) == Description(b)
    ensures AlertTitle(a) == AlertTitle(b)
    ensures AlertMessage(a) == AlertMessage(b)
    ensures a.Error? && b.Error? ==> a == b
  {
    DescriptionDeterminesTitle(a, b);
    DescriptionParts(a);
    DescriptionParts(b);
    var d, t := Description(a), AlertTitle(a);
    assert AlertMessage(a) == d[|t| + 2..] == AlertMessage(b);
  }

  lemma DescriptionDeterminesTitle(a: AssistantError, b: AssistantError)
    requires Description(a) == Description(b)
    ensures AlertTitle(a) == AlertTitle(b)
  {
    TitleFromDescription(a);
    TitleFromDescription(b);
  }

  /** The title is the part of the description before its first colon. */
  lemma TitleFromDescription(e: AssistantError)
    ensures BeforeColon(Description(e)) == AlertTitle(e)
  {
    JoinedTitleBeforeColon(AlertTitle(e), AlertMessage(e));
  }

  /** A colon-free title is recovered from "<title>: <message>". */
  lemma JoinedTitleBeforeColon(title: string, message: string)
    requires ':' !in title
    ensures BeforeColon(title + ": " + message) == title
  {
    var rest := ": " + message;
    assert title + ": " + message == title + rest;
    assert rest[0] == ':';
    TitleBeforeColon(title, rest);
  }

  /** The text before the first colon. */
  function BeforeColon(d: string): string
  {
    if d == [] || d[0] == ':' then [] else [d[0]] + BeforeColon(d[1..])
  }

  /** A colon-free head is recovered from its join with a colon-led tail. */
  lemma {:induction false} TitleBeforeColon(title: string, rest: string)
    requires ':' !in title && rest != [] && rest[0] == ':'
    ensures BeforeColon(title + rest) == title
  {
    if title == [] {
      assert title + rest == rest;
    } else {
      assert (title + rest)[0] == title[0] && (title + rest)[1..] == title[1..] + rest;
      TitleBeforeColon(title[1..], rest);
    }
  }
}
