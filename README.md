# Watson Assistant chat session, modelled in Dafny

The iOS chat client keeps a small conversation session behind its chat screen:

- **State.** The session holds the list of chat messages, the dialogue `context` returned by the Watson Assistant service, the selected `workspaceID` and the configured `assistant`.
- **Start-up.** It reads the credentials. It uses the configured workspace, or else asks the service for its workspaces and takes the first one. It then requests the opening message and inserts each opening utterance at the front of the list.
- **Sending.** When the user presses send, it echoes the typed text into the list. It sends a cleaned form of the text: trimmed of whitespace and newlines, with each line break turned into ". ". The current context goes with it.
- **Replies.** It appends every non-empty utterance of the reply and carries the reply's context forward.
- **Errors.** Failures are reported through a closed set of `AssistantError` cases. Each case has an alert title, an alert message and a description.

The project has five modules:

- `Wrappers`: Swift optionals (`Option`) and a `Result`.
- `Errors`: `AssistantError` with `AlertTitle`, `AlertMessage` and `Description`.
- `Messages`: the message record, its initialisers and the sender's initials.
- `TextCleanup`: the cleanup of outgoing text.
- `Conversation`: the `Session` class with one method per step of the session.

Each call into the SDK becomes a pair. The step that issues the call returns a `Call(request)` effect. A separate method handles the completion, with the SDK's error and result as arguments. Alerts are returned as `ShowAlert(error)` effects. Message ids and dates are passed in as `Stamp` values: one for the echo of a send, and one per utterance of a response. The stamps of empty reply utterances go unused.

Some behaviour of the app is easy to miss; the model keeps it:

- Opening utterances are inserted at index 0, one after another. They therefore end up in reverse order, ahead of any existing messages. Empty utterances are inserted too.
- A nil opening-message result reports `noWorkspaceId`, not `noData`.
- After a missing-credentials alert, start-up still goes on to the workspace step.
- Sending does not check that the text is non-empty after trimming. It also does not check that the stored `workspaceID` is non-empty.
- The context is stored only while handling an utterance: in a reply, only a non-empty one; in the opening turn, any one. A reply whose utterances are all empty, or that has none, keeps the old context, and the next send carries it (see Findings).

## Model

| member | source | states |
|---|---|---|
| Errors.AlertTitle | iosapp/AssistantError.swift:36-46 | every case has a non-empty title without a colon; the title is "An Error Occurred" exactly for `.error`, whatever its payload |
| Errors.AlertMessage | iosapp/AssistantError.swift:48-58 | `.error(msg)` shows `msg` verbatim |
| Errors.Description | iosapp/AssistantError.swift:60-62 | the description is as long as the title, ": " and the message together |
| Errors.DescriptionParts | iosapp/AssistantError.swift:60-62 | the description starts with the title, continues with ": " and ends with the message |
| Errors.TitleIdentifiesCase | iosapp/AssistantError.swift:36-46 | two errors share a title exactly when they are the same case: the seven titles are distinct |
| Errors.ErrorShowsPayload | iosapp/AssistantError.swift:44-56 | for `.error(msg)`: the fixed title, the message `msg`, and the description "An Error Occurred: msg" |
| Errors.SharedMessages | iosapp/AssistantError.swift:51-54 | the two credential cases share one message and the two workspace cases another, so the message is not injective |
| Errors.TitleFromDescription | iosapp/AssistantError.swift:60-62 | the title is the part of the description before its first colon |
| Errors.DescriptionDeterminesTitle | iosapp/AssistantError.swift:60-62 | equal descriptions imply equal titles |
| Errors.DescriptionDeterminesAlert | iosapp/AssistantError.swift:60-62 | equal descriptions imply equal title and message, and equal errors when both are `.error` |
| Messages.FromData | ioswatsonassistantexample/AssistantMessages.swift:28-33 | the designated initialiser stores data, sender, id and date verbatim |
| Messages.FromText | ioswatsonassistantexample/AssistantMessages.swift:35-37 | data is `.text(text)`; sender, id and date pass through |
| Messages.FromAttributedText | ioswatsonassistantexample/AssistantMessages.swift:39-41 | data is `.attributedText(a)`; sender, id and date pass through |
| Messages.FromImage | ioswatsonassistantexample/AssistantMessages.swift:43-45 | data is `.photo(image)`; sender, id and date pass through |
| Messages.FromThumbnail | ioswatsonassistantexample/AssistantMessages.swift:47-50 | data is `.video` with the given thumbnail and a file URL made from the empty path |
| Messages.FromLocation | ioswatsonassistantexample/AssistantMessages.swift:52-54 | data is `.location(location)`; sender, id and date pass through |
| Messages.FromEmoji | ioswatsonassistantexample/AssistantMessages.swift:56-58 | data is `.emoji(emoji)`; sender, id and date pass through |
| Messages.FirstWord | ioswatsonassistantexample/AssistantMessages.swift:64 | the longest space-free prefix: a prefix, without spaces, ending at a space or at the end |
| Messages.Words | ioswatsonassistantexample/AssistantMessages.swift:64 | `split(separator: " ")`: every piece is non-empty and space-free |
| Messages.NoWordsIffBlank | ioswatsonassistantexample/AssistantMessages.swift:64 | a name has no pieces exactly when it is all spaces |
| Messages.WordsKeepEveryLetter | ioswatsonassistantexample/AssistantMessages.swift:64 | the pieces put back together are the name without its spaces |
| Messages.WordsOfJoin | ioswatsonassistantexample/AssistantMessages.swift:64 | splitting `a + " " + b` gives the pieces of `a` followed by those of `b` |
| Messages.WordsOfOneWord | ioswatsonassistantexample/AssistantMessages.swift:64 | a non-empty name without spaces is one piece |
| Messages.Reduce | ioswatsonassistantexample/AssistantMessages.swift:64 | the `reduce("")` fold only appends: its seed is a prefix of the result |
| Messages.Initials | ioswatsonassistantexample/AssistantMessages.swift:63-65 | `Sender.initials`: the fragments of the name's words, in order, for a given rendering of each optional first character |
| Messages.OptionalDescription | ioswatsonassistantexample/AssistantMessages.swift:64 | `String(describing:)` of an optional character: a present printable ASCII character other than a quote mark or backslash shows inside a longer text, and the rendering never equals the bare letter |
| Messages.ReduceIsFragments | ioswatsonassistantexample/AssistantMessages.swift:64 | the `reduce` fold is its seed followed by one fragment per piece |
| Messages.InitialsAreFirstLetters | ioswatsonassistantexample/AssistantMessages.swift:63-65 | initials are one fragment per non-empty word, in order, each rendered from a first character that exists |
| Messages.InitialsOfBlankName | ioswatsonassistantexample/AssistantMessages.swift:63-65 | an empty or all-space name has the initials "" |
| Messages.InitialsOfJoin | ioswatsonassistantexample/AssistantMessages.swift:63-65 | the initials of "first last" are those of "first" followed by those of "last" |
| Messages.InitialsOfOneWord | ioswatsonassistantexample/AssistantMessages.swift:63-65 | a one-word name contributes exactly the fragment of its first character |
| Messages.InitialsAsWrittenKeepWrapper | ioswatsonassistantexample/AssistantMessages.swift:64 | as written, a one-word name `w` whose first letter is printable ASCII other than a quote mark or backslash has the initials `Optional("<first letter>")`, which differ from the intended letter |
| Messages.CorrectedInitials | ioswatsonassistantexample/AssistantMessages.swift:63-65 | intended initials: one character per word, the i-th being the first letter of the i-th word |
| Messages.LettersOfWords | ioswatsonassistantexample/AssistantMessages.swift:64 | rendering each first letter as itself gives exactly the first letters, one per word |
| Messages.CorrectedInitialsOfFullName | ioswatsonassistantexample/AssistantMessages.swift:63-65 | "first last" gives the two first letters ("Ginni Rometty" gives "GR") |
| TextCleanup.IsWhitespaceOrNewline | iosapp/ViewController.swift:533 | `.whitespacesAndNewlines`: space, tab, line feed and carriage return are in the set; no visible ASCII character is |
| TextCleanup.TrimLeading | iosapp/ViewController.swift:533 | drops exactly the longest all-whitespace prefix |
| TextCleanup.TrimTrailing | iosapp/ViewController.swift:533 | drops exactly the longest all-whitespace suffix |
| TextCleanup.Trim | iosapp/ViewController.swift:533 | the result has no outer whitespace; it is empty exactly for all-whitespace input; text without outer whitespace is unchanged |
| TextCleanup.TrimTrailingIgnoresWhitespace | iosapp/ViewController.swift:533 | trailing whitespace never survives trimming |
| TextCleanup.ReplaceNewlines | iosapp/ViewController.swift:534 | a lone "\n" becomes ". "; no "\n" remains; text without "\n" is unchanged; empty exactly for empty input; first and last non-newline characters are kept |
| TextCleanup.ReplaceNewlinesAppend | iosapp/ViewController.swift:534 | replacing newlines distributes over concatenation |
| TextCleanup.CleanText | iosapp/ViewController.swift:532-534 | the outbound text has no "\n" and no outer whitespace, and is empty exactly for all-whitespace input |
| TextCleanup.CleanTextIdempotent | iosapp/ViewController.swift:532-534 | cleaning twice is cleaning once |
| TextCleanup.CleanTextFixesPlainText | iosapp/ViewController.swift:532-534 | text without outer whitespace and without line breaks is sent unchanged |
| TextCleanup.CleanTextJoinsLines | iosapp/ViewController.swift:532-534 | "a\nb" followed by whitespace is sent as "a. b" |
| TextCleanup.CleanTextExample | iosapp/ViewController.swift:532-534 | "hello\nworld  " is sent as "hello. world" |
| Conversation.FailAssistantWithError | iosapp/ViewController.swift:191-193 | an SDK failure becomes an `.error` alert titled "An Error Occurred" whose message is the failure's localized description |
| Conversation.FirstMessageEffect | iosapp/ViewController.swift:229-240 | the opening message is requested exactly when there is an assistant and a workspace; otherwise `missingAssistantCredentials` when the assistant is missing, else `noWorkspaceId` |
| Conversation.ChooseWorkspace | iosapp/ViewController.swift:171-183 | succeeds exactly when the list is non-empty and its first id is non-empty, with that id; otherwise `noWorkspacesAvailable` for an empty list and `noWorkspaceId` for an empty id |
| Conversation.FirstWorkspaceWins | iosapp/ViewController.swift:171 | entries after the first are never consulted |
| Conversation.WatsonMessage | iosapp/ViewController.swift:260-265 | a Watson text bubble showing exactly the utterance, with the given id and date |
| Conversation.OpeningMessages | iosapp/ViewController.swift:250-272 | one Watson text bubble per opening utterance, empty ones included |
| Conversation.OpeningMessagesReversed | iosapp/ViewController.swift:250-272 | the k-th opening message shows the k-th utterance from the end: the order is reversed |
| Conversation.ReplyMessages | iosapp/ViewController.swift:551-567 | at most one bubble per utterance, each a non-empty Watson text bubble |
| Conversation.ReplyShowsNonEmptyUtterances | iosapp/ViewController.swift:551-567 | the texts of the appended bubbles are exactly the non-empty utterances, in response order |
| Conversation.ReplyNonEmptyIff | iosapp/ViewController.swift:551-557 | a reply adds bubbles if and only if one of its utterances is non-empty |
| Conversation.ReplyContext | iosapp/ViewController.swift:551-557 | after a reply, the session holds the response's context if some utterance is non-empty, and its previous context otherwise |
| Conversation.EmptyReplyKeepsStaleContext | iosapp/ViewController.swift:551-557 | as written, a reply of only empty utterances, or of none, leaves the previous context, not the response's |
| Conversation.CorrectedReplyContext | iosapp/ViewController.swift:541-557 | intended: every successful reply stores the response's context; this differs from the code only for replies with nothing to show |
| Conversation.ReplyExample | iosapp/ViewController.swift:551-567 | of ["", "Hi there", ""] only "Hi there" is shown |
| Conversation.Session.constructor | iosapp/ViewController.swift:29-42 | empty list, no context, no workspace and no assistant; the two participants are "Ginni" (123456) and "Watson" (654321) |
| Conversation.Session.InstantiateAssistant | iosapp/ViewController.swift:91-165 | a missing credentials file alerts and stops. Credentials create the assistant with version "2018-02-01", and their absence alerts and continues. A configured workspaceID is stored and the opening message is requested with no listing call; otherwise the workspaces are listed when there is an assistant |
| Conversation.Session.OnWorkspacesListed | iosapp/ViewController.swift:151-163 | an error alerts its description; a nil result reports `noWorkspacesAvailable`; otherwise the list is resolved as `ChooseWorkspace` says |
| Conversation.Session.WorkspaceList | iosapp/ViewController.swift:168-188 | the list is resolved as `ChooseWorkspace` says: a failure is alerted and leaves `workspaceID` unchanged; a chosen id is stored and the opening message is requested as `FirstMessageEffect` says |
| Conversation.Session.RetrieveFirstMessage | iosapp/ViewController.swift:223-240 | the step's effect is `FirstMessageEffect` of the session's assistant and workspace: the missing-assistant alert first, then the missing-workspace alert, otherwise the request |
| Conversation.Session.OnFirstMessage | iosapp/ViewController.swift:240-274 | an error alerts and a nil result reports `noWorkspaceId`, both leaving the state unchanged. Otherwise the opening messages go in front of the old list, and the context is replaced exactly when an utterance was returned |
| Conversation.Session.DidPressSend | iosapp/ViewController.swift:511-539 | with no assistant or no workspace, it alerts and changes nothing. Otherwise it appends one echo from the current user carrying the untrimmed text, and sends the cleaned text with the current context |
| Conversation.Session.OnReply | iosapp/ViewController.swift:541-572 | an error alerts and a nil result reports `noData`, both leaving the state unchanged. Otherwise the old list gains the non-empty utterances in order, and the context becomes `ReplyContext` of the old one |
| Conversation.Session.NumberOfMessages | iosapp/ViewController.swift:335-337 | the row count is the length of the message list |
| Conversation.Session.MessageForItem | iosapp/ViewController.swift:339-341 | row `section` is the message at that index, a text bubble from one of the two participants |

## Left out

- All MessageKit display, layout and cell delegate methods, the alert presentation in `showAlert`, and the activity indicator with its delayed status texts: user interface only. The model records which `AssistantError` is raised.
- Reading `BMSCredentials.plist` and constructing `WatsonIAMAuthenticator`: foreign I/O. The file is a `Configuration` record of optional entries, and `None` stands for a missing or unreadable file.
- The `listWorkspaces` and `message` network calls: their outcomes are method arguments (`OnWorkspacesListed`, `OnFirstMessage`, `OnReply`).
- `DispatchQueue` hops and the `NotificationCenter` observer (`didBecomeActive`): callbacks run one after another. The race between overlapping sends is not modelled.
- `dateAddingRandomTime` and `UUID()`: randomness and clocks. Each new message receives a caller-supplied `Stamp`.
- Font and colour attributes of `NSAttributedString`, `getAvatarFor` with its image assets, and `UIImage`/`CLLocation` payloads: opaque values (`AttributedString(text)`, `Image`, `GeoLocation`).
- Clearing the input bar and reloading or scrolling the collection view: user interface only.
- Characters are Unicode scalar values. Foundation's grapheme clusters ("\r\n" as one `Character`) are not modelled.
- `current` is a `var` in the source but is never reassigned, so the model keeps it as a constant.
- Messages.OptionalDescription: Swift renders the character through its debug description, which escapes quote marks, the backslash, control characters and other non-printable characters inside the quotes (a leading tab shows as a backslash and `t`). The model writes every character as itself, so its claims, and those of `InitialsAsWrittenKeepWrapper`, are made only for printable ASCII characters other than the quote marks and the backslash.
- Messages.Initials: the text of each fragment is a parameter (`describe`). The `Optional(...)` rendering the code produces is modelled separately, see Findings.

## Findings

| source | as written | input that shows it | evidently intended | confidence | as-written member | corrected member |
|---|---|---|---|---|---|---|
| ioswatsonassistantexample/AssistantMessages.swift:64 | each fragment is `String(describing: $1.first)`, and `first` is an `Optional<Character>`, so the wrapper is rendered | display name "Ginni" gives `Optional("G")` | "G": one letter per word, as the hard-coded avatar initials "GR" suggest | high; not executed | Messages.InitialsAsWrittenKeepWrapper | Messages.CorrectedInitials |
| iosapp/ViewController.swift:551-557 | the response's context is stored inside the loop, after the empty-utterance `continue` | a reply with text ["", ""] and context c3, received while the session holds c2: the session keeps c2 and the next send carries it | every successful exchange stores the response's context | medium; not executed | Conversation.EmptyReplyKeepsStaleContext | Conversation.CorrectedReplyContext |
