/**
 * The chat message record kept in the conversation list, its tagged-payload
 * initialisers, and the initials derived from a sender's display name.
 *
 * Images, locations and timestamps are opaque handles; attributed strings keep
 * only their characters (fonts and colours are not modelled).
 */
module Messages {
  import opened Wrappers

  datatype Sender = Sender(id: string, displayName: string)

  /** An opaque point in time. */
  datatype Date = Date(instant: int)
  /** An opaque image. */
  datatype Image = Image(handle: nat)
  /** An opaque geographic location. */
  datatype GeoLocation = GeoLocation(handle: nat)
  /** A file URL, identified by the path it was built from. */
  datatype FileUrl = FileUrl(path: string)
  datatype AttributedString = AttributedString(text: string)

  /** The payload kinds a chat message can carry. */
  datatype MessageData =
    | Text(text: string)
    | AttributedText(attributed: AttributedString)
    | Photo(image: Image)
    | Video(file: FileUrl, thumbnail: Image)
    | Location(location: GeoLocation)
    | Emoji(emoji: string)

  datatype AssistantMessages = AssistantMessages(
    messageId: string,
    sender: Sender,
    sentDate: Date,
    data: MessageData)

  /** Sender, id and date are exactly the ones given. */
  predicate HasEnvelope(m: AssistantMessages, sender: Sender, messageId: string, date: Date)
  {
    m.sender == sender && m.messageId == messageId && m.sentDate == date
  }

  /** The designated initialiser: all four fields stored verbatim. */
  function FromData(data: MessageData, sender: Sender, messageId: string, date: Date): (m: AssistantMessages)
    ensures m.data == data && HasEnvelope(m, sender, messageId, date)
  {
    AssistantMessages(messageId, sender, date, data)
  }

  function FromText(text: string, sender: Sender, messageId: string, date: Date): (m: AssistantMessages)
    ensures m.data == Text(text) && HasEnvelope(m, sender, messageId, date)
  {
    FromData(Text(text), sender, messageId, date)
  }

  function FromAttributedText(attributedText: AttributedString, sender: Sender, messageId: string, date: Date): (m: AssistantMessages)
    ensures m.data == AttributedText(attributedText) && HasEnvelope(m, sender, messageId, date)
  {
    FromData(AttributedText(attributedText), sender, messageId, date)
  }

  function FromImage(image: Image, sender: Sender, messageId: string, date: Date): (m: AssistantMessages)
    ensures m.data == Photo(image) && HasEnvelope(m, sender, messageId, date)
  {
    FromData(Photo(image), sender, messageId, date)
  }

  /** A video message: the thumbnail, and a file URL made from the empty path. */
  function FromThumbnail(thumbnail: Image, sender: Sender, messageId: string, date: Date): (m: AssistantMessages)
    ensures m.data == Video(FileUrl(""), thumbnail) && HasEnvelope(m, sender, messageId, date)
  {
    var url := FileUrl("");
    FromData(Video(url, thumbnail), sender, messageId, date)
  }

  function FromLocation(location: GeoLocation, sender: Sender, messageId: string, date: Date): (m: AssistantMessages)
    ensures m.data == Location(location) && HasEnvelope(m, sender, messageId, date)
  {
    FromData(Location(location), sender, messageId, date)
  }

  function FromEmoji(emoji: string, sender: Sender, messageId: string, date: Date): (m: AssistantMessages)
    ensures m.data == Emoji(emoji) && HasEnvelope(m, sender, messageId, date)
  {
    FromData(Emoji(emoji), sender, messageId, date)
  }

  /** The characters a text-like message shows ("" for media). */
  function MessageText(m: AssistantMessages): string
  {
    match m.data
    case Text(t) => t
    case AttributedText(a) => a.text
    case Emoji(e) => e
    case _ => ""
  }

  // ---------------------------------------------------------------------------
  // Sender initials: `displayName.split(separator: " ")` (empty pieces
  // omitted), then one fragment per piece, rendered from the piece's optional
  // first character.

  /** The longest prefix without a space. */
  function FirstWord(s: string): (w: string)
    ensures |w| <= |s| && w == s[..|w|]
    ensures ' ' !in w
    ensures |w| == |s| || s[|w|] == ' '
    ensures s != [] && s[0] != ' ' ==> |w| > 0
  {
    if s == [] || s[0] == ' ' then [] else [s[0]] + FirstWord(s[1..])
  }

  /** The non-empty, space-separated words of `s`, in order. */
  function Words(s: string): (ws: seq<string>)
    ensures forall i :: 0 <= i < |ws| ==> ws[i] != [] && ' ' !in ws[i]
    decreases |s|
  {
    if s == [] then []
    else if s[0] == ' ' then Words(s[1..])
    else
      var w := FirstWord(s);
      [w] + Words(s[|w|..])
  }

  /** A name has no words exactly when it is all spaces. */
  lemma {:induction false} NoWordsIffBlank(s: string)
    ensures Words(s) == [] <==> forall i :: 0 <= i < |s| ==> s[i] == ' '
    decreases |s|
  {
    if s != [] && s[0] == ' ' {
      NoWordsIffBlank(s[1..]);
      assert forall i :: 0 < i < |s| ==> s[i] == s[1..][i - 1];
    }
  }

  /** `s` with its spaces removed. */
  function Unspaced(s: string): (r: string)
  {
    if s == [] then [] else (if s[0] == ' ' then [] else [s[0]]) + Unspaced(s[1..])
  }

  function Concat(ws: seq<string>): string
  {
    if ws == [] then [] else ws[0] + Concat(ws[1..])
  }

  /** The first character of a word, as Swift's `first`. */
  function First(w: string): Option<char>
  {
    if w == [] then None else Some(w[0])
  }

  /** `reduce(acc) { $0 + describe($1.first) }`. */
  function Reduce(ws: seq<string>, acc: string, describe: Option<char> -> string): (r: string)
    ensures |acc| <= |r| && r[..|acc|] == acc
  {
    if ws == [] then acc else Reduce(ws[1..], acc + describe(First(ws[0])), describe)
  }

  /** The sender's initials. How one optional character is rendered is given
      by `describe` (Swift's `String(describing:)`). */
  function Initials(displayName: string, describe: Option<char> -> string): (r: string)
    ensures r == Fragments(Words(displayName), describe)
  {
    ReduceIsFragments(Words(displayName), "", describe);
    Reduce(Words(displayName), "", describe)
  }

  /** One fragment per word, in order: the reference reading of `Initials`. */
  function Fragments(ws: seq<string>, describe: Option<char> -> string): string
  {
    if ws == [] then [] else describe(First(ws[0])) + Fragments(ws[1..], describe)
  }

  lemma {:induction false} UnspacedAppend(a: string, b: string)
    ensures Unspaced(a + b) == Unspaced(a) + Unspaced(b)
  {
    if a == [] {
      assert a + b == b;
    } else {
      assert (a + b)[0] == a[0] && (a + b)[1..] == a[1..] + b;
      UnspacedAppend(a[1..], b);
    }
  }

  lemma {:induction false} UnspacedOfWord(w: string)
    requires ' ' !in w
    ensures Unspaced(w) == w
  {
    if w != [] {
      UnspacedOfWord(w[1..]);
    }
  }

  /** Splitting keeps every non-space character, in order: the words put back
      together are the name without its spaces. */
  lemma {:induction false} WordsKeepEveryLetter(s: string)
    ensures Concat(Words(s)) == Unspaced(s)
    decreases |s|
  {
    if s == [] {
    } else if s[0] == ' ' {
      WordsKeepEveryLetter(s[1..]);
    } else {
      var w := FirstWord(s);
      var rest := s[|w|..];
      assert s == w + rest;
      WordsKeepEveryLetter(rest);
      UnspacedAppend(w, rest);
      UnspacedOfWord(w);
    }
  }

  lemma {:induction false} FirstWordBeforeSpace(a: string, b: string)
    ensures FirstWord(a + " " + b) == FirstWord(a)
  {
    if a == [] {
      assert (a + " " + b)[0] == ' ';
    } else if a[0] != ' ' {
      assert (a + " " + b)[0] == a[0] && (a + " " + b)[1..] == a[1..] + " " + b;
      FirstWordBeforeSpace(a[1..], b);
    }
  }

  /** Joining two names with a space joins their word lists. */
  lemma {:induction false} WordsOfJoin(a: string, b: string)
    ensures Words(a + " " + b) == Words(a) + Words(b)
    decreases |a|
  {
    if a == [] {
      WordsSkipSpace(a + " " + b, b);
    } else if a[0] == ' ' {
      WordsSkipSpace(a + " " + b, a[1..] + " " + b);
      WordsSkipSpace(a, a[1..]);
      WordsOfJoin(a[1..], b);
    } else {
      WordsOfJoinAtWord(a, b);
    }
  }

  /** The step of `WordsOfJoin` when `a` starts with a letter. */
  lemma {:induction false} WordsOfJoinAtWord(a: string, b: string)
    requires a != [] && a[0] != ' '
    ensures Words(a + " " + b) == Words(a) + Words(b)
    decreases |a|, 0
  {
    var w := FirstWord(a);
    var rest := a[|w|..];
    FirstWordBeforeSpace(a, b);
    WordsTakeWord(a + " " + b, w, rest + " " + b);
    WordsTakeWord(a, w, rest);
    WordsOfJoin(rest, b);
    assert [w] + (Words(rest) + Words(b)) == ([w] + Words(rest)) + Words(b);
  }

  lemma WordsSkipSpace(s: string, rest: string)
    requires s != [] && s[0] == ' ' && rest == s[1..]
    ensures Words(s) == Words(rest)
  {
  }

  lemma WordsTakeWord(s: string, w: string, rest: string)
    requires s != [] && s[0] != ' ' && w == FirstWord(s) && rest == s[|w|..]
    ensures Words(s) == [w] + Words(rest)
  {
  }

  /** The fold with an accumulator is the accumulator followed by the fragments. */
  lemma {:induction false} ReduceIsFragments(ws: seq<string>, acc: string, describe: Option<char> -> string)
    ensures Reduce(ws, acc, describe) == acc + Fragments(ws, describe)
  {
    if ws == [] {
      assert acc + [] == acc;
    } else {
      var frag := describe(First(ws[0]));
      ReduceIsFragments(ws[1..], acc + frag, describe);
      assert acc + frag + Fragments(ws[1..], describe) == acc + (frag + Fragments(ws[1..], describe));
    }
  }

  lemma {:induction false} FragmentsAppend(xs: seq<string>, ys: seq<string>, describe: Option<char> -> string)
    ensures Fragments(xs + ys, describe) == Fragments(xs, describe) + Fragments(ys, describe)
  {
    if xs == [] {
      assert xs + ys == ys;
    } else {
      assert (xs + ys)[0] == xs[0] && (xs + ys)[1..] == xs[1..] + ys;
      FragmentsAppend(xs[1..], ys, describe);
    }
  }

  /** Initials are one fragment per word, from the word's first letter, in order. */
  lemma InitialsAreFirstLetters(displayName: string, describe: Option<char> -> string)
    ensures Initials(displayName, describe) == Fragments(Words(displayName), describe)
    ensures forall i :: 0 <= i < |Words(displayName)| ==> First(Words(displayName)[i]).Some?
  {
    ReduceIsFragments(Words(displayName), "", describe);
  }

  /** An empty or all-space name has no initials. */
  lemma InitialsOfBlankName(displayName: string, describe: Option<char> -> string)
    requires forall i :: 0 <= i < |displayName| ==> displayName[i] == ' '
    ensures Initials(displayName, describe) == ""
  {
    NoWordsIffBlank(displayName);
  }

  /** The initials of "first last" are the initials of "first" followed by
      those of "last". */
  lemma InitialsOfJoin(a: string, b: string, describe: Option<char> -> string)
    ensures Initials(a + " " + b, describe) == Initials(a, describe) + Initials(b, describe)
  {
    WordsOfJoin(a, b);
    InitialsAreFirstLetters(a + " " + b, describe);
    InitialsAreFirstLetters(a, describe);
    InitialsAreFirstLetters(b, describe);
    FragmentsAppend(Words(a), Words(b), describe);
  }

  /** A single word contributes exactly the fragment of its first letter. */
  lemma InitialsOfOneWord(w: string, describe: Option<char> -> string)
    requires w != [] && ' ' !in w
    ensures Initials(w, describe) == describe(Some(w[0]))
  {
    assert FirstWord(w) == w;
    assert w[|w|..] == [];
    assert Words(w) == [w];
    var frag := describe(First(w));
    assert [w][1..] == [];
    assert Reduce([w], "", describe) == Reduce([], "" + frag, describe) == "" + frag;
    assert "" + frag == frag;
  }

  /** A name without spaces is a single word. */
  lemma WordsOfOneWord(w: string)
    requires w != [] && ' ' !in w
    ensures Words(w) == [w]
  {
    assert FirstWord(w) == w;
    assert w[|w|..] == [];
  }

  // ---------------------------------------------------------------------------
  // The rendering actually used: `String(describing:)` of an optional
  // character keeps the `Optional(...)` wrapper and the quotes.

  /** A character that Swift's debug rendering shows as itself: printable
      ASCII other than the quote marks and the backslash, which it escapes. */
  predicate ShownVerbatim(ch: char)
  {
    ' ' <= ch <= '~' && ch != '"' && ch != '\'' && ch != '\\'
  }

  function OptionalDescription(c: Option<char>): (r: string)
    ensures c.Some? && ShownVerbatim(c.value) ==> |r| > 1 && c.value in r
    ensures r != Letter(c)
  {
    match c
    case None => "nil"
    case Some(ch) => "Optional(\"" + [ch] + "\")"
  }

  /** As written, a one-word name such as "Ginni" has the initials
      `Optional("G")`, not "G". */
  lemma InitialsAsWrittenKeepWrapper(w: string)
    requires w != [] && ' ' !in w && ShownVerbatim(w[0])
    ensures Initials(w, OptionalDescription) == "Optional(\"" + [w[0]] + "\")"
    ensures Initials(w, OptionalDescription) != CorrectedInitials(w)
  {
    InitialsOfOneWord(w, OptionalDescription);
    WordsOfOneWord(w);
  }

  /** The evidently intended rendering: the character itself. */
  function Letter(c: Option<char>): string
  {
    match c
    case None => ""
    case Some(ch) => [ch]
  }

  /** Initials as intended: the first letter of each word, in order. */
  function CorrectedInitials(displayName: string): (r: string)
    ensures |r| == |Words(displayName)|
    ensures forall i :: 0 <= i < |r| ==> r[i] == Words(displayName)[i][0]
  {
    InitialsAreFirstLetters(displayName, Letter);
    LettersOfWords(Words(displayName));
    Initials(displayName, Letter)
  }

  lemma {:induction false} LettersOfWords(ws: seq<string>)
    requires forall i :: 0 <= i < |ws| ==> ws[i] != []
    ensures |Fragments(ws, Letter)| == |ws|
    ensures forall i :: 0 <= i < |ws| ==> Fragments(ws, Letter)[i] == ws[i][0]
  {
    if ws != [] {
      LettersOfWords(ws[1..]);
      var f := Fragments(ws, Letter);
      assert f == [ws[0][0]] + Fragments(ws[1..], Letter);
      forall i | 0 < i < |ws|
        ensures f[i] == ws[i][0]
      {
        assert f[i] == Fragments(ws[1..], Letter)[i - 1] && ws[1..][i - 1] == ws[i];
      }
    }
  }

  /** A first and a last name give two letters ("Ginni Rometty" gives "GR"). */
  lemma CorrectedInitialsOfFullName(first: string, last: string)
    requires first != [] && ' ' !in first
    requires last != [] && ' ' !in last
    ensures CorrectedInitials(first + " " + last) == [first[0], last[0]]
  {
    WordsOfOneWord(first);
    WordsOfOneWord(last);
    WordsOfJoin(first, last);
    assert Words(first + " " + last) == [first, last];
  }
}
