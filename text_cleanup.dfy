/**
 * The text that the chat screen forwards to the dialogue service: the user's
 * input trimmed of surrounding whitespace and newlines, with every remaining
 * line break turned into a sentence break (". ").
 *
 * Characters are Unicode scalar values; Foundation's grapheme handling
 * ("\r\n" as one Character) is not modelled.
 */
module TextCleanup {

  /** Foundation's `CharacterSet.whitespacesAndNewlines`: the Unicode space
      separators (category Zs), the tab, U+000A..U+000D, U+0085 and the line and
      paragraph separators U+2028 and U+2029. */
  predicate IsWhitespaceOrNewline(c: char)
    ensures c == ' ' || c == '\n' || c == '\r' || c == '\t' ==> IsWhitespaceOrNewline(c)
    ensures '!' <= c <= '~' ==> !IsWhitespaceOrNewline(c)
  {
    || c == ' ' || c == '\t'
    || ('\n' <= c <= '\r')
    || c == '\U{0085}' || c == '\U{00A0}' || c == '\U{1680}'
    || ('\U{2000}' <= c <= '\U{200A}')
    || c == '\U{2028}' || c == '\U{2029}'
    || c == '\U{202F}' || c == '\U{205F}' || c == '\U{3000}'
  }

  predicate AllWhitespace(s: string)
  {
    forall i :: 0 <= i < |s| ==> IsWhitespaceOrNewline(s[i])
  }

  /** Neither the first nor the last character is whitespace (vacuous on ""). */
  predicate NoOuterWhitespace(s: string)
  {
    s == [] || (!IsWhitespaceOrNewline(s[0]) && !IsWhitespaceOrNewline(s[|s| - 1]))
  }

  /** Drops the longest all-whitespace prefix. */
  function TrimLeading(s: string): (r: string)
    ensures |r| <= |s| && r == s[|s| - |r|..]
    ensures forall i :: 0 <= i < |s| - |r| ==> IsWhitespaceOrNewline(s[i])
    ensures r == [] || !IsWhitespaceOrNewline(r[0])
  {
    if s != [] && IsWhitespaceOrNewline(s[0]) then TrimLeading(s[1..]) else s
  }

  /** Drops the longest all-whitespace suffix. */
  function TrimTrailing(s: string): (r: string)
    ensures |r| <= |s| && r == s[..|r|]
    ensures forall i :: |r| <= i < |s| ==> IsWhitespaceOrNewline(s[i])
    ensures r == [] || !IsWhitespaceOrNewline(r[|r| - 1])
  {
    if s != [] && IsWhitespaceOrNewline(s[|s| - 1]) then TrimTrailing(s[..|s| - 1]) else s
  }

  /** `trimmingCharacters(in: .whitespacesAndNewlines)`. */
  function Trim(s: string): (r: string)
    ensures NoOuterWhitespace(r)
    ensures r == [] <==> AllWhitespace(s)
    ensures NoOuterWhitespace(s) ==> r == s
  {
    TrimTrailing(TrimLeading(s))
  }

  /** `replacingOccurrences(of: "\n", with: ". ")`. */
  function ReplaceNewlines(s: string): (r: string)
    ensures '\n' !in r
    ensures '\n' !in s ==> r == s
    ensures r == [] <==> s == []
    ensures s == "\n" ==> r == ". "
    ensures s != [] && s[0] != '\n' ==> r[0] == s[0]
    ensures s != [] && s[|s| - 1] != '\n' ==> r[|r| - 1] == s[|s| - 1]
  {
    if s == [] then []
    else (if s[0] == '\n' then ". " else [s[0]]) + ReplaceNewlines(s[1..])
  }

  /** Replacing newlines works piece by piece: it distributes over concatenation. */
  lemma {:induction false} ReplaceNewlinesAppend(a: string, b: string)
    ensures ReplaceNewlines(a + b) == ReplaceNewlines(a) + ReplaceNewlines(b)
  {
    if a == [] {
      assert a + b == b;
    } else {
      assert (a + b)[0] == a[0];
      assert (a + b)[1..] == a[1..] + b;
      ReplaceNewlinesAppend(a[1..], b);
    }
  }

  /** The outbound text of a send. */
  function CleanText(text: string): (r: string)
    ensures '\n' !in r
    ensures NoOuterWhitespace(r)
    ensures r == [] <==> AllWhitespace(text)
  {
    ReplaceNewlines(Trim(text))
  }

  /** Cleaning already-clean text changes nothing. */
  lemma CleanTextIdempotent(text: string)
    ensures CleanText(CleanText(text)) == CleanText(text)
  {
    var c := CleanText(text);
    assert Trim(c) == c;
  }

  /** Every character that is neither whitespace at the ends nor a newline is
      sent unchanged: text without outer whitespace and without line breaks is
      its own cleaned form. */
  lemma CleanTextFixesPlainText(text: string)
    requires NoOuterWhitespace(text) && '\n' !in text
    ensures CleanText(text) == text
  {
    assert Trim(text) == text;
  }

  /** Whitespace at the end never reaches the service. */
  lemma {:induction false} TrimTrailingIgnoresWhitespace(s: string, w: string)
    requires AllWhitespace(w)
    ensures TrimTrailing(s + w) == TrimTrailing(s)
    decreases |w|
  {
    if w == [] {
      assert s + w == s;
    } else {
      var t := s + w;
      assert t[|t| - 1] == w[|w| - 1];
      assert t[..|t| - 1] == s + w[..|w| - 1];
      TrimTrailingIgnoresWhitespace(s, w[..|w| - 1]);
    }
  }

  /** An interior line break becomes exactly one sentence break, and trailing
      whitespace is dropped. */
  lemma {:induction false} CleanTextJoinsLines(a: string, b: string, w: string)
    requires a != [] && b != []
    requires NoOuterWhitespace(a) && NoOuterWhitespace(b)
    requires '\n' !in a && '\n' !in b
    requires AllWhitespace(w)
    ensures CleanText(a + "\n" + b + w) == a + ". " + b
  {
    var s := a + "\n" + b;
    assert (s + w)[0] == a[0];
    assert TrimLeading(s + w) == s + w;
    TrimTrailingIgnoresWhitespace(s, w);
    assert s[|s| - 1] == b[|b| - 1];
    assert TrimTrailing(s) == s;
    assert Trim(s + w) == s;
    var nl: string := "\n";
    assert nl[1..] == [];
    assert ReplaceNewlines(nl) == ". ";
    assert ReplaceNewlines(a) == a;
    assert ReplaceNewlines(b) == b;
    ReplaceNewlinesAppend(a, nl);
    ReplaceNewlinesAppend(a + nl, b);
  }

  /** The worked example: "hello\nworld  " is sent as "hello. world". */
  lemma CleanTextExample()
    ensures CleanText("hello\nworld  ") == "hello. world"
  {
    var a, b, w := "hello", "world", "  ";
    assert NoOuterWhitespace(a) && NoOuterWhitespace(b);
    assert '\n' !in a && '\n' !in b;
    assert AllWhitespace(w);
    assert a + "\n" + b + w == "hello\nworld  ";
    assert a + ". " + b == "hello. world";
    CleanTextJoinsLines(a, b, w);
  }
}
