/** The two custom renderers of the chat's Markdown component
    (client/src/components/chat-page/MarkdownComp.tsx): table cells whose
    text is a status, and code elements that name a language. */
module MarkdownComp {
  import opened Js

  /** The text colour of a table cell. */
  datatype Colour = Primary | Green | Orange | Red

  /** What a `td` renders: its colour and its children. */
  datatype Cell = Cell(colour: Colour, display: Value)

  /** The colour chosen for a string child, on the text as it arrives. */
  function StatusColour(text: string): Colour {
    if text == "_complete" then Green
    else if text == "_pending" then Orange
    else if text == "_canceled" then Red
    else Primary
  }

  /** `text.replace(/^_/, "")`: one leading underscore removed, if any. */
  function StripUnderscore(text: string): string {
    if |text| > 0 && text[0] == '_' then text[1..] else text
  }

  /** The `td` renderer: a string child is coloured by its status and shown
      without its leading underscore; any other child is shown as it is, in
      the primary colour. */
  function RenderCell(children: Value): (c: Cell)
    ensures !children.Str? ==> c == Cell(Primary, children)
    ensures children.Str? ==> c.display.Str?
  {
    match children
    case Str(text) => Cell(StatusColour(text), Str(StripUnderscore(text)))
    case _ => Cell(Primary, children)
  }

  /** Exactly the three status words get a colour of their own, decided on
      the text before stripping; the others keep the primary colour. */
  lemma StatusColours(text: string)
    ensures RenderCell(Str(text)).colour != Primary <==>
      text == "_complete" || text == "_pending" || text == "_canceled"
    ensures text == "_complete" ==> RenderCell(Str(text)) == Cell(Green, Str("complete"))
    ensures text == "_pending" ==> RenderCell(Str(text)) == Cell(Orange, Str("pending"))
    ensures text == "_canceled" ==> RenderCell(Str(text)) == Cell(Red, Str("canceled"))
    ensures RenderCell(Str("complete")).colour == Primary
  {
    assert "_complete"[1..] == "complete";
    assert "_pending"[1..] == "pending";
    assert "_canceled"[1..] == "canceled";
  }

  /** At most one leading underscore goes: the shown text is the original,
      or the original is "_" followed by it. */
  lemma StripsAtMostOne(text: string)
    ensures var shown := RenderCell(Str(text)).display.s;
      (shown == text && (|text| == 0 || text[0] != '_')) || ("_" + shown == text)
    ensures StripUnderscore("__x") == "_x"
  {
    assert "__x"[1..] == "_x";
    if |text| > 0 && text[0] == '_' {
      assert "_" + text[1..] == text;
    }
  }

  // ------------------------------------------------------------- code

  /** `\w`: a letter, a digit or an underscore. */
  predicate IsWordChar(c: char) {
    ('a' <= c <= 'z') || ('A' <= c <= 'Z') || ('0' <= c <= '9') || c == '_'
  }

  /** `language-(\w+)` matches at `i`. */
  predicate MatchesAt(cls: string, i: nat) {
    i + 10 <= |cls| && cls[i..i + 9] == "language-" && IsWordChar(cls[i + 9])
  }

  /** Length of the run of word characters starting at `j` (greedy `\w+`). */
  function WordRun(cls: string, j: nat): (n: nat)
    requires j <= |cls|
    ensures j + n <= |cls|
    ensures forall k :: j <= k < j + n ==> IsWordChar(cls[k])
    ensures j + n < |cls| ==> !IsWordChar(cls[j + n])
    decreases |cls| - j
  {
    if j < |cls| && IsWordChar(cls[j]) then 1 + WordRun(cls, j + 1) else 0
  }

  /** The leftmost position from `i` on where the pattern matches. */
  function FirstMatch(cls: string, i: nat): (k: Option<nat>)
    requires i <= |cls|
    ensures k.Some? ==> k.value + 10 <= |cls|
    decreases |cls| - i
  {
    if i + 10 > |cls| then None
    else if MatchesAt(cls, i) then Some(i)
    else FirstMatch(cls, i + 1)
  }

  /** `/language-(\w+)/.exec(className || "")`: the captured word, if any. */
  function CodeLanguage(className: Value): Option<string> {
    LanguageIn(OrEmpty(className))
  }

  /** The captured word in the class string itself. */
  function LanguageIn(cls: string): Option<string> {
    match FirstMatch(cls, 0)
    case None => None
    case Some(k) => Some(cls[k + 9..k + 9 + WordRun(cls, k + 9)])
  }

  /** The `code` renderer uses a block exactly when `inline ?? false` is
      falsy and the class names a language; the block is labelled with it. */
  function BlockLanguage(inline: Value, className: Value): Option<string> {
    var isInline := if inline.Undefined? || inline.Null? then Bool(false) else inline;
    if !Truthy(isInline) then CodeLanguage(className) else None
  }

  lemma {:induction false} FirstMatchIsLeftmost(cls: string, i: nat)
    requires i <= |cls|
    ensures FirstMatch(cls, i).Some? ==>
      var k := FirstMatch(cls, i).value;
      i <= k && MatchesAt(cls, k) && forall j :: i <= j < k ==> !MatchesAt(cls, j)
    ensures FirstMatch(cls, i).None? ==> forall j :: i <= j ==> !MatchesAt(cls, j)
    decreases |cls| - i
  {
    if i + 10 <= |cls| && !MatchesAt(cls, i) {
      FirstMatchIsLeftmost(cls, i + 1);
    }
  }

  /** The language is the word after the leftmost "language-" that is
      followed by a word character, taken as long as it goes; there is none
      when no such place exists. */
  lemma LanguageInIsLeftmostWord(cls: string)
    ensures LanguageIn(cls).Some? ==>
      exists k :: 0 <= k && MatchesAt(cls, k) && (forall j :: 0 <= j < k ==> !MatchesAt(cls, j))
        && LanguageIn(cls).value == cls[k + 9..k + 9 + WordRun(cls, k + 9)]
    ensures LanguageIn(cls).None? <==> forall j :: 0 <= j ==> !MatchesAt(cls, j)
  {
    FirstMatchIsLeftmost(cls, 0);
  }

  /** A captured language is a non-empty word. */
  lemma LanguageInIsWord(cls: string)
    requires LanguageIn(cls).Some?
    ensures |LanguageIn(cls).value| > 0
    ensures forall k :: 0 <= k < |LanguageIn(cls).value| ==> IsWordChar(LanguageIn(cls).value[k])
  {
    FirstMatchIsLeftmost(cls, 0);
  }

  /** An inline element is never a block, whatever its class. */
  lemma InlineIsNeverBlock(inline: Value, className: Value)
    requires Truthy(inline)
    ensures BlockLanguage(inline, className).None?
  {
  }
}
