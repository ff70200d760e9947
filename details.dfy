/**
 * The feedback details panel: the score badge, and for every tip of one
 * category the "Improve" request that asks the AI gateway for a concrete
 * suggestion, interprets its reply and records the outcome per tip index.
 */
module Details {

  import opened Wrappers
  import opened JsValue
  import opened JsString

  // ================================================================ ScoreBadge

  datatype Band = Green | Yellow | Red
  datatype Icon = CheckIcon | WarningIcon

  /** The colour band of the badge background and text. */
  function BadgeBand(score: real): Band {
    if score > 69.0 then Green else if score > 39.0 then Yellow else Red
  }

  /** The badge icon. */
  function BadgeIcon(score: real): Icon {
    if score > 69.0 then CheckIcon else WarningIcon
  }

  function BandRank(b: Band): nat {
    match b
    case Red => 0
    case Yellow => 1
    case Green => 2
  }

  /** On whole-number scores: 70 and above green, 40..69 yellow, 39 and below red. */
  lemma IntegerScoreBands(score: int)
    ensures BadgeBand(score as real) == Green <==> score >= 70
    ensures BadgeBand(score as real) == Yellow <==> 40 <= score <= 69
    ensures BadgeBand(score as real) == Red <==> score <= 39
  {
  }

  /** The check icon appears exactly on green badges; everything else warns. */
  lemma IconFollowsBand(score: real)
    ensures BadgeIcon(score) == CheckIcon <==> BadgeBand(score) == Green
  {
  }

  /** A higher score never gets a worse band. */
  lemma BandMonotone(a: real, b: real)
    requires a <= b
    ensures BandRank(BadgeBand(a)) <= BandRank(BadgeBand(b))
  {
  }

  // ================================================================ tips and prompts

  datatype TipKind = Good | Improve
  datatype Tip = Tip(kind: TipKind, tip: string, explanation: string)

  /**
   * One element of the chat message content: a reference to the stored
   * resume, or the instruction text, which embeds the tip and its
   * explanation (its fixed wording is not modelled).
   */
  datatype ChatPart = FilePart(puterPath: string) | TextPart(tip: string, issue: string)

  /** The content of the single user message sent for a suggestion. */
  function SuggestPrompt(resumePath: Option<string>, tip: Tip): (parts: seq<ChatPart>)
    ensures 1 <= |parts| <= 2
    ensures parts[|parts| - 1] == TextPart(tip.tip, tip.explanation)
    ensures |parts| == 2 <==> resumePath.Some? && resumePath.value != ""
    ensures |parts| == 2 ==> parts[0] == FilePart(resumePath.value)
  {
    (if resumePath.Some? && resumePath.value != "" then [FilePart(resumePath.value)] else [])
    + [TextPart(tip.tip, tip.explanation)]
  }

  // ================================================================ the reply

  /** What the gateway call threw: an `Error` with its message, or any other value. */
  datatype Thrown = ErrorValue(message: string) | NonErrorValue

  /** The settled gateway call: it threw, or it returned `res?.message?.content`. */
  datatype ChatResult = ChatThrew(error: Thrown) | ChatReturned(content: Option<Json>)

  /** A recorded outcome: a message string, or a parsed suggestion object. */
  datatype Entry = Message(text: string) | Structured(suggestion: Json)

  const AiNotAvailable := "AI not available"
  const Generating := "Generating..."
  const NoSuggestion := "No suggestion returned"
  const DefaultFailure := "Failed to generate suggestion"

  /** What one element of an array reply contributes: a string as is, the text of a text part, else "". */
  function PartText(c: Json): string {
    match c
    case JStr(s) => s
    case JObj(_) =>
      if Field(c, "type") == Some(JStr("text")) && Field(c, "text").Some? && Field(c, "text").value.JStr?
      then Field(c, "text").value.s
      else ""
    case _ => ""
  }

  /** `items.map(PartText).filter(Boolean)`. */
  function KeptParts(items: seq<Json>): (parts: seq<string>)
    ensures |parts| <= |items|
    ensures forall k :: 0 <= k < |parts| ==> parts[k] != ""
  {
    if items == [] then []
    else (if PartText(items[0]) == "" then [] else [PartText(items[0])]) + KeptParts(items[1..])
  }

  /** A single element is kept exactly when its text is non-empty. */
  lemma KeptPartsSingle(x: Json)
    ensures KeptParts([x]) == if PartText(x) == "" then [] else [PartText(x)]
  {
    assert [x][1..] == [];
  }

  /** Flattening keeps the texts of each half in order: `map` and `filter` work element by element. */
  lemma {:induction false} KeptPartsAppend(a: seq<Json>, b: seq<Json>)
    ensures KeptParts(a + b) == KeptParts(a) + KeptParts(b)
  {
    if a == [] {
      assert a + b == b;
    } else {
      assert (a + b)[0] == a[0];
      assert (a + b)[1..] == a[1..] + b;
      KeptPartsAppend(a[1..], b);
    }
  }

  /** The reply flattened into one string. */
  function ReplyText(content: Option<Json>, stringify: Json -> string): string {
    match content
    case None => ""
    case Some(JNull) => ""
    case Some(JStr(s)) => s
    case Some(JArr(items)) => Trim(Join(KeptParts(items), "\n"))
    case Some(v) => stringify(v)
  }

  /**
   * A string reply is used untrimmed, a missing or `null` one gives "",
   * and any other non-array value is serialized.
   */
  lemma ReplyTextByKind(content: Option<Json>, stringify: Json -> string)
    ensures content.None? || content == Some(JNull) ==> ReplyText(content, stringify) == ""
    ensures content.Some? && content.value.JStr? ==> ReplyText(content, stringify) == content.value.s
    ensures content.Some? && !content.value.JNull? && !content.value.JStr? && !content.value.JArr? ==>
      ReplyText(content, stringify) == stringify(content.value)
  {
  }

  /** An array reply is trimmed, and is empty exactly when its kept parts join to white space. */
  lemma ArrayReplyTrimmed(items: seq<Json>, stringify: Json -> string)
    ensures IsTrimmed(ReplyText(Some(JArr(items)), stringify))
    ensures ReplyText(Some(JArr(items)), stringify) == "" <==> AllWhiteSpace(Join(KeptParts(items), "\n"))
  {
    TrimEmpty(Join(KeptParts(items), "\n"));
  }

  /** An array with no string and no text part flattens to the empty string. */
  lemma {:induction false} ArrayWithoutTextIsEmpty(items: seq<Json>, stringify: Json -> string)
    requires forall k :: 0 <= k < |items| ==> PartText(items[k]) == ""
    ensures KeptParts(items) == []
    ensures ReplyText(Some(JArr(items)), stringify) == ""
  {
    if items != [] {
      ArrayWithoutTextIsEmpty(items[1..], stringify);
    }
  }

  /** A reply that is one text part gives that part's text, trimmed. */
  lemma SingleTextPart(t: string, stringify: Json -> string)
    ensures ReplyText(Some(JArr([JObj(map["type" := JStr("text"), "text" := JStr(t)])])), stringify) == Trim(t)
  {
    var m := map["type" := JStr("text"), "text" := JStr(t)];
    assert "type" != "text" by { assert "type"[1] != "text"[1]; }
    assert m["type"] == JStr("text") && m["text"] == JStr(t);
    var part := JObj(m);
    assert PartText(part) == t;
    assert [part][1..] == [];
    var kept := KeptParts([part]);
    assert kept == (if t == "" then [] else [t]);
    assert Join(kept, "\n") == t;
  }

  // ================================================================ the trailing-brace match

  /** The position of the first `c` in `s`. */
  function IndexOf(s: string, c: char): (r: Option<nat>)
    ensures r.Some? ==> r.value < |s| && s[r.value] == c && forall j :: 0 <= j < r.value ==> s[j] != c
    ensures r.None? ==> forall j :: 0 <= j < |s| ==> s[j] != c
  {
    if s == "" then None
    else if s[0] == c then Some(0)
    else match IndexOf(s[1..], c)
      case None => None
      case Some(i) => Some(i + 1)
  }

  /**
   * The regular expression `\{[\s\S]*\}$` (no flags) matches at position
   * `i`: a `{` there, then any characters, then a `}` that is the last
   * character of the text.
   */
  predicate BlockMatchesAt(text: string, i: nat) {
    i + 1 < |text| && text[i] == '{' && text[|text| - 1] == '}'
  }

  /** `text.match(/\{[\s\S]*\}$/)?.[0]`: the leftmost match runs to the end of the text. */
  function TrailingBlock(text: string): (r: Option<string>)
    ensures r.Some? <==> exists i :: 0 <= i < |text| && BlockMatchesAt(text, i)
    ensures r.Some? ==>
      && |r.value| <= |text|
      && BlockMatchesAt(text, |text| - |r.value|)
      && r.value == text[|text| - |r.value|..]
      && forall j :: 0 <= j < |text| - |r.value| ==> !BlockMatchesAt(text, j)
  {
    if |text| > 0 && text[|text| - 1] == '}' then
      match IndexOf(text, '{')
      case Some(i) => assert BlockMatchesAt(text, i); Some(text[i..])
      case None => None
    else None
  }

  /** The match exists exactly when the text ends in `}` with a `{` somewhere before it. */
  lemma TrailingBlockExists(text: string)
    ensures TrailingBlock(text).Some? <==>
      |text| > 0 && text[|text| - 1] == '}' && '{' in text[..|text| - 1]
  {
    if |text| > 0 && text[|text| - 1] == '}' && '{' in text[..|text| - 1] {
      var i :| 0 <= i < |text| - 1 && text[..|text| - 1][i] == '{';
      assert BlockMatchesAt(text, i);
    }
    if TrailingBlock(text).Some? {
      var i := |text| - |TrailingBlock(text).value|;
      assert text[..|text| - 1][i] == '{';
    }
  }

  /** With a brace-free preamble, the match is exactly the trailing object text. */
  lemma TrailingBlockAfterPreamble(preamble: string, obj: string)
    requires '{' !in preamble
    requires |obj| >= 2 && obj[0] == '{' && obj[|obj| - 1] == '}'
    ensures TrailingBlock(preamble + obj) == Some(obj)
  {
    var text := preamble + obj;
    assert BlockMatchesAt(text, |preamble|);
    assert text[|preamble|..] == obj;
  }

  // ================================================================ interpreting the reply

  /** The shape check: `Array.isArray(p.suggestedEdits) && Array.isArray(p.sampleLines)`. */
  predicate HasSuggestionShape(v: Json) {
    FieldIsArray(v, "suggestedEdits") && FieldIsArray(v, "sampleLines")
  }

  /** `text || "No suggestion returned"`. */
  function Fallback(text: string): string {
    if text == "" then NoSuggestion else text
  }

  /**
   * The reply text interpreted with the parser `parse` (`None` where
   * `JSON.parse` throws): a strict parse of the whole text, and only when
   * that throws, a parse of the trailing-brace block; a candidate counts
   * only if it has the suggestion shape, and otherwise the text itself (or a
   * placeholder for the empty text) is recorded.
   */
  function Interpret(text: string, parse: string -> Option<Json>): (r: Entry)
    ensures r.Message? ==> r.text == Fallback(text)
    ensures r.Structured? ==>
      && HasSuggestionShape(r.suggestion)
      && (|| parse(text) == Some(r.suggestion)
          || (parse(text).None? && TrailingBlock(text).Some? && parse(TrailingBlock(text).value) == Some(r.suggestion)))
  {
    match parse(text)
    case Some(v) => if HasSuggestionShape(v) then Structured(v) else Message(Fallback(text))
    case None =>
      match TrailingBlock(text)
      case None => Message(Fallback(text))
      case Some(block) =>
        match parse(block)
        case Some(v) => if HasSuggestionShape(v) then Structured(v) else Message(Fallback(text))
        case None => Message(Fallback(text))
  }

  /** A whole text that parses to the right shape is taken as it parsed. */
  lemma StrictParseAccepted(text: string, parse: string -> Option<Json>)
    requires parse(text).Some? && HasSuggestionShape(parse(text).value)
    ensures Interpret(text, parse) == Structured(parse(text).value)
  {
  }

  /** A whole text that parses to the wrong shape is kept as text: the trailing block is not tried. */
  lemma WrongShapeNotRetried(text: string, parse: string -> Option<Json>)
    requires parse(text).Some? && !HasSuggestionShape(parse(text).value)
    ensures Interpret(text, parse) == Message(Fallback(text))
  {
  }

  /**
   * A structured outcome comes from exactly one of the two attempts: the
   * whole text, or, only when that does not parse, the trailing block.
   */
  lemma StructuredExactlyFromAttempts(text: string, parse: string -> Option<Json>, v: Json)
    ensures Interpret(text, parse) == Structured(v) <==>
      || (parse(text) == Some(v) && HasSuggestionShape(v))
      || (&& parse(text).None?
          && TrailingBlock(text).Some?
          && parse(TrailingBlock(text).value) == Some(v)
          && HasSuggestionShape(v))
  {
  }

  /** Every message outcome is the text itself, or the placeholder when the text is empty: never "". */
  lemma MessageIsTextOrPlaceholder(text: string, parse: string -> Option<Json>)
    ensures Interpret(text, parse).Message? ==>
      && Interpret(text, parse).text != ""
      && (Interpret(text, parse).text == text || (text == "" && Interpret(text, parse).text == NoSuggestion))
  {
  }

  /** A parser that only produces objects from text holding a `{`, as `JSON.parse` does. */
  ghost predicate ObjectsNeedBraces(parse: string -> Option<Json>) {
    forall s :: parse(s).Some? && parse(s).value.JObj? ==> '{' in s
  }

  /** Text without any `{` can never be structured. */
  lemma NoBraceStaysText(text: string, parse: string -> Option<Json>)
    requires ObjectsNeedBraces(parse)
    requires '{' !in text
    ensures Interpret(text, parse) == Message(Fallback(text))
  {
  }

  /** Prose followed by a well-shaped object parses the object when the whole text does not parse. */
  lemma PreambleThenObject(preamble: string, obj: string, parse: string -> Option<Json>)
    requires '{' !in preamble
    requires |obj| >= 2 && obj[0] == '{' && obj[|obj| - 1] == '}'
    requires parse(preamble + obj).None?
    requires parse(obj).Some? && HasSuggestionShape(parse(obj).value)
    ensures Interpret(preamble + obj, parse) == Structured(parse(obj).value)
  {
    TrailingBlockAfterPreamble(preamble, obj);
  }

  // ================================================================ the whole outcome

  /** The message of a thrown value: its `message` if it is an `Error`. */
  function ErrorText(e: Thrown): string {
    match e
    case ErrorValue(m) => m
    case NonErrorValue => DefaultFailure
  }

  /** The outcome a request settles on once the gateway call has settled. */
  function SuggestOutcome(reply: ChatResult, parse: string -> Option<Json>, stringify: Json -> string): Entry {
    match reply
    case ChatThrew(e) => Message("Error: " + ErrorText(e))
    case ChatReturned(content) => Interpret(ReplyText(content, stringify), parse)
  }

  /** What the tip card shows below the tip. */
  datatype Panel = NoPanel | TextPanel(text: string) | SuggestionPanel(suggestion: Json)

  /** The suggestion area for a recorded outcome: shown only when the outcome is truthy. */
  function PanelOf(e: Entry): Panel {
    match e
    case Message(t) => if t == "" then NoPanel else TextPanel(t)
    case Structured(v) => if Truthy(v) then SuggestionPanel(v) else NoPanel
  }

  /** No settled outcome is an empty message or a falsy object, so something is always shown. */
  lemma SettledOutcomeNeverEmpty(reply: ChatResult, parse: string -> Option<Json>, stringify: Json -> string)
    ensures SuggestOutcome(reply, parse, stringify) != Message("")
    ensures PanelOf(SuggestOutcome(reply, parse, stringify)) != NoPanel
  {
    if reply.ChatReturned? {
      MessageIsTextOrPlaceholder(ReplyText(reply.content, stringify), parse);
    }
  }

  /** A thrown gateway error is recorded as "Error: " and its message, with a default for non-errors. */
  lemma GatewayErrorRecorded(e: Thrown, parse: string -> Option<Json>, stringify: Json -> string)
    ensures e.ErrorValue? ==> SuggestOutcome(ChatThrew(e), parse, stringify) == Message("Error: " + e.message)
    ensures e.NonErrorValue? ==> SuggestOutcome(ChatThrew(e), parse, stringify) == Message("Error: " + DefaultFailure)
  {
  }

  /** A missing reply is not an error: it settles on the placeholder text. */
  lemma MissingReplyGivesPlaceholder(content: Option<Json>, parse: string -> Option<Json>, stringify: Json -> string)
    requires content == None || content == Some(JNull)
    requires parse("").None?
    ensures SuggestOutcome(ChatReturned(content), parse, stringify) == Message(NoSuggestion)
  {
  }

  // ================================================================ the per-category state

  /** What the tip card shows in its action area. */
  datatype Control = NoControl | GeneratingLabel | ImproveButton(enabled: bool)

  /**
   * The tips of one category with the outcome recorded per tip index and
   * the single index whose request is pending, if any.
   */
  class CategoryContent {
    const tips: seq<Tip>
    const resumePath: Option<string>
    var suggestions: map<nat, Entry>
    var loadingIndex: Option<nat>

    constructor (tips: seq<Tip>, resumePath: Option<string>)
      ensures this.tips == tips && this.resumePath == resumePath
      ensures suggestions == map[] && loadingIndex == None
    {
      this.tips := tips;
      this.resumePath := resumePath;
      suggestions := map[];
      loadingIndex := None;
    }

    /**
     * The card's action: nothing for a good tip; for a tip to improve, a
     * "Generating..." label while its own request is pending, else a button
     * that is enabled only while no request at all is pending.
     */
    function ActionControl(index: nat): (c: Control)
      requires index < |tips|
      reads this
      ensures c == NoControl <==> tips[index].kind.Good?
      ensures c == ImproveButton(true) <==> tips[index].kind == Improve && loadingIndex == None
      ensures c == GeneratingLabel <==> tips[index].kind == Improve && loadingIndex == Some(index)
    {
      if tips[index].kind.Good? then NoControl
      else if loadingIndex == Some(index) then GeneratingLabel
      else ImproveButton(loadingIndex == None)
    }

    /** The card's suggestion area: shown only for a truthy recorded outcome. */
    function OutcomePanel(index: nat): Panel
      reads this
    {
      if index !in suggestions then NoPanel else PanelOf(suggestions[index])
    }

    /** The start of a request, up to the gateway call. */
    method BeginSuggest(index: nat, chatAvailable: bool) returns (awaiting: bool)
      modifies this
      ensures awaiting == chatAvailable
      ensures !chatAvailable ==>
        suggestions == old(suggestions)[index := Message(AiNotAvailable)] && loadingIndex == old(loadingIndex)
      ensures chatAvailable ==>
        suggestions == old(suggestions)[index := Message(Generating)] && loadingIndex == Some(index)
    {
      if !chatAvailable {
        suggestions := suggestions[index := Message(AiNotAvailable)];
        return false;
      }
      loadingIndex := Some(index);
      suggestions := suggestions[index := Message(Generating)];
      awaiting := true;
    }

    /** The end of a request, once the gateway call has settled with `reply`. */
    method CompleteSuggest(index: nat, reply: ChatResult, parse: string -> Option<Json>, stringify: Json -> string)
      modifies this
      ensures suggestions == old(suggestions)[index := SuggestOutcome(reply, parse, stringify)]
      ensures loadingIndex == None
      ensures OutcomePanel(index) != NoPanel
    {
      match reply {
        case ChatThrew(e) =>
          var msg := if e.ErrorValue? then e.message else DefaultFailure;
          suggestions := suggestions[index := Message("Error: " + msg)];
        case ChatReturned(rawContent) =>
          var text := ReplyText(rawContent, stringify);
          RecordInterpretation(index, text, parse);
      }
      loadingIndex := None;
      assert suggestions[index] == SuggestOutcome(reply, parse, stringify);
      SettledOutcomeNeverEmpty(reply, parse, stringify);
    }

    /** The decision on the flattened reply text, recorded under `index`. */
    method RecordInterpretation(index: nat, text: string, parse: string -> Option<Json>)
      modifies this
      ensures suggestions == old(suggestions)[index := Interpret(text, parse)]
      ensures loadingIndex == old(loadingIndex)
    {
      var parsed := parse(text);
      if parsed.Some? {
        if HasSuggestionShape(parsed.value) {
          suggestions := suggestions[index := Structured(parsed.value)];
        } else {
          suggestions := suggestions[index := Message(Fallback(text))];
        }
      } else {
        var jsonMatch := TrailingBlock(text);
        if jsonMatch.Some? {
          var parsedBlock := parse(jsonMatch.value);
          if parsedBlock.Some? && HasSuggestionShape(parsedBlock.value) {
            suggestions := suggestions[index := Structured(parsedBlock.value)];
          } else {
            suggestions := suggestions[index := Message(Fallback(text))];
          }
        } else {
          suggestions := suggestions[index := Message(Fallback(text))];
        }
      }
    }

    /** A whole request run without interleaving: start, gateway call, settle. */
    method HandleSuggest(
      tip: Tip, index: nat, chatAvailable: bool,
      chat: seq<ChatPart> -> ChatResult, parse: string -> Option<Json>, stringify: Json -> string)
      modifies this
      ensures !chatAvailable ==>
        suggestions == old(suggestions)[index := Message(AiNotAvailable)] && loadingIndex == old(loadingIndex)
      ensures chatAvailable ==>
        && suggestions == old(suggestions)[index := SuggestOutcome(chat(SuggestPrompt(resumePath, tip)), parse, stringify)]
        && loadingIndex == None
    {
      var awaiting := BeginSuggest(index, chatAvailable);
      if awaiting {
        var reply := chat(SuggestPrompt(resumePath, tip));
        CompleteSuggest(index, reply, parse, stringify);
      }
    }

    /**
     * A click on the action of tip `index`: it reaches the handler only
     * through an enabled button, so while any request is pending nothing
     * changes.
     */
    method ClickImprove(index: nat, chatAvailable: bool) returns (awaiting: bool)
      requires index < |tips|
      modifies this
      ensures old(loadingIndex).Some? ==>
        !awaiting && suggestions == old(suggestions) && loadingIndex == old(loadingIndex)
      ensures old(ActionControl(index)) != ImproveButton(true) ==>
        !awaiting && suggestions == old(suggestions) && loadingIndex == old(loadingIndex)
      ensures old(ActionControl(index)) == ImproveButton(true) ==>
        && awaiting == chatAvailable
        && suggestions == old(suggestions)[index := Message(if chatAvailable then Generating else AiNotAvailable)]
        && loadingIndex == (if chatAvailable then Some(index) else None)
    {
      awaiting := false;
      if ActionControl(index) == ImproveButton(true) {
        awaiting := BeginSuggest(index, chatAvailable);
      }
    }
  }

}
