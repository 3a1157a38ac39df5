/** The content script of one tab: its cached copy of the enabled flag and
    the settings, the style and overlay elements it puts into the page, and
    the text helpers behind read-aloud, simplification and syllable
    annotation. */
module Content {
  import opened Json

  // ---------------------------------------------------------------------
  // Fonts

  const OpenDyslexicFamily := "\"OpenDyslexic\", sans-serif"
  const ComicSansFamily := "\"Comic Sans MS\", cursive"
  const ArialFamily := "Arial, sans-serif"
  const SansSerifFamily := "sans-serif"

  /** The CSS font family for a font setting: three named choices, and
      'sans-serif' for everything else, including a missing setting. */
  function GetFontFamily(choice: Value): (r: string)
    ensures r == OpenDyslexicFamily <==> choice == Str("open-dyslexic")
    ensures r == ComicSansFamily <==> choice == Str("comic-sans")
    ensures r == ArialFamily <==> choice == Str("arial")
    ensures r == SansSerifFamily <==>
      choice != Str("open-dyslexic") && choice != Str("comic-sans") && choice != Str("arial")
  {
    match choice
    case Str("open-dyslexic") => OpenDyslexicFamily
    case Str("comic-sans") => ComicSansFamily
    case Str("arial") => ArialFamily
    case _ => SansSerifFamily
  }

  // ---------------------------------------------------------------------
  // Splitting text into words: `text.split(/\s+/)`

  /** The characters the regular-expression class `\s` matches. */
  predicate IsSpace(c: char)
  {
    || c == ' ' || c == '\t' || c == '\n' || c == '\U{B}' || c == '\U{C}' || c == '\r'
    || c == '\U{A0}' || c == '\U{1680}' || ('\U{2000}' <= c <= '\U{200A}')
    || c == '\U{2028}' || c == '\U{2029}' || c == '\U{202F}' || c == '\U{205F}'
    || c == '\U{3000}' || c == '\U{FEFF}'
  }

  predicate NoSpace(w: string)
  {
    forall i :: 0 <= i < |w| ==> !IsSpace(w[i])
  }

  /** The length of the longest prefix of `s` without whitespace. */
  function WordLength(s: string): (n: nat)
    ensures n <= |s| && NoSpace(s[..n])
    ensures n < |s| ==> IsSpace(s[n])
  {
    if s == [] || IsSpace(s[0]) then 0
    else
      var n := 1 + WordLength(s[1..]);
      assert s[..n] == [s[0]] + s[1..][..n - 1];
      n
  }

  /** `s` without its leading whitespace. */
  function SkipSpaces(s: string): (r: string)
    ensures |r| <= |s| && r == s[|s| - |r|..]
    ensures s != [] && IsSpace(s[0]) ==> |r| < |s|
    ensures r != [] ==> !IsSpace(r[0])
    ensures forall i :: 0 <= i < |s| - |r| ==> IsSpace(s[i])
  {
    if s != [] && IsSpace(s[0]) then SkipSpaces(s[1..]) else s
  }

  /** The fields of `s` between maximal runs of whitespace; leading or
      trailing whitespace gives an empty first or last field, and the empty
      text gives one empty field. */
  function SplitWs(s: string): (r: seq<string>)
    ensures |r| >= 1
    ensures forall i :: 0 <= i < |r| ==> NoSpace(r[i])
    decreases |s|
  {
    var n := WordLength(s);
    if n == |s| then [s]
    else [s[..n]] + SplitWs(SkipSpaces(s[n..]))
  }

  /** Only the first and the last field can be empty: the separator is a
      run of one or more whitespace characters, so no two separators are
      adjacent. */
  lemma {:induction false} SplitWsInteriorNonEmpty(s: string)
    ensures forall i :: 0 < i < |SplitWs(s)| - 1 ==> SplitWs(s)[i] != []
    decreases |s|
  {
    var n := WordLength(s);
    if n < |s| {
      var t := SkipSpaces(s[n..]);
      FieldsStep(s, n, t);
      SplitWsInteriorNonEmpty(t);
      EmptyFirstField(t);
      InteriorCons(s[..n], SplitWs(t));
    }
  }

  /** An empty first field followed by more fields means the text starts
      with whitespace. */
  lemma EmptyFirstField(s: string)
    ensures |SplitWs(s)| >= 2 && SplitWs(s)[0] == [] ==> s != [] && IsSpace(s[0])
  {
    if WordLength(s) == |s| {
      assert SplitWs(s) == [s];
    }
  }

  lemma InteriorCons(head: string, tail: seq<string>)
    requires forall i :: 0 < i < |tail| - 1 ==> tail[i] != []
    requires |tail| >= 2 ==> tail[0] != []
    ensures forall i :: 0 < i < |[head] + tail| - 1 ==> ([head] + tail)[i] != []
  {
    forall i | 0 < i < |[head] + tail| - 1
      ensures ([head] + tail)[i] != []
    {
      assert ([head] + tail)[i] == tail[i - 1];
    }
  }

  predicate AllSpace(w: string)
  {
    forall i :: 0 <= i < |w| ==> IsSpace(w[i])
  }

  /** The whitespace runs `split(/\s+/)` cuts `s` at, in order, each
      non-empty and all whitespace (`SplitWsReassembles` shows there is
      one fewer than the fields). */
  function Separators(s: string): (r: seq<string>)
    ensures forall i :: 0 <= i < |r| ==> r[i] != [] && AllSpace(r[i])
    decreases |s|
  {
    var n := WordLength(s);
    if n == |s| then []
    else
      var rest := s[n..];
      var t := SkipSpaces(rest);
      FirstSeparator(rest, t);
      var sep, others := rest[..|rest| - |t|], Separators(t);
      ConsSeparator(sep, others);
      [sep] + others
  }

  lemma ConsSeparator(sep: string, others: seq<string>)
    requires sep != [] && AllSpace(sep)
    requires forall i :: 0 <= i < |others| ==> others[i] != [] && AllSpace(others[i])
    ensures forall i :: 0 <= i < |[sep] + others| ==> ([sep] + others)[i] != [] && AllSpace(([sep] + others)[i])
  {
  }

  /** The whitespace `SkipSpaces` drops from a text that starts with
      whitespace is a non-empty whitespace run. */
  lemma FirstSeparator(rest: string, t: string)
    requires rest != [] && IsSpace(rest[0]) && t == SkipSpaces(rest)
    ensures |t| < |rest|
    ensures rest[..|rest| - |t|] != [] && AllSpace(rest[..|rest| - |t|])
  {
  }

  /** `fields[0] + seps[0] + fields[1] + ... + fields[|fields| - 1]` */
  function Interleave(fields: seq<string>, seps: seq<string>): string
    requires |seps| + 1 == |fields|
    decreases |seps|
  {
    if seps == [] then fields[0]
    else fields[0] + seps[0] + Interleave(fields[1..], seps[1..])
  }

  /** The fields and the whitespace runs between them make up the text
      exactly: nothing is lost and nothing is reordered. Together with
      the contracts of `SplitWs` and `Separators` (fields without
      whitespace, every field but the first and the last non-empty,
      separators non-empty and all whitespace) this pins the fields down
      as the maximal non-whitespace runs of `s`: two separators are never
      adjacent, so each one is a maximal whitespace run. */
  lemma {:induction false} SplitWsReassembles(s: string)
    ensures |Separators(s)| + 1 == |SplitWs(s)|
    ensures Interleave(SplitWs(s), Separators(s)) == s
    decreases |s|
  {
    if WordLength(s) == |s| {
      assert SplitWs(s) == [s] && Separators(s) == [];
    } else {
      var t := SplitStep(s);
      SplitWsReassembles(t);
    }
  }

  /** One step of the split: the first field, the first separator and the
      text `t` the rest of the split works on. */
  lemma SplitStep(s: string) returns (t: string)
    requires WordLength(s) < |s|
    ensures |t| < |s| && |Separators(s)| >= 1
    ensures t == SkipSpaces(s[WordLength(s)..])
    ensures SplitWs(s)[1..] == SplitWs(t) && Separators(s)[1..] == Separators(t)
    ensures s == SplitWs(s)[0] + Separators(s)[0] + t
  {
    var n := WordLength(s);
    t := SkipSpaces(s[n..]);
    FieldsStep(s, n, t);
    SeparatorsStep(s, n, t);
    StepPieces(s, n, t);
  }

  /** The first field, the first separator and the rest of the text make
      up the text. */
  lemma StepPieces(s: string, n: nat, t: string)
    requires n == WordLength(s) < |s| && t == SkipSpaces(s[n..])
    ensures s == s[..n] + s[n..][..|s| - n - |t|] + t
  {
    assert t == s[n..][|s[n..]| - |t|..];
    assert t == s[|s| - |t|..];
    Glue(s, n, t);
  }

  lemma FieldsStep(s: string, n: nat, t: string)
    requires n == WordLength(s) < |s| && t == SkipSpaces(s[n..])
    ensures SplitWs(s) == [s[..n]] + SplitWs(t)
  {
  }

  lemma SeparatorsStep(s: string, n: nat, t: string)
    requires n == WordLength(s) < |s| && t == SkipSpaces(s[n..])
    ensures Separators(s) == [s[n..][..|s| - n - |t|]] + Separators(t)
  {
  }

  /** Cutting `s` after `n` and before its suffix `t` and gluing the three
      pieces back gives `s`. */
  lemma Glue(s: string, n: nat, t: string)
    requires n <= |s| && |t| <= |s| - n && t == s[|s| - |t|..]
    ensures s == s[..n] + s[n..][..|s| - n - |t|] + t
  {
    assert s[n..][..|s| - n - |t|] == s[n..|s| - |t|];
    assert s == s[..n] + s[n..|s| - |t|] + s[|s| - |t|..];
  }

  /** `words.join(' ')` */
  function Join(words: seq<string>): (r: string)
  {
    if words == [] then ""
    else if |words| == 1 then words[0]
    else words[0] + " " + Join(words[1..])
  }

  lemma {:induction false} WordLengthOfWord(w: string, rest: string)
    requires NoSpace(w)
    requires rest == [] || IsSpace(rest[0])
    ensures WordLength(w + rest) == |w|
  {
    if w != [] {
      assert (w + rest)[1..] == w[1..] + rest;
      WordLengthOfWord(w[1..], rest);
    } else {
      assert w + rest == rest;
    }
  }

  lemma {:induction false} JoinStartsWithFirst(words: seq<string>)
    requires |words| >= 1
    ensures |Join(words)| >= |words[0]| && Join(words)[..|words[0]|] == words[0]
  {
  }

  /** Splitting joined words gives the words back, as long as each word is
      non-empty and has no whitespace in it. */
  lemma {:induction false} SplitJoin(words: seq<string>)
    requires |words| >= 1
    requires forall i :: 0 <= i < |words| ==> words[i] != [] && NoSpace(words[i])
    ensures SplitWs(Join(words)) == words
  {
    var w := words[0];
    if |words| == 1 {
      assert w + [] == w;
      WordLengthOfWord(w, []);
    } else {
      var tail := Join(words[1..]);
      JoinStartsWithFirst(words[1..]);
      assert tail[0] == words[1][0];
      var s := w + (" " + tail);
      assert Join(words) == s;
      WordLengthOfWord(w, " " + tail);
      assert s[|w|..] == " " + tail;
      assert SkipSpaces(" " + tail) == SkipSpaces(tail);
      SplitJoin(words[1..]);
      assert words == [w] + words[1..];
    }
  }

  // ---------------------------------------------------------------------
  // The words that get a syllable breakdown

  /** `words.filter(word => word.length > 4)` */
  function LongWords(words: seq<string>): (r: seq<string>)
    ensures |r| <= |words|
    ensures forall w :: w in r <==> w in words && |w| > 4
  {
    if words == [] then []
    else (if |words[0]| > 4 then [words[0]] else []) + LongWords(words[1..])
  }

  /** The filter keeps the order of the words: filtering a concatenation is
      concatenating the filtered parts. */
  lemma {:induction false} LongWordsAppend(a: seq<string>, b: seq<string>)
    ensures LongWords(a + b) == LongWords(a) + LongWords(b)
  {
    if a == [] {
      assert a + b == b;
    } else {
      assert (a + b)[1..] == a[1..] + b;
      LongWordsAppend(a[1..], b);
    }
  }

  /** The text of the syllable request, if one is made: the long words of
      the text joined by single spaces. */
  function PhoneticRequestText(text: string): (r: Option<string>)
  {
    var long := LongWords(SplitWs(text));
    if long == [] then None else Some(Join(long))
  }

  /** A request is made exactly when some word is longer than four
      characters, and splitting its text again gives exactly the long words
      of the original text, in their order. */
  lemma PhoneticRequestCarriesLongWords(text: string)
    ensures PhoneticRequestText(text).Some? <==> exists w :: w in SplitWs(text) && |w| > 4
    ensures PhoneticRequestText(text).Some? ==>
      SplitWs(PhoneticRequestText(text).value) == LongWords(SplitWs(text))
  {
    var words := SplitWs(text);
    var long := LongWords(words);
    if long != [] {
      assert long[0] in long;
      forall i | 0 <= i < |long|
        ensures long[i] != [] && NoSpace(long[i])
      {
        assert long[i] in long;
        var j :| 0 <= j < |words| && words[j] == long[i];
      }
      SplitJoin(long);
    }
  }

  // ---------------------------------------------------------------------
  // Cleaning a word before it is looked up: `word.replace(/[^a-zA-Z0-9]/g, '').toLowerCase()`

  predicate IsAsciiAlnum(c: char)
  {
    ('a' <= c <= 'z') || ('A' <= c <= 'Z') || ('0' <= c <= '9')
  }

  predicate IsCleanChar(c: char)
  {
    ('a' <= c <= 'z') || ('0' <= c <= '9')
  }

  function ToLowerAscii(c: char): (r: char)
    requires IsAsciiAlnum(c)
    ensures IsCleanChar(r)
    ensures 'A' <= c <= 'Z' ==> r as int == c as int + 32
    ensures !('A' <= c <= 'Z') ==> r == c
  {
    if 'A' <= c <= 'Z' then (c as int + 32) as char else c
  }

  function CleanWord(w: string): (r: string)
    ensures |r| <= |w|
    ensures forall i :: 0 <= i < |r| ==> IsCleanChar(r[i])
  {
    if w == [] then []
    else (if IsAsciiAlnum(w[0]) then [ToLowerAscii(w[0])] else []) + CleanWord(w[1..])
  }

  /** What cleaning makes of one character: an ASCII letter or digit
      becomes its lower case, anything else is dropped. */
  function CleanChar(c: char): string
  {
    if IsAsciiAlnum(c) then [ToLowerAscii(c)] else []
  }

  /** A word of one character is cleaned to `CleanChar` of it. */
  lemma CleanWordOfChar(c: char)
    ensures CleanWord([c]) == CleanChar(c)
  {
    assert [c][1..] == [];
  }

  /** Cleaning works character by character: the cleaned form of a
      concatenation is the concatenation of the cleaned parts, so with
      `CleanWordOfChar` the cleaned word is the word's ASCII letters and
      digits, lower-cased, in their order. */
  lemma {:induction false} CleanWordAppend(a: string, b: string)
    ensures CleanWord(a + b) == CleanWord(a) + CleanWord(b)
  {
    if a == [] {
      assert a + b == b;
    } else {
      assert (a + b)[0] == a[0];
      assert (a + b)[1..] == a[1..] + b;
      CleanWordAppend(a[1..], b);
    }
  }

  /** A word that is already lower-case letters and digits is its own
      cleaned form. */
  lemma {:induction false} CleanWordKeepsClean(w: string)
    requires forall i :: 0 <= i < |w| ==> IsCleanChar(w[i])
    ensures CleanWord(w) == w
  {
    if w != [] {
      CleanWordKeepsClean(w[1..]);
      assert w == [w[0]] + w[1..];
    }
  }

  /** Cleaning is idempotent. */
  lemma CleanWordIdempotent(w: string)
    ensures CleanWord(CleanWord(w)) == CleanWord(w)
  {
    CleanWordKeepsClean(CleanWord(w));
  }

  // ---------------------------------------------------------------------
  // Annotating words with their syllables

  /** `phoneticMap[cleanWord]`: the parsed reply is usually an object; when
      the model's answer was not JSON it is the raw text, which has no such
      field. */
  function Lookup(phonetic: Value, key: string): (r: Value)
    ensures phonetic.Obj? && key in phonetic.fields ==> r == phonetic.fields[key]
    ensures !(phonetic.Obj? && key in phonetic.fields) ==> r == Undefined
  {
    Field(phonetic, key)
  }

  /** Whether `word` is shown with a syllable breakdown. */
  predicate Annotates(word: string, phonetic: Value)
  {
    |CleanWord(word)| > 4 && Truthy(Lookup(phonetic, CleanWord(word)))
  }

  /** One word of the annotated text: the original word, with its syllable
      breakdown when it has one. */
  datatype Piece = Plain(word: string) | Annotated(word: string, syllables: Value)

  /** What the span shows: plain text, or the annotated words. */
  datatype Element = TextContent(text: string) | Markup(pieces: seq<Piece>)

  /** What the background answered to the syllable request. */
  datatype PhoneticOutcome = Answered(response: Value) | SendFailed

  /** How one word of the text is shown: the word itself, with the
      breakdown exactly when it `Annotates`. */
  function PieceFor(word: string, phonetic: Value): (r: Piece)
    ensures r.word == word
    ensures r.Annotated? <==> Annotates(word, phonetic)
    ensures r.Annotated? ==> r.syllables == Lookup(phonetic, CleanWord(word))
  {
    var clean := CleanWord(word);
    if |clean| > 4 && Truthy(Lookup(phonetic, clean)) then Annotated(word, Lookup(phonetic, clean))
    else Plain(word)
  }

  /** Whether a reply carries a usable breakdown (`response && response.phoneticText`). */
  predicate UsableReply(outcome: PhoneticOutcome)
  {
    outcome.Answered? && Truthy(outcome.response) && Truthy(Field(outcome.response, "phoneticText"))
  }

  /** `addPhoneticTranscription`: ask for the syllables of the long words
      only, then show every word of the text once, in order, with its
      syllables exactly when its cleaned form is longer than four characters
      and the reply has a breakdown for it. No long words, no usable reply
      or a failed request leave the text as it is. */
  method AddPhoneticTranscription(text: string, outcome: PhoneticOutcome)
    returns (request: Option<string>, shown: Element)
    ensures request == PhoneticRequestText(text)
    ensures request.None? || !UsableReply(outcome) ==> shown == TextContent(text)
    ensures request.Some? && UsableReply(outcome) ==>
      shown.Markup? && |shown.pieces| == |SplitWs(text)| &&
      forall i :: 0 <= i < |shown.pieces| ==>
        shown.pieces[i] == PieceFor(SplitWs(text)[i], Field(outcome.response, "phoneticText"))
  {
    var words := SplitWs(text);
    var long := LongWords(words);
    if long == [] {
      request, shown := None, TextContent(text);
      return;
    }
    request := Some(Join(long));
    if !UsableReply(outcome) {
      shown := TextContent(text);
      return;
    }
    var pieces := AnnotateWords(words, Field(outcome.response, "phoneticText"));
    shown := Markup(pieces);
  }

  /** The `words.forEach` loop that builds the markup, one piece per word. */
  method AnnotateWords(words: seq<string>, phonetic: Value) returns (html: seq<Piece>)
    ensures |html| == |words|
    ensures forall i :: 0 <= i < |words| ==> html[i] == PieceFor(words[i], phonetic)
  {
    html := [];
    var i := 0;
    while i < |words|
      invariant 0 <= i <= |words| && |html| == i
      invariant forall j :: 0 <= j < i ==> html[j] == PieceFor(words[j], phonetic)
    {
      var word := words[i];
      var clean := CleanWord(word);
      if |clean| > 4 && Truthy(Lookup(phonetic, clean)) {
        html := html + [Annotated(word, Lookup(phonetic, clean))];
      } else {
        html := html + [Plain(word)];
      }
      i := i + 1;
    }
  }

  // ---------------------------------------------------------------------
  // The page state the content script controls

  /** The text of the `dyslexia-styles` element, by the settings it was
      written from. */
  datatype StyleRule = StyleRule(
    fontFamily: string, fontSize: Value, letterSpacing: Value, wordSpacing: Value,
    lineHeight: Value, color: Value, background: Value)

  function RuleFor(s: map<string, Value>): (r: StyleRule)
    ensures r.fontFamily == GetFontFamily(Get(s, "font"))
    ensures r.background == Get(s, "backgroundColor") && r.color == Get(s, "textColor")
  {
    StyleRule(GetFontFamily(Get(s, "font")), Get(s, "fontSize"), Get(s, "letterSpacing"),
              Get(s, "wordSpacing"), Get(s, "lineSpacing"), Get(s, "textColor"), Get(s, "backgroundColor"))
  }

  /** The page as far as the content script touches it: the style element
      (absent or present with its rule) and the overlay element (absent or
      present with the colour it was created with). Each id is looked up
      before it is created, so there is at most one of each. */
  datatype Page = Page(style: Option<StyleRule>, overlay: Option<Value>)

  const White := Str("#ffffff")

  /** The page after `applyDyslexiaStyles`: the style element exists and
      holds the current rule; an existing overlay is kept as it is, and a
      missing one is created unless the background colour is '#ffffff'. */
  function Applied(p: Page, s: map<string, Value>): (r: Page)
    ensures r.style == Some(RuleFor(s))
    ensures p.overlay.Some? ==> r.overlay == p.overlay
    ensures p.overlay.None? ==>
      (r.overlay.Some? <==> Get(s, "backgroundColor") != White) &&
      (r.overlay.Some? ==> r.overlay.value == Get(s, "backgroundColor"))
  {
    var overlay := if p.overlay.None? && Get(s, "backgroundColor") != White
                   then Some(Get(s, "backgroundColor")) else p.overlay;
    Page(Some(RuleFor(s)), overlay)
  }

  /** The page after `removeDyslexiaStyles`: neither element exists. */
  function Removed(p: Page): (r: Page)
    ensures r.style.None? && r.overlay.None?
  {
    Page(None, None)
  }

  /** Applying again never adds an element or changes anything. */
  lemma ApplyIdempotent(p: Page, s: map<string, Value>)
    ensures Applied(Applied(p, s), s) == Applied(p, s)
  {
  }

  /** Removing is a no-op when both elements are already absent. */
  lemma RemoveIdempotent(p: Page)
    ensures p.style.None? && p.overlay.None? ==> Removed(p) == p
    ensures Removed(Removed(p)) == Removed(p)
  {
  }

  /** Disabling and re-enabling gives the page that applying the settings
      to a clean page gives, whatever the page was before; so it restores
      any page that was itself produced that way. */
  lemma ToggleOffOnRestores(p: Page, s: map<string, Value>)
    ensures Applied(Removed(p), s) == Applied(Page(None, None), s)
    ensures p == Applied(Page(None, None), s) ==> Applied(Removed(p), s) == p
  {
  }

  /** A request the content script sends to the background. */
  datatype SimplifyMessage = SimplifyMessage(text: string, level: Value, model: Value)

  /** The content script of one tab. */
  class Subscriber {
    var enabled: bool
    var settings: map<string, Value>
    var style: Option<StyleRule>
    var overlay: Option<Value>

    function PageState(): (p: Page)
      reads this
      ensures p.style == style && p.overlay == overlay
    {
      Page(style, overlay)
    }

    /** A freshly loaded page: disabled, no settings, no elements. */
    constructor ()
      ensures !enabled && settings == map[] && style.None? && overlay.None?
    {
      enabled := false;
      settings := map[];
      style := None;
      overlay := None;
    }

    /** `loadSettings`: adopt the stored settings, else adopt the content
        script's defaults and return them to be written to the store. */
    method LoadSettings(stored: Value) returns (write: Option<map<string, Value>>)
      modifies this`settings
      ensures stored.Obj? ==> settings == stored.fields && write.None?
      ensures !stored.Obj? ==> settings == ContentDefaults && write == Some(ContentDefaults)
    {
      if stored.Obj? {
        settings := stored.fields;
        write := None;
      } else {
        settings := ContentDefaults;
        write := Some(settings);
      }
    }

    method ApplyDyslexiaStyles()
      modifies this`style, this`overlay
      ensures PageState() == Applied(old(PageState()), settings)
    {
      style := Some(RuleFor(settings));
      if overlay.None? && Get(settings, "backgroundColor") != White {
        overlay := Some(Get(settings, "backgroundColor"));
      }
    }

    method RemoveDyslexiaStyles()
      modifies this`style, this`overlay
      ensures PageState() == Removed(old(PageState()))
    {
      if style.Some? {
        style := None;
      }
      if overlay.Some? {
        overlay := None;
      }
    }

    /** The `toggleExtension` message: adopt the flag; afterwards the style
        element exists exactly when the extension is enabled. */
    method HandleToggle(en: bool)
      modifies this`enabled, this`style, this`overlay
      ensures enabled == en && settings == old(settings)
      ensures en ==> PageState() == Applied(old(PageState()), settings)
      ensures !en ==> PageState() == Removed(old(PageState()))
      ensures style.Some? <==> enabled
    {
      enabled := en;
      if enabled {
        ApplyDyslexiaStyles();
      } else {
        RemoveDyslexiaStyles();
      }
    }

    /** The `updateSettings` message: replace the settings wholesale (no
        merge) and re-apply the styles only when enabled. */
    method HandleUpdateSettings(s: map<string, Value>)
      modifies this`settings, this`style, this`overlay
      ensures settings == s && enabled == old(enabled)
      ensures old(enabled) ==> PageState() == Applied(old(PageState()), s)
      ensures !old(enabled) ==> PageState() == old(PageState())
    {
      settings := s;
      if enabled {
        ApplyDyslexiaStyles();
      }
    }

    /** The `getStatus` message to the content script. */
    method HandleGetStatus() returns (isEnabled: bool)
      ensures isEnabled == enabled
    {
      isEnabled := enabled;
    }

    /** The reply to the startup `getStatus` query: it can switch the
        extension on, never off. */
    method OnStartupStatus(response: Value)
      modifies this`enabled, this`style, this`overlay
      ensures old(enabled) ==> enabled
      ensures enabled == (old(enabled) || (Truthy(response) && Truthy(Field(response, "enabled"))))
      ensures Truthy(response) && Truthy(Field(response, "enabled")) ==>
        PageState() == Applied(old(PageState()), settings)
      ensures !(Truthy(response) && Truthy(Field(response, "enabled"))) ==> PageState() == old(PageState())
    {
      if Truthy(response) && Truthy(Field(response, "enabled")) {
        enabled := true;
        ApplyDyslexiaStyles();
      }
    }

    /** `readTextAloud`: the text, or else the selection, is sent to be
        spoken only when it is non-empty and text-to-speech is enabled. */
    method ReadTextAloud(text: string, selection: string) returns (sent: Option<string>)
      ensures sent.Some? <==>
        (text != "" || selection != "") && Truthy(Get(settings, "textToSpeechEnabled"))
      ensures sent.Some? ==> sent.value == (if text != "" then text else selection)
    {
      var t := if text == "" then selection else text;
      if t != "" && Truthy(Get(settings, "textToSpeechEnabled")) {
        sent := Some(t);
      } else {
        sent := None;
      }
    }

    /** `simplifyText`: the text, or else the current selection if there is
        one, is sent for simplification with the settings' level and model
        only when it is non-empty and rewriting is enabled. */
    method SimplifyText(text: string, selection: Option<string>) returns (sent: Option<SimplifyMessage>)
      ensures
        var t := if text != "" then text else if selection.Some? then selection.value else "";
        (sent.Some? <==> t != "" && Truthy(Get(settings, "rewriteEnabled"))) &&
        (sent.Some? ==>
           sent.value == SimplifyMessage(t, Get(settings, "simplificationLevel"), Get(settings, "aiModel")))
    {
      var t := text;
      if t == "" && selection.Some? {
        t := selection.value;
      }
      if t != "" && Truthy(Get(settings, "rewriteEnabled")) {
        sent := Some(SimplifyMessage(t, Get(settings, "simplificationLevel"), Get(settings, "aiModel")));
      } else {
        sent := None;
      }
    }
  }

  /** The content script's own defaults, used when nothing is stored (they
      carry no `userId`). */
  const ContentDefaults: map<string, Value> := map[
    "font" := Str("sans-serif"),
    "fontSize" := Num(16.0),
    "letterSpacing" := Num(0.12),
    "wordSpacing" := Num(0.16),
    "lineSpacing" := Num(1.5),
    "textColor" := Str("#000000"),
    "backgroundColor" := Str("#f8f8f8"),
    "rewriteEnabled" := Bool(true),
    "textToSpeechEnabled" := Bool(true),
    "aiModel" := Str("gpt-4o"),
    "simplificationLevel" := Str("medium"),
    "phoneticsEnabled" := Bool(false)
  ]
}
