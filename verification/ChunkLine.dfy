/**
 The chunk-size line (crates/h11r/src/wire.rs `parse_chunk_header`,
 `parse_quoted_string`, `skip_ows`), checked against the chunk-size and
 chunk-ext grammar of sections 7.1 and 7.1.1 of RFC 9112.
 */
module ChunkLine {
  import opened Prelude
  import opened Bytes
  import opened Numbers

  // ------------------------------------------------------------------
  // The parser
  // ------------------------------------------------------------------

  /** The end of the run of bytes in the class `p` that starts at `at`. */
  function SpanEnd(line: bytes, at: nat, p: byte -> bool): (end: nat)
    requires at <= |line|
    ensures at <= end <= |line|
    decreases |line| - at
  {
    if at < |line| && p(line[at]) then SpanEnd(line, at + 1, p) else at
  }

  predicate IsQuotedText(b: byte) {
    || b == '\t' || b == ' ' || b == '!'
    || '#' <= b <= '[' || ']' <= b <= '~' || 0x80 <= b as int
  }

  /** The position after the closing quote of a string whose content starts at `at`. */
  function QuotedEnd(line: bytes, at: nat): (end: Option<nat>)
    requires at <= |line|
    ensures end.Some? ==> at < end.value <= |line|
    decreases |line| - at
  {
    if at == |line| then None
    else if line[at] == '"' then Some(at + 1)
    else if line[at] == '\\' then
      if at + 1 < |line| && IsLineValueByte(line[at + 1]) then QuotedEnd(line, at + 2) else None
    else if IsQuotedText(line[at]) then QuotedEnd(line, at + 1)
    else None
  }

  predicate ByteAt(line: bytes, at: nat, b: byte) {
    at < |line| && line[at] == b
  }

  /** The end of the value after an equals sign. */
  function ExtensionValueEnd(line: bytes, at: nat): (end: Option<nat>)
    requires at <= |line|
    ensures end.Some? ==> at < end.value <= |line|
  {
    if ByteAt(line, at, '"') then QuotedEnd(line, at + 1)
    else
      var end := SpanEnd(line, at, IsTokenByte);
      if end == at then None else Some(end)
  }

  /** The end of one chunk extension. */
  function ExtensionEnd(line: bytes, at: nat): (end: Option<nat>)
    requires at <= |line|
    ensures end.Some? ==> at < end.value <= |line|
  {
    var semicolon := SpanEnd(line, at, IsOws);
    if !ByteAt(line, semicolon, ';') then None
    else
      var name := SpanEnd(line, semicolon + 1, IsOws);
      var afterName := SpanEnd(line, name, IsTokenByte);
      if afterName == name then None
      else
        var equals := SpanEnd(line, afterName, IsOws);
        if ByteAt(line, equals, '=') then ExtensionValueEnd(line, SpanEnd(line, equals + 1, IsOws))
        else if equals != afterName then None
        else Some(afterName)
  }

  predicate AcceptsExtensions(line: bytes, at: nat)
    requires at <= |line|
    decreases |line| - at
  {
    at == |line| ||
    (var end := ExtensionEnd(line, at);
     end.Some? && AcceptsExtensions(line, end.value))
  }

  function ParseChunkHeader(line: bytes): Option<nat> {
    var digits := SpanEnd(line, 0, IsHexDigit);
    var size := ParseNumber(line[..digits], 16);
    if size.Some? && AcceptsExtensions(line, digits) then size else None
  }

  // The loops of the implementation.

  method SkipOws(line: bytes, from: nat) returns (at: nat)
    requires from <= |line|
    ensures at == SpanEnd(line, from, IsOws)
  {
    at := from;
    while at < |line| && IsOws(line[at])
      invariant at <= |line|
      invariant SpanEnd(line, at, IsOws) == SpanEnd(line, from, IsOws)
    {
      at := at + 1;
    }
  }

  method SkipToken(line: bytes, from: nat) returns (at: nat)
    requires from <= |line|
    ensures at == SpanEnd(line, from, IsTokenByte)
  {
    at := from;
    while at < |line| && IsTokenByte(line[at])
      invariant at <= |line|
      invariant SpanEnd(line, at, IsTokenByte) == SpanEnd(line, from, IsTokenByte)
    {
      at := at + 1;
    }
  }

  method ParseQuotedString(line: bytes, quote: nat) returns (end: Option<nat>)
    requires quote < |line|
    ensures end == QuotedEnd(line, quote + 1)
  {
    var at := quote + 1;
    while at < |line|
      invariant at <= |line|
      invariant QuotedEnd(line, at) == QuotedEnd(line, quote + 1)
    {
      if line[at] == '"' {
        return Some(at + 1);
      } else if line[at] == '\\' {
        at := at + 1;
        if !(at < |line| && IsLineValueByte(line[at])) {
          return None;
        }
      } else if !IsQuotedText(line[at]) {
        return None;
      }
      at := at + 1;
    }
    return None;
  }

  /** The body of the extension loop. */
  method ParseExtension(line: bytes, from: nat) returns (end: Option<nat>)
    requires from <= |line|
    ensures end == ExtensionEnd(line, from)
  {
    var at := SkipOws(line, from);
    if !ByteAt(line, at, ';') {
      return None;
    }
    at := SkipOws(line, at + 1);
    var name := at;
    at := SkipToken(line, at);
    if at == name {
      return None;
    }
    var afterName := at;
    at := SkipOws(line, at);
    if ByteAt(line, at, '=') {
      at := SkipOws(line, at + 1);
      if ByteAt(line, at, '"') {
        end := ParseQuotedString(line, at);
        return;
      }
      var value := at;
      at := SkipToken(line, at);
      if at == value {
        return None;
      }
    } else if at != afterName {
      return None;
    }
    return Some(at);
  }

  method ParseChunkLine(line: bytes) returns (result: Option<nat>)
    ensures result == ParseChunkHeader(line)
  {
    hide ExtensionEnd, ParseNumber;
    var digits := 0;
    while digits < |line| && IsHexDigit(line[digits])
      invariant digits <= |line|
      invariant SpanEnd(line, digits, IsHexDigit) == SpanEnd(line, 0, IsHexDigit)
    {
      digits := digits + 1;
    }
    var size := ParseNumber(line[..digits], 16);
    if size.None? {
      return None;
    }
    var at := digits;
    while at < |line|
      invariant at <= |line|
      invariant AcceptsExtensions(line, at) == AcceptsExtensions(line, digits)
    {
      var end := ParseExtension(line, at);
      if end.None? {
        return None;
      }
      at := end.value;
    }
    return size;
  }

  // ------------------------------------------------------------------
  // The grammar
  // ------------------------------------------------------------------

  datatype QuotedItem = Text(b: byte) | Pair(b: byte) {
    predicate Valid() {
      match this
      case Text(b) => IsQuotedText(b)
      case Pair(b) => IsLineValueByte(b)
    }

    function Bytes(): bytes {
      if Text? then [b] else ['\\', b]
    }
  }

  datatype ExtensionValue = Token(text: bytes) | Quoted(items: seq<QuotedItem>)

  /** BWS ";" BWS name [ BWS "=" BWS value ] */
  datatype Extension =
    | Flag(before: bytes, gap: bytes, name: bytes)
    | Pairing(before: bytes, gap: bytes, name: bytes, beforeEquals: bytes, afterEquals: bytes, value: ExtensionValue)

  predicate All(s: bytes, p: byte -> bool) {
    forall i :: 0 <= i < |s| ==> p(s[i])
  }

  function ItemBytes(items: seq<QuotedItem>): bytes {
    if items == [] then [] else items[0].Bytes() + ItemBytes(items[1..])
  }

  predicate ValidExtensionValue(v: ExtensionValue) {
    match v
    case Token(text) => text != [] && All(text, IsTokenByte)
    case Quoted(items) => forall item <- items :: item.Valid()
  }

  function ValueBytes(v: ExtensionValue): bytes {
    match v
    case Token(text) => text
    case Quoted(items) => "\"" + (ItemBytes(items) + "\"")
  }

  predicate ValidExtension(e: Extension) {
    && All(e.before, IsOws) && All(e.gap, IsOws)
    && e.name != [] && All(e.name, IsTokenByte)
    && (e.Pairing? ==> All(e.beforeEquals, IsOws) && All(e.afterEquals, IsOws) && ValidExtensionValue(e.value))
  }

  /** What follows the name of an extension. */
  function TailBytes(e: Extension): bytes {
    if e.Flag? then [] else e.beforeEquals + ("=" + (e.afterEquals + ValueBytes(e.value)))
  }

  function ExtensionBytes(e: Extension): bytes {
    e.before + (";" + (e.gap + (e.name + TailBytes(e))))
  }

  function ExtensionsBytes(exts: seq<Extension>): bytes {
    if exts == [] then [] else ExtensionBytes(exts[0]) + ExtensionsBytes(exts[1..])
  }

  /** The parser's one restriction of the grammar: no whitespace between a name
      without a value and the semicolon of the next extension. */
  predicate Tight(exts: seq<Extension>) {
    forall i :: 0 <= i < |exts| - 1 && exts[i].Flag? ==> exts[i + 1].before == []
  }

  /** A chunk line of the RFC grammar denoting `size`. */
  predicate Derives(digits: bytes, exts: seq<Extension>, line: bytes, size: nat) {
    && line == digits + ExtensionsBytes(exts)
    && digits != [] && AllDigits(digits, 16) && Value(digits, 16) == size
    && forall e <- exts :: ValidExtension(e)
  }

  // ------------------------------------------------------------------
  // Spans
  // ------------------------------------------------------------------

  lemma {:induction false} SpanEndIs(line: bytes, at: nat, p: byte -> bool, end: nat)
    requires at <= end <= |line|
    requires forall i :: at <= i < end ==> p(line[i])
    requires end == |line| || !p(line[end])
    ensures SpanEnd(line, at, p) == end
    decreases end - at
  {
    if at < end {
      SpanEndIs(line, at + 1, p, end);
    }
  }

  lemma {:induction false} SpanEndSpans(line: bytes, at: nat, p: byte -> bool)
    requires at <= |line|
    ensures var end := SpanEnd(line, at, p);
      (forall i :: at <= i < end ==> p(line[i])) && (end == |line| || !p(line[end]))
    decreases |line| - at
  {
    if at < |line| && p(line[at]) {
      SpanEndSpans(line, at + 1, p);
    }
  }

  /** The bytes `s` stand at position `at` of the line. */
  predicate Printed(line: bytes, at: nat, s: bytes) {
    at + |s| <= |line| && line[at..at + |s|] == s
  }

  lemma PrintedConcat(line: bytes, at: nat, s: bytes, t: bytes)
    ensures Printed(line, at, s + t) <==> Printed(line, at, s) && Printed(line, at + |s|, t)
  {
    if at + |s| + |t| <= |line| {
      assert line[at..at + |s + t|] == line[at..at + |s|] + line[at + |s|..at + |s + t|];
      assert (s + t)[..|s|] == s && (s + t)[|s|..] == t;
      if Printed(line, at, s + t) {
        assert line[at..at + |s|] == line[at..at + |s + t|][..|s|];
        assert line[at + |s|..at + |s + t|] == line[at..at + |s + t|][|s|..];
      }
    }
  }

  lemma PrintedByte(line: bytes, at: nat, b: byte)
    ensures Printed(line, at, [b]) <==> ByteAt(line, at, b)
  {
    if at < |line| {
      assert line[at..at + 1] == [line[at]];
    }
  }

  lemma PrintedFirst(line: bytes, at: nat, s: bytes)
    requires Printed(line, at, s) && s != []
    ensures at < |line| && line[at] == s[0]
  {
    assert line[at] == line[at..at + |s|][0];
  }

  /** Reading back a run that is not continued. */
  lemma SpanOfPrinted(line: bytes, at: nat, run: bytes, p: byte -> bool)
    requires Printed(line, at, run) && All(run, p)
    requires at + |run| == |line| || !p(line[at + |run|])
    ensures SpanEnd(line, at, p) == at + |run|
  {
    assert forall i :: at <= i < at + |run| ==> line[i] == line[at..at + |run|][i - at];
    SpanEndIs(line, at, p, at + |run|);
  }

  // ------------------------------------------------------------------
  // Completeness: what the grammar derives tightly is accepted
  // ------------------------------------------------------------------

  /** One item of a quoted string is passed over whole. */
  lemma ItemRead(line: bytes, at: nat, item: QuotedItem)
    requires item.Valid() && Printed(line, at, item.Bytes())
    ensures at + |item.Bytes()| <= |line| && QuotedEnd(line, at) == QuotedEnd(line, at + |item.Bytes()|)
  {
    var head := item.Bytes();
    assert line[at] == line[at..at + |head|][0];
    if item.Pair? {
      assert line[at + 1] == line[at..at + |head|][1];
    }
  }

  lemma QuoteRead(line: bytes, at: nat)
    requires ByteAt(line, at, '"')
    ensures QuotedEnd(line, at) == Some(at + 1)
  {
  }

  lemma ItemsAre(items: seq<QuotedItem>)
    ensures ItemBytes(items) == if items == [] then [] else items[0].Bytes() + ItemBytes(items[1..])
  {
  }

  lemma {:induction false} QuotedEndOfPrinted(line: bytes, at: nat, items: seq<QuotedItem>)
    requires forall item <- items :: item.Valid()
    requires Printed(line, at, ItemBytes(items)) && ByteAt(line, at + |ItemBytes(items)|, '"')
    ensures QuotedEnd(line, at) == Some(at + |ItemBytes(items)| + 1)
    decreases |items|
  {
    hide QuotedEnd, Printed, ItemBytes, ByteAt, QuotedItem.Valid, QuotedItem.Bytes;
    ItemsAre(items);
    if items == [] {
      QuoteRead(line, at);
    } else {
      assert items[0] in items;
      var head := items[0].Bytes();
      PrintedConcat(line, at, head, ItemBytes(items[1..]));
      ItemRead(line, at, items[0]);
      QuotedEndOfPrinted(line, at + |head|, items[1..]);
    }
  }

  /** Where an extension may stop: nothing there continues its last token. */
  predicate Boundary(line: bytes, at: nat) {
    at == |line| || ByteAt(line, at, ';') || (at < |line| && IsOws(line[at]))
  }

  lemma ValueEndOfPrinted(line: bytes, at: nat, v: ExtensionValue)
    requires ValidExtensionValue(v) && Printed(line, at, ValueBytes(v)) && Boundary(line, at + |ValueBytes(v)|)
    ensures ExtensionValueEnd(line, at) == Some(at + |ValueBytes(v)|)
  {
    match v {
      case Token(text) => TokenEndOfPrinted(line, at, text);
      case Quoted(items) => QuotedValueOfPrinted(line, at, items);
    }
  }

  lemma TokenEndOfPrinted(line: bytes, at: nat, text: bytes)
    requires text != [] && All(text, IsTokenByte) && Printed(line, at, text) && Boundary(line, at + |text|)
    ensures ExtensionValueEnd(line, at) == Some(at + |text|)
  {
    PrintedFits(line, at, text);
    BoundaryEndsToken(line, at + |text|);
    TokenHasNoQuote(text);
    hide Printed, SpanEnd, QuotedEnd, IsTokenByte, Boundary, All;
    SpanOfPrinted(line, at, text, IsTokenByte);
    PrintedFirst(line, at, text);
  }

  lemma BoundaryEndsToken(line: bytes, at: nat)
    requires at <= |line| && Boundary(line, at)
    ensures at == |line| || !IsTokenByte(line[at])
  {
  }

  lemma TokenHasNoQuote(text: bytes)
    requires text != [] && All(text, IsTokenByte)
    ensures text[0] != '"'
  {
  }

  lemma QuotedValueOfPrinted(line: bytes, at: nat, items: seq<QuotedItem>)
    requires (forall item <- items :: item.Valid()) && Printed(line, at, ValueBytes(Quoted(items)))
    ensures ExtensionValueEnd(line, at) == Some(at + |ValueBytes(Quoted(items))|)
  {
    hide Printed, SpanEnd, QuotedEnd, IsTokenByte, ItemBytes;
    PrintedConcat(line, at, "\"", ItemBytes(items) + "\"");
    PrintedConcat(line, at + 1, ItemBytes(items), "\"");
    PrintedByte(line, at, '"');
    PrintedByte(line, at + 1 + |ItemBytes(items)|, '"');
    QuotedEndOfPrinted(line, at + 1, items);
  }

  lemma ValueStarts(v: ExtensionValue)
    requires ValidExtensionValue(v)
    ensures ValueBytes(v) != [] && !IsOws(ValueBytes(v)[0])
  {
  }

  /** After the name: whether there is a value, and where the extension ends. */
  lemma TailOfPrinted(line: bytes, at: nat, e: Extension)
    requires ValidExtension(e) && e.Pairing? && Printed(line, at, TailBytes(e))
    requires Boundary(line, at + |TailBytes(e)|)
    ensures var equals := SpanEnd(line, at, IsOws);
      && equals == at + |e.beforeEquals| && ByteAt(line, equals, '=')
      && ExtensionValueEnd(line, SpanEnd(line, equals + 1, IsOws)) == Some(at + |TailBytes(e)|)
  {
    hide Printed, SpanEnd, ExtensionValueEnd, ValueBytes, ValidExtensionValue, Boundary;
    var equals := at + |e.beforeEquals|;
    var value := equals + 1 + |e.afterEquals|;
    PrintedConcat(line, at, e.beforeEquals, "=" + (e.afterEquals + ValueBytes(e.value)));
    PrintedConcat(line, equals, "=", e.afterEquals + ValueBytes(e.value));
    PrintedByte(line, equals, '=');
    PrintedConcat(line, equals + 1, e.afterEquals, ValueBytes(e.value));
    SpanOfPrinted(line, at, e.beforeEquals, IsOws);
    ValueStarts(e.value);
    PrintedFirst(line, value, ValueBytes(e.value));
    PrintedFits(line, equals + 1, e.afterEquals);
    SpanOfPrinted(line, equals + 1, e.afterEquals, IsOws);
    ValueEndOfPrinted(line, value, e.value);
  }

  lemma PrintedFits(line: bytes, at: nat, s: bytes)
    requires Printed(line, at, s)
    ensures at + |s| <= |line|
  {
  }

  /** The parts of a printed extension. */
  lemma ExtensionLayout(line: bytes, at: nat, e: Extension)
    requires Printed(line, at, ExtensionBytes(e))
    ensures var semicolon := at + |e.before|;
      var name := semicolon + 1 + |e.gap|;
      && Printed(line, at, e.before)
      && ByteAt(line, semicolon, ';')
      && Printed(line, semicolon + 1, e.gap)
      && Printed(line, name, e.name)
      && Printed(line, name + |e.name|, TailBytes(e))
      && at + |ExtensionBytes(e)| == name + |e.name| + |TailBytes(e)| <= |line|
  {
    hide Printed;
    var semicolon := at + |e.before|;
    var name := semicolon + 1 + |e.gap|;
    PrintedConcat(line, at, e.before, ";" + (e.gap + (e.name + TailBytes(e))));
    PrintedConcat(line, semicolon, ";", e.gap + (e.name + TailBytes(e)));
    PrintedByte(line, semicolon, ';');
    PrintedConcat(line, semicolon + 1, e.gap, e.name + TailBytes(e));
    PrintedConcat(line, name, e.name, TailBytes(e));
    PrintedFits(line, name + |e.name|, TailBytes(e));
  }

  lemma NameEnds(line: bytes, name: nat, e: Extension)
    requires ValidExtension(e) && Printed(line, name, e.name) && Printed(line, name + |e.name|, TailBytes(e))
    requires e.Flag? ==> name + |e.name| == |line| || line[name + |e.name|] == ';'
    ensures SpanEnd(line, name, IsTokenByte) == name + |e.name|
  {
    hide *;
    NameIsToken(e);
    PrintedFits(line, name, e.name);
    if e.Pairing? {
      TailIsNoToken(e);
      PrintedFirst(line, name + |e.name|, TailBytes(e));
    } else {
      SemicolonIsNoToken();
    }
    SpanOfPrinted(line, name, e.name, IsTokenByte);
  }

  lemma NameIsToken(e: Extension)
    requires ValidExtension(e)
    ensures e.name != [] && All(e.name, IsTokenByte)
  {
    hide IsTokenByte, ValidExtensionValue;
  }

  lemma SemicolonIsNoToken()
    ensures !IsTokenByte(';')
  {
  }

  lemma TailIsNoToken(e: Extension)
    requires ValidExtension(e) && e.Pairing?
    ensures TailBytes(e) != [] && !IsTokenByte(TailBytes(e)[0])
  {
    hide ValidExtensionValue, ValueBytes;
    assert TailBytes(e)[0] == if e.beforeEquals == [] then '=' else e.beforeEquals[0];
    if e.beforeEquals != [] {
      assert IsOws(e.beforeEquals[0]);
    }
  }

  lemma TokenStarts(s: bytes)
    requires s != [] && All(s, IsTokenByte)
    ensures !IsOws(s[0])
  {
  }

  /** The scans up to the name stop where the parts were printed. */
  lemma ScansOfPrinted(line: bytes, at: nat, e: Extension)
    requires ValidExtension(e) && Printed(line, at, ExtensionBytes(e))
    ensures var semicolon := at + |e.before|;
      && semicolon < |line| && SpanEnd(line, at, IsOws) == semicolon && ByteAt(line, semicolon, ';')
      && SpanEnd(line, semicolon + 1, IsOws) == semicolon + 1 + |e.gap|
  {
    hide Printed, SpanEnd, ExtensionBytes, TailBytes, IsTokenByte, ValidExtensionValue;
    var semicolon := at + |e.before|;
    ExtensionLayout(line, at, e);
    SpanOfPrinted(line, at, e.before, IsOws);
    TokenStarts(e.name);
    PrintedFirst(line, semicolon + 1 + |e.gap|, e.name);
    SpanOfPrinted(line, semicolon + 1, e.gap, IsOws);
  }

  lemma ExtensionEndOfPrinted(line: bytes, at: nat, e: Extension)
    requires ValidExtension(e) && Printed(line, at, ExtensionBytes(e))
    requires Boundary(line, at + |ExtensionBytes(e)|)
    requires e.Flag? ==> at + |ExtensionBytes(e)| == |line| || line[at + |ExtensionBytes(e)|] == ';'
    ensures ExtensionEnd(line, at) == Some(at + |ExtensionBytes(e)|)
  {
    hide *;
    var semicolon := at + |e.before|;
    var name := semicolon + 1 + |e.gap|;
    var tail := name + |e.name|;
    ScansOfPrinted(line, at, e);
    ExtensionLayout(line, at, e);
    NameIsToken(e);
    FlagHasNoTail(e);
    NameEnds(line, name, e);
    EndAfterName(line, at, semicolon, name, tail);
    if e.Pairing? {
      TailOfPrinted(line, tail, e);
    } else {
      NothingSpanned(line, tail);
    }
  }

  lemma FlagHasNoTail(e: Extension)
    ensures e.Flag? ==> TailBytes(e) == []
  {
  }

  lemma EndAfterName(line: bytes, at: nat, semicolon: nat, name: nat, afterName: nat)
    requires at <= |line| && SpanEnd(line, at, IsOws) == semicolon && ByteAt(line, semicolon, ';')
    requires semicolon < |line| && SpanEnd(line, semicolon + 1, IsOws) == name
    requires name <= |line| && SpanEnd(line, name, IsTokenByte) == afterName && name < afterName <= |line|
    ensures var equals := SpanEnd(line, afterName, IsOws);
      && (ByteAt(line, equals, '=') ==>
            equals < |line| && ExtensionEnd(line, at) == ExtensionValueEnd(line, SpanEnd(line, equals + 1, IsOws)))
      && (!ByteAt(line, equals, '=') ==> ExtensionEnd(line, at) == if equals != afterName then None else Some(afterName))
  {
    hide SpanEnd, ExtensionValueEnd;
  }

  lemma PrintedNothing(line: bytes, at: nat)
    requires at <= |line|
    ensures Printed(line, at, [])
  {
  }

  lemma NothingSpanned(line: bytes, at: nat)
    requires at == |line| || (at < |line| && line[at] == ';')
    ensures SpanEnd(line, at, IsOws) == at && !ByteAt(line, at, '=')
  {
  }

  lemma TightTail(exts: seq<Extension>)
    requires Tight(exts) && exts != []
    ensures Tight(exts[1..])
  {
    forall i | 0 <= i < |exts| - 2 && exts[1..][i].Flag?
      ensures exts[1..][i + 1].before == []
    {
      assert exts[i + 1] == exts[1..][i];
    }
  }

  lemma TightNext(exts: seq<Extension>)
    requires Tight(exts) && |exts| > 1
    ensures exts[0].Flag? ==> exts[1].before == []
  {
    assert exts[0 + 1] == exts[1];
  }

  /** Every tight list of extensions is accepted. */
  lemma {:induction false} ExtensionsOfPrinted(line: bytes, at: nat, exts: seq<Extension>)
    requires forall e <- exts :: ValidExtension(e)
    requires Tight(exts)
    requires Printed(line, at, ExtensionsBytes(exts)) && at + |ExtensionsBytes(exts)| == |line|
    ensures AcceptsExtensions(line, at)
    decreases |exts|
  {
    hide Printed, ExtensionEnd, ExtensionBytes, ValidExtension, Boundary, Tight;
    if exts != [] {
      var e, rest := exts[0], exts[1..];
      var end := at + |ExtensionBytes(e)|;
      assert e in exts;
      TightTail(exts);
      PrintedConcat(line, at, ExtensionBytes(e), ExtensionsBytes(rest));
      if rest != [] {
        assert rest[0] == exts[1] && exts[1] in exts;
        TightNext(exts);
        PrintedConcat(line, end, ExtensionBytes(rest[0]), ExtensionsBytes(rest[1..]));
        ExtensionStarts(line, end, rest[0]);
      } else {
        EndIsBoundary(line);
      }
      ExtensionEndOfPrinted(line, at, e);
      ExtensionsOfPrinted(line, end, rest);
    }
  }

  lemma EndIsBoundary(line: bytes)
    ensures Boundary(line, |line|)
  {
  }

  lemma ExtensionStarts(line: bytes, at: nat, e: Extension)
    requires ValidExtension(e) && Printed(line, at, ExtensionBytes(e))
    ensures Boundary(line, at)
    ensures e.before == [] ==> ByteAt(line, at, ';')
  {
    ExtensionLayout(line, at, e);
    if e.before != [] {
      PrintedFirst(line, at, e.before);
    }
  }

  // ------------------------------------------------------------------
  // Soundness: what is accepted has a derivation
  // ------------------------------------------------------------------

  lemma SpanPrints(line: bytes, at: nat, p: byte -> bool)
    requires at <= |line|
    ensures var run := line[at..SpanEnd(line, at, p)];
      Printed(line, at, run) && All(run, p)
  {
    SpanEndSpans(line, at, p);
  }

  lemma ItemFound(line: bytes, at: nat) returns (item: QuotedItem)
    requires at <= |line| && QuotedEnd(line, at).Some? && !ByteAt(line, at, '"')
    ensures item.Valid() && Printed(line, at, item.Bytes()) && 0 < |item.Bytes()| && at + |item.Bytes()| <= |line|
    ensures QuotedEnd(line, at) == QuotedEnd(line, at + |item.Bytes()|)
  {
    item := if line[at] == '\\' then Pair(line[at + 1]) else Text(line[at]);
    assert line[at..at + |item.Bytes()|] == item.Bytes();
  }

  lemma ItemsCons(item: QuotedItem, rest: seq<QuotedItem>, end: bytes)
    ensures ItemBytes([item] + rest) + end == item.Bytes() + (ItemBytes(rest) + end)
    ensures |ItemBytes([item] + rest)| == |item.Bytes()| + |ItemBytes(rest)|
  {
    hide QuotedItem.Bytes;
    assert ([item] + rest)[1..] == rest;
  }

  lemma {:induction false} SoundQuoted(line: bytes, at: nat) returns (items: seq<QuotedItem>)
    requires at <= |line| && QuotedEnd(line, at).Some?
    ensures forall item <- items :: item.Valid()
    ensures Printed(line, at, ItemBytes(items) + "\"")
    ensures QuotedEnd(line, at).value == at + |ItemBytes(items)| + 1
    decreases |line| - at
  {
    hide QuotedEnd, Printed, ItemBytes, ByteAt, QuotedItem.Valid, QuotedItem.Bytes;
    if ByteAt(line, at, '"') {
      items := [];
      QuoteRead(line, at);
      PrintedByte(line, at, '"');
      ItemsAre(items);
      assert [] + "\"" == "\"";
    } else {
      var item := ItemFound(line, at);
      var rest := SoundQuoted(line, at + |item.Bytes()|);
      items := [item] + rest;
      PrintedConcat(line, at, item.Bytes(), ItemBytes(rest) + "\"");
      ItemsCons(item, rest, "\"");
    }
  }

  lemma SoundValue(line: bytes, at: nat) returns (v: ExtensionValue)
    requires at <= |line| && ExtensionValueEnd(line, at).Some?
    ensures ValidExtensionValue(v) && Printed(line, at, ValueBytes(v))
    ensures ExtensionValueEnd(line, at).value == at + |ValueBytes(v)|
  {
    hide Printed;
    if ByteAt(line, at, '"') {
      var items := SoundQuoted(line, at + 1);
      v := Quoted(items);
      PrintedByte(line, at, '"');
      PrintedConcat(line, at, "\"", ItemBytes(items) + "\"");
    } else {
      SpanPrints(line, at, IsTokenByte);
      v := Token(line[at..SpanEnd(line, at, IsTokenByte)]);
    }
  }

  /** The whitespace and the name every extension starts with. */
  lemma SoundName(line: bytes, at: nat, tail: bytes) returns (before: bytes, gap: bytes, name: bytes)
    requires at <= |line| && ExtensionEnd(line, at).Some?
    ensures before == line[at..SpanEnd(line, at, IsOws)]
    ensures All(before, IsOws) && All(gap, IsOws) && name != [] && All(name, IsTokenByte)
    ensures SpanEnd(line, SpanEnd(line, SpanEnd(line, at, IsOws) + 1, IsOws), IsTokenByte)
         == at + |before| + 1 + |gap| + |name|
    ensures Printed(line, at + |before| + 1 + |gap| + |name|, tail) ==>
      Printed(line, at, before + (";" + (gap + (name + tail))))
  {
    hide Printed, SpanEnd, IsTokenByte, ExtensionValueEnd;
    var semicolon := SpanEnd(line, at, IsOws);
    var start := SpanEnd(line, semicolon + 1, IsOws);
    SpanPrints(line, at, IsOws);
    SpanPrints(line, semicolon + 1, IsOws);
    SpanPrints(line, start, IsTokenByte);
    before, gap := line[at..semicolon], line[semicolon + 1..start];
    name := line[start..SpanEnd(line, start, IsTokenByte)];
    PrintedByte(line, semicolon, ';');
    PrintedConcat(line, at, before, ";" + (gap + (name + tail)));
    PrintedConcat(line, semicolon, ";", gap + (name + tail));
    PrintedConcat(line, semicolon + 1, gap, name + tail);
    PrintedConcat(line, start, name, tail);
  }

  /** The equals sign and the value of an extension that has them. */
  lemma SoundTail(line: bytes, at: nat) returns (beforeEquals: bytes, afterEquals: bytes, v: ExtensionValue)
    requires at <= |line| && ByteAt(line, SpanEnd(line, at, IsOws), '=')
    requires ExtensionValueEnd(line, SpanEnd(line, SpanEnd(line, at, IsOws) + 1, IsOws)).Some?
    ensures All(beforeEquals, IsOws) && All(afterEquals, IsOws) && ValidExtensionValue(v)
    ensures var tail := beforeEquals + ("=" + (afterEquals + ValueBytes(v)));
      && Printed(line, at, tail)
      && ExtensionValueEnd(line, SpanEnd(line, SpanEnd(line, at, IsOws) + 1, IsOws)).value == at + |tail|
  {
    hide Printed, SpanEnd, ExtensionValueEnd, ValidExtensionValue, ValueBytes;
    var equals := SpanEnd(line, at, IsOws);
    var value := SpanEnd(line, equals + 1, IsOws);
    SpanPrints(line, at, IsOws);
    SpanPrints(line, equals + 1, IsOws);
    beforeEquals, afterEquals := line[at..equals], line[equals + 1..value];
    v := SoundValue(line, value);
    PrintedByte(line, equals, '=');
    PrintedConcat(line, at, beforeEquals, "=" + (afterEquals + ValueBytes(v)));
    PrintedConcat(line, equals, "=", afterEquals + ValueBytes(v));
    PrintedConcat(line, equals + 1, afterEquals, ValueBytes(v));
  }

  lemma SoundExtension(line: bytes, at: nat) returns (e: Extension)
    requires at <= |line| && ExtensionEnd(line, at).Some?
    ensures ValidExtension(e) && Printed(line, at, ExtensionBytes(e))
    ensures ExtensionEnd(line, at).value == at + |ExtensionBytes(e)|
    ensures e.before == line[at..SpanEnd(line, at, IsOws)]
    ensures e.Flag? ==> SpanEnd(line, ExtensionEnd(line, at).value, IsOws) == ExtensionEnd(line, at).value
  {
    hide Printed, SpanEnd, ExtensionValueEnd, ValidExtensionValue, ValueBytes, IsTokenByte;
    var start := SpanEnd(line, SpanEnd(line, at, IsOws) + 1, IsOws);
    var afterName := SpanEnd(line, start, IsTokenByte);
    if ByteAt(line, SpanEnd(line, afterName, IsOws), '=') {
      var beforeEquals, afterEquals, v := SoundTail(line, afterName);
      var tail := beforeEquals + ("=" + (afterEquals + ValueBytes(v)));
      var before, gap, name := SoundName(line, at, tail);
      e := Pairing(before, gap, name, beforeEquals, afterEquals, v);
    } else {
      PrintedNothing(line, afterName);
      var before, gap, name := SoundName(line, at, []);
      e := Flag(before, gap, name);
    }
  }

  lemma {:induction false} SoundExtensions(line: bytes, at: nat) returns (exts: seq<Extension>)
    requires at <= |line| && AcceptsExtensions(line, at)
    ensures (forall e <- exts :: ValidExtension(e)) && Tight(exts)
    ensures line[at..] == ExtensionsBytes(exts)
    ensures exts != [] ==> exts[0].before == line[at..SpanEnd(line, at, IsOws)]
    decreases |line| - at
  {
    hide SpanEnd, ExtensionEnd, ValidExtension, ExtensionBytes, Tight;
    if at == |line| {
      exts := [];
      TightNothing();
    } else {
      var e := SoundExtension(line, at);
      var end := ExtensionEnd(line, at).value;
      var rest := SoundExtensions(line, end);
      exts := [e] + rest;
      assert line[at..] == line[at..end] + line[end..];
      TightCons(e, rest);
    }
  }

  lemma TightNothing()
    ensures Tight([])
  {
  }

  lemma TightCons(e: Extension, rest: seq<Extension>)
    requires Tight(rest) && (e.Flag? && rest != [] ==> rest[0].before == [])
    ensures Tight([e] + rest)
  {
    var exts := [e] + rest;
    forall i | 0 <= i < |exts| - 1 && exts[i].Flag?
      ensures exts[i + 1].before == []
    {
      if i > 0 {
        assert exts[i] == rest[i - 1] && exts[i + 1] == rest[i - 1 + 1];
      }
    }
  }

  // ------------------------------------------------------------------
  // The accepted language
  // ------------------------------------------------------------------

  lemma HexDigitsAreDigits(digits: bytes)
    ensures AllDigits(digits, 16) <==> All(digits, IsHexDigit)
  {
  }

  lemma AcceptedLineDerives(line: bytes, size: nat) returns (digits: bytes, exts: seq<Extension>)
    requires ParseChunkHeader(line) == Some(size)
    ensures Derives(digits, exts, line, size) && Tight(exts) && size <= USIZE_MAX
  {
    hide SpanEnd, ParseNumber, IsHexDigit, Tight, AllDigits, Value, ExtensionsBytes, ValidExtension, AcceptsExtensions;
    var end := SpanEnd(line, 0, IsHexDigit);
    digits := line[..end];
    SpanPrints(line, 0, IsHexDigit);
    HexDigitsAreDigits(digits);
    ParseNumberExact(digits, 16);
    exts := SoundExtensions(line, end);
    assert line == digits + line[end..];
  }

  lemma DerivedLineAccepted(line: bytes, size: nat, digits: bytes, exts: seq<Extension>)
    requires Derives(digits, exts, line, size) && Tight(exts) && size <= USIZE_MAX
    ensures ParseChunkHeader(line) == Some(size)
  {
    hide AcceptsExtensions, SpanEnd, ParseNumber, ExtensionBytes, Tight, ValidExtension, Boundary;
    HexDigitsAreDigits(digits);
    assert line[0..|digits|] == digits;
    assert line[|digits|..] == ExtensionsBytes(exts);
    assert |digits| == |line| || !IsHexDigit(line[|digits|]) by {
      if exts != [] {
        assert exts[0] in exts;
        PrintedConcat(line, |digits|, ExtensionBytes(exts[0]), ExtensionsBytes(exts[1..]));
        ExtensionStarts(line, |digits|, exts[0]);
        BoundaryNotHex(line, |digits|);
      }
    }
    SpanOfPrinted(line, 0, digits, IsHexDigit);
    assert line[..|digits|] == digits;
    ParseNumberExact(digits, 16);
    ExtensionsOfPrinted(line, |digits|, exts);
  }

  lemma BoundaryNotHex(line: bytes, at: nat)
    requires Boundary(line, at)
    ensures at == |line| || !IsHexDigit(line[at])
  {
  }

  /** The parser accepts exactly the tight lines of the grammar whose size fits. */
  lemma ChunkLineExact(line: bytes, size: nat)
    ensures ParseChunkHeader(line) == Some(size) <==>
      size <= USIZE_MAX && exists digits, exts :: Derives(digits, exts, line, size) && Tight(exts)
  {
    hide Derives, Tight, ParseChunkHeader;
    if ParseChunkHeader(line) == Some(size) {
      var digits, exts := AcceptedLineDerives(line, size);
    }
    forall digits, exts | Derives(digits, exts, line, size) && Tight(exts) && size <= USIZE_MAX
      ensures ParseChunkHeader(line) == Some(size)
    {
      DerivedLineAccepted(line, size, digits, exts);
    }
  }

  /** A printed chunk size is read back. */
  lemma ChunkSizeRoundTrip(n: nat)
    requires n <= USIZE_MAX
    ensures ParseChunkHeader(Hex(n)) == Some(n)
  {
    HexDigitsOnly(n);
    PrintThenParse(n, 16);
    SpanEndIs(Hex(n), 0, IsHexDigit, |Hex(n)|);
    assert Hex(n)[..|Hex(n)|] == Hex(n);
  }

  const LOOSE_LINE: bytes := "1;a ;b"

  /** The restriction is real: this line of the grammar is refused. */
  lemma LooseLineDerives()
    ensures Derives("1", [Flag([], [], "a"), Flag(" ", [], "b")], LOOSE_LINE, 1)
    ensures !Tight([Flag([], [], "a"), Flag(" ", [], "b")])
  {
    var a, b := Flag([], [], "a"), Flag(" ", [], "b");
    assert ExtensionBytes(a) == ";a" && ExtensionBytes(b) == " ;b";
    assert ExtensionsBytes([b]) == " ;b";
    assert [a, b][1..] == [b];
    assert ExtensionsBytes([a, b]) == ";a ;b";
    assert Value("1", 16) == 1 by {
      var digits: bytes := "1";
      assert digits[..0] == [];
    }
    assert [a, b][0].Flag? && [a, b][0 + 1].before != [];
  }

  lemma LooseLineRefused()
    ensures ParseChunkHeader(LOOSE_LINE) == None
  {
    SpanEndIs(LOOSE_LINE, 0, IsHexDigit, 1);
    SpanEndIs(LOOSE_LINE, 1, IsOws, 1);
    SpanEndIs(LOOSE_LINE, 2, IsOws, 2);
    SpanEndIs(LOOSE_LINE, 2, IsTokenByte, 3);
    SpanEndIs(LOOSE_LINE, 3, IsOws, 4);
    assert ExtensionEnd(LOOSE_LINE, 1) == None;
  }
}
