/** The reader for Valve's key-value files (apps/clipline-app/src/game_discovery.rs): a tokenizer and a
    recursive parser, both specified by functions that the loops are proved to compute. */
module Vdf {
  import opened Chars
  import opened Wrappers

  datatype Entry =
    | Pair(key: string, value: string)
    | Object(key: string, entries: seq<Entry>)

  datatype Token = Text(text: string) | Open | Close

  datatype VdfError = UnterminatedString | UnexpectedCharacter | UnexpectedClose | UnexpectedOpen
                    | MissingValue | UnterminatedObject

  // ---- Parsing ----

  /** The tokens an entry tree stands for. */
  function Flatten(entries: seq<Entry>): seq<Token> {
    if entries == [] then [] else FlattenEntry(entries[0]) + Flatten(entries[1..])
  }

  function FlattenEntry(e: Entry): seq<Token> {
    match e
    case Pair(key, value) => [Text(key), Text(value)]
    case Object(key, entries) => [Text(key), Open] + Flatten(entries) + [Close]
  }

  /** Entries read from `ts`, and the tokens left: after the closing brace inside an object, none at
      top level. */
  type Parsed = Result<(seq<Entry>, seq<Token>), VdfError>

  function Parse(ts: seq<Token>, inObject: bool): (r: Parsed)
    ensures r.Ok? ==> |r.value.1| <= |ts| && (inObject ==> |r.value.1| < |ts|)
    decreases |ts|
  {
    if ts == [] then (if inObject then Err(UnterminatedObject) else Ok(([], [])))
    else match ts[0]
      case Close => if inObject then Ok(([], ts[1..])) else Err(UnexpectedClose)
      case Open => Err(UnexpectedOpen)
      case Text(key) =>
        if |ts| == 1 then Err(MissingValue)
        else match ts[1]
          case Text(value) => Prepend([Pair(key, value)], Parse(ts[2..], inObject))
          case Open =>
            var inner := Parse(ts[2..], true);
            if inner.Err? then inner
            else Prepend([Object(key, inner.value.0)], Parse(inner.value.1, inObject))
          case Close => Err(MissingValue)
  }

  function Prepend(entries: seq<Entry>, rest: Parsed): Parsed {
    if rest.Err? then rest else Ok((entries + rest.value.0, rest.value.1))
  }

  lemma PrependJoins(a: seq<Entry>, b: seq<Entry>, rest: Parsed)
    ensures Prepend([], rest) == rest
    ensures Prepend(a, Prepend(b, rest)) == Prepend(a + b, rest)
  {
    if rest.Ok? {
      assert [] + rest.value.0 == rest.value.0;
      assert a + (b + rest.value.0) == (a + b) + rest.value.0;
    }
  }

  function Ending(inObject: bool): seq<Token> {
    if inObject then [Close] else []
  }

  lemma FlattenPairs(key: string, value: string, tail: seq<Entry>)
    ensures Flatten([Pair(key, value)] + tail) == [Text(key), Text(value)] + Flatten(tail)
  {
    assert ([Pair(key, value)] + tail)[1..] == tail;
  }

  lemma FlattenObjects(key: string, inner: seq<Entry>, tail: seq<Entry>)
    ensures Flatten([Object(key, inner)] + tail) == [Text(key), Open] + Flatten(inner) + [Close] + Flatten(tail)
  {
    assert ([Object(key, inner)] + tail)[1..] == tail;
  }

  /** Whatever is accepted is the flattening of what is returned. */
  lemma {:induction false} ParsedFlattens(ts: seq<Token>, inObject: bool)
    requires Parse(ts, inObject).Ok?
    ensures var (entries, rest) := Parse(ts, inObject).value;
            ts == Flatten(entries) + Ending(inObject) + rest && (!inObject ==> rest == [])
    decreases |ts|, 1
  {
    if ts != [] && ts[0].Text? {
      if ts[1].Text? {
        ParsedPairFlattens(ts, inObject);
      } else {
        ParsedObjectFlattens(ts, inObject);
      }
    }
  }

  lemma {:induction false} ParsedPairFlattens(ts: seq<Token>, inObject: bool)
    requires |ts| > 1 && ts[0].Text? && ts[1].Text? && Parse(ts, inObject).Ok?
    ensures var (entries, rest) := Parse(ts, inObject).value;
            ts == Flatten(entries) + Ending(inObject) + rest && (!inObject ==> rest == [])
    decreases |ts|, 0
  {
    ParsedFlattens(ts[2..], inObject);
    var (tail, rest) := Parse(ts[2..], inObject).value;
    FlattenPairs(ts[0].text, ts[1].text, tail);
    assert ts == [ts[0], ts[1]] + ts[2..];
  }

  lemma ParsePair(key: string, value: string, more: seq<Token>, inObject: bool)
    ensures Parse([Text(key), Text(value)] + more, inObject) == Prepend([Pair(key, value)], Parse(more, inObject))
  {
    assert ([Text(key), Text(value)] + more)[2..] == more;
  }

  lemma ParseObject(key: string, ts: seq<Token>, inner: seq<Entry>, more: seq<Token>, inObject: bool)
    requires Parse(ts, true) == Ok((inner, more))
    ensures Parse([Text(key), Open] + ts, inObject) == Prepend([Object(key, inner)], Parse(more, inObject))
  {
    assert ([Text(key), Open] + ts)[2..] == ts;
  }

  lemma JoinsNested(head: seq<Token>, inner: seq<Token>, tail: seq<Token>, closing: seq<Token>, rest: seq<Token>)
    ensures head + (inner + [Close] + (tail + closing + rest)) == head + inner + [Close] + tail + closing + rest
  {
  }

  lemma {:induction false} ParsedObjectFlattens(ts: seq<Token>, inObject: bool)
    requires |ts| > 1 && ts[0].Text? && ts[1].Open? && Parse(ts, inObject).Ok?
    ensures var (entries, rest) := Parse(ts, inObject).value;
            ts == Flatten(entries) + Ending(inObject) + rest && (!inObject ==> rest == [])
    decreases |ts|, 0
  {
    assert ts == [ts[0], ts[1]] + ts[2..];
    var (inner, after) := Parse(ts[2..], true).value;
    ParseObject(ts[0].text, ts[2..], inner, after, inObject);
    ParsedFlattens(ts[2..], true);
    ParsedFlattens(after, inObject);
    var (tail, rest) := Parse(after, inObject).value;
    FlattenObjects(ts[0].text, inner, tail);
    JoinsNested([ts[0], ts[1]], Flatten(inner), Flatten(tail), Ending(inObject), rest);
  }

  lemma {:induction false} EntryParses(e: Entry, more: seq<Token>, inObject: bool)
    ensures Parse(FlattenEntry(e) + more, inObject) == Prepend([e], Parse(more, inObject))
    decreases e
  {
    match e
    case Pair(key, value) => ParsePair(key, value, more, inObject);
    case Object(key, inner) =>
      var within := Flatten(inner) + Ending(true) + more;
      FlattenParses(inner, true, more);
      ParseObject(key, within, inner, more, inObject);
      assert FlattenEntry(e) + more == [Text(key), Open] + within;
  }

  lemma JoinsFront(first: seq<Token>, others: seq<Token>, closing: seq<Token>, rest: seq<Token>)
    ensures (first + others) + closing + rest == first + (others + closing + rest)
  {
  }

  /** Every flattening is accepted, and read back as the tree it came from. */
  lemma {:induction false} FlattenParses(entries: seq<Entry>, inObject: bool, rest: seq<Token>)
    requires !inObject ==> rest == []
    ensures Parse(Flatten(entries) + Ending(inObject) + rest, inObject) == Ok((entries, rest))
    decreases entries
  {
    if entries == [] {
      NothingParses(inObject, rest);
    } else {
      FlattenParses(entries[1..], inObject, rest);
      EntryParses(entries[0], Flatten(entries[1..]) + Ending(inObject) + rest, inObject);
      JoinsFront(FlattenEntry(entries[0]), Flatten(entries[1..]), Ending(inObject), rest);
      assert [entries[0]] + entries[1..] == entries;
    }
  }

  lemma NothingParses(inObject: bool, rest: seq<Token>)
    requires !inObject ==> rest == []
    ensures Parse([] + Ending(inObject) + rest, inObject) == Ok(([], rest))
  {
    var ts := [] + Ending(inObject) + rest;
    assert inObject ==> ts[0] == Close && ts[1..] == rest;
  }

  /** At top level a token list is accepted exactly when it flattens a tree, and that tree comes out. */
  lemma ParseIsExact(ts: seq<Token>, entries: seq<Entry>)
    ensures Parse(ts, false) == Ok((entries, [])) <==> ts == Flatten(entries)
  {
    if Parse(ts, false) == Ok((entries, [])) {
      ParsedFlattens(ts, false);
    }
    if ts == Flatten(entries) {
      FlattenParses(entries, false, []);
      assert Flatten(entries) + Ending(false) + [] == ts;
    }
  }

  method ParseEntries(tokens: seq<Token>, start: nat, inObject: bool)
    returns (r: Result<seq<Entry>, VdfError>, index: nat)
    requires start <= |tokens|
    ensures start <= index <= |tokens|
    ensures match Parse(tokens[start..], inObject)
            case Ok((entries, rest)) => r == Ok(entries) && rest == tokens[index..]
            case Err(error) => r == Err(error)
    decreases |tokens| - start
  {
    var entries := [];
    index := start;
    PrependJoins([], [], Parse(tokens[start..], inObject));
    while index < |tokens|
      invariant start <= index <= |tokens|
      invariant Parse(tokens[start..], inObject) == Prepend(entries, Parse(tokens[index..], inObject))
      decreases |tokens| - index
    {
      var rest := tokens[index..];
      match tokens[index] {
        case Close =>
          index := index + 1;
          if inObject {
            assert rest[1..] == tokens[index..];
            assert entries + [] == entries;
            return Ok(entries), index;
          }
          return Err(UnexpectedClose), index;
        case Open =>
          return Err(UnexpectedOpen), index;
        case Text(key) =>
          index := index + 1;
          if index == |tokens| {
            return Err(MissingValue), index;
          }
          match tokens[index] {
            case Text(value) =>
              index := index + 1;
              assert rest[2..] == tokens[index..];
              PrependJoins(entries, [Pair(key, value)], Parse(tokens[index..], inObject));
              entries := entries + [Pair(key, value)];
            case Open =>
              index := index + 1;
              assert rest[2..] == tokens[index..];
              var inner;
              inner, index := ParseEntries(tokens, index, true);
              if inner.Err? {
                return inner, index;
              }
              PrependJoins(entries, [Object(key, inner.value)], Parse(tokens[index..], inObject));
              entries := entries + [Object(key, inner.value)];
            case Close =>
              return Err(MissingValue), index;
          }
      }
    }
    assert tokens[index..] == [] && entries + [] == entries;
    r := if inObject then Err(UnterminatedObject) else Ok(entries);
  }

  // ---- Tokens ----

  function Unescaped(c: char): char {
    match c
    case 'n' => '\n'
    case 'r' => '\r'
    case 't' => '\t'
    case other => other
  }

  /** The rest of a quoted string: its value and what follows the closing quote. */
  function ReadString(s: string): (r: Result<(string, string), VdfError>)
    ensures r.Ok? ==> |r.value.1| < |s|
  {
    if s == "" then Err(UnterminatedString)
    else if s[0] == '"' then Ok(("", s[1..]))
    else if s[0] == '\\' then
      if |s| == 1 then Err(UnterminatedString) else PushString([Unescaped(s[1])], ReadString(s[2..]))
    else PushString([s[0]], ReadString(s[1..]))
  }

  function PushString(s: string, rest: Result<(string, string), VdfError>): Result<(string, string), VdfError> {
    if rest.Err? then rest else Ok((s + rest.value.0, rest.value.1))
  }

  lemma PushStringJoins(a: string, b: string, rest: Result<(string, string), VdfError>)
    ensures PushString("", rest) == rest
    ensures PushString(a, PushString(b, rest)) == PushString(a + b, rest)
  {
    if rest.Ok? {
      assert "" + rest.value.0 == rest.value.0;
      assert a + (b + rest.value.0) == (a + b) + rest.value.0;
    }
  }

  function AfterLine(s: string): (r: string)
    ensures |r| <= |s|
  {
    if s == "" then "" else if s[0] == '\n' then s[1..] else AfterLine(s[1..])
  }

  function Tokenize(s: string): Result<seq<Token>, VdfError>
    decreases |s|
  {
    if s == "" then Ok([])
    else if s[0] == '"' then
      var read := ReadString(s[1..]);
      if read.Err? then Err(read.error) else PushTokens([Text(read.value.0)], Tokenize(read.value.1))
    else if s[0] == '{' then PushTokens([Open], Tokenize(s[1..]))
    else if s[0] == '}' then PushTokens([Close], Tokenize(s[1..]))
    else if s[0] == '/' && |s| > 1 && s[1] == '/' then Tokenize(AfterLine(s[1..]))
    else if IsSpace(s[0]) then Tokenize(s[1..])
    else Err(UnexpectedCharacter)
  }

  function PushTokens(ts: seq<Token>, rest: Result<seq<Token>, VdfError>): Result<seq<Token>, VdfError> {
    if rest.Err? then rest else Ok(ts + rest.value)
  }

  lemma PushTokensJoins(a: seq<Token>, b: seq<Token>, rest: Result<seq<Token>, VdfError>)
    ensures PushTokens([], rest) == rest
    ensures PushTokens(a, PushTokens(b, rest)) == PushTokens(a + b, rest)
  {
    if rest.Ok? {
      assert [] + rest.value == rest.value;
      assert a + (b + rest.value) == (a + b) + rest.value;
    }
  }

  // ---- Writing ----

  /** One character of a quoted string, as it is or behind a backslash. */
  datatype Glyph = Plain(c: char) | Escaped(c: char)

  /** What a text is made of: white space, comments to the end of the line, braces and quoted strings. */
  datatype Piece = Space(c: char) | Remark(text: string) | Opening | Closing | Quoted(glyphs: seq<Glyph>)

  /** A backslash makes line feed, carriage return and tab of n, r and t, and leaves anything else. */
  function Meaning(g: Glyph): char {
    match g
    case Plain(c) => c
    case Escaped(c) => if c == 'n' then '\n' else if c == 'r' then '\r' else if c == 't' then '\t' else c
  }

  function Value(glyphs: seq<Glyph>): string {
    if glyphs == [] then "" else [Meaning(glyphs[0])] + Value(glyphs[1..])
  }

  function GlyphsText(glyphs: seq<Glyph>): string {
    if glyphs == [] then ""
    else (if glyphs[0].Plain? then [glyphs[0].c] else ['\\', glyphs[0].c]) + GlyphsText(glyphs[1..])
  }

  predicate LegalGlyphs(glyphs: seq<Glyph>) {
    forall g <- glyphs :: g.Plain? ==> g.c != '"' && g.c != '\\'
  }

  predicate Legal(p: Piece) {
    match p
    case Space(c) => IsSpace(c)
    case Remark(text) => '\n' !in text
    case Quoted(glyphs) => LegalGlyphs(glyphs)
    case _ => true
  }

  function PieceText(p: Piece): string {
    match p
    case Space(c) => [c]
    case Remark(text) => "//" + text + "\n"
    case Opening => "{"
    case Closing => "}"
    case Quoted(glyphs) => "\"" + GlyphsText(glyphs) + "\""
  }

  function PieceTokens(p: Piece): seq<Token> {
    match p
    case Opening => [Open]
    case Closing => [Close]
    case Quoted(glyphs) => [Text(Value(glyphs))]
    case _ => []
  }

  function PiecesText(ps: seq<Piece>): string {
    if ps == [] then "" else PieceText(ps[0]) + PiecesText(ps[1..])
  }

  function Tokens(ps: seq<Piece>): seq<Token> {
    if ps == [] then [] else PieceTokens(ps[0]) + Tokens(ps[1..])
  }

  /** A text: pieces, and possibly a last comment that no line feed ends. */
  function Document(ps: seq<Piece>, last: Option<string>): string {
    PiecesText(ps) + if last.Some? then "//" + last.value else ""
  }

  predicate LegalDocument(ps: seq<Piece>, last: Option<string>) {
    (forall p <- ps :: Legal(p)) && (last.Some? ==> '\n' !in last.value)
  }

  lemma {:induction false} GlyphsReadBack(glyphs: seq<Glyph>, rest: string)
    requires LegalGlyphs(glyphs)
    ensures ReadString(GlyphsText(glyphs) + "\"" + rest) == Ok((Value(glyphs), rest))
  {
    var s := GlyphsText(glyphs) + "\"" + rest;
    if glyphs != [] {
      var more := GlyphsText(glyphs[1..]) + "\"" + rest;
      GlyphsReadBack(glyphs[1..], rest);
      if glyphs[0].Plain? {
        assert glyphs[0] in glyphs && s[0] == glyphs[0].c && s[1..] == more;
      } else {
        assert s[0] == '\\' && s[1] == glyphs[0].c && s[2..] == more;
      }
    } else {
      assert s[0] == '"' && s[1..] == rest;
    }
  }

  /** Whatever is read as a quoted string was written as one. */
  lemma {:induction false} ReadHasGlyphs(s: string) returns (glyphs: seq<Glyph>)
    requires ReadString(s).Ok?
    ensures LegalGlyphs(glyphs) && Value(glyphs) == ReadString(s).value.0
    ensures s == GlyphsText(glyphs) + "\"" + ReadString(s).value.1
  {
    if s[0] == '"' {
      glyphs := [];
    } else if s[0] == '\\' {
      var more := ReadHasGlyphs(s[2..]);
      glyphs := [Escaped(s[1])] + more;
      assert glyphs[1..] == more && s == [s[0], s[1]] + s[2..];
    } else {
      var more := ReadHasGlyphs(s[1..]);
      glyphs := [Plain(s[0])] + more;
      assert glyphs[1..] == more && s == [s[0]] + s[1..];
    }
  }

  lemma {:induction false} LineIsSkipped(text: string, rest: string)
    requires '\n' !in text
    ensures AfterLine(text + "\n" + rest) == rest && AfterLine(text) == ""
  {
    if text != "" {
      assert text[0] in text && (text + "\n" + rest)[1..] == text[1..] + "\n" + rest;
      LineIsSkipped(text[1..], rest);
    } else {
      assert text + "\n" + rest == "\n" + rest;
    }
  }

  lemma {:induction false} LineSplits(s: string) returns (text: string, ended: bool)
    ensures '\n' !in text
    ensures s == text + (if ended then "\n" + AfterLine(s) else "") && (!ended ==> AfterLine(s) == "")
  {
    if s == "" {
      text, ended := "", false;
    } else if s[0] == '\n' {
      text, ended := "", true;
    } else {
      text, ended := LineSplits(s[1..]);
      text := [s[0]] + text;
    }
  }

  lemma RemarkTokenizes(text: string, rest: string)
    requires '\n' !in text
    ensures Tokenize("//" + text + "\n" + rest) == Tokenize(rest) && Tokenize("//" + text) == Ok([])
  {
    LineIsSkipped("/" + text, rest);
    var s := "//" + text + "\n" + rest;
    assert s[0] == '/' && s[1] == '/' && s[1..] == "/" + text + "\n" + rest;
    assert ("//" + text)[1..] == "/" + text;
  }

  lemma QuotedTokenizes(glyphs: seq<Glyph>, rest: string)
    requires LegalGlyphs(glyphs)
    ensures Tokenize("\"" + GlyphsText(glyphs) + "\"" + rest) == PushTokens([Text(Value(glyphs))], Tokenize(rest))
  {
    var s := "\"" + GlyphsText(glyphs) + "\"" + rest;
    assert s[0] == '"' && s[1..] == GlyphsText(glyphs) + "\"" + rest;
    GlyphsReadBack(glyphs, rest);
  }

  lemma PieceTokenizes(p: Piece, rest: string)
    requires Legal(p)
    ensures Tokenize(PieceText(p) + rest) == PushTokens(PieceTokens(p), Tokenize(rest))
  {
    PushTokensJoins([], [], Tokenize(rest));
    match p
    case Space(c) => assert ([c] + rest)[1..] == rest;
    case Remark(text) => RemarkTokenizes(text, rest);
    case Opening => assert ("{" + rest)[1..] == rest;
    case Closing => assert ("}" + rest)[1..] == rest;
    case Quoted(glyphs) => QuotedTokenizes(glyphs, rest);
  }

  /** A text tokenizes to what its pieces stand for, whatever white space, comments and escapes it has. */
  lemma {:induction false} DocumentTokenizes(ps: seq<Piece>, last: Option<string>)
    requires LegalDocument(ps, last)
    ensures Tokenize(Document(ps, last)) == Ok(Tokens(ps))
  {
    if ps != [] {
      DocumentTokenizes(ps[1..], last);
      assert Legal(ps[0]);
      PieceTokenizes(ps[0], Document(ps[1..], last));
      assert Document(ps, last) == PieceText(ps[0]) + Document(ps[1..], last);
    } else if last.Some? {
      RemarkTokenizes(last.value, "");
      assert "" + ("//" + last.value) == "//" + last.value;
    }
  }

  /** `p` and then `rest`, in text and in tokens. */
  ghost predicate StartsWith(s: string, p: Piece, rest: string) {
    && Legal(p) && s == PieceText(p) + rest && |rest| < |s|
    && Tokenize(s).Ok? && Tokenize(rest).Ok? && Tokenize(s).value == PieceTokens(p) + Tokenize(rest).value
  }

  lemma FirstQuoted(s: string) returns (p: Piece, rest: string)
    requires s != "" && s[0] == '"' && Tokenize(s).Ok?
    ensures StartsWith(s, p, rest)
  {
    var glyphs := ReadHasGlyphs(s[1..]);
    rest := ReadString(s[1..]).value.1;
    p := Quoted(glyphs);
    assert s == "\"" + s[1..];
  }

  /** A comment, which an accepted text may end in without a line feed. */
  lemma FirstRemark(s: string) returns (p: Option<Piece>, rest: string)
    requires s != "" && s[0] == '/' && Tokenize(s).Ok?
    ensures p.Some? ==> StartsWith(s, p.value, rest)
    ensures p.None? ==> |s| >= 2 && s[..2] == "//" && '\n' !in s && Tokenize(s).value == []
  {
    var text, ended := LineSplits(s[1..]);
    rest := AfterLine(s[1..]);
    assert text[0] == '/' && text == "/" + text[1..];
    assert s == ['/'] + s[1..];
    if ended {
      p := Some(Remark(text[1..]));
      assert s == "//" + text[1..] + "\n" + rest;
      assert [] + Tokenize(rest).value == Tokenize(rest).value;
    } else {
      p := None;
      assert s == "/" + text;
    }
  }

  lemma FirstMark(s: string) returns (p: Piece, rest: string)
    requires s != "" && s[0] != '"' && s[0] != '/' && Tokenize(s).Ok?
    ensures StartsWith(s, p, rest)
  {
    rest := s[1..];
    p := if s[0] == '{' then Opening else if s[0] == '}' then Closing else Space(s[0]);
    assert s == [s[0]] + rest;
    assert [] + Tokenize(rest).value == Tokenize(rest).value;
  }

  /** `s` is this text, and tokenizes to what it stands for. */
  ghost predicate Written(s: string, ps: seq<Piece>, last: Option<string>) {
    LegalDocument(ps, last) && s == Document(ps, last) && Tokenize(s) == Ok(Tokens(ps))
  }

  lemma DocumentGrows(p: Piece, ps: seq<Piece>, last: Option<string>)
    ensures Document([p] + ps, last) == PieceText(p) + Document(ps, last)
    ensures Tokens([p] + ps) == PieceTokens(p) + Tokens(ps)
  {
    assert ([p] + ps)[1..] == ps;
    TextJoins(PieceText(p), PiecesText(ps), if last.Some? then "//" + last.value else "");
  }

  lemma TextJoins(a: string, b: string, c: string)
    ensures (a + b) + c == a + (b + c)
  {
  }

  lemma PieceInFront(s: string, p: Piece, rest: string, ps: seq<Piece>, last: Option<string>)
    requires StartsWith(s, p, rest) && Written(rest, ps, last)
    ensures Written(s, [p] + ps, last)
  {
    DocumentGrows(p, ps, last);
    assert forall q <- [p] + ps :: q == p || q in ps;
  }

  lemma OnlyRemark(s: string)
    requires |s| >= 2 && s[..2] == "//" && '\n' !in s && Tokenize(s) == Ok([])
    ensures Written(s, [], Some(s[2..]))
  {
    assert s == s[..2] + s[2..];
    assert PiecesText([]) + ("//" + s[2..]) == "//" + s[2..];
  }

  lemma FirstPiece(s: string) returns (p: Option<Piece>, rest: string)
    requires s != "" && Tokenize(s).Ok?
    ensures if p.Some? then StartsWith(s, p.value, rest) else Written(s, [], Some(rest))
  {
    if s[0] == '/' {
      p, rest := FirstRemark(s);
      if p.None? {
        OnlyRemark(s);
        rest := s[2..];
      }
    } else if s[0] == '"' {
      var quoted;
      quoted, rest := FirstQuoted(s);
      p := Some(quoted);
    } else {
      var mark;
      mark, rest := FirstMark(s);
      p := Some(mark);
    }
  }

  /** Every accepted text is made of pieces, and its tokens are what they stand for: nothing is skipped but
      white space and comments, and nothing is read that was not written. */
  lemma {:induction false} AcceptedIsDocument(s: string) returns (ps: seq<Piece>, last: Option<string>)
    requires Tokenize(s).Ok?
    ensures Written(s, ps, last)
    decreases |s|
  {
    if s == "" {
      return [], None;
    }
    var p, rest := FirstPiece(s);
    if p.None? {
      return [], Some(rest);
    }
    ps, last := AcceptedIsDocument(rest);
    PieceInFront(s, p.value, rest, ps, last);
    ps := [p.value] + ps;
  }

  function ParseVdf(input: string): Result<seq<Entry>, VdfError> {
    var tokens := Tokenize(input);
    if tokens.Err? then Err(tokens.error)
    else
      var parsed := Parse(tokens.value, false);
      if parsed.Err? then Err(parsed.error) else Ok(parsed.value.0)
  }

  /** Writing any tree of any strings, with whatever white space, comments and escapes, and reading the text
      gives the tree back. */
  lemma PrintedTreeReadsBack(entries: seq<Entry>, ps: seq<Piece>, last: Option<string>)
    requires LegalDocument(ps, last) && Tokens(ps) == Flatten(entries)
    ensures ParseVdf(Document(ps, last)) == Ok(entries)
  {
    DocumentTokenizes(ps, last);
    ParseIsExact(Flatten(entries), entries);
  }

  /** And nothing else is accepted: whatever reads as a tree was written as that tree. */
  lemma AcceptedWasPrinted(input: string) returns (ps: seq<Piece>, last: Option<string>)
    requires ParseVdf(input).Ok?
    ensures LegalDocument(ps, last) && input == Document(ps, last)
    ensures Tokens(ps) == Flatten(ParseVdf(input).value)
  {
    ps, last := AcceptedIsDocument(input);
    ParsedFlattens(Tokens(ps), false);
    var entries := ParseVdf(input).value;
    assert Flatten(entries) + Ending(false) + [] == Flatten(entries);
  }

  function Quote(text: string): seq<Glyph> {
    if text == "" then []
    else [if text[0] == '"' || text[0] == '\\' then Escaped(text[0]) else Plain(text[0])] + Quote(text[1..])
  }

  lemma {:induction false} QuoteIsLegal(text: string)
    ensures LegalGlyphs(Quote(text)) && Value(Quote(text)) == text
  {
    if text != "" {
      QuoteIsLegal(text[1..]);
      assert Quote(text)[1..] == Quote(text[1..]);
    }
  }

  /** Every tree can be written: with quotes and backslashes escaped, and no white space at all. */
  lemma {:induction false} EveryTreePrints(ts: seq<Token>) returns (ps: seq<Piece>)
    ensures LegalDocument(ps, None) && Tokens(ps) == ts
  {
    if ts == [] {
      ps := [];
    } else {
      var more := EveryTreePrints(ts[1..]);
      var first := match ts[0] case Text(text) => Quoted(Quote(text)) case Open => Opening case Close => Closing;
      if ts[0].Text? {
        QuoteIsLegal(ts[0].text);
      }
      ps := [first] + more;
      assert ps[1..] == more && Tokens(ps) == [ts[0]] + ts[1..];
    }
  }

  method TokenizeVdf(input: string) returns (r: Result<seq<Token>, VdfError>)
    ensures r == Tokenize(input)
  {
    var tokens := [];
    var i := 0;
    PushTokensJoins([], [], Tokenize(input));
    assert input[0..] == input;
    while i < |input|
      invariant i <= |input|
      invariant Tokenize(input) == PushTokens(tokens, Tokenize(input[i..]))
    {
      var rest := input[i..];
      var c := input[i];
      ghost var found := tokens;
      i := i + 1;
      assert rest[1..] == input[i..];
      if c == '"' {
        var value, terminated;
        value, i, terminated := ReadQuoted(input, i);
        if !terminated {
          return Err(UnterminatedString);
        }
        tokens := tokens + [Text(value)];
      } else if c == '{' {
        tokens := tokens + [Open];
      } else if c == '}' {
        tokens := tokens + [Close];
      } else if c == '/' && i < |input| && input[i] == '/' {
        i := SkipLine(input, i);
      } else if !IsSpace(c) {
        return Err(UnexpectedCharacter);
      }
      PushTokensJoins(found, if |tokens| > |found| then [tokens[|found|]] else [], Tokenize(input[i..]));
    }
    assert input[i..] == "" && tokens + [] == tokens;
    r := Ok(tokens);
  }

  method ReadQuoted(input: string, start: nat) returns (value: string, i: nat, terminated: bool)
    requires start <= |input|
    ensures start <= i <= |input|
    ensures terminated ==> start < i && ReadString(input[start..]) == Ok((value, input[i..]))
    ensures !terminated ==> ReadString(input[start..]) == Err(UnterminatedString)
  {
    value, i := "", start;
    PushStringJoins("", "", ReadString(input[start..]));
    while i < |input|
      invariant start <= i <= |input|
      invariant ReadString(input[start..]) == PushString(value, ReadString(input[i..]))
    {
      var rest := input[i..];
      var c := input[i];
      i := i + 1;
      assert rest[1..] == input[i..];
      if c == '"' {
        assert value + "" == value;
        return value, i, true;
      } else if c == '\\' {
        if i == |input| {
          return value, i, false;
        }
        PushStringJoins(value, [Unescaped(input[i])], ReadString(input[i + 1..]));
        value := value + [Unescaped(input[i])];
        i := i + 1;
        assert rest[2..] == input[i..];
      } else {
        PushStringJoins(value, [c], ReadString(input[i..]));
        value := value + [c];
      }
    }
    return value, i, false;
  }

  method SkipLine(input: string, start: nat) returns (i: nat)
    requires start <= |input|
    ensures start <= i <= |input| && input[i..] == AfterLine(input[start..])
  {
    i := start;
    while i < |input|
      invariant start <= i <= |input| && AfterLine(input[start..]) == AfterLine(input[i..])
    {
      var rest := input[i..];
      assert rest[1..] == input[i + 1..];
      if input[i] == '\n' {
        return i + 1;
      }
      i := i + 1;
    }
  }
}
