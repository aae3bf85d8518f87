/** The tokenizer of crates/asset_anim/src/atr_compile.rs. Source text is a string
    of bytes, each a char below 256. */
module AtrLexer {
  import opened Wrappers
  import opened AtrSyntax

  // ---------- UTF-8, section 4 of RFC 3629 ----------

  predicate InRange(s: string, i: nat, lo: int, hi: int) {
    i < |s| && lo <= s[i] as int <= hi
  }

  /** The length of the well-formed character at the front, zero if there is none. */
  function CharLength(s: string): (n: nat)
    ensures n <= |s|
  {
    if InRange(s, 0, 0x00, 0x7F) then 1
    else if InRange(s, 0, 0xC2, 0xDF) && InRange(s, 1, 0x80, 0xBF) then 2
    else if InRange(s, 0, 0xE0, 0xE0) && InRange(s, 1, 0xA0, 0xBF) && InRange(s, 2, 0x80, 0xBF) then 3
    else if (InRange(s, 0, 0xE1, 0xEC) || InRange(s, 0, 0xEE, 0xEF)) && InRange(s, 1, 0x80, 0xBF) && InRange(s, 2, 0x80, 0xBF) then 3
    else if InRange(s, 0, 0xED, 0xED) && InRange(s, 1, 0x80, 0x9F) && InRange(s, 2, 0x80, 0xBF) then 3
    else if InRange(s, 0, 0xF0, 0xF0) && InRange(s, 1, 0x90, 0xBF) && InRange(s, 2, 0x80, 0xBF) && InRange(s, 3, 0x80, 0xBF) then 4
    else if InRange(s, 0, 0xF1, 0xF3) && InRange(s, 1, 0x80, 0xBF) && InRange(s, 2, 0x80, 0xBF) && InRange(s, 3, 0x80, 0xBF) then 4
    else if InRange(s, 0, 0xF4, 0xF4) && InRange(s, 1, 0x80, 0x8F) && InRange(s, 2, 0x80, 0xBF) && InRange(s, 3, 0x80, 0xBF) then 4
    else 0
  }

  predicate IsUtf8(s: string)
    decreases |s|
  {
    s == "" || (CharLength(s) > 0 && IsUtf8(s[CharLength(s)..]))
  }

  // ---------- what the scanners find ----------

  function LineEnd(src: string, i: nat): (j: nat)
    requires i <= |src|
    ensures i <= j <= |src|
    decreases |src| - i
  {
    if i < |src| && src[i] != '\n' then LineEnd(src, i + 1) else i
  }

  /** Past the end of a block comment; an unclosed one stops at the last byte. */
  function CommentEnd(src: string, i: nat): (j: nat)
    requires i <= |src|
    ensures i <= j <= |src|
    decreases |src| - i
  {
    if i + 1 < |src| then
      if src[i] == '*' && src[i + 1] == '/' then i + 2 else CommentEnd(src, i + 1)
    else i
  }

  predicate CharAt(src: string, i: nat, c: char) {
    i < |src| && src[i] == c
  }

  /** The next byte that is neither blank nor comment, and whether a line break
      outside comments was passed. */
  function Skip(src: string, i: nat, newline: bool): (r: Option<(nat, bool)>)
    requires i <= |src|
    ensures r.Some? ==> i <= r.value.0 < |src|
    decreases |src| - i
  {
    if i == |src| then None
    else if src[i] <= ' ' then Skip(src, i + 1, newline || src[i] == '\n')
    else if src[i] == '/' && CharAt(src, i + 1, '/') then Skip(src, LineEnd(src, i + 2), newline)
    else if src[i] == '/' && CharAt(src, i + 1, '*') then Skip(src, CommentEnd(src, i + 2), newline)
    else Some((i, newline))
  }

  function IdentEnd(src: string, i: nat): (j: nat)
    requires i <= |src|
    ensures i <= j <= |src|
    decreases |src| - i
  {
    if i < |src| && IsSymbolChar(src[i]) then IdentEnd(src, i + 1) else i
  }

  function DigitsEnd(src: string, i: nat, dots: bool): (j: nat)
    requires i <= |src|
    ensures i <= j <= |src|
    decreases |src| - i
  {
    if i < |src| && (IsDigit(src[i]) || (dots && src[i] == '.')) then DigitsEnd(src, i + 1, dots) else i
  }

  function NumberEnd(src: string, i: nat): (j: nat)
    requires i <= |src|
    ensures i <= j <= |src|
  {
    var j := DigitsEnd(src, i, true);
    if CharAt(src, j, 'e') || CharAt(src, j, 'E') then
      var k := if CharAt(src, j + 1, '+') || CharAt(src, j + 1, '-') then j + 2 else j + 1;
      DigitsEnd(src, k, false)
    else j
  }

  /** The closing quote at or after i, or the end of the text. */
  function QuoteEnd(src: string, i: nat): (j: nat)
    requires i <= |src|
    ensures i <= j <= |src|
    decreases |src| - i
  {
    if i == |src| then i
    else if src[i] == '\\' && (CharAt(src, i + 1, '"') || CharAt(src, i + 1, '\\')) then QuoteEnd(src, i + 2)
    else if src[i] == '"' then i
    else QuoteEnd(src, i + 1)
  }

  const PUNCTUATION: seq<string> := ["+=", "-=", "*=", "/=", "&=", "|=", "++", "--", "&&", "||", "<=", ">=", "==", "!="]

  predicate StartsNumber(src: string, i: nat) {
    i < |src| && (IsDigit(src[i]) || ((src[i] == '.' || src[i] == '-') && i + 1 < |src| && IsDigit(src[i + 1])))
  }

  predicate StartsIdent(c: char) {
    IsAlpha(c) || c == '_' || c == '/' || c == '\\'
  }

  /** The token that starts at i, and where reading goes on; none if its bytes are
      not UTF-8. */
  function LexAt(src: string, i: nat): (r: Option<(string, nat)>)
    requires i < |src|
    ensures r.Some? ==> i < r.value.1 <= |src|
  {
    if src[i] == '"' then
      var end := QuoteEnd(src, i + 1);
      var text := src[i + 1..end];
      if IsUtf8(text) then Some((text, if end < |src| then end + 1 else end)) else None
    else if StartsNumber(src, i) then Some((src[i..NumberEnd(src, i + 1)], NumberEnd(src, i + 1)))
    else if StartsIdent(src[i]) then Some((src[i..IdentEnd(src, i + 1)], IdentEnd(src, i + 1)))
    else if i + 2 <= |src| && src[i..i + 2] in PUNCTUATION then Some((src[i..i + 2], i + 2))
    else if src[i] as int < 128 then Some((src[i..i + 1], i + 1))
    else None
  }

  /** The tokens from a position on, as the parser will see them. */
  function StreamAt(src: string, pos: nat): Tokens
    requires pos <= |src|
    decreases |src| - pos
  {
    match Skip(src, pos, false)
    case None => Eof
    case Some((data, newline)) =>
      match LexAt(src, data)
      case None => Eof
      case Some((text, next)) => if text == "" then Stuck else Tok(text, newline, StreamAt(src, next))
  }

  // ---------- the scanners ----------

  method SkipWhitespace(src: string, start: nat) returns (r: Option<(nat, bool)>)
    requires start <= |src|
    ensures r == Skip(src, start, false)
  {
    var i := start;
    var newline := false;
    while true
      invariant i <= |src| && Skip(src, start, false) == Skip(src, i, newline)
      decreases |src| - i
    {
      while i < |src| && src[i] <= ' '
        invariant i <= |src| && Skip(src, start, false) == Skip(src, i, newline)
      {
        if src[i] == '\n' {
          newline := true;
        }
        i := i + 1;
      }
      if i >= |src| {
        return None;
      }
      if src[i] == '/' && i + 1 < |src| && src[i + 1] == '/' {
        i := ScanLine(src, i + 2);
        continue;
      }
      if src[i] == '/' && i + 1 < |src| && src[i + 1] == '*' {
        i := ScanComment(src, i + 2);
        continue;
      }
      return Some((i, newline));
    }
  }

  method ScanLine(src: string, start: nat) returns (i: nat)
    requires start <= |src|
    ensures i == LineEnd(src, start)
  {
    i := start;
    while i < |src| && src[i] != '\n'
      invariant i <= |src| && LineEnd(src, start) == LineEnd(src, i)
    {
      i := i + 1;
    }
  }

  method ScanComment(src: string, start: nat) returns (i: nat)
    requires start <= |src|
    ensures i == CommentEnd(src, start)
  {
    i := start;
    while i + 1 < |src| && !(src[i] == '*' && src[i + 1] == '/')
      invariant i <= |src| && CommentEnd(src, start) == CommentEnd(src, i)
    {
      i := i + 1;
    }
    if i + 1 < |src| {
      i := i + 2;
    }
  }

  method ScanDigits(src: string, start: nat, dots: bool) returns (i: nat)
    requires start <= |src|
    ensures i == DigitsEnd(src, start, dots)
  {
    i := start;
    while i < |src| && (IsDigit(src[i]) || (dots && src[i] == '.'))
      invariant i <= |src| && DigitsEnd(src, start, dots) == DigitsEnd(src, i, dots)
    {
      i := i + 1;
    }
  }

  method ParseNumber(src: string, start: nat) returns (i: nat)
    requires start < |src|
    ensures i == NumberEnd(src, start + 1)
  {
    i := ScanDigits(src, start + 1, true);
    if i < |src| && (src[i] == 'e' || src[i] == 'E') {
      i := i + 1;
      if i < |src| && (src[i] == '+' || src[i] == '-') {
        i := i + 1;
      }
      i := ScanDigits(src, i, false);
    }
  }

  method ParseIdent(src: string, start: nat) returns (i: nat)
    requires start < |src|
    ensures i == IdentEnd(src, start + 1)
  {
    i := start + 1;
    while i < |src| && IsSymbolChar(src[i])
      invariant i <= |src| && IdentEnd(src, start + 1) == IdentEnd(src, i)
    {
      i := i + 1;
    }
  }

  method ParseQuoted(src: string, start: nat) returns (r: Option<(string, nat)>)
    requires start < |src| && src[start] == '"'
    ensures r == LexAt(src, start)
  {
    var i := start + 1;
    while i < |src|
      invariant start < i <= |src| && QuoteEnd(src, start + 1) == QuoteEnd(src, i)
    {
      if src[i] == '\\' && i + 1 < |src| && (src[i + 1] == '"' || src[i + 1] == '\\') {
        i := i + 2;
        continue;
      }
      if src[i] == '"' {
        return if IsUtf8(src[start + 1..i]) then Some((src[start + 1..i], i + 1)) else None;
      }
      i := i + 1;
    }
    r := if IsUtf8(src[start + 1..i]) then Some((src[start + 1..i], i)) else None;
  }

  /** What one look at the text gives: none at the end; the empty token at the
      start position if a line break is in the way. */
  function Looked(src: string, start: nat, allowLineBreaks: bool): (r: Option<(string, nat, nat)>)
    requires start <= |src|
    ensures r.Some? ==> start <= r.value.2 <= |src| && r.value.1 <= |src|
    ensures r.Some? && r.value.0 != "" ==> r.value.2 < r.value.1
  {
    match Skip(src, start, false)
    case None => None
    case Some((data, newline)) =>
      if newline && !allowLineBreaks then Some(("", start, start))
      else
        match LexAt(src, data)
        case None => None
        case Some((text, next)) => Some((text, next, data))
  }

  method ParseExt(src: string, start: nat, allowLineBreaks: bool) returns (r: Option<(string, nat, nat)>)
    requires start <= |src|
    ensures r == Looked(src, start, allowLineBreaks)
  {
    var skipped := SkipWhitespace(src, start);
    if skipped.None? {
      return None;
    }
    var (data, newline) := skipped.value;
    if newline && !allowLineBreaks {
      return Some(("", start, start));
    }
    if src[data] == '"' {
      var quoted := ParseQuoted(src, data);
      return if quoted.Some? then Some((quoted.value.0, quoted.value.1, data)) else None;
    }
    if StartsNumber(src, data) {
      var end := ParseNumber(src, data);
      return Some((src[data..end], end, data));
    }
    if StartsIdent(src[data]) {
      var end := ParseIdent(src, data);
      return Some((src[data..end], end, data));
    }
    if data + 2 <= |src| && src[data..data + 2] in PUNCTUATION {
      return Some((src[data..data + 2], data + 2, data));
    }
    r := if src[data] as int < 128 then Some((src[data..data + 1], data + 1, data)) else None;
  }

  /** Where skipping stops there is nothing to skip. */
  lemma {:induction false} SkipStops(src: string, i: nat, newline: bool)
    requires i <= |src| && Skip(src, i, newline).Some?
    ensures Skip(src, Skip(src, i, newline).value.0, false) == Some((Skip(src, i, newline).value.0, false))
    decreases |src| - i
  {
    if src[i] <= ' ' {
      SkipStops(src, i + 1, newline || src[i] == '\n');
    } else if src[i] == '/' && CharAt(src, i + 1, '/') {
      SkipStops(src, LineEnd(src, i + 2), newline);
    } else if src[i] == '/' && CharAt(src, i + 1, '*') {
      SkipStops(src, CommentEnd(src, i + 2), newline);
    }
  }

  /** Reading again from where a token starts gives it again, without a line break. */
  lemma TokenStarts(src: string, start: nat, allowLineBreaks: bool)
    requires start <= |src|
    ensures var r := Looked(src, start, allowLineBreaks);
            r.Some? && r.value.0 != "" ==> StreamAt(src, r.value.2) == Tok(r.value.0, false, StreamAt(src, r.value.1))
  {
    if Skip(src, start, false).Some? {
      SkipStops(src, start, false);
    }
  }

  /** The parser object: a position in the text and the last token read. */
  class AtrParser {
    const src: string
    var pos: nat
    var hitEof: bool
    var last: string
    var lastOffset: nat

    constructor (src: string)
      ensures this.src == src && Valid()
      ensures Stream() == StreamAt(src, 0) && pos == 0
    {
      this.src := src;
      pos, hitEof, last, lastOffset := 0, false, "", 0;
    }

    ghost predicate Valid()
      reads this
    {
      pos <= |src| && lastOffset <= |src|
    }

    /** What is left to read. */
    ghost function Stream(): Tokens
      reads this
      requires Valid()
    {
      if hitEof then Eof else StreamAt(src, pos)
    }

    /** Goes back to where the last token started. */
    method Unget()
      requires Valid()
      modifies this
      ensures Valid() && pos == old(lastOffset) && !hitEof && lastOffset == old(lastOffset) && last == old(last)
      ensures Stream() == StreamAt(src, lastOffset)
    {
      if lastOffset <= |src| {
        pos := lastOffset;
        hitEof := false;
      }
    }

    /** Reads one token. The empty token means: nothing on this line, the end, or an
        empty quoted text; it does not move the position. */
    method Parse(allowLineBreaks: bool) returns (token: string)
      requires Valid()
      modifies this
      ensures Valid() && token == last
      ensures token == if allowLineBreaks then (if old(Stream()).Tok? then old(Stream()).text else "") else OnLine(old(Stream()))
      ensures Stream() == if token != "" then old(Stream()).tail else old(Stream())
      ensures allowLineBreaks ==> (hitEof <==> old(Stream()).Eof?)
      ensures token == "" ==> pos == old(pos)
      ensures token != "" ==> old(pos) <= lastOffset < pos
      ensures token != "" ==> StreamAt(src, lastOffset) == Tok(token, false, Stream())
      ensures token == "" && lastOffset != old(lastOffset) ==> old(pos) <= lastOffset
    {
      last := "";
      if hitEof {
        return "";
      }
      var looked := ParseExt(src, pos, allowLineBreaks);
      if looked.None? {
        hitEof := true;
        lastOffset := |src|;
        return "";
      }
      TokenStarts(src, pos, allowLineBreaks);
      var (text, next, offset) := looked.value;
      if text == "" {
        lastOffset := offset;
        return "";
      }
      pos := next;
      lastOffset := offset;
      last := text;
      token := text;
    }
  }
}
