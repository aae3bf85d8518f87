/** Source trees as text files: writing the tokens out, with blanks and comments
    between them, and reading the bytes back. */
module AtrText {
  import opened Wrappers
  import opened AtrSyntax
  import opened AtrPrune
  import opened AtrTheorem
  import opened AtrDeclared
  import opened AtrLexer

  // ---------- what stands between tokens ----------

  datatype Piece = Blank(c: char) | LineComment(body: string) | BlockComment(body: string)

  datatype Gap = Nothing | Then(piece: Piece, tail: Gap)

  function PieceText(piece: Piece): (r: string)
    ensures r != ""
  {
    match piece
    case Blank(c) => [c]
    case LineComment(body) => "//" + body + "\n"
    case BlockComment(body) => "/*" + body + "*/"
  }

  predicate GoodPiece(piece: Piece) {
    match piece
    case Blank(c) => c <= ' '
    case LineComment(body) => '\n' !in body
    case BlockComment(body) => forall k :: 0 <= k < |body| ==> !ClosesAt(body, k)
  }

  /** A comment would end there. */
  predicate ClosesAt(body: string, k: nat) {
    k + 1 < |body| && body[k] == '*' && body[k + 1] == '/'
  }

  predicate BreaksAt(piece: Piece) {
    piece == Blank('\n') || piece.LineComment?
  }

  /** A line break inside a block comment does not count. */
  predicate Breaks(gap: Gap) {
    gap.Then? && (BreaksAt(gap.piece) || Breaks(gap.tail))
  }

  /** The gap and what comes after it. */
  function GapThen(gap: Gap, rest: string): string {
    match gap
    case Nothing => rest
    case Then(piece, tail) => PieceText(piece) + GapThen(tail, rest)
  }

  predicate GoodGap(gap: Gap) {
    gap.Then? ==> GoodPiece(gap.piece) && GoodGap(gap.tail)
  }

  // ---------- what stands in the file ----------

  /** How a token is spelled. Only in quotes can its text be anything. */
  datatype Form =
    | Word(text: Text)
    | Numeral(mantissa: Text, exponent: Option<Exponent>)
    | Mark(c: char)
    | Pair(text: Text)
    | Quoted(body: Text)

  datatype Exponent = Exponent(letter: char, sign: string, digits: string)

  const PAIRS: seq<string> := ["+=", "-=", "*=", "&=", "|=", "++", "--", "&&", "||", "<=", ">=", "==", "!="]

  function ExponentText(exponent: Option<Exponent>): string {
    match exponent
    case None => ""
    case Some(Exponent(letter, sign, digits)) => [letter] + sign + digits
  }

  /** The token that is read. */
  function TextIn(form: Form): Text {
    match form
    case Word(text) => text
    case Numeral(mantissa, exponent) => mantissa + ExponentText(exponent)
    case Mark(c) => [c]
    case Pair(text) => text
    case Quoted(body) => body
  }

  function Spelled(form: Form): Text {
    match form
    case Quoted(body) => "\"" + body + "\""
    case _ => TextIn(form)
  }

  predicate AllDigits(s: string, dots: bool) {
    forall i :: 0 <= i < |s| ==> IsDigit(s[i]) || (dots && s[i] == '.')
  }

  predicate BeginsName(c: char) {
    IsAlpha(c) || c in {'_', '/', '\\'}
  }

  /** No quote ends the text, and no backslash at its end escapes the one that does. */
  predicate Quotable(body: string)
    decreases |body|
  {
    body == "" ||
      if body[0] == '\\' then
        |body| > 1 && Quotable(if body[1] in {'"', '\\'} then body[2..] else body[1..])
      else body[0] != '"' && Quotable(body[1..])
  }

  predicate GoodExponent(x: Exponent) {
    x.letter in {'e', 'E'} && x.sign in {"", "+", "-"} && AllDigits(x.digits, false)
  }

  predicate GoodForm(form: Form) {
    match form
    case Word(text) => BeginsName(text[0]) && forall i :: 1 <= i < |text| ==> IsSymbolChar(text[i])
    case Numeral(mantissa, exponent) =>
      && (IsDigit(mantissa[0]) || (|mantissa| > 1 && mantissa[0] in {'.', '-'} && IsDigit(mantissa[1])))
      && AllDigits(mantissa[1..], true)
      && (exponent.Some? ==> GoodExponent(exponent.value))
    case Mark(c) => ' ' < c && c as int < 128 && !BeginsName(c) && !IsDigit(c) && c != '"'
    case Pair(text) => text in PAIRS
    case Quoted(body) => Quotable(body) && IsUtf8(body)
  }

  /** Behind the token nothing comes that would belong to it. */
  predicate EndsBefore(form: Form, rest: string) {
    rest != "" ==>
      var next := rest[0];
      match form
      case Word(text) => !IsSymbolChar(next) && (text == "/" ==> next !in {'/', '*'})
      case Numeral(_, None) => !IsDigit(next) && next !in {'.', 'e', 'E'}
      case Numeral(_, Some(exponent)) => !IsDigit(next) && (exponent.sign == exponent.digits == "" ==> next !in {'+', '-'})
      case Mark(c) => [c, next] !in PAIRS && (c in {'.', '-'} ==> !IsDigit(next))
      case _ => true
  }

  datatype Written = End(gap: Gap) | Next(gap: Gap, form: Form, tail: Written)

  function TextOf(w: Written): string {
    match w
    case End(gap) => GapThen(gap, "")
    case Next(gap, form, tail) => GapThen(gap, Spelled(form) + TextOf(tail))
  }

  function TokensOf(w: Written): Tokens {
    match w
    case End(_) => Eof
    case Next(gap, form, tail) => Tok(TextIn(form), Breaks(gap), TokensOf(tail))
  }

  predicate WellSpaced(w: Written) {
    && GoodGap(w.gap)
    && (w.Next? ==> GoodForm(w.form) && EndsBefore(w.form, TextOf(w.tail)) && WellSpaced(w.tail))
  }

  // ---------- reading gaps ----------

  predicate Follows(src: string, pos: nat, text: string) {
    pos <= |src| && src[pos..] == text
  }

  lemma {:induction false} Ahead(src: string, pos: nat, text: string, rest: string)
    requires Follows(src, pos, text + rest)
    ensures pos + |text| <= |src| && Follows(src, pos + |text|, rest)
    ensures forall k :: 0 <= k < |text| ==> src[pos + k] == text[k]
  {
    var tail := src[pos..];
    assert |tail| == |text| + |rest|;
    forall k | 0 <= k < |text|
      ensures src[pos + k] == text[k]
    {
      assert src[pos + k] == tail[k];
    }
    assert src[pos + |text|..] == tail[|text|..];
  }

  lemma {:induction false} LineEndAt(src: string, i: nat, end: nat)
    requires i <= end < |src| && src[end] == '\n' && forall k :: i <= k < end ==> src[k] != '\n'
    ensures LineEnd(src, i) == end
    decreases end - i
  {
    if i < end {
      LineEndAt(src, i + 1, end);
    }
  }

  lemma {:induction false} CommentEndAt(src: string, i: nat, end: nat)
    requires i <= end && end + 1 < |src| && src[end] == '*' && src[end + 1] == '/'
    requires forall k :: i <= k < end ==> !(src[k] == '*' && src[k + 1] == '/')
    ensures CommentEnd(src, i) == end + 2
    decreases end - i
  {
    if i < end {
      CommentEndAt(src, i + 1, end);
    }
  }

  predicate PieceAt(src: string, pos: nat, piece: Piece) {
    var text := PieceText(piece);
    pos + |text| <= |src| && src[pos..pos + |text|] == text
  }

  function GapEnd(pos: nat, gap: Gap): (end: nat)
    decreases gap
  {
    match gap
    case Nothing => pos
    case Then(piece, tail) => GapEnd(pos + |PieceText(piece)|, tail)
  }

  predicate GapAt(src: string, pos: nat, gap: Gap)
    decreases gap
  {
    && pos <= |src|
    && (gap.Then? ==> PieceAt(src, pos, gap.piece) && GapAt(src, pos + |PieceText(gap.piece)|, gap.tail))
  }

  lemma PieceFollows(src: string, pos: nat, piece: Piece, rest: string)
    requires Follows(src, pos, PieceText(piece) + rest)
    ensures PieceAt(src, pos, piece) && Follows(src, pos + |PieceText(piece)|, rest)
  {
    Ahead(src, pos, PieceText(piece), rest);
  }

  lemma {:induction false} GapFollows(src: string, pos: nat, gap: Gap, rest: string)
    requires Follows(src, pos, GapThen(gap, rest))
    ensures GapAt(src, pos, gap) && Follows(src, GapEnd(pos, gap), rest)
    decreases gap
  {
    if gap.Then? {
      PieceFollows(src, pos, gap.piece, GapThen(gap.tail, rest));
      GapFollows(src, pos + |PieceText(gap.piece)|, gap.tail, rest);
    }
  }

  lemma {:induction false} SkipLineComment(src: string, pos: nat, body: string, newline: bool)
    requires GoodPiece(LineComment(body)) && PieceAt(src, pos, LineComment(body))
    ensures Skip(src, pos, newline) == Skip(src, pos + |body| + 3, true)
  {
    var text := PieceText(LineComment(body));
    var end := pos + 2 + |body|;
    assert forall k :: 0 <= k < |text| ==> src[pos + k] == src[pos..pos + |text|][k] == text[k];
    assert src[pos + 0] == text[0] && src[pos + 1] == text[1] && src[pos + (2 + |body|)] == text[2 + |body|];
    forall k | pos + 2 <= k < end
      ensures src[k] != '\n'
    {
      assert src[pos + (k - pos)] == text[k - pos] == body[k - pos - 2];
    }
    LineEndAt(src, pos + 2, end);
    assert Skip(src, end, newline) == Skip(src, end + 1, true);
  }

  lemma {:induction false} SkipBlockComment(src: string, pos: nat, body: string, newline: bool)
    requires GoodPiece(BlockComment(body)) && PieceAt(src, pos, BlockComment(body))
    ensures Skip(src, pos, newline) == Skip(src, pos + |body| + 4, newline)
  {
    var text := PieceText(BlockComment(body));
    var end := pos + 2 + |body|;
    assert forall k :: 0 <= k < |text| ==> src[pos + k] == src[pos..pos + |text|][k] == text[k];
    assert src[pos + 0] == text[0] && src[pos + 1] == text[1];
    assert src[pos + (2 + |body|)] == text[2 + |body|] && src[pos + (3 + |body|)] == text[3 + |body|];
    forall k | pos + 2 <= k < end
      ensures !(src[k] == '*' && src[k + 1] == '/')
    {
      var at := k - pos - 2;
      assert src[pos + (k - pos)] == text[k - pos] == body[at];
      assert !ClosesAt(body, at);
      assert src[pos + (k + 1 - pos)] == text[k + 1 - pos] == if at + 1 < |body| then body[at + 1] else '*';
    }
    CommentEndAt(src, pos + 2, end);
  }

  function SkipFrom(src: string): (nat, bool) -> Option<(nat, bool)> {
    (at: nat, newline: bool) => if at <= |src| then Skip(src, at, newline) else None
  }

  lemma {:induction false} SkipPiece(src: string, pos: nat, piece: Piece, newline: bool)
    requires GoodPiece(piece) && PieceAt(src, pos, piece)
    ensures SkipFrom(src)(pos, newline) == SkipFrom(src)(pos + |PieceText(piece)|, newline || BreaksAt(piece))
  {
    match piece
    case Blank(c) => assert src[pos] == src[pos..pos + 1][0] == c;
    case LineComment(body) => SkipLineComment(src, pos, body, newline);
    case BlockComment(body) => SkipBlockComment(src, pos, body, newline);
  }

  /** Reading goes on the same way behind the piece. */
  ghost predicate OverPiece<R(!new)>(src: string, f: (nat, bool) -> R, pos: nat, piece: Piece, newline: bool) {
    GoodPiece(piece) && PieceAt(src, pos, piece) ==> f(pos, newline) == f(pos + |PieceText(piece)|, newline || BreaksAt(piece))
  }

  /** Whatever does not change over a piece but for its line break does not change over
      a gap. */
  ghost predicate OverPieces<R(!new)>(src: string, f: (nat, bool) -> R) {
    forall pos: nat, piece, newline :: OverPiece(src, f, pos, piece, newline)
  }

  lemma {:induction false} OverGap<R(!new)>(src: string, f: (nat, bool) -> R, pos: nat, gap: Gap, newline: bool)
    requires OverPieces(src, f) && GoodGap(gap) && GapAt(src, pos, gap)
    ensures f(pos, newline) == f(GapEnd(pos, gap), newline || Breaks(gap))
    decreases gap
  {
    if gap.Then? {
      var next := pos + |PieceText(gap.piece)|;
      var broken := newline || BreaksAt(gap.piece);
      assert OverPiece(src, f, pos, gap.piece, newline);
      OverGap(src, f, next, gap.tail, broken);
      assert (broken || Breaks(gap.tail)) == (newline || Breaks(gap));
    }
  }

  lemma SkipsOverPiece(src: string, pos: nat, piece: Piece, newline: bool)
    ensures OverPiece(src, SkipFrom(src), pos, piece, newline)
  {
    if GoodPiece(piece) && PieceAt(src, pos, piece) {
      SkipPiece(src, pos, piece, newline);
    }
  }

  lemma SkipsOverPieces(src: string)
    ensures OverPieces(src, SkipFrom(src))
  {
    forall pos: nat, piece, newline
      ensures OverPiece(src, SkipFrom(src), pos, piece, newline)
    {
      SkipsOverPiece(src, pos, piece, newline);
    }
  }

  lemma {:induction false} SkipGap(src: string, pos: nat, gap: Gap)
    requires GoodGap(gap) && GapAt(src, pos, gap)
    ensures SkipFrom(src)(pos, false) == SkipFrom(src)(GapEnd(pos, gap), Breaks(gap))
  {
    SkipsOverPieces(src);
    OverGap(src, SkipFrom(src), pos, gap, false);
  }

  lemma {:induction false} ReadGap(src: string, pos: nat, gap: Gap, rest: string)
    requires GoodGap(gap) && Follows(src, pos, GapThen(gap, rest))
    ensures Follows(src, GapEnd(pos, gap), rest)
    ensures Skip(src, pos, false) == Skip(src, GapEnd(pos, gap), Breaks(gap))
  {
    GapFollows(src, pos, gap, rest);
    SkipGap(src, pos, gap);
  }

  // ---------- reading tokens ----------

  lemma {:induction false} WordEnd(src: string, i: nat, end: nat)
    requires i <= end <= |src| && (end < |src| ==> !IsSymbolChar(src[end]))
    requires forall j :: i <= j < end ==> IsSymbolChar(src[j])
    ensures IdentEnd(src, i) == end
    decreases end - i
  {
    if i < end {
      WordEnd(src, i + 1, end);
    }
  }

  lemma {:induction false} DigitRun(src: string, i: nat, end: nat, dots: bool)
    requires i <= end <= |src| && (end < |src| ==> !IsDigit(src[end]) && !(dots && src[end] == '.'))
    requires forall j :: i <= j < end ==> IsDigit(src[j]) || (dots && src[j] == '.')
    ensures DigitsEnd(src, i, dots) == end
    decreases end - i
  {
    if i < end {
      DigitRun(src, i + 1, end, dots);
    }
  }

  /** What follows, letter by letter. */
  lemma Letters(src: string, pos: nat, text: string, rest: string)
    requires Follows(src, pos, text + rest)
    ensures pos + |text| <= |src| && src[pos..pos + |text|] == text && Follows(src, pos + |text|, rest)
    ensures forall j :: pos <= j < pos + |text| ==> src[j] == text[j - pos]
    ensures pos + |text| < |src| <==> rest != ""
    ensures rest != "" ==> src[pos + |text|] == rest[0]
  {
    Ahead(src, pos, text, rest);
    forall j | pos <= j < pos + |text|
      ensures src[j] == text[j - pos]
    {
      assert src[pos + (j - pos)] == text[j - pos];
    }
    assert rest != "" ==> src[pos + |text|] == src[pos + |text|..][0];
  }

  lemma Sliced(src: string, pos: nat, text: string, rest: string)
    requires Follows(src, pos, text + rest)
    ensures pos + |text| <= |src| && src[pos..pos + |text|] == text && Follows(src, pos + |text|, rest)
  {
    Letters(src, pos, text, rest);
  }

  lemma NextIs(src: string, pos: nat, text: string, rest: string)
    requires Follows(src, pos, text + rest)
    ensures Follows(src, pos + |text|, rest) && (pos + |text| < |src| <==> rest != "")
    ensures rest != "" ==> src[pos + |text|] == rest[0]
  {
    Letters(src, pos, text, rest);
  }

  /** The token that starts at data is the one of the form, and reading it goes no
      further than it is spelled. */
  predicate ReadsAs(src: string, data: nat, form: Form) {
    data < |src| && LexAt(src, data) == Some((TextIn(form), data + |Spelled(form)|))
  }

  lemma WordReads(src: string, data: nat, form: Form, rest: string)
    requires form.Word? && GoodForm(form) && EndsBefore(form, rest) && Follows(src, data, Spelled(form) + rest)
    ensures ReadsAs(src, data, form)
  {
    Letters(src, data, form.text, rest);
    WordEnd(src, data + 1, data + |form.text|);
  }

  lemma MantissaReads(src: string, data: nat, mantissa: Text, rest: string)
    requires GoodForm(Numeral(mantissa, None)) && Follows(src, data, mantissa + rest)
    requires rest != "" ==> !IsDigit(rest[0]) && rest[0] != '.'
    ensures StartsNumber(src, data) && DigitsEnd(src, data + 1, true) == data + |mantissa|
  {
    Letters(src, data, mantissa, rest);
    forall j | data + 1 <= j < data + |mantissa|
      ensures IsDigit(src[j]) || src[j] == '.'
    {
      assert src[j] == mantissa[1..][j - data - 1];
    }
    DigitRun(src, data + 1, data + |mantissa|, true);
  }

  lemma SignReads(src: string, after: nat, x: Exponent, rest: string)
    requires GoodExponent(x) && Follows(src, after, ExponentText(Some(x)) + rest)
    requires rest != "" && x.sign == x.digits == "" ==> rest[0] !in {'+', '-'}
    ensures CharAt(src, after, x.letter)
    ensures (CharAt(src, after + 1, '+') || CharAt(src, after + 1, '-')) <==> x.sign != ""
  {
    var text := ExponentText(Some(x));
    Letters(src, after, text, rest);
    assert text[1..] == x.sign + x.digits;
    assert x.sign != "" ==> text[1] == x.sign[0];
    assert x.sign == "" && x.digits != "" ==> text[1] == x.digits[0];
  }

  lemma DigitsRead(src: string, k: nat, digits: string, rest: string)
    requires AllDigits(digits, false) && Follows(src, k, digits + rest) && (rest != "" ==> !IsDigit(rest[0]))
    ensures DigitsEnd(src, k, false) == k + |digits|
  {
    Letters(src, k, digits, rest);
    DigitRun(src, k, k + |digits|, false);
  }

  /** Where the digits of an exponent end. */
  lemma ExponentReads(src: string, after: nat, x: Exponent, rest: string)
    requires GoodExponent(x) && Follows(src, after, ExponentText(Some(x)) + rest) && (rest != "" ==> !IsDigit(rest[0]))
    ensures DigitsEnd(src, after + 1 + |x.sign|, false) == after + |ExponentText(Some(x))|
  {
    var head := [x.letter] + x.sign;
    assert ExponentText(Some(x)) + rest == head + (x.digits + rest);
    Ahead(src, after, head, x.digits + rest);
    DigitsRead(src, after + |head|, x.digits, rest);
  }

  lemma NumberEnds(src: string, data: nat, mantissa: Text, exponent: Option<Exponent>, rest: string)
    requires GoodForm(Numeral(mantissa, exponent)) && EndsBefore(Numeral(mantissa, exponent), rest)
    requires Follows(src, data, mantissa + (ExponentText(exponent) + rest))
    ensures StartsNumber(src, data) && NumberEnd(src, data + 1) == data + |mantissa| + |ExponentText(exponent)|
  {
    var tail := ExponentText(exponent) + rest;
    var after := data + |mantissa|;
    assert exponent.Some? ==> tail[0] == exponent.value.letter;
    assert exponent.None? ==> tail == rest;
    MantissaReads(src, data, mantissa, tail);
    NextIs(src, data, mantissa, tail);
    if exponent.Some? {
      SignReads(src, after, exponent.value, rest);
      ExponentReads(src, after, exponent.value, rest);
    }
  }

  lemma Glued(a: string, b: string, c: string)
    ensures (a + b) + c == a + (b + c)
  {}

  lemma NumberLexes(src: string, data: nat, text: Text, end: nat)
    requires StartsNumber(src, data) && NumberEnd(src, data + 1) == end && src[data..end] == text
    ensures LexAt(src, data) == Some((text, end))
  {}

  lemma NumeralReads(src: string, data: nat, form: Form, rest: string)
    requires form.Numeral? && GoodForm(form) && EndsBefore(form, rest) && Follows(src, data, Spelled(form) + rest)
    ensures ReadsAs(src, data, form)
  {
    Glued(form.mantissa, ExponentText(form.exponent), rest);
    NumberEnds(src, data, form.mantissa, form.exponent, rest);
    Sliced(src, data, Spelled(form), rest);
    NumberLexes(src, data, Spelled(form), data + |Spelled(form)|);
  }

  lemma MarkReads(src: string, data: nat, form: Form, rest: string)
    requires (form.Mark? || form.Pair?) && GoodForm(form) && EndsBefore(form, rest) && Follows(src, data, Spelled(form) + rest)
    ensures ReadsAs(src, data, form)
  {
    Letters(src, data, Spelled(form), rest);
    if data + 2 <= |src| {
      var two := src[data..data + 2];
      assert two == [src[data], src[data + 1]];
      assert two in PUNCTUATION && two[0] != '/' <==> two in PAIRS;
    }
  }

  lemma {:induction false} QuoteRun(src: string, i: nat, body: string)
    requires i + |body| < |src| && src[i..i + |body|] == body && src[i + |body|] == '"' && Quotable(body)
    ensures QuoteEnd(src, i) == i + |body|
    decreases |body|
  {
    if body != "" {
      assert src[i] == src[i..i + |body|][0];
      if body[0] == '\\' {
        assert src[i + 1] == src[i..i + |body|][1];
        var skip := if body[1] in {'"', '\\'} then 2 else 1;
        assert src[i + skip..i + |body|] == body[skip..];
        QuoteRun(src, i + skip, body[skip..]);
      } else {
        assert src[i + 1..i + |body|] == body[1..];
        QuoteRun(src, i + 1, body[1..]);
      }
    }
  }

  lemma QuotedReads(src: string, data: nat, form: Form, rest: string)
    requires form.Quoted? && GoodForm(form) && Follows(src, data, Spelled(form) + rest)
    ensures ReadsAs(src, data, form)
  {
    var body, spelled := form.body, Spelled(form);
    Letters(src, data, spelled, rest);
    assert src[data + 1..data + 1 + |body|] == spelled[1..1 + |body|] == body;
    QuoteRun(src, data + 1, body);
  }

  lemma FormReads(src: string, data: nat, form: Form, rest: string)
    requires GoodForm(form) && EndsBefore(form, rest) && Follows(src, data, Spelled(form) + rest)
    ensures ReadsAs(src, data, form)
  {
    match form
    case Word(_) => WordReads(src, data, form, rest);
    case Numeral(_, _) => NumeralReads(src, data, form, rest);
    case Mark(_) => MarkReads(src, data, form, rest);
    case Pair(_) => MarkReads(src, data, form, rest);
    case Quoted(_) => QuotedReads(src, data, form, rest);
  }

  /** No token looks like a blank or a comment. */
  lemma NotSkipped(src: string, data: nat, form: Form, rest: string, newline: bool)
    requires GoodForm(form) && EndsBefore(form, rest) && Follows(src, data, Spelled(form) + rest)
    ensures data < |src| && Skip(src, data, newline) == Some((data, newline))
  {
    Letters(src, data, Spelled(form), rest);
    assert src[data] == Spelled(form)[0];
    if form.Word? && form.text[0] == '/' && |form.text| > 1 {
      assert src[data + 1] == form.text[1];
    }
  }

  lemma {:induction false} StreamStep(src: string, pos: nat, data: nat, newline: bool, text: Text, next: nat)
    requires pos <= |src| && Skip(src, pos, false) == Some((data, newline)) && data < |src|
    requires LexAt(src, data) == Some((text, next))
    ensures StreamAt(src, pos) == Tok(text, newline, StreamAt(src, next))
  {}

  lemma {:induction false} ReadToken(src: string, pos: nat, gap: Gap, form: Form, rest: string) returns (end: nat)
    requires GoodGap(gap) && GoodForm(form) && EndsBefore(form, rest)
    requires Follows(src, pos, GapThen(gap, Spelled(form) + rest))
    ensures Follows(src, end, rest)
    ensures StreamAt(src, pos) == Tok(TextIn(form), Breaks(gap), StreamAt(src, end))
  {
    var data := GapEnd(pos, gap);
    end := data + |Spelled(form)|;
    ReadGap(src, pos, gap, Spelled(form) + rest);
    FormReads(src, data, form, rest);
    NotSkipped(src, data, form, rest, Breaks(gap));
    Sliced(src, data, Spelled(form), rest);
    StreamStep(src, pos, data, Breaks(gap), TextIn(form), end);
  }

  lemma {:induction false} ReadAt(src: string, pos: nat, w: Written)
    requires WellSpaced(w) && Follows(src, pos, TextOf(w))
    ensures StreamAt(src, pos) == TokensOf(w)
    decreases w
  {
    match w
    case End(gap) =>
      ReadGap(src, pos, gap, "");
    case Next(gap, form, tail) =>
      var end := ReadToken(src, pos, gap, form, TextOf(tail));
      ReadAt(src, end, tail);
  }

  /** What is written is read back, however it is spelled, spaced and commented. */
  lemma {:induction false} WrittenReads(w: Written)
    requires WellSpaced(w)
    ensures StreamAt(TextOf(w), 0) == TokensOf(w)
  {
    ReadAt(TextOf(w), 0, w);
  }

  // ---------- every token stream can be written ----------

  predicate Writable(ts: Tokens) {
    match ts
    case Eof => true
    case Stuck => false
    case Tok(text, _, tail) => GoodForm(Quoted(text)) && Writable(tail)
  }

  /** One token after the other in quotes, each after a blank or a line break. */
  function Render(ts: Tokens): Written {
    match ts
    case Tok(text, newline, tail) => Next(Then(Blank(if newline then '\n' else ' '), Nothing), Quoted(text), Render(tail))
    case _ => End(Nothing)
  }

  lemma {:induction false} RenderReads(ts: Tokens)
    requires Writable(ts)
    ensures WellSpaced(Render(ts)) && TokensOf(Render(ts)) == ts
    decreases ts
  {
    match ts
    case Eof =>
    case Tok(text, newline, tail) =>
      RenderReads(tail);
      var gap := Render(ts).gap;
      assert Breaks(gap) == newline;
      assert GoodGap(gap);
  }

  /** From the bytes of a written tree to its declared pruning, whether or not a line
      break comes before its first name. */
  lemma {:induction false} TextIsDeclared(env: Env, forest: seq<Source>, w: Written)
    requires WellSpaced(w) && PrintsTo(env, forest, TokensOf(w)) && CleanAll(env, false, forest)
    ensures ParseTokens(env, StreamAt(TextOf(w), 0))
            == Ok(Declared(env, if EndsInLeaf(forest) then forest[..|forest| - 1] else forest))
  {
    WrittenReads(w);
    ParseIsDeclared(env, forest, TokensOf(w));
  }
}
