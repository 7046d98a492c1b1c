/** What the extractor makes of any text at all, said of the text's own tokens: quoted
    strings, in which a backslash takes the next character with it, and the characters
    outside them. Nothing needs to be JSON. */
module ExtractJsonTokens {
  import opened Transcript
  import opened ExtractJson

  datatype Quoted = One(c: char) | Escape(c: char)

  datatype Token = Bare(c: char) | Quotes(chars: seq<Quoted>)

  predicate Proper(t: Token) {
    match t
    case Bare(c) => c != '"'
    case Quotes(chars) => ProperChars(chars)
  }

  predicate ProperChars(chars: seq<Quoted>) {
    forall k :: 0 <= k < |chars| && chars[k].One? ==> chars[k].c != '"' && chars[k].c != '\\'
  }

  predicate AllProper(ts: seq<Token>)
    decreases |ts|
  {
    ts == [] || (Proper(ts[0]) && AllProper(ts[1..]))
  }

  function TextOf(chars: seq<Quoted>): string {
    if chars == [] then ""
    else (if chars[0].One? then [chars[0].c] else ['\\', chars[0].c]) + TextOf(chars[1..])
  }

  function TokenText(t: Token): string { if t.Bare? then [t.c] else ['"'] + (TextOf(t.chars) + ['"']) }

  function Text(ts: seq<Token>): string { if ts == [] then "" else TokenText(ts[0]) + Text(ts[1..]) }

  /** How many braces a list of tokens opens and does not close; braces in strings do not
      count. */
  function Depth(ts: seq<Token>): int {
    if ts == [] then 0
    else (if ts[0] == Bare('{') then 1 else if ts[0] == Bare('}') then -1 else 0) + Depth(ts[1..])
  }

  /** Inside `d` open braces, no token closes the outermost one. */
  predicate StaysOpen(ts: seq<Token>, d: int)
    decreases |ts|
  {
    d >= 1 && (ts == [] || StaysOpen(ts[1..], d + Depth([ts[0]])))
  }

  lemma {:induction false} PassesQuoted(chars: seq<Quoted>, d: int)
    requires ProperChars(chars)
    ensures Passes(TextOf(chars), Scan(d, true, false), Scan(d, true, false))
  {
    var inside := Scan(d, true, false);
    if chars == [] {
      PassesNone(inside);
    } else {
      if chars[0].One? { PassesOne(chars[0].c, inside); } else { PassesPair(chars[0].c, d); }
      PassesQuoted(chars[1..], d);
      PassesThen(if chars[0].One? then [chars[0].c] else ['\\', chars[0].c], TextOf(chars[1..]), inside, inside,
                 inside);
    }
  }

  lemma PassesToken(t: Token, d: int)
    requires Proper(t) && d >= 1 && d + Depth([t]) >= 1
    ensures Passes(TokenText(t), Scan(d, false, false), Scan(d + Depth([t]), false, false))
  {
    var st, inside := Scan(d, false, false), Scan(d, true, false);
    assert [t][1..] == [];
    if t.Bare? {
      PassesOne(t.c, st);
    } else {
      PassesQuoted(t.chars, d);
      PassesOne('"', inside);
      PassesThen(TextOf(t.chars), ['"'], inside, inside, st);
      PassesOne('"', st);
      PassesThen(['"'], TextOf(t.chars) + ['"'], st, inside, st);
    }
  }

  lemma {:induction false} PassesTokens(ts: seq<Token>, d: int)
    requires AllProper(ts) && StaysOpen(ts, d)
    ensures Passes(Text(ts), Scan(d, false, false), Scan(d + Depth(ts), false, false))
    decreases |ts|
  {
    if ts == [] {
      PassesNone(Scan(d, false, false));
    } else {
      var mid := d + Depth([ts[0]]);
      assert [ts[0]][1..] == [];
      assert StaysOpen(ts[1..], mid);
      PassesToken(ts[0], d);
      PassesTokens(ts[1..], mid);
      PassesThen(TokenText(ts[0]), Text(ts[1..]), Scan(d, false, false), Scan(mid, false, false),
                 Scan(d + Depth(ts), false, false));
    }
  }

  lemma PassesOpening(ts: seq<Token>)
    requires AllProper(ts) && StaysOpen(ts, 1)
    ensures Passes(['{'] + Text(ts), Scan(0, false, false), Scan(1 + Depth(ts), false, false))
  {
    PassesTokens(ts, 1);
    PassesBehindBrace(Text(ts), 1 + Depth(ts));
  }

  lemma PassesBehindBrace(text: string, d: int)
    requires Passes(text, Scan(1, false, false), Scan(d, false, false))
    ensures Passes(['{'] + text, Scan(0, false, false), Scan(d, false, false))
  {
    PassesOne('{', Scan(0, false, false));
    PassesThen(['{'], text, Scan(0, false, false), Scan(1, false, false), Scan(d, false, false));
  }

  /** A body that passes down to depth 1, and the brace that closes it. */
  lemma ExtractsBody(prefix: string, body: string, suffix: string)
    requires '{' !in prefix && body != [] && body[0] == '{'
    requires Passes(body, Scan(0, false, false), Scan(1, false, false))
    ensures Extracted(prefix + (body + ['}'] + suffix)) == body + ['}']
  {
    var tail := body + ['}'] + suffix;
    StopsAtBrace(body, suffix, Scan(0, false, false));
    ExtractedAfter(prefix, tail);
    assert tail[..|body| + 1] == body + ['}'];
  }

  /** A body that passes and ends the text. */
  lemma ExtractsNoBody(prefix: string, body: string, end: Scan)
    requires '{' !in prefix && body != [] && body[0] == '{' && Passes(body, Scan(0, false, false), end)
    ensures Extracted(prefix + body) == ""
  {
    assert body + "" == body;
    assert Consumed(body + "", Scan(0, false, false)) == Offset(Consumed("", end), |body|);
    ExtractedAfter(prefix, body);
  }

  /** Text without an opening brace, a brace, tokens that close every brace they open and
      not this one, and the brace that closes it: exactly that span is returned, whatever
      follows. */
  lemma ExtractsBalancedTokens(prefix: string, ts: seq<Token>, suffix: string)
    requires '{' !in prefix && AllProper(ts) && StaysOpen(ts, 1) && Depth(ts) == 0
    ensures Extracted(prefix + (['{'] + Text(ts) + ['}'] + suffix)) == ['{'] + Text(ts) + ['}']
  {
    PassesOpening(ts);
    ExtractsBody(prefix, ['{'] + Text(ts), suffix);
  }

  /** If the tokens never close the brace, nothing is returned, and neither if the text
      breaks off inside a string. */
  lemma ExtractsNothingUnclosed(prefix: string, ts: seq<Token>, open: seq<Quoted>)
    requires '{' !in prefix && AllProper(ts) && StaysOpen(ts, 1) && ProperChars(open)
    ensures Extracted(prefix + (['{'] + Text(ts))) == ""
    ensures Extracted(prefix + (['{'] + Text(ts) + (['"'] + TextOf(open)))) == ""
  {
    var d := 1 + Depth(ts);
    PassesOpening(ts);
    ExtractsNoBody(prefix, ['{'] + Text(ts), Scan(d, false, false));
    PassesOne('"', Scan(d, false, false));
    PassesQuoted(open, d);
    PassesThen(['"'], TextOf(open), Scan(d, false, false), Scan(d, true, false), Scan(d, true, false));
    PassesThen(['{'] + Text(ts), ['"'] + TextOf(open), Scan(0, false, false), Scan(d, false, false),
               Scan(d, true, false));
    ExtractsNoBody(prefix, ['{'] + Text(ts) + (['"'] + TextOf(open)), Scan(d, true, false));
  }
}
