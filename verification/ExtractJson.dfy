/** Finding the first JSON object in a model's answer: one pass that counts braces
    outside strings. JSON texts are those of sections 4 to 7 of RFC 8259, with any
    insignificant whitespace. */
module ExtractJson {
  import opened Transcript

  // ------------------------------------------------------------- the scanner

  datatype Scan = Scan(depth: int, inStr: bool, esc: bool)

  function Advance(st: Scan, c: char): Scan {
    if st.esc then st.(esc := false)
    else if c == '\\' && st.inStr then st.(esc := true)
    else if c == '"' then st.(inStr := !st.inStr)
    else if c == '{' && !st.inStr then st.(depth := st.depth + 1)
    else if c == '}' && !st.inStr then st.(depth := st.depth - 1)
    else st
  }

  /** `c` is the brace that balances the scan. */
  predicate Closes(st: Scan, c: char) { !st.esc && !st.inStr && c == '}' && st.depth == 1 }

  /** How many characters the scan reads before it stops, the closing brace
      included. */
  function Consumed(s: string, st: Scan): (n: Option<nat>)
    ensures n.Some? ==> 1 <= n.value <= |s|
    decreases |s|
  {
    if s == [] then None
    else if Closes(st, s[0]) then Some(1)
    else
      var rest := Consumed(s[1..], Advance(st, s[0]));
      if rest.Some? then Some(rest.value + 1) else None
  }

  function IndexOf(s: string, c: char): (i: nat)
    ensures i <= |s| && (i < |s| ==> s[i] == c) && c !in s[..i]
  {
    if s == [] || s[0] == c then 0
    else
      var rest := IndexOf(s[1..], c);
      assert s[..rest + 1] == [s[0]] + s[1..][..rest];
      rest + 1
  }

  function Extracted(s: string): string {
    var start := IndexOf(s, '{');
    match Consumed(s[start..], Scan(0, false, false))
    case None => ""
    case Some(n) => s[start..start + n]
  }

  method ExtractJsonObject(s: string) returns (object_: string)
    ensures object_ == Extracted(s)
  {
    var start := IndexOf(s, '{');
    if start == |s| { return ""; }
    var depth, inStr, esc := 0, false, false;
    for i := start to |s|
      invariant Offset(Consumed(s[start..], Scan(0, false, false)), start) ==
        Offset(Consumed(s[i..], Scan(depth, inStr, esc)), i)
    {
      var c := s[i];
      ReadsOn(s, i, Scan(depth, inStr, esc));
      if esc {
        esc := false;
      } else if c == '\\' && inStr {
        esc := true;
      } else if c == '"' {
        inStr := !inStr;
      } else if c == '{' && !inStr {
        depth := depth + 1;
      } else if c == '}' && !inStr {
        depth := depth - 1;
        if depth == 0 { return s[start..i + 1]; }
      }
    }
    return "";
  }

  lemma ReadsOn(s: string, i: nat, st: Scan)
    requires i < |s|
    ensures Offset(Consumed(s[i..], st), i) ==
      if Closes(st, s[i]) then Some(i + 1) else Offset(Consumed(s[i + 1..], Advance(st, s[i])), i + 1)
  {
    assert s[i..][1..] == s[i + 1..];
  }

  function Offset(n: Option<nat>, shift: nat): Option<nat> { if n.Some? then Some(n.value + shift) else None }

  // ---------------------------------------------------------------- JSON texts

  datatype StrChar = Plain(c: char) | Escaped(c: char) | Unicode(hex: string)

  /** A value with the whitespace around it. */
  datatype Value =
    | Atom(text: string)
    | Str(chars: seq<StrChar>)
    | Arr(lead: string, items: Items)
    | Obj(lead: string, members: Members)

  datatype Items = NoItems | Item(value: Value, after: string, before: string, rest: Items)

  datatype Members = NoMembers | Member(key: seq<StrChar>, afterKey: string, beforeValue: string, value: Value,
                                        after: string,
                                        before: string, rest: Members)

  predicate Whitespace(s: string) { forall k :: 0 <= k < |s| ==> s[k] in {' ', '\t', '\n', '\r'} }

  predicate NumberChar(c: char) { '0' <= c <= '9' || c == '+' || c == '-' || c == '.' || c == 'e' || c == 'E' }

  predicate HexDigit(c: char) { '0' <= c <= '9' || 'a' <= c <= 'f' || 'A' <= c <= 'F' }

  /** Every number, and the three literal names. */
  predicate AtomText(s: string) {
    s == "true" || s == "false" || s == "null" || forall k :: 0 <= k < |s| ==> NumberChar(s[k])
  }

  predicate ValidChar(c: StrChar) {
    match c
    case Plain(p) => p != '"' && p != '\\' && p >= ' '
    case Escaped(e) => e in "\"\\/bfnrt"
    case Unicode(hex) => |hex| == 4 && forall k :: 0 <= k < 4 ==> HexDigit(hex[k])
  }

  predicate ValidString(chars: seq<StrChar>) { forall k :: 0 <= k < |chars| ==> ValidChar(chars[k]) }

  predicate Valid(v: Value) {
    match v
    case Atom(text) => AtomText(text)
    case Str(chars) => ValidString(chars)
    case Arr(lead, items) => Whitespace(lead) && ValidItems(items)
    case Obj(lead, members) => Whitespace(lead) && ValidMembers(members)
  }

  predicate ValidItems(items: Items) {
    items.Item? ==> Valid(items.value) && Whitespace(items.after) && Whitespace(items.before) && ValidItems(items.rest)
  }

  predicate ValidMembers(ms: Members) {
    ms.Member? ==>
      && ValidString(ms.key) && Whitespace(ms.afterKey) && Whitespace(ms.beforeValue) && Valid(ms.value)
      && Whitespace(ms.after) && Whitespace(ms.before) && ValidMembers(ms.rest)
  }

  function PrintChar(c: StrChar): string {
    match c
    case Plain(p) => [p]
    case Escaped(e) => ['\\', e]
    case Unicode(hex) => ['\\', 'u'] + hex
  }

  function PrintChars(chars: seq<StrChar>): string {
    if chars == [] then "" else PrintChar(chars[0]) + PrintChars(chars[1..])
  }

  function PrintString(chars: seq<StrChar>): string { ['"'] + (PrintChars(chars) + ['"']) }

  function Print(v: Value): string {
    match v
    case Atom(text) => text
    case Str(chars) => PrintString(chars)
    case Arr(lead, items) => ['['] + (lead + (PrintItems(items) + [']']))
    case Obj(lead, members) => ['{'] + (lead + (PrintMembers(members) + ['}']))
  }

  function PrintItems(items: Items): string {
    if items.NoItems? then ""
    else
      Print(items.value) + (items.after +
        if items.rest.NoItems? then "" else [','] + (items.before + PrintItems(items.rest)))
  }

  function PrintMembers(ms: Members): string {
    if ms.NoMembers? then ""
    else
      PrintString(ms.key) + (ms.afterKey + ([':'] + (ms.beforeValue + (Print(ms.value) + (ms.after +
        if ms.rest.NoMembers? then "" else [','] + (ms.before + PrintMembers(ms.rest)))))))
  }

  // ------------------------------------------------------------- passing over

  /** Scanning `text` from `st` does not stop and leads to `end`, whatever follows. */
  ghost predicate Passes(text: string, st: Scan, end: Scan) {
    forall rest: string {:trigger Consumed(text + rest, st)} ::
      Consumed(text + rest, st) == Offset(Consumed(rest, end), |text|)
  }

  lemma PassesThen(a: string, b: string, st: Scan, mid: Scan, end: Scan)
    requires Passes(a, st, mid) && Passes(b, mid, end)
    ensures Passes(a + b, st, end)
  {
    forall rest: string ensures Consumed(a + b + rest, st) == Offset(Consumed(rest, end), |a + b|) {
      assert a + b + rest == a + (b + rest);
      assert Consumed(a + (b + rest), st) == Offset(Consumed(b + rest, mid), |a|);
    }
  }

  lemma PassesNone(st: Scan)
    ensures Passes("", st, st)
  {
    forall rest: string ensures Consumed("" + rest, st) == Offset(Consumed(rest, st), 0) {
      assert "" + rest == rest;
    }
  }

  lemma PassesOne(c: char, st: Scan)
    requires !Closes(st, c)
    ensures Passes([c], st, Advance(st, c))
  {
    forall rest: string ensures Consumed([c] + rest, st) == Offset(Consumed(rest, Advance(st, c)), 1) {
      assert ([c] + rest)[1..] == rest;
    }
  }

  predicate Dull(c: char) { c != '"' && c != '\\' && c != '{' && c != '}' }

  lemma {:induction false} PassesDull(text: string, st: Scan)
    requires !st.esc && forall k :: 0 <= k < |text| ==> Dull(text[k])
    ensures Passes(text, st, st)
  {
    if text == [] {
      PassesNone(st);
    } else {
      PassesOne(text[0], st);
      PassesDull(text[1..], st);
      PassesThen([text[0]], text[1..], st, st, st);
      assert [text[0]] + text[1..] == text;
    }
  }

  /** A backslash and the character it escapes. */
  lemma PassesPair(e: char, d: int)
    ensures Passes(['\\', e], Scan(d, true, false), Scan(d, true, false))
  {
    var inside, escaping := Scan(d, true, false), Scan(d, true, true);
    PassesOne('\\', inside);
    PassesOne(e, escaping);
    PassesThen(['\\'], [e], inside, escaping, inside);
    assert ['\\'] + [e] == ['\\', e];
  }

  /** Inside a string only the closing quote ends it, whatever it holds. */
  lemma PassesChar(c: StrChar, d: int)
    requires ValidChar(c)
    ensures Passes(PrintChar(c), Scan(d, true, false), Scan(d, true, false))
  {
    match c {
      case Plain(p) => PassesOne(p, Scan(d, true, false));
      case Escaped(e) => PassesPair(e, d);
      case Unicode(hex) => PassesUnicode(hex, d);
    }
  }

  lemma PassesUnicode(hex: string, d: int)
    requires ValidChar(Unicode(hex))
    ensures Passes(['\\', 'u'] + hex, Scan(d, true, false), Scan(d, true, false))
  {
    var inside := Scan(d, true, false);
    PassesPair('u', d);
    PassesDull(hex, inside);
    PassesThen(['\\', 'u'], hex, inside, inside, inside);
  }

  lemma {:induction false} PassesChars(chars: seq<StrChar>, d: int)
    requires ValidString(chars)
    ensures Passes(PrintChars(chars), Scan(d, true, false), Scan(d, true, false))
  {
    var inside := Scan(d, true, false);
    if chars == [] {
      PassesNone(inside);
    } else {
      PassesChar(chars[0], d);
      PassesChars(chars[1..], d);
      PassesThen(PrintChar(chars[0]), PrintChars(chars[1..]), inside, inside, inside);
    }
  }

  lemma PassesString(chars: seq<StrChar>, d: int)
    requires ValidString(chars)
    ensures Passes(PrintString(chars), Scan(d, false, false), Scan(d, false, false))
  {
    var outside, inside := Scan(d, false, false), Scan(d, true, false);
    PassesChars(chars, d);
    PassesOne('"', inside);
    PassesThen(PrintChars(chars), ['"'], inside, inside, outside);
    PassesOne('"', outside);
    PassesThen(['"'], PrintChars(chars) + ['"'], outside, inside, outside);
  }

  /** Brackets and braces around a body that passes. */
  lemma PassesAround(open: char, lead: string, body: string, close: char, st: Scan, deep: Scan)
    requires !st.esc && !deep.esc && Whitespace(lead) && Passes(body, deep, deep)
    requires !Closes(st, open) && Advance(st, open) == deep && !Closes(deep, close) && Advance(deep, close) == st
    ensures Passes([open] + (lead + (body + [close])), st, st)
  {
    PassesOne(close, deep);
    PassesThen(body, [close], deep, deep, st);
    PassesDull(lead, deep);
    PassesThen(lead, body + [close], deep, deep, st);
    PassesOne(open, st);
    PassesThen([open], lead + (body + [close]), st, deep, st);
  }

  /** A value inside an object leaves the count where it was. */
  lemma {:induction false} PassesValue(v: Value, d: int)
    requires Valid(v) && d >= 1
    ensures Passes(Print(v), Scan(d, false, false), Scan(d, false, false))
    decreases v
  {
    var st := Scan(d, false, false);
    match v {
      case Atom(text) => PassesDull(text, st);
      case Str(chars) => PassesString(chars, d);
      case Arr(lead, items) =>
        PassesItems(items, d);
        PassesAround('[', lead, PrintItems(items), ']', st, st);
      case Obj(lead, members) =>
        PassesMembers(members, d + 1);
        PassesAround('{', lead, PrintMembers(members), '}', st, Scan(d + 1, false, false));
    }
  }

  lemma {:induction false} PassesItems(items: Items, d: int)
    requires ValidItems(items) && d >= 1
    ensures Passes(PrintItems(items), Scan(d, false, false), Scan(d, false, false))
    decreases items
  {
    var st := Scan(d, false, false);
    PassesNone(st);
    if items.Item? {
      var tail := if items.rest.NoItems? then "" else [','] + (items.before + PrintItems(items.rest));
      if items.rest.Item? {
        PassesItems(items.rest, d);
        PassesDull(items.before, st);
        PassesThen(items.before, PrintItems(items.rest), st, st, st);
        PassesOne(',', st);
        PassesThen([','], items.before + PrintItems(items.rest), st, st, st);
      }
      PassesDull(items.after, st);
      PassesThen(items.after, tail, st, st, st);
      PassesValue(items.value, d);
      PassesThen(Print(items.value), items.after + tail, st, st, st);
    }
  }

  lemma {:induction false} PassesMembers(ms: Members, d: int)
    requires ValidMembers(ms) && d >= 1
    ensures Passes(PrintMembers(ms), Scan(d, false, false), Scan(d, false, false))
    decreases ms
  {
    var st := Scan(d, false, false);
    PassesNone(st);
    if ms.Member? {
      var tail := if ms.rest.NoMembers? then "" else [','] + (ms.before + PrintMembers(ms.rest));
      if ms.rest.Member? {
        PassesMembers(ms.rest, d);
        PassesDull(ms.before, st);
        PassesThen(ms.before, PrintMembers(ms.rest), st, st, st);
        PassesOne(',', st);
        PassesThen([','], ms.before + PrintMembers(ms.rest), st, st, st);
      }
      PassesDull(ms.after, st);
      PassesThen(ms.after, tail, st, st, st);
      PassesValue(ms.value, d);
      PassesThen(Print(ms.value), ms.after + tail, st, st, st);
      PassesMemberHead(ms, ms.after + tail, d);
    }
  }

  lemma PassesMemberHead(ms: Members, tail: string, d: int)
    requires ms.Member? && ValidString(ms.key) && Whitespace(ms.afterKey) && Whitespace(ms.beforeValue)
    requires var st := Scan(d, false, false); Passes(Print(ms.value) + tail, st, st)
    ensures var st := Scan(d, false, false);
      Passes(PrintString(ms.key) + (ms.afterKey + ([':'] + (ms.beforeValue + (Print(ms.value) + tail)))), st, st)
  {
    var st := Scan(d, false, false);
    PassesDull(ms.beforeValue, st);
    PassesThen(ms.beforeValue, Print(ms.value) + tail, st, st, st);
    PassesOne(':', st);
    PassesThen([':'], ms.beforeValue + (Print(ms.value) + tail), st, st, st);
    PassesDull(ms.afterKey, st);
    PassesThen(ms.afterKey, [':'] + (ms.beforeValue + (Print(ms.value) + tail)), st, st, st);
    PassesString(ms.key, d);
    PassesThen(PrintString(ms.key), ms.afterKey + ([':'] + (ms.beforeValue + (Print(ms.value) + tail))), st, st, st);
  }

  /** Any text without an opening brace, then any JSON object, then any text at all:
      the extractor returns exactly the object. */
  lemma ExtractsTheObject(prefix: string, lead: string, members: Members, suffix: string)
    requires '{' !in prefix && Valid(Obj(lead, members))
    ensures Extracted(prefix + Print(Obj(lead, members)) + suffix) == Print(Obj(lead, members))
  {
    var text := Print(Obj(lead, members));
    var s := prefix + text + suffix;
    StartsAt(prefix, text + suffix);
    assert prefix + (text + suffix) == s;
    assert s[|prefix|..] == text + suffix;
    ConsumesTheObject(lead, members, suffix);
    assert s[|prefix|..|prefix| + |text|] == text;
  }

  lemma {:induction false} StartsAt(prefix: string, text: string)
    requires '{' !in prefix && text != [] && text[0] == '{'
    ensures IndexOf(prefix + text, '{') == |prefix|
  {
    if prefix == [] {
      assert prefix + text == text;
    } else {
      StartsAt(prefix[1..], text);
      assert (prefix + text)[1..] == prefix[1..] + text;
    }
  }

  lemma PassesButLast(lead: string, members: Members)
    requires Valid(Obj(lead, members))
    ensures Passes(['{'] + (lead + PrintMembers(members)), Scan(0, false, false), Scan(1, false, false))
  {
    var st, deep := Scan(0, false, false), Scan(1, false, false);
    PassesMembers(members, 1);
    PassesDull(lead, deep);
    PassesThen(lead, PrintMembers(members), deep, deep, deep);
    PassesOne('{', st);
    PassesThen(['{'], lead + PrintMembers(members), st, deep, deep);
  }

  lemma StopsAtBrace(body: string, suffix: string, st: Scan)
    requires Passes(body, st, Scan(1, false, false))
    ensures Consumed(body + ['}'] + suffix, st) == Some(|body| + 1)
  {
    var rest := ['}'] + suffix;
    assert body + ['}'] + suffix == body + rest;
    assert Consumed(rest, Scan(1, false, false)) == Some(1);
    assert Consumed(body + rest, st) == Offset(Consumed(rest, Scan(1, false, false)), |body|);
  }

  lemma ConsumesTheObject(lead: string, members: Members, suffix: string)
    requires Valid(Obj(lead, members))
    ensures Consumed(Print(Obj(lead, members)) + suffix, Scan(0, false, false)) == Some(|Print(Obj(lead, members))|)
  {
    var body := ['{'] + (lead + PrintMembers(members));
    PassesButLast(lead, members);
    StopsAtBrace(body, suffix, Scan(0, false, false));
    assert Print(Obj(lead, members)) == body + ['}'];
  }

  // ------------------------------------------------------------- on any text

  /** The scan after reading all of `s`. */
  function After(s: string, st: Scan): Scan {
    if s == [] then st else After(s[1..], Advance(st, s[0]))
  }

  /** The character at `k` balances a scan of `s` that starts in `st`. */
  predicate ClosesAt(s: string, st: Scan, k: nat) { k < |s| && Closes(After(s[..k], st), s[k]) }

  lemma {:induction false} ClosesLater(s: string, st: Scan, k: nat)
    requires 1 <= k < |s|
    ensures ClosesAt(s, st, k) <==> ClosesAt(s[1..], Advance(st, s[0]), k - 1)
  {
    assert s[..k][1..] == s[1..][..k - 1];
  }

  /** The scan stops at the first closing position, and only when there is one. */
  lemma {:induction false} StopsAtFirst(s: string, st: Scan)
    ensures Consumed(s, st).None? <==> forall k: nat :: !ClosesAt(s, st, k)
    ensures forall n: nat :: Consumed(s, st) == Some(n) <==>
      n >= 1 && ClosesAt(s, st, n - 1) && forall k: nat :: k < n - 1 ==> !ClosesAt(s, st, k)
    decreases |s|
  {
    if s != [] {
      StopsAtFirst(s[1..], Advance(st, s[0]));
      var rest := Advance(st, s[0]);
      assert ClosesAt(s, st, 0) <==> Closes(st, s[0]);
      forall k: nat | 1 <= k < |s| ensures ClosesAt(s, st, k) <==> ClosesAt(s[1..], rest, k - 1) {
        ClosesLater(s, st, k);
      }
      forall k: nat ensures ClosesAt(s[1..], rest, k) <==> ClosesAt(s, st, k + 1) {
        if k + 1 < |s| { ClosesLater(s, st, k + 1); }
      }
    }
  }

  /** On any text: the result is the span from the first opening brace to the first
      brace that balances it, and it is empty exactly when no brace does. */
  lemma ExtractsFirstBalanced(s: string)
    ensures var start, st := IndexOf(s, '{'), Scan(0, false, false);
      && (Extracted(s) == "" <==> forall k: nat :: !ClosesAt(s[start..], st, k))
      && forall n: nat :: n >= 1 && ClosesAt(s[start..], st, n - 1) &&
           (forall k: nat :: k < n - 1 ==> !ClosesAt(s[start..], st, k))
           ==> Extracted(s) == s[start..][..n]
  {
    var tail := s[IndexOf(s, '{')..];
    StopsAtFirst(tail, Scan(0, false, false));
    ExtractedLength(s);
  }

  /** The result is a prefix of the text from the first opening brace on. */
  lemma ExtractedLength(s: string)
    ensures var tail := s[IndexOf(s, '{')..];
      match Consumed(tail, Scan(0, false, false)) {
        case None => Extracted(s) == ""
        case Some(n) => |Extracted(s)| == n && Extracted(s) == tail[..n]
      }
  {
  }

  lemma {:induction false} ReadsAlike(s: string, t: string, st: Scan)
    requires Consumed(s, st).Some?
    ensures Consumed(s + t, st) == Consumed(s, st)
    ensures Consumed(s[..Consumed(s, st).value], st) == Consumed(s, st)
    decreases |s|
  {
    var n := Consumed(s, st).value;
    if !Closes(st, s[0]) {
      ReadsAlike(s[1..], t, Advance(st, s[0]));
      assert (s + t)[1..] == s[1..] + t;
      assert s[..n][1..] == s[1..][..n - 1];
    }
  }

  /** When the text starts with a brace, what the scan reads is the result. */
  lemma ExtractedAfter(before: string, tail: string)
    requires '{' !in before && tail != [] && tail[0] == '{'
    ensures Extracted(before + tail) ==
      match Consumed(tail, Scan(0, false, false)) { case None => "" case Some(n) => tail[..n] }
  {
    StartsAt(before, tail);
    assert (before + tail)[|before|..] == tail;
    ExtractedLength(before + tail);
  }

  /** An object once found stays the answer, whatever text follows. */
  lemma ExtractionStays(s: string, t: string)
    requires Extracted(s) != ""
    ensures Extracted(s + t) == Extracted(s)
  {
    var before, tail := s[..IndexOf(s, '{')], s[IndexOf(s, '{')..];
    ExtractedLength(s);
    ReadsAlike(tail, t, Scan(0, false, false));
    assert s + t == before + (tail + t);
    var n := Consumed(tail, Scan(0, false, false)).value;
    assert (tail + t)[..n] == tail[..n];
    ExtractedAfter(before, tail + t);
  }

  /** Extracting from the answer returns it. */
  lemma ExtractionIsItsOwn(s: string)
    requires Extracted(s) != ""
    ensures Extracted(Extracted(s)) == Extracted(s)
  {
    var tail, found := s[IndexOf(s, '{')..], Extracted(s);
    ExtractedLength(s);
    ReadsAlike(tail, "", Scan(0, false, false));
    assert found == "" + found;
    assert found[..|found|] == found;
    ExtractedAfter("", found);
  }
}
