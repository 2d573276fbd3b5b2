/** The pattern language of LogFormatter: text, `%name` and `%name{format}`. */
module LogPattern {

  /** An entry of init's `vec`: its third field tells text from an item. */
  datatype Token = Text(text: string) | Item(name: string, fmt: string)

  /** What init reads, and whether it met a parse error. */
  datatype Parsed = Parsed(tokens: seq<Token>, broken: bool)

  const PATTERN_ERROR := "<<pattern_error>>"

  /** isalpha in the C locale. */
  predicate IsAlpha(c: char) {
    'a' <= c <= 'z' || 'A' <= c <= 'Z'
  }

  /** What the scan of an item's name passes over: it lets '}' through as well. */
  predicate NameChar(c: char) {
    IsAlpha(c) || c == '}'
  }

  /** The length of the name at the front of r. */
  function NameEnd(r: string): (m: nat)
    ensures m <= |r|
    ensures forall j :: 0 <= j < m ==> NameChar(r[j])
    ensures m < |r| ==> !NameChar(r[m])
  {
    if r == "" || !NameChar(r[0]) then 0 else 1 + NameEnd(r[1..])
  }

  /** The index of the first '}', or |r|. */
  function CloseAt(r: string): (k: nat)
    ensures k <= |r|
    ensures forall j :: 0 <= j < k ==> r[j] != '}'
    ensures k < |r| ==> r[k] == '}'
  {
    if r == "" || r[0] == '}' then 0 else 1 + CloseAt(r[1..])
  }

  /** An item, and how many characters behind the '%' it takes; or an unclosed brace. */
  datatype Scan = Good(name: string, fmt: string, length: nat) | Unclosed

  function ScanItem(r: string): (s: Scan)
    ensures s.Good? ==> s.length <= |r|
  {
    var m := NameEnd(r);
    if m < |r| && r[m] == '{' then
      var k := CloseAt(r[m + 1..]);
      if m + 1 + k < |r| then Good(r[..m], r[m + 1..m + 1 + k], m + k + 2) else Unclosed
    else Good(r[..m], "", m)
  }

  function Flush(pending: string): seq<Token> {
    if pending == "" then [] else [Text(pending)]
  }

  /** What the outer loop makes of the rest q of the pattern, with `pending` in nstr. A
      double '%' takes one character only; an unclosed item takes the '%' only, and its
      mark comes out before the pending text. */
  function Parse(q: string, pending: string): Parsed
    decreases |q|
  {
    if q == "" then Parsed(Flush(pending), false)
    else if q[0] != '%' then Parse(q[1..], pending + [q[0]])
    else if |q| > 1 && q[1] == '%' then Parse(q[1..], pending + "%")
    else
      match ScanItem(q[1..])
      case Good(name, fmt, length) =>
        var rest := Parse(q[1..][length..], "");
        Parsed(Flush(pending) + [Item(name, fmt)] + rest.tokens, rest.broken)
      case Unclosed =>
        var rest := Parse(q[1..], pending);
        Parsed([Text(PATTERN_ERROR)] + rest.tokens, true)
  }

  // ----- The printer -----

  function PrintToken(t: Token): string {
    match t
    case Text(s) => s
    case Item(name, fmt) => "%" + PrintItem(name, fmt)
  }

  /** What is printed behind the '%'. */
  function PrintItem(name: string, fmt: string): string {
    if fmt == "" then name else name + "{" + fmt + "}"
  }

  function Print(ts: seq<Token>): string {
    if ts == [] then "" else PrintToken(ts[0]) + Print(ts[1..])
  }

  predicate TokenOk(t: Token) {
    match t
    case Text(s) => s != "" && '%' !in s
    case Item(name, fmt) => (forall c <- name :: NameChar(c)) && '}' !in fmt
  }

  /** What may stand behind token t. */
  predicate MayFollow(t: Token, next: Token) {
    match t
    case Text(_) => next.Item?
    case Item(name, fmt) =>
      fmt == "" ==>
        match next
        case Text(s) => s != "" && !NameChar(s[0]) && s[0] != '{'
        case Item(_, _) => name != ""
  }

  /** The token lists that have a printed form. */
  predicate Canonical(ts: seq<Token>) {
    && (forall t <- ts :: TokenOk(t))
    && (forall i :: 0 <= i < |ts| - 1 ==> MayFollow(ts[i], ts[i + 1]))
  }

  lemma EmptyPlus(s: string)
    ensures "" + s == s
  {
  }

  lemma Shifted(a: string, q: string)
    requires q != ""
    ensures (a + [q[0]]) + q[1..] == a + q
  {
  }

  lemma {:induction false} ParseText(s: string, q: string, pending: string)
    requires '%' !in s
    ensures Parse(s + q, pending) == Parse(q, pending + s)
    decreases |s|
  {
    if s == "" {
      assert s + q == q && pending + s == pending;
    } else {
      assert s[0] in s;
      assert (s + q)[1..] == s[1..] + q;
      Shifted(pending, s);
      ParseText(s[1..], q, pending + [s[0]]);
    }
  }

  /** A name ends where a character follows that is none of a name's. */
  lemma {:induction false} NameEnds(name: string, tail: string)
    requires forall c <- name :: NameChar(c)
    requires tail == "" || !NameChar(tail[0])
    ensures NameEnd(name + tail) == |name|
    decreases |name|
  {
    if name == "" {
      assert name + tail == tail;
    } else {
      assert name[0] in name;
      assert (name + tail)[1..] == name[1..] + tail;
      NameEnds(name[1..], tail);
    }
  }

  lemma {:induction false} Closes(fmt: string, tail: string)
    requires '}' !in fmt
    ensures CloseAt(fmt + "}" + tail) == |fmt|
    decreases |fmt|
  {
    if fmt != "" {
      assert fmt[0] in fmt;
      assert (fmt + "}" + tail)[1..] == fmt[1..] + "}" + tail;
      Closes(fmt[1..], tail);
    }
  }

  lemma ScanBare(name: string, tail: string)
    requires forall c <- name :: NameChar(c)
    requires tail == "" || (!NameChar(tail[0]) && tail[0] != '{')
    ensures ScanItem(name + tail) == Good(name, "", |name|)
  {
    NameEnds(name, tail);
    assert (name + tail)[..|name|] == name;
  }

  lemma BracedParts(name: string, fmt: string, tail: string)
    ensures var rest := fmt + "}" + tail; var r := name + ("{" + rest);
      && r[|name|] == '{' && r[|name| + 1..] == rest && r[..|name|] == name
      && |fmt| < |rest| && r[|name| + 1..|name| + 1 + |fmt|] == fmt
  {
    var rest := fmt + "}" + tail;
    var r := name + ("{" + rest);
    assert r[|name| + 1..] == rest;
    assert rest[..|fmt|] == fmt;
  }

  lemma ScanBraced(name: string, fmt: string, tail: string)
    requires (forall c <- name :: NameChar(c)) && '}' !in fmt
    ensures ScanItem(name + ("{" + (fmt + "}" + tail))) == Good(name, fmt, |name| + |fmt| + 2)
  {
    var rest := fmt + "}" + tail;
    NameEnds(name, "{" + rest);
    Closes(fmt, tail);
    BracedParts(name, fmt, tail);
  }

  lemma BracedTail(name: string, fmt: string, tail: string)
    requires fmt != ""
    ensures PrintItem(name, fmt) + tail == name + ("{" + (fmt + "}" + tail))
    ensures |PrintItem(name, fmt)| == |name| + |fmt| + 2
  {
  }

  /** A printed item is scanned back, whatever may follow it. */
  lemma ScanPrinted(name: string, fmt: string, tail: string)
    requires TokenOk(Item(name, fmt))
    requires fmt == "" ==> tail == "" || (!NameChar(tail[0]) && tail[0] != '{')
    ensures ScanItem(PrintItem(name, fmt) + tail) == Good(name, fmt, |PrintItem(name, fmt)|)
  {
    if fmt == "" {
      ScanBare(name, tail);
    } else {
      ScanBraced(name, fmt, tail);
      BracedTail(name, fmt, tail);
      hide ScanItem;
    }
  }

  /** Where an item is printed, the parser reads it and goes on with what follows. */
  lemma ParseItem(name: string, fmt: string, tail: string, pending: string)
    requires TokenOk(Item(name, fmt))
    requires fmt == "" ==> tail == "" || (!NameChar(tail[0]) && tail[0] != '{' && (name == "" ==> tail[0] != '%'))
    ensures var rest := Parse(tail, "");
      Parse(PrintToken(Item(name, fmt)) + tail, pending)
        == Parsed(Flush(pending) + [Item(name, fmt)] + rest.tokens, rest.broken)
  {
    var q := PrintToken(Item(name, fmt)) + tail;
    ScanPrinted(name, fmt, tail);
    NotDouble(name, fmt, tail);
    ItemParts(name, fmt, tail);
    hide PrintItem, PrintToken, ScanItem, TokenOk, NameChar;
  }

  lemma ItemParts(name: string, fmt: string, tail: string)
    ensures var q, item := PrintToken(Item(name, fmt)) + tail, PrintItem(name, fmt);
      q != "" && q[0] == '%' && q[1..] == item + tail && q[1..][|item|..] == tail
  {
    hide PrintItem;
  }

  lemma NotDouble(name: string, fmt: string, tail: string)
    requires TokenOk(Item(name, fmt))
    requires fmt == "" && name == "" && tail != "" ==> tail[0] != '%'
    ensures var q := PrintToken(Item(name, fmt)) + tail; !(|q| > 1 && q[1] == '%')
  {
    if name != "" { assert name[0] in name; }
  }

  /** The first character of what is printed. */
  lemma PrintStarts(ts: seq<Token>)
    requires ts != [] && TokenOk(ts[0])
    ensures Print(ts) != "" && Print(ts)[0] == if ts[0].Text? then ts[0].text[0] else '%'
  {
  }

  /** What is printed behind a bare item cannot be taken for a part of it. */
  predicate TailFits(t: Token, tail: string) {
    t.Item? && t.fmt == "" ==>
      tail == "" || (!NameChar(tail[0]) && tail[0] != '{' && (t.name == "" ==> tail[0] != '%'))
  }

  lemma Head(ts: seq<Token>)
    requires Canonical(ts) && ts != []
    ensures TokenOk(ts[0]) && Canonical(ts[1..]) && TailFits(ts[0], Print(ts[1..]))
    ensures ts[0].Text? ==> ts[1..] == [] || ts[1..][0].Item?
  {
    assert ts[0] in ts;
    if |ts| > 1 {
      assert ts[1] in ts && MayFollow(ts[0], ts[1]) && ts[1..][0] == ts[1];
      PrintStarts(ts[1..]);
    }
    forall i | 0 <= i < |ts[1..]| - 1 ensures MayFollow(ts[1..][i], ts[1..][i + 1]) {
      assert MayFollow(ts[i + 1], ts[i + 2]);
    }
  }

  lemma {:induction false} ParsePrinted(ts: seq<Token>, pending: string)
    requires Canonical(ts)
    requires pending == "" || ts == [] || ts[0].Item?
    ensures Parse(Print(ts), pending) == Parsed(Flush(pending) + ts, false)
    decreases |ts|
  {
    if ts == [] {
      assert Flush(pending) + ts == Flush(pending);
    } else {
      Head(ts);
      ParsePrinted(ts[1..], if ts[0].Text? then ts[0].text else "");
      PrintHead(ts);
      hide Canonical, Print, Parse;
      if ts[0].Text? {
        ParseText(ts[0].text, Print(ts[1..]), "");
        TextHead(ts, pending);
      } else {
        ParseItem(ts[0].name, ts[0].fmt, Print(ts[1..]), pending);
        Spliced(Flush(pending), ts);
        hide *;
      }
    }
  }

  lemma TextHead(ts: seq<Token>, pending: string)
    requires ts != [] && ts[0].Text? && TokenOk(ts[0]) && pending == ""
    ensures Flush(ts[0].text) + ts[1..] == Flush(pending) + ts && "" + ts[0].text == ts[0].text
  {
  }

  lemma Spliced(front: seq<Token>, ts: seq<Token>)
    requires ts != []
    ensures front + [ts[0]] + ts[1..] == front + ts && [] + ts[1..] == ts[1..] && Flush("") == []
  {
  }

  lemma PrintHead(ts: seq<Token>)
    requires ts != []
    ensures Print(ts) == PrintToken(ts[0]) + Print(ts[1..])
  {
  }

  /** Printing and parsing again gives the same tokens, for every canonical list. */
  lemma RoundTrip(ts: seq<Token>)
    requires Canonical(ts)
    ensures Parse(Print(ts), "") == Parsed(ts, false)
  {
    ParsePrinted(ts, "");
  }

  // ----- Which patterns are what they say -----

  /** Read from left to right, the pattern has no "%%" outside of braces, no item with empty
      braces, and no unclosed brace. */
  predicate Clean(q: string)
    decreases |q|
  {
    if q == "" then true
    else if q[0] != '%' then Clean(q[1..])
    else if |q| > 1 && q[1] == '%' then false
    else
      match ScanItem(q[1..])
      case Good(name, fmt, length) => (fmt == "" ==> length == |name|) && Clean(q[1..][length..])
      case Unclosed => false
  }

  lemma ScanSplits(r: string)
    requires ScanItem(r).Good? && (ScanItem(r).fmt == "" ==> ScanItem(r).length == |ScanItem(r).name|)
    ensures var Good(name, fmt, length) := ScanItem(r);
      && TokenOk(Item(name, fmt)) && r[..length] == PrintItem(name, fmt)
      && (fmt == "" && length < |r| ==> !NameChar(r[length]) && r[length] != '{')
  {
    var m := NameEnd(r);
    if m < |r| && r[m] == '{' {
      var k := CloseAt(r[m + 1..]);
      assert r[m + 1..][k] == r[m + 1 + k];
      assert k > 0;
      assert r[..m + k + 2] == r[..m] + "{" + r[m + 1..m + 1 + k] + "}";
      assert r[m + 1..m + 1 + k] == r[m + 1..][..k];
    }
  }

  lemma Consed(t: Token, ts: seq<Token>)
    requires TokenOk(t) && Canonical(ts) && (ts != [] ==> MayFollow(t, ts[0]))
    ensures Canonical([t] + ts) && Print([t] + ts) == PrintToken(t) + Print(ts)
  {
    var all := [t] + ts;
    forall i | 0 <= i < |all| - 1 ensures MayFollow(all[i], all[i + 1]) {
      if i > 0 { assert MayFollow(ts[i - 1], ts[i]); }
    }
    assert all[1..] == ts;
  }

  /** A leading text token begins with the first character of q. */
  predicate StartsAs(q: string, ts: seq<Token>) {
    ts != [] && ts[0].Text? && ts[0].text != "" ==> q != "" && q[0] == ts[0].text[0]
  }

  /** Parsing and printing again gives the same pattern, and the tokens are canonical. */
  lemma {:induction false} ParsedPrints(q: string, pending: string)
    requires Clean(q) && '%' !in pending && !Parse(q, pending).broken
    ensures var ts := Parse(q, pending).tokens;
      && Canonical(ts) && Print(ts) == pending + q
      && (pending == "" ==> StartsAs(q, ts))
    decreases |q|
  {
    if q == "" {
      assert pending + q == pending;
      if pending != "" { Consed(Text(pending), []); }
    } else if q[0] != '%' {
      ParsedPrints(q[1..], pending + [q[0]]);
      TextFirst(q, pending);
    } else {
      ParsedItem(q, pending);
    }
  }

  /** A token list whose text comes from pending characters starts with the first of them. */
  lemma TextFirst(q: string, pending: string)
    requires q != "" && q[0] != '%'
    requires var ts := Parse(q[1..], pending + [q[0]]).tokens; Canonical(ts) && Print(ts) == (pending + [q[0]]) + q[1..]
    ensures var ts := Parse(q, pending).tokens;
      && Print(ts) == pending + q
      && (pending == "" ==> StartsAs(q, ts))
  {
    var ts := Parse(q, pending).tokens;
    Shifted(pending, q);
    if pending == "" && ts != [] {
      assert ts[0] in ts && TokenOk(ts[0]);
      PrintStarts(ts);
      EmptyPlus(q);
    }
    hide Canonical, Print, TokenOk;
  }

  lemma Behind(q: string, r: string)
    requires q != "" && q[0] == '%' && r == q[1..]
    ensures q == "%" + r
  {
  }

  lemma ParsedItem(q: string, pending: string)
    requires Clean(q) && '%' !in pending && !Parse(q, pending).broken && q != "" && q[0] == '%'
    ensures var ts := Parse(q, pending).tokens;
      Canonical(ts) && Print(ts) == pending + q && (pending == "" ==> StartsAs(q, ts))
    decreases |q|, 0
  {
    var r := q[1..];
    assert |q| > 1 ==> q[1] != '%';
    ScanSplits(r);
    var Good(name, fmt, length) := ScanItem(r);
    ParsedPrints(r[length..], "");
    var ts := Parse(r[length..], "").tokens;
    EmptyPlus(r[length..]);
    Behind(q, r);
    hide Clean, ScanItem, Canonical, Print, TokenOk, StartsAs, PrintToken, PrintItem, NameChar, Flush;
    ItemBefore(r, name, fmt, length, ts, pending, q);
  }

  /** Put a scanned item, and the pending text, before what follows. */
  lemma ItemBefore(r: string, name: string, fmt: string, length: nat, ts: seq<Token>, pending: string, q: string)
    requires length <= |r| && q == "%" + r && '%' !in pending && (r != "" ==> r[0] != '%')
    requires TokenOk(Item(name, fmt)) && r[..length] == PrintItem(name, fmt)
    requires fmt == "" && length < |r| ==> !NameChar(r[length]) && r[length] != '{'
    requires fmt == "" ==> length == |name|
    requires Canonical(ts) && Print(ts) == r[length..] && StartsAs(r[length..], ts)
    ensures var all := Flush(pending) + [Item(name, fmt)] + ts;
      Canonical(all) && Print(all) == pending + q && (pending == "" ==> StartsAs(q, all))
  {
    ItemFollows(r, name, fmt, length, ts);
    Consed(Item(name, fmt), ts);
    Rejoined(q, r, length);
    assert PrintToken(Item(name, fmt)) == "%" + r[..length];
    hide TokenOk, StartsAs, PrintItem, NameChar;
    PendingFirst(pending, [Item(name, fmt)] + ts, q);
    assert Flush(pending) + ([Item(name, fmt)] + ts) == Flush(pending) + [Item(name, fmt)] + ts;
  }

  lemma PendingFirst(pending: string, ts: seq<Token>, q: string)
    requires '%' !in pending && Canonical(ts) && ts != [] && ts[0].Item? && Print(ts) == q
    ensures Canonical(Flush(pending) + ts) && Print(Flush(pending) + ts) == pending + q
  {
    if pending == "" {
      assert Flush(pending) + ts == ts && pending + q == q;
    } else {
      Consed(Text(pending), ts);
    }
  }

  lemma Rejoined(q: string, r: string, length: nat)
    requires length <= |r| && q == "%" + r
    ensures q == "%" + r[..length] + r[length..]
  {
    assert r == r[..length] + r[length..];
  }

  lemma ItemFollows(r: string, name: string, fmt: string, length: nat, ts: seq<Token>)
    requires length <= |r| && (r != "" ==> r[0] != '%')
    requires fmt == "" && length < |r| ==> !NameChar(r[length]) && r[length] != '{'
    requires fmt == "" ==> length == |name|
    requires Canonical(ts) && Print(ts) == r[length..] && StartsAs(r[length..], ts)
    ensures ts != [] ==> MayFollow(Item(name, fmt), ts[0])
  {
    if ts != [] {
      assert ts[0] in ts && TokenOk(ts[0]);
      PrintStarts(ts);
    }
  }

  // ----- And only those -----

  lemma {:induction false} PrintAppend(a: seq<Token>, b: seq<Token>)
    ensures |Print(a + b)| == |Print(a)| + |Print(b)|
  {
    if a == [] {
      assert a + b == b;
    } else {
      assert (a + b)[1..] == a[1..] + b;
      PrintAppend(a[1..], b);
    }
  }

  lemma ItemLength(pending: string, name: string, fmt: string, ts: seq<Token>)
    ensures |Print(Flush(pending) + [Item(name, fmt)] + ts)| == |pending| + 1 + |PrintItem(name, fmt)| + |Print(ts)|
  {
    PrintAppend(Flush(pending) + [Item(name, fmt)], ts);
    PrintAppend(Flush(pending), [Item(name, fmt)]);
    assert [Item(name, fmt)][1..] == [] && [Text(pending)][1..] == [];
    hide PrintItem;
  }

  lemma ScanLength(r: string)
    requires ScanItem(r).Good?
    ensures var Good(name, fmt, length) := ScanItem(r);
      && |PrintItem(name, fmt)| <= length <= |r|
      && (fmt == "" && length != |name| ==> |PrintItem(name, fmt)| < length)
  {
  }

  /** What is printed is never longer than what was read. */
  lemma {:induction false} PrintedNoLonger(q: string, pending: string)
    requires !Parse(q, pending).broken
    ensures |Print(Parse(q, pending).tokens)| <= |pending| + |q|
    decreases |q|
  {
    if q == "" {
      assert [Text(pending)][1..] == [];
    } else if q[0] != '%' {
      PrintedNoLonger(q[1..], pending + [q[0]]);
    } else if |q| > 1 && q[1] == '%' {
      PrintedNoLonger(q[1..], pending + "%");
    } else {
      ScanLength(q[1..]);
      var Good(name, fmt, length) := ScanItem(q[1..]);
      PrintedNoLonger(q[1..][length..], "");
      hide ScanItem, Print, Flush, PrintItem;
      ItemLength(pending, name, fmt, Parse(q[1..][length..], "").tokens);
    }
  }

  /** The list has text with a '%' in it, which no canonical list has. */
  predicate PercentText(ts: seq<Token>) {
    exists t <- ts :: t.Text? && '%' in t.text
  }

  lemma PercentLater(a: seq<Token>, ts: seq<Token>)
    requires PercentText(ts)
    ensures PercentText(a + ts)
  {
    var t :| t in ts && t.Text? && '%' in t.text;
    assert t in a + ts;
  }

  /** A pending '%' comes out as text. */
  lemma {:induction false} PendingPercent(q: string, pending: string)
    requires '%' in pending && !Parse(q, pending).broken
    ensures PercentText(Parse(q, pending).tokens)
    decreases |q|
  {
    if q == "" {
      assert Text(pending) in Flush(pending);
    } else if q[0] != '%' {
      PendingPercent(q[1..], pending + [q[0]]);
    } else if |q| > 1 && q[1] == '%' {
      PendingPercent(q[1..], pending + "%");
    } else {
      var Good(name, fmt, length) := ScanItem(q[1..]);
      hide ScanItem;
      assert Text(pending) in Parse(q, pending).tokens;
    }
  }

  /** A pattern that is not clean loses characters, or leaves text with a '%' in it. */
  lemma {:induction false} UncleanLoses(q: string, pending: string)
    requires !Clean(q) && !Parse(q, pending).broken
    ensures PercentText(Parse(q, pending).tokens) || |Print(Parse(q, pending).tokens)| < |pending| + |q|
    decreases |q|
  {
    if q[0] != '%' {
      UncleanLoses(q[1..], pending + [q[0]]);
    } else if |q| > 1 && q[1] == '%' {
      PendingPercent(q[1..], pending + "%");
    } else {
      UncleanItem(q, pending);
    }
  }

  lemma UncleanItem(q: string, pending: string)
    requires !Clean(q) && !Parse(q, pending).broken && q != "" && q[0] == '%' && (|q| > 1 ==> q[1] != '%')
    ensures PercentText(Parse(q, pending).tokens) || |Print(Parse(q, pending).tokens)| < |pending| + |q|
    decreases |q|, 0
  {
    ScanLength(q[1..]);
    var Good(name, fmt, length) := ScanItem(q[1..]);
    var rest := q[1..][length..];
    var ts := Parse(rest, "").tokens;
    if Clean(rest) { PrintedNoLonger(rest, ""); } else { UncleanLoses(rest, ""); }
    hide ScanItem, Print, PrintItem;
    ItemLength(pending, name, fmt, ts);
    if PercentText(ts) { PercentLater(Flush(pending) + [Item(name, fmt)], ts); }
    hide Flush, PercentText;
  }

  lemma {:induction false} CleanParses(q: string, pending: string)
    requires Clean(q)
    ensures !Parse(q, pending).broken
    decreases |q|
  {
    if q == "" {
    } else if q[0] != '%' {
      CleanParses(q[1..], pending + [q[0]]);
    } else {
      CleanParses(q[1..][ScanItem(q[1..]).length..], "");
    }
  }

  /** A pattern is accepted, and read as a canonical list that prints as this very pattern,
      exactly if it is clean: the clean patterns and the canonical lists are in one-to-one
      correspondence. */
  lemma PatternRoundTrip(p: string)
    ensures !Parse(p, "").broken && Canonical(Parse(p, "").tokens) && Print(Parse(p, "").tokens) == p <==> Clean(p)
  {
    if Clean(p) {
      CleanParses(p, "");
      ParsedPrints(p, "");
      assert "" + p == p;
    } else if !Parse(p, "").broken {
      UncleanLoses(p, "");
      hide Print, Clean;
    }
  }

  // ----- The percent sign -----

  function Percents(k: nat): (s: string)
    ensures |s| == k && forall i :: 0 <= i < k ==> s[i] == '%'
  {
    seq(k, _ => '%')
  }

  /** A run of k percent signs yields k - 1 of them as text, and the last starts an item. */
  lemma {:induction false} PercentRun(k: nat, q: string, pending: string)
    requires k > 0 && (q != "" ==> q[0] != '%')
    ensures Parse(Percents(k) + q, pending) == Parse("%" + q, pending + Percents(k - 1))
    decreases k
  {
    if k == 1 {
      assert Percents(1) == "%" && pending + Percents(0) == pending;
    } else {
      assert (Percents(k) + q)[1..] == Percents(k - 1) + q;
      assert (pending + "%") + Percents(k - 2) == pending + Percents(k - 1);
      PercentRun(k - 1, q, pending + "%");
    }
  }

  /** So "%%" is no escape: a pattern with a percent sign always has an item or an error. */
  lemma {:induction false} PercentStartsItem(q: string, pending: string)
    requires '%' in q
    ensures var r := Parse(q, pending); r.broken || exists t :: t in r.tokens && t.Item?
    decreases |q|
  {
    if q[0] != '%' || (|q| > 1 && q[1] == '%') {
      PercentStartsItem(q[1..], pending + [q[0]]);
    } else if ScanItem(q[1..]).Good? {
      var Good(name, fmt, _) := ScanItem(q[1..]);
      assert Item(name, fmt) in Parse(q, pending).tokens;
    }
  }

  lemma DoublePercentIsError()
    ensures Parse("%%", "") == Parsed([Text("%"), Item("", "")], false)
    ensures !IsItem("")
  {
    assert Percents(2) + "" == "%%" && "%" + "" == "%" && "" + Percents(1) == "%";
    PercentRun(2, "", "");
    assert "%"[1..] == "";
  }

  // ----- The items -----

  /** The keys of s_format_items. */
  const NAMES := ["m", "p", "r", "c", "t", "n", "d", "f", "l", "T", "F", "N"]

  predicate IsItem(name: string) {
    name in NAMES
  }

  /** An entry of m_items: a StringFormatItem, or the class registered for a name. */
  datatype FormatItem = StringItem(text: string) | Known(name: string, fmt: string)

  function Resolve(t: Token): FormatItem {
    match t
    case Text(s) => StringItem(s)
    case Item(name, fmt) => if IsItem(name) then Known(name, fmt) else StringItem("<<error_format %" + name + ">>")
  }

  predicate Unknown(t: Token) {
    t.Item? && !IsItem(t.name)
  }

  function ResolveAll(ts: seq<Token>): (items: seq<FormatItem>)
    ensures |items| == |ts| && forall i :: 0 <= i < |ts| ==> items[i] == Resolve(ts[i])
  {
    seq(|ts|, i requires 0 <= i < |ts| => Resolve(ts[i]))
  }

  /** What init makes of a pattern: the items and the error flag. */
  function Formatted(p: string): (seq<FormatItem>, bool) {
    var Parsed(tokens, broken) := Parse(p, "");
    (ResolveAll(tokens), broken || exists t <- tokens :: Unknown(t))
  }

  /** Text stands for itself. */
  lemma TextItself(s: string)
    requires '%' !in s
    ensures Formatted(s) == (if s == "" then [] else [StringItem(s)], false)
  {
    if s != "" {
      assert s[0] in s;
      FormattedIs([Text(s)]);
      assert Print([Text(s)]) == s;
      assert ResolveAll([Text(s)]) == [StringItem(s)];
    }
  }

  lemma FormattedIs(ts: seq<Token>)
    requires Canonical(ts)
    ensures Formatted(Print(ts)) == (ResolveAll(ts), exists t <- ts :: Unknown(t))
  {
    RoundTrip(ts);
    hide Canonical, Print, Parse;
  }

  lemma OnePrinted(name: string, fmt: string)
    requires (forall c <- name :: c == '}' || 'a' <= c <= 'z' || 'A' <= c <= 'Z') && '}' !in fmt
    ensures Canonical([Item(name, fmt)])
    ensures Print([Item(name, fmt)]) == "%" + if fmt == "" then name else name + "{" + fmt + "}"
    ensures ResolveAll([Item(name, fmt)]) == [Resolve(Item(name, fmt))]
  {
    assert Print([Item(name, fmt)]) == PrintToken(Item(name, fmt)) + Print([]);
  }

  /** The twelve names of the table, bare or with a format in braces. */
  lemma KnownName(name: string, fmt: string)
    requires name in ["m", "p", "r", "c", "t", "n", "d", "f", "l", "T", "F", "N"] && '}' !in fmt
    ensures Formatted("%" + name) == ([Known(name, "")], false)
    ensures fmt != "" ==> Formatted("%" + (name + "{" + fmt + "}")) == ([Known(name, fmt)], false)
  {
    OnePrinted(name, "");
    FormattedIs([Item(name, "")]);
    OnePrinted(name, fmt);
    FormattedIs([Item(name, fmt)]);
    hide Canonical, Print, Formatted, ResolveAll;
  }

  /** Any other name is an error, and so printed. */
  lemma OtherName(name: string, fmt: string)
    requires name !in ["m", "p", "r", "c", "t", "n", "d", "f", "l", "T", "F", "N"] && '}' !in fmt
    requires forall c <- name :: c == '}' || 'a' <= c <= 'z' || 'A' <= c <= 'Z'
    ensures Formatted("%" + name) == ([StringItem("<<error_format %" + name + ">>")], true)
    ensures fmt != "" ==>
      Formatted("%" + (name + "{" + fmt + "}")) == ([StringItem("<<error_format %" + name + ">>")], true)
  {
    OnePrinted(name, "");
    FormattedIs([Item(name, "")]);
    OnePrinted(name, fmt);
    FormattedIs([Item(name, fmt)]);
    assert Unknown(Item(name, "")) && Unknown(Item(name, fmt));
    hide Canonical, Print, Formatted, ResolveAll, IsItem;
  }

  /** A name ends before the first character that is neither a letter nor a brace; what follows it is
      text. */
  lemma NameThenText(name: string, s: string)
    requires name in ["m", "p", "r", "c", "t", "n", "d", "f", "l", "T", "F", "N"] && s != "" && '%' !in s
    requires !('a' <= s[0] <= 'z' || 'A' <= s[0] <= 'Z' || s[0] == '{' || s[0] == '}')
    ensures Formatted("%" + name + s) == ([Known(name, ""), StringItem(s)], false)
  {
    OnePrinted(name, "");
    Consed(Text(s), []);
    Consed(Item(name, ""), [Text(s)]);
    var ts := [Item(name, "")] + [Text(s)];
    FormattedIs(ts);
    assert Print(ts) == "%" + name + s;
    assert ResolveAll(ts) == [Known(name, ""), StringItem(s)];
    hide Canonical, Print, Formatted;
  }

  /** A brace that is not closed is an error. Its mark comes first, then the text before the item and
      the item's own characters, but for the percent sign. */
  lemma UnclosedBrace(text: string, name: string, fmt: string)
    requires '%' !in text && '}' !in fmt && '%' !in fmt
    requires forall c <- name :: c == '}' || 'a' <= c <= 'z' || 'A' <= c <= 'Z'
    ensures Formatted(text + ("%" + (name + "{" + fmt)))
      == ([StringItem("<<pattern_error>>"), StringItem(text + (name + "{" + fmt))], true)
  {
    var rest := name + "{" + fmt;
    UnclosedScan(name, fmt);
    EmptyPlus(text);
    ParseText(text, "%" + rest, "");
    ParseUnclosedItem(rest, text);
    hide Parse, ScanItem;
    var all := text + rest;
    assert ResolveAll([Text(PATTERN_ERROR)] + [Text(all)]) == [StringItem("<<pattern_error>>"), StringItem(all)];
  }

  lemma ParseUnclosedItem(rest: string, pending: string)
    requires rest != "" && '%' !in rest && ScanItem(rest) == Unclosed
    ensures Parse("%" + rest, pending) == Parsed([Text(PATTERN_ERROR)] + [Text(pending + rest)], true)
  {
    var q := "%" + rest;
    assert q[1..] == rest && rest[0] in rest && q[1] == rest[0];
    hide ScanItem;
    ParseText(rest, "", pending);
    assert rest + "" == rest;
  }

  lemma UnclosedScan(name: string, fmt: string)
    requires '}' !in fmt && forall c <- name :: NameChar(c)
    ensures ScanItem(name + "{" + fmt) == Unclosed
  {
    var r := name + "{" + fmt;
    NameEnds(name, "{" + fmt);
    assert r == name + ("{" + fmt);
    assert r[|name| + 1..] == fmt;
    assert CloseAt(fmt) == |fmt|;
  }

  // ----- LogFormatter::init -----

  lemma NameEndIs(r: string, m: nat)
    requires m <= |r| && (forall j :: 0 <= j < m ==> NameChar(r[j])) && (m < |r| ==> !NameChar(r[m]))
    ensures NameEnd(r) == m
  {
    var e := NameEnd(r);
    assert e < |r| ==> !NameChar(r[e]);
    assert m < |r| ==> !NameChar(r[m]);
  }

  lemma CloseAtIs(r: string, k: nat)
    requires k <= |r| && (forall j :: 0 <= j < k ==> r[j] != '}') && (k < |r| ==> r[k] == '}')
    ensures CloseAt(r) == k
  {
    var e := CloseAt(r);
    assert e < |r| ==> r[e] == '}';
    assert k < |r| ==> r[k] == '}';
  }

  /** The scan from the '%' at i stopped at n: the name ended without a brace. */
  lemma StopsBare(p: string, i: nat, n: nat)
    requires i < n <= |p| && forall j :: i < j < n ==> NameChar(p[j])
    requires n < |p| ==> !NameChar(p[n]) && p[n] != '{'
    ensures ScanItem(p[i + 1..]) == Good(p[i + 1..n], "", n - i - 1)
  {
    var r := p[i + 1..];
    NameEndIs(r, n - i - 1);
    assert r[..n - i - 1] == p[i + 1..n];
  }

  lemma Slices(p: string, i: nat, b: nat, n: nat)
    requires i <= b < n <= |p|
    ensures var r, m := p[i..], b - i;
      r[m] == p[b] && r[m + 1..] == p[b + 1..] && r[..m] == p[i..b] && r[m + 1..n - i] == p[b + 1..n]
  {
  }

  predicate Opened(p: string, i: nat, b: nat, n: nat) {
    && i < b < n <= |p| && p[b] == '{' && (forall j :: i < j < b ==> NameChar(p[j]))
    && (forall j :: b < j < n ==> p[j] != '}')
  }

  /** It stopped at the '}' that closes the brace at b. */
  lemma StopsClosed(p: string, i: nat, b: nat, n: nat)
    requires Opened(p, i, b, n) && n < |p| && p[n] == '}'
    ensures ScanItem(p[i + 1..]) == Good(p[i + 1..b], p[b + 1..n], n - i)
  {
    var r, m, k := p[i + 1..], b - i - 1, n - b - 1;
    NameEndIs(r, m);
    Slices(p, i + 1, b, n);
    CloseAtIs(p[b + 1..], k);
    hide Opened, NameChar;
  }

  /** It ran to the end without meeting one. */
  lemma StopsUnclosed(p: string, i: nat, b: nat)
    requires Opened(p, i, b, |p|)
    ensures ScanItem(p[i + 1..]) == Unclosed
  {
    var r, m := p[i + 1..], b - i - 1;
    NameEndIs(r, m);
    assert r[m + 1..] == p[b + 1..];
    CloseAtIs(p[b + 1..], |p| - b - 1);
  }

  /** What is read so far, before the rest. */
  function Onto(vec: seq<Token>, broken: bool, rest: Parsed): Parsed {
    Parsed(vec + rest.tokens, broken || rest.broken)
  }

  lemma OntoMore(vec: seq<Token>, broken: bool, more: seq<Token>, rest: Parsed)
    ensures Onto(vec, broken, Parsed(more + rest.tokens, rest.broken)) == Onto(vec + more, broken, rest)
  {
    assert vec + (more + rest.tokens) == vec + more + rest.tokens;
  }

  lemma ParseGood(p: string, i: nat, n: nat, nstr: string, name: string, fmt: string, vec: seq<Token>, broken: bool)
    requires i < n <= |p| && p[i] == '%' && !(i + 1 < |p| && p[i + 1] == '%')
    requires ScanItem(p[i + 1..]) == Good(name, fmt, n - i - 1)
    ensures Onto(vec, broken, Parse(p[i..], nstr))
      == Onto(vec + Flush(nstr) + [Item(name, fmt)], broken, Parse(p[n..], ""))
  {
    ParseStep(p, i, n, nstr, name, fmt);
    hide Parse, ScanItem;
    OntoMore(vec, broken, Flush(nstr) + [Item(name, fmt)], Parse(p[n..], ""));
    Assoc(vec, Flush(nstr), [Item(name, fmt)]);
    hide *;
  }

  lemma Assoc(a: seq<Token>, b: seq<Token>, c: seq<Token>)
    ensures a + (b + c) == a + b + c
  {
  }

  lemma ParseStep(p: string, i: nat, n: nat, nstr: string, name: string, fmt: string)
    requires i < n <= |p| && p[i] == '%' && !(i + 1 < |p| && p[i + 1] == '%')
    requires ScanItem(p[i + 1..]) == Good(name, fmt, n - i - 1)
    ensures Parse(p[i..], nstr)
      == Parsed(Flush(nstr) + [Item(name, fmt)] + Parse(p[n..], "").tokens, Parse(p[n..], "").broken)
  {
    Tails(p, i, n);
    hide ScanItem;
    ParseAt(p[i..], p[i + 1..], n - i - 1, nstr, name, fmt);
  }

  lemma Tails(p: string, i: nat, n: nat)
    requires i < n <= |p|
    ensures p[i..][1..] == p[i + 1..] && p[i + 1..][n - i - 1..] == p[n..]
  {
  }

  lemma ParseAt(q: string, r: string, length: nat, nstr: string, name: string, fmt: string)
    requires q != "" && q[0] == '%' && q[1..] == r && !(|q| > 1 && q[1] == '%')
    requires ScanItem(r) == Good(name, fmt, length)
    ensures Parse(q, nstr)
      == Parsed(Flush(nstr) + [Item(name, fmt)] + Parse(r[length..], "").tokens, Parse(r[length..], "").broken)
  {
    hide ScanItem;
  }

  lemma ParseUnclosed(p: string, i: nat, nstr: string, vec: seq<Token>, broken: bool)
    requires i < |p| && p[i] == '%' && !(i + 1 < |p| && p[i + 1] == '%')
    requires ScanItem(p[i + 1..]) == Unclosed
    ensures Onto(vec, broken, Parse(p[i..], nstr)) == Onto(vec + [Text(PATTERN_ERROR)], true, Parse(p[i + 1..], nstr))
  {
    assert p[i..][1..] == p[i + 1..];
    Assoc(vec, [Text(PATTERN_ERROR)], Parse(p[i + 1..], nstr).tokens);
    hide ScanItem;
  }

  lemma ParseChar(p: string, i: nat, nstr: string)
    requires i < |p| && (p[i] != '%' || (i + 1 < |p| && p[i + 1] == '%'))
    ensures Parse(p[i..], nstr) == Parse(p[i + 1..], nstr + [p[i]])
  {
    assert p[i..][1..] == p[i + 1..];
  }

  /** The inner loop of init, from the '%' at i: where it stops, and with what. */
  method ScanFrom(p: string, i: nat) returns (closed: bool, str: string, fmt: string, n: nat)
    requires i < |p|
    ensures i < n <= |p|
    ensures ScanItem(p[i + 1..]) == if closed then Good(str, fmt, n - i - 1) else Unclosed
  {
    var status, begin := 0, 0;
    n, fmt, str := i + 1, "", "";
    while n < |p|
      invariant i < n <= |p| && (status == 0 || status == 1) && fmt == ""
      invariant status == 0 ==> forall j :: i < j < n ==> NameChar(p[j])
      invariant status == 0 ==> str == if n == |p| then p[i + 1..] else ""
      invariant status == 1 ==> Opened(p, i, begin, n) && (n < |p| ==> str == p[i + 1..begin])
      decreases |p| - n
    {
      if status == 0 && !IsAlpha(p[n]) && p[n] != '{' && p[n] != '}' {
        str := p[i + 1..n];
        StopsBare(p, i, n);
        return true, str, fmt, n;
      }
      if status == 0 {
        if p[n] == '{' {
          str := p[i + 1..n];
          status, begin := 1, n;
          n := n + 1;
          continue;
        }
      } else if p[n] == '}' {
        fmt := p[begin + 1..n];
        StopsClosed(p, i, begin, n);
        n := n + 1;
        return true, str, fmt, n;
      }
      n := n + 1;
      if n == |p| {
        if str == "" {
          str := p[i + 1..];
        }
      }
    }
    closed := status == 0;
    if closed {
      StopsBare(p, i, n);
    } else {
      StopsUnclosed(p, i, begin);
    }
  }

  /** Pending text becomes a token unless it is empty. */
  function FlushInto(vec: seq<Token>, nstr: string): (r: seq<Token>)
    ensures r == vec + Flush(nstr)
  {
    if nstr != "" then vec + [Text(nstr)] else vec
  }

  /** The outer loop of init: it computes Parse. */
  method ReadTokens(p: string) returns (vec: seq<Token>, broken: bool)
    ensures Parse(p, "") == Parsed(vec, broken)
  {
    vec, broken := [], false;
    var nstr, i := "", 0;
    assert p[0..] == p;
    while i < |p|
      invariant 0 <= i <= |p|
      invariant Parse(p, "") == Onto(vec, broken, Parse(p[i..], nstr))
      decreases |p| - i
    {
      if p[i] != '%' || (i + 1 < |p| && p[i + 1] == '%') {
        ParseChar(p, i, nstr);
        nstr := nstr + [p[i]];
        i := i + 1;
        continue;
      }
      var closed, str, fmt, n := ScanFrom(p, i);
      if closed {
        ParseGood(p, i, n, nstr, str, fmt, vec, broken);
        vec := FlushInto(vec, nstr);
        nstr := "";
        vec := vec + [Item(str, fmt)];
        i := n;
      } else {
        ParseUnclosed(p, i, nstr, vec, broken);
        vec := vec + [Text(PATTERN_ERROR)];
        broken := true;
        i := i + 1;
      }
    }
    vec := FlushInto(vec, nstr);
  }

  class LogFormatter {
    const pattern: string
    var items: seq<FormatItem>
    var error: bool

    constructor (pattern: string)
      ensures this.pattern == pattern
      ensures (items, error) == Formatted(pattern)
    {
      this.pattern := pattern;
      items := [];
      error := false;
      new;
      Init();
    }

    /** Read the pattern, then make an item of every token. */
    method Init()
      requires items == [] && !error
      modifies this
      ensures (items, error) == Formatted(pattern)
      ensures var Parsed(tokens, broken) := Parse(pattern, "");
        && |items| == |tokens|
        && (error <==> broken || exists i :: 0 <= i < |tokens| && tokens[i].Item? && tokens[i].name !in NAMES)
        && forall i :: 0 <= i < |tokens| ==>
             match tokens[i]
             case Text(s) => items[i] == StringItem(s)
             case Item(name, fmt) =>
               items[i] == if name in NAMES then Known(name, fmt) else StringItem("<<error_format %" + name + ">>")
    {
      var vec, broken := ReadTokens(pattern);
      error := broken;
      var k := 0;
      while k < |vec|
        invariant 0 <= k <= |vec| && |items| == k
        invariant forall j :: 0 <= j < k ==> items[j] == Resolve(vec[j])
        invariant error <==> broken || exists j :: 0 <= j < k && Unknown(vec[j])
      {
        match vec[k] {
          case Text(s) => items := items + [StringItem(s)];
          case Item(name, fmt) =>
            if IsItem(name) {
              items := items + [Known(name, fmt)];
            } else {
              items := items + [StringItem("<<error_format %" + name + ">>")];
              error := true;
            }
        }
        k := k + 1;
      }
      assert items == ResolveAll(vec);
      assert forall j :: 0 <= j < |vec| ==> (Unknown(vec[j]) <==> vec[j].Item? && vec[j].name !in NAMES);
    }
  }
}
