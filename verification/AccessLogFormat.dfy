/** Access log formats: text with variable names between percent signs. */
module AccessLogFormat {

  datatype Entry = Text(text: string) | Name(name: string)

  datatype Error = EmptyVarDef | UnclosedVarDef

  datatype Result = Ok(entries: seq<Entry>) | Err(error: Error)

  const UNKNOWN := "-"

  /** What a variable without a value prints as. */
  const NOT_FOUND := "-"

  /** A percent sign that no backslash precedes. */
  predicate Mark(f: string, i: int) {
    0 <= i < |f| && f[i] == '%' && !(i > 0 && f[i - 1] == '\\')
  }

  /** The first mark from position i on; the length of the format if there is none. */
  function NextMark(f: string, i: nat): (j: nat)
    requires i <= |f|
    ensures i <= j <= |f| && (j < |f| ==> Mark(f, j)) && forall k :: i <= k < j ==> !Mark(f, k)
    decreases |f| - i
  {
    if i == |f| || Mark(f, i) then i else NextMark(f, i + 1)
  }

  function EntryOf(name: string, known: string -> bool): Entry {
    if known(name) then Name(name) else Text(UNKNOWN)
  }

  function Prepend(es: seq<Entry>, r: Result): Result {
    match r
    case Ok(rest) => Ok(es + rest)
    case Err(_) => r
  }

  /** What the format from position i on means, when i begins a text. */
  function ParseText(f: string, i: nat, known: string -> bool): Result
    requires i <= |f|
    decreases |f| - i, 1
  {
    var j := NextMark(f, i);
    var text := if i < j then [Text(f[i..j])] else [];
    if j == |f| then Ok(text) else Prepend(text, ParseName(f, j + 1, known))
  }

  /** The same, when i begins a name. */
  function ParseName(f: string, i: nat, known: string -> bool): Result
    requires i <= |f|
    decreases |f| - i, 0
  {
    var j := NextMark(f, i);
    if j == |f| then Err(UnclosedVarDef)
    else if j == i then Err(EmptyVarDef)
    else Prepend([EntryOf(f[i..j], known)], ParseText(f, j + 1, known))
  }

  function Format(format: string, default: string): string {
    if format == "" then default else format
  }

  predicate NoMarks(f: string, i: int, j: int) {
    forall k :: i <= k < j ==> !Mark(f, k)
  }

  lemma NextMarkIs(f: string, i: nat, j: nat)
    requires i <= j <= |f| && NoMarks(f, i, j) && (j < |f| ==> Mark(f, j))
    ensures NextMark(f, i) == j
  {}

  lemma PrependTwice(a: seq<Entry>, b: seq<Entry>, r: Result)
    ensures Prepend(a, Prepend(b, r)) == Prepend(a + b, r)
  {
    if r.Ok? {
      assert a + (b + r.entries) == a + b + r.entries;
    }
  }

  /** A mark that ends a text. */
  lemma TextMark(f: string, i: nat, j: nat, known: string -> bool, es: seq<Entry>)
    requires i <= j < |f| && Mark(f, j) && NoMarks(f, i, j)
    ensures Prepend(es, ParseText(f, i, known))
         == Prepend(if i < j then es + [Text(f[i..j])] else es, ParseName(f, j + 1, known))
  {
    NextMarkIs(f, i, j);
    PrependTwice(es, if i < j then [Text(f[i..j])] else [], ParseName(f, j + 1, known));
    assert es + [] == es;
  }

  /** A mark that ends a name. */
  lemma NameMark(f: string, i: nat, j: nat, known: string -> bool, es: seq<Entry>)
    requires i <= j < |f| && Mark(f, j) && NoMarks(f, i, j)
    ensures i == j ==> Prepend(es, ParseName(f, i, known)) == Err(EmptyVarDef)
    ensures i < j ==>
              Prepend(es, ParseName(f, i, known)) == Prepend(es + [EntryOf(f[i..j], known)], ParseText(f, j + 1, known))
  {
    NextMarkIs(f, i, j);
    PrependTwice(es, [EntryOf(f[i..j], known)], ParseText(f, j + 1, known));
  }

  lemma FormatEnd(f: string, i: nat, known: string -> bool, es: seq<Entry>)
    requires i <= |f| && NoMarks(f, i, |f|)
    ensures Prepend(es, ParseText(f, i, known)) == Ok(if i < |f| then es + [Text(f[i..|f|])] else es)
    ensures Prepend(es, ParseName(f, i, known)) == Err(UnclosedVarDef)
  {
    NextMarkIs(f, i, |f|);
    assert es + [] == es;
  }

  lemma PrependNothing(r: Result)
    ensures Prepend([], r) == r
  {
    if r.Ok? {
      assert [] + r.entries == r.entries;
    }
  }

  method ParseFormat(format0: string, default: string, known: string -> bool) returns (r: Result)
    ensures r == ParseText(Format(format0, default), 0, known)
  {
    hide ParseText, ParseName, Prepend;
    var format := if format0 == "" then default else format0;
    var entries: seq<Entry> := [];
    var varDef := false;
    var lastMark := -1;
    PrependNothing(ParseText(format, 0, known));
    for pos := 0 to |format|
      invariant -1 <= lastMark && lastMark < |format| && (lastMark < pos || lastMark == -1)
      invariant NoMarks(format, lastMark + 1, pos)
      invariant ParseText(format, 0, known)
             == Prepend(entries, if varDef then ParseName(format, lastMark + 1, known)
                 else ParseText(format, lastMark + 1, known))
    {
      if format[pos] != '%' {
        continue;
      }
      if pos > 0 && format[pos - 1] == '\\' {
        continue;
      }
      if pos > lastMark {
        if varDef {
          NameMark(format, lastMark + 1, pos, known, entries);
          if pos == lastMark + 1 {
            return Err(EmptyVarDef);
          }
          var varName := format[lastMark + 1..pos];
          if !known(varName) {
            entries := entries + [Text(UNKNOWN)];
          } else {
            entries := entries + [Name(varName)];
          }
        } else {
          TextMark(format, lastMark + 1, pos, known, entries);
          if pos > lastMark + 1 {
            entries := entries + [Text(format[lastMark + 1..pos])];
          }
        }
        lastMark := pos;
      }
      varDef := !varDef;
    }
    FormatEnd(format, lastMark + 1, known, entries);
    if varDef {
      return Err(UnclosedVarDef);
    }
    if lastMark < |format| - 1 {
      entries := entries + [Text(format[lastMark + 1..|format|])];
    }
    return Ok(entries);
  }

  // ---- printing ----

  /** A log line: each text as it is, each name replaced by its value. */
  function Render(es: seq<Entry>, value: string -> string): string {
    if es == [] then "" else Piece(es[0], value) + Render(es[1..], value)
  }

  function Piece(e: Entry, value: string -> string): string {
    match e
    case Text(t) => t
    case Name(n) => value(n)
  }

  /** What a lookup of a variable answers. */
  datatype Lookup = Found(value: string) | NotFound

  function ValueOf(get: string -> Lookup, name: string): string {
    match get(name)
    case Found(v) => v
    case NotFound => NOT_FOUND
  }

  lemma {:induction false} RenderBoth(a: seq<Entry>, b: seq<Entry>, value: string -> string)
    ensures Render(a + b, value) == Render(a, value) + Render(b, value)
  {
    hide Piece;
    if a == [] {
      assert a + b == b;
    } else {
      RenderBoth(a[1..], b, value);
      assert (a + b)[1..] == a[1..] + b;
      Regroup(Piece(a[0], value), Render(a[1..], value), Render(b, value));
    }
  }

  lemma Regroup(a: string, b: string, c: string)
    ensures a + (b + c) == a + b + c
  {}

  lemma RenderOne(e: Entry, value: string -> string)
    ensures Render([e], value) == Piece(e, value)
  {
    assert Render([e][1..], value) == "";
  }

  /** In its place, a name prints as its value and a text as it is. */
  lemma PrintsInPlace(es: seq<Entry>, k: nat, value: string -> string)
    requires k < |es|
    ensures es[k].Name? ==>
              Render(es, value) == Render(es[..k], value) + value(es[k].name) + Render(es[k + 1..], value)
    ensures es[k].Text? ==> Render(es, value) == Render(es[..k], value) + es[k].text + Render(es[k + 1..], value)
  {
    hide Render;
    RenderBoth(es[..k + 1], es[k + 1..], value);
    RenderBoth(es[..k], [es[k]], value);
    RenderOne(es[k], value);
    assert es == es[..k + 1] + es[k + 1..] && es[..k + 1] == es[..k] + [es[k]];
  }

  /** The line that is logged, if logging is on: the entries one after the other, with the values the
      variables have at that moment, and a line break. */
  method Log(disabled: bool, es: seq<Entry>, get: string -> Lookup) returns (line: string)
    ensures disabled ==> line == ""
    ensures !disabled ==> line == Render(es, n => ValueOf(get, n)) + "\n"
  {
    if disabled {
      return "";
    }
    ghost var value := n => ValueOf(get, n);
    var buf := "";
    assert Render([], value) == "";
    hide Render;
    for i := 0 to |es|
      invariant buf == Render(es[..i], value)
    {
      assert es[..i + 1] == es[..i] + [es[i]];
      RenderBoth(es[..i], [es[i]], value);
      RenderOne(es[i], value);
      match es[i] {
        case Text(t) => buf := buf + t;
        case Name(n) =>
          var looked := get(n);
          if looked.NotFound? {
            buf := buf + NOT_FOUND;
          } else {
            buf := buf + looked.value;
          }
      }
    }
    assert es[..|es|] == es;
    return buf + "\n";
  }

  function Quote(name: string): string { "%" + name + "%" }

  function Print(es: seq<Entry>): string { Render(es, Quote) }

  /** No mark inside, whatever comes before. */
  predicate Unmarked(t: string) {
    forall i :: 0 <= i < |t| && t[i] == '%' ==> i > 0 && t[i - 1] == '\\'
  }

  predicate EndsInBackslash(t: string) { t != "" && t[|t| - 1] == '\\' }

  predicate EntryOk(e: Entry, known: string -> bool) {
    match e
    case Text(t) => t != "" && Unmarked(t)
    case Name(n) => n != "" && Unmarked(n) && !EndsInBackslash(n) && known(n)
  }

  /** The entry lists that formats stand for: no two texts side by side, and no text that would
      escape the mark of the name after it. */
  predicate Canonical(es: seq<Entry>, known: string -> bool) {
    es == [] || (
      && EntryOk(es[0], known)
      && (es[0].Text? && |es| > 1 ==> es[1].Name? && !EndsInBackslash(es[0].text))
      && Canonical(es[1..], known))
  }

  lemma NoMarksBefore(f: string, i: nat)
    requires i <= |f|
    ensures NoMarks(f, i, NextMark(f, i))
  {}

  lemma PrintCons(e: Entry, es: seq<Entry>)
    ensures Print([e] + es) == Piece(e, Quote) + Print(es)
  {
    assert ([e] + es)[1..] == es;
  }

  /** All names of the format from position i on are known, where i begins a text or a name. */
  predicate TextKnown(f: string, i: nat, known: string -> bool)
    requires i <= |f|
    decreases |f| - i, 1
  {
    var j := NextMark(f, i);
    j < |f| ==> NameKnown(f, j + 1, known)
  }

  predicate NameKnown(f: string, i: nat, known: string -> bool)
    requires i <= |f|
    decreases |f| - i, 0
  {
    var j := NextMark(f, i);
    j < |f| ==> known(f[i..j]) && TextKnown(f, j + 1, known)
  }

  predicate AfterMark(f: string, i: nat) { i == 0 || (i <= |f| && f[i - 1] == '%') }

  lemma PieceUnmarked(f: string, i: nat, j: nat)
    requires i <= j <= |f| && AfterMark(f, i) && NoMarks(f, i, j)
    ensures Unmarked(f[i..j])
    ensures j < |f| && Mark(f, j) && i < j ==> !EndsInBackslash(f[i..j])
  {
    forall k | 0 <= k < j - i && f[i..j][k] == '%'
      ensures k > 0 && f[i..j][k - 1] == '\\'
    {
      assert !Mark(f, i + k);
    }
  }

  /** What is parsed prints back as what was parsed, and is canonical, if all names are known; if not, it
      prints shorter. */
  lemma {:induction false} TextPrintsBack(f: string, i: nat, known: string -> bool)
    requires i <= |f| && AfterMark(f, i) && ParseText(f, i, known).Ok?
    ensures var es := ParseText(f, i, known).entries;
            if TextKnown(f, i, known) then Print(es) == f[i..] && Canonical(es, known) && (es == [] <==> i == |f|)
            else |Print(es)| < |f| - i
    decreases |f| - i, 1
  {
    hide Canonical, Unmarked, Print, Quote, NoMarks;
    var j := NextMark(f, i);
    NoMarksBefore(f, i);
    PieceUnmarked(f, i, j);
    if j == |f| {
      if i < j {
        CanonicalNothing(known);
        PrintCons(Text(f[i..j]), []);
        CanonicalText(f[i..j], [], known);
        assert [Text(f[i..j])] + [] == [Text(f[i..j])];
        assert f[i..j] == f[i..];
      } else {
        CanonicalNothing(known);
      }
    } else {
      NamePrintsBack(f, j + 1, known);
      var rest := ParseName(f, j + 1, known).entries;
      if i < j {
        PrintCons(Text(f[i..j]), rest);
        assert f[i..j] + f[j..] == f[i..];
        if TextKnown(f, i, known) {
          CanonicalText(f[i..j], rest, known);
        }
      } else {
        assert [] + rest == rest;
      }
    }
  }

  lemma {:induction false} NamePrintsBack(f: string, i: nat, known: string -> bool)
    requires 0 < i <= |f| && f[i - 1] == '%' && ParseName(f, i, known).Ok?
    ensures var es := ParseName(f, i, known).entries;
            if NameKnown(f, i, known) then es != [] && es[0].Name? && Print(es) == f[i - 1..] && Canonical(es, known)
            else |Print(es)| < |f| - i + 1
    decreases |f| - i, 0
  {
    hide Canonical, Unmarked, Print, Quote, NoMarks;
    var j := NextMark(f, i);
    NoMarksBefore(f, i);
    PieceUnmarked(f, i, j);
    TextPrintsBack(f, j + 1, known);
    var name, rest := f[i..j], ParseText(f, j + 1, known).entries;
    PrintCons(EntryOf(name, known), rest);
    QuoteLength(name);
    if NameKnown(f, i, known) {
      CanonicalName(name, rest, known);
      QuotedSlice(f, i, j);
    }
  }

  lemma QuoteLength(n: string)
    ensures |Quote(n)| == |n| + 2
  {}

  lemma QuotedSlice(f: string, i: nat, j: nat)
    requires 0 < i <= j < |f| && f[i - 1] == '%' && f[j] == '%'
    ensures f[i - 1..] == Quote(f[i..j]) + f[j + 1..]
  {
    assert f[i - 1..] == [f[i - 1]] + f[i..j] + [f[j]] + f[j + 1..];
  }

  lemma CanonicalNothing(known: string -> bool)
    ensures Canonical([], known) && Print([]) == ""
  {}

  lemma CanonicalText(t: string, rest: seq<Entry>, known: string -> bool)
    requires t != "" && Unmarked(t) && Canonical(rest, known)
    requires rest != [] ==> rest[0].Name? && !EndsInBackslash(t)
    ensures Canonical([Text(t)] + rest, known)
  {
    assert ([Text(t)] + rest)[1..] == rest;
  }

  lemma CanonicalName(n: string, rest: seq<Entry>, known: string -> bool)
    requires EntryOk(Name(n), known) && Canonical(rest, known)
    ensures Canonical([Name(n)] + rest, known)
  {
    assert ([Name(n)] + rest)[1..] == rest;
  }

  /** A format that parses prints back as itself exactly when all its names are known; then its
      entries are canonical. */
  lemma PrintOfParse(f: string, known: string -> bool)
    requires ParseText(f, 0, known).Ok?
    ensures Print(ParseText(f, 0, known).entries) == f <==> TextKnown(f, 0, known)
    ensures TextKnown(f, 0, known) ==> Canonical(ParseText(f, 0, known).entries, known)
  {
    hide ParseText, TextKnown, Print, Canonical;
    TextPrintsBack(f, 0, known);
    assert f[0..] == f;
  }

  /** An unmarked piece brings no mark of its own into a format. */
  lemma PieceHasNoMarks(pre: string, t: string, post: string)
    requires Unmarked(t)
    ensures NoMarks(pre + t + post, |pre|, |pre| + |t|)
  {
    var f := pre + t + post;
    forall k | |pre| <= k < |pre| + |t|
      ensures !Mark(f, k)
    {
      assert f[k] == t[k - |pre|];
      if f[k] == '%' {
        assert f[k - 1] == t[k - 1 - |pre|];
      }
    }
  }

  /** The format of a canonical list, after anything that does not escape its first mark, is parsed
      as that list. */
  lemma {:induction false} ParsesBack(pre: string, es: seq<Entry>, known: string -> bool)
    requires Canonical(es, known) && (es != [] && es[0].Name? ==> !EndsInBackslash(pre))
    ensures ParseText(pre + Print(es), |pre|, known) == Ok(es)
    decreases |es|, 0
  {
    if es == [] {
      assert pre + Print(es) == pre;
    } else {
      assert es == [es[0]] + es[1..];
      PrintCons(es[0], es[1..]);
      match es[0]
      case Text(t) => TextParsesBack(pre, t, es[1..], known);
      case Name(n) => NameParsesBack(pre, n, es[1..], known);
    }
  }

  lemma {:induction false} TextParsesBack(pre: string, t: string, rest: seq<Entry>, known: string -> bool)
    requires t != "" && Unmarked(t) && Canonical(rest, known)
    requires rest != [] ==> rest[0].Name? && !EndsInBackslash(t)
    ensures ParseText(pre + (t + Print(rest)), |pre|, known) == Ok([Text(t)] + rest)
    decreases |rest|, 1
  {
    hide Canonical, Unmarked, NoMarks, ParseText, ParseName, Prepend;
    var f := pre + (t + Print(rest));
    var j := |pre| + |t|;
    assert f == pre + t + Print(rest) && f[|pre|..j] == t;
    PieceHasNoMarks(pre, t, Print(rest));
    ParsesBack(pre + t, rest, known);
    PrependNothing(ParseText(f, |pre|, known));
    if rest == [] {
      assert Print(rest) == "";
      FormatEnd(f, |pre|, known, []);
      assert [] + [Text(f[|pre|..|f|])] == [Text(t)] + rest;
    } else {
      StartsWithMark(pre + t, rest);
      TextMark(f, |pre|, j, known, []);
      NoMarksNowhere(f, j);
      TextMark(f, j, j, known, [Text(t)]);
      assert [] + [Text(f[|pre|..j])] == [Text(t)];
      PrependOk([Text(t)], rest);
    }
  }

  lemma PrependOk(a: seq<Entry>, b: seq<Entry>)
    ensures Prepend(a, Ok(b)) == Ok(a + b)
  {}

  lemma NoMarksNowhere(f: string, i: nat)
    ensures NoMarks(f, i, i)
  {}

  /** A list that begins with a name prints a mark first. */
  lemma StartsWithMark(pre: string, es: seq<Entry>)
    requires es != [] && es[0].Name? && !EndsInBackslash(pre)
    ensures Print(es) != "" && Mark(pre + Print(es), |pre|)
  {
    assert es == [es[0]] + es[1..];
    PrintCons(es[0], es[1..]);
  }

  /** Where the marks of a quoted name are. */
  lemma QuotedMarks(pre: string, n: string, post: string)
    requires n != "" && Unmarked(n) && !EndsInBackslash(n) && !EndsInBackslash(pre)
    ensures var f, i, j := pre + Quote(n) + post, |pre| + 1, |pre| + 1 + |n|;
            j < |f| && Mark(f, |pre|) && NoMarks(f, i, j) && Mark(f, j) && f[i..j] == n && |pre + Quote(n)| == j + 1
  {
    hide NoMarks, Unmarked;
    var f, i, j := pre + Quote(n) + post, |pre| + 1, |pre| + 1 + |n|;
    assert f == (pre + "%") + n + ("%" + post);
    PieceHasNoMarks(pre + "%", n, "%" + post);
    assert f[j - 1] == n[|n| - 1] && f[j] == '%' && f[|pre|] == '%';
    assert |pre| > 0 ==> f[|pre| - 1] == pre[|pre| - 1];
  }

  lemma {:induction false} NameParsesBack(pre: string, n: string, rest: seq<Entry>, known: string -> bool)
    requires EntryOk(Name(n), known) && Canonical(rest, known) && !EndsInBackslash(pre)
    ensures ParseText(pre + (Quote(n) + Print(rest)), |pre|, known) == Ok([Name(n)] + rest)
    decreases |rest|, 1
  {
    hide Canonical, Unmarked, NoMarks, Mark, ParseText, ParseName, Prepend, Print, Quote, EndsInBackslash;
    var f := pre + Quote(n) + Print(rest);
    var i, j := |pre| + 1, |pre| + 1 + |n|;
    assert pre + (Quote(n) + Print(rest)) == f;
    QuotedMarks(pre, n, Print(rest));
    QuoteEnds(pre, n);
    ParsesBack(pre + Quote(n), rest, known);
    PrependNothing(ParseText(f, |pre|, known));
    NoMarksNowhere(f, |pre|);
    TextMark(f, |pre|, |pre|, known, []);
    NameMark(f, i, j, known, []);
    assert [] + [EntryOf(n, known)] == [Name(n)];
    PrependOk([Name(n)], rest);
  }

  /** A quoted name anywhere in a format is read as that name, or as a dash if it is unknown. */
  lemma NameIsRead(pre: string, n: string, post: string, known: string -> bool)
    requires n != "" && Unmarked(n) && !EndsInBackslash(n) && !EndsInBackslash(pre)
    ensures var f, next := pre + Quote(n) + post, |pre| + |n| + 2;
            && next <= |f| && f[next..] == post
            && ParseText(f, |pre|, known)
               == Prepend([if known(n) then Name(n) else Text("-")], ParseText(f, next, known))
  {
    hide Unmarked, NoMarks, Mark, ParseText, ParseName, Prepend, EndsInBackslash;
    var f, i, j := pre + Quote(n) + post, |pre| + 1, |pre| + 1 + |n|;
    QuotedMarks(pre, n, post);
    PrependNothing(ParseText(f, |pre|, known));
    NoMarksNowhere(f, |pre|);
    TextMark(f, |pre|, |pre|, known, []);
    NameMark(f, i, j, known, []);
    assert [] + [EntryOf(n, known)] == [EntryOf(n, known)];
  }

  lemma QuoteEnds(pre: string, n: string)
    ensures !EndsInBackslash(pre + Quote(n))
  {
    var q := pre + Quote(n);
    assert q[|q| - 1] == '%';
  }

  /** Parsing the printed form of a canonical list gives the list back. */
  lemma ParseOfPrint(es: seq<Entry>, default: string, known: string -> bool)
    requires Canonical(es, known) && es != []
    ensures ParseText(Format(Print(es), default), 0, known) == Ok(es)
  {
    hide ParseText, Print, Canonical;
    PrintIsNotEmpty(es, known);
    NoBackslash();
    ParsesBack("", es, known);
    assert "" + Print(es) == Print(es);
  }

  lemma PrintIsNotEmpty(es: seq<Entry>, known: string -> bool)
    requires Canonical(es, known) && es != []
    ensures Print(es) != ""
  {
    hide Print;
    assert es == [es[0]] + es[1..];
    PrintCons(es[0], es[1..]);
  }

  lemma NoBackslash()
    ensures !EndsInBackslash("")
  {}
}
