// fmt's format string scanner, which searches for each brace on its own.
module FormatStrings {

  datatype Error = UnmatchedBrace | InvalidFormat | BadField

  // What the handler is told. OnArgument stands for on_arg_id and then on_replacement_field.
  // A field other than {} is left to the field parser.
  datatype Event = OnText(text: string) | OnArgument | OnField(field: string) | OnError(error: Error)

  // The argument id and format specification behind an opening brace: rejected, or read up to index end,
  // where the field has to close.
  datatype Field = Rejected | Accepted(end: nat)

  predicate Closes(f: Field, s: string) {
    f.Accepted? && f.end < |s| && s[f.end] == '}'
  }

  // The index of the first c, or the length when there is none.
  function Find(s: string, c: char): (i: nat)
    ensures i <= |s| && c !in s[..i] && (i < |s| ==> s[i] == c)
    ensures s != "" ==> (i == 0 <==> s[0] == c)
  {
    if s == "" || s[0] == c then 0
    else
      var i := 1 + Find(s[1..], c);
      assert s[..i] == [s[0]] + s[1..][..i - 1];
      i
  }

  predicate Failed(events: seq<Event>) {
    events != [] && events[|events| - 1].OnError?
  }

  // The text between fields, in which closing braces come in pairs.
  function WriteLoop(s: string): (events: seq<Event>)
    ensures events != []
    decreases |s|
  {
    var p := Find(s, '}');
    if p == |s| then [OnText(s)]
    else if p + 1 == |s| || s[p + 1] != '}' then [OnError(UnmatchedBrace)]
    else [OnText(s[..p + 1])] + WriteLoop(s[p + 2..])
  }

  function Write(s: string): seq<Event> {
    if s == "" then [] else WriteLoop(s)
  }

  // An error ends the parse: the handler throws.
  function Then(first: seq<Event>, rest: seq<Event>): seq<Event> {
    if Failed(first) then first else first + rest
  }

  function Parse(s: string, field: string -> Field): seq<Event>
    decreases |s|, 1
  {
    if s == "" then []
    else
      var p := if s[0] == '{' then 0 else Find(s, '{');
      if p == |s| then Write(s) else Then(Write(s[..p]), ParseField(s[p..], field))
  }

  // From an opening brace on.
  function ParseField(s: string, field: string -> Field): seq<Event>
    requires s != "" && s[0] == '{'
    decreases |s|, 0
  {
    if |s| == 1 then [OnError(InvalidFormat)]
    else if s[1] == '}' then [OnArgument] + Parse(s[2..], field)
    else if s[1] == '{' then [OnText("{")] + Parse(s[2..], field)
    else
      var f := field(s[1..]);
      if Closes(f, s[1..]) then [OnField(s[1..][..f.end])] + Parse(s[1..][f.end + 1..], field)
      else [OnError(BadField)]
  }

  // The one-pass reference --------------------------------------------------------------------

  datatype Item = Char(c: char) | Argument | Custom(field: string)

  datatype Template = Items(items: seq<Item>) | Fails(error: Error)

  // One template after another; nothing follows an error.
  function Join(a: Template, b: Template): Template {
    if a.Items? && b.Items? then Items(a.items + b.items) else if a.Items? then b else a
  }

  // The item at the front of s, or what is wrong there.
  function Head(s: string, field: string -> Field): (h: Template)
    requires s != ""
    ensures h.Items? ==> |h.items| == 1
  {
    if s[0] == '}' then (if |s| > 1 && s[1] == '}' then Items([Char('}')]) else Fails(UnmatchedBrace))
    else if s[0] != '{' then Items([Char(s[0])])
    else if |s| == 1 then Fails(InvalidFormat)
    else if s[1] == '}' then Items([Argument])
    else if s[1] == '{' then Items([Char('{')])
    else
      var f := field(s[1..]);
      if Closes(f, s[1..]) then Items([Custom(s[1..][..f.end])]) else Fails(BadField)
  }

  // How many characters that item takes.
  function Width(s: string, field: string -> Field): (n: nat)
    requires s != "" && Head(s, field).Items?
    ensures 0 < n <= |s|
  {
    if s[0] == '}' then 2
    else if s[0] != '{' then 1
    else if s[1] == '}' || s[1] == '{' then 2
    else field(s[1..]).end + 2
  }

  function Scan(s: string, field: string -> Field): Template
    decreases |s|
  {
    if s == "" then Items([])
    else if Head(s, field).Fails? then Head(s, field)
    else Join(Head(s, field), Scan(s[Width(s, field)..], field))
  }

  function Chars(s: string): seq<Item> {
    if s == "" then [] else [Char(s[0])] + Chars(s[1..])
  }

  // What one event says, and what the handler was told in all.
  function Said(e: Event): Template {
    match e
    case OnText(text) => Items(Chars(text))
    case OnArgument => Items([Argument])
    case OnField(field) => Items([Custom(field)])
    case OnError(error) => Fails(error)
  }

  function Told(events: seq<Event>): Template {
    if events == [] then Items([]) else Join(Said(events[0]), Told(events[1..]))
  }

  // The two searches see what one pass sees ------------------------------------------------------

  lemma JoinThree(a: Template, b: Template, c: Template)
    ensures Join(Join(a, b), c) == Join(a, Join(b, c))
    ensures Join(a, Items([])) == a && Join(Items([]), a) == a
  {
    if a.Items? && b.Items? && c.Items? { assert (a.items + b.items) + c.items == a.items + (b.items + c.items); }
    if a.Items? { assert a.items + [] == a.items && [] + a.items == a.items; }
  }

  lemma {:induction false} CharsBoth(a: string, b: string)
    ensures Chars(a + b) == Chars(a) + Chars(b)
  {
    if a == "" {
      assert a + b == b;
    } else {
      assert (a + b)[1..] == a[1..] + b;
      CharsBoth(a[1..], b);
    }
  }

  lemma ToldFirst(e: Event, rest: seq<Event>)
    ensures Told([e] + rest) == Join(Said(e), Told(rest))
  {
    assert ([e] + rest)[1..] == rest;
  }

  lemma ToldOne(e: Event)
    ensures Told([e]) == Said(e)
  {
    assert [e] + [] == [e];
    ToldFirst(e, []);
    JoinThree(Said(e), Items([]), Items([]));
  }

  lemma {:induction false} ToldBoth(a: seq<Event>, b: seq<Event>)
    ensures Told(a + b) == Join(Told(a), Told(b))
  {
    if a == [] {
      assert a + b == b;
      JoinThree(Told(b), Items([]), Items([]));
    } else {
      assert a + b == [a[0]] + (a[1..] + b) && a == [a[0]] + a[1..];
      ToldFirst(a[0], a[1..] + b);
      ToldFirst(a[0], a[1..]);
      ToldBoth(a[1..], b);
      JoinThree(Said(a[0]), Told(a[1..]), Told(b));
    }
  }

  lemma ToldThen(first: seq<Event>, rest: seq<Event>)
    ensures Told(Then(first, rest)) == Join(Told(first), Told(rest))
  {
    ToldBoth(first, rest);
    if Failed(first) {
      var n := |first| - 1;
      assert first == first[..n] + [first[n]];
      ToldBoth(first[..n], [first[n]]);
      ToldOne(first[n]);
    }
  }

  lemma ScanHead(s: string, n: nat, rest: string, field: string -> Field)
    requires s != "" && Head(s, field).Items? && Width(s, field) == n && s[n..] == rest
    ensures Scan(s, field) == Join(Head(s, field), Scan(rest, field))
  {
  }

  // Skipping over text without braces.
  lemma {:induction false} ScanPlain(a: string, b: string, field: string -> Field)
    requires '{' !in a && '}' !in a
    ensures Scan(a + b, field) == Join(Items(Chars(a)), Scan(b, field))
  {
    if a == "" {
      assert a + b == b;
      JoinThree(Scan(b, field), Items([]), Items([]));
    } else {
      ScanHead(a + b, 1, a[1..] + b, field);
      ScanPlain(a[1..], b, field);
      JoinThree(Items([Char(a[0])]), Items(Chars(a[1..])), Scan(b, field));
    }
  }

  lemma WriteNone(a: string)
    requires '}' !in a
    ensures Told(WriteLoop(a)) == Items(Chars(a))
  {
    assert a[..|a|] == a && WriteLoop(a) == [OnText(a)];
    ToldOne(OnText(a));
  }

  lemma WriteBad(a: string, p: nat)
    requires p == Find(a, '}') < |a| && (p + 1 == |a| || a[p + 1] != '}')
    ensures Told(WriteLoop(a)) == Fails(UnmatchedBrace)
  {
    ToldOne(OnError(UnmatchedBrace));
  }

  lemma ToldBrace(text: string, plain: string, rest: seq<Event>)
    requires text == plain + "}"
    ensures Told([OnText(text)] + rest) == Join(Items(Chars(plain)), Join(Items([Char('}')]), Told(rest)))
  {
    CharsBoth(plain, "}");
    assert Chars("}") == [Char('}')] + Chars("");
    ToldFirst(OnText(text), rest);
    JoinThree(Items(Chars(plain)), Items([Char('}')]), Told(rest));
  }

  lemma WriteOne(a: string, p: nat, rest: seq<Event>)
    requires p == Find(a, '}') && p + 1 < |a| && a[p + 1] == '}' && rest == WriteLoop(a[p + 2..])
    ensures WriteLoop(a) == [OnText(a[..p + 1])] + rest
  {
  }

  lemma TakeBrace(a: string, p: nat)
    requires p < |a| && a[p] == '}'
    ensures a[..p + 1] == a[..p] + "}"
  {
  }

  lemma PlainHead(a: string, b: string, p: nat, field: string -> Field)
    requires '{' !in a && p == Find(a, '}')
    ensures Scan(a + b, field) == Join(Items(Chars(a[..p])), Scan(a[p..] + b, field))
  {
    ScanPlain(a[..p], a[p..] + b, field);
    assert a + b == a[..p] + (a[p..] + b);
  }

  lemma ScanPair(a: string, b: string, p: nat, rest: string, field: string -> Field)
    requires '{' !in a && p == Find(a, '}') && p + 1 < |a| && a[p + 1] == '}' && rest == a[p + 2..]
    ensures Scan(a + b, field) == Join(Items(Chars(a[..p])), Join(Items([Char('}')]), Scan(rest + b, field)))
  {
    PlainHead(a, b, p, field);
    DropTwo(a, b, p);
    ScanClosing(a[p..] + b, rest + b, field);
  }

  lemma DropTwo(a: string, b: string, p: nat)
    requires p + 1 < |a|
    ensures |a[p..] + b| > 1 && (a[p..] + b)[0] == a[p] && (a[p..] + b)[1] == a[p + 1]
    ensures (a[p..] + b)[2..] == a[p + 2..] + b
  {
  }

  lemma ScanClosing(s: string, rest: string, field: string -> Field)
    requires |s| > 1 && s[0] == s[1] == '}' && s[2..] == rest
    ensures Scan(s, field) == Join(Items([Char('}')]), Scan(rest, field))
  {
  }

  lemma WritePair(a: string, p: nat, rest: string)
    requires p == Find(a, '}') && p + 1 < |a| && a[p + 1] == '}' && rest == a[p + 2..]
    ensures Told(WriteLoop(a)) == Join(Items(Chars(a[..p])), Join(Items([Char('}')]), Told(WriteLoop(rest))))
  {
    WriteOne(a, p, WriteLoop(rest));
    TakeBrace(a, p);
    ToldBrace(a[..p + 1], a[..p], WriteLoop(rest));
  }

  lemma BadScans(a: string, b: string, p: nat, field: string -> Field)
    requires '{' !in a && p == Find(a, '}') < |a| && (p + 1 == |a| || a[p + 1] != '}')
    requires b == "" || b[0] == '{'
    ensures Scan(a + b, field) == Told(WriteLoop(a)) == Fails(UnmatchedBrace)
  {
    PlainHead(a, b, p, field);
    WriteBad(a, p);
    assert Head(a[p..] + b, field) == Fails(UnmatchedBrace);
  }

  // The text in front of a field or of the end.
  lemma {:induction false} WriteScans(a: string, b: string, field: string -> Field)
    requires '{' !in a
    requires b == "" || b[0] == '{'
    ensures Scan(a + b, field) == Join(Told(WriteLoop(a)), Scan(b, field))
    decreases |a|
  {
    var p := Find(a, '}');
    if p == |a| {
      PlainHead(a, b, p, field);
      assert a[p..] + b == b && a[..p] == a;
      WriteNone(a);
    } else if p + 1 < |a| && a[p + 1] == '}' {
      WriteScans(a[p + 2..], b, field);
      ScanPair(a, b, p, a[p + 2..], field);
      WritePair(a, p, a[p + 2..]);
      JoinFour(Items(Chars(a[..p])), Items([Char('}')]), Told(WriteLoop(a[p + 2..])), Scan(b, field));
    } else {
      BadScans(a, b, p, field);
    }
  }

  lemma JoinFour(a: Template, b: Template, c: Template, d: Template)
    ensures Join(a, Join(b, Join(c, d))) == Join(Join(a, Join(b, c)), d)
  {
    JoinThree(b, c, d);
    JoinThree(a, Join(b, c), d);
  }

  // What the handler hears at an opening brace.
  function EventAt(s: string, field: string -> Field): (e: Event)
    requires s != "" && s[0] == '{' && Head(s, field).Items?
  {
    if s[1] == '}' then OnArgument
    else if s[1] == '{' then OnText("{")
    else OnField(s[1..][..field(s[1..]).end])
  }

  lemma SaidAt(s: string, field: string -> Field)
    requires s != "" && s[0] == '{' && Head(s, field).Items?
    ensures Said(EventAt(s, field)) == Head(s, field)
  {
    assert Chars("{") == [Char('{')] + Chars("");
  }

  lemma FieldEvent(s: string, n: nat, rest: string, field: string -> Field)
    requires s != "" && s[0] == '{' && Head(s, field).Items?
    requires n == Width(s, field) && rest == s[n..]
    ensures ParseField(s, field) == [EventAt(s, field)] + Parse(rest, field)
  {
    if s[1] != '}' && s[1] != '{' {
      assert s[1..][field(s[1..]).end + 1..] == rest;
    }
  }

  lemma FieldFails(s: string, field: string -> Field)
    requires s != "" && s[0] == '{' && Head(s, field).Fails?
    ensures ParseField(s, field) == [OnError(Head(s, field).error)]
  {
  }

  lemma {:induction false} FieldScans(s: string, field: string -> Field)
    requires s != "" && s[0] == '{'
    ensures Told(ParseField(s, field)) == Scan(s, field)
    decreases |s|, 0
  {
    if Head(s, field).Fails? {
      FieldFails(s, field);
      ToldOne(OnError(Head(s, field).error));
    } else {
      var rest := s[Width(s, field)..];
      FieldEvent(s, Width(s, field), rest, field);
      SaidAt(s, field);
      ToldFirst(EventAt(s, field), Parse(rest, field));
      ParseScans(rest, field);
    }
  }

  lemma ParseAt(s: string, p: nat, field: string -> Field)
    requires s != "" && p == Find(s, '{')
    ensures p == |s| ==> Parse(s, field) == WriteLoop(s)
    ensures p == 0 ==> Parse(s, field) == ParseField(s, field)
    ensures 0 < p < |s| ==> Parse(s, field) == Then(WriteLoop(s[..p]), ParseField(s[p..], field))
  {
    if p == 0 {
      assert s[0..] == s;
      ParseAtField(s, field);
    } else {
      assert s[0] == s[..p][0];
      ParseAtText(s, p, field);
    }
  }

  lemma ParseAtField(s: string, field: string -> Field)
    requires s != "" && s[0] == '{'
    ensures Parse(s, field) == ParseField(s, field)
  {
    assert s[0..] == s;
  }

  lemma ParseAtText(s: string, p: nat, field: string -> Field)
    requires s != "" && p == Find(s, '{') && s[0] != '{'
    ensures p == |s| ==> Parse(s, field) == WriteLoop(s)
    ensures p < |s| ==> Parse(s, field) == Then(WriteLoop(s[..p]), ParseField(s[p..], field))
  {
  }

  /** The two-pass scanner tells its handler what one pass from left to right would. */
  lemma {:induction false} ParseScans(s: string, field: string -> Field)
    ensures Told(Parse(s, field)) == Scan(s, field)
    decreases |s|, 1
  {
    if s != "" {
      var p := Find(s, '{');
      var a, b := s[..p], s[p..];
      assert s == a + b;
      ParseAt(s, p, field);
      if p == 0 {
        FieldScans(s, field);
      } else {
        WriteScans(a, b, field);
        if p == |s| {
          assert a == s;
          JoinThree(Told(WriteLoop(s)), Items([]), Items([]));
        } else {
          FieldScans(b, field);
          ToldThen(WriteLoop(a), ParseField(b, field));
        }
      }
    }
  }

  // The loops of the source ------------------------------------------------------------------------

  lemma Regroup<T>(a: seq<T>, b: seq<T>, c: seq<T>)
    ensures a + (b + c) == (a + b) + c
  {
  }

  lemma DropMore(s: string, i: nat, j: nat)
    requires i + j <= |s|
    ensures s[i..][j..] == s[i + j..]
  {
  }

  method NextText(s: string) returns (event: Event, next: nat, stop: bool)
    ensures next <= |s| && (!stop ==> next > 0)
    ensures WriteLoop(s) == if stop then [event] else [event] + WriteLoop(s[next..])
  {
    var p := Find(s, '}');
    if p == |s| {
      return OnText(s), 0, true;
    }
    if p + 1 == |s| || s[p + 1] != '}' {
      return OnError(UnmatchedBrace), 0, true;
    }
    WriteOne(s, p, WriteLoop(s[p + 2..]));
    return OnText(s[..p + 1]), p + 2, false;
  }

  method WriteText(s: string) returns (events: seq<Event>)
    ensures events == Write(s)
  {
    events := [];
    if s == "" {
      return;
    }
    ghost var all := WriteLoop(s);
    var rest := s;
    while true
      invariant all == events + WriteLoop(rest)
      decreases |rest|
    {
      var event, next, stop := NextText(rest);
      if stop {
        return events + [event];
      }
      Regroup(events, [event], WriteLoop(rest[next..]));
      events, rest := events + [event], rest[next..];
    }
  }

  // One field: what it makes the handler hear, and where the scan goes on unless it stops.
  method NextField(s: string, field: string -> Field) returns (piece: seq<Event>, next: nat, stop: bool)
    requires s != "" && s[0] == '{'
    ensures 0 < next <= |s| && piece != []
    ensures ParseField(s, field) == if stop then piece else piece + Parse(s[next..], field)
  {
    var p := 1;
    if p == |s| {
      return [OnError(InvalidFormat)], p, true;
    }
    if s[p] == '}' {
      return [OnArgument], p + 1, false;
    }
    if s[p] == '{' {
      assert s[p..p + 1] == "{";
      return [OnText(s[p..p + 1])], p + 1, false;
    }
    var f := field(s[p..]);
    if f.Accepted? && p + f.end < |s| && s[p + f.end] == '}' {
      DropMore(s, p, f.end + 1);
      return [OnField(s[p..][..f.end])], p + f.end + 1, false;
    }
    return [OnError(BadField)], p, true;
  }

  // The text up to the next field, and the field.
  method NextPiece(s: string, field: string -> Field) returns (piece: seq<Event>, next: nat, stop: bool)
    requires s != ""
    ensures 0 < next <= |s|
    ensures Parse(s, field) == if stop then piece else piece + Parse(s[next..], field)
  {
    var p := Find(s, '{');
    ParseAt(s, p, field);
    if s[0] == '{' {
      piece, next, stop := NextField(s, field);
      return;
    }
    piece := WriteText(s[..p]);
    if p == |s| {
      assert s[..p] == s;
      return piece, |s|, true;
    }
    if Failed(piece) {
      return piece, |s|, true;
    }
    var more;
    more, next, stop := NextField(s[p..], field);
    DropMore(s, p, next);
    Regroup(piece, more, Parse(s[p + next..], field));
    piece, next := piece + more, p + next;
  }

  method ParseFormatString(s: string, field: string -> Field) returns (events: seq<Event>)
    ensures events == Parse(s, field)
  {
    events := [];
    ghost var all := Parse(s, field);
    var rest := s;
    while rest != ""
      invariant all == events + Parse(rest, field)
      decreases |rest|
    {
      var piece, next, stop := NextPiece(rest, field);
      if stop {
        return events + piece;
      }
      Regroup(events, piece, Parse(rest[next..], field));
      events, rest := events + piece, rest[next..];
    }
  }

  // Round trips -----------------------------------------------------------------------------------

  // The format string for one item: braces are doubled.
  function RenderItem(i: Item): string {
    match i
    case Char(c) => if c == '{' || c == '}' then [c, c] else [c]
    case Argument => "{}"
    case Custom(field) => "{" + field + "}"
  }

  function Render(items: seq<Item>): string {
    if items == [] then "" else RenderItem(items[0]) + Render(items[1..])
  }

  lemma RenderedHead(first: Item, rest: string, field: string -> Field)
    requires !first.Custom?
    ensures Scan(RenderItem(first) + rest, field) == Join(Items([first]), Scan(rest, field))
  {
    var r := RenderItem(first);
    ScanHead(r + rest, |r|, rest, field);
  }

  lemma HeadRendered(s: string, field: string -> Field)
    requires s != "" && Head(s, field).Items?
    ensures RenderItem(Head(s, field).items[0]) == s[..Width(s, field)]
  {
    if s[0] == '{' && s[1] != '{' && s[1] != '}' {
      var end := field(s[1..]).end;
      assert s[1..][end] == '}' && s[..end + 2] == "{" + s[1..][..end] + "}";
    }
  }

  /** A rendered template scans back to itself. */
  lemma {:induction false} ScanRender(items: seq<Item>, field: string -> Field)
    requires forall i :: i in items ==> !i.Custom?
    ensures Scan(Render(items), field) == Items(items)
  {
    if items != [] {
      ScanRender(items[1..], field);
      RenderedHead(items[0], Render(items[1..]), field);
    }
  }

  /** Only the rendering of a template scans to it: what is accepted is exactly what is rendered. */
  lemma {:induction false} RenderScan(s: string, field: string -> Field)
    requires Scan(s, field).Items?
    ensures Render(Scan(s, field).items) == s
    decreases |s|
  {
    if s != "" {
      var n, first := Width(s, field), Head(s, field).items[0];
      HeadRendered(s, field);
      RenderScan(s[n..], field);
      RenderNext(s, n, first, Scan(s[n..], field).items);
    }
  }

  lemma RenderNext(s: string, n: nat, first: Item, rest: seq<Item>)
    requires n <= |s| && RenderItem(first) == s[..n]
    ensures Render([first] + rest) == s[..n] + Render(rest)
    ensures s == s[..n] + s[n..]
  {
    assert ([first] + rest)[1..] == rest;
  }

  // Every brace of s twice.
  function Doubled(s: string): string {
    if s == "" then "" else (if s[0] == '{' || s[0] == '}' then [s[0], s[0]] else [s[0]]) + Doubled(s[1..])
  }

  function Texts(events: seq<Event>): string
    requires forall e :: e in events ==> e.OnText?
  {
    if events == [] then "" else events[0].text + Texts(events[1..])
  }

  lemma {:induction false} RenderChars(s: string)
    ensures Render(Chars(s)) == Doubled(s)
    ensures forall i :: i in Chars(s) ==> i.Char?
  {
    if s != "" {
      RenderChars(s[1..]);
      assert Chars(s)[1..] == Chars(s[1..]);
    }
  }

  lemma {:induction false} CharsInjective(a: string, b: string)
    requires Chars(a) == Chars(b)
    ensures a == b
  {
    if a != "" && b != "" {
      assert Chars(a)[0] == Char(a[0]) && Chars(b)[0] == Char(b[0]);
      assert Chars(a)[1..] == Chars(a[1..]) && Chars(b)[1..] == Chars(b[1..]);
      CharsInjective(a[1..], b[1..]);
    }
  }

  lemma FirstEvent(events: seq<Event>)
    requires events != [] && Told(events).Items?
    ensures events[0].OnText? || exists i :: i in Told(events).items && !i.Char?
  {
    if events[0].OnArgument? || events[0].OnField? {
      var items := Told(events).items;
      assert items[0] in items && !items[0].Char?;
    }
  }

  // A handler told only of characters was given only text.
  lemma {:induction false} OnlyText(events: seq<Event>)
    requires Told(events).Items? && forall i :: i in Told(events).items ==> i.Char?
    ensures forall e :: e in events ==> e.OnText?
    ensures Told(events).items == Chars(Texts(events))
  {
    if events != [] {
      var rest := Told(events[1..]);
      FirstEvent(events);
      assert forall i :: i in rest.items ==> i in Told(events).items;
      OnlyText(events[1..]);
      CharsBoth(events[0].text, Texts(events[1..]));
    }
  }

  /** Doubling the braces of any text escapes it: no error, no argument, and the pieces add up to the text. */
  lemma Escaping(s: string, field: string -> Field)
    ensures forall e :: e in Parse(Doubled(s), field) ==> e.OnText?
    ensures Texts(Parse(Doubled(s), field)) == s
  {
    RenderChars(s);
    ScanRender(Chars(s), field);
    ParseScans(Doubled(s), field);
    OnlyText(Parse(Doubled(s), field));
    CharsInjective(s, Texts(Parse(Doubled(s), field)));
  }
}
