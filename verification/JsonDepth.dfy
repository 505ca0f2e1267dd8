/** The nesting guard in front of the JSON parser: `_validate_json_depth` of collab_runtime/models.py. */
module JsonDepth {
  import opened Common

  const MAX_JSON_DEPTH: nat := 64

  // ---- values and their canonical text --------------------------------------------------------------------------

  /** An atom is a number, true, false or null. */
  datatype Json = Atom(text: string) | Str(value: string) | Arr(items: Items) | Obj(members: Members)

  datatype Items = NoElement | Element(head: Json, tail: Items)

  datatype Members = NoMember | Member(key: string, value: Json, rest: Members)

  predicate Structural(c: char) {
    c in {'"', '[', ']', '{', '}'}
  }

  /** Atoms are printed without structural characters. */
  ghost predicate Printable(v: Json) {
    match v
    case Atom(text) => forall i :: 0 <= i < |text| ==> !Structural(text[i])
    case Str(_) => true
    case Arr(items) => PrintableItems(items)
    case Obj(members) => PrintableMembers(members)
  }

  ghost predicate PrintableItems(l: Items) {
    l.Element? ==> Printable(l.head) && PrintableItems(l.tail)
  }

  ghost predicate PrintableMembers(m: Members) {
    m.Member? ==> Printable(m.value) && PrintableMembers(m.rest)
  }

  function Depth(v: Json): nat {
    match v
    case Arr(items) => 1 + DepthItems(items)
    case Obj(members) => 1 + DepthMembers(members)
    case _ => 0
  }

  function DepthItems(l: Items): nat {
    match l
    case NoElement => 0
    case Element(head, tail) => if Depth(head) > DepthItems(tail) then Depth(head) else DepthItems(tail)
  }

  function DepthMembers(m: Members): nat {
    match m
    case NoMember => 0
    case Member(_, value, rest) => if Depth(value) > DepthMembers(rest) then Depth(value) else DepthMembers(rest)
  }

  function HexDigit(n: nat): char
    requires n < 16
  {
    if n < 10 then ('0' as int + n) as char else ('a' as int + n - 10) as char
  }

  /** String escapes, as in section 7 of RFC 8259 and as the printer chooses them. */
  function Escape(c: char): string {
    if c == '"' then "\\\""
    else if c == '\\' then "\\\\"
    else if c == '\n' then "\\n"
    else if c == '\r' then "\\r"
    else if c == '\t' then "\\t"
    else if c == 8 as char then "\\b"
    else if c == 12 as char then "\\f"
    else if c < ' ' then "\\u00" + [HexDigit(c as int / 16 % 16), HexDigit(c as int % 16)]
    else [c]
  }

  function EscapeAll(s: string): string {
    if s == "" then "" else Escape(s[0]) + EscapeAll(s[1..])
  }

  function Quote(s: string): string {
    "\"" + (EscapeAll(s) + "\"")
  }

  function Print(v: Json): string {
    match v
    case Atom(text) => text
    case Str(s) => Quote(s)
    case Arr(items) => "[" + (PrintItems(items) + "]")
    case Obj(members) => "{" + (PrintMembers(members) + "}")
  }

  function PrintItems(l: Items): string {
    match l
    case NoElement => ""
    case Element(head, tail) => Print(head) + (if tail.NoElement? then "" else "," + PrintItems(tail))
  }

  function PrintMembers(m: Members): string {
    match m
    case NoMember => ""
    case Member(key, value, rest) =>
      Quote(key) + (":" + (Print(value) + (if rest.NoMember? then "" else "," + PrintMembers(rest))))
  }

  // ---- the scanner ----------------------------------------------------------------------------------------------

  datatype State = Scanning(depth: nat, inString: bool, escaped: bool) | Rejected

  function ScanStep(s: State, c: char): State {
    if s.Rejected? then s
    else if s.inString then
      if s.escaped then s.(escaped := false)
      else if c == '\\' then s.(escaped := true)
      else if c == '"' then s.(inString := false)
      else s
    else if c == '"' then s.(inString := true)
    else if c == '[' || c == '{' then (if s.depth + 1 > MAX_JSON_DEPTH then Rejected else s.(depth := s.depth + 1))
    else if (c == ']' || c == '}') && s.depth > 0 then s.(depth := s.depth - 1)
    else s
  }

  function Scan(s: State, text: string): State
    decreases |text|
  {
    if text == "" then s else Scan(ScanStep(s, text[0]), text[1..])
  }

  function Outside(depth: nat): State {
    Scanning(depth, false, false)
  }

  /** The loop over `depth`, `in_string` and `escaped`. */
  method ValidateJsonDepth(text: string) returns (ok: bool)
    ensures ok <==> Scan(Outside(0), text) != Rejected
  {
    var depth, inString, escaped := 0, false, false;
    for i := 0 to |text|
      invariant Scan(Scanning(depth, inString, escaped), text[i..]) == Scan(Outside(0), text)
    {
      var c := text[i];
      assert text[i..][0] == c && text[i..][1..] == text[i + 1..];
      if inString {
        if escaped {
          escaped := false;
        } else if c == '\\' {
          escaped := true;
        } else if c == '"' {
          inString := false;
        }
      } else if c == '"' {
        inString := true;
      } else if c == '[' || c == '{' {
        depth := depth + 1;
        if depth > MAX_JSON_DEPTH {
          RejectedStays(text[i + 1..]);
          return false;
        }
      } else if (c == ']' || c == '}') && depth > 0 {
        depth := depth - 1;
      }
    }
    return true;
  }

  lemma {:induction false} RejectedStays(text: string)
    ensures Scan(Rejected, text) == Rejected
  {
    if text != "" {
      RejectedStays(text[1..]);
    }
  }

  lemma {:induction false} ScanConcat(s: State, a: string, b: string)
    ensures Scan(s, a + b) == Scan(Scan(s, a), b)
    decreases |a|
  {
    if a == "" {
      assert a + b == b;
    } else {
      assert (a + b)[0] == a[0] && (a + b)[1..] == a[1..] + b;
      ScanConcat(ScanStep(s, a[0]), a[1..], b);
    }
  }

  lemma ScanChar(s: State, c: char)
    ensures Scan(s, [c]) == ScanStep(s, c)
  {
    assert [c][1..] == "";
  }

  // ---- scanning canonical text ----------------------------------------------------------------------------------

  lemma {:induction false} ScanInert(s: State, text: string)
    requires s.Scanning? && s.inString && !s.escaped
    requires forall i :: 0 <= i < |text| ==> text[i] != '"' && text[i] != '\\'
    ensures Scan(s, text) == s
  {
    if text != "" {
      ScanInert(s, text[1..]);
    }
  }

  lemma ScanEscape(d: nat, c: char)
    ensures Scan(Scanning(d, true, false), Escape(c)) == Scanning(d, true, false)
  {
    var s := Scanning(d, true, false);
    var e := Escape(c);
    if e[0] == '\\' {
      var rest := e[1..];
      assert ScanStep(s, e[0]) == s.(escaped := true);
      assert Scan(s, e) == Scan(s.(escaped := true), rest);
      assert Scan(s.(escaped := true), rest) == Scan(s, rest[1..]);
      ScanInert(s, rest[1..]);
    } else {
      ScanInert(s, e);
    }
  }

  lemma {:induction false} ScanEscapes(d: nat, text: string)
    ensures Scan(Scanning(d, true, false), EscapeAll(text)) == Scanning(d, true, false)
  {
    if text != "" {
      ScanEscape(d, text[0]);
      ScanEscapes(d, text[1..]);
      ScanConcat(Scanning(d, true, false), Escape(text[0]), EscapeAll(text[1..]));
    }
  }

  /** Whatever a string holds, the scanner leaves it at the depth at which it entered. */
  lemma ScanQuote(d: nat, text: string)
    ensures Scan(Outside(d), Quote(text)) == Outside(d)
  {
    hide EscapeAll, Scan;
    var inside := Scanning(d, true, false);
    ScanConcat(Outside(d), "\"", EscapeAll(text) + "\"");
    ScanChar(Outside(d), '"');
    ScanConcat(inside, EscapeAll(text), "\"");
    ScanEscapes(d, text);
    ScanChar(inside, '"');
  }

  function StateAfter(d: nat, depth: nat): State {
    if d + depth > MAX_JSON_DEPTH then Rejected else Outside(d)
  }

  lemma {:induction false} ScanAtom(d: nat, text: string)
    requires forall i :: 0 <= i < |text| ==> !Structural(text[i])
    ensures Scan(Outside(d), text) == Outside(d)
  {
    if text != "" {
      ScanAtom(d, text[1..]);
    }
  }

  /** A bracketed text at depth d. */
  lemma ScanBrackets(d: nat, l: char, body: string, r: char, inner: nat)
    requires d <= MAX_JSON_DEPTH && ((l == '[' && r == ']') || (l == '{' && r == '}'))
    requires d < MAX_JSON_DEPTH ==> Scan(Outside(d + 1), body) == StateAfter(d + 1, inner)
    ensures Scan(Outside(d), [l] + (body + [r])) == StateAfter(d, 1 + inner)
  {
    hide Scan;
    ScanConcat(Outside(d), [l], body + [r]);
    ScanChar(Outside(d), l);
    if d == MAX_JSON_DEPTH {
      RejectedStays(body + [r]);
    } else {
      ScanConcat(Outside(d + 1), body, [r]);
      if d + 1 + inner > MAX_JSON_DEPTH {
        RejectedStays([r]);
      } else {
        ScanChar(Outside(d + 1), r);
      }
    }
  }

  /** Two texts one after the other. */
  lemma ScanBoth(d: nat, a: string, da: nat, b: string, db: nat)
    requires Scan(Outside(d), a) == StateAfter(d, da) && Scan(Outside(d), b) == StateAfter(d, db)
    ensures Scan(Outside(d), a + b) == StateAfter(d, Max(da, db))
  {
    hide Scan;
    ScanConcat(Outside(d), a, b);
    if d + da > MAX_JSON_DEPTH {
      RejectedStays(b);
    }
  }

  lemma ScanSeparator(d: nat, c: char, b: string, db: nat)
    requires d <= MAX_JSON_DEPTH && (c == ',' || c == ':') && Scan(Outside(d), b) == StateAfter(d, db)
    ensures Scan(Outside(d), [c] + b) == StateAfter(d, db)
  {
    hide Scan;
    ScanConcat(Outside(d), [c], b);
    ScanChar(Outside(d), c);
  }

  /**
   From depth d the scanner rejects exactly if the value reaches deeper than the limit, else it is back at depth
   d.
   */
  lemma {:induction false} ScanValue(d: nat, v: Json)
    requires Printable(v) && d <= MAX_JSON_DEPTH
    ensures Scan(Outside(d), Print(v)) == StateAfter(d, Depth(v))
    decreases v
  {
    match v
    case Atom(text) => ScanAtom(d, text);
    case Str(s) => ScanQuote(d, s);
    case Arr(items) =>
      if d < MAX_JSON_DEPTH {
        ScanItems(d + 1, items);
      }
      ScanBrackets(d, '[', PrintItems(items), ']', DepthItems(items));
    case Obj(members) =>
      if d < MAX_JSON_DEPTH {
        ScanMembers(d + 1, members);
      }
      ScanBrackets(d, '{', PrintMembers(members), '}', DepthMembers(members));
  }

  lemma {:induction false} ScanItems(d: nat, l: Items)
    requires PrintableItems(l) && d <= MAX_JSON_DEPTH
    ensures Scan(Outside(d), PrintItems(l)) == StateAfter(d, DepthItems(l))
    decreases l
  {
    if l.Element? {
      ScanValue(d, l.head);
      if l.tail.NoElement? {
        assert Print(l.head) + "" == Print(l.head);
      } else {
        ScanItems(d, l.tail);
        ScanSeparator(d, ',', PrintItems(l.tail), DepthItems(l.tail));
        ScanBoth(d, Print(l.head), Depth(l.head), "," + PrintItems(l.tail), DepthItems(l.tail));
      }
    }
  }

  lemma {:induction false} ScanMembers(d: nat, m: Members)
    requires PrintableMembers(m) && d <= MAX_JSON_DEPTH
    ensures Scan(Outside(d), PrintMembers(m)) == StateAfter(d, DepthMembers(m))
    decreases m
  {
    if m.Member? {
      ScanValue(d, m.value);
      ScanQuote(d, m.key);
      var tail := if m.rest.NoMember? then "" else "," + PrintMembers(m.rest);
      if m.rest.Member? {
        ScanMembers(d, m.rest);
        ScanSeparator(d, ',', PrintMembers(m.rest), DepthMembers(m.rest));
      }
      var pair := Print(m.value) + tail;
      ScanBoth(d, Print(m.value), Depth(m.value), tail, DepthMembers(m.rest));
      ScanSeparator(d, ':', pair, DepthMembers(m));
      ScanBoth(d, Quote(m.key), 0, ":" + pair, DepthMembers(m));
    }
  }

  /** For every value, whatever brackets and quotes its strings hold: rejected if and only if nested deeper than 64. */
  lemma ScannerAgreesWithTree(v: Json)
    requires Printable(v)
    ensures Scan(Outside(0), Print(v)) == if Depth(v) > MAX_JSON_DEPTH then Rejected else Outside(0)
  {
    ScanValue(0, v);
  }
}
