/**
 JSON text: a parser for the grammar of sections 2 to 5 and 7 of RFC 8259 (objects, arrays, strings and
 literal names), and the layouts in which the provisioner prints its patches.
 */
module JsonText {
  import opened Wrappers
  import opened Json

  // ------------------------------------------------------------------ parsing

  predicate IsSpace(c: char) {
    c == ' ' || c == '\t' || c == '\n' || c == '\r'
  }

  function SkipSpace(s: string): (r: string)
    ensures |r| <= |s|
    ensures r != [] ==> !IsSpace(r[0])
  {
    if s != [] && IsSpace(s[0]) then SkipSpace(s[1..]) else s
  }

  function Unescaped(c: char): Option<char> {
    if c == '"' || c == '\\' || c == '/' then Some(c)
    else if c == 'b' then Some(8 as char)
    else if c == 'f' then Some(12 as char)
    else if c == 'n' then Some('\n')
    else if c == 'r' then Some('\r')
    else if c == 't' then Some('\t')
    else None
  }

  /** The characters up to the closing quotation mark, and what follows it. */
  function ParseString(s: string): (r: Option<(string, string)>)
    ensures r.Some? ==> |r.value.1| < |s|
  {
    if s == [] || s[0] < ' ' then None
    else if s[0] == '"' then Some(("", s[1..]))
    else if s[0] == '\\' then
      if |s| == 1 || Unescaped(s[1]).None? then None
      else match ParseString(s[2..])
        case None => None
        case Some((x, rest)) => Some(([Unescaped(s[1]).value] + x, rest))
    else match ParseString(s[1..])
      case None => None
      case Some((x, rest)) => Some(([s[0]] + x, rest))
  }

  function ParseValue(s: string): (r: Option<(Json, string)>)
    ensures r.Some? ==> |r.value.1| < |s|
    decreases |s|, 1
  {
    var t := SkipSpace(s);
    if t == [] then None
    else if t[0] == '"' then
      match ParseString(t[1..])
      case None => None
      case Some((x, rest)) => Some((Str(x), rest))
    else if t[0] == '{' then
      var u := SkipSpace(t[1..]);
      if u != [] && u[0] == '}' then Some((Obj(map[]), u[1..])) else ParseMembers(u, map[])
    else if t[0] == '[' then
      var u := SkipSpace(t[1..]);
      if u != [] && u[0] == ']' then Some((Arr([]), u[1..])) else ParseItems(u, [])
    else if |t| >= 4 && t[..4] == "null" then Some((Null, t[4..]))
    else if |t| >= 4 && t[..4] == "true" then Some((Bool(true), t[4..]))
    else if |t| >= 5 && t[..5] == "false" then Some((Bool(false), t[5..]))
    else None
  }

  /** Members from the first quotation mark on; the last of several members of one name wins. */
  function ParseMembers(s: string, fields: map<string, Json>): (r: Option<(Json, string)>)
    ensures r.Some? ==> |r.value.1| < |s|
    decreases |s|, 1
  {
    if s == [] || s[0] != '"' then None
    else match ParseString(s[1..])
      case None => None
      case Some((k, t)) => AfterKey(t, k, fields)
  }

  function AfterKey(s: string, k: string, fields: map<string, Json>): (r: Option<(Json, string)>)
    ensures r.Some? ==> |r.value.1| < |s|
    decreases |s|, 0
  {
    var u := SkipSpace(s);
    if u == [] || u[0] != ':' then None
    else match ParseValue(u[1..])
      case None => None
      case Some((v, w)) => AfterMember(w, fields[k := v])
  }

  function AfterMember(s: string, fields: map<string, Json>): (r: Option<(Json, string)>)
    ensures r.Some? ==> |r.value.1| < |s|
    decreases |s|, 0
  {
    var x := SkipSpace(s);
    if x == [] then None
    else if x[0] == '}' then Some((Obj(fields), x[1..]))
    else if x[0] == ',' then ParseMembers(SkipSpace(x[1..]), fields)
    else None
  }

  function ParseItems(s: string, items: seq<Json>): (r: Option<(Json, string)>)
    ensures r.Some? ==> |r.value.1| < |s|
    decreases |s|, 2
  {
    match ParseValue(s)
    case None => None
    case Some((v, w)) => AfterItem(w, items + [v])
  }

  function AfterItem(s: string, items: seq<Json>): (r: Option<(Json, string)>)
    ensures r.Some? ==> |r.value.1| < |s|
    decreases |s|, 0
  {
    var x := SkipSpace(s);
    if x == [] then None
    else if x[0] == ']' then Some((Arr(items), x[1..]))
    else if x[0] == ',' then ParseItems(x[1..], items)
    else None
  }

  /** A JSON text: one value, with white space around it. */
  function Parse(s: string): Option<Json> {
    match ParseValue(s)
    case None => None
    case Some((v, rest)) => if SkipSpace(rest) == [] then Some(v) else None
  }

  // ----------------------------------------------------------------- printing

  /** How a patch is laid out, white space included. */
  datatype Layout =
    | NullText
    | BoolText(b: bool)
    | StringText(s: string)
    | ListText(names: seq<string>)
    | ObjectText(members: seq<Member>, tail: string)

  datatype Member = Member(lead: string, key: string, gap: string, value: Layout)

  /** Free of quotation marks, backslashes and control characters: printed as it is. */
  predicate Plain(s: string) {
    forall i :: 0 <= i < |s| ==> s[i] >= ' ' && s[i] != '"' && s[i] != '\\'
  }

  predicate Space(s: string) {
    forall i :: 0 <= i < |s| ==> IsSpace(s[i])
  }

  predicate Clean(l: Layout)
    decreases l, 1
  {
    match l
    case NullText => true
    case BoolText(_) => true
    case StringText(s) => Plain(s)
    case ListText(names) => names != [] && forall i :: 0 <= i < |names| ==> Plain(names[i])
    case ObjectText(members, tail) => members != [] && Space(tail) && CleanMembers(members)
  }

  predicate CleanMembers(ms: seq<Member>)
    decreases ms, 0
  {
    ms == [] ||
    (Space(ms[0].lead) && Plain(ms[0].key) && Space(ms[0].gap) && Clean(ms[0].value) && CleanMembers(ms[1..]))
  }

  function Quoted(s: string, rest: string): string {
    "\"" + s + "\"" + rest
  }

  /** The text of a layout, followed by rest. */
  function Print(l: Layout, rest: string): string
    decreases l, 1
  {
    match l
    case NullText => "null" + rest
    case BoolText(b) => (if b then "true" else "false") + rest
    case StringText(s) => Quoted(s, rest)
    case ListText(names) => "[" + PrintNames(names, "]" + rest)
    case ObjectText(members, tail) => "{" + PrintMembers(members, tail + "}" + rest)
  }

  function PrintNames(names: seq<string>, rest: string): string {
    if names == [] then rest
    else if |names| == 1 then Quoted(names[0], rest)
    else Quoted(names[0], ", " + PrintNames(names[1..], rest))
  }

  function PrintMembers(ms: seq<Member>, rest: string): string
    decreases ms, 0
  {
    if ms == [] then rest
    else
      ms[0].lead + Quoted(ms[0].key, ":" + ms[0].gap + Print(ms[0].value,
        if |ms| == 1 then rest else "," + PrintMembers(ms[1..], rest)))
  }

  function Strings(names: seq<string>): (r: seq<Json>)
    ensures |r| == |names|
  {
    seq(|names|, i requires 0 <= i < |names| => Str(names[i]))
  }

  /** The document a layout stands for. */
  function Meaning(l: Layout): Json
    decreases l, 1
  {
    match l
    case NullText => Null
    case BoolText(b) => Bool(b)
    case StringText(s) => Str(s)
    case ListText(names) => Arr(Strings(names))
    case ObjectText(members, _) => Obj(MeaningOfMembers(members, map[]))
  }

  function MeaningOfMembers(ms: seq<Member>, fields: map<string, Json>): map<string, Json>
    decreases ms, 0
  {
    if ms == [] then fields else MeaningOfMembers(ms[1..], fields[ms[0].key := Meaning(ms[0].value)])
  }

  // --------------------------------------------------------------- round trip

  lemma {:induction false} SpaceSkipped(s: string, rest: string)
    requires Space(s) && rest != [] && !IsSpace(rest[0])
    ensures SkipSpace(s + rest) == rest
  {
    if s == [] {
      assert s + rest == rest;
    } else {
      SpaceSkipped(s[1..], rest);
      assert (s + rest)[0] == s[0] && (s + rest)[1..] == s[1..] + rest;
    }
  }

  lemma {:induction false} StringRoundTrip(s: string, rest: string)
    requires Plain(s)
    ensures ParseString(s + "\"" + rest) == Some((s, rest))
  {
    var text := s + "\"" + rest;
    if s == [] {
      assert text[0] == '"' && text[1..] == rest;
    } else {
      StringRoundTrip(s[1..], rest);
      assert text[0] == s[0] && text[1..] == s[1..] + "\"" + rest;
      assert s == [s[0]] + s[1..];
    }
  }

  lemma QuotedRoundTrip(s: string, rest: string)
    requires Plain(s)
    ensures var q := Quoted(s, rest); q[0] == '"' && ParseString(q[1..]) == Some((s, rest))
  {
    StringRoundTrip(s, rest);
    assert Quoted(s, rest)[1..] == s + "\"" + rest;
  }

  lemma SpaceThenValue(s: string, rest: string)
    requires Space(s) && rest != [] && !IsSpace(rest[0])
    ensures ParseValue(s + rest) == ParseValue(rest)
  {
    SpaceSkipped(s, rest);
    SpaceSkipped("", rest);
    assert "" + rest == rest;
  }

  lemma PrintStart(l: Layout, rest: string)
    ensures var t := Print(l, rest); t != [] && t[0] in "ntf\"[{"
  {}

  lemma BoolRoundTrip(b: bool, rest: string)
    ensures ParseValue((if b then "true" else "false") + rest) == Some((Bool(b), rest))
  {
    var t := (if b then "true" else "false") + rest;
    if b {
      assert t[..4] == "true" && t[4..] == rest;
    } else {
      assert t[..5] == "false" && t[5..] == rest;
    }
  }

  /** Reading back any clean layout gives the document it stands for and stops exactly at its end. */
  lemma {:induction false} PrintParse(l: Layout, rest: string)
    requires Clean(l)
    ensures ParseValue(Print(l, rest)) == Some((Meaning(l), rest))
    decreases l, 1
  {
    var t := Print(l, rest);
    SpaceSkipped("", t);
    assert "" + t == t;
    match l
    case NullText =>
      assert t[..4] == "null" && t[4..] == rest;
    case BoolText(b) =>
      BoolRoundTrip(b, rest);
    case StringText(s) =>
      QuotedRoundTrip(s, rest);
    case ListText(names) =>
      var u := PrintNames(names, "]" + rest);
      assert t[1..] == u && u[0] == '"';
      SpaceSkipped("", u);
      assert "" + u == u;
      NamesRoundTrip(names, [], rest);
      assert [] + Strings(names) == Strings(names);
    case ObjectText(members, tail) =>
      var u := PrintMembers(members, tail + "}" + rest);
      assert t[1..] == u;
      MembersRoundTrip(members, map[], tail, rest);
  }

  lemma ItemStep(name: string, after: string, items: seq<Json>)
    requires Plain(name)
    ensures ParseItems(Quoted(name, after), items) == AfterItem(after, items + [Str(name)])
  {
    var text := Quoted(name, after);
    QuotedRoundTrip(name, after);
    SpaceSkipped("", text);
    assert "" + text == text;
  }

  lemma SkipOneSpace(text: string)
    requires text != [] && text[0] == '"'
    ensures ParseValue(" " + text) == ParseValue(text)
  {
    SpaceThenValue(" ", text);
  }

  lemma {:induction false} NamesRoundTrip(names: seq<string>, items: seq<Json>, rest: string)
    requires names != [] && forall i :: 0 <= i < |names| ==> Plain(names[i])
    ensures ParseItems(PrintNames(names, "]" + rest), items) == Some((Arr(items + Strings(names)), rest))
    decreases |names|
  {
    var items' := items + [Str(names[0])];
    if |names| == 1 {
      ItemStep(names[0], "]" + rest, items);
      assert ("]" + rest)[1..] == rest;
      assert items' == items + Strings(names);
    } else {
      var next := PrintNames(names[1..], "]" + rest);
      ItemStep(names[0], ", " + next, items);
      assert (", " + next)[1..] == " " + next;
      SkipOneSpace(next);
      NamesRoundTrip(names[1..], items', rest);
      assert items' + Strings(names[1..]) == items + Strings(names);
    }
  }

  lemma ValueAfterColon(key: string, gap: string, value: string, v: Json, after: string, fields: map<string, Json>)
    requires Space(gap) && value != [] && !IsSpace(value[0])
    requires ParseValue(value) == Some((v, after))
    ensures AfterKey(":" + gap + value, key, fields) == AfterMember(after, fields[key := v])
  {
    var colon := ":" + gap + value;
    SpaceSkipped("", colon);
    assert "" + colon == colon && colon[1..] == gap + value;
    SpaceThenValue(gap, value);
  }

  lemma KeyRead(key: string, rest: string, fields: map<string, Json>)
    requires Plain(key)
    ensures ParseMembers(Quoted(key, rest), fields) == AfterKey(rest, key, fields)
  {
    QuotedRoundTrip(key, rest);
  }

  lemma MemberStep(m: Member, after: string, fields: map<string, Json>)
    requires Space(m.lead) && Plain(m.key) && Space(m.gap)
    requires ParseValue(Print(m.value, after)) == Some((Meaning(m.value), after))
    ensures var text := SkipSpace(m.lead + Quoted(m.key, ":" + m.gap + Print(m.value, after)));
      && text != [] && text[0] == '"'
      && ParseMembers(text, fields) == AfterMember(after, fields[m.key := Meaning(m.value)])
  {
    var value := Print(m.value, after);
    PrintStart(m.value, after);
    assert value != [] && !IsSpace(value[0]);
    ValueAfterColon(m.key, m.gap, value, Meaning(m.value), after, fields);
    KeyRead(m.key, ":" + m.gap + value, fields);
    SpaceSkipped(m.lead, Quoted(m.key, ":" + m.gap + value));
  }

  /** Members read from the first on, ending in the object with all of them. */
  ghost predicate MembersRead(ms: seq<Member>, fields: map<string, Json>, end: string, rest: string) {
    var text := SkipSpace(PrintMembers(ms, end));
    && text != [] && text[0] == '"'
    && ParseMembers(text, fields) == Some((Obj(MeaningOfMembers(ms, fields)), rest))
  }

  lemma LastMember(m: Member, fields: map<string, Json>, tail: string, rest: string)
    requires Space(m.lead) && Plain(m.key) && Space(m.gap) && Space(tail)
    requires var end := tail + "}" + rest; ParseValue(Print(m.value, end)) == Some((Meaning(m.value), end))
    ensures MembersRead([m], fields, tail + "}" + rest, rest)
  {
    var end := tail + "}" + rest;
    MemberStep(m, end, fields);
    SpaceSkipped(tail, "}" + rest);
    assert tail + ("}" + rest) == end && ("}" + rest)[1..] == rest;
    assert [m][1..] == [];
  }

  lemma OneMoreMember(ms: seq<Member>, fields: map<string, Json>, end: string, rest: string)
    requires |ms| > 1 && Space(ms[0].lead) && Plain(ms[0].key) && Space(ms[0].gap)
    requires var after := "," + PrintMembers(ms[1..], end);
      ParseValue(Print(ms[0].value, after)) == Some((Meaning(ms[0].value), after))
    requires MembersRead(ms[1..], fields[ms[0].key := Meaning(ms[0].value)], end, rest)
    ensures MembersRead(ms, fields, end, rest)
  {
    var after := "," + PrintMembers(ms[1..], end);
    MemberStep(ms[0], after, fields);
    assert after[1..] == PrintMembers(ms[1..], end);
    assert SkipSpace(after) == after;
  }

  lemma {:induction false} MembersRoundTrip(ms: seq<Member>, fields: map<string, Json>, tail: string, rest: string)
    requires ms != [] && CleanMembers(ms) && Space(tail)
    ensures MembersRead(ms, fields, tail + "}" + rest, rest)
    decreases ms, 0
  {
    var m, end := ms[0], tail + "}" + rest;
    if |ms| == 1 {
      PrintParse(m.value, end);
      LastMember(m, fields, tail, rest);
      assert ms == [m];
    } else {
      PrintParse(m.value, "," + PrintMembers(ms[1..], end));
      MembersRoundTrip(ms[1..], fields[m.key := Meaning(m.value)], tail, rest);
      OneMoreMember(ms, fields, end, rest);
    }
  }

  /** A printed patch, as the API server reads it. */
  lemma LayoutRoundTrip(l: Layout)
    requires Clean(l)
    ensures Parse(Print(l, "")) == Some(Meaning(l))
  {
    PrintParse(l, "");
  }
}
