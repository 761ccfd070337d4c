/**
 Which finalizer names survive being printed without escaping: the plain ones and no others. Every
 quotation mark of a text is accounted for by the strings read from it, so a name cannot smuggle in a
 second list of finalizers that comes out right.
 */
module FinalizerNames {
  import opened Wrappers
  import opened Json
  import opened JsonText
  import opened Patches

  // ---------------------------------------------------- counting quotation marks

  function Quotes(s: string): nat {
    if s == [] then 0 else (if s[0] == '"' then 1 else 0) + Quotes(s[1..])
  }

  lemma {:induction false} QuotesConcat(a: string, b: string)
    ensures Quotes(a + b) == Quotes(a) + Quotes(b)
  {
    if a == [] {
      assert a + b == b;
    } else {
      QuotesConcat(a[1..], b);
      assert (a + b)[1..] == a[1..] + b;
    }
  }

  lemma QuotesFrom(s: string, i: nat)
    requires i <= |s|
    ensures Quotes(s[i..]) <= Quotes(s)
  {
    QuotesConcat(s[..i], s[i..]);
    assert s[..i] + s[i..] == s;
  }

  lemma {:induction false} SpaceHoldsNoQuotes(s: string)
    ensures Quotes(SkipSpace(s)) == Quotes(s)
  {
    if s != [] && IsSpace(s[0]) { SpaceHoldsNoQuotes(s[1..]); }
  }

  /** What must be written to be read as this value: a string takes two quotation marks and its own. */
  function Need(j: Json): nat
    decreases j, 1
  {
    match j
    case Str(s) => 2 + Quotes(s)
    case Arr(items) => NeedAll(items)
    case Obj(fields) => if "finalizers" in fields then Need(fields["finalizers"]) else 0
    case _ => 0
  }

  function NeedAll(items: seq<Json>): nat
    decreases items, 0
  {
    if items == [] then 0 else Need(items[0]) + NeedAll(items[1..])
  }

  lemma {:induction false} NeedPushed(items: seq<Json>, j: Json)
    ensures NeedAll(items + [j]) == NeedAll(items) + Need(j)
  {
    if items != [] {
      NeedPushed(items[1..], j);
      assert (items + [j])[1..] == items[1..] + [j];
    }
  }

  // --------------------------------------------- reading never gains quotation marks

  lemma {:induction false} StringTakes(s: string)
    requires ParseString(s).Some?
    ensures var r := ParseString(s).value; Quotes(s) >= Quotes(r.0) + 1 + Quotes(r.1)
    decreases |s|
  {
    if s[0] == '\\' {
      StringTakes(s[2..]);
      var x := ParseString(s[2..]).value.0;
      assert ([Unescaped(s[1]).value] + x)[1..] == x;
      assert s[1..][1..] == s[2..];
    } else if s[0] != '"' {
      StringTakes(s[1..]);
      var x := ParseString(s[1..]).value.0;
      assert ([s[0]] + x)[1..] == x;
    }
  }

  lemma {:induction false} ValueTakes(s: string)
    requires ParseValue(s).Some?
    ensures var r := ParseValue(s).value; Quotes(s) >= Need(r.0) + Quotes(r.1)
    decreases |s|, 1
  {
    SpaceHoldsNoQuotes(s);
    var t := SkipSpace(s);
    var u := SkipSpace(t[1..]);
    SpaceHoldsNoQuotes(t[1..]);
    if t[0] == '"' {
      StringTakes(t[1..]);
    } else if t[0] == '{' {
      if u != [] && u[0] == '}' { QuotesFrom(u, 1); } else { MembersTake(u, map[], "finalizers"); }
    } else if t[0] == '[' {
      if u != [] && u[0] == ']' { QuotesFrom(u, 1); } else { ItemsTake(u, []); }
    } else {
      QuotesFrom(t, |t| - |ParseValue(s).value.1|);
    }
  }

  /** The object read has this member from before, or it was paid for. */
  predicate Paid(fields: map<string, Json>, r: (Json, string), k: string, budget: int) {
    && r.0.Obj?
    && Quotes(r.1) <= budget
    && (k in r.0.fields ==>
          (k in fields && r.0.fields[k] == fields[k]) || Need(r.0.fields[k]) + Quotes(r.1) <= budget)
  }

  lemma {:induction false} MembersTake(s: string, fields: map<string, Json>, k: string)
    requires ParseMembers(s, fields).Some?
    ensures Paid(fields, ParseMembers(s, fields).value, k, Quotes(s) - 2)
    decreases |s|, 1
  {
    StringTakes(s[1..]);
    var r := ParseString(s[1..]).value;
    KeyTakes(r.1, r.0, fields, k);
  }

  lemma {:induction false} KeyTakes(s: string, name: string, fields: map<string, Json>, k: string)
    requires AfterKey(s, name, fields).Some?
    ensures Paid(fields, AfterKey(s, name, fields).value, k, Quotes(s))
    decreases |s|, 0
  {
    SpaceHoldsNoQuotes(s);
    var u := SkipSpace(s);
    ValueTakes(u[1..]);
    var r := ParseValue(u[1..]).value;
    MemberTakes(r.1, fields[name := r.0], k);
  }

  lemma {:induction false} MemberTakes(s: string, fields: map<string, Json>, k: string)
    requires AfterMember(s, fields).Some?
    ensures Paid(fields, AfterMember(s, fields).value, k, Quotes(s))
    ensures var r := AfterMember(s, fields).value;
      k in r.0.fields && !(k in fields && r.0.fields[k] == fields[k]) ==> Need(r.0.fields[k]) + 2 <= Quotes(s)
    decreases |s|, 0
  {
    SpaceHoldsNoQuotes(s);
    var x := SkipSpace(s);
    if x[0] == ',' {
      SpaceHoldsNoQuotes(x[1..]);
      MembersTake(SkipSpace(x[1..]), fields, k);
    }
  }

  /** The list read extends the items there were, and the new ones were paid for. */
  predicate Extended(items: seq<Json>, r: (Json, string), budget: nat) {
    && r.0.Arr? && |items| <= |r.0.items| && r.0.items[..|items|] == items
    && NeedAll(r.0.items) + Quotes(r.1) <= budget + NeedAll(items)
  }

  lemma {:induction false} ItemsTake(s: string, items: seq<Json>)
    requires ParseItems(s, items).Some?
    ensures Extended(items, ParseItems(s, items).value, Quotes(s))
    decreases |s|, 2
  {
    ValueTakes(s);
    var r := ParseValue(s).value;
    NeedPushed(items, r.0);
    ItemTakes(r.1, items + [r.0]);
    assert (items + [r.0])[..|items|] == items;
    var final := ParseItems(s, items).value.0.items;
    assert final[..|items|] == final[..|items + [r.0]|][..|items|];
  }

  lemma {:induction false} ItemTakes(s: string, items: seq<Json>)
    requires AfterItem(s, items).Some?
    ensures Extended(items, AfterItem(s, items).value, Quotes(s))
    decreases |s|, 0
  {
    SpaceHoldsNoQuotes(s);
    var x := SkipSpace(s);
    if x[0] == ',' { ItemsTake(x[1..], items); }
  }

  // --------------------------------------------------- a list that reads back is plain

  predicate Backslashes(s: string) {
    forall i :: 0 <= i < |s| ==> s[i] == '\\'
  }

  /** An escaped backslash, read as one: the rest then has to make up for it. */
  lemma EscapedBackslash(b: string, a: string, rest: string)
    requires Backslashes(b) && |a| > 1 && a[0] == a[1] == '\\'
    requires ParseString(a + "\"" + rest).Some? && ParseString(a + "\"" + rest).value.0 == b + a
    ensures ParseString(a[2..] + "\"" + rest).Some?
    ensures ParseString(a[2..] + "\"" + rest).value.0 == b + "\\" + a[2..]
  {
    var text, x := a + "\"" + rest, b + a;
    assert text[2..] == a[2..] + "\"" + rest && text[0] == text[1] == '\\';
    var y := ParseString(text[2..]).value.0;
    assert x == ['\\'] + y;
    assert y == x[1..];
    assert b + "\\" + a[2..] == x[1..];
  }

  /** A single backslash swallows the character after it. */
  lemma OtherEscape(b: string, a: string, rest: string)
    requires Backslashes(b) && a != [] && a[0] == '\\' && (|a| > 1 ==> a[1] != '\\')
    requires ParseString(a + "\"" + rest).Some?
    ensures ParseString(a + "\"" + rest).value.0 != b + a
  {
    var text := a + "\"" + rest;
    assert text[0] == '\\' && text[1] != '\\';
    assert (b + a)[0] == '\\';
    assert ParseString(text).value.0[0] != '\\';
  }

  lemma OrdinaryCharacter(a: string, rest: string)
    requires a != [] && a[0] != '\\' && a[0] != '"' && ParseString(a + "\"" + rest).Some?
    ensures ParseString(a[1..] + "\"" + rest).Some? && a[0] >= ' '
    ensures ParseString(a + "\"" + rest).value.0 == [a[0]] + ParseString(a[1..] + "\"" + rest).value.0
  {
    var text := a + "\"" + rest;
    assert text[0] == a[0] && text[1..] == a[1..] + "\"" + rest;
  }

  lemma ClosedAtOnce(a: string, rest: string)
    requires a == [] || a[0] == '"'
    ensures ParseString(a + "\"" + rest).Some? && ParseString(a + "\"" + rest).value.0 == ""
  {
    assert (a + "\"" + rest)[0] == '"';
  }

  /** Reading a name up to a closing quotation mark never yields more backslashes than it has. */
  lemma {:induction false} NoGain(b: string, a: string, rest: string)
    requires Backslashes(b) && (b != [] || !Plain(a))
    requires ParseString(a + "\"" + rest).Some?
    ensures ParseString(a + "\"" + rest).value.0 != b + a
    decreases |a|
  {
    if a == [] || a[0] == '"' {
      ClosedAtOnce(a, rest);
      assert |b + a| > 0;
    } else if a[0] != '\\' {
      OrdinaryCharacter(a, rest);
      if b != [] {
        assert (b + a)[0] == '\\';
      } else {
        if Plain(a[1..]) { PlainTail(a); }
        NoGain([], a[1..], rest);
        var y := ParseString(a[1..] + "\"" + rest).value.0;
        assert ([a[0]] + y)[1..] == y && (b + a)[1..] == [] + a[1..];
      }
    } else if |a| > 1 && a[1] == '\\' {
      if ParseString(a + "\"" + rest).value.0 == b + a {
        EscapedBackslash(b, a, rest);
        NoGain(b + "\\", a[2..], rest);
      }
    } else {
      OtherEscape(b, a, rest);
    }
  }

  lemma PlainTail(a: string)
    requires a != [] && Plain(a[1..]) && a[0] >= ' ' && a[0] != '"' && a[0] != '\\'
    ensures Plain(a)
  {
    forall i | 0 <= i < |a| ensures a[i] >= ' ' && a[i] != '"' && a[i] != '\\' {
      if i > 0 { assert a[i] == a[1..][i - 1]; }
    }
  }

  lemma AfterComma(next: string)
    ensures (", " + next)[1..] == " " + next && SkipSpace(", " + next) == ", " + next
  {
    assert (", " + next)[0] == ',' && (", " + next)[1] == ' ';
  }

  /** A string item that is read as the printed name. */
  lemma ItemIsPlain(name: string, after: string, items: seq<Json>)
    requires ParseItems(Quoted(name, after), items).Some?
    requires var r := ParseItems(Quoted(name, after), items).value.0;
      r.Arr? && |r.items| > |items| && r.items[|items|] == Str(name)
    ensures Plain(name)
  {
    var text := Quoted(name, after);
    assert text[1..] == name + "\"" + after && SkipSpace(text) == text;
    var r := ParseString(text[1..]).value;
    var read := items + [Str(r.0)];
    ItemTakes(r.1, read);
    var final := ParseItems(text, items).value.0.items;
    assert final[..|read|][|items|] == Str(r.0);
    if !Plain(name) {
      assert [] + name == name;
      NoGain([], name, after);
    }
  }

  lemma {:induction false} ListIsPlain(names: seq<string>, items: seq<Json>, rest: string)
    requires names != [] && ParseItems(PrintNames(names, rest), items).Some?
    requires ParseItems(PrintNames(names, rest), items).value.0 == Arr(items + Strings(names))
    ensures forall i :: 0 <= i < |names| ==> Plain(names[i])
    decreases |names|
  {
    assert (items + Strings(names))[|items|] == Str(names[0]);
    if |names| == 1 {
      ItemIsPlain(names[0], rest, items);
    } else {
      var next := PrintNames(names[1..], rest);
      ItemIsPlain(names[0], ", " + next, items);
      ItemStep(names[0], ", " + next, items);
      AfterComma(next);
      SkipOneSpace(next);
      assert items + Strings(names) == items + [Str(names[0])] + Strings(names[1..]);
      ListIsPlain(names[1..], items + [Str(names[0])], rest);
      assert names == [names[0]] + names[1..];
    }
  }

  // ------------------------------------------------------------------ the whole text

  /** An object whose text starts with this member, one space after the colon. */
  function Opened(key: string, value: string): string {
    "{" + Quoted(key, ": " + value)
  }

  lemma AfterColon(key: string, value: string)
    requires value != [] && !IsSpace(value[0])
    ensures AfterKey(": " + value, key, map[]) ==
      match ParseValue(value)
      case None => None
      case Some(r) => AfterMember(r.1, map[key := r.0])
  {
    var text := ": " + value;
    assert text[1..] == " " + value && SkipSpace(text) == text;
    SpaceThenValue(" ", value);
    assert map[][key := Null] == map[key := Null];
  }

  lemma OpenedRead(key: string, value: string)
    requires Plain(key)
    ensures ParseValue(Opened(key, value)) == AfterKey(": " + value, key, map[])
  {
    var text, member := Opened(key, value), Quoted(key, ": " + value);
    assert text[1..] == member && SkipSpace(text) == text && SkipSpace(member) == member;
    KeyRead(key, ": " + value, map[]);
  }

  function ItemsText(names: seq<string>): string {
    PrintNames(names, "]}}")
  }

  lemma QuotedTakes(name: string, after: string)
    ensures Quotes(Quoted(name, after)) == 2 + Quotes(name) + Quotes(after)
  {
    assert Quoted(name, after)[1..] == name + ("\"" + after);
    QuotesConcat(name, "\"" + after);
    assert ("\"" + after)[1..] == after;
  }

  lemma {:induction false} ListNeeds(names: seq<string>, rest: string)
    ensures Quotes(PrintNames(names, rest)) == NeedAll(Strings(names)) + Quotes(rest)
    decreases |names|
  {
    if names != [] {
      assert Strings(names)[1..] == Strings(names[1..]);
      ListNeeds(names[1..], rest);
      if |names| == 1 {
        QuotedTakes(names[0], rest);
        assert Strings(names[1..]) == [];
      } else {
        var next := PrintNames(names[1..], rest);
        QuotedTakes(names[0], ", " + next);
        AfterComma(next);
        assert (" " + next)[1..] == next;
      }
    }
  }

  /** How the inner object of the patch is read. */
  function InnerRead(names: seq<string>): Option<(Json, string)> {
    match ParseItems(ItemsText(names), [])
    case None => None
    case Some(list) => AfterMember(list.1, map["finalizers" := list.0])
  }

  lemma InnerIsRead(names: seq<string>)
    requires names != []
    ensures ParseValue(Opened("finalizers", "[" + ItemsText(names))) == InnerRead(names)
  {
    BracketRead(names);
    OpenedRead("finalizers", "[" + ItemsText(names));
    AfterColon("finalizers", "[" + ItemsText(names));
  }

  lemma TextRead(names: seq<string>)
    requires names != []
    ensures ParseValue(FinalizersText(names)) ==
      match InnerRead(names)
      case None => None
      case Some(inner) => AfterMember(inner.1, map["metadata" := inner.0])
  {
    var inner := Opened("finalizers", "[" + ItemsText(names));
    TextSplit(names);
    InnerIsRead(names);
    assert inner[0] == '{';
    OpenedRead("metadata", inner);
    AfterColon("metadata", inner);
  }

  lemma OpenedSplit(key: string, value: string, end: string)
    ensures "{\"" + key + "\":" + " " + value + end == Opened(key, value + end)
  {
    assert Quoted(key, ": " + (value + end)) == "\"" + key + "\":" + " " + value + end;
  }

  lemma TextSplit(names: seq<string>)
    requires names != []
    ensures FinalizersText(names) == Opened("metadata", Opened("finalizers", "[" + ItemsText(names)))
  {
    JoinIsPrinted(names, "]}}");
    var list := "[\"" + Join(names, "\", \"") + "\"]";
    assert "[" + ItemsText(names) == list + "}}";
    OpenedSplit("finalizers", list, "}}");
    OpenedSplit("metadata", Opened("finalizers", list + "}}"), "");
    var inner := "{\"" + "finalizers" + "\":" + " " + list + "}}";
    assert FinalizersText(names) == "{\"" + "metadata" + "\":" + " " + inner;
    assert inner + "" == inner;
  }

  lemma BracketRead(names: seq<string>)
    requires names != []
    ensures ParseValue("[" + ItemsText(names)) == ParseItems(ItemsText(names), [])
  {
    var list := "[" + ItemsText(names);
    assert list[1..] == ItemsText(names) && SkipSpace(list) == list && SkipSpace(ItemsText(names)) == ItemsText(names);
  }

  /** If the document comes out, it is the printed list that became it. */
  lemma ListIsRead(names: seq<string>)
    requires names != [] && Parse(FinalizersText(names)) == Some(FinalizersDoc(names))
    ensures ParseItems(ItemsText(names), []).Some?
    ensures ParseItems(ItemsText(names), []).value.0 == Arr(Strings(names))
  {
    TextRead(names);
    var list := ParseItems(ItemsText(names), []).value;
    var inner := AfterMember(list.1, map["finalizers" := list.0]).value;
    ItemsTake(ItemsText(names), []);
    ListNeeds(names, "]}}");
    MemberTakes(list.1, map["finalizers" := list.0], "finalizers");
    MemberTakes(inner.1, map["metadata" := inner.0], "metadata");
    var wanted := Single("finalizers", Arr(Strings(names)));
    assert FinalizersDoc(names).fields["metadata"] == wanted;
    assert Need(wanted) == NeedAll(Strings(names));
    assert inner.0 == wanted;
    assert wanted.fields["finalizers"] == Arr(Strings(names));
  }

  /**
   The finalizer patch reads back as the given names exactly when every name is plain: without quotation
   marks, backslashes or control characters.
   */
  lemma FinalizersRoundTripIff(names: seq<string>)
    ensures Parse(FinalizersText(names)) == Some(FinalizersDoc(names)) <==>
      forall i :: 0 <= i < |names| ==> Plain(names[i])
  {
    if forall i :: 0 <= i < |names| ==> Plain(names[i]) {
      FinalizersPatchRefines(Null, names);
    } else if Parse(FinalizersText(names)) == Some(FinalizersDoc(names)) {
      ListIsRead(names);
      assert [] + Strings(names) == Strings(names);
      ListIsPlain(names, [], "]}}");
    }
  }
}
