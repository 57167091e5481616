// A text form of every JSON value that determines the value. It shows that the laws asked of a JSON codec can be met
// together; it is not the text that a JavaScript runtime prints.

module JsonText {
  import opened Text
  import opened Json

  // Each function writes its value in front of a rest, so that the text can be read from the left.

  ghost function NatText(n: nat, rest: string): string {
    if n == 0 then ";" + rest else "1" + NatText(n - 1, rest)
  }

  ghost function IntText(i: int, rest: string): string {
    if i < 0 then "-" + NatText(-i, rest) else "+" + NatText(i, rest)
  }

  ghost function StringText(s: string, rest: string): string {
    if s == "" then "\"" + rest else "." + ([s[0]] + StringText(s[1..], rest))
  }

  ghost function NumberText(n: Number, rest: string): string {
    match n
    case Whole(i) => "#" + IntText(i, rest)
    case Double(d) => "%" + IntText(d.0, IntText(d.1, rest))
  }

  ghost function ValueText(j: Json, rest: string): string
    decreases j, 1, 0
  {
    match j
    case JNull => "n" + rest
    case JBool(b) => (if b then "t" else "f") + rest
    case JNum(n) => NumberText(n, rest)
    case JStr(s) => "\"" + StringText(s, rest)
    case JArr(items) => "[" + ItemsText(j, items, rest)
    case JObj(fields) => "{" + FieldsText(j, fields, rest)
  }

  ghost function ItemsText(bound: Json, items: seq<Json>, rest: string): string
    requires forall i :: 0 <= i < |items| ==> items[i] < bound
    decreases bound, 0, |items|
  {
    if items == [] then "]" + rest else "," + ValueText(items[0], ItemsText(bound, items[1..], rest))
  }

  ghost function FieldsText(bound: Json, fields: map<string, Json>, rest: string): string
    requires forall k :: k in fields ==> fields[k] < bound
    decreases bound, 0, |fields|
  {
    if fields == map[] then "}" + rest
    else
      var k :| k in fields;
      "," + StringText(k, ValueText(fields[k], FieldsText(bound, fields - {k}, rest)))
  }

  ghost function TextOf(j: Json): string { ValueText(j, "") }

  lemma Peel(c: char, s: string, c': char, s': string)
    requires [c] + s == [c'] + s'
    ensures c == c' && s == s'
  {
    assert c == ([c] + s)[0] && c' == ([c'] + s')[0];
    assert s == ([c] + s)[1..] && s' == ([c'] + s')[1..];
  }

  lemma {:induction false} NatTextReads(a: nat, b: nat, r: string, r': string)
    requires NatText(a, r) == NatText(b, r')
    ensures a == b && r == r'
  {
    Peel(if a == 0 then ';' else '1', if a == 0 then r else NatText(a - 1, r),
         if b == 0 then ';' else '1', if b == 0 then r' else NatText(b - 1, r'));
    if a > 0 { NatTextReads(a - 1, b - 1, r, r'); }
  }

  lemma IntTextReads(a: int, b: int, r: string, r': string)
    requires IntText(a, r) == IntText(b, r')
    ensures a == b && r == r'
  {
    var m, n := if a < 0 then -a else a, if b < 0 then -b else b;
    Peel(if a < 0 then '-' else '+', NatText(m, r), if b < 0 then '-' else '+', NatText(n, r'));
    NatTextReads(m, n, r, r');
  }

  lemma {:induction false} StringTextReads(a: string, b: string, r: string, r': string)
    requires StringText(a, r) == StringText(b, r')
    ensures a == b && r == r'
  {
    Peel(if a == "" then '"' else '.', if a == "" then r else [a[0]] + StringText(a[1..], r),
         if b == "" then '"' else '.', if b == "" then r' else [b[0]] + StringText(b[1..], r'));
    if a != "" {
      Peel(a[0], StringText(a[1..], r), b[0], StringText(b[1..], r'));
      StringTextReads(a[1..], b[1..], r, r');
      assert a == [a[0]] + a[1..] && b == [b[0]] + b[1..];
    }
  }

  lemma NumberTextReads(a: Number, b: Number, r: string, r': string)
    requires NumberText(a, r) == NumberText(b, r')
    ensures a == b && r == r'
  {
    Peel(if a.Whole? then '#' else '%', NumberText(a, r)[1..], if b.Whole? then '#' else '%', NumberText(b, r')[1..]);
    if a.Whole? {
      IntTextReads(a.n, b.n, r, r');
    } else {
      IntTextReads(a.d.0, b.d.0, IntText(a.d.1, r), IntText(b.d.1, r'));
      IntTextReads(a.d.1, b.d.1, r, r');
    }
  }

  // The first character of a value's text tells its kind.
  function Kind(j: Json): char {
    match j
    case JNull => 'n'
    case JBool(b) => if b then 't' else 'f'
    case JNum(n) => if n.Whole? then '#' else '%'
    case JStr(_) => '"'
    case JArr(_) => '['
    case JObj(_) => '{'
  }

  lemma StartsWithKind(j: Json, r: string)
    ensures ValueText(j, r) != "" && ValueText(j, r)[0] == Kind(j)
  {
  }

  lemma {:induction false} ValueTextReads(a: Json, b: Json, r: string, r': string)
    requires ValueText(a, r) == ValueText(b, r')
    ensures a == b && r == r'
    decreases a, 1, 0
  {
    StartsWithKind(a, r);
    StartsWithKind(b, r');
    var s, s' := ValueText(a, r), ValueText(b, r');
    match a
    case JNull => Peel('n', r, 'n', r');
    case JBool(x) => Peel(Kind(a), r, Kind(b), r');
    case JNum(x) => NumberTextReads(x, b.n, r, r');
    case JStr(x) =>
      Peel('"', StringText(x, r), '"', StringText(b.s, r'));
      StringTextReads(x, b.s, r, r');
    case JArr(x) =>
      Peel('[', ItemsText(a, x, r), '[', ItemsText(b, b.items, r'));
      ItemsTextReads(a, x, b, b.items, r, r');
    case JObj(x) =>
      Peel('{', FieldsText(a, x, r), '{', FieldsText(b, b.fields, r'));
      FieldsTextReads(a, x, b, b.fields, r, r');
  }

  lemma {:induction false} ItemsTextReads(a: Json, xs: seq<Json>, b: Json, ys: seq<Json>, r: string, r': string)
    requires forall i :: 0 <= i < |xs| ==> xs[i] < a
    requires forall i :: 0 <= i < |ys| ==> ys[i] < b
    requires ItemsText(a, xs, r) == ItemsText(b, ys, r')
    ensures xs == ys && r == r'
    decreases a, 0, |xs|
  {
    Peel(if xs == [] then ']' else ',', ItemsText(a, xs, r)[1..],
         if ys == [] then ']' else ',', ItemsText(b, ys, r')[1..]);
    if xs != [] {
      var restA, restB := ItemsText(a, xs[1..], r), ItemsText(b, ys[1..], r');
      Peel(',', ValueText(xs[0], restA), ',', ValueText(ys[0], restB));
      ValueTextReads(xs[0], ys[0], restA, restB);
      ItemsTextReads(a, xs[1..], b, ys[1..], r, r');
      assert xs == [xs[0]] + xs[1..] && ys == [ys[0]] + ys[1..];
    }
  }

  lemma {:induction false} FieldsTextReads(a: Json, m: map<string, Json>, b: Json, n: map<string, Json>,
                                           r: string, r': string)
    requires forall k :: k in m ==> m[k] < a
    requires forall k :: k in n ==> n[k] < b
    requires FieldsText(a, m, r) == FieldsText(b, n, r')
    ensures m == n && r == r'
    decreases a, 0, |m|
  {
    hide ValueText, StringText, FieldsText;
    if m == map[] || n == map[] {
      NoFields(a, m, b, n, r, r');
    } else {
      var k, restA := FirstField(a, m, r);
      var l, restB := FirstField(b, n, r');
      HeadReads(k, m[k], restA, l, n[l], restB);
      FieldsTextReads(a, m - {k}, b, n - {k}, r, r');
      assert m == (m - {k})[k := m[k]] && n == (n - {k})[k := n[k]];
    }
  }

  lemma NoFields(a: Json, m: map<string, Json>, b: Json, n: map<string, Json>, r: string, r': string)
    requires forall k :: k in m ==> m[k] < a
    requires forall k :: k in n ==> n[k] < b
    requires FieldsText(a, m, r) == FieldsText(b, n, r') && (m == map[] || n == map[])
    ensures m == n && r == r'
  {
    hide ValueText, StringText;
    Peel(if m == map[] then '}' else ',', FieldsText(a, m, r)[1..],
         if n == map[] then '}' else ',', FieldsText(b, n, r')[1..]);
  }

  lemma {:induction false} HeadReads(k: string, x: Json, restA: string, l: string, y: Json, restB: string)
    requires "," + StringText(k, ValueText(x, restA)) == "," + StringText(l, ValueText(y, restB))
    ensures k == l && x == y && restA == restB
    decreases x, 1, 1
  {
    hide ValueText, StringText;
    Peel(',', StringText(k, ValueText(x, restA)), ',', StringText(l, ValueText(y, restB)));
    StringTextReads(k, l, ValueText(x, restA), ValueText(y, restB));
    ValueTextReads(x, y, restA, restB);
  }

  // The field that comes first, and the text after it.
  lemma FirstField(bound: Json, m: map<string, Json>, r: string) returns (k: string, rest: string)
    requires m != map[] && forall k :: k in m ==> m[k] < bound
    ensures k in m && rest == FieldsText(bound, m - {k}, r)
    ensures FieldsText(bound, m, r) == "," + StringText(k, ValueText(m[k], rest))
  {
    k :| k in m && FieldsText(bound, m, r) == "," + StringText(k, ValueText(m[k], FieldsText(bound, m - {k}, r)));
    rest := FieldsText(bound, m - {k}, r);
  }

  // The text determines the value.
  lemma TextDetermines(a: Json, b: Json)
    requires TextOf(a) == TextOf(b)
    ensures a == b
  {
    ValueTextReads(a, b, "", "");
  }

  // ----- Where a text ends, and how long it is -----

  // Text in front of a rest: longer than the rest, and ending as the rest ends.
  ghost predicate InFront(s: string, rest: string) {
    |s| > |rest| && s[|s| - |rest|..] == rest
  }

  lemma InFrontOne(c: char, s: string, rest: string)
    requires s == rest || InFront(s, rest)
    ensures InFront([c] + s, rest) && |[c] + s| == |s| + 1
  {
    assert ([c] + s)[|[c] + s| - |rest|..] == s[|s| - |rest|..];
    assert s[|s| - |rest|..] == rest;
  }

  lemma {:induction false} NatInFront(n: nat, r: string)
    ensures InFront(NatText(n, r), r)
  {
    if n > 0 { NatInFront(n - 1, r); }
    InFrontOne(if n == 0 then ';' else '1', if n == 0 then r else NatText(n - 1, r), r);
  }

  lemma {:induction false} StringInFront(s: string, r: string)
    ensures InFront(StringText(s, r), r) && |StringText(s, r)| > |s| + |r|
  {
    if s == "" {
      InFrontOne('"', r, r);
    } else {
      StringInFront(s[1..], r);
      InFrontOne(s[0], StringText(s[1..], r), r);
      InFrontOne('.', [s[0]] + StringText(s[1..], r), r);
    }
  }

  lemma InFrontTransitive(a: string, b: string, c: string)
    requires InFront(a, b) && InFront(b, c)
    ensures InFront(a, c)
  {
    assert a[|a| - |c|..] == a[|a| - |b|..][|b| - |c|..];
  }

  lemma IntInFront(i: int, r: string)
    ensures InFront(IntText(i, r), r)
  {
    var n := if i < 0 then -i else i;
    NatInFront(n, r);
    InFrontOne(if i < 0 then '-' else '+', NatText(n, r), r);
  }

  lemma NumberInFront(n: Number, r: string)
    ensures InFront(NumberText(n, r), r)
  {
    match n
    case Whole(i) =>
      IntInFront(i, r);
      InFrontOne('#', IntText(i, r), r);
    case Double(d) =>
      IntInFront(d.1, r);
      IntInFront(d.0, IntText(d.1, r));
      InFrontTransitive(IntText(d.0, IntText(d.1, r)), IntText(d.1, r), r);
      InFrontOne('%', IntText(d.0, IntText(d.1, r)), r);
  }

  lemma {:induction false} ValueInFront(j: Json, r: string)
    ensures InFront(ValueText(j, r), r) && (j.JStr? ==> |ValueText(j, r)| > |j.s| + |r|)
    decreases j, 1, 0
  {
    match j
    case JNull => InFrontOne('n', r, r);
    case JBool(b) => InFrontOne(Kind(j), r, r);
    case JNum(n) => NumberInFront(n, r);
    case JStr(s) =>
      StringInFront(s, r);
      InFrontOne('"', StringText(s, r), r);
    case JArr(items) =>
      ItemsInFront(j, items, r);
      InFrontOne('[', ItemsText(j, items, r), r);
    case JObj(fields) =>
      FieldsInFront(j, fields, r);
      InFrontOne('{', FieldsText(j, fields, r), r);
  }

  lemma {:induction false} ItemsInFront(bound: Json, items: seq<Json>, r: string)
    requires forall i :: 0 <= i < |items| ==> items[i] < bound
    ensures InFront(ItemsText(bound, items, r), r)
    decreases bound, 0, |items|
  {
    if items == [] {
      InFrontOne(']', r, r);
    } else {
      var rest := ItemsText(bound, items[1..], r);
      ItemsInFront(bound, items[1..], r);
      ValueInFront(items[0], rest);
      InFrontTransitive(ValueText(items[0], rest), rest, r);
      InFrontOne(',', ValueText(items[0], rest), r);
    }
  }

  // The text of the fields ends with the brace, and is longer than each string among them.
  lemma {:induction false} FieldsInFront(bound: Json, m: map<string, Json>, r: string)
    requires forall k :: k in m ==> m[k] < bound
    ensures InFront(FieldsText(bound, m, r), "}" + r) || FieldsText(bound, m, r) == "}" + r
    ensures InFront(FieldsText(bound, m, r), r)
    ensures forall k :: k in m && m[k].JStr? ==> |FieldsText(bound, m, r)| > |m[k].s|
    decreases bound, 0, |m|
  {
    InFrontOne('}', r, r);
    if m != map[] {
      var k, rest := FirstField(bound, m, r);
      FieldsInFront(bound, m - {k}, r);
      var value := ValueText(m[k], rest);
      ValueInFront(m[k], rest);
      StringInFront(k, value);
      InFrontOne(',', StringText(k, value), value);
      var all := FieldsText(bound, m, r);
      InFrontTransitive(all, value, rest);
      if InFront(rest, "}" + r) { InFrontTransitive(all, rest, "}" + r); }
      InFrontTransitive(all, "}" + r, r);
      forall l | l in m && m[l].JStr? ensures |all| > |m[l].s| {
        if l != k { assert l in m - {k}; }
      }
    }
  }

  // ----- The codec -----

  ghost function Read(s: string): Option<Json> {
    if exists j :: TextOf(j) == s then
      var j :| TextOf(j) == s;
      Some(j)
    else None
  }

  ghost function Printer(): Codec {
    Codec((j: Json) => TextOf(j), (s: string) => Read(s))
  }

  lemma ReadsBack(j: Json)
    ensures Read(TextOf(j)) == Some(j)
  {
    assert TextOf(j) == TextOf(j);
    var j' := Read(TextOf(j)).value;
    TextDetermines(j', j);
  }

  lemma PrinterIsFaithful()
    ensures Faithful(Printer())
  {
    forall j: Json ensures Printer().parse(Printer().stringify(j)) == Some(j) { ReadsBack(j); }
  }

  lemma ObjectTextShape(m: map<string, Json>)
    ensures var s := TextOf(JObj(m));
            && |s| >= 2 && s[0] == '{' && s[|s| - 1] == '}'
            && forall k :: k in m && m[k].JStr? ==> |m[k].s| < |s|
  {
    var j := JObj(m);
    FieldsInFront(j, m, "");
    var fields := FieldsText(j, m, "");
    assert "}" + "" == "}";
    assert fields[|fields| - 1..] == "}";
    assert fields[|fields| - 1] == fields[|fields| - 1..][0];
  }
}
