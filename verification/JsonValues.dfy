/** Canonical texts of whole JSON values: members sorted by name, no white space; reading one back
    gives the value with its members sorted. */
module JsonValues {
  import opened Basics
  import opened JsonModel
  import opened JsonText

  // ---- numbers and other bare tokens ----

  predicate Digit(c: Code) { 48 <= c < 58 }

  predicate AllDigits(t: Text) { forall i :: 0 <= i < |t| ==> Digit(t[i]) }

  function Digits(n: nat): Text {
    if n < 10 then [(48 + n) as Code] else Digits(n / 10) + [(48 + n % 10) as Code]
  }

  function Number(t: Text): nat
    requires AllDigits(t)
  {
    if t == [] then 0 else Number(t[..|t| - 1]) * 10 + (t[|t| - 1] as int - 48)
  }

  function Decimal(i: int): Text { if i < 0 then [MINUS] + Digits(-i) else Digits(i) }

  predicate Integral(t: Text) {
    var digits := if t != [] && t[0] == MINUS then t[1..] else t;
    digits != [] && AllDigits(digits)
  }

  function Integer(t: Text): int
    requires Integral(t)
  {
    if t[0] == MINUS then 0 - Number(t[1..]) else Number(t)
  }

  lemma {:induction false} NumberBack(n: nat)
    ensures AllDigits(Digits(n)) && Digits(n) != [] && Number(Digits(n)) == n
  {
    if n >= 10 {
      NumberBack(n / 10);
      assert Digits(n)[..|Digits(n)| - 1] == Digits(n / 10);
    } else {
      assert Digits(n)[..0] == [];
    }
  }

  lemma DecimalBack(i: int)
    ensures Integral(Decimal(i)) && Integer(Decimal(i)) == i
  {
    NumberBack(if i < 0 then -i else i);
    if i < 0 {
      assert Decimal(i)[1..] == Digits(-i);
    }
  }

  // What ends a bare token.
  predicate Ends(c: Code) { c == COMMA || c == COLON || c == RBRACKET || c == RBRACE }

  predicate Bare(t: Text) {
    && t != [] && t[0] != QUOTE && t[0] != LBRACKET && t[0] != LBRACE
    && forall i :: 0 <= i < |t| ==> !Ends(t[i])
  }

  predicate Ascii(t: Text) { forall i :: 0 <= i < |t| ==> t[i] < 128 }

  /** The text of a float: bare ASCII, and neither an integer nor one of the three words. */
  predicate FloatText(t: Text) { Bare(t) && Ascii(t) && !Integral(t) && t != NULL && t != TRUE && t != FALSE }

  function Atom(token: Text): Json {
    if token == NULL then JNull
    else if token == TRUE then JBool(true)
    else if token == FALSE then JBool(false)
    else if Integral(token) then JInt(Integer(token))
    else JFloat(token)
  }

  function Token(s: Text): (r: (Text, Text))
    ensures s == r.0 + r.1 && (r.0 == [] ==> s == [] || Ends(s[0]))
  {
    if s == [] || Ends(s[0]) then ([], s)
    else
      var (t, rest) := Token(s[1..]);
      ([s[0]] + t, rest)
  }

  // ---- writing ----

  function Plain(j: Json): Text
    decreases j, 0
  {
    match j
    case JNull => NULL
    case JBool(b) => if b then TRUE else FALSE
    case JInt(i) => Decimal(i)
    case JFloat(repr) => repr
    case JText(t) => Quoted(t)
    case JList(items) => [LBRACKET] + PlainItems(items)
    case JObject(members) => [LBRACE] + PlainMembers(members)
  }

  /** Items with their commas, and the closing bracket. */
  function PlainItems(items: seq<Json>): Text
    decreases items, 1
  {
    if items == [] then [RBRACKET]
    else if |items| == 1 then Plain(items[0]) + [RBRACKET]
    else Plain(items[0]) + [COMMA] + PlainItems(items[1..])
  }

  function PlainMembers(members: seq<Member>): Text
    decreases members, 1
  {
    if members == [] then [RBRACE]
    else
      var first := Quoted(members[0].name) + [COLON] + Plain(members[0].value);
      if |members| == 1 then first + [RBRACE] else first + [COMMA] + PlainMembers(members[1..])
  }

  /** Python's order of strings: by code points. */
  predicate Before(a: Text, b: Text) {
    if b == [] then false else if a == [] then true
    else if a[0] != b[0] then a[0] < b[0] else Before(a[1..], b[1..])
  }

  function InsertMember(m: Member, sorted: seq<Member>): seq<Member> {
    if sorted == [] || Before(m.name, sorted[0].name) then [m] + sorted
    else [sorted[0]] + InsertMember(m, sorted[1..])
  }

  /** sort_keys, at every depth. */
  function Sorted(j: Json): Json
    decreases j, 0
  {
    match j
    case JList(items) => JList(SortedItems(items))
    case JObject(members) => JObject(SortedMembers(members))
    case _ => j
  }

  function SortedItems(items: seq<Json>): seq<Json>
    decreases items, 1
  {
    if items == [] then [] else [Sorted(items[0])] + SortedItems(items[1..])
  }

  function SortedMembers(members: seq<Member>): seq<Member>
    decreases members, 1
  {
    if members == [] then []
    else InsertMember(Member(members[0].name, Sorted(members[0].value)), SortedMembers(members[1..]))
  }

  /** json.dumps(j, sort_keys=True, separators=(",", ":")). */
  function Canonical(j: Json): Text { Plain(Sorted(j)) }

  // ---- reading ----

  function Parse(s: Text): (r: Read<Json>)
    ensures r.Got? ==> |r.rest| < |s|
    decreases |s|, 0
  {
    if s == [] then Bad
    else if s[0] == QUOTE then
      var t := ReadString(s[1..]);
      if t.Got? then Got(JText(t.value), t.rest) else Bad
    else if s[0] == LBRACKET then
      if |s| >= 2 && s[1] == RBRACKET then Got(JList([]), s[2..])
      else
        var items := ParseItems(s[1..]);
        if items.Got? then Got(JList(items.value), items.rest) else Bad
    else if s[0] == LBRACE then
      if |s| >= 2 && s[1] == RBRACE then Got(JObject([]), s[2..])
      else
        var members := ParseMembers(s[1..]);
        if members.Got? then Got(JObject(members.value), members.rest) else Bad
    else
      var (token, rest) := Token(s);
      if token == [] then Bad else Got(Atom(token), rest)
  }

  function ParseItems(s: Text): (r: Read<seq<Json>>)
    ensures r.Got? ==> |r.rest| < |s|
    decreases |s|, 1
  {
    var first := Parse(s);
    if first.Bad? || first.rest == [] then Bad
    else if first.rest[0] == RBRACKET then Got([first.value], first.rest[1..])
    else if first.rest[0] == COMMA then
      var more := ParseItems(first.rest[1..]);
      if more.Bad? then Bad else Got([first.value] + more.value, more.rest)
    else Bad
  }

  function ParseMembers(s: Text): (r: Read<seq<Member>>)
    ensures r.Got? ==> |r.rest| < |s|
    decreases |s|, 1
  {
    if s == [] || s[0] != QUOTE then Bad
    else
      var name := ReadString(s[1..]);
      if name.Bad? || name.rest == [] || name.rest[0] != COLON then Bad
      else
        var value := Parse(name.rest[1..]);
        if value.Bad? || value.rest == [] then Bad
        else
          var first := Member(name.value, value.value);
          if value.rest[0] == RBRACE then Got([first], value.rest[1..])
          else if value.rest[0] == COMMA then
            var more := ParseMembers(value.rest[1..]);
            if more.Bad? then Bad else Got([first] + more.value, more.rest)
          else Bad
  }

  // ---- the round trip ----

  /** Values the writer is meant for: texts without surrogate pairs, floats as repr writes them. */
  predicate Clean(j: Json)
    decreases j, 0
  {
    match j
    case JFloat(repr) => FloatText(repr)
    case JText(t) => Unpaired(t)
    case JList(items) => forall i :: 0 <= i < |items| ==> Clean(items[i])
    case JObject(members) => forall i :: 0 <= i < |members| ==> Unpaired(members[i].name) && Clean(members[i].value)
    case _ => true
  }

  // Where a value may stand in a text.
  predicate Closed(rest: Text) { rest == [] || Ends(rest[0]) }

  lemma {:induction false} TokenBack(t: Text, rest: Text)
    requires Closed(rest) && forall i :: 0 <= i < |t| ==> !Ends(t[i])
    ensures Token(t + rest) == (t, rest)
  {
    if t == [] {
      assert t + rest == rest;
    } else {
      assert (t + rest)[0] == t[0] && (t + rest)[1..] == t[1..] + rest;
      TokenBack(t[1..], rest);
      assert [t[0]] + t[1..] == t;
    }
  }

  lemma BareBack(t: Text, rest: Text)
    requires Bare(t) && Closed(rest)
    ensures Parse(t + rest) == Got(Atom(t), rest)
  {
    TokenBack(t, rest);
    assert (t + rest)[0] == t[0];
  }

  lemma DecimalCodes(i: int)
    ensures Decimal(i) != [] && forall k :: 0 <= k < |Decimal(i)| ==> Decimal(i)[k] == MINUS || Digit(Decimal(i)[k])
  {
    NumberBack(if i < 0 then -i else i);
    if i < 0 {
      assert forall k :: 0 < k < |Decimal(i)| ==> Decimal(i)[k] == Digits(-i)[k - 1];
    }
  }

  lemma DecimalIsBare(i: int)
    ensures Bare(Decimal(i)) && Atom(Decimal(i)) == JInt(i)
  {
    DecimalCodes(i);
    DecimalBack(i);
    assert Decimal(i)[0] != NULL[0] && Decimal(i)[0] != TRUE[0] && Decimal(i)[0] != FALSE[0];
  }

  lemma QuotedSplit(t: Text, rest: Text)
    ensures (Quoted(t) + rest)[0] == QUOTE && (Quoted(t) + rest)[1..] == Escape(t) + ([QUOTE] + rest)
    ensures ([QUOTE] + rest)[1..] == rest
  {
  }

  lemma TextBack(t: Text, rest: Text)
    requires Unpaired(t)
    ensures ReadString((Quoted(t) + rest)[1..]) == Got(t, rest)
  {
    ReadStringBack(t, [QUOTE] + rest);
    FuseFixes(t);
    QuotedSplit(t, rest);
  }

  lemma QuotedBack(t: Text, rest: Text)
    requires Unpaired(t)
    ensures Parse(Quoted(t) + rest) == Got(JText(t), rest)
  {
    TextBack(t, rest);
  }

  /** Reading what was written, wherever a value may stand, gives it back. */
  lemma {:induction false} ParseBack(j: Json, rest: Text)
    requires Clean(j) && Closed(rest)
    ensures Parse(Plain(j) + rest) == Got(j, rest)
    decreases j, 0
  {
    match j {
      case JNull => BareBack(NULL, rest);
      case JBool(b) => BareBack(if b then TRUE else FALSE, rest);
      case JInt(i) =>
        DecimalIsBare(i);
        BareBack(Decimal(i), rest);
      case JFloat(repr) => BareBack(repr, rest);
      case JText(t) => QuotedBack(t, rest);
      case JList(items) =>
        if items != [] { ItemsBack(items, rest); }
        ListBack(items, rest);
      case JObject(members) =>
        if members != [] { MembersBack(members, rest); }
        ObjectBack(members, rest);
    }
  }

  lemma PlainStarts(j: Json)
    requires Clean(j)
    ensures Plain(j) != [] && Plain(j)[0] != RBRACKET
  {
    if j.JInt? { DecimalIsBare(j.i); }
  }

  lemma ListText(items: seq<Json>, rest: Text)
    requires Clean(JList(items))
    ensures var s := Plain(JList(items)) + rest;
      && s[0] == LBRACKET && s[1..] == PlainItems(items) + rest
      && (if items == [] then s[1] == RBRACKET && s[2..] == rest else s[1] != RBRACKET)
  {
    var s := Plain(JList(items)) + rest;
    Regroup([LBRACKET], PlainItems(items), rest);
    if items != [] {
      ItemsStart(items, rest);
      assert s[1] == (PlainItems(items) + rest)[0];
    }
  }

  lemma ItemsStart(items: seq<Json>, rest: Text)
    requires items != [] && Clean(items[0])
    ensures (PlainItems(items) + rest)[0] != RBRACKET
  {
    PlainStarts(items[0]);
  }

  lemma ListStep(s: Text, items: seq<Json>, rest: Text)
    requires |s| >= 2 && s[0] == LBRACKET && s[1] != RBRACKET && ParseItems(s[1..]) == Got(items, rest)
    ensures Parse(s) == Got(JList(items), rest)
  {
  }

  lemma ListBack(items: seq<Json>, rest: Text)
    requires Clean(JList(items))
    requires items != [] ==> ParseItems(PlainItems(items) + rest) == Got(items, rest)
    ensures Parse(Plain(JList(items)) + rest) == Got(JList(items), rest)
  {
    var s := Plain(JList(items)) + rest;
    ListText(items, rest);
    if items != [] { ListStep(s, items, rest); }
  }

  lemma ObjectText(members: seq<Member>, rest: Text)
    ensures var s := Plain(JObject(members)) + rest;
      && s[0] == LBRACE && s[1..] == PlainMembers(members) + rest
      && (if members == [] then s[1] == RBRACE && s[2..] == rest else s[1] != RBRACE)
  {
    if members != [] { assert PlainMembers(members)[0] == QUOTE; }
  }

  lemma ObjectStep(s: Text, members: seq<Member>, rest: Text)
    requires |s| >= 2 && s[0] == LBRACE && s[1] != RBRACE && ParseMembers(s[1..]) == Got(members, rest)
    ensures Parse(s) == Got(JObject(members), rest)
  {
  }

  lemma ObjectBack(members: seq<Member>, rest: Text)
    requires members != [] ==> ParseMembers(PlainMembers(members) + rest) == Got(members, rest)
    ensures Parse(Plain(JObject(members)) + rest) == Got(JObject(members), rest)
  {
    var s := Plain(JObject(members)) + rest;
    ObjectText(members, rest);
    if members != [] { ObjectStep(s, members, rest); }
  }

  function AfterFirst(items: seq<Json>, rest: Text): Text
    requires items != []
  {
    if |items| == 1 then [RBRACKET] + rest else [COMMA] + (PlainItems(items[1..]) + rest)
  }

  lemma ItemsText(items: seq<Json>, rest: Text)
    requires items != []
    ensures PlainItems(items) + rest == Plain(items[0]) + AfterFirst(items, rest)
    ensures Closed(AfterFirst(items, rest))
    ensures AfterFirst(items, rest)[1..] == if |items| == 1 then rest else PlainItems(items[1..]) + rest
  {
    if |items| == 1 {
      Regroup(Plain(items[0]), [RBRACKET], rest);
    } else {
      Regroup(Plain(items[0]) + [COMMA], PlainItems(items[1..]), rest);
      Regroup(Plain(items[0]), [COMMA], PlainItems(items[1..]) + rest);
    }
  }

  lemma ItemsStep(s: Text, first: Json, after: Text, more: seq<Json>, rest: Text)
    requires Parse(s) == Got(first, after) && after != []
    requires (more == [] && after[0] == RBRACKET && after[1..] == rest) ||
        (after[0] == COMMA && ParseItems(after[1..]) == Got(more, rest))
    ensures ParseItems(s) == Got([first] + more, rest)
  {
    assert [first] + [] == [first];
  }

  lemma {:induction false} ItemsBack(items: seq<Json>, rest: Text)
    requires items != [] && forall i :: 0 <= i < |items| ==> Clean(items[i])
    ensures ParseItems(PlainItems(items) + rest) == Got(items, rest)
    decreases items, 1
  {
    var after := AfterFirst(items, rest);
    ItemsText(items, rest);
    ParseBack(items[0], after);
    assert items == [items[0]] + items[1..];
    if |items| == 1 {
      assert items[1..] == [] && after[0] == RBRACKET;
      ItemsStep(PlainItems(items) + rest, items[0], after, [], rest);
    } else {
      ItemsBack(items[1..], rest);
      ItemsStep(PlainItems(items) + rest, items[0], after, items[1..], rest);
    }
  }

  function AfterMember(members: seq<Member>, rest: Text): Text
    requires members != []
  {
    if |members| == 1 then [RBRACE] + rest else [COMMA] + (PlainMembers(members[1..]) + rest)
  }

  lemma MembersStep(s: Text, first: Member, after: Text, more: seq<Member>, rest: Text)
    requires s != [] && s[0] == QUOTE && ReadString(s[1..]) == Got(first.name, [COLON] + (Plain(first.value) + after))
    requires Parse(Plain(first.value) + after) == Got(first.value, after) && after != []
    requires (more == [] && after[0] == RBRACE && after[1..] == rest) ||
        (after[0] == COMMA && ParseMembers(after[1..]) == Got(more, rest))
    ensures ParseMembers(s) == Got([first] + more, rest)
  {
    assert ([COLON] + (Plain(first.value) + after))[1..] == Plain(first.value) + after;
    assert [first] + [] == [first];
  }

  lemma {:induction false} MembersBack(members: seq<Member>, rest: Text)
    requires members != [] && forall i :: 0 <= i < |members| ==> Unpaired(members[i].name) && Clean(members[i].value)
    ensures ParseMembers(PlainMembers(members) + rest) == Got(members, rest)
    decreases members, 1
  {
    var after := AfterMember(members, rest);
    assert after[1..] == if |members| == 1 then rest else PlainMembers(members[1..]) + rest;
    MemberFirst(members, rest, after);
    ParseBack(members[0].value, after);
    if |members| > 1 { MembersBack(members[1..], rest); }
    MembersStep(PlainMembers(members) + rest, members[0], after, members[1..], rest);
    assert members == [members[0]] + members[1..];
  }

  lemma MemberText(members: seq<Member>, rest: Text, tail: Text)
    requires members != []
    requires tail == AfterMember(members, rest)
    ensures PlainMembers(members) + rest == Quoted(members[0].name) + ([COLON] + (Plain(members[0].value) + tail))
  {
    var name, value := Quoted(members[0].name), Plain(members[0].value);
    if |members| == 1 {
      Flatten(name, [COLON], value, [RBRACE], rest);
    } else {
      Flatten(name, [COLON], value, [COMMA], PlainMembers(members[1..]) + rest);
      Regroup(name + [COLON] + value + [COMMA], PlainMembers(members[1..]), rest);
    }
  }

  lemma Flatten(a: Text, b: Text, c: Text, d: Text, e: Text)
    ensures a + b + c + d + e == a + (b + (c + (d + e)))
  {
    Regroup(c, d, e);
    Regroup(b, c + d, e);
    Regroup(a, b + (c + d), e);
    assert a + b + c + d == a + (b + (c + d));
  }

  lemma MemberFirst(members: seq<Member>, rest: Text, tail: Text)
    requires members != [] && Unpaired(members[0].name)
    requires tail == AfterMember(members, rest)
    ensures var s := PlainMembers(members) + rest;
      s != [] && s[0] == QUOTE && ReadString(s[1..]) == Got(members[0].name, [COLON] + (Plain(members[0].value) + tail))
  {
    var after := [COLON] + (Plain(members[0].value) + tail);
    MemberText(members, rest, tail);
    TextBack(members[0].name, after);
    QuotedSplit(members[0].name, after);
  }

  // ---- sorting members ----

  lemma {:induction false} BeforeTotal(a: Text, b: Text)
    ensures a == b ==> !Before(a, b)
    ensures a != b ==> (Before(a, b) <==> !Before(b, a))
  {
    if a != [] && b != [] && a[0] == b[0] {
      BeforeTotal(a[1..], b[1..]);
      assert a == [a[0]] + a[1..] && b == [b[0]] + b[1..];
    }
  }

  lemma {:induction false} BeforeTransitive(a: Text, b: Text, c: Text)
    requires Before(a, b) && Before(b, c)
    ensures Before(a, c)
  {
    if a != [] && b != [] && c != [] && a[0] == b[0] && b[0] == c[0] {
      BeforeTransitive(a[1..], b[1..], c[1..]);
    }
  }

  lemma {:induction false} InsertsCommute(m: Member, n: Member, sorted: seq<Member>)
    requires m.name != n.name
    ensures InsertMember(m, InsertMember(n, sorted)) == InsertMember(n, InsertMember(m, sorted))
  {
    BeforeTotal(m.name, n.name);
    if sorted != [] {
      if Before(m.name, n.name) && Before(n.name, sorted[0].name) { BeforeTransitive(m.name, n.name, sorted[0].name); }
      if Before(n.name, m.name) && Before(m.name, sorted[0].name) { BeforeTransitive(n.name, m.name, sorted[0].name); }
      InsertsCommute(m, n, sorted[1..]);
    }
  }

  /** No name twice: what a dictionary guarantees. */
  predicate OneEach(members: seq<Member>) {
    forall i, j :: 0 <= i < j < |members| ==> members[i].name != members[j].name
  }

  function SortedMember(m: Member): Member { Member(m.name, Sorted(m.value)) }

  lemma {:induction false} ToFront(members: seq<Member>, i: nat)
    requires OneEach(members) && i < |members|
    ensures SortedMembers(members) ==
        InsertMember(SortedMember(members[i]), SortedMembers(members[..i] + members[i + 1..]))
    decreases |members|
  {
    if i == 0 {
      assert members[..0] + members[1..] == members[1..];
    } else {
      var without := members[..i] + members[i + 1..];
      ToFront(members[1..], i - 1);
      assert members[1..][..i - 1] + members[1..][i..] == without[1..];
      assert without[0] == members[0];
      InsertsCommute(SortedMember(members[0]), SortedMember(members[i]), SortedMembers(without[1..]));
    }
  }

  lemma RemoveOne<T>(a: seq<T>, b: seq<T>, i: nat)
    requires a != [] && i < |b| && b[i] == a[0] && multiset(a) == multiset(b)
    ensures multiset(a[1..]) == multiset(b[..i] + b[i + 1..])
  {
    assert a == [a[0]] + a[1..] && b == b[..i] + ([b[i]] + b[i + 1..]);
    assert multiset(a) == multiset{a[0]} + multiset(a[1..]);
    assert multiset(b) == multiset(b[..i]) + multiset{b[i]} + multiset(b[i + 1..]);
    assert multiset(a[1..]) == multiset(a) - multiset{a[0]};
    assert multiset(b[..i] + b[i + 1..]) == multiset(b) - multiset{b[i]};
  }

  /** The canonical form does not depend on the order in which members were inserted. */
  lemma {:induction false} OrderFree(a: seq<Member>, b: seq<Member>)
    requires OneEach(a) && OneEach(b) && multiset(a) == multiset(b)
    ensures SortedMembers(a) == SortedMembers(b)
    ensures Canonical(JObject(a)) == Canonical(JObject(b))
    decreases |a|
  {
    if a == [] {
      assert |multiset(b)| == 0;
    } else {
      assert a[0] in multiset(b);
      var i :| 0 <= i < |b| && b[i] == a[0];
      RemoveOne(a, b, i);
      OrderFree(a[1..], b[..i] + b[i + 1..]);
      ToFront(b, i);
    }
  }

  /** The canonical form sees members through their sorted values only. */
  lemma {:induction false} SameSorted(a: seq<Member>, b: seq<Member>)
    requires |a| == |b| && forall i :: 0 <= i < |a| ==>
      a[i].name == b[i].name && Sorted(a[i].value) == Sorted(b[i].value)
    ensures SortedMembers(a) == SortedMembers(b)
  {
    if a != [] { SameSorted(a[1..], b[1..]); }
  }

  /** The value under a name, if any. */
  function Find(members: seq<Member>, name: Text): Option<Json> {
    if members == [] then None
    else if members[0].name == name then Some(members[0].value)
    else Find(members[1..], name)
  }

  lemma {:induction false} FindInserted(m: Member, sorted: seq<Member>, name: Text)
    requires Find(sorted, m.name) == None
    ensures Find(InsertMember(m, sorted), name) == if name == m.name then Some(m.value) else Find(sorted, name)
  {
    if sorted != [] && !Before(m.name, sorted[0].name) {
      FindInserted(m, sorted[1..], name);
    }
  }

  lemma {:induction false} FindNone(members: seq<Member>, name: Text)
    requires forall i :: 0 <= i < |members| ==> members[i].name != name
    ensures Find(members, name) == None
  {
    if members != [] { FindNone(members[1..], name); }
  }

  /** Sorting moves members and sorts inside them; it loses and adds none. */
  lemma {:induction false} FindSorted(members: seq<Member>, name: Text)
    requires OneEach(members)
    ensures Find(SortedMembers(members), name) ==
      match Find(members, name) case Some(v) => Some(Sorted(v)) case None => None
    decreases |members|
  {
    if members != [] {
      FindSorted(members[1..], name);
      FindSorted(members[1..], members[0].name);
      FindNone(members[1..], members[0].name);
      FindInserted(SortedMember(members[0]), SortedMembers(members[1..]), name);
    }
  }

  lemma {:induction false} FindAt(members: seq<Member>, i: nat)
    requires OneEach(members) && i < |members|
    ensures Find(members, members[i].name) == Some(members[i].value)
  {
    if i > 0 {
      FindAt(members[1..], i - 1);
    }
  }

  lemma {:induction false} InsertKeeps(m: Member, sorted: seq<Member>)
    ensures forall n :: n in InsertMember(m, sorted) <==> n == m || n in sorted
  {
    if sorted != [] && !Before(m.name, sorted[0].name) {
      InsertKeeps(m, sorted[1..]);
    }
  }

  lemma {:induction false} SortedIsClean(j: Json)
    requires Clean(j)
    ensures Clean(Sorted(j))
    decreases j, 0
  {
    match j {
      case JList(items) => SortedItemsClean(items);
      case JObject(members) =>
        SortedMembersClean(members);
        assert forall i :: 0 <= i < |SortedMembers(members)| ==> SortedMembers(members)[i] in SortedMembers(members);
      case _ =>
    }
  }

  lemma {:induction false} SortedItemsClean(items: seq<Json>)
    requires forall i :: 0 <= i < |items| ==> Clean(items[i])
    ensures forall i :: 0 <= i < |SortedItems(items)| ==> Clean(SortedItems(items)[i])
    decreases items, 1
  {
    if items != [] {
      SortedIsClean(items[0]);
      SortedItemsClean(items[1..]);
    }
  }

  lemma {:induction false} SortedMembersClean(members: seq<Member>)
    requires forall i :: 0 <= i < |members| ==> Unpaired(members[i].name) && Clean(members[i].value)
    ensures forall m :: m in SortedMembers(members) ==> Unpaired(m.name) && Clean(m.value)
    decreases members, 1
  {
    if members != [] {
      SortedIsClean(members[0].value);
      SortedMembersClean(members[1..]);
      InsertKeeps(SortedMember(members[0]), SortedMembers(members[1..]));
    }
  }

  /** A canonical text reads back as its value with members sorted. */
  lemma CanonicalBack(j: Json)
    requires Clean(j)
    ensures Parse(Canonical(j)) == Got(Sorted(j), [])
  {
    SortedIsClean(j);
    ParseBack(Sorted(j), []);
    assert Plain(Sorted(j)) + [] == Plain(Sorted(j));
  }

  /** Two values have one canonical text exactly when they differ in the order of members only. */
  lemma CanonicalEqualIff(a: Json, b: Json)
    requires Clean(a) && Clean(b)
    ensures Canonical(a) == Canonical(b) <==> Sorted(a) == Sorted(b)
  {
    CanonicalBack(a);
    CanonicalBack(b);
  }

  // ---- sorting twice ----

  /** JSON with no name twice in any object. */
  predicate Proper(j: Json)
    decreases j, 0
  {
    match j
    case JList(items) => forall i :: 0 <= i < |items| ==> Proper(items[i])
    case JObject(members) => OneEach(members) && forall i :: 0 <= i < |members| ==> Proper(members[i].value)
    case _ => true
  }

  // Each name is before the next.
  predicate Ascending(members: seq<Member>) {
    |members| >= 2 ==> Before(members[0].name, members[1].name) && Ascending(members[1..])
  }

  lemma {:induction false} InsertAscending(m: Member, sorted: seq<Member>)
    requires Ascending(sorted) && forall n :: n in sorted ==> n.name != m.name
    ensures Ascending(InsertMember(m, sorted))
  {
    if sorted != [] {
      BeforeTotal(m.name, sorted[0].name);
      assert sorted[0] in sorted;
      if !Before(m.name, sorted[0].name) {
        InsertAscending(m, sorted[1..]);
        var rest := InsertMember(m, sorted[1..]);
        assert ([sorted[0]] + rest)[1..] == rest;
      } else {
        assert ([m] + sorted)[1..] == sorted;
      }
    }
  }

  lemma {:induction false} AscendingStays(members: seq<Member>)
    requires Ascending(members) && forall m :: m in members ==> Sorted(m.value) == m.value
    ensures SortedMembers(members) == members
  {
    if members != [] {
      assert members[0] in members;
      AscendingStays(members[1..]);
      assert members == [members[0]] + members[1..];
    }
  }

  /** Sorting is idempotent on proper JSON. */
  lemma {:induction false} SortedTwice(j: Json)
    requires Proper(j)
    ensures Sorted(Sorted(j)) == Sorted(j)
    decreases j, 0
  {
    match j {
      case JList(items) => ItemsTwice(items);
      case JObject(members) =>
        MembersTwice(members);
        AscendingStays(SortedMembers(members));
      case _ =>
    }
  }

  lemma {:induction false} ItemsTwice(items: seq<Json>)
    requires forall i :: 0 <= i < |items| ==> Proper(items[i])
    ensures SortedItems(SortedItems(items)) == SortedItems(items)
    decreases items, 1
  {
    if items != [] {
      SortedTwice(items[0]);
      ItemsTwice(items[1..]);
    }
  }

  lemma {:induction false} MembersTwice(members: seq<Member>)
    requires OneEach(members) && forall i :: 0 <= i < |members| ==> Proper(members[i].value)
    ensures Ascending(SortedMembers(members))
    ensures forall m :: m in SortedMembers(members) ==>
      Sorted(m.value) == m.value && exists i :: 0 <= i < |members| && members[i].name == m.name
    decreases members, 1
  {
    if members != [] {
      SortedTwice(members[0].value);
      MembersTwice(members[1..]);
      var rest := SortedMembers(members[1..]);
      forall n | n in rest
        ensures n.name != members[0].name && exists i :: 0 <= i < |members| && members[i].name == n.name
      {
        var i :| 0 <= i < |members[1..]| && members[1..][i].name == n.name;
        assert members[i + 1].name == n.name;
      }
      InsertAscending(SortedMember(members[0]), rest);
      InsertKeeps(SortedMember(members[0]), rest);
    }
  }

  // ---- canonical texts are ASCII ----

  lemma UnitAscii(n: int)
    requires 0 <= n < 0x1_0000
    ensures Ascii(Unit(n))
  {
  }

  lemma EscapedAscii(c: Code)
    ensures Ascii(Escaped(c))
  {
    if Letter(c).None? && !(32 <= c <= 126) {
      if c < 0x1_0000 {
        UnitAscii(c as int);
      } else {
        UnitAscii(HighOf(c as int));
        UnitAscii(LowOf(c as int));
      }
    }
  }

  lemma {:induction false} EscapeAscii(t: Text)
    ensures Ascii(Escape(t))
  {
    if t != [] {
      EscapedAscii(t[0]);
      EscapeAscii(t[1..]);
    }
  }

  lemma QuotedAscii(t: Text)
    ensures Ascii(Quoted(t))
  {
    EscapeAscii(t);
  }

  lemma {:induction false} PlainAscii(j: Json)
    requires Clean(j)
    ensures Ascii(Plain(j))
    decreases j, 0
  {
    match j {
      case JInt(i) => DecimalCodes(i);
      case JText(t) => QuotedAscii(t);
      case JList(items) => ItemsAscii(items);
      case JObject(members) => MembersAscii(members);
      case _ =>
    }
  }

  lemma {:induction false} ItemsAscii(items: seq<Json>)
    requires forall i :: 0 <= i < |items| ==> Clean(items[i])
    ensures Ascii(PlainItems(items))
    decreases items, 1
  {
    if items != [] {
      PlainAscii(items[0]);
      ItemsAscii(items[1..]);
    }
  }

  lemma {:induction false} MembersAscii(members: seq<Member>)
    requires forall i :: 0 <= i < |members| ==> Clean(members[i].value)
    ensures Ascii(PlainMembers(members))
    decreases members, 1
  {
    if members != [] {
      QuotedAscii(members[0].name);
      PlainAscii(members[0].value);
      MembersAscii(members[1..]);
    }
  }

  lemma CanonicalAscii(j: Json)
    requires Clean(j)
    ensures Ascii(Canonical(j))
  {
    SortedIsClean(j);
    PlainAscii(Sorted(j));
  }

  // ---- how long canonical texts are ----

  // A member with its colon and what follows it.
  function Length(m: Member): nat { |Quoted(m.name)| + |Plain(m.value)| + 2 }

  function Lengths(members: seq<Member>): nat {
    if members == [] then 0 else Length(members[0]) + Lengths(members[1..])
  }

  lemma {:induction false} PlainLength(members: seq<Member>)
    requires members != []
    ensures |PlainMembers(members)| == Lengths(members)
  {
    if |members| > 1 { PlainLength(members[1..]); }
  }

  lemma {:induction false} InsertLength(m: Member, sorted: seq<Member>)
    ensures Lengths(InsertMember(m, sorted)) == Length(m) + Lengths(sorted)
  {
    if sorted == [] || Before(m.name, sorted[0].name) {
      assert ([m] + sorted)[1..] == sorted;
    } else {
      InsertLength(m, sorted[1..]);
      assert ([sorted[0]] + InsertMember(m, sorted[1..]))[1..] == InsertMember(m, sorted[1..]);
    }
  }

  function SortedLengths(members: seq<Member>): nat {
    if members == [] then 0 else Length(SortedMember(members[0])) + SortedLengths(members[1..])
  }

  lemma {:induction false} SortingKeepsLength(members: seq<Member>)
    ensures Lengths(SortedMembers(members)) == SortedLengths(members)
  {
    if members != [] {
      SortingKeepsLength(members[1..]);
      InsertLength(SortedMember(members[0]), SortedMembers(members[1..]));
    }
  }

  lemma {:induction false} InsertNotEmpty(m: Member, sorted: seq<Member>)
    ensures InsertMember(m, sorted) != []
  {
  }

  /** The length of an object's canonical text is the sum over its members, in any order. */
  lemma CanonicalLength(members: seq<Member>)
    requires members != []
    ensures |Canonical(JObject(members))| == 1 + SortedLengths(members)
  {
    SortingKeepsLength(members);
    InsertNotEmpty(SortedMember(members[0]), SortedMembers(members[1..]));
    PlainLength(SortedMembers(members));
  }

  /** Replacing one member moves the length by the difference of the two. */
  lemma {:induction false} ReplaceLength(members: seq<Member>, i: nat, m: Member)
    requires i < |members|
    ensures SortedLengths(members[i := m]) + Length(SortedMember(members[i])) ==
        SortedLengths(members) + Length(SortedMember(m))
  {
    if i == 0 {
      assert members[0 := m][1..] == members[1..];
    } else {
      ReplaceLength(members[1..], i - 1, m);
      assert members[i := m][1..] == members[1..][i - 1 := m];
    }
  }
}
