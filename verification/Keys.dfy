/** Query keys and source ids: what their hashed texts determine. */
module Keys {
  import opened Basics
  import opened JsonModel
  import opened Model
  import opened JsonText
  import opened JsonValues

  function Chars(s: string): Text
    requires forall i :: 0 <= i < |s| ==> s[i] < 128 as char
  {
    seq(|s|, i requires 0 <= i < |s| => s[i] as int as Code)
  }

  function FormatText(f: Format): Text {
    match f case DuckDb => Chars("duckdb") case Sqlite => Chars("sqlite") case Csv => Chars("csv")
  }

  // ---- the object that _query_key serialises ----

  /** The fourteen names, in the order of the source. */
  function Names(): seq<Text> {
    [Chars("scope_id"), Chars("source_sha256"), Chars("schema_digest"), Chars("format"), Chars("sql"),
     Chars("parameters"),
     Chars("worker_version"), Chars("policy_version"), Chars("engines"), Chars("timeout"), Chars("memory"),
     Chars("threads"),
     Chars("max_rows"), Chars("max_bytes")]
  }

  function ParamJson(p: Param): Json {
    JObject([Member(Chars("type"), JText(p.kind)), Member(Chars("value"), p.value)])
  }

  function ParamMembers(params: map<Text, Param>, order: seq<Text>): seq<Member>
    requires forall n :: n in order ==> n in params
  {
    seq(|order|, i requires 0 <= i < |order| => Member(order[i], ParamJson(params[order[i]])))
  }

  function EnginesJson(r: Runtime): Json {
    JObject([Member(Chars("duckdb"), JText(r.duckdb)), Member(Chars("sqlite"), JText(r.sqlite)),
             Member(Chars("sqlglot"), JText(r.sqlglot))])
  }

  function Values(hex: Digest -> Text, k: QueryKey, order: seq<Text>): seq<Json>
    requires forall n :: n in order ==> n in k.params
  {
    [JText(k.scope), JText(hex(k.sourceSha256)), JText(hex(k.schemaDigest)), JText(FormatText(k.format)), JText(k.sql),
     JObject(ParamMembers(k.params, order)),
     JText(k.runtime.workerVersion), JText(k.runtime.policyVersion), EnginesJson(k.runtime),
     JInt(k.runtime.timeoutSeconds),
     JText(k.runtime.memoryLimit), JInt(k.runtime.threads), JInt(k.runtime.maxRows), JInt(k.runtime.maxBytes)]
  }

  function Zip(names: seq<Text>, values: seq<Json>): (members: seq<Member>)
    requires |names| == |values|
    ensures |members| == |names|
  {
    seq(|names|, i requires 0 <= i < |names| => Member(names[i], values[i]))
  }

  /** The text whose digest is the key; `order` is the order in which parameters were inserted. */
  function KeyText(hex: Digest -> Text, k: QueryKey, order: seq<Text>): Text
    requires forall n :: n in order ==> n in k.params
  {
    Canonical(JObject(Zip(Names(), Values(hex, k, order))))
  }

  // ---- assumptions on what is hashed ----

  ghost predicate HexIsFaithful(hex: Digest -> Text) {
    (forall d :: Unpaired(hex(d))) && (forall d, e :: hex(d) == hex(e) ==> d == e)
  }

  /** Parameter values are scalars: _convert_parameter has refused everything else. */
  predicate Scalar(j: Json) { !j.JList? && !j.JObject? && Clean(j) }

  ghost predicate Encodable(k: QueryKey) {
    && Unpaired(k.scope) && Unpaired(k.sql)
    && (forall n :: n in k.params ==> Unpaired(n) && Unpaired(k.params[n].kind) && Scalar(k.params[n].value))
    && Unpaired(k.runtime.workerVersion) && Unpaired(k.runtime.policyVersion) && Unpaired(k.runtime.memoryLimit)
    && Unpaired(k.runtime.duckdb) && Unpaired(k.runtime.sqlite) && Unpaired(k.runtime.sqlglot)
  }

  // ---- names are distinct ----

  // Length and first two codes tell the fourteen names apart.
  function Mark(t: Text): int
    requires |t| >= 2
  {
    |t| * 65536 + t[0] as int * 256 + t[1] as int
  }

  lemma NamesDiffer()
    ensures |Names()| == 14
    ensures forall i, j :: 0 <= i < j < 14 ==> Names()[i] != Names()[j]
  {
    var n := Names();
    var marks := [
      8 * 65536 + 115 * 256 + 99, 13 * 65536 + 115 * 256 + 111, 13 * 65536 + 115 * 256 + 99,
      6 * 65536 + 102 * 256 + 111, 3 * 65536 + 115 * 256 + 113, 10 * 65536 + 112 * 256 + 97,
      14 * 65536 + 119 * 256 + 111, 14 * 65536 + 112 * 256 + 111, 7 * 65536 + 101 * 256 + 110,
      7 * 65536 + 116 * 256 + 105, 6 * 65536 + 109 * 256 + 101, 7 * 65536 + 116 * 256 + 104,
      8 * 65536 + 109 * 256 + 97, 9 * 65536 + 109 * 256 + 97];
    assert forall i :: 0 <= i < 14 ==> |n[i]| >= 2 && Mark(n[i]) == marks[i];
    assert forall i, j :: 0 <= i < j < 14 ==> marks[i] != marks[j];
  }

  lemma {:induction false} DistinctAt<K>(ids: seq<K>, i: nat, j: nat)
    requires Distinct(ids) && i < j < |ids|
    ensures ids[i] != ids[j]
  {
    if i == 0 {
      assert ids[1..][j - 1] == ids[j];
    } else {
      DistinctAt(ids[1..], i - 1, j - 1);
    }
  }

  lemma ParamsOneEach(params: map<Text, Param>, order: seq<Text>)
    requires Enumerates(order, params)
    ensures OneEach(ParamMembers(params, order))
  {
    var ms := ParamMembers(params, order);
    forall i, j | 0 <= i < j < |ms| ensures ms[i].name != ms[j].name { DistinctAt(order, i, j); }
  }

  lemma ZipOneEach(values: seq<Json>)
    requires |values| == 14
    ensures |Names()| == 14 && OneEach(Zip(Names(), values))
  {
    NamesDiffer();
  }

  // ---- equal texts, equal keys ----

  lemma ScalarSorted(j: Json)
    requires Scalar(j)
    ensures Sorted(j) == j
  {
  }

  lemma ParamFields()
    ensures Chars("type") != Chars("value") && Unpaired(Chars("type")) && Unpaired(Chars("value"))
  {
    assert |Chars("type")| == 4 && |Chars("value")| == 5;
  }

  lemma ParamJsonDetermines(p: Param, q: Param)
    requires Scalar(p.value) && Scalar(q.value) && Sorted(ParamJson(p)) == Sorted(ParamJson(q))
    ensures p == q
  {
    ParamFields();
    ScalarSorted(p.value);
    ScalarSorted(q.value);
    SameAt(ParamJson(p).members, ParamJson(q).members, 0);
    SameAt(ParamJson(p).members, ParamJson(q).members, 1);
  }

  /** Objects under the same names with one sorted form agree at every name. */
  lemma SameAt(a: seq<Member>, b: seq<Member>, i: nat)
    requires OneEach(a) && OneEach(b) && i < |a| && i < |b| && a[i].name == b[i].name
    requires SortedMembers(a) == SortedMembers(b)
    ensures Sorted(a[i].value) == Sorted(b[i].value)
  {
    FindAt(a, i);
    FindAt(b, i);
    FindSorted(a, a[i].name);
    FindSorted(b, a[i].name);
  }

  lemma ParamFound(params: map<Text, Param>, order: seq<Text>, n: Text)
    requires Enumerates(order, params)
    ensures Find(ParamMembers(params, order), n) == if n in params then Some(ParamJson(params[n])) else None
  {
    var ms := ParamMembers(params, order);
    ParamsOneEach(params, order);
    if n in params {
      var i :| 0 <= i < |order| && order[i] == n;
      FindAt(ms, i);
    } else {
      FindNone(ms, n);
    }
  }

  lemma ParamsDetermined(p: map<Text, Param>, o: seq<Text>, p': map<Text, Param>, o': seq<Text>)
    requires Enumerates(o, p) && Enumerates(o', p')
    requires forall n :: n in p ==> Scalar(p[n].value)
    requires forall n :: n in p' ==> Scalar(p'[n].value)
    requires SortedMembers(ParamMembers(p, o)) == SortedMembers(ParamMembers(p', o'))
    ensures p == p'
  {
    ParamsOneEach(p, o);
    ParamsOneEach(p', o');
    forall n ensures n in p <==> n in p' ensures n in p && n in p' ==> p[n] == p'[n] {
      ParamFound(p, o, n);
      ParamFound(p', o', n);
      FindSorted(ParamMembers(p, o), n);
      FindSorted(ParamMembers(p', o'), n);
      if n in p && n in p' { ParamJsonDetermines(p[n], p'[n]); }
    }
  }

  lemma EnginesOneEach(r: Runtime)
    ensures OneEach(EnginesJson(r).members) && Unpaired(Chars("duckdb")) && Unpaired(Chars("sqlite"))
    ensures Unpaired(Chars("sqlglot"))
  {
    assert Chars("duckdb")[0] == 100 && Chars("sqlite")[0] == 115 && |Chars("sqlite")| == 6 && |Chars("sqlglot")| == 7;
  }

  lemma EnginesDetermined(r: Runtime, r': Runtime)
    requires Sorted(EnginesJson(r)) == Sorted(EnginesJson(r'))
    ensures r.duckdb == r'.duckdb && r.sqlite == r'.sqlite && r.sqlglot == r'.sqlglot
  {
    EnginesOneEach(r);
    EnginesOneEach(r');
    SameAt(EnginesJson(r).members, EnginesJson(r').members, 0);
    SameAt(EnginesJson(r).members, EnginesJson(r').members, 1);
    SameAt(EnginesJson(r).members, EnginesJson(r').members, 2);
  }

  lemma FormatsDiffer(f: Format, g: Format)
    ensures FormatText(f) == FormatText(g) ==> f == g
    ensures Unpaired(FormatText(f))
  {
    assert Chars("duckdb")[0] == 100 && Chars("sqlite")[0] == 115 && Chars("csv")[0] == 99;
  }

  lemma TextValues(hex: Digest -> Text, k: QueryKey, o: seq<Text>, k': QueryKey, o': seq<Text>)
    requires HexIsFaithful(hex) && Enumerates(o, k.params) && Enumerates(o', k'.params)
    requires forall i :: 0 <= i < 5 ==> Sorted(Values(hex, k, o)[i]) == Sorted(Values(hex, k', o')[i])
    ensures k.scope == k'.scope && k.sourceSha256 == k'.sourceSha256 && k.schemaDigest == k'.schemaDigest
    ensures k.format == k'.format && k.sql == k'.sql
  {
    var v, v' := Values(hex, k, o), Values(hex, k', o');
    FormatsDiffer(k.format, k'.format);
    assert Sorted(v[0]) == Sorted(v'[0]) && Sorted(v[1]) == Sorted(v'[1]) && Sorted(v[2]) == Sorted(v'[2]);
    assert Sorted(v[3]) == Sorted(v'[3]) && Sorted(v[4]) == Sorted(v'[4]);
  }

  lemma RuntimeValues(hex: Digest -> Text, k: QueryKey, o: seq<Text>, k': QueryKey, o': seq<Text>)
    requires Enumerates(o, k.params) && Enumerates(o', k'.params)
    requires forall i :: 6 <= i < 14 ==> Sorted(Values(hex, k, o)[i]) == Sorted(Values(hex, k', o')[i])
    ensures k.runtime == k'.runtime
  {
    var v, v' := Values(hex, k, o), Values(hex, k', o');
    assert Sorted(v[6]) == Sorted(v'[6]) && Sorted(v[7]) == Sorted(v'[7]) && Sorted(v[8]) == Sorted(v'[8]);
    assert Sorted(v[9]) == Sorted(v'[9]);
    assert Sorted(v[10]) == Sorted(v'[10]) && Sorted(v[11]) == Sorted(v'[11]) && Sorted(v[12]) == Sorted(v'[12]);
    assert Sorted(v[13]) == Sorted(v'[13]);
    EnginesDetermined(k.runtime, k'.runtime);
  }

  /** Values that agree once sorted come from equal keys. */
  lemma ValuesDetermine(hex: Digest -> Text, k: QueryKey, o: seq<Text>, k': QueryKey, o': seq<Text>)
    requires HexIsFaithful(hex) && Encodable(k) && Encodable(k') && Enumerates(o, k.params) && Enumerates(o', k'.params)
    requires forall i :: 0 <= i < 14 ==> Sorted(Values(hex, k, o)[i]) == Sorted(Values(hex, k', o')[i])
    ensures k == k'
  {
    TextValues(hex, k, o, k', o');
    RuntimeValues(hex, k, o, k', o');
    assert Sorted(Values(hex, k, o)[5]) == Sorted(Values(hex, k', o')[5]);
    ParamsDetermined(k.params, o, k'.params, o');
  }

  lemma NamesUnpaired()
    ensures |Names()| == 14 && forall i :: 0 <= i < 14 ==> Unpaired(Names()[i])
  {
    assert forall i :: 0 <= i < 14 ==> forall j :: 0 <= j < |Names()[i]| ==> Names()[i][j] < 128;
  }

  lemma ValuesClean(hex: Digest -> Text, k: QueryKey, o: seq<Text>)
    requires HexIsFaithful(hex) && Encodable(k) && Enumerates(o, k.params)
    ensures forall i :: 0 <= i < 14 ==> Clean(Values(hex, k, o)[i])
  {
    ParamFields();
    EnginesOneEach(k.runtime);
    FormatsDiffer(k.format, k.format);
    var ms := ParamMembers(k.params, o);
    forall i | 0 <= i < |ms| ensures Unpaired(ms[i].name) && Clean(ms[i].value) {
      assert o[i] in o;
    }
    assert Clean(JObject(ms)) && Clean(EnginesJson(k.runtime));
  }

  /** The order in which parameters were inserted does not matter. */
  lemma {:induction false} SameElements(a: seq<Text>, b: seq<Text>)
    requires Distinct(a) && Distinct(b) && forall n :: n in a <==> n in b
    ensures multiset(a) == multiset(b)
  {
    forall n ensures multiset(a)[n] == multiset(b)[n] {
      OnceEach(a, n);
      OnceEach(b, n);
    }
  }

  lemma {:induction false} OnceEach(a: seq<Text>, n: Text)
    requires Distinct(a)
    ensures multiset(a)[n] == if n in a then 1 else 0
  {
    if a != [] {
      OnceEach(a[1..], n);
      assert a == [a[0]] + a[1..];
    }
  }

  lemma {:induction false} MembersBag(params: map<Text, Param>, order: seq<Text>, m: Member)
    requires forall n :: n in order ==> n in params
    ensures multiset(ParamMembers(params, order))[m] ==
      if m.name in params && m.value == ParamJson(params[m.name]) then multiset(order)[m.name] else 0
  {
    if order != [] {
      var ms := ParamMembers(params, order);
      MembersBag(params, order[1..], m);
      assert ParamMembers(params, order[1..]) == ms[1..];
      assert order == [order[0]] + order[1..] && ms == [ms[0]] + ms[1..];
    } else {
      assert ParamMembers(params, order) == [];
    }
  }

  lemma ParamsOrderFree(params: map<Text, Param>, o: seq<Text>, o': seq<Text>)
    requires Enumerates(o, params) && Enumerates(o', params)
    ensures SortedMembers(ParamMembers(params, o)) == SortedMembers(ParamMembers(params, o'))
  {
    ParamsOneEach(params, o);
    ParamsOneEach(params, o');
    SameElements(o, o');
    forall m ensures multiset(ParamMembers(params, o))[m] == multiset(ParamMembers(params, o'))[m] {
      MembersBag(params, o, m);
      MembersBag(params, o', m);
    }
    OrderFree(ParamMembers(params, o), ParamMembers(params, o'));
  }

  lemma KeyMembers(hex: Digest -> Text, k: QueryKey, o: seq<Text>) returns (members: seq<Member>)
    requires HexIsFaithful(hex) && Encodable(k) && Enumerates(o, k.params)
    ensures |Names()| == 14 && members == Zip(Names(), Values(hex, k, o))
    ensures OneEach(members) && Clean(JObject(members)) && KeyText(hex, k, o) == Canonical(JObject(members))
  {
    NamesUnpaired();
    ValuesClean(hex, k, o);
    ZipOneEach(Values(hex, k, o));
    members := Zip(Names(), Values(hex, k, o));
  }

  lemma EqualKeysEqualMembers(hex: Digest -> Text, k: QueryKey, o: seq<Text>, o': seq<Text>)
    requires Enumerates(o, k.params) && Enumerates(o', k.params) && |Names()| == 14
    ensures SortedMembers(Zip(Names(), Values(hex, k, o))) == SortedMembers(Zip(Names(), Values(hex, k, o')))
  {
    ParamsOrderFree(k.params, o, o');
    SameSorted(Zip(Names(), Values(hex, k, o)), Zip(Names(), Values(hex, k, o')));
  }

  /** Query keys are injective and order-free: two requests are hashed from one canonical text if and
      only if scope, content and schema digests, format, canonical SQL, typed parameters, versions
      and limits agree, whatever order their parameters came in. */
  lemma KeyTextIff(hex: Digest -> Text, k: QueryKey, o: seq<Text>, k': QueryKey, o': seq<Text>)
    requires HexIsFaithful(hex) && Encodable(k) && Encodable(k') && Enumerates(o, k.params) && Enumerates(o', k'.params)
    ensures KeyText(hex, k, o) == KeyText(hex, k', o') <==> k == k'
  {
    var a := KeyMembers(hex, k, o);
    var b := KeyMembers(hex, k', o');
    CanonicalEqualIff(JObject(a), JObject(b));
    if k == k' { EqualKeysEqualMembers(hex, k, o, o'); }
    if SortedMembers(a) == SortedMembers(b) {
      forall i | 0 <= i < 14 ensures Sorted(Values(hex, k, o)[i]) == Sorted(Values(hex, k', o')[i]) { SameAt(a, b, i); }
      ValuesDetermine(hex, k, o, k', o');
    }
  }

  // ---- source ids ----

  // f"{scope_id}\0{source_ref}": what source_id hashes.
  function SourceIdText(scope: Text, ref: Text): Text { scope + [0] + ref }

  // OPAQUE_PATTERN: letters, digits, dot, underscore, tilde, hyphen; one to 160 of them.
  predicate Opaque(t: Text) {
    1 <= |t| <= 160 && forall i :: 0 <= i < |t| ==>
      48 <= t[i] < 58 || 65 <= t[i] < 91 || 97 <= t[i] < 123 || t[i] == 46 || t[i] == 95 || t[i] == 126 || t[i] == 45
  }

  /** On admitted scopes the joined text determines scope and reference. */
  lemma SourceIdInjective(scope: Text, ref: Text, scope': Text, ref': Text)
    requires Opaque(scope) && Opaque(scope')
    ensures SourceIdText(scope, ref) == SourceIdText(scope', ref') <==> scope == scope' && ref == ref'
  {
    var t, t' := SourceIdText(scope, ref), SourceIdText(scope', ref');
    assert t[|scope|] == 0 && t'[|scope'|] == 0;
    assert |scope| < |scope'| ==> t'[|scope|] == scope'[|scope|];
    assert |scope'| < |scope| ==> t[|scope'|] == scope[|scope'|];
    if t == t' {
      assert t[..|scope|] == scope && t'[..|scope'|] == scope';
      assert t[|scope| + 1..] == ref && t'[|scope'| + 1..] == ref';
    }
  }

  /** It is the pattern that makes it so: with a NUL in a scope two pairs collide. */
  lemma NulCollides()
    ensures SourceIdText([97, 0], [98]) == SourceIdText([97], [0, 98])
  {
  }
}
