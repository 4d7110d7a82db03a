/** The query string every operation builds: it starts as `?k=<key>` and each
    further parameter is appended as `&<name>=<value>`, values written verbatim
    (the library escapes nothing). `ParseQuery` is a plain split of such a
    string at every '&' and at the first '=' of each field. `ParseRender` shows
    that it recovers the key and the exact parameter sequence whenever no value
    carries a '&' of its own, and `RenderParse` that every string it accepts is
    the rendering of what it reads. */
module Query {
  import opened Options

  datatype Param = Param(name: string, value: string)

  /** What a split of the query string recovers: the API key and the other parameters in order. */
  datatype Parsed = Parsed(key: string, params: seq<Param>)

  function Field(p: Param): string {
    "&" + p.name + "=" + p.value
  }

  function Fields(ps: seq<Param>): string
    decreases |ps|
  {
    if ps == [] then "" else Field(ps[0]) + Fields(ps[1..])
  }

  /** The query string for a key and the parameters that follow it. */
  function Render(key: string, ps: seq<Param>): (q: string)
    ensures |q| >= 3 + |key| && q[..3] == "?k=" && q[3..3 + |key|] == key
  {
    "?k=" + key + Fields(ps)
  }

  /** The first position of `c` in `s`, or `|s|` when `c` does not occur. */
  function IndexOf(s: string, c: char): (i: nat)
    ensures i <= |s|
    ensures i < |s| ==> s[i] == c
    decreases |s|
  {
    if s == [] || s[0] == c then 0 else 1 + IndexOf(s[1..], c)
  }

  /** No `c` occurs before the position `IndexOf` finds, so it is the first occurrence. */
  lemma {:induction false} IndexOfFirst(s: string, c: char)
    ensures forall k :: 0 <= k < IndexOf(s, c) ==> s[k] != c
    decreases |s|
  {
    if s != [] && s[0] != c {
      IndexOfFirst(s[1..], c);
      assert forall k :: 1 <= k < IndexOf(s, c) ==> s[k] == s[1..][k - 1];
    }
  }

  /** Splits `&n1=v1&n2=v2...` into its fields; a field lacking '=' makes the whole read fail. */
  function ParseFields(s: string): Option<seq<Param>>
    decreases |s|
  {
    if s == [] then Some([])
    else if s[0] != '&' then None
    else
      var rest := s[1..];
      var i := IndexOf(rest, '&');
      var field := rest[..i];
      var j := IndexOf(field, '=');
      if j == |field| then None
      else
        match ParseFields(rest[i..])
        case None => None
        case Some(tail) => Some([Param(field[..j], field[j + 1..])] + tail)
  }

  /** Reads a query string that starts with `?k=`; the key runs to the first '&'. */
  function ParseQuery(q: string): Option<Parsed> {
    if |q| < 3 || q[..3] != "?k=" then None
    else
      var body := q[3..];
      var i := IndexOf(body, '&');
      match ParseFields(body[i..])
      case None => None
      case Some(ps) => Some(Parsed(body[..i], ps))
  }

  /** A parameter that survives the verbatim encoding: its name holds neither
      separator and its value holds no '&' (an '=' in a value is harmless). */
  predicate Clean(p: Param) {
    '&' !in p.name && '=' !in p.name && '&' !in p.value
  }

  predicate AllClean(ps: seq<Param>) {
    forall i :: 0 <= i < |ps| ==> Clean(ps[i])
  }

  lemma AllCleanAppend(a: seq<Param>, b: seq<Param>)
    requires AllClean(a) && AllClean(b)
    ensures AllClean(a + b)
  {
  }

  function Names(ps: seq<Param>): (ns: seq<string>)
    ensures |ns| == |ps|
    ensures forall i :: 0 <= i < |ps| ==> ns[i] == ps[i].name
  {
    seq(|ps|, i requires 0 <= i < |ps| => ps[i].name)
  }

  predicate Distinct(ns: seq<string>) {
    forall i, j :: 0 <= i < j < |ns| ==> ns[i] != ns[j]
  }

  /** The value of the first parameter called `name`. */
  function Lookup(ps: seq<Param>, name: string): Option<string>
    decreases |ps|
  {
    if ps == [] then None
    else if ps[0].name == name then Some(ps[0].value)
    else Lookup(ps[1..], name)
  }

  /** A lookup fails exactly for absent names, and what it finds is a parameter of the sequence. */
  lemma {:induction false} LookupSound(ps: seq<Param>, name: string)
    ensures Lookup(ps, name).None? <==> name !in Names(ps)
    ensures Lookup(ps, name).Some? ==> Param(name, Lookup(ps, name).value) in ps
    decreases |ps|
  {
    if ps != [] {
      assert Names(ps) == [ps[0].name] + Names(ps[1..]);
      LookupSound(ps[1..], name);
    }
  }

  /** The first `c` in `a + b` is where `b` starts, when `a` has none and `b` starts with one. */
  lemma IndexOfAppend(a: string, b: string, c: char)
    requires c !in a
    requires b == [] || b[0] == c
    ensures IndexOf(a + b, c) == |a|
  {
    IndexOfFirst(a + b, c);
    assert forall k :: 0 <= k < |a| ==> (a + b)[k] == a[k];
    assert b != [] ==> (a + b)[|a|] == c;
  }

  lemma FieldsTail(ps: seq<Param>)
    ensures Fields(ps) == [] || Fields(ps)[0] == '&'
  {
  }

  /** A clean field's text has no '&', and its first '=' separates name from value. */
  lemma FieldText(p: Param)
    requires Clean(p)
    ensures var field := p.name + ("=" + p.value);
            && '&' !in field
            && IndexOf(field, '=') == |p.name|
            && field[..|p.name|] == p.name
            && field[|p.name| + 1..] == p.value
  {
    var field := p.name + ("=" + p.value);
    assert forall k :: 0 <= k < |field| ==> field[k] in p.name || field[k] == '=' || field[k] in p.value;
    IndexOfAppend(p.name, "=" + p.value, '=');
  }

  /** Reading one rendered field in front of text that starts a new field (or is empty). */
  lemma ParseFieldsCons(p: Param, tail: string, ts: seq<Param>)
    requires Clean(p)
    requires tail == [] || tail[0] == '&'
    requires ParseFields(tail) == Some(ts)
    ensures ParseFields(Field(p) + tail) == Some([p] + ts)
  {
    var field := p.name + ("=" + p.value);
    var s := Field(p) + tail;
    assert s == "&" + (field + tail);
    FieldText(p);
    IndexOfAppend(field, tail, '&');
    var rest := field + tail;
    assert rest[..|field|] == field && rest[|field|..] == tail;
  }

  lemma {:induction false} ParseFieldsRender(ps: seq<Param>)
    requires AllClean(ps)
    ensures ParseFields(Fields(ps)) == Some(ps)
    decreases |ps|
  {
    if ps != [] {
      FieldsTail(ps[1..]);
      ParseFieldsRender(ps[1..]);
      ParseFieldsCons(ps[0], Fields(ps[1..]), ps[1..]);
      assert ps == [ps[0]] + ps[1..];
    }
  }

  /** The split gives back exactly the key and parameters the string was built from. */
  lemma ParseRender(key: string, ps: seq<Param>)
    requires '&' !in key
    requires AllClean(ps)
    ensures ParseQuery(Render(key, ps)) == Some(Parsed(key, ps))
  {
    var q := Render(key, ps);
    var body := q[3..];
    FieldsTail(ps);
    assert body == key + Fields(ps);
    IndexOfAppend(key, Fields(ps), '&');
    assert body[..|key|] == key;
    assert body[|key|..] == Fields(ps);
    ParseFieldsRender(ps);
  }

  /** One step of the split: a non-empty accepted text is a field up to the
      next '&', split at its first '=', followed by an accepted rest. */
  lemma ParseFieldsStep(s: string, ps: seq<Param>)
    requires s != [] && ParseFields(s) == Some(ps)
    ensures var i := IndexOf(s[1..], '&');
            var field := s[1..][..i];
            var j := IndexOf(field, '=');
            && s[0] == '&' && j < |field| && ParseFields(s[1..][i..]).Some?
            && ps == [Param(field[..j], field[j + 1..])] + ParseFields(s[1..][i..]).value
  {
  }

  lemma SplitAt(t: string, i: nat)
    requires i <= |t|
    ensures t == t[..i] + t[i..]
  {
  }

  /** A field split at an '=' and joined again is the field. */
  lemma Rejoin(field: string, j: nat)
    requires j < |field| && field[j] == '='
    ensures field[..j] + "=" + field[j + 1..] == field
  {
    assert field == field[..j] + field[j..];
    assert field[j..] == "=" + field[j + 1..];
  }

  /** Rendering a field read from the front of `s`, followed by the rendering of the rest, gives `s` back. */
  lemma FieldsJoin(s: string, field: string, j: nat, after: string, ps: seq<Param>, tail: seq<Param>)
    requires |s| > 0 && s[0] == '&' && s[1..] == field + after
    requires j < |field| && field[j] == '='
    requires ps == [Param(field[..j], field[j + 1..])] + tail
    requires Fields(tail) == after
    ensures Fields(ps) == s
  {
    Rejoin(field, j);
    assert ps[1..] == tail;
    assert Field(ps[0]) == "&" + field;
    assert s == [s[0]] + s[1..];
  }

  /** Every field list the split accepts is the rendering of the parameters it reads. */
  lemma {:induction false} FieldsParse(s: string, ps: seq<Param>)
    requires ParseFields(s) == Some(ps)
    ensures Fields(ps) == s
    decreases |s|
  {
    if s != [] {
      ParseFieldsStep(s, ps);
      var rest := s[1..];
      var i := IndexOf(rest, '&');
      var after := rest[i..];
      var tail := ParseFields(after).value;
      FieldsParse(after, tail);
      SplitAt(rest, i);
      FieldsJoin(s, rest[..i], IndexOf(rest[..i], '='), after, ps, tail);
    }
  }

  /** Every query string the split accepts is the rendering of the key and
      parameters it reads: nothing else produces the same reading. */
  lemma RenderParse(s: string, q: Parsed)
    requires ParseQuery(s) == Some(q)
    ensures s == Render(q.key, q.params)
  {
    ParseQueryStep(s, q);
    var body := s[3..];
    var i := IndexOf(body, '&');
    FieldsParse(body[i..], q.params);
    SplitAt(body, i);
    RenderJoin(s, q.key, body[i..], q.params);
  }

  /** What an accepted query string consists of: `?k=`, the key up to the first '&', and accepted fields. */
  lemma ParseQueryStep(s: string, q: Parsed)
    requires ParseQuery(s) == Some(q)
    ensures |s| >= 3 && s[..3] == "?k="
    ensures var i := IndexOf(s[3..], '&');
            q.key == s[3..][..i] && ParseFields(s[3..][i..]) == Some(q.params)
  {
  }

  lemma RenderJoin(s: string, key: string, after: string, ps: seq<Param>)
    requires |s| >= 3 && s[..3] == "?k=" && s[3..] == key + after
    requires Fields(ps) == after
    ensures s == Render(key, ps)
  {
    assert s == s[..3] + s[3..];
  }

  /** Two parameter lists with the same distinct names that agree on every
      name's lookup are the same list. */
  lemma SameParams(ps: seq<Param>, qs: seq<Param>)
    requires Names(ps) == Names(qs) && Distinct(Names(ps))
    requires forall n :: n in Names(ps) ==> Lookup(ps, n) == Lookup(qs, n)
    ensures ps == qs
  {
    forall k | 0 <= k < |ps|
      ensures ps[k] == qs[k]
    {
      assert Names(ps)[k] == ps[k].name == qs[k].name;
      assert Names(ps)[k] in Names(ps);
      LookupFirst(ps, k);
      LookupFirst(qs, k);
    }
  }

  lemma FieldsCons(p: Param, ps: seq<Param>)
    ensures Fields([p] + ps) == Field(p) + Fields(ps)
  {
    assert ([p] + ps)[1..] == ps;
  }

  lemma {:induction false} FieldsAppend(a: seq<Param>, b: seq<Param>)
    ensures Fields(a + b) == Fields(a) + Fields(b)
    decreases |a|
  {
    if a == [] {
      assert a + b == b;
    } else {
      assert (a + b)[0] == a[0] && (a + b)[1..] == a[1..] + b;
      FieldsAppend(a[1..], b);
      assert Fields(a + b) == Field(a[0]) + (Fields(a[1..]) + Fields(b));
    }
  }

  /** The text of a fixed list of one to four parameters is their fields in order. */
  lemma FieldsOne(p0: Param)
    ensures Fields([p0]) == Field(p0)
  {
    FieldsCons(p0, []);
    assert [p0] + [] == [p0];
  }

  lemma FieldsTwo(p0: Param, p1: Param)
    ensures Fields([p0, p1]) == Field(p0) + Field(p1)
  {
    FieldsOne(p1);
    FieldsCons(p0, [p1]);
    assert [p0] + [p1] == [p0, p1];
  }

  lemma FieldsThree(p0: Param, p1: Param, p2: Param)
    ensures Fields([p0, p1, p2]) == Field(p0) + Field(p1) + Field(p2)
  {
    FieldsTwo(p1, p2);
    FieldsCons(p0, [p1, p2]);
    assert [p0] + [p1, p2] == [p0, p1, p2];
  }

  lemma FieldsFour(p0: Param, p1: Param, p2: Param, p3: Param)
    ensures Fields([p0, p1, p2, p3]) == Field(p0) + Field(p1) + Field(p2) + Field(p3)
  {
    FieldsThree(p1, p2, p3);
    FieldsCons(p0, [p1, p2, p3]);
    assert [p0] + [p1, p2, p3] == [p0, p1, p2, p3];
    assert Field(p0) + (Field(p1) + Field(p2) + Field(p3)) == Field(p0) + Field(p1) + Field(p2) + Field(p3);
  }

  /** Regrouping a sum of fields into the flat text an interpolated string writes. */
  lemma Regroup(a: string, f0: string, f1: string, f2: string, f3: string)
    ensures a + (f0 + f1) == a + f0 + f1
    ensures a + (f0 + f1 + f2) == a + f0 + f1 + f2
    ensures a + (f0 + f1 + f2 + f3) == a + f0 + f1 + f2 + f3
  {
  }

  lemma Regroup5(a: string, f0: string, f1: string, f2: string, f3: string, f4: string)
    ensures a + (f0 + f1 + f2 + f3 + f4) == a + f0 + f1 + f2 + f3 + f4
  {
    Regroup(a, f0, f1, f2, f3);
  }

  lemma Regroup6(a: string, f0: string, f1: string, f2: string, f3: string, f4: string, f5: string)
    ensures a + (f0 + f1 + f2 + (f3 + f4 + f5)) == a + f0 + f1 + f2 + f3 + f4 + f5
  {
    Regroup(a, f0, f1, f2, f3);
    assert f0 + f1 + f2 + (f3 + f4 + f5) == f0 + f1 + f2 + f3 + f4 + f5;
  }

  /** A field appended to a text, its `&<name>=` prefix written as one literal. */
  lemma AppendField(a: string, p: Param, prefix: string)
    requires prefix == "&" + p.name + "="
    ensures a + Field(p) == a + prefix + p.value
  {
  }

  lemma FieldAs(p: Param, prefix: string)
    requires prefix == "&" + p.name + "="
    ensures Field(p) == prefix + p.value
  {
  }

  /** Fields of an optional parameter: its field when present, nothing otherwise. */
  lemma OptionalField(c: bool, p: Param, ps: seq<Param>)
    requires ps == (if c then [p] else [])
    ensures Fields(ps) == (if c then Field(p) else "")
  {
    if c {
      FieldsCons(p, []);
      assert [p] + [] == [p];
    }
  }

  /** The text of a query with one, three, four or six parameters, each field
      written as its literal `&<name>=` prefix followed by its value. */
  lemma OneText(key: string, p0: Param, pre0: string)
    requires pre0 == "&" + p0.name + "="
    ensures Render(key, [p0]) == "?k=" + key + pre0 + p0.value
  {
    FieldsOne(p0);
    AppendField("?k=" + key, p0, pre0);
  }

  lemma ThreeText(key: string, p0: Param, p1: Param, p2: Param, pre0: string, pre1: string, pre2: string)
    requires pre0 == "&" + p0.name + "=" && pre1 == "&" + p1.name + "=" && pre2 == "&" + p2.name + "="
    ensures Render(key, [p0, p1, p2]) == "?k=" + key + pre0 + p0.value + pre1 + p1.value + pre2 + p2.value
  {
    var a := "?k=" + key;
    FieldsThree(p0, p1, p2);
    Regroup(a, Field(p0), Field(p1), Field(p2), Field(p2));
    AppendField(a, p0, pre0);
    AppendField(a + pre0 + p0.value, p1, pre1);
    AppendField(a + pre0 + p0.value + pre1 + p1.value, p2, pre2);
  }

  lemma FourText(key: string, p0: Param, p1: Param, p2: Param, p3: Param, pre0: string, pre1: string, pre2: string, pre3: string)
    requires pre0 == "&" + p0.name + "=" && pre1 == "&" + p1.name + "=" && pre2 == "&" + p2.name + "=" && pre3 == "&" + p3.name + "="
    ensures Render(key, [p0, p1, p2, p3]) == "?k=" + key + pre0 + p0.value + pre1 + p1.value + pre2 + p2.value + pre3 + p3.value
  {
    var a := "?k=" + key;
    FieldsFour(p0, p1, p2, p3);
    Regroup(a, Field(p0), Field(p1), Field(p2), Field(p3));
    AppendField(a, p0, pre0);
    AppendField(a + pre0 + p0.value, p1, pre1);
    AppendField(a + pre0 + p0.value + pre1 + p1.value, p2, pre2);
    AppendField(a + pre0 + p0.value + pre1 + p1.value + pre2 + p2.value, p3, pre3);
  }

  lemma SixText(key: string, p0: Param, p1: Param, p2: Param, p3: Param, p4: Param, p5: Param,
                pre0: string, pre1: string, pre2: string, pre3: string, pre4: string, pre5: string)
    requires pre0 == "&" + p0.name + "=" && pre1 == "&" + p1.name + "=" && pre2 == "&" + p2.name + "="
    requires pre3 == "&" + p3.name + "=" && pre4 == "&" + p4.name + "=" && pre5 == "&" + p5.name + "="
    ensures Render(key, [p0, p1, p2] + [p3, p4, p5])
         == "?k=" + key + pre0 + p0.value + pre1 + p1.value + pre2 + p2.value + pre3 + p3.value + pre4 + p4.value + pre5 + p5.value
  {
    var a := "?k=" + key;
    FieldsAppend([p0, p1, p2], [p3, p4, p5]);
    FieldsThree(p0, p1, p2);
    FieldsThree(p3, p4, p5);
    Regroup6(a, Field(p0), Field(p1), Field(p2), Field(p3), Field(p4), Field(p5));
    var t1 := a + pre0 + p0.value;
    var t2 := t1 + pre1 + p1.value;
    var t3 := t2 + pre2 + p2.value;
    var t4 := t3 + pre3 + p3.value;
    var t5 := t4 + pre4 + p4.value;
    AppendField(a, p0, pre0);
    AppendField(t1, p1, pre1);
    AppendField(t2, p2, pre2);
    AppendField(t3, p3, pre3);
    AppendField(t4, p4, pre4);
    AppendField(t5, p5, pre5);
  }

  lemma NamesAppend(a: seq<Param>, b: seq<Param>)
    ensures Names(a + b) == Names(a) + Names(b)
  {
  }

  /** A parameter whose name no earlier parameter carries is the one a lookup finds. */
  lemma {:induction false} LookupFirst(ps: seq<Param>, k: nat)
    requires k < |ps|
    requires forall j :: 0 <= j < k ==> ps[j].name != ps[k].name
    ensures Lookup(ps, ps[k].name) == Some(ps[k].value)
    decreases k
  {
    if k > 0 {
      LookupFirst(ps[1..], k - 1);
    }
  }

  /** With distinct names, looking a name up answers exactly which value the sequence holds for it. */
  lemma LookupDistinct(ps: seq<Param>, name: string, value: string)
    requires Distinct(Names(ps))
    ensures Lookup(ps, name) == Some(value) <==> Param(name, value) in ps
  {
    LookupSound(ps, name);
    if Param(name, value) in ps {
      var k :| 0 <= k < |ps| && ps[k] == Param(name, value);
      var r := Lookup(ps, name);
      var m :| 0 <= m < |ps| && ps[m] == Param(name, r.value);
      assert Names(ps)[m] == Names(ps)[k];
    }
  }
}
