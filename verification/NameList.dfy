/** The NATS store keeps task metadata under one key per name, and the names as a newline-separated list
    under a key of their own. Strings are bytes here, and names are ASCII, so that the runes SetTask walks
    over are bytes too. */
module NameList {

  const TASK_PREFIX := "tasqueue-task-"
  const TASKS_KEY := "tasqueue-tasks-list"
  const RESULT_PREFIX := "tasqueue-results-"
  const NUL := 0 as char

  predicate ValidName(n: string) {
    n != "" && '\n' !in n
  }

  // ---------------------------------------------------------------- what a list means

  function Newline(v: string): (i: nat)
    ensures i <= |v| && (forall k | 0 <= k < i :: v[k] != '\n') && (i < |v| ==> v[i] == '\n')
  {
    if v == "" || v[0] == '\n' then 0 else 1 + Newline(v[1..])
  }

  /** The first line, if it is not empty, and what follows it. */
  function Head(v: string): (ns: seq<string>)
    ensures forall i | 0 <= i < |ns| :: ValidName(ns[i])
  {
    if Newline(v) > 0 then [v[..Newline(v)]] else []
  }

  function Rest(v: string): string {
    if Newline(v) < |v| then v[Newline(v) + 1..] else ""
  }

  /** The non-empty lines. */
  function Names(v: string): (ns: seq<string>)
    ensures forall i | 0 <= i < |ns| :: ValidName(ns[i])
    decreases |v|
  {
    if v == "" then [] else Head(v) + Names(Rest(v))
  }

  function Join(ns: seq<string>): string {
    if ns == [] then "" else if |ns| == 1 then ns[0] else Join(ns[..|ns| - 1]) + "\n" + ns[|ns| - 1]
  }

  lemma LastOfSum<T>(a: seq<T>, b: seq<T>)
    requires b != []
    ensures (a + b)[..|a + b| - 1] == a + b[..|b| - 1] && (a + b)[|a + b| - 1] == b[|b| - 1]
  {
  }

  /** Joined lists are joined by a newline. */
  lemma {:induction false} JoinOfParts(a: seq<string>, b: seq<string>)
    requires a != [] && b != []
    ensures Join(a + b) == Join(a) + "\n" + Join(b)
    ensures |b| == 1 ==> Join(b) == b[0]
  {
    var ns := a + b;
    if |b| == 1 {
      assert ns[..|ns| - 1] == a;
    } else {
      var init := b[..|b| - 1];
      assert ns[..|ns| - 1] == a + init;
      JoinOfParts(a, init);
      assert Join(a) + "\n" + (Join(init) + "\n" + b[|b| - 1]) == Join(a) + "\n" + Join(init) + "\n" + b[|b| - 1];
    }
  }

  function Flat(ns: seq<string>): seq<string> {
    if ns == [] then [] else Flat(ns[..|ns| - 1]) + Names(ns[|ns| - 1])
  }

  lemma NewlineIs(v: string, i: nat)
    requires i <= |v| && (forall k | 0 <= k < i :: v[k] != '\n') && (i < |v| ==> v[i] == '\n')
    ensures Newline(v) == i
  {
  }

  lemma PartsOfSum<T>(a: seq<T>, m: seq<T>, b: seq<T>, i: nat)
    requires i <= |a| && |m| == 1
    ensures (a + m + b)[..i] == a[..i]
    ensures (a + m + b)[i..] == a[i..] + m + b
    ensures (a + m + b)[|a| + 1..] == b
    ensures forall k | 0 <= k < |a| :: (a + m + b)[k] == a[k]
    ensures (a + m + b)[|a|] == m[0]
  {
  }

  lemma HeadOfSum(a: string, m: string, b: string)
    requires |m| == 1 && m[0] == '\n'
    ensures Newline(a + m + b) == Newline(a) && Head(a + m + b) == Head(a)
  {
    PartsOfSum(a, m, b, Newline(a));
    NewlineIs(a + m + b, Newline(a));
  }

  lemma DropOfSum<T>(a: seq<T>, m: seq<T>, b: seq<T>, k: nat)
    requires |m| == 1 && k <= |a|
    ensures (a + m + b)[k + 1..] == if k < |a| then a[k + 1..] + m + b else b
  {
    if k < |a| {
      PartsOfSum(a, m, b, k + 1);
    } else {
      PartsOfSum(a, m, b, |a|);
    }
  }

  lemma RestOfSum(a: string, m: string, b: string)
    requires |m| == 1 && m[0] == '\n'
    ensures Rest(a + m + b) == if Newline(a) < |a| then Rest(a) + m + b else b
  {
    HeadOfSum(a, m, b);
    DropOfSum(a, m, b, Newline(a));
    hide Newline, Head;
    var v := a + m + b;
    assert Newline(v) < |v| && Rest(v) == v[Newline(a) + 1..];
  }

  lemma LinesOfParts(a: string, b: string)
    ensures Head(a + "\n" + b) == Head(a)
    ensures Rest(a + "\n" + b) == if Newline(a) < |a| then Rest(a) + "\n" + b else b
  {
    hide Head, Rest, Newline;
    HeadOfSum(a, "\n", b);
    RestOfSum(a, "\n", b);
  }

  lemma {:induction false} NamesOfParts(a: string, b: string)
    ensures Names(a + "\n" + b) == Names(a) + Names(b)
    decreases |a|
  {
    LinesOfParts(a, b);
    if Newline(a) < |a| {
      NamesOfParts(Rest(a), b);
      Associate(Head(a), Names(Rest(a)), Names(b));
    } else {
      Associate(Head(a), Names(""), Names(b));
    }
  }

  lemma Associate<T>(a: seq<T>, b: seq<T>, c: seq<T>)
    ensures a + (b + c) == a + b + c
    ensures [] + c == c && a + [] == a
  {
  }

  lemma InitAndLast<T>(s: seq<T>)
    requires s != []
    ensures s == s[..|s| - 1] + [s[|s| - 1]]
  {
  }

  lemma {:induction false} NamesOfJoin(ns: seq<string>)
    ensures Names(Join(ns)) == Flat(ns)
  {
    if ns == [] {
    } else {
      hide Names;
      var init, last := ns[..|ns| - 1], ns[|ns| - 1];
      assert Flat(ns) == Flat(init) + Names(last);
      if |ns| == 1 {
        assert init == [];
        Associate([], [], Names(last));
      } else {
        assert Join(ns) == Join(init) + "\n" + last;
        NamesOfParts(Join(init), last);
        NamesOfJoin(init);
      }
    }
  }

  lemma NamesOfName(n: string)
    requires '\n' !in n
    ensures Names(n) == if n == "" then [] else [n]
  {
    NewlineIs(n, |n|);
    assert n[..|n|] == n;
    assert Head(n) + [] == Head(n);
  }

  lemma {:induction false} FlatOfNames(ns: seq<string>)
    requires forall i | 0 <= i < |ns| :: ValidName(ns[i])
    ensures Flat(ns) == ns
  {
    if ns != [] {
      var init, last := ns[..|ns| - 1], ns[|ns| - 1];
      FlatOfNames(init);
      NamesOfName(last);
      InitAndLast(ns);
    }
  }

  /** Splitting inverts joining for every list of names. */
  lemma RoundTrip(ns: seq<string>)
    requires forall i | 0 <= i < |ns| :: ValidName(ns[i])
    ensures Names(Join(ns)) == ns
  {
    NamesOfJoin(ns);
    FlatOfNames(ns);
  }

  // ---------------------------------------------------------------- the loops

  /** What is still to come, with a name begun and position i reached. */
  ghost predicate ToCome(current: string, value: string, i: nat, ns: seq<string>)
    requires i <= |value|
  {
    Names(current + value[i..]) == ns
  }

  lemma AtNewline(names: seq<string>, current: string, value: string, i: nat, ns: seq<string>)
    returns (ns': seq<string>)
    requires i < |value| && value[i] == '\n' && '\n' !in current && ToCome(current, value, i, ns)
    ensures ToCome("", value, i + 1, ns')
    ensures names + ns == (if current == "" then names else names + [current]) + ns'
  {
    hide Names;
    var rest := value[i + 1..];
    assert current + value[i..] == current + "\n" + rest;
    NamesOfParts(current, rest);
    NamesOfName(current);
    assert "" + rest == rest;
    ns' := Names(rest);
    Associate(names, [current], ns');
  }

  lemma AtLetter(current: string, value: string, i: nat, ns: seq<string>)
    requires i < |value| && ToCome(current, value, i, ns)
    ensures ToCome(current + [value[i]], value, i + 1, ns)
  {
    assert current + value[i..] == (current + [value[i]]) + value[i + 1..];
  }

  lemma AtEnd(current: string, value: string, ns: seq<string>)
    requires '\n' !in current && ToCome(current, value, |value|, ns)
    ensures ns == if current == "" then [] else [current]
  {
    assert current + value[|value|..] == current;
    NamesOfName(current);
  }

  method ParseNames(value: string) returns (names: seq<string>)
    ensures names == Names(value)
  {
    names := [];
    var current := "";
    ghost var ns := Names(value);
    assert "" + value[0..] == value;
    for i := 0 to |value|
      invariant '\n' !in current
      invariant ToCome(current, value, i, ns) && Names(value) == names + ns
    {
      var b := value[i];
      if b == '\n' {
        ns := AtNewline(names, current, value, i, ns);
        if |current| > 0 {
          names := names + [current];
          current := "";
        }
      } else {
        AtLetter(current, value, i, ns);
        current := current + [b];
      }
    }
    AtEnd(current, value, ns);
    if |current| > 0 {
      names := names + [current];
    }
  }

  method JoinNames(names: seq<string>) returns (list: string)
    ensures list == Join(names)
  {
    list := "";
    for i := 0 to |names|
      invariant list == Join(names[..i])
    {
      assert names[..i + 1][..i] == names[..i];
      if i > 0 {
        list := list + "\n";
      }
      list := list + names[i];
    }
    assert names[..|names|] == names;
  }

  function Without(ns: seq<string>, name: string): seq<string> {
    if ns == [] then [] else Without(ns[..|ns| - 1], name) + if ns[|ns| - 1] == name then [] else [ns[|ns| - 1]]
  }

  method FilterOut(names: seq<string>, name: string) returns (filtered: seq<string>)
    ensures filtered == Without(names, name)
  {
    filtered := [];
    for i := 0 to |names|
      invariant filtered == Without(names[..i], name)
    {
      assert names[..i + 1][..i] == names[..i];
      if names[i] != name {
        filtered := filtered + [names[i]];
      }
    }
    assert names[..|names|] == names;
  }

  lemma {:induction false} WithoutIsValid(ns: seq<string>, name: string)
    requires forall i | 0 <= i < |ns| :: ValidName(ns[i])
    ensures forall i | 0 <= i < |Without(ns, name)| :: ValidName(Without(ns, name)[i])
    ensures name !in Without(ns, name)
    ensures forall n | n in ns && n != name :: n in Without(ns, name)
  {
    if ns != [] { WithoutIsValid(ns[..|ns| - 1], name); }
  }

  lemma WithoutOfOne(b: seq<string>, name: string)
    ensures |b| == 1 ==> Without(b, name) == if b[0] == name then [] else b
  {
    if |b| == 1 { assert b[..0] == [] && b == [b[0]]; }
  }

  /** Nothing else is left out, doubled or moved. */
  lemma {:induction false} WithoutOfParts(a: seq<string>, b: seq<string>, name: string)
    ensures Without(a + b, name) == Without(a, name) + Without(b, name)
    ensures |b| == 1 ==> Without(b, name) == if b[0] == name then [] else b
  {
    if b == [] {
      assert a + b == a;
    } else {
      var init, last := b[..|b| - 1], if b[|b| - 1] == name then [] else [b[|b| - 1]];
      LastOfSum(a, b);
      assert Without(a + b, name) == Without(a + init, name) + last;
      assert Without(b, name) == Without(init, name) + last;
      hide Without;
      WithoutOfParts(a, init, name);
      Associate(Without(a, name), Without(init, name), last);
      WithoutOfOne(b, name);
    }
  }

  /** What DeleteTask writes back: parsed again, it is the old list with the name left out, in order. */
  lemma DeletedList(v: string, name: string)
    ensures Names(Join(Without(Names(v), name))) == Without(Names(v), name)
    ensures name !in Without(Names(v), name)
  {
    WithoutIsValid(Names(v), name);
    RoundTrip(Without(Names(v), name));
  }

  // ---------------------------------------------------------------- SetTask splits differently

  /** One entry per character, newlines too; only NUL is dropped. */
  function Chars(v: string): seq<string> {
    if v == "" then [] else Chars(v[..|v| - 1]) + if v[|v| - 1] == NUL then [] else [[v[|v| - 1]]]
  }

  method SplitChars(value: string) returns (list: seq<string>)
    ensures list == Chars(value)
  {
    list := [];
    for i := 0 to |value|
      invariant list == Chars(value[..i])
    {
      assert value[..i + 1][..i] == value[..i];
      if value[i] != NUL {
        list := list + [[value[i]]];
      }
    }
    assert value[..|value|] == value;
  }

  /** The list as SetTask leaves it. */
  function ListAfterSet(v: string, name: string): string {
    if name in Chars(v) then v else Join(Chars(v) + [name])
  }

  /** The list as it should be. */
  function Added(ns: seq<string>, name: string): seq<string> {
    if name in ns then ns else ns + [name]
  }

  lemma CharsOfAb()
    ensures Chars("ab") == ["a", "b"]
  {
    assert "ab"[..1] == "a" && "a"[..0] == "";
    assert Chars("") == [] && Chars("a") == ["a"];
  }

  /** Storing a second task after one with a longer name: the first name comes apart. */
  lemma SetTaskBreaksNames()
    ensures Names("ab") == ["ab"] && Names(ListAfterSet("ab", "c")) == ["a", "b", "c"]
  {
    NamesOfName("ab");
    CharsOfAb();
    RoundTrip(["a", "b", "c"]);
    assert ["a", "b"] + ["c"] == ["a", "b", "c"];
  }

  /** An entry is a single character of the list. */
  lemma {:induction false} CharsAre(v: string, n: string)
    ensures n in Chars(v) <==> |n| == 1 && n[0] in v && n[0] != NUL
  {
    if v != "" {
      var c := v[|v| - 1];
      CharsAre(v[..|v| - 1], n);
      InitAndLast(v);
      assert n == [c] <==> |n| == 1 && n[0] == c;
    }
  }

  /** The characters that are in some name, without NULs. */
  function Letters(v: string): seq<string> {
    if v == "" then []
    else Letters(v[..|v| - 1]) + if v[|v| - 1] == '\n' || v[|v| - 1] == NUL then [] else [[v[|v| - 1]]]
  }

  lemma {:induction false} LettersAre(v: string, n: string)
    ensures n in Letters(v) <==> n in Chars(v) && n != "\n"
  {
    if v != "" { LettersAre(v[..|v| - 1], n); }
  }

  lemma {:induction false} LettersOfParts(a: string, b: string)
    ensures Letters(a + b) == Letters(a) + Letters(b)
  {
    if b == "" {
      assert a + b == a;
    } else {
      assert (a + b)[..|a + b| - 1] == a + b[..|b| - 1];
      LettersOfParts(a, b[..|b| - 1]);
    }
  }

  lemma LettersOfLetter(n: string)
    requires |n| == 1
    ensures Letters(n) == if n[0] == '\n' || n[0] == NUL then [] else [n]
  {
    assert n[..0] == "" && n == [n[0]];
  }

  lemma LettersAroundNewline(p: string, rest: string)
    ensures Letters(p + "\n" + rest) == Letters(p) + Letters(rest)
  {
    LettersOfParts(p + "\n", rest);
    LettersOfParts(p, "\n");
    LettersOfLetter("\n");
  }

  lemma LettersOfLines(v: string)
    ensures Letters(v) == Letters(v[..Newline(v)]) + Letters(Rest(v))
  {
    hide Letters;
    var i := Newline(v);
    if i < |v| {
      LettersAroundNewline(v[..i], Rest(v));
      assert v == v[..i] + "\n" + Rest(v);
    } else {
      assert v == v[..i] + Rest(v);
      LettersOfParts(v[..i], Rest(v));
    }
  }

  lemma {:induction false} FlatOfChars(v: string)
    ensures Flat(Chars(v)) == Letters(v)
  {
    if v != "" {
      var c := v[|v| - 1];
      FlatOfChars(v[..|v| - 1]);
      if c == NUL {
        Associate(Chars(v[..|v| - 1]), [], []);
        Associate(Letters(v[..|v| - 1]), [], []);
      } else {
        assert Chars(v)[..|Chars(v)| - 1] == Chars(v[..|v| - 1]);
        if c == '\n' {
          assert [c] == "\n" && Newline([c]) == 0 && Names([c][1..]) == [];
        } else {
          NamesOfName([c]);
        }
      }
    }
  }

  /** The letters of names. */
  function Spread(ns: seq<string>): seq<string> {
    if ns == [] then [] else Spread(ns[..|ns| - 1]) + Letters(ns[|ns| - 1])
  }

  lemma {:induction false} SpreadOfParts(a: seq<string>, b: seq<string>)
    ensures Spread(a + b) == Spread(a) + Spread(b)
  {
    if b == [] {
      assert a + b == a;
    } else {
      var init, last := b[..|b| - 1], Letters(b[|b| - 1]);
      LastOfSum(a, b);
      assert Spread(a + b) == Spread(a + init) + last && Spread(b) == Spread(init) + last;
      hide Spread, Letters;
      SpreadOfParts(a, init);
      Associate(Spread(a), Spread(init), last);
    }
  }

  lemma {:induction false} LettersOfNames(v: string)
    ensures Letters(v) == Spread(Names(v))
    decreases |v|
  {
    if v != "" {
      hide Letters, Spread, Newline;
      LettersOfLines(v);
      LettersOfNames(Rest(v));
      SpreadOfParts(Head(v), Names(Rest(v)));
      SpreadOfHead(v);
    }
  }

  lemma SpreadOfHead(v: string)
    ensures Spread(Head(v)) == Letters(v[..Newline(v)])
  {
    hide Newline;
    var p := v[..Newline(v)];
    assert [p][..0] == [] && Spread([]) == [] && Spread([p]) == Letters(p);
  }

  /** A name that SetTask does not take apart. */
  predicate Plain(n: string) {
    |n| == 1 && n[0] != NUL
  }

  predicate AllPlain(ns: seq<string>) {
    forall i | 0 <= i < |ns| :: Plain(ns[i])
  }

  lemma {:induction false} SpreadIsPlain(ns: seq<string>, n: string)
    requires n in Spread(ns)
    ensures Plain(n)
  {
    var init, last := ns[..|ns| - 1], ns[|ns| - 1];
    if n in Spread(init) {
      SpreadIsPlain(init, n);
    } else {
      LettersAre(last, n);
      CharsAre(last, n);
    }
  }

  lemma {:induction false} SpreadOfPlain(ns: seq<string>)
    requires AllPlain(ns) && forall i | 0 <= i < |ns| :: ValidName(ns[i])
    ensures Spread(ns) == ns
  {
    if ns != [] {
      SpreadOfPlain(ns[..|ns| - 1]);
      LettersOfLetter(ns[|ns| - 1]);
      assert ns[|ns| - 1][0] != '\n';
      InitAndLast(ns);
    }
  }

  /** Names are their own letters only if each is one. */
  lemma SpreadIsSame(ns: seq<string>)
    requires forall i | 0 <= i < |ns| :: ValidName(ns[i])
    ensures Spread(ns) == ns <==> AllPlain(ns)
  {
    if AllPlain(ns) {
      SpreadOfPlain(ns);
    } else if Spread(ns) == ns {
      forall i | 0 <= i < |ns| ensures Plain(ns[i]) {
        SpreadIsPlain(ns, ns[i]);
      }
    }
  }

  predicate OnlyNul(n: string) {
    forall k | 0 <= k < |n| :: n[k] == NUL
  }

  lemma {:induction false} NoLetters(n: string)
    requires '\n' !in n
    ensures Letters(n) == [] <==> OnlyNul(n)
  {
    if n != "" {
      NoLetters(n[..|n| - 1]);
    }
  }

  /** The name is all NULs, and the list ends in it and has only single characters before. */
  predicate EndsInNuls(ns: seq<string>, name: string) {
    ns != [] && ns[|ns| - 1] == name && OnlyNul(name) && AllPlain(ns[..|ns| - 1])
  }

  lemma SpreadAndName(ns: seq<string>, name: string)
    requires forall i | 0 <= i < |ns| :: ValidName(ns[i])
    ensures Spread(ns) + [name] == ns <==> EndsInNuls(ns, name)
  {
    if ns != [] {
      var init, last := ns[..|ns| - 1], ns[|ns| - 1];
      InitAndLast(ns);
      NoLetters(last);
      SpreadIsSame(init);
      if Spread(ns) + [name] == ns {
        LastIsSame(Spread(ns), name, init, last);
        forall i | 0 <= i < |init| ensures Plain(init[i]) {
          SpreadIsPlain(ns, init[i]);
        }
        assert |Spread(ns)| == |init|;
      }
    }
  }

  lemma LastIsSame<T>(a: seq<T>, x: T, b: seq<T>, y: T)
    requires a + [x] == b + [y]
    ensures a == b && x == y
  {
    assert (a + [x])[|a|] == x && (b + [y])[|b|] == y;
    assert (a + [x])[..|a|] == a && (b + [y])[..|b|] == b;
  }

  /** What is read after a SetTask that rewrote the list. */
  lemma NamesAfterSet(v: string, name: string)
    requires name !in Chars(v)
    ensures Names(ListAfterSet(v, name)) == Spread(Names(v)) + Names(name)
    ensures ValidName(name) ==> Names(name) == [name]
  {
    FlatOfChars(v);
    NamesOfJoin(Chars(v) + [name]);
    assert (Chars(v) + [name])[..|Chars(v)|] == Chars(v);
    LettersOfNames(v);
    if ValidName(name) { NamesOfName(name); }
  }

  /** A single character is listed as a name only if it is an entry. */
  lemma {:induction false} PlainIsChar(v: string, n: string)
    requires n in Names(v) && Plain(n)
    ensures n in Chars(v)
    decreases |v|
  {
    CharsAre(v, n);
    if n !in Head(v) {
      PlainIsChar(Rest(v), n);
      CharsAre(Rest(v), n);
    }
  }

  lemma KeepsIfListed(v: string, name: string)
    requires ValidName(name) && name in Names(v)
    ensures Names(ListAfterSet(v, name)) == Added(Names(v), name) <==>
            AllPlain(Names(v)) || Plain(name) || EndsInNuls(Names(v), name)
  {
    CharsAre(v, name);
    if Plain(name) {
      PlainIsChar(v, name);
    } else {
      NamesAfterSet(v, name);
      SpreadAndName(Names(v), name);
    }
  }

  lemma KeepsIfNew(v: string, name: string)
    requires ValidName(name) && name !in Names(v)
    ensures Names(ListAfterSet(v, name)) == Added(Names(v), name) <==> AllPlain(Names(v))
  {
    SpreadIsSame(Names(v));
    if name in Chars(v) {
      CharsAre(v, name);
      LettersAre(v, name);
      LettersOfNames(v);
    } else {
      NamesAfterSet(v, name);
      if Spread(Names(v)) + [name] == Names(v) + [name] {
        LastIsSame(Spread(Names(v)), name, Names(v), name);
      }
    }
  }

  /** Exactly when SetTask keeps the list right: the new name must be a name, and either all stored names
      are single characters other than NUL, or the new one is such a character and already there, or it is
      all NULs and stands last behind such characters. */
  lemma SetTaskKeepsNames(v: string, name: string)
    ensures Names(ListAfterSet(v, name)) == Added(Names(v), name) <==>
            ValidName(name) && (AllPlain(Names(v)) || (Plain(name) && name in Names(v))
                                || EndsInNuls(Names(v), name))
  {
    if !ValidName(name) {
      assert name !in Names(v) && name !in Names(ListAfterSet(v, name));
      assert Added(Names(v), name)[|Names(v)|] == name;
    } else if name in Names(v) {
      KeepsIfListed(v, name);
    } else {
      KeepsIfNew(v, name);
    }
  }

  /** Whatever becomes of the others, a name that SetTask was given is listed, unless it is a character of
      other names only: then it never is. */
  lemma SetTaskLists(v: string, name: string)
    requires ValidName(name)
    ensures name in Names(ListAfterSet(v, name)) <==>
            name in Names(v) || !(|name| == 1 && name[0] in v && name[0] != NUL)
  {
    CharsAre(v, name);
    if name !in Chars(v) {
      NamesAfterSet(v, name);
    }
  }

  // ---------------------------------------------------------------- the store

  lemma KeysDiffer(name: string, other: string, id: string)
    ensures TASK_PREFIX + name != TASKS_KEY
    ensures name != other ==> TASK_PREFIX + name != TASK_PREFIX + other
    ensures RESULT_PREFIX + id != TASK_PREFIX + name && RESULT_PREFIX + id != TASKS_KEY
  {
    assert (TASK_PREFIX + name)[13] == '-' && TASKS_KEY[13] == 's';
    assert (TASK_PREFIX + name)[|TASK_PREFIX|..] == name && (TASK_PREFIX + other)[|TASK_PREFIX|..] == other;
    assert (RESULT_PREFIX + id)[9] == 'r' && (TASK_PREFIX + name)[9] == 't' && TASKS_KEY[9] == 't';
  }

  function Entry(kv: map<string, string>, name: string): seq<string> {
    if TASK_PREFIX + name in kv then [kv[TASK_PREFIX + name]] else []
  }

  /** The stored metadata of the names, in order; names without any are skipped. */
  function Stored(kv: map<string, string>, ns: seq<string>): seq<string> {
    if ns == [] then [] else Stored(kv, ns[..|ns| - 1]) + Entry(kv, ns[|ns| - 1])
  }

  function ListOf(kv: map<string, string>): string {
    if TASKS_KEY in kv then kv[TASKS_KEY] else ""
  }

  lemma StoredOfOne(kv: map<string, string>, b: seq<string>)
    ensures |b| == 1 ==> Stored(kv, b) == if "tasqueue-task-" + b[0] in kv then [kv["tasqueue-task-" + b[0]]] else []
  {
    if |b| == 1 { assert b[..0] == []; }
  }

  /** Read name by name, in the order of the list. */
  lemma {:induction false} StoredOfParts(kv: map<string, string>, a: seq<string>, b: seq<string>)
    ensures Stored(kv, a + b) == Stored(kv, a) + Stored(kv, b)
    ensures |b| == 1 ==> Stored(kv, b) == if "tasqueue-task-" + b[0] in kv then [kv["tasqueue-task-" + b[0]]] else []
  {
    if b == [] {
      assert a + b == a;
    } else {
      var init, last := b[..|b| - 1], Entry(kv, b[|b| - 1]);
      LastOfSum(a, b);
      assert Stored(kv, a + b) == Stored(kv, a + init) + last;
      assert Stored(kv, b) == Stored(kv, init) + last;
      hide Stored;
      StoredOfParts(kv, a, init);
      Associate(Stored(kv, a), Stored(kv, init), last);
      StoredOfOne(kv, b);
    }
  }

  /** Metadata under a listed name is among what is read. */
  lemma {:induction false} StoredHas(kv: map<string, string>, ns: seq<string>, name: string)
    requires name in ns && "tasqueue-task-" + name in kv
    ensures kv["tasqueue-task-" + name] in Stored(kv, ns)
  {
    if name in ns[..|ns| - 1] { StoredHas(kv, ns[..|ns| - 1], name); }
  }

  /** Metadata stored under a name does not change what is read for others. */
  lemma {:induction false} StoredElsewhere(was: map<string, string>, kv: map<string, string>, ns: seq<string>,
                                           name: string)
    requires forall k | k != TASKS_KEY && k != TASK_PREFIX + name ::
               (k in kv <==> k in was) && (k in kv ==> kv[k] == was[k])
    requires name !in ns
    ensures Stored(kv, ns) == Stored(was, ns)
  {
    if ns != [] {
      StoredElsewhere(was, kv, ns[..|ns| - 1], name);
      KeysDiffer(ns[|ns| - 1], name, "");
    }
  }

  /** Without its metadata a name is as good as gone from the list. */
  lemma {:induction false} StoredWithout(kv: map<string, string>, kv': map<string, string>,
                                         ns: seq<string>, name: string)
    requires forall n | n != name :: Entry(kv', n) == Entry(kv, n)
    requires Entry(kv', name) == []
    ensures Stored(kv', ns) == Stored(kv, Without(ns, name))
    ensures Stored(kv', Without(ns, name)) == Stored(kv, Without(ns, name))
  {
    if ns != [] {
      var n, rest := ns[|ns| - 1], ns[..|ns| - 1];
      StoredWithout(kv, kv', rest, name);
      if n == name {
        assert Without(ns, name) == Without(rest, name);
        assert Stored(kv', ns) == Stored(kv', rest);
      } else {
        var kept := Without(ns, name);
        assert kept == Without(rest, name) + [n];
        assert kept[..|kept| - 1] == Without(rest, name);
        assert Entry(kv', n) == Entry(kv, n);
      }
    }
  }

  lemma DeletedStored(was: map<string, string>, kv: map<string, string>, ns: seq<string>, name: string)
    requires forall k | k != TASKS_KEY && k != TASK_PREFIX + name ::
               (k in kv <==> k in was) && (k in kv ==> kv[k] == was[k])
    requires TASK_PREFIX + name !in kv
    ensures Stored(kv, ns) == Stored(was, Without(ns, name))
    ensures Stored(kv, Without(ns, name)) == Stored(was, Without(ns, name))
  {
    forall n | n != name ensures Entry(kv, n) == Entry(was, n) {
      KeysDiffer(n, name, "");
    }
    StoredWithout(was, kv, ns, name);
  }

  /** What GetAllTasks reads after a SetTask that kept the list right: what it read before and then the new
      metadata, or for a name that was listed before the new metadata among the rest. */
  lemma SetThenGet(was: map<string, string>, name: string, task: string)
    requires Names(ListAfterSet(ListOf(was), name)) == Added(Names(ListOf(was)), name)
    ensures var kv := was["tasqueue-task-" + name := task]
                         ["tasqueue-tasks-list" := ListAfterSet(ListOf(was), name)];
            var before, after := Stored(was, Names(ListOf(was))), Stored(kv, Names(ListOf(kv)));
            && task in after
            && (name !in Names(ListOf(was)) ==> after == before + [task])
  {
    var kv := was["tasqueue-task-" + name := task]["tasqueue-tasks-list" := ListAfterSet(ListOf(was), name)];
    var ns := Names(ListOf(was));
    KeysDiffer(name, "", "");
    StoredHas(kv, Added(ns, name), name);
    if name !in ns {
      StoredElsewhere(was, kv, ns, name);
      StoredOfParts(kv, ns, [name]);
    }
  }

  class TaskStore {
    var kv: map<string, string>

    constructor ()
      ensures kv == map[]
    {
      kv := map[];
    }

    method GetAllTasks() returns (tasks: seq<string>)
      ensures tasks == Stored(kv, if "tasqueue-tasks-list" in kv then Names(kv["tasqueue-tasks-list"]) else [])
    {
      if TASKS_KEY !in kv { return []; }
      var names := ParseNames(kv[TASKS_KEY]);
      if |names| == 0 { return []; }
      tasks := [];
      for i := 0 to |names|
        invariant tasks == Stored(kv, names[..i])
      {
        assert names[..i + 1][..i] == names[..i];
        if TASK_PREFIX + names[i] in kv {
          // the key may be missing when a deletion stopped half way
          tasks := tasks + [kv[TASK_PREFIX + names[i]]];
        }
      }
      assert names[..|names|] == names;
    }

    /** Any of the three calls to the store can fail. Once the metadata is gone, GetAllTasks answers as if
        the name had left the list, whether or not it could be rewritten. */
    method DeleteTask(name: string, deleteFails: bool, getFails: bool, putFails: bool) returns (ok: bool)
      modifies this
      ensures ok <==> !deleteFails && !getFails && ("tasqueue-tasks-list" in old(kv) ==> !putFails)
      ensures deleteFails ==> kv == old(kv)
      ensures ok && TASKS_KEY in old(kv) ==>
                TASKS_KEY in kv && Names(ListOf(kv)) == Without(Names(ListOf(old(kv))), name)
      ensures forall k | k != TASKS_KEY && k != TASK_PREFIX + name :: k in kv <==> k in old(kv)
      ensures forall k | k != TASKS_KEY && k in kv :: k in old(kv) && kv[k] == old(kv)[k]
      ensures !deleteFails ==> "tasqueue-task-" + name !in kv
      ensures !deleteFails ==> Stored(kv, Names(ListOf(kv))) == Stored(old(kv), Without(Names(ListOf(old(kv))), name))
    {
      if deleteFails { return false; }
      ghost var was, names := kv, Names(ListOf(kv));
      KeysDiffer(name, "", "");
      kv := kv - {TASK_PREFIX + name};
      DeletedStored(was, kv, names, name);
      if getFails { return false; }
      if TASKS_KEY !in kv { return true; }
      var taskNames := ParseNames(kv[TASKS_KEY]);
      var filtered := FilterOut(taskNames, name);
      var list := JoinNames(filtered);
      if putFails { return false; }
      kv := kv[TASKS_KEY := list];
      DeletedList(ListOf(was), name);
      DeletedStored(was, kv, names, name);
      return true;
    }

    method SetTask(name: string, task: string, putFails: bool, getFails: bool, listFails: bool) returns (ok: bool)
      modifies this
      ensures ok <==> !putFails && !getFails && (name in Chars(ListOf(old(kv))) || !listFails)
      ensures putFails ==> kv == old(kv)
      ensures ok ==> kv == if name in Chars(ListOf(old(kv))) then old(kv)["tasqueue-task-" + name := task]
                           else old(kv)["tasqueue-task-" + name := task]
                                       ["tasqueue-tasks-list" := ListAfterSet(ListOf(old(kv)), name)]
      ensures !ok && !putFails ==> kv == old(kv)["tasqueue-task-" + name := task]
    {
      if putFails { return false; }
      KeysDiffer(name, "", "");
      kv := kv[TASK_PREFIX + name := task];
      if getFails { return false; }
      var tasksList := [];
      if TASKS_KEY in kv {
        tasksList := SplitChars(kv[TASKS_KEY]);
      }
      var found := false;
      for i := 0 to |tasksList|
        invariant !found && name !in tasksList[..i]
      {
        if tasksList[i] == name { found := true; break; }
      }
      assert tasksList[..|tasksList|] == tasksList;
      assert found <==> name in tasksList;
      if !found {
        tasksList := tasksList + [name];
        var list := JoinNames(tasksList);
        if listFails { return false; }
        kv := kv[TASKS_KEY := list];
      }
      return true;
    }
  }
}
