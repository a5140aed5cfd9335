/** What `parse_columns`, `combine_columns` and `to_deep` promise about the
    projection trees they build. */
module ColumnsProperties {

  import opened Wrappers
  import opened Dicts
  import opened Json
  import opened Text
  import opened Columns

  // ---------------------------------------------------------------------
  // The first pass of parse_columns

  /** The head of every string, in order. */
  function Heads(strings: seq<string>): (hs: seq<string>)
    ensures |hs| == |strings|
    ensures forall i :: 0 <= i < |strings| ==> hs[i] == SplitPath(strings[i]).0
  {
    if strings == [] then []
    else Heads(strings[..|strings| - 1]) + [SplitPath(strings[|strings| - 1]).0]
  }

  /** The heads of the first pass are exactly the heads of the strings. */
  lemma {:induction false} GatherKeys(strings: seq<string>)
    requires Gather(strings).Ok?
    ensures forall k :: k in Keys(Gather(strings).value) <==> k in Heads(strings)
    decreases |strings|
  {
    if strings == [] {
      return;
    }
    var init := strings[..|strings| - 1];
    GatherLast(strings);
    GatherKeys(init);
  }

  /** A name without a dot is its own head and has no rest. */
  lemma SplitBare(k: string)
    requires !Occurs(k, ".")
    ensures SplitPath(k) == (k, None)
  {
  }

  /** A dotted path splits at its first dot. */
  lemma SplitDotted(k: string, rest: string)
    requires !Occurs(k, ".")
    ensures SplitPath(k + "." + rest) == (k, Some(rest))
  {
    var s := k + "." + rest;
    assert IsAt(s, ".", |k|);
    forall j | 0 <= j < |k|
      ensures !IsAt(s, ".", j)
    {
      assert !IsAt(k, ".", j);
      assert s[j..j + 1] == k[j..j + 1];
    }
    assert Find(s, ".") == |k|;
    assert s[..|k|] == k;
    assert s[|k| + 1..] == rest;
  }

  /** Once a bare name is gathered, its head holds True: a later bare name
      sets True again, and a later dotted path under it fails. */
  lemma {:induction false} GatherBare(strings: seq<string>, i: nat)
    requires i < |strings| && Gather(strings).Ok? && !Occurs(strings[i], ".")
    ensures strings[i] in Keys(Gather(strings).value) && Get(Gather(strings).value, strings[i]) == Whole
    decreases |strings|
  {
    var init := strings[..|strings| - 1];
    GatherLast(strings);
    var cols := Gather(init).value;
    if i < |strings| - 1 {
      assert init[i] == strings[i];
      GatherBare(init, i);
      GatherOneKeepsBare(cols, strings[|strings| - 1], strings[i]);
    } else {
      GatherOneBare(cols, strings[i]);
    }
  }

  /** A gathering step that succeeds leaves True under a head that held it. */
  lemma GatherOneKeepsBare(cols: Dict<Pending>, s: string, k: string)
    requires k in Keys(cols) && Get(cols, k) == Whole && GatherOne(cols, s).Ok?
    ensures k in Keys(GatherOne(cols, s).value) && Get(GatherOne(cols, s).value, k) == Whole
  {
  }

  /** A string without a dot character holds no "." separator. */
  lemma NoDot(s: string)
    requires forall i :: 0 <= i < |s| ==> s[i] != '.'
    ensures !Occurs(s, ".")
  {
    forall j | 0 <= j && j + 1 <= |s|
      ensures !IsAt(s, ".", j)
    {
      assert s[j..j + 1][0] == s[j];
    }
  }

  /** A bare name gathered: its head holds True. */
  lemma GatherOneBare(cols: Dict<Pending>, k: string)
    requires !Occurs(k, ".")
    ensures GatherOne(cols, k) == Ok(Put(cols, k, Whole))
    ensures k in Keys(GatherOne(cols, k).value) && Get(GatherOne(cols, k).value, k) == Whole
  {
    SplitBare(k);
  }

  /** A dotted path under a new head starts a list holding its remainder. */
  lemma GatherOneNew(cols: Dict<Pending>, k: string, rest: string)
    requires !Occurs(k, ".") && k !in Keys(cols)
    ensures GatherOne(cols, k + "." + rest) == Ok(cols + [(k, Paths([rest]))])
  {
    SplitDotted(k, rest);
    PutNew(cols, k, Paths([rest]));
  }

  /** A dotted path under a head holding a list appends its remainder. */
  lemma GatherOneAppend(cols: Dict<Pending>, k: string, rest: string, i: nat)
    requires !Occurs(k, ".") && i < |cols| && cols[i].0 == k && cols[i].1.Paths?
    requires forall j :: 0 <= j < i ==> cols[j].0 != k
    ensures GatherOne(cols, k + "." + rest) == Ok(cols[i := (k, Paths(cols[i].1.rests + [rest]))])
  {
    SplitDotted(k, rest);
    FirstIndex(cols, k, i);
    PutExisting(cols, k, Paths(cols[i].1.rests + [rest]), i);
  }

  /** The first pass over two and over three strings, step by step. */
  lemma GatherTwo(a: string, b: string)
    ensures Gather([a, b]) == (var g :- GatherOne([], a); GatherOne(g, b))
  {
    assert [a, b][..1] == [a] && [a][..0] == [];
    GatherLast([a]);
    GatherLast([a, b]);
  }

  lemma GatherThree(a: string, b: string, c: string)
    ensures Gather([a, b, c]) == (var g :- Gather([a, b]); GatherOne(g, c))
  {
    assert [a, b, c][..2] == [a, b];
    GatherLast([a, b, c]);
  }

  /** The first pass over two paths under one head gathers them into one list. */
  lemma GatherSharedPair(a: string, r1: string, r2: string)
    requires !Occurs(a, ".")
    ensures Gather([a + "." + r1, a + "." + r2]) == Ok([(a, Paths([r1, r2]))])
  {
    var one := [(a, Paths([r1]))];
    GatherOneNew([], a, r1);
    assert [] + one == one;
    GatherOneAppend(one, a, r2, 0);
    assert one[0].1.rests + [r2] == [r1, r2];
    assert one[0 := (a, Paths([r1, r2]))] == [(a, Paths([r1, r2]))];
    GatherTwo(a + "." + r1, a + "." + r2);
  }

  /** The same followed by a bare name, which is kept whole. */
  lemma GatherSharedHead(a: string, r1: string, r2: string, c: string)
    requires !Occurs(a, ".") && !Occurs(c, ".") && a != c
    ensures Gather([a + "." + r1, a + "." + r2, c]) == Ok([(a, Paths([r1, r2])), (c, Whole)])
  {
    var two := [(a, Paths([r1, r2]))];
    assert Gather([a + "." + r1, a + "." + r2]) == Ok(two) by {
      GatherSharedPair(a, r1, r2);
    }
    assert GatherOne(two, c) == Ok([(a, Paths([r1, r2])), (c, Whole)]) by {
      assert Keys(two) == [a];
      GatherOneBareNew(two, c);
      assert two + [(c, Whole)] == [(a, Paths([r1, r2])), (c, Whole)];
    }
    GatherThree(a + "." + r1, a + "." + r2, c);
  }

  /** A bare name under a new head appends True. */
  lemma GatherOneBareNew(cols: Dict<Pending>, k: string)
    requires !Occurs(k, ".") && k !in Keys(cols)
    ensures GatherOne(cols, k) == Ok(cols + [(k, Whole)])
  {
    GatherOneBare(cols, k);
    PutNew(cols, k, Whole);
  }

  /** The first pass on the example of the documentation: the two paths under
      `author` are gathered into one list, `title` is kept whole. */
  lemma GatherExample()
    ensures Gather(["author.name", "author.email", "title"]) ==
      Ok([("author", Paths(["name", "email"])), ("title", Whole)])
  {
    NoDot("author");
    NoDot("title");
    assert "author" + "." + "name" == "author.name";
    assert "author" + "." + "email" == "author.email";
    GatherSharedHead("author", "name", "email", "title");
  }

  /** The remainders under `author` parse to a tree of two True leaves. */
  lemma InnerExample()
    ensures ParseColumnsSpec(["name", "email"]) == Ok([("name", Flag(true)), ("email", Flag(true))])
  {
    var strings := ["name", "email"];
    var cols := [("name", Whole), ("email", Whole)];
    InnerGather();
    GatherBounded(strings);
    NestExample(cols, Longest(strings));
  }

  lemma InnerGather()
    ensures Gather(["name", "email"]) == Ok([("name", Whole), ("email", Whole)])
  {
    NoDot("name");
    NoDot("email");
    FirstBareName("name");
    NextBareName("name", "email");
    GatherTwo("name", "email");
  }

  /** A first bare name gathered into an empty dict. */
  lemma FirstBareName(a: string)
    requires !Occurs(a, ".")
    ensures GatherOne([], a) == Ok([(a, Whole)])
  {
    GatherOneBareNew([], a);
    assert [] + [(a, Whole)] == [(a, Whole)];
  }

  /** A second, different bare name gathered after the first. */
  lemma NextBareName(a: string, b: string)
    requires !Occurs(b, ".") && a != b
    ensures GatherOne([(a, Whole)], b) == Ok([(a, Whole), (b, Whole)])
  {
    var one := [(a, Whole)];
    assert Keys(one) == [a];
    GatherOneBareNew(one, b);
    assert one + [(b, Whole)] == [(a, Whole), (b, Whole)];
  }

  /** The second pass over entries that are all True. */
  lemma NestExample(cols: Dict<Pending>, bound: nat)
    requires cols == [("name", Whole), ("email", Whole)]
    ensures Nest(cols, bound) == Ok([("name", Flag(true)), ("email", Flag(true))])
  {
    assert RestsBelow(cols, bound);
    assert NestEntry(cols[0].1, bound).Ok? && NestEntry(cols[1].1, bound).Ok?;
    assert Nest(cols, bound).value == [("name", Flag(true)), ("email", Flag(true))];
  }

  /** The example of the documentation: `["author.name", "author.email",
      "title"]` parses to `{author: {name: True, email: True}, title: True}`. */
  lemma ParseExample()
    ensures ParseColumnsOf(Some(["author.name", "author.email", "title"])) ==
      Ok(Tree([("author", Tree([("name", Flag(true)), ("email", Flag(true))])), ("title", Flag(true))]))
  {
    var strings := ["author.name", "author.email", "title"];
    var cols := [("author", Paths(["name", "email"])), ("title", Whole)];
    GatherExample();
    GatherBounded(strings);
    OuterNest(cols, Longest(strings));
  }

  lemma OuterNest(cols: Dict<Pending>, bound: nat)
    requires cols == [("author", Paths(["name", "email"])), ("title", Whole)] && RestsBelow(cols, bound)
    ensures Nest(cols, bound) == Ok([("author", Tree([("name", Flag(true)), ("email", Flag(true))])), ("title", Flag(true))])
  {
    var inner := Tree([("name", Flag(true)), ("email", Flag(true))]);
    assert NestEntry(cols[0].1, bound) == Ok(inner) by {
      InnerExample();
    }
    assert NestEntry(cols[1].1, bound) == Ok(Flag(true));
    NestTwo(cols, bound, inner, Flag(true));
  }

  /** The second pass over two gathered entries that both parse. */
  lemma NestTwo(cols: Dict<Pending>, bound: nat, a: Columns, b: Columns)
    requires |cols| == 2 && RestsBelow(cols, bound)
    requires NestEntry(cols[0].1, bound) == Ok(a) && NestEntry(cols[1].1, bound) == Ok(b)
    ensures Nest(cols, bound) == Ok([(cols[0].0, a), (cols[1].0, b)])
  {
    var r := Nest(cols, bound);
    assert r.Ok?;
    assert r.value == [(cols[0].0, a), (cols[1].0, b)];
  }

  /** A failure in the first pass is final whatever follows. */
  lemma {:induction false} GatherFailureStays(strings: seq<string>, m: nat)
    requires m <= |strings| && Gather(strings[..m]).Err?
    ensures Gather(strings) == Err(AttributeError)
    decreases |strings|
  {
    if m < |strings| {
      var init := strings[..|strings| - 1];
      assert init[..m] == strings[..m];
      GatherFailureStays(init, m);
      GatherLast(strings);
    } else {
      assert strings[..m] == strings;
    }
  }

  // ---------------------------------------------------------------------
  // parse_columns

  /** Entries of two dicts with the same keys are found at the same place. */
  lemma {:induction false} SameKeysSamePlace<A, B>(a: Dict<A>, b: Dict<B>, k: string)
    requires Keys(a) == Keys(b)
    ensures IndexOf(a, k) == IndexOf(b, k)
    decreases |a|
  {
    if a != [] {
      assert Keys(a[1..]) == Keys(a)[1..] && Keys(b[1..]) == Keys(b)[1..];
      SameKeysSamePlace(a[1..], b[1..], k);
    }
  }

  /** The keys of `parse_columns` are the heads of the strings. */
  lemma ParseKeys(strings: seq<string>)
    requires ParseColumnsSpec(strings).Ok?
    ensures forall k :: k in Keys(ParseColumnsSpec(strings).value) <==> k in Heads(strings)
    ensures Distinct(Keys(ParseColumnsSpec(strings).value))
  {
    GatherKeys(strings);
  }

  /** A bare name maps to True in a successful parse, whatever dotted paths
      under the same head were listed before it. */
  lemma BareNameIsTrue(strings: seq<string>, i: nat)
    requires i < |strings| && ParseColumnsSpec(strings).Ok? && !Occurs(strings[i], ".")
    ensures strings[i] in Keys(ParseColumnsSpec(strings).value) && Get(ParseColumnsSpec(strings).value, strings[i]) == Flag(true)
  {
    var k := strings[i];
    var cols := Gather(strings).value;
    var r := ParseColumnsSpec(strings).value;
    GatherBare(strings, i);
    SameKeysSamePlace(r, cols, k);
  }

  /** A dotted path after a bare name with the same head fails: the head
      already holds True, which has no `append`. */
  lemma BareThenDottedFails(strings: seq<string>, i: nat, j: nat, k: string, rest: string)
    requires i < j < |strings| && !Occurs(k, ".")
    requires strings[i] == k && strings[j] == k + "." + rest
    ensures ParseColumnsSpec(strings) == Err(AttributeError)
  {
    SplitDotted(k, rest);
    if Gather(strings[..j]).Ok? {
      assert strings[..j][i] == k;
      GatherBare(strings[..j], i);
      GatherStops(strings, j);
    } else {
      GatherFailureStays(strings, j);
    }
  }

  /** The remainders of the dotted paths under head `h`, in order. */
  function RestsOf(strings: seq<string>, h: string): seq<string>
  {
    if strings == [] then []
    else
      var parts := SplitPath(strings[|strings| - 1]);
      RestsOf(strings[..|strings| - 1], h) + (if parts.0 == h && parts.1.Some? then [parts.1.value] else [])
  }

  /** No string is the bare name `h`. */
  predicate NoBare(strings: seq<string>, h: string)
  {
    forall i :: 0 <= i < |strings| ==> SplitPath(strings[i]) != (h, None)
  }

  /** `strings[i]` is a bare name, and `strings[j]` a later dotted path under it. */
  predicate BareBeforeDotted(strings: seq<string>, i: nat, j: nat)
  {
    i < j < |strings| && SplitPath(strings[j]).1.Some? && SplitPath(strings[i]) == (SplitPath(strings[j]).0, None)
  }

  /** A head the first pass holds True for was listed as a bare name. */
  lemma {:induction false} GatherWhole(strings: seq<string>, h: string)
    requires Gather(strings).Ok? && h in Keys(Gather(strings).value) && Get(Gather(strings).value, h) == Whole
    ensures exists i :: 0 <= i < |strings| && SplitPath(strings[i]) == (h, None)
    decreases |strings|
  {
    var init := strings[..|strings| - 1];
    var s := strings[|strings| - 1];
    GatherLast(strings);
    var cols := Gather(init).value;
    if SplitPath(s).0 == h {
      assert SplitPath(strings[|strings| - 1]) == (h, None);
    } else {
      GatherWhole(init, h);
      var i :| 0 <= i < |init| && SplitPath(init[i]) == (h, None);
      assert strings[i] == init[i];
    }
  }

  /** The first pass fails exactly when a bare name comes before a dotted
      path under the same head. */
  lemma GatherFailsExactly(strings: seq<string>)
    ensures Gather(strings).Err? <==> exists i: nat, j: nat :: BareBeforeDotted(strings, i, j)
  {
    if Gather(strings).Err? {
      GatherFailWitness(strings);
    } else {
      forall i: nat, j: nat | BareBeforeDotted(strings, i, j)
        ensures false
      {
        GatherFailsAt(strings, i, j);
      }
    }
  }

  lemma {:induction false} GatherFailWitness(strings: seq<string>)
    requires Gather(strings).Err?
    ensures exists i: nat, j: nat :: BareBeforeDotted(strings, i, j)
    decreases |strings|
  {
    var init := strings[..|strings| - 1];
    var s := strings[|strings| - 1];
    GatherLast(strings);
    if Gather(init).Err? {
      GatherFailWitness(init);
      var i: nat, j: nat :| BareBeforeDotted(init, i, j);
      assert strings[i] == init[i] && strings[j] == init[j];
      assert BareBeforeDotted(strings, i, j);
    } else {
      var h := SplitPath(s).0;
      assert GatherOne(Gather(init).value, s).Err?;
      GatherWhole(init, h);
      var i :| 0 <= i < |init| && SplitPath(init[i]) == (h, None);
      assert strings[i] == init[i];
      assert BareBeforeDotted(strings, i, |init|);
    }
  }

  lemma GatherFailsAt(strings: seq<string>, i: nat, j: nat)
    requires BareBeforeDotted(strings, i, j)
    ensures Gather(strings).Err?
  {
    if Gather(strings[..j]).Ok? {
      assert strings[..j][i] == strings[i];
      GatherBare(strings[..j], i);
      GatherStops(strings, j);
    } else {
      GatherFailureStays(strings, j);
    }
  }

  /** Without a bare name `h`, the first pass gathers under `h` exactly the
      remainders of its dotted paths, in order; no path under `h` means no
      entry for it. */
  lemma {:induction false} GatherRests(strings: seq<string>, h: string)
    requires Gather(strings).Ok? && NoBare(strings, h)
    ensures RestsOf(strings, h) == [] ==> h !in Keys(Gather(strings).value)
    ensures RestsOf(strings, h) != [] ==>
      h in Keys(Gather(strings).value) && Get(Gather(strings).value, h) == Paths(RestsOf(strings, h))
    decreases |strings|
  {
    if strings == [] {
      return;
    }
    var init := strings[..|strings| - 1];
    var s := strings[|strings| - 1];
    GatherLast(strings);
    assert NoBare(init, h) by {
      forall i | 0 <= i < |init| ensures SplitPath(init[i]) != (h, None) {
        assert init[i] == strings[i];
      }
    }
    GatherRests(init, h);
    assert SplitPath(s) != (h, None);
    GatherOneRests(Gather(init).value, s, h, RestsOf(init, h));
  }

  /** One step of the first pass on a string other than the bare name `h`
      adds its remainder, if it is under `h`, to what is gathered for `h`. */
  lemma GatherOneRests(cols: Dict<Pending>, s: string, h: string, rests: seq<string>)
    requires SplitPath(s) != (h, None) && GatherOne(cols, s).Ok?
    requires rests == [] ==> h !in Keys(cols)
    requires rests != [] ==> h in Keys(cols) && Get(cols, h) == Paths(rests)
    ensures var parts := SplitPath(s);
      var more := rests + (if parts.0 == h && parts.1.Some? then [parts.1.value] else []);
      (more == [] ==> h !in Keys(GatherOne(cols, s).value)) &&
      (more != [] ==> h in Keys(GatherOne(cols, s).value) && Get(GatherOne(cols, s).value, h) == Paths(more))
  {
  }

  /** A head whose first-pass value is a list was never listed bare. */
  lemma {:induction false} GatherPathsNoBare(strings: seq<string>, h: string)
    requires Gather(strings).Ok? && h in Keys(Gather(strings).value) && Get(Gather(strings).value, h).Paths?
    ensures NoBare(strings, h)
    decreases |strings|
  {
    var init := strings[..|strings| - 1];
    var s := strings[|strings| - 1];
    GatherLast(strings);
    var cols := Gather(init).value;
    var parts := SplitPath(s);
    var result := Put(cols, parts.0, Appended(cols, parts));
    assert Gather(strings) == Ok(result);
    assert parts != (h, None);
    assert NoBare(init, h) by {
      if h in Keys(cols) {
        assert Get(cols, h).Paths? by {
          if parts.0 != h {
            assert Get(result, h) == Get(cols, h);
          }
        }
        GatherPathsNoBare(init, h);
      } else {
        GatherKeys(init);
        forall i | 0 <= i < |init| ensures SplitPath(init[i]) != (h, None) {
          assert Heads(init)[i] == SplitPath(init[i]).0;
        }
      }
    }
    NoBareSnoc(strings, h);
  }

  /** No bare `h` in a list when there is none before its last string and the last is not `h`. */
  lemma NoBareSnoc(strings: seq<string>, h: string)
    requires |strings| > 0 && NoBare(strings[..|strings| - 1], h) && SplitPath(strings[|strings| - 1]) != (h, None)
    ensures NoBare(strings, h)
  {
    forall i | 0 <= i < |strings| - 1 ensures SplitPath(strings[i]) != (h, None) {
      assert strings[..|strings| - 1][i] == strings[i];
    }
  }

  /** A head listed only with dotted paths maps to the parse of their
      remainders, in order. */
  lemma DottedHeadParsesRests(strings: seq<string>, h: string)
    requires ParseColumnsSpec(strings).Ok? && RestsOf(strings, h) != [] && NoBare(strings, h)
    ensures ParseColumnsSpec(RestsOf(strings, h)).Ok?
    ensures h in Keys(ParseColumnsSpec(strings).value) &&
            Get(ParseColumnsSpec(strings).value, h) == Tree(ParseColumnsSpec(RestsOf(strings, h)).value)
  {
    var cols := Gather(strings).value;
    var bound := Longest(strings);
    GatherBounded(strings);
    var r := ParseColumnsSpec(strings).value;
    assert r == Nest(cols, bound).value;
    GatherRests(strings, h);
    SameKeysSamePlace(r, cols, h);
    var j := IndexOf(cols, h);
    assert cols[j].1 == Paths(RestsOf(strings, h));
    assert NestEntry(cols[j].1, bound) == Ok(r[j].1);
  }

  /** `parse_columns` fails exactly when a bare name comes before a dotted
      path under the same head, or when the remainders under a head that is
      never listed bare fail to parse. */
  lemma ParseFailsExactly(strings: seq<string>)
    ensures ParseColumnsSpec(strings).Err? <==>
      (exists i: nat, j: nat :: BareBeforeDotted(strings, i, j)) ||
      (exists h :: h in Heads(strings) && NoBare(strings, h) && RestsOf(strings, h) != [] &&
                   ParseColumnsSpec(RestsOf(strings, h)).Err?)
  {
    GatherFailsExactly(strings);
    if Gather(strings).Ok? {
      var cols := Gather(strings).value;
      var bound := Longest(strings);
      GatherBounded(strings);
      GatherKeys(strings);
      if ParseColumnsSpec(strings).Err? {
        assert Nest(cols, bound).Err?;
        var j :| 0 <= j < |cols| && NestEntry(cols[j].1, bound).Err?;
        var h := cols[j].0;
        DistinctIndex(cols, j);
        GatherPathsNoBare(strings, h);
        GatherRests(strings, h);
        assert h in Heads(strings);
      } else {
        forall h | h in Heads(strings) && NoBare(strings, h) && RestsOf(strings, h) != []
          ensures ParseColumnsSpec(RestsOf(strings, h)).Ok?
        {
          DottedHeadParsesRests(strings, h);
        }
      }
    }
  }

  /** A projection tree as `parse_columns` builds it: no key twice, and
      every value True or a non-empty projection tree. */
  predicate ProjectionTree(d: Dict<Columns>)
    decreases Tree(d)
  {
    Distinct(Keys(d)) &&
    forall e :: e in d ==> e.1 == Flag(true) || (e.1.Tree? && |e.1.entries| > 0 && ProjectionTree(e.1.entries))
  }

  /** What `parse_columns` returns is a projection tree. */
  lemma {:induction false} ParsedIsProjectionTree(strings: seq<string>)
    requires ParseColumnsSpec(strings).Ok?
    ensures ProjectionTree(ParseColumnsSpec(strings).value)
    decreases Longest(strings)
  {
    var cols := Gather(strings).value;
    var bound := Longest(strings);
    GatherBounded(strings);
    var r := ParseColumnsSpec(strings).value;
    assert r == Nest(cols, bound).value;
    forall e | e in r
      ensures e.1 == Flag(true) || (e.1.Tree? && |e.1.entries| > 0 && ProjectionTree(e.1.entries))
    {
      var i :| 0 <= i < |r| && r[i] == e;
      assert NestEntry(cols[i].1, bound) == Ok(r[i].1);
      if cols[i].1.Paths? {
        var ps := cols[i].1.rests;
        assert ShortRests(cols[i].1, bound);
        ShortLongest(cols[i].1, bound);
        assert ParseColumnsSpec(ps) == Ok(r[i].1.entries);
        ParsedIsProjectionTree(ps);
        GatherKeys(ps);
        assert Heads(ps)[|ps| - 1] in Heads(ps);
      }
    }
  }

  // ---------------------------------------------------------------------
  // combine_columns

  /** The keys `combine_columns` keeps among the first `n` requested ones. */
  lemma {:induction false} CombineFirstKeys(requested: Columns, incl: Columns, n: nat)
    requires requested.Tree? && n <= |requested.entries| && CombineFirst(requested, incl, n).Ok?
    ensures forall k :: k in Keys(CombineFirst(requested, incl, n).value) <==>
      k in Keys(requested.entries[..n]) && incl.Tree? && k in Keys(incl.entries) && Selects(Get(incl.entries, k))
    decreases n
  {
    if n > 0 {
      CombineFirstKeys(requested, incl, n - 1);
      assert Keys(requested.entries[..n]) == Keys(requested.entries[..n - 1]) + [requested.entries[n - 1].0];
    }
  }

  /** Each key kept among the first `n` holds what `Merge` makes of one
      requested entry with that key and the include value of the key. */
  lemma {:induction false} CombineFirstValues(requested: Columns, incl: Columns, n: nat)
    requires requested.Tree? && n <= |requested.entries| && CombineFirst(requested, incl, n).Ok?
    ensures forall k :: k in Keys(CombineFirst(requested, incl, n).value) ==>
      incl.Tree? && k in Keys(incl.entries) &&
      exists j :: (0 <= j < n && requested.entries[j].0 == k &&
                   Merge(requested.entries[j].1, Get(incl.entries, k)) == Ok(Some(Get(CombineFirst(requested, incl, n).value, k))))
    decreases n
  {
    if n == 0 {
      return;
    }
    CombineFirstValues(requested, incl, n - 1);
    var acc := CombineFirst(requested, incl, n - 1).value;
    var r := CombineFirst(requested, incl, n).value;
    var (kn, v) := requested.entries[n - 1];
    assert r == CombineAt(requested, incl, n - 1, acc).value;
    forall k | k in Keys(r)
      ensures incl.Tree? && k in Keys(incl.entries) &&
        exists j :: (0 <= j < n && requested.entries[j].0 == k &&
                     Merge(requested.entries[j].1, Get(incl.entries, k)) == Ok(Some(Get(r, k))))
    {
      var iv := GetIncluded(incl, kn).value;
      if Merge(v, iv).value.Some? && k == kn {
        assert requested.entries[n - 1].0 == k;
      } else {
        var j :| 0 <= j < n - 1 && requested.entries[j].0 == k &&
          Merge(requested.entries[j].1, Get(incl.entries, k)) == Ok(Some(Get(acc, k)));
      }
    }
  }

  /** `combine_columns` keeps exactly the requested keys whose include value
      is truthy, and stores for each what `Merge` makes of the two values. */
  lemma CombineKeys(requested: Columns, incl: Columns)
    requires Combine(requested, incl).Ok?
    ensures forall k :: k in Keys(Combine(requested, incl).value) <==>
      requested.Tree? && k in Keys(requested.entries) && incl.Tree? && k in Keys(incl.entries) && Selects(Get(incl.entries, k))
    ensures requested.Tree? && Distinct(Keys(requested.entries)) ==>
      forall k :: k in Keys(Combine(requested, incl).value) ==>
        Merge(Get(requested.entries, k), Get(incl.entries, k)) == Ok(Some(Get(Combine(requested, incl).value, k)))
  {
    var n := |requested.entries|;
    assert requested.entries[..n] == requested.entries;
    CombineFirstKeys(requested, incl, n);
    CombineFirstValues(requested, incl, n);
    if Distinct(Keys(requested.entries)) {
      forall k | k in Keys(Combine(requested, incl).value)
        ensures Merge(Get(requested.entries, k), Get(incl.entries, k)) == Ok(Some(Get(Combine(requested, incl).value, k)))
      {
        var j :| 0 <= j < n && requested.entries[j].0 == k &&
          Merge(requested.entries[j].1, Get(incl.entries, k)) == Ok(Some(Get(Combine(requested, incl).value, k)));
        DistinctIndex(requested.entries, j);
      }
    }
  }

  /** Combining a projection tree with itself gives the tree back. */
  lemma {:induction false} CombineSelf(d: Dict<Columns>)
    requires ProjectionTree(d)
    ensures Combine(Tree(d), Tree(d)) == Ok(d)
    decreases Tree(d), 2
  {
    CombineSelfFirst(d, |d|);
    assert d[..|d|] == d;
  }

  lemma {:induction false} CombineSelfFirst(d: Dict<Columns>, n: nat)
    requires ProjectionTree(d) && n <= |d|
    ensures CombineFirst(Tree(d), Tree(d), n) == Ok(d[..n])
    decreases Tree(d), 1, n
  {
    if n > 0 {
      assert CombineFirst(Tree(d), Tree(d), n - 1) == Ok(d[..n - 1]) by {
        CombineSelfFirst(d, n - 1);
      }
      assert CombineAt(Tree(d), Tree(d), n - 1, d[..n - 1]) == Ok(d[..n]) by {
        CombineSelfStep(d, n - 1);
      }
    }
  }

  lemma {:induction false} CombineSelfStep(d: Dict<Columns>, i: nat)
    requires ProjectionTree(d) && i < |d|
    ensures CombineAt(Tree(d), Tree(d), i, d[..i]) == Ok(d[..i + 1])
    decreases Tree(d), 0
  {
    var (k, v) := d[i];
    assert d[i] in d;
    DistinctIndex(d, i);
    assert GetIncluded(Tree(d), k) == Ok(v);
    MergeSelf(v);
    DistinctFresh(d, i);
    PutNew(d[..i], k, v);
    assert d[..i] + [(k, v)] == d[..i + 1];
  }

  lemma {:induction false} MergeSelf(v: Columns)
    requires v == Flag(true) || (v.Tree? && |v.entries| > 0 && ProjectionTree(v.entries))
    ensures Merge(v, v) == Ok(Some(v))
    decreases v, 3
  {
    if v != Flag(true) {
      CombineSelf(v.entries);
    }
  }

  // ---------------------------------------------------------------------
  // to_deep

  /** `to_deep` settles the include projection: a second call for the same
      key changes nothing and yields the same scope. */
  lemma ToDeepSettles(incl: Columns, excl: Columns, key: string)
    ensures ToDeep(ToDeep(incl, excl, key).0, excl, key) == ToDeep(incl, excl, key)
  {
  }
}
